/**
 * IAController: the HTTP actions in front of IAService. Each action is a chain of
 * guards that answer 400, one dispatch to the service, and a wrap of its answer in a
 * 200 response or of its exception in a 500. The service is a parameter, so the
 * actions are modelled as functions of what it does.
 */
module IAController {
  import opened Wrappers
  import opened Text
  import opened Providers
  import opened IAService

  const NullRequestMessage := "La solicitud no puede estar vacía"
  const EmptyPromptMessage := "El prompt no puede estar vacío"
  const AskErrorMessage := "Error al procesar la solicitud. Por favor, intente nuevamente."
  const NoFileMessage := "Debe proporcionar un archivo de audio"
  const TooLargeMessage := "El archivo de audio no debe exceder los 10MB"
  const FormatMessage := "Formato no soportado. Use MP3, WAV, M4A u OGG"
  const TranscribeErrorMessage := "Error al procesar el archivo de audio"

  /** The 10 MB limit, in bytes; a file of exactly this size is accepted. */
  const MaxAudioBytes := 10485760

  /** IARequestDto: both strings may arrive as null. */
  datatype IARequest = IARequest(prompt: Option<string>, context: Option<string>)

  /** IAResponseDto without its timestamp. */
  datatype IAResponse = IAResponse(response: string)

  /** An uploaded IFormFile; its Length is the number of bytes of its content. */
  datatype FormFile = FormFile(fileName: string, contentType: string, content: seq<Byte>)

  /** VoiceTranscriptionResponse without its timestamp. */
  datatype VoiceTranscriptionResponse =
    VoiceTranscriptionResponse(fileName: string, fileSize: nat, contentType: string, transcription: string)

  /** A call the controller makes to IAService. */
  datatype ServiceCall =
    | AskCall(prompt: string)
    | AskWithContextCall(prompt: string, context: string)
    | TranscribeCall(audio: seq<Byte>, fileName: string)

  /** What the service call did: returned a string or threw. */
  datatype ServiceResult = Returned(text: string) | Raised

  /** 200 with a body, 400 or 500 with a message. */
  datatype ActionResult<T> = Ok(value: T) | BadRequest(message: string) | ServerError(message: string)

  /** The action's result and the service call it made, if any. */
  datatype Handled<T> = Handled(result: ActionResult<T>, call: Option<ServiceCall>)

  /** Ask: a null request, then a blank prompt, are refused before the service is called. */
  function Ask(request: Option<IARequest>, service: ServiceCall -> ServiceResult): (h: Handled<IAResponse>)
    ensures request.None? ==> h == Handled(BadRequest(NullRequestMessage), None)
    ensures request.Some? && IsNullOrWhiteSpace(request.value.prompt) ==>
              h == Handled(BadRequest(EmptyPromptMessage), None)
    ensures h.call.Some? <==> request.Some? && !IsNullOrWhiteSpace(request.value.prompt)
    ensures h.call.Some? && !IsNullOrWhiteSpace(request.value.context) ==>
              h.call.value == AskWithContextCall(request.value.prompt.value, request.value.context.value)
    ensures h.call.Some? && IsNullOrWhiteSpace(request.value.context) ==>
              h.call.value == AskCall(request.value.prompt.value)
    ensures h.result.Ok? <==> h.call.Some? && service(h.call.value).Returned?
    ensures h.result.Ok? ==> h.result.value.response == service(h.call.value).text
    ensures h.call.Some? && service(h.call.value).Raised? ==> h.result == ServerError(AskErrorMessage)
    ensures h.result.ServerError? ==> h.result.message == AskErrorMessage
  {
    if request.None? then Handled(BadRequest(NullRequestMessage), None)
    else if IsNullOrWhiteSpace(request.value.prompt) then Handled(BadRequest(EmptyPromptMessage), None)
    else
      var prompt := request.value.prompt.value;
      var call := if !IsNullOrWhiteSpace(request.value.context)
                  then AskWithContextCall(prompt, request.value.context.value)
                  else AskCall(prompt);
      match service(call)
      case Returned(response) => Handled(Ok(IAResponse(response)), Some(call))
      case Raised => Handled(ServerError(AskErrorMessage), Some(call))
  }

  /**
   * TranscribeVoice: an absent or empty file, then one over 10 MB, then an unsupported
   * extension are refused before the service is called; the 200 body echoes the file.
   */
  function TranscribeVoice(file: Option<FormFile>, service: ServiceCall -> ServiceResult)
    : (h: Handled<VoiceTranscriptionResponse>)
    ensures file.None? || |file.value.content| == 0 ==> h == Handled(BadRequest(NoFileMessage), None)
    ensures file.Some? && |file.value.content| > MaxAudioBytes ==> h == Handled(BadRequest(TooLargeMessage), None)
    ensures file.Some? && 0 < |file.value.content| <= MaxAudioBytes
            && !IsSupportedExtension(AudioExtension(file.value.fileName)) ==>
              h == Handled(BadRequest(FormatMessage), None)
    ensures h.call.Some? <==> file.Some? && 0 < |file.value.content| <= MaxAudioBytes
                              && IsSupportedExtension(AudioExtension(file.value.fileName))
    ensures h.call.Some? ==> h.call.value == TranscribeCall(file.value.content, file.value.fileName)
    ensures h.result.Ok? <==> h.call.Some? && service(h.call.value).Returned?
    ensures h.result.Ok? ==>
              h.result.value == VoiceTranscriptionResponse(file.value.fileName, |file.value.content|,
                                                           file.value.contentType, service(h.call.value).text)
    ensures h.call.Some? && service(h.call.value).Raised? ==> h.result == ServerError(TranscribeErrorMessage)
    ensures h.result.ServerError? ==> h.result.message == TranscribeErrorMessage
  {
    if file.None? || |file.value.content| == 0 then Handled(BadRequest(NoFileMessage), None)
    else if |file.value.content| > MaxAudioBytes then Handled(BadRequest(TooLargeMessage), None)
    else if !IsSupportedExtension(AudioExtension(file.value.fileName)) then Handled(BadRequest(FormatMessage), None)
    else
      var f := file.value;
      var call := TranscribeCall(f.content, f.fileName);
      match service(call)
      case Returned(transcription) =>
        Handled(Ok(VoiceTranscriptionResponse(f.fileName, |f.content|, f.contentType, transcription)), Some(call))
      case Raised => Handled(ServerError(TranscribeErrorMessage), Some(call))
  }

  // ---------------------------------------------------------------------------
  // The controller in front of the modelled service

  /** IAService with the given keys and provider answers: it never throws. */
  function Service(settings: Settings, net: Network): ServiceCall -> ServiceResult
  {
    (call: ServiceCall) =>
      match call
      case AskCall(p) => Returned(AskReply(settings, Some(p), net).answer)
      case AskWithContextCall(p, c) => Returned(AskWithContextReply(settings, Some(p), Some(c), net).answer)
      case TranscribeCall(audio, fileName) => Returned(TranscribeReply(settings, Some(audio), fileName, net).answer)
  }

  /**
   * In front of the real service, Ask never answers 500, and every request that passes
   * its guards also passes the service's own: the answer comes from the text chain,
   * with the context in the prompt exactly when the context is not blank.
   */
  lemma AskReachesTextChain(request: IARequest, settings: Settings, net: Network)
    requires !IsNullOrWhiteSpace(request.prompt)
    ensures var h := Ask(Some(request), Service(settings, net));
            var p := request.prompt.value;
            var sent := if IsNullOrWhiteSpace(request.context) then p else ContextPrompt(request.context, p);
            h.result == Ok(IAResponse(TextChain(settings, sent, p, net).answer))
  {
  }

  /**
   * In front of the real service, TranscribeVoice never answers 500, and every file that
   * passes its guards also passes the service's: the transcription comes from the audio chain.
   */
  lemma TranscribeReachesAudioChain(file: FormFile, settings: Settings, net: Network)
    requires 0 < |file.content| <= MaxAudioBytes && IsSupportedExtension(AudioExtension(file.fileName))
    ensures var h := TranscribeVoice(Some(file), Service(settings, net));
            h.result == Ok(VoiceTranscriptionResponse(file.fileName, |file.content|, file.contentType,
                                                      AudioChain(settings, file.content, file.fileName, net).answer))
  {
  }
}
