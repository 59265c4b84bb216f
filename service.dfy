/**
 * IAService's public operations: AskAsync, AskWithContextAsync and TranscribeAudioAsync.
 * Each is a guard on its input followed by a fixed chain of two providers and a canned
 * answer. The functions state what a call answers and does; the methods follow the
 * code and are proved to agree with them.
 */
module IAService {
  import opened Wrappers
  import opened Text
  import opened Json
  import opened Providers
  import opened Fallback

  const InvalidPromptMessage := "Por favor, proporciona una pregunta válida."
  const NoAudioMessage := "No se proporcionó ningún archivo de audio."
  const UnsupportedFormatMessage := "Formato de audio no soportado. Use MP3, WAV, M4A u OGG."

  /** The default maxRetries of TryGeminiAsync, which no caller overrides. */
  const MaxRetries := 3

  /** What each provider answers during one call; Gemini's text answer per attempt number. */
  datatype Network = Network(gemini: nat -> HttpOutcome, huggingFace: HttpOutcome,
                             whisper: HttpOutcome, geminiAudio: HttpOutcome)

  /** The string a call returns and what it did to the outside world. */
  datatype Reply = Reply(answer: string, trace: seq<Event>)

  /** The prompt AskWithContextAsync sends; a null context interpolates as nothing. */
  function ContextPrompt(context: Option<string>, prompt: string): string
  {
    "Contexto: " + (if context.Some? then context.value else "") + "\n\nPregunta: " + prompt
  }

  /** The extensions both TranscribeAudioAsync and the controller accept. */
  predicate IsSupportedExtension(extension: string)
  {
    extension == ".mp3" || extension == ".wav" || extension == ".m4a" || extension == ".ogg"
  }

  /** Path.GetExtension(fileName).ToLower() */
  function AudioExtension(fileName: string): string
  {
    Lower(Extension(fileName))
  }

  // ---------------------------------------------------------------------------
  // Reference definitions

  /** Gemini with retries, then Hugging Face once, then the canned advice for fallbackPrompt. */
  function TextChain(settings: Settings, sent: string, fallbackPrompt: string, net: Network): Reply
  {
    var gemini := GeminiRetry(settings.geminiApiKey, sent, net.gemini, MaxRetries, 1);
    if !IsNullOrEmpty(gemini.text) then Reply(gemini.text.value, gemini.trace)
    else
      var huggingFace := TryHuggingFace(settings, sent, net.huggingFace);
      if !IsNullOrEmpty(huggingFace.text) then Reply(huggingFace.text.value, gemini.trace + huggingFace.trace)
      else Reply(FallbackResponse(fallbackPrompt), gemini.trace + huggingFace.trace)
  }

  function AskReply(settings: Settings, prompt: Option<string>, net: Network): Reply
  {
    if IsNullOrWhiteSpace(prompt) then Reply(InvalidPromptMessage, [])
    else TextChain(settings, prompt.value, prompt.value, net)
  }

  /** The combined prompt goes to the providers; the canned advice is chosen from the prompt alone. */
  function AskWithContextReply(settings: Settings, prompt: Option<string>, context: Option<string>,
                               net: Network): Reply
  {
    if IsNullOrWhiteSpace(prompt) then Reply(InvalidPromptMessage, [])
    else TextChain(settings, ContextPrompt(context, prompt.value), prompt.value, net)
  }

  /** Whisper once, then Gemini once, then the canned message naming the file. */
  function AudioChain(settings: Settings, audio: seq<Byte>, fileName: string, net: Network): Reply
  {
    var whisper := TryWhisper(settings, audio, fileName, net.whisper);
    if !IsNullOrEmpty(whisper.text) then Reply(whisper.text.value, whisper.trace)
    else
      var gemini := TryGeminiAudio(settings, audio, fileName, net.geminiAudio);
      if !IsNullOrEmpty(gemini.text) then Reply(gemini.text.value, whisper.trace + gemini.trace)
      else Reply(FallbackTranscription(fileName), whisper.trace + gemini.trace)
  }

  /** A null or empty stream is refused first, then an unsupported extension. */
  function TranscribeReply(settings: Settings, audio: Option<seq<Byte>>, fileName: string, net: Network): Reply
  {
    if audio.None? || |audio.value| == 0 then Reply(NoAudioMessage, [])
    else if !IsSupportedExtension(AudioExtension(fileName)) then Reply(UnsupportedFormatMessage, [])
    else AudioChain(settings, audio.value, fileName, net)
  }

  // ---------------------------------------------------------------------------
  // The operations

  method AskAsync(settings: Settings, prompt: Option<string>, net: Network)
    returns (answer: string, trace: seq<Event>)
    ensures IsNullOrWhiteSpace(prompt) ==> answer == InvalidPromptMessage && trace == []
    ensures Reply(answer, trace) == AskReply(settings, prompt, net)
  {
    if IsNullOrWhiteSpace(prompt) {
      return InvalidPromptMessage, [];
    }
    var geminiResponse, geminiTrace := TryGemini(settings, prompt.value, net.gemini, MaxRetries);
    if !IsNullOrEmpty(geminiResponse) {
      return geminiResponse.value, geminiTrace;
    }
    var huggingFace := TryHuggingFace(settings, prompt.value, net.huggingFace);
    if !IsNullOrEmpty(huggingFace.text) {
      return huggingFace.text.value, geminiTrace + huggingFace.trace;
    }
    return FallbackResponse(prompt.value), geminiTrace + huggingFace.trace;
  }

  method AskWithContextAsync(settings: Settings, prompt: Option<string>, context: Option<string>, net: Network)
    returns (answer: string, trace: seq<Event>)
    ensures IsNullOrWhiteSpace(prompt) ==> answer == InvalidPromptMessage && trace == []
    ensures Reply(answer, trace) == AskWithContextReply(settings, prompt, context, net)
  {
    if IsNullOrWhiteSpace(prompt) {
      return InvalidPromptMessage, [];
    }
    var fullPrompt := ContextPrompt(context, prompt.value);
    var geminiResponse, geminiTrace := TryGemini(settings, fullPrompt, net.gemini, MaxRetries);
    if !IsNullOrEmpty(geminiResponse) {
      return geminiResponse.value, geminiTrace;
    }
    var huggingFace := TryHuggingFace(settings, fullPrompt, net.huggingFace);
    if !IsNullOrEmpty(huggingFace.text) {
      return huggingFace.text.value, geminiTrace + huggingFace.trace;
    }
    return FallbackResponse(prompt.value), geminiTrace + huggingFace.trace;
  }

  method TranscribeAudioAsync(settings: Settings, audio: Option<seq<Byte>>, fileName: string, net: Network)
    returns (answer: string, trace: seq<Event>)
    ensures (audio.None? || |audio.value| == 0) ==> answer == NoAudioMessage && trace == []
    ensures audio.Some? && |audio.value| > 0 && !IsSupportedExtension(AudioExtension(fileName)) ==>
              answer == UnsupportedFormatMessage && trace == []
    ensures Reply(answer, trace) == TranscribeReply(settings, audio, fileName, net)
  {
    if audio.None? || |audio.value| == 0 {
      return NoAudioMessage, [];
    }
    var extension := AudioExtension(fileName);
    if extension != ".mp3" && extension != ".wav" && extension != ".m4a" && extension != ".ogg" {
      return UnsupportedFormatMessage, [];
    }
    var whisper := TryWhisper(settings, audio.value, fileName, net.whisper);
    if !IsNullOrEmpty(whisper.text) {
      return whisper.text.value, whisper.trace;
    }
    var gemini := TryGeminiAudio(settings, audio.value, fileName, net.geminiAudio);
    if !IsNullOrEmpty(gemini.text) {
      return gemini.text.value, whisper.trace + gemini.trace;
    }
    return FallbackTranscription(fileName), whisper.trace + gemini.trace;
  }

  // ---------------------------------------------------------------------------
  // What the chains promise

  /** Every post of the trace carries the prompt `sent` to one of the two text providers. */
  predicate PostsOnlyText(trace: seq<Event>, sent: string)
  {
    forall i :: 0 <= i < |trace| && trace[i].Post? ==>
      trace[i] == Post(Gemini, TextRequest(sent)) || trace[i] == Post(HuggingFace, TextRequest(sent))
  }

  /** What TryGeminiAsync with its default three attempts can do to the outside world. */
  lemma GeminiDefaultTrace(key: Option<string>, sent: string, net: nat -> HttpOutcome)
    ensures var t := GeminiRetry(key, sent, net, MaxRetries, 1).trace;
            && PostsOnlyText(t, sent)
            && PostCount(t, Gemini) <= MaxRetries
            && PostCount(t, HuggingFace) == 0
            && Waits(t) in {[], [2], [2, 4]}
            && (GeminiRetry(key, sent, net, MaxRetries, 1).text.Some? ==> PostCount(t, Gemini) >= 1)
  {
    var r := GeminiRetry(key, sent, net, MaxRetries, 1);
    if r.text.Some? {
      var rest := r.trace[1..];
      assert r.trace == [Post(Gemini, TextRequest(sent))] + rest;
      PostCountConcat([Post(Gemini, TextRequest(sent))], rest, Gemini);
    }
    GeminiRetryWaits(key, sent, net, MaxRetries);
    var w := Waits(GeminiRetry(key, sent, net, MaxRetries, 1).trace);
    assert Pow2(1) == 2 && Pow2(2) == 4;
    if |w| == 1 { assert w == [w[0]]; }
    if |w| == 2 { assert w == [w[0], w[1]]; }
  }

  /** Appending at most one Hugging Face post to a Gemini trace. */
  lemma AppendHuggingFace(g: seq<Event>, h: seq<Event>, sent: string)
    requires PostsOnlyText(g, sent) && PostCount(g, HuggingFace) == 0
    requires h == [] || h == [Post(HuggingFace, TextRequest(sent))]
    ensures PostsOnlyText(g + h, sent)
    ensures PostCount(g + h, Gemini) == PostCount(g, Gemini)
    ensures PostCount(g + h, HuggingFace) == |h|
    ensures Waits(g + h) == Waits(g)
    ensures |h| == 1 ==> (g + h)[|g + h| - 1] == Post(HuggingFace, TextRequest(sent))
  {
    PostCountConcat(g, h, Gemini);
    PostCountConcat(g, h, HuggingFace);
    WaitsConcat(g, h);
    var both := g + h;
    forall i | 0 <= i < |both| && both[i].Post?
      ensures both[i] == Post(Gemini, TextRequest(sent)) || both[i] == Post(HuggingFace, TextRequest(sent))
    {
      if i >= |g| { assert both[i] == h[i - |g|]; }
    }
  }

  /**
   * The text chain: Gemini is tried at most three times, Hugging Face at most once and
   * only after Gemini gave nothing, every request carries the same prompt, and the only
   * waits are 2 s and then 4 s.
   */
  lemma TextChainTrace(settings: Settings, sent: string, fallbackPrompt: string, net: Network)
    ensures var r := TextChain(settings, sent, fallbackPrompt, net);
            var gemini := GeminiRetry(settings.geminiApiKey, sent, net.gemini, MaxRetries, 1);
            && PostsOnlyText(r.trace, sent)
            && PostCount(r.trace, Gemini) <= MaxRetries
            && (PostCount(r.trace, HuggingFace) == 1 <==>
                  IsNullOrEmpty(gemini.text) && HuggingFaceKeyConfigured(settings.huggingFaceApiKey))
            && PostCount(r.trace, HuggingFace) <= 1
            && (PostCount(r.trace, HuggingFace) == 1 ==> r.trace[|r.trace| - 1] == Post(HuggingFace, TextRequest(sent)))
            && Waits(r.trace) in {[], [2], [2, 4]}
  {
    var gemini := GeminiRetry(settings.geminiApiKey, sent, net.gemini, MaxRetries, 1);
    GeminiDefaultTrace(settings.geminiApiKey, sent, net.gemini);
    if !IsNullOrEmpty(gemini.text) {
      AppendHuggingFace(gemini.trace, [], sent);
      assert gemini.trace + [] == gemini.trace;
    } else {
      var huggingFace := TryHuggingFace(settings, sent, net.huggingFace);
      AppendHuggingFace(gemini.trace, huggingFace.trace, sent);
    }
  }

  /** With neither key configured no request is made and every prompt gets its canned advice. */
  lemma NoKeysMeansAdvice(settings: Settings, prompt: Option<string>, context: Option<string>, net: Network)
    requires !GeminiKeyConfigured(settings.geminiApiKey) && !HuggingFaceKeyConfigured(settings.huggingFaceApiKey)
    requires !IsNullOrWhiteSpace(prompt)
    ensures AskReply(settings, prompt, net) == Reply(Advice(TopicOf(prompt.value)), [])
    ensures AskWithContextReply(settings, prompt, context, net) == Reply(Advice(TopicOf(prompt.value)), [])
  {
    FallbackFollowsTopicOrder(prompt.value);
  }

  /**
   * AskWithContextAsync sends the combined prompt and answers Gemini's text, else Hugging
   * Face's, else the canned advice chosen from the bare prompt: the context never selects it.
   */
  lemma ContextNeverSelectsAdvice(settings: Settings, prompt: Option<string>, context: Option<string>, net: Network)
    requires !IsNullOrWhiteSpace(prompt)
    ensures var r := AskWithContextReply(settings, prompt, context, net);
            var sent := ContextPrompt(context, prompt.value);
            var gemini := GeminiRetry(settings.geminiApiKey, sent, net.gemini, MaxRetries, 1);
            var huggingFace := TryHuggingFace(settings, sent, net.huggingFace);
            && PostsOnlyText(r.trace, sent)
            && (!IsNullOrEmpty(gemini.text) ==> r.answer == gemini.text.value)
            && (IsNullOrEmpty(gemini.text) && !IsNullOrEmpty(huggingFace.text) ==> r.answer == huggingFace.text.value)
            && (IsNullOrEmpty(gemini.text) && IsNullOrEmpty(huggingFace.text) ==>
                  r.answer == Advice(TopicOf(prompt.value)))
  {
    var sent := ContextPrompt(context, prompt.value);
    TextChainTrace(settings, sent, prompt.value, net);
    FallbackFollowsTopicOrder(prompt.value);
  }

  /**
   * The audio chain: Whisper at most once, then Gemini at most once and only after
   * Whisper gave nothing, each with the whole audio; Gemini is told the MIME type of
   * the file's extension, Whisper always "audio/mpeg". When neither answers, the
   * returned notice names the file.
   */
  lemma AudioChainTrace(settings: Settings, audio: seq<Byte>, fileName: string, net: Network)
    ensures var r := AudioChain(settings, audio, fileName, net);
            var whisper := TryWhisper(settings, audio, fileName, net.whisper);
            var w := Post(Whisper, WhisperRequest(fileName, WhisperContentType, audio));
            var g := Post(GeminiAudio, GeminiAudioRequest(TranscribeInstruction, MimeType(AudioExtension(fileName)), audio));
            && (r.trace == [] || r.trace == [w] || r.trace == [g] || r.trace == [w, g])
            && (w in r.trace <==> HuggingFaceKeyConfigured(settings.huggingFaceApiKey))
            && (g in r.trace <==> IsNullOrEmpty(whisper.text) && GeminiKeyConfigured(settings.geminiApiKey))
            && (r.answer == FallbackTranscription(fileName) || r.answer != "")
            && (IsNullOrEmpty(whisper.text) && IsNullOrEmpty(TryGeminiAudio(settings, audio, fileName, net.geminiAudio).text)
                ==> r.answer == FallbackTranscription(fileName) && Contains(r.answer, fileName))
  {
  }

  /** Upper-case extensions are accepted: the check lower-cases first. */
  lemma UpperCaseExtensionAccepted(fileName: string)
    requires fileName == "clase.MP3"
    ensures AudioExtension(fileName) == ".mp3"
    ensures IsSupportedExtension(AudioExtension(fileName))
  {
    assert IsExtensionDot(fileName, 5);
    ExtensionSpec(fileName);
    var e := Extension(fileName);
    assert e == ".MP3";
    LowerAt(e, 0); LowerAt(e, 1); LowerAt(e, 2); LowerAt(e, 3);
    assert Lower(e) == ".mp3";
  }

  /** Only the last extension counts. */
  lemma LastExtensionCounts(fileName: string)
    requires fileName == "clase.mp3.txt"
    ensures AudioExtension(fileName) == ".txt"
    ensures !IsSupportedExtension(AudioExtension(fileName))
  {
    assert IsExtensionDot(fileName, 9);
    ExtensionSpec(fileName);
    assert Extension(fileName) == ".txt";
    LowerKeeps(".txt");
  }
}
