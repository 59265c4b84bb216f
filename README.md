# EduVoiceAI assistant pipeline in Dafny

This project models the part of the EduVoiceAI backend that answers students' questions and
transcribes their voice notes. That part is `IAService` and the `IAController` actions in front
of it. The rest of the application (profiles, task plans, event reminders) only stores data and
is not modelled.

`IAService` never talks to a provider without first checking its input and the provider's API
key. It tries its providers in a fixed order:

- **Text**: Gemini (up to three attempts, with a back-off after a 503 or an exception), then
  Hugging Face once, then canned study advice picked by keywords of the prompt.
- **Audio**: Hugging Face Whisper once, then Gemini audio once, then a canned notice that names
  the file.

Each HTTP call is an oracle: a `Network` value says what every provider answers. The answer is
a status with a parsed JSON body, an unparseable body, or an exception, and Gemini's text answer
is given per attempt number. Each operation returns the string the service returns together with
a trace of the requests it posted and the `Task.Delay` waits it made, in order.

Files:

- `wrappers.dfy`: `Option`, for the C# strings that may be null.
- `text.dfy`: `string.IsNullOrWhiteSpace`, `ToLower`, `string.Contains` and `Path.GetExtension`.
- `json.dfy`: a JSON datatype and the `JsonElement` calls the service makes
  (`TryGetProperty`, `GetArrayLength`, `[0]`, `GetString`), with a call on the wrong kind of
  element as an explicit `Fault`. It defines the three text extractions and proves them equal
  to a reference definition that walks a fixed path.
- `providers.dfy`: the four provider calls. `TryGemini` is the retry loop as an imperative
  method, proved equal to the recursive reference `GeminiRetry`. The back-off lemmas are proved
  about `GeminiRetry`.
- `fallback.dfy`: `GetFallbackResponse` and `GetFallbackTranscription`.
- `service.dfy`: `AskAsync`, `AskWithContextAsync` and `TranscribeAudioAsync` as methods,
  proved equal to reference functions of the chains, plus lemmas about those chains.
- `controller.dfy`: `Ask` and `TranscribeVoice` as functions of an arbitrary service, and
  lemmas about them in front of the modelled service.

What the code does, as the model states it:

- `AskWithContextAsync` sends `"Contexto: {context}\n\nPregunta: {prompt}"` to the providers
  (IAService.cs:73), but picks the canned advice from the bare prompt (IAService.cs:90).
- The back-off waits are 2 s and then 4 s only. The comment at
  `IAService.cs:174` mentions 8 s, but the `attempt < maxRetries` guard means no wait follows
  the last attempt (`GeminiRetryWaits`, `IAService.GeminiDefaultTrace`).
- Keywords are matched literally in the lower-cased prompt. A prompt about "organizo" does not
  mention "organizar", so it gets the general answer, not the planning advice
  (`Fallback.ConjugatedVerbIsGeneral`).
- When `TryGeminiAsync`'s JSON handling throws (an unparseable body, or a property asked of an
  array), the exception is caught. The code then waits and retries, instead of treating the
  answer as a missing text.

## Model

| member | source | states |
|---|---|---|
| Text.ExtensionSpec | backend/EduVoiceAI.API/Services/IAService.cs:106 | `Path.GetExtension` is non-empty exactly when some '.' is followed by at least one character and by no '.' or directory separator; the extension is then the suffix from that '.' |
| Text.LowerIdempotent | backend/EduVoiceAI.API/Services/IAService.cs:492 | lower-casing twice gives the same string as lower-casing once |
| Text.ContainsIff | backend/EduVoiceAI.API/Services/IAService.cs:495 | `Contains(s, t)` holds exactly when `t` occurs in `s` at some index |
| Json.ExtractFollowsPath | backend/EduVoiceAI.API/Services/IAService.cs:192-211 | each response shape's extraction (Gemini `candidates[0].content.parts[0].text`, Hugging Face `[0].generated_text`, Whisper `text`) equals walking that fixed path: text only when every step exists and every array is non-empty, nothing when a step is missing, a fault when a step meets the wrong kind of element |
| Json.ExtractWellFormed | backend/EduVoiceAI.API/Services/IAService.cs:445-464 | a response built along a shape's path yields exactly the text (or null) put there |
| Providers.OneShotText | backend/EduVoiceAI.API/Services/IAService.cs:264-290 | a single attempt yields text only from a success status with a parsed body whose extraction found it, and such a response always yields exactly the text (or null) its extraction found |
| Providers.TryHuggingFace | backend/EduVoiceAI.API/Services/IAService.cs:229-291 | an empty, null or placeholder key gives null with no request; otherwise exactly one post of the prompt to Hugging Face, and the text is what a single attempt extracts from `[0].generated_text` |
| Providers.TryWhisper | backend/EduVoiceAI.API/Services/IAService.cs:293-364 | uses the Hugging Face key; without it null and no request; otherwise one post of the whole audio as "audio/mpeg" under the file's name, and the text is what a single attempt extracts from `text` |
| Providers.MimeType | backend/EduVoiceAI.API/Services/IAService.cs:396-403 | .mp3 gives audio/mpeg, .wav audio/wav, .m4a audio/mp4, .ogg audio/ogg, and any other extension audio/mpeg |
| Providers.TryGeminiAudio | backend/EduVoiceAI.API/Services/IAService.cs:366-471 | uses the Gemini key; without it null and no request; otherwise one post of the whole audio with the fixed instruction and the MIME type of the lower-cased extension, and the text is what a single attempt extracts from `candidates[0].content.parts[0].text` |
| Providers.TryGemini | backend/EduVoiceAI.API/Services/IAService.cs:136-228 | the retry loop's answer and its posts and waits are exactly those of the reference `GeminiRetry` from attempt 1 |
| Providers.BackoffCounts | backend/EduVoiceAI.API/Services/IAService.cs:172-177 | n attempts from attempt a post n times to Gemini, all with the same prompt, none to Hugging Face, and wait n-1 times, the i-th wait being 2^(a+i) seconds |
| Providers.GeminiRetryFollowsBackoff | backend/EduVoiceAI.API/Services/IAService.cs:138-224 | whatever Gemini answers, the trace is the back-off schedule for some number of attempts no greater than those remaining |
| Providers.GeminiRetryWaits | backend/EduVoiceAI.API/Services/IAService.cs:172-222 | at most maxRetries posts, all to Gemini with the prompt; one wait fewer than posts; the i-th wait is 2^(i+1) s, so the 2^maxRetries wait never happens |
| Providers.GeminiExhaustsRetries | backend/EduVoiceAI.API/Services/IAService.cs:213-227 | when every attempt throws, all attempts are made with the full back-off and the result is null |
| Providers.GeminiStopsOnFailureStatus | backend/EduVoiceAI.API/Services/IAService.cs:180-186 | a non-success status other than a 503 with attempts left ends the loop at once with null after one post |
| Providers.GeminiStopsWithoutText | backend/EduVoiceAI.API/Services/IAService.cs:192-211 | a success whose body lacks the text path ends the loop at once with null, without retrying |
| Providers.GeminiReturnsText | backend/EduVoiceAI.API/Services/IAService.cs:188-205 | a success whose text path holds a string or null ends the loop at once with that value after one post and no wait |
| Providers.GeminiRecoversAfterTwoOutages | backend/EduVoiceAI.API/Services/IAService.cs:170-205 | two 503s followed by a well-formed answer give that answer after post, 2 s, post, 4 s, post |
| Fallback.FallbackFollowsTopicOrder | backend/EduVoiceAI.API/Services/IAService.cs:492-547 | the `if` chain picks the first topic, in the order homework, exam, planning, motivation, that the lower-cased prompt mentions by one of its two keywords |
| Fallback.FirstMentionedSpec | backend/EduVoiceAI.API/Services/IAService.cs:495-540 | the chosen topic is mentioned and no earlier topic is; the general answer exactly when no topic is mentioned |
| Fallback.FallbackIgnoresCase | backend/EduVoiceAI.API/Services/IAService.cs:492 | a prompt and its lower-cased form get the same canned answer |
| Fallback.EarlierTopicWins | backend/EduVoiceAI.API/Services/IAService.cs:495-516 | example: "tengo examen y tarea" contains "examen" yet gets the homework advice, because the homework test comes first |
| Fallback.ConjugatedVerbIsGeneral | backend/EduVoiceAI.API/Services/IAService.cs:518-547 | "organizo" matches no keyword and gets the general answer |
| Fallback.FallbackTranscription | backend/EduVoiceAI.API/Services/IAService.cs:473-486 | the canned transcription notice contains the file name |
| IAService.AskAsync | backend/EduVoiceAI.API/Services/IAService.cs:33-59 | a null or blank prompt gives "Por favor, proporciona una pregunta válida." with no request; otherwise the answer and trace of the text chain (Gemini, Hugging Face, canned advice for the prompt) |
| IAService.AskWithContextAsync | backend/EduVoiceAI.API/Services/IAService.cs:62-91 | the same guard; then the text chain on "Contexto: …\n\nPregunta: …", with the canned advice chosen from the prompt alone |
| IAService.TranscribeAudioAsync | backend/EduVoiceAI.API/Services/IAService.cs:94-135 | null or empty audio gives the no-audio message, then an unsupported extension gives the format message, both with no request; otherwise the answer and trace of the audio chain |
| IAService.GeminiDefaultTrace | backend/EduVoiceAI.API/Services/IAService.cs:136-228 | with the default three attempts: at most 3 posts, all to Gemini with the prompt; waits are none, [2] or [2, 4]; any text means at least one post was made |
| IAService.TextChainTrace | backend/EduVoiceAI.API/Services/IAService.cs:43-58 | every post carries the same prompt to Gemini or Hugging Face; at most 3 Gemini posts; Hugging Face is posted to (once, last) exactly when Gemini gave null or "" and its key is configured; waits are none, [2] or [2, 4] |
| IAService.NoKeysMeansAdvice | backend/EduVoiceAI.API/Services/IAService.cs:43-58 | with neither key configured (the guards at IAService.cs:144-149 and 235-240), both ask operations make no request and answer the canned advice of the prompt's topic |
| IAService.ContextNeverSelectsAdvice | backend/EduVoiceAI.API/Services/IAService.cs:73-90 | every request carries the combined context prompt; the answer is Gemini's non-empty text, else Hugging Face's, else the advice for the bare prompt's topic |
| IAService.AudioChainTrace | backend/EduVoiceAI.API/Services/IAService.cs:113-134 | the trace is one of [], [Whisper], [Gemini audio], [Whisper, Gemini audio]; Whisper is posted to exactly when the Hugging Face key is configured; Gemini audio exactly when Whisper gave null or "" and the Gemini key is configured; when neither answers, the answer is the canned notice, which names the file |
| IAService.UpperCaseExtensionAccepted | backend/EduVoiceAI.API/Services/IAService.cs:106-111 | "clase.MP3" has extension ".mp3" once lower-cased and is accepted |
| IAService.LastExtensionCounts | backend/EduVoiceAI.API/Services/IAService.cs:106-111 | "clase.mp3.txt" has extension ".txt" and is refused |
| IAController.Ask | backend/EduVoiceAI.API/Controllers/IAController.cs:51-95 | a null request, then a blank prompt, answer 400 with their messages and call nothing; otherwise exactly one call, `AskWithContextAsync` when the context is not blank and `AskAsync` otherwise; 200 with the service's string unchanged, or 500 with the fixed message when it throws |
| IAController.TranscribeVoice | backend/EduVoiceAI.API/Controllers/IAController.cs:120-165 | a missing or empty file, then one over 10485760 bytes, then an unsupported extension answer 400 with their messages and call nothing; a file of exactly 10485760 bytes passes; the 200 body echoes file name, size and content type with the transcription; an exception gives 500 |
| IAController.AskReachesTextChain | backend/EduVoiceAI.API/Controllers/IAController.cs:69-88 | in front of the modelled service, an accepted request always gets 200 with the text chain's answer, the context being sent exactly when it is not blank |
| IAController.TranscribeReachesAudioChain | backend/EduVoiceAI.API/Controllers/IAController.cs:146-158 | in front of the modelled service, an accepted file always gets 200 with the audio chain's answer: the service's own guards never fire |

## Left out

- HTTP transport: URLs, request bodies beyond the prompt, audio and MIME type, `MultipartFormDataContent`, and the shared `DefaultRequestHeaders` that the Hugging Face calls clear and refill. Each call is an oracle outcome.
- JSON parsing and serialisation, and the base64 encoding of the audio for Gemini. These are library calls; a response body is either a parsed `Json` value or unparseable.
- Real waiting and the 30 s HTTP client timeout. A `Task.Delay` is recorded as a `Delay` event in the trace.
- Logging, including the constructor's log of the first ten characters of the Gemini key.
- Streams: copying into a `MemoryStream` and rewinding with `Seek`. The audio is an immutable byte sequence, so both transcription providers receive the same bytes.
- Text.Lower: lower-cases ASCII and Latin-1 capital letters only, not the full culture-sensitive `ToLower`.
- Text.ExtensionSpec: `Path.GetExtension` is modelled with '/' and '\\' as separators. Invalid path characters and volume separators are not modelled.
- The `IARequestDto` validation attributes (`[Required]`, `[MinLength]`) and the request-size attributes on `TranscribeVoice`. These let ASP.NET refuse a request before the action runs, which is framework behaviour.
- The `Timestamp` fields of `IAResponseDto` and `VoiceTranscriptionResponse`, which read the clock.
- Cancellation and other exceptions escaping the service. The modelled service never throws. The controller takes the service as a parameter that may throw, so its 500 paths are modelled.
