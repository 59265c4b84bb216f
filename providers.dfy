/**
 * The four provider calls of IAService: TryGeminiAsync (the only one that retries),
 * TryHuggingFaceAsync, TryWhisperTranscriptionAsync and TryGeminiAudioAsync.
 * Every HTTP exchange is an oracle outcome; what the service does with the outside
 * world (each POST with its request, each Task.Delay) is recorded in a trace.
 */
module Providers {
  import opened Wrappers
  import opened Text
  import opened Json

  newtype Byte = b: int | 0 <= b < 256

  /** What the parsed body of a response is: a JSON document, or text JsonSerializer rejects. */
  datatype Body = Parsed(json: Json) | Unparseable

  /** One HttpClient.PostAsync: a response with its status code and body, or an exception. */
  datatype HttpOutcome = Responded(status: int, body: Body) | Threw

  /** HttpResponseMessage.IsSuccessStatusCode */
  predicate IsSuccessStatusCode(status: int)
  {
    200 <= status <= 299
  }

  const ServiceUnavailable := 503

  datatype Provider = Gemini | HuggingFace | Whisper | GeminiAudio

  /** The content of one POST, with the fields that the service fills from its inputs. */
  datatype Request =
    | TextRequest(prompt: string)
    | WhisperRequest(fileName: string, contentType: string, audio: seq<Byte>)
    | GeminiAudioRequest(instruction: string, mimeType: string, audio: seq<Byte>)

  /** What the service does to the outside world: a POST to a provider, or a Task.Delay of some seconds. */
  datatype Event = Post(provider: Provider, request: Request) | Delay(seconds: nat)

  /** The result of one Try*Async call (null or a string) and what it did. */
  datatype Attempt = Attempt(text: Option<string>, trace: seq<Event>)

  /** The two API keys of GeminiAISettings and HuggingFaceSettings. */
  datatype Settings = Settings(geminiApiKey: Option<string>, huggingFaceApiKey: Option<string>)

  const GeminiPlaceholder := "your-gemini-api-key-here"
  const HuggingFacePlaceholder := "your-huggingface-api-key-here"

  predicate GeminiKeyConfigured(key: Option<string>)
  {
    !IsNullOrEmpty(key) && key.value != GeminiPlaceholder
  }

  predicate HuggingFaceKeyConfigured(key: Option<string>)
  {
    !IsNullOrEmpty(key) && key.value != HuggingFacePlaceholder
  }

  /** Math.Pow(2, n) */
  function Pow2(n: nat): nat
  {
    if n == 0 then 1 else 2 * Pow2(n - 1)
  }

  // ---------------------------------------------------------------------------
  // The providers that make one attempt

  /**
   * The text one non-retrying attempt yields: an exception, a non-success status,
   * an unparseable body or an answer without the expected text all give null.
   */
  function OneShotText(outcome: HttpOutcome, shape: Shape): (r: Option<string>)
    ensures r.Some? ==> outcome.Responded? && IsSuccessStatusCode(outcome.status)
                        && outcome.body.Parsed? && ResponseText(shape, outcome.body.json) == Found(r)
    ensures (outcome.Responded? && IsSuccessStatusCode(outcome.status) && outcome.body.Parsed?
             && ResponseText(shape, outcome.body.json).Found?) ==> r == ResponseText(shape, outcome.body.json).value
  {
    match outcome
    case Threw => None
    case Responded(status, body) =>
      if !IsSuccessStatusCode(status) then None
      else match body
        case Unparseable => None
        case Parsed(j) => match ResponseText(shape, j)
          case Found(t) => t
          case _ => None
  }

  /** TryHuggingFaceAsync: without a configured key, null and no request. */
  function TryHuggingFace(settings: Settings, prompt: string, outcome: HttpOutcome): (a: Attempt)
    ensures !HuggingFaceKeyConfigured(settings.huggingFaceApiKey) ==> a == Attempt(None, [])
    ensures HuggingFaceKeyConfigured(settings.huggingFaceApiKey) ==>
              a.trace == [Post(HuggingFace, TextRequest(prompt))] && a.text == OneShotText(outcome, HuggingFaceShape)
    ensures a.text.Some? ==> outcome.Responded? && IsSuccessStatusCode(outcome.status)
  {
    if !HuggingFaceKeyConfigured(settings.huggingFaceApiKey) then Attempt(None, [])
    else Attempt(OneShotText(outcome, HuggingFaceShape), [Post(HuggingFace, TextRequest(prompt))])
  }

  /** The content type TryWhisperTranscriptionAsync gives the audio part, whatever the file. */
  const WhisperContentType := "audio/mpeg"

  /** TryWhisperTranscriptionAsync: uses the Hugging Face key. */
  function TryWhisper(settings: Settings, audio: seq<Byte>, fileName: string, outcome: HttpOutcome): (a: Attempt)
    ensures !HuggingFaceKeyConfigured(settings.huggingFaceApiKey) ==> a == Attempt(None, [])
    ensures HuggingFaceKeyConfigured(settings.huggingFaceApiKey) ==>
              a.trace == [Post(Whisper, WhisperRequest(fileName, WhisperContentType, audio))]
              && a.text == OneShotText(outcome, WhisperShape)
    ensures a.text.Some? ==> outcome.Responded? && IsSuccessStatusCode(outcome.status)
  {
    if !HuggingFaceKeyConfigured(settings.huggingFaceApiKey) then Attempt(None, [])
    else Attempt(OneShotText(outcome, WhisperShape),
                 [Post(Whisper, WhisperRequest(fileName, WhisperContentType, audio))])
  }

  /** The MIME type TryGeminiAudioAsync derives from a lower-cased extension. */
  function MimeType(extension: string): (mime: string)
    ensures mime == "audio/mpeg" || mime == "audio/wav" || mime == "audio/mp4" || mime == "audio/ogg"
    ensures extension == ".mp3" ==> mime == "audio/mpeg"
    ensures extension == ".wav" ==> mime == "audio/wav"
    ensures extension == ".m4a" ==> mime == "audio/mp4"
    ensures extension == ".ogg" ==> mime == "audio/ogg"
    ensures extension !in {".mp3", ".wav", ".m4a", ".ogg"} ==> mime == "audio/mpeg"
  {
    match extension
    case ".mp3" => "audio/mpeg"
    case ".wav" => "audio/wav"
    case ".m4a" => "audio/mp4"
    case ".ogg" => "audio/ogg"
    case _ => "audio/mpeg"
  }

  const TranscribeInstruction := "Transcribe este audio a texto:"

  /** TryGeminiAudioAsync: uses the Gemini key; the MIME type comes from the file's extension. */
  function TryGeminiAudio(settings: Settings, audio: seq<Byte>, fileName: string, outcome: HttpOutcome): (a: Attempt)
    ensures !GeminiKeyConfigured(settings.geminiApiKey) ==> a == Attempt(None, [])
    ensures GeminiKeyConfigured(settings.geminiApiKey) ==>
              a.trace == [Post(GeminiAudio, GeminiAudioRequest(TranscribeInstruction,
                                                               MimeType(Lower(Extension(fileName))), audio))]
              && a.text == OneShotText(outcome, GeminiShape)
    ensures a.text.Some? ==> outcome.Responded? && IsSuccessStatusCode(outcome.status)
  {
    if !GeminiKeyConfigured(settings.geminiApiKey) then Attempt(None, [])
    else
      var mime := MimeType(Lower(Extension(fileName)));
      Attempt(OneShotText(outcome, GeminiShape),
              [Post(GeminiAudio, GeminiAudioRequest(TranscribeInstruction, mime, audio))])
  }

  // ---------------------------------------------------------------------------
  // TryGeminiAsync: the retry loop

  /** What one Gemini attempt decides: return a value, or go on (the catch block, or `continue` after a 503). */
  datatype Verdict = Return(text: Option<string>) | Retry

  /**
   * A 503 retries unless it is the last attempt; an exception, an unparseable body or
   * a JSON element of the wrong kind is caught and retried; any other failure status
   * and a missing element end the loop with null.
   */
  function GeminiVerdict(outcome: HttpOutcome, isLast: bool): Verdict
  {
    match outcome
    case Threw => Retry
    case Responded(status, body) =>
      if status == ServiceUnavailable && !isLast then Retry
      else if !IsSuccessStatusCode(status) then Return(None)
      else match body
        case Unparseable => Retry
        case Parsed(j) => match GeminiText(j)
          case Found(t) => Return(t)
          case Absent => Return(None)
          case Fault => Retry
  }

  /**
   * Reference definition of TryGeminiAsync from a given attempt on: each attempt
   * posts the prompt; a retry waits 2^attempt seconds when attempts remain.
   */
  function GeminiRetry(key: Option<string>, prompt: string, net: nat -> HttpOutcome,
                       maxRetries: int, attempt: nat): Attempt
    requires 1 <= attempt
    decreases if attempt <= maxRetries then maxRetries - attempt + 1 else 0
  {
    if attempt > maxRetries || !GeminiKeyConfigured(key) then Attempt(None, [])
    else
      var post := Post(Gemini, TextRequest(prompt));
      match GeminiVerdict(net(attempt), attempt >= maxRetries)
      case Return(t) => Attempt(t, [post])
      case Retry =>
        var rest := GeminiRetry(key, prompt, net, maxRetries, attempt + 1);
        var wait := if attempt < maxRetries then [Delay(Pow2(attempt))] else [];
        Attempt(rest.text, [post] + wait + rest.trace)
  }

  /** The trace so far followed by what the remaining attempts do. */
  function Continue(trace: seq<Event>, rest: Attempt): Attempt
  {
    Attempt(rest.text, trace + rest.trace)
  }

  /** One unfolding of GeminiRetry at a retried attempt. */
  lemma GeminiRetryRetries(key: Option<string>, prompt: string, net: nat -> HttpOutcome,
                           maxRetries: int, attempt: nat, trace: seq<Event>)
    requires 1 <= attempt <= maxRetries && GeminiKeyConfigured(key)
    requires GeminiVerdict(net(attempt), attempt >= maxRetries) == Retry
    ensures Continue(trace, GeminiRetry(key, prompt, net, maxRetries, attempt))
            == Continue(trace + [Post(Gemini, TextRequest(prompt))]
                          + (if attempt < maxRetries then [Delay(Pow2(attempt))] else []),
                        GeminiRetry(key, prompt, net, maxRetries, attempt + 1))
  {
    var post := Post(Gemini, TextRequest(prompt));
    var wait := if attempt < maxRetries then [Delay(Pow2(attempt))] else [];
    var rest := GeminiRetry(key, prompt, net, maxRetries, attempt + 1);
    assert trace + ([post] + wait + rest.trace) == trace + [post] + wait + rest.trace;
  }

  /** TryGeminiAsync(prompt, maxRetries); `net(a)` is what the POST of attempt a yields. */
  method TryGemini(settings: Settings, prompt: string, net: nat -> HttpOutcome, maxRetries: int)
    returns (text: Option<string>, trace: seq<Event>)
    ensures Attempt(text, trace) == GeminiRetry(settings.geminiApiKey, prompt, net, maxRetries, 1)
  {
    var key := settings.geminiApiKey;
    trace := [];
    var attempt := 1;
    while attempt <= maxRetries
      invariant 1 <= attempt
      invariant attempt > 1 ==> GeminiKeyConfigured(key)
      invariant GeminiRetry(key, prompt, net, maxRetries, 1)
                == Continue(trace, GeminiRetry(key, prompt, net, maxRetries, attempt))
      decreases maxRetries - attempt
    {
      if IsNullOrEmpty(key) || key.value == GeminiPlaceholder {
        return None, trace;
      }
      var response := net(attempt);
      if response.Responded? && response.status == ServiceUnavailable && attempt < maxRetries {
        GeminiRetryRetries(key, prompt, net, maxRetries, attempt, trace);
        trace := trace + [Post(Gemini, TextRequest(prompt))] + [Delay(Pow2(attempt))];
        attempt := attempt + 1;
        continue;
      }
      trace := trace + [Post(Gemini, TextRequest(prompt))];
      // the branches that do not return are those where the try block throws
      if response.Responded? {
        if !IsSuccessStatusCode(response.status) {
          return None, trace;
        }
        if response.body.Parsed? {
          var extracted := GeminiText(response.body.json);
          if extracted.Absent? {
            return None, trace;
          } else if extracted.Found? {
            return extracted.value, trace;
          }
        }
      }
      // the catch block
      GeminiRetryRetries(key, prompt, net, maxRetries, attempt, trace[..|trace| - 1]);
      if attempt < maxRetries {
        trace := trace + [Delay(Pow2(attempt))];
      }
      attempt := attempt + 1;
    }
    return None, trace;
  }

  // ---------------------------------------------------------------------------
  // What the retry loop can do

  /** The posts of the trace that went to provider p. */
  function PostCount(trace: seq<Event>, p: Provider): nat
  {
    if trace == [] then 0
    else (if trace[0].Post? && trace[0].provider == p then 1 else 0) + PostCount(trace[1..], p)
  }

  /** The Task.Delay durations of the trace, in order. */
  function Waits(trace: seq<Event>): seq<nat>
  {
    if trace == [] then []
    else (if trace[0].Delay? then [trace[0].seconds] else []) + Waits(trace[1..])
  }

  lemma {:induction false} PostCountConcat(a: seq<Event>, b: seq<Event>, p: Provider)
    ensures PostCount(a + b, p) == PostCount(a, p) + PostCount(b, p)
    decreases |a|
  {
    if a != [] {
      assert (a + b)[1..] == a[1..] + b;
      PostCountConcat(a[1..], b, p);
    } else {
      assert a + b == b;
    }
  }

  lemma {:induction false} WaitsConcat(a: seq<Event>, b: seq<Event>)
    ensures Waits(a + b) == Waits(a) + Waits(b)
    decreases |a|
  {
    if a != [] {
      assert (a + b)[1..] == a[1..] + b;
      WaitsConcat(a[1..], b);
    } else {
      assert a + b == b;
    }
  }

  /**
   * The shape of n Gemini attempts from attempt a on: a post, a wait of 2^a seconds,
   * a post, a wait of 2^(a+1) seconds, ..., ending with a post.
   */
  function Backoff(prompt: string, attempt: nat, n: nat): seq<Event>
    decreases n
  {
    if n == 0 then []
    else if n == 1 then [Post(Gemini, TextRequest(prompt))]
    else [Post(Gemini, TextRequest(prompt)), Delay(Pow2(attempt))] + Backoff(prompt, attempt + 1, n - 1)
  }

  lemma {:induction false} BackoffCounts(prompt: string, attempt: nat, n: nat)
    ensures PostCount(Backoff(prompt, attempt, n), Gemini) == n
    ensures PostCount(Backoff(prompt, attempt, n), HuggingFace) == 0
    ensures |Waits(Backoff(prompt, attempt, n))| == if n == 0 then 0 else n - 1
    ensures forall i :: 0 <= i < |Waits(Backoff(prompt, attempt, n))| ==>
              Waits(Backoff(prompt, attempt, n))[i] == Pow2(attempt + i)
    ensures forall i :: 0 <= i < |Backoff(prompt, attempt, n)| && Backoff(prompt, attempt, n)[i].Post? ==>
              Backoff(prompt, attempt, n)[i] == Post(Gemini, TextRequest(prompt))
    decreases n
  {
    if n >= 2 {
      var post := Post(Gemini, TextRequest(prompt));
      var rest := Backoff(prompt, attempt + 1, n - 1);
      BackoffCounts(prompt, attempt + 1, n - 1);
      PostCountConcat([post, Delay(Pow2(attempt))], rest, Gemini);
      PostCountConcat([post, Delay(Pow2(attempt))], rest, HuggingFace);
      WaitsConcat([post, Delay(Pow2(attempt))], rest);
      assert Waits([post, Delay(Pow2(attempt))]) == [Pow2(attempt)];
    }
  }

  /** The attempts left from `attempt` on. */
  function Remaining(attempt: nat, maxRetries: int): nat
  {
    if attempt <= maxRetries then maxRetries - attempt + 1 else 0
  }

  /** Whatever the provider answers, the loop follows the backoff schedule and stops within its attempts. */
  lemma {:induction false} GeminiRetryFollowsBackoff(key: Option<string>, prompt: string, net: nat -> HttpOutcome,
                                                     maxRetries: int, attempt: nat)
    requires 1 <= attempt
    ensures exists n: nat :: n <= Remaining(attempt, maxRetries)
                        && GeminiRetry(key, prompt, net, maxRetries, attempt).trace == Backoff(prompt, attempt, n)
    decreases Remaining(attempt, maxRetries)
  {
    var r := GeminiRetry(key, prompt, net, maxRetries, attempt);
    if attempt > maxRetries || !GeminiKeyConfigured(key) {
      assert r.trace == Backoff(prompt, attempt, 0);
    } else if GeminiVerdict(net(attempt), attempt >= maxRetries).Return? {
      assert r.trace == Backoff(prompt, attempt, 1);
    } else {
      var rest := GeminiRetry(key, prompt, net, maxRetries, attempt + 1);
      GeminiRetryFollowsBackoff(key, prompt, net, maxRetries, attempt + 1);
      var m: nat :| m <= Remaining(attempt + 1, maxRetries) && rest.trace == Backoff(prompt, attempt + 1, m);
      if attempt < maxRetries {
        assert rest.trace != [];
        assert r.trace == Backoff(prompt, attempt, m + 1);
      } else {
        assert r.trace == Backoff(prompt, attempt, 1);
      }
    }
  }

  /**
   * TryGeminiAsync posts at most maxRetries times, only to Gemini, and waits
   * 2s, 4s, ... between consecutive posts: never after the last post, so the
   * 2^maxRetries-second wait never happens.
   */
  lemma GeminiRetryWaits(key: Option<string>, prompt: string, net: nat -> HttpOutcome, maxRetries: int)
    ensures var r := GeminiRetry(key, prompt, net, maxRetries, 1);
            var posts := PostCount(r.trace, Gemini);
            && posts <= Remaining(1, maxRetries)
            && PostCount(r.trace, HuggingFace) == 0
            && |Waits(r.trace)| == (if posts == 0 then 0 else posts - 1)
            && (forall i :: 0 <= i < |Waits(r.trace)| ==> Waits(r.trace)[i] == Pow2(i + 1))
            && (forall i :: 0 <= i < |r.trace| && r.trace[i].Post? ==> r.trace[i] == Post(Gemini, TextRequest(prompt)))
  {
    GeminiRetryFollowsBackoff(key, prompt, net, maxRetries, 1);
    var n: nat :| n <= Remaining(1, maxRetries)
             && GeminiRetry(key, prompt, net, maxRetries, 1).trace == Backoff(prompt, 1, n);
    BackoffCounts(prompt, 1, n);
  }

  /** When every attempt throws, all maxRetries attempts are made, with every wait between them. */
  lemma {:induction false} GeminiExhaustsRetries(key: Option<string>, prompt: string, net: nat -> HttpOutcome,
                                                 maxRetries: int, attempt: nat)
    requires 1 <= attempt && GeminiKeyConfigured(key)
    requires forall a :: attempt <= a <= maxRetries ==> net(a) == Threw
    ensures GeminiRetry(key, prompt, net, maxRetries, attempt)
            == Attempt(None, Backoff(prompt, attempt, Remaining(attempt, maxRetries)))
    decreases Remaining(attempt, maxRetries)
  {
    if attempt < maxRetries {
      GeminiExhaustsRetries(key, prompt, net, maxRetries, attempt + 1);
    }
  }

  /**
   * A failure status ends the loop at once with null: any status outside 200..299
   * but 503, and 503 itself on the last attempt.
   */
  lemma GeminiStopsOnFailureStatus(key: Option<string>, prompt: string, net: nat -> HttpOutcome,
                                   maxRetries: int, attempt: nat)
    requires 1 <= attempt <= maxRetries && GeminiKeyConfigured(key)
    requires net(attempt).Responded? && !IsSuccessStatusCode(net(attempt).status)
    requires net(attempt).status != ServiceUnavailable || attempt == maxRetries
    ensures GeminiRetry(key, prompt, net, maxRetries, attempt) == Attempt(None, [Post(Gemini, TextRequest(prompt))])
  {
  }

  /** A success whose body lacks the candidates[0].content.parts[0].text path ends the loop with null, unretried. */
  lemma GeminiStopsWithoutText(key: Option<string>, prompt: string, net: nat -> HttpOutcome,
                               maxRetries: int, attempt: nat)
    requires 1 <= attempt <= maxRetries && GeminiKeyConfigured(key)
    requires net(attempt).Responded? && IsSuccessStatusCode(net(attempt).status)
    requires net(attempt).body.Parsed? && TextAtPath(GeminiShape, net(attempt).body.json) == Absent
    ensures GeminiRetry(key, prompt, net, maxRetries, attempt) == Attempt(None, [Post(Gemini, TextRequest(prompt))])
  {
    ExtractFollowsPath(GeminiShape, net(attempt).body.json);
  }

  /**
   * A success whose candidates[0].content.parts[0].text holds a string or null ends the
   * loop at once with that value: no wait follows an answered attempt.
   */
  lemma GeminiReturnsText(key: Option<string>, prompt: string, net: nat -> HttpOutcome,
                          maxRetries: int, attempt: nat, t: Option<string>)
    requires 1 <= attempt <= maxRetries && GeminiKeyConfigured(key)
    requires net(attempt).Responded? && IsSuccessStatusCode(net(attempt).status)
    requires net(attempt).body.Parsed? && TextAtPath(GeminiShape, net(attempt).body.json) == Found(t)
    ensures GeminiRetry(key, prompt, net, maxRetries, attempt) == Attempt(t, [Post(Gemini, TextRequest(prompt))])
  {
    ExtractFollowsPath(GeminiShape, net(attempt).body.json);
  }

  /** Two outages, then an answer: three posts, waits of 2s and 4s, and the answer's text. */
  lemma GeminiRecoversAfterTwoOutages(key: Option<string>, prompt: string, net: nat -> HttpOutcome, answer: string)
    requires GeminiKeyConfigured(key)
    requires net(1).Responded? && net(1).status == ServiceUnavailable
    requires net(2).Responded? && net(2).status == ServiceUnavailable
    requires net(3) == Responded(200, Parsed(WellFormedResponse(GeminiShape, Some(answer))))
    ensures GeminiRetry(key, prompt, net, 3, 1)
            == Attempt(Some(answer), [Post(Gemini, TextRequest(prompt)), Delay(2),
                                      Post(Gemini, TextRequest(prompt)), Delay(4),
                                      Post(Gemini, TextRequest(prompt))])
  {
    ExtractWellFormed(GeminiShape, Some(answer));
    assert GeminiRetry(key, prompt, net, 3, 3) == Attempt(Some(answer), [Post(Gemini, TextRequest(prompt))]);
  }
}
