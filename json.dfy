/**
 * The parsed JSON documents the providers answer with, and the System.Text.Json
 * navigation the service applies to them. TryGetProperty and GetArrayLength throw
 * InvalidOperationException on an element of the wrong kind and GetString throws on
 * anything but a string or null; those throws are the Fault outcome of a Step.
 */
module Json {
  import opened Wrappers

  datatype Json =
    | JNull
    | JBool(b: bool)
    | JNumber(n: int)
    | JString(s: string)
    | JArray(items: seq<Json>)
    | JObject(fields: map<string, Json>)

  /** One navigation step: the element found, no such element (a false TryGetProperty, an empty array), or a throw. */
  datatype Step<+T> = Found(value: T) | Absent | Fault {
    predicate IsFailure() { !Found? }
    function PropagateFailure<U>(): Step<U>
      requires IsFailure()
    {
      if Absent? then Absent else Fault
    }
    function Extract(): T
      requires Found?
    {
      value
    }
  }

  /** JsonElement.TryGetProperty */
  function Property(j: Json, name: string): Step<Json>
  {
    match j
    case JObject(fields) => if name in fields then Found(fields[name]) else Absent
    case _ => Fault
  }

  /** `e.GetArrayLength() > 0` followed by `e[0]` */
  function FirstItem(j: Json): Step<Json>
  {
    match j
    case JArray(items) => if |items| > 0 then Found(items[0]) else Absent
    case _ => Fault
  }

  /** JsonElement.GetString: null for a JSON null */
  function GetString(j: Json): Step<Option<string>>
  {
    match j
    case JString(s) => Found(Some(s))
    case JNull => Found(None)
    case _ => Fault
  }

  /** The answer of Gemini, for text and for audio: candidates[0].content.parts[0].text */
  function GeminiText(response: Json): Step<Option<string>>
  {
    var candidates :- Property(response, "candidates");
    var firstCandidate :- FirstItem(candidates);
    var content :- Property(firstCandidate, "content");
    var parts :- Property(content, "parts");
    var firstPart :- FirstItem(parts);
    var text :- Property(firstPart, "text");
    GetString(text)
  }

  /**
   * The answer of Hugging Face: [0].generated_text. The body is read as a JsonElement[]:
   * a JSON null gives a null array, anything else but an array is a JsonException.
   */
  function HuggingFaceText(response: Json): Step<Option<string>>
  {
    match response
    case JNull => Absent
    case JArray(items) =>
      if |items| == 0 then Absent
      else
        var generated :- Property(items[0], "generated_text");
        GetString(generated)
    case _ => Fault
  }

  /** The answer of Whisper: text */
  function WhisperText(response: Json): Step<Option<string>>
  {
    var text :- Property(response, "text");
    GetString(text)
  }

  /** The three response shapes the service reads. */
  datatype Shape = GeminiShape | HuggingFaceShape | WhisperShape

  function ResponseText(shape: Shape, response: Json): Step<Option<string>>
  {
    match shape
    case GeminiShape => GeminiText(response)
    case HuggingFaceShape => HuggingFaceText(response)
    case WhisperShape => WhisperText(response)
  }

  // Reference definition: each shape is a fixed path of selectors.

  datatype Selector = Key(name: string) | Index0

  function Select(j: Json, s: Selector): Step<Json>
  {
    match s
    case Key(name) => Property(j, name)
    case Index0 => FirstItem(j)
  }

  /** Follows a path; the first missing step gives Absent, the first step on the wrong kind Fault. */
  function Navigate(j: Json, path: seq<Selector>): Step<Json>
    decreases |path|
  {
    if path == [] then Found(j)
    else
      var next :- Select(j, path[0]);
      Navigate(next, path[1..])
  }

  function PathOf(shape: Shape): seq<Selector>
  {
    match shape
    case GeminiShape => [Key("candidates"), Index0, Key("content"), Key("parts"), Index0, Key("text")]
    case HuggingFaceShape => [Index0, Key("generated_text")]
    case WhisperShape => [Key("text")]
  }

  /** Reading the string at the end of the shape's path; a null Hugging Face array has no first item. */
  function TextAtPath(shape: Shape, response: Json): Step<Option<string>>
  {
    if shape == HuggingFaceShape && response == JNull then Absent
    else
      var leaf :- Navigate(response, PathOf(shape));
      GetString(leaf)
  }

  lemma NavigateCons(j: Json, s: Selector, rest: seq<Selector>)
    ensures Navigate(j, [s] + rest) ==
      match Select(j, s)
      case Found(next) => Navigate(next, rest)
      case Absent => Absent
      case Fault => Fault
  {
    assert ([s] + rest)[1..] == rest;
  }

  /** Each extractor yields exactly what the string at the end of its fixed path gives. */
  lemma {:induction false} ExtractFollowsPath(shape: Shape, response: Json)
    ensures ResponseText(shape, response) == TextAtPath(shape, response)
  {
    var p := PathOf(shape);
    match shape
    case WhisperShape =>
      assert p == [p[0]] + [];
      NavigateCons(response, p[0], []);
    case HuggingFaceShape =>
      if response != JNull {
        assert p == [p[0]] + [p[1]];
        NavigateCons(response, p[0], [p[1]]);
        if response.JArray? && |response.items| > 0 {
          assert [p[1]] == [p[1]] + [];
          NavigateCons(response.items[0], p[1], []);
        }
      }
    case GeminiShape =>
      assert p == [p[0]] + p[1..];
      NavigateCons(response, p[0], p[1..]);
      var c := Property(response, "candidates");
      if c.Found? {
        assert p[1..] == [p[1]] + p[2..];
        NavigateCons(c.value, p[1], p[2..]);
        var c0 := FirstItem(c.value);
        if c0.Found? {
          assert p[2..] == [p[2]] + p[3..];
          NavigateCons(c0.value, p[2], p[3..]);
          var content := Property(c0.value, "content");
          if content.Found? {
            assert p[3..] == [p[3]] + p[4..];
            NavigateCons(content.value, p[3], p[4..]);
            var parts := Property(content.value, "parts");
            if parts.Found? {
              assert p[4..] == [p[4]] + p[5..];
              NavigateCons(parts.value, p[4], p[5..]);
              var part0 := FirstItem(parts.value);
              if part0.Found? {
                assert p[5..] == [p[5]] + [];
                NavigateCons(part0.value, p[5], []);
              }
            }
          }
        }
      }
  }

  // Builders of the well-formed answers, the inverse of extraction.

  function StringOrNull(t: Option<string>): Json
  {
    if t.Some? then JString(t.value) else JNull
  }

  function WellFormedResponse(shape: Shape, t: Option<string>): Json
  {
    match shape
    case GeminiShape =>
      JObject(map["candidates" := JArray([JObject(map["content" :=
        JObject(map["parts" := JArray([JObject(map["text" := StringOrNull(t)])])])])])])
    case HuggingFaceShape => JArray([JObject(map["generated_text" := StringOrNull(t)])])
    case WhisperShape => JObject(map["text" := StringOrNull(t)])
  }

  /** Extraction reads back the text (or null) a well-formed answer carries. */
  lemma ExtractWellFormed(shape: Shape, t: Option<string>)
    ensures ResponseText(shape, WellFormedResponse(shape, t)) == Found(t)
  {
  }
}
