/**
 * The two processing endpoints (backend/app/api/routes.py) and the response bodies they
 * declare (backend/app/api/schemas.py): request validation, the call into the audio service
 * and the shaping of its result, including the validation the response model applies.
 */
module Routes {
  import opened Wrappers
  import opened Text
  import opened JsonValues
  import opened Config
  import opened AsrService
  import opened LlmService
  import opened AudioService

  const ALLOWED_TYPES: seq<string> := ["audio/mpeg", "audio/wav", "audio/x-m4a", "audio/mp4", "video/mp4"]
  /** How the allow-list prints inside the error detail. */
  const ALLOWED_TYPES_TEXT := "['audio/mpeg', 'audio/wav', 'audio/x-m4a', 'audio/mp4', 'video/mp4']"
  const DEFAULT_UPLOAD_NAME := "audio"
  const EMPTY_TEXT_DETAIL := "Text cannot be empty"
  const UNKNOWN_ERROR := "Unknown error"

  datatype TranscribeResponse = TranscribeResponse(success: bool, transcript: string, error: Option<string>)

  datatype PolishResponse = PolishResponse(
    success: bool, polishedText: string, summary: string, keywords: seq<string>, error: Option<string>)

  /** What an endpoint answers: a body, an HTTPException, or an exception the handler does
      not catch (a 500 from the framework). */
  datatype Reply<T> = Ok(body: T) | HttpError(status: nat, detail: string) | ServerError

  /** `file.filename or "audio"`: a missing or empty name becomes "audio". */
  function UploadName(filename: Option<string>): (name: string)
    ensures name != ""
    ensures filename.Some? && filename.value != "" ==> name == filename.value
    ensures filename.None? || filename.value == "" ==> name == DEFAULT_UPLOAD_NAME
  {
    if filename.Some? && filename.value != "" then filename.value else DEFAULT_UPLOAD_NAME
  }

  /** Lines 64-67: the service's `(success, result)` as a response body. */
  function TranscribeResponseOf(r: AsrResult): (resp: TranscribeResponse)
    ensures resp.success == r.success
    ensures r.success ==> resp.transcript == r.text && resp.error.None?
    ensures !r.success ==> resp.transcript == "" && resp.error == Some(r.text)
  {
    if r.success then TranscribeResponse(true, r.text, None)
    else TranscribeResponse(false, "", Some(r.text))
  }

  /** `transcribe`: the content type must be on the allow-list; a missing one prints as None.
      `content` is what `file.read()` gave. */
  function Transcribe(s: Settings, contentType: Option<string>, filename: Option<string>, content: seq<bv8>,
                      post: AsrRequest -> HttpReply): (reply: Reply<TranscribeResponse>)
    ensures reply.HttpError? ==> reply.status == 400 && StartsWith(reply.detail, "Unsupported file type: ")
    ensures reply.Ok? ==> reply.body.success && reply.body.error.None?
  {
    if contentType.None? || contentType.value !in ALLOWED_TYPES then
      var detail := "Unsupported file type: " + contentType.GetOr("None") + ". Allowed: " + ALLOWED_TYPES_TEXT;
      assert detail[..|"Unsupported file type: "|] == "Unsupported file type: ";
      HttpError(400, detail)
    else
      Ok(TranscribeResponseOf(TranscribeAudio(s, content, UploadName(filename), post)))
  }

  /** A request is refused with 400 exactly when its content type is off the list. */
  lemma TranscribeRejectsIff(s: Settings, contentType: Option<string>, filename: Option<string>, content: seq<bv8>,
                             post: AsrRequest -> HttpReply)
    ensures var reply := Transcribe(s, contentType, filename, content, post);
      (reply.HttpError? <==> contentType.None? || contentType.value !in ALLOWED_TYPES) &&
      (reply.HttpError? ==> reply.status == 400) && !reply.ServerError?
  {
  }

  /** An accepted upload always gets a successful transcript, because the service falls back
      to the mock: the failure shape of the response is never sent. */
  lemma AcceptedUploadSucceeds(s: Settings, contentType: string, filename: Option<string>, content: seq<bv8>,
                               post: AsrRequest -> HttpReply)
    requires contentType in ALLOWED_TYPES
    ensures var reply := Transcribe(s, Some(contentType), filename, content, post);
      reply.Ok? && reply.body.success && reply.body.error.None? &&
      reply.body.transcript == TranscribeAudio(s, content, UploadName(filename), post).text
  {
    TranscribeAlwaysSucceeds(s, content, UploadName(filename), post);
  }

  /** A `str` field of the response model: only a JSON string passes validation. */
  function StrValue(v: Json): (r: Option<string>)
    ensures r.Some? <==> v.JString?
    ensures r.Some? ==> v == JString(r.value)
  {
    if v.JString? then Some(v.s) else None
  }

  /** A `List[str]` field: a list whose every element is a string. */
  function StrList(items: seq<Json>): (r: Option<seq<string>>)
    ensures r.Some? <==> forall i :: 0 <= i < |items| ==> items[i].JString?
    ensures r.Some? ==> |r.value| == |items| && forall i :: 0 <= i < |items| ==> items[i] == JString(r.value[i])
  {
    if items == [] then Some([])
    else if !items[0].JString? then None
    else match StrList(items[1..])
      case None => None
      case Some(rest) => Some([items[0].s] + rest)
  }

  /** Lines 81-86: `result["..."]` on a value that is not an object raises, and the response
      model rejects fields of the wrong type; either way the framework answers 500. */
  function PolishSuccessResponse(result: Json): (reply: Reply<PolishResponse>)
    ensures reply.Ok? || reply.ServerError?
    ensures reply.Ok? <==>
      result.JObject? && "polishedText" in result.fields && "summary" in result.fields && "keywords" in result.fields &&
      result.fields["polishedText"].JString? && result.fields["summary"].JString? &&
      result.fields["keywords"].JArray? && StrList(result.fields["keywords"].items).Some?
    ensures reply.Ok? ==> reply.body == PolishResponse(true, result.fields["polishedText"].s, result.fields["summary"].s,
                                                       StrList(result.fields["keywords"].items).value, None)
  {
    if !result.JObject? then ServerError
    else
      var f := result.fields;
      if "polishedText" !in f || "summary" !in f || "keywords" !in f then ServerError
      else match (StrValue(f["polishedText"]), StrValue(f["summary"]), f["keywords"])
        case (Some(p), Some(m), JArray(items)) =>
          (match StrList(items)
           case Some(k) => Ok(PolishResponse(true, p, m, k, None))
           case None => ServerError)
        case _ => ServerError
  }

  /** Lines 88-95: the error is the object's "error" entry, "Unknown error" without one, or
      `str(result)` for any other value (given as `strOf`); a JSON null leaves it unset. */
  function PolishFailureResponse(result: Json, strOf: Json -> string): (reply: Reply<PolishResponse>)
    ensures reply.Ok? ==> reply.body.success == false && reply.body.polishedText == "" &&
                          reply.body.summary == "" && reply.body.keywords == []
    ensures result.JObject? && "error" !in result.fields ==> reply == Ok(PolishResponse(false, "", "", [], Some(UNKNOWN_ERROR)))
    ensures result.JObject? && "error" in result.fields && result.fields["error"].JString? ==>
      reply == Ok(PolishResponse(false, "", "", [], Some(result.fields["error"].s)))
    ensures !result.JObject? ==> reply == Ok(PolishResponse(false, "", "", [], Some(strOf(result))))
  {
    var error :=
      if !result.JObject? then JString(strOf(result))
      else if "error" in result.fields then result.fields["error"]
      else JString(UNKNOWN_ERROR);
    match error
    case JString(msg) => Ok(PolishResponse(false, "", "", [], Some(msg)))
    case JNull => Ok(PolishResponse(false, "", "", [], None))
    case _ => ServerError
  }

  /** `polish`: blank text is refused, otherwise the service's answer is shaped. */
  function Polish(s: Settings, text: string, complete: (Client, string) -> Completion, loads: string -> Decoded,
                  strOf: Json -> string): (reply: Reply<PolishResponse>)
    ensures reply.HttpError? ==> reply == HttpError(400, EMPTY_TEXT_DETAIL)
    ensures reply.Ok? ==> reply.body.success
  {
    PolishAlwaysSucceeds(s, text, complete, loads);
    if Strip(text) == "" then HttpError(400, EMPTY_TEXT_DETAIL)
    else
      var r := PolishAndSummarize(s, text, complete, loads);
      if r.success then PolishSuccessResponse(r.result) else PolishFailureResponse(r.result, strOf)
  }

  /** Text is refused with 400 exactly when it is empty or all whitespace. */
  lemma PolishRejectsBlank(s: Settings, text: string, complete: (Client, string) -> Completion, loads: string -> Decoded,
                           strOf: Json -> string)
    ensures Polish(s, text, complete, loads, strOf) == HttpError(400, EMPTY_TEXT_DETAIL) <==> AllSpace(text)
  {
  }

  /** The failure shape is never sent from this endpoint: the service always reports success. */
  lemma PolishNeverReportsFailure(s: Settings, text: string, complete: (Client, string) -> Completion,
                                  loads: string -> Decoded, strOf: Json -> string)
    ensures var reply := Polish(s, text, complete, loads, strOf); reply.Ok? ==> reply.body.success
  {
    PolishAlwaysSucceeds(s, text, complete, loads);
  }

  /** In mock mode non-blank text gets the mock body, with its five keywords. */
  lemma MockPolishResponse(s: Settings, text: string, complete: (Client, string) -> Completion,
                           loads: string -> Decoded, strOf: Json -> string)
    requires s.useMock && !AllSpace(text)
    ensures Polish(s, text, complete, loads, strOf) ==
      Ok(PolishResponse(true, MOCK_POLISHED_HEAD + Preview(text), MOCK_SUMMARY, MOCK_KEYWORDS, None))
  {
    var items := seq(5, i requires 0 <= i < 5 => JString(MOCK_KEYWORDS[i]));
    var k := StrList(items);
    assert k.Some?;
    assert k.value == MOCK_KEYWORDS;
  }

  /**
   * A model answer that decodes to a list naming the three keys passes the service's key check
   * and is returned as a success, but indexing a list by a string raises, so the endpoint
   * answers 500 instead of a body.
   */
  lemma ListAnswerIsServerError(s: Settings, text: string, complete: (Client, string) -> Completion,
                                loads: string -> Decoded, strOf: Json -> string, answer: string)
    requires !s.useMock && !AllSpace(text)
    requires GetLlmClient(s).Some? && complete(GetLlmClient(s).value, PromptText(text)) == Answered(Some(answer))
    requires loads(Strip(ExtractJson(answer))) == Parsed(JArray([JString("polishedText"), JString("summary"), JString("keywords")]))
    ensures Polish(s, text, complete, loads, strOf) == ServerError
  {
    var v := JArray([JString("polishedText"), JString("summary"), JString("keywords")]);
    KeyNamesPassKeyCheck(v);
    assert PolishWithLlm(s, text, complete, loads) == PolishResult(true, v);
    PolishAlwaysSucceeds(s, text, complete, loads);
    assert Strip(text) != "";
  }

  /** The list of the key names holds every key, as Python's `in` sees a list. */
  lemma KeyNamesPassKeyCheck(v: Json)
    requires v == JArray([JString("polishedText"), JString("summary"), JString("keywords")])
    ensures AllIn(REQUIRED_KEYS, v) == Member(true)
    ensures PolishSuccessResponse(v) == ServerError
  {
    assert forall i :: 0 <= i < |REQUIRED_KEYS| ==> JString(REQUIRED_KEYS[i]) == v.items[i];
  }
}
