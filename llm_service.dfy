/**
 * The polishing call to an OpenAI-compatible chat model (backend/app/services/llm_service.py):
 * choosing the provider, cutting the JSON out of the model's answer, checking it and
 * falling back to the raw answer.
 */
module LlmService {
  import opened Wrappers
  import opened Text
  import opened JsonValues
  import opened Config

  const DASHSCOPE_BASE_URL := "https://dashscope.aliyuncs.com/compatible-mode/v1"
  const QWEN_MODEL := "qwen-max"
  const DEEPSEEK_MODEL := "deepseek-chat"

  /** The prompt carries at most this many characters of the text. */
  const MAX_PROMPT_TEXT: nat := 10000

  const JSON_FENCE := "```json"
  const FENCE := "```"

  /** The summary put in place when the answer is not the expected JSON. */
  const NO_SUMMARY := "无法自动生成摘要"

  const REQUIRED_KEYS: seq<string> := ["polishedText", "summary", "keywords"]

  /** The client the service talks to: its key, its endpoint and the model it asks for. */
  datatype Client = Client(apiKey: string, baseUrl: string, model: string)

  /** `_get_llm_client`: DashScope or DeepSeek, named case-insensitively, and only with a key. */
  function GetLlmClient(s: Settings): (c: Option<Client>)
    ensures c.Some? <==>
      (Lower(s.llmProvider) == "dashscope" && s.dashscopeApiKey != "") ||
      (Lower(s.llmProvider) == "deepseek" && s.deepseekApiKey != "")
    ensures c.Some? && Lower(s.llmProvider) == "dashscope" ==>
      c.value == Client(s.dashscopeApiKey, DASHSCOPE_BASE_URL, QWEN_MODEL)
    ensures c.Some? && Lower(s.llmProvider) == "deepseek" ==>
      c.value == Client(s.deepseekApiKey, s.deepseekBaseUrl, DEEPSEEK_MODEL)
  {
    var provider := Lower(s.llmProvider);
    if provider == "dashscope" && s.dashscopeApiKey != "" then
      Some(Client(s.dashscopeApiKey, DASHSCOPE_BASE_URL, QWEN_MODEL))
    else if provider == "deepseek" && s.deepseekApiKey != "" then
      Some(Client(s.deepseekApiKey, s.deepseekBaseUrl, DEEPSEEK_MODEL))
    else None
  }

  /** Two spellings of the provider that differ only in ASCII case select the same client. */
  lemma ProviderCaseInsensitive(s: Settings, provider: string)
    requires Lower(provider) == Lower(s.llmProvider)
    ensures GetLlmClient(s.(llmProvider := provider)) == GetLlmClient(s)
  {
  }

  /** `text[:10000]`: the part of the text that goes into the prompt. */
  function PromptText(text: string): (t: string)
    ensures |t| == if |text| <= MAX_PROMPT_TEXT then |text| else MAX_PROMPT_TEXT
    ensures t == text[..|t|]
  {
    if |text| <= MAX_PROMPT_TEXT then text else text[..MAX_PROMPT_TEXT]
  }

  /**
   * Lines 87-90: `content.split("```json")[1].split("```")[0]` when the answer holds a JSON
   * fence, else `content.split("```")[1].split("```")[0]` when it holds a plain fence, else
   * the answer as it is.
   */
  function ExtractJson(content: string): (r: string)
    ensures |r| <= |content|
  {
    if Contains(content, JSON_FENCE) then Before(SecondPiece(content, JSON_FENCE), FENCE)
    else if Contains(content, FENCE) then Before(SecondPiece(content, FENCE), FENCE)
    else content
  }

  /**
   * With a JSON fence the extracted text is what follows the first "```json" up to the next
   * "```", provided the text before a second "```json", if any, does not end in a backtick.
   */
  lemma JsonFenceExtraction(content: string)
    requires Contains(content, JSON_FENCE)
    requires var y := Before(After(content, JSON_FENCE), JSON_FENCE); y == [] || y[|y| - 1] != '`'
    ensures ExtractJson(content) == Before(After(content, JSON_FENCE), FENCE)
  {
    var y := Before(After(content, JSON_FENCE), JSON_FENCE);
    FenceStartsJsonFence(JSON_FENCE, FENCE);
    if y != [] {
      OnlyBackticksInFence(FENCE, y[|y| - 1]);
    }
    BeforeNested(After(content, JSON_FENCE), JSON_FENCE, FENCE);
  }

  lemma FenceStartsJsonFence(jsonFence: string, fence: string)
    requires jsonFence == JSON_FENCE && fence == FENCE
    ensures 0 < |fence| <= |jsonFence| && jsonFence[..|fence|] == fence
  {
  }

  lemma OnlyBackticksInFence(fence: string, c: char)
    requires fence == FENCE && c != '`'
    ensures c !in fence
  {
  }

  /** With only plain fences the extracted text is what lies between the first two. */
  lemma PlainFenceExtraction(content: string)
    requires !Contains(content, JSON_FENCE) && Contains(content, FENCE)
    ensures ExtractJson(content) == Before(After(content, FENCE), FENCE)
  {
    BeforeIdempotent(After(content, FENCE), FENCE);
  }

  /** Without a fence the answer is taken whole. */
  lemma NoFenceNoExtraction(content: string)
    requires !Contains(content, FENCE)
    ensures ExtractJson(content) == content
  {
    if Contains(content, JSON_FENCE) {
      var k :| OccursAt(content, JSON_FENCE, k);
      FenceStartsJsonFence(JSON_FENCE, FENCE);
      InnerAtOuter(content, JSON_FENCE, FENCE, k);
    }
  }

  /** The extracted text never holds a fence. */
  lemma ExtractedHasNoFence(content: string)
    requires Contains(content, FENCE)
    ensures !Contains(ExtractJson(content), FENCE)
  {
    var r := ExtractJson(content);
    if Contains(r, FENCE) {
      var k :| OccursAt(r, FENCE, k);
      var x := if Contains(content, JSON_FENCE) then SecondPiece(content, JSON_FENCE) else SecondPiece(content, FENCE);
      assert r == Before(x, FENCE);
      OccursInPrefix(x, r, FENCE, k);
    }
  }

  /** What the chat completion call gave: the first choice's content, possibly None, or an exception. */
  datatype Completion = Answered(content: Option<string>) | Raised(message: string)

  /** What `json.loads` gave. */
  datatype Decoded = Parsed(value: Json) | DecodeError

  /** `(success, result)`; the result is the decoded value itself on success. */
  datatype PolishResult = PolishResult(success: bool, result: Json)

  function ErrorResult(message: string): (r: PolishResult)
    ensures !r.success && r.result == JObject(map["error" := JString(message)])
  {
    PolishResult(false, JObject(map["error" := JString(message)]))
  }

  /** Lines 102-106: the answer as polished text, the placeholder summary and no keywords. */
  function FallbackResult(content: string): (r: PolishResult)
    ensures r.success
    ensures r.result == JObject(map["polishedText" := JString(content), "summary" := JString(NO_SUMMARY), "keywords" := JArray([])])
  {
    PolishResult(true, JObject(map["polishedText" := JString(content), "summary" := JString(NO_SUMMARY), "keywords" := JArray([])]))
  }

  /** Python `all(k in value for k in keys)`: stops at the first key not found; a value that is
      not a container raises at the first key. */
  function AllIn(keys: seq<string>, value: Json): (m: Membership)
    ensures IsContainer(value) ==> m == Member(forall i :: 0 <= i < |keys| ==> PyIn(keys[i], value) == Member(true))
    ensures !IsContainer(value) && keys != [] ==> m == NotIterable(NotIterableMessage(PyTypeName(value)))
    ensures keys == [] ==> m == Member(true)
  {
    if keys == [] then Member(true)
    else match PyIn(keys[0], value)
      case NotIterable(msg) => NotIterable(msg)
      case Member(false) => Member(false)
      case Member(true) =>
        var rest := AllIn(keys[1..], value);
        assert forall i :: 1 <= i < |keys| ==> keys[i] == keys[1..][i - 1];
        rest
  }

  /**
   * `polish_with_llm`. The completion call and `json.loads` are passed in: `complete` receives
   * the client and the part of the text the prompt carries (the prompt's fixed wording is not
   * modelled). A None content makes the fence test raise TypeError, which the outer handler
   * turns into an error result; a decoded value that is not a container makes the key test do
   * the same. Failing to decode, or missing a key, gives the fallback, which is a success.
   */
  function PolishWithLlm(s: Settings, text: string, complete: (Client, string) -> Completion,
                         loads: string -> Decoded): (r: PolishResult)
    ensures r.success ==> IsContainer(r.result) && GetLlmClient(s).Some?
    ensures !r.success ==> r.result.JObject? && r.result.fields.Keys == {"error"} && r.result.fields["error"].JString?
  {
    match GetLlmClient(s)
    case None => ErrorResult("LLM not configured. Provider: " + s.llmProvider)
    case Some(client) =>
      match complete(client, PromptText(text))
      case Raised(msg) => ErrorResult(msg)
      case Answered(None) => ErrorResult(NotIterableMessage("NoneType"))
      case Answered(Some(answer)) =>
        var content := ExtractJson(answer);
        match loads(Strip(content))
        case DecodeError => FallbackResult(content)
        case Parsed(value) =>
          match AllIn(REQUIRED_KEYS, value)
          case NotIterable(msg) => ErrorResult(msg)
          case Member(true) => PolishResult(true, value)
          case Member(false) => FallbackResult(content)
  }

  /** Without a client no request is made: the result is the fixed error whatever the oracles. */
  lemma NoClientNoRequest(s: Settings, text: string, complete: (Client, string) -> Completion, loads: string -> Decoded)
    requires GetLlmClient(s).None?
    ensures PolishWithLlm(s, text, complete, loads) == ErrorResult("LLM not configured. Provider: " + s.llmProvider)
  {
  }

  /** Only the first 10000 characters of the text can make a difference. */
  lemma OnlyPromptTextMatters(s: Settings, t1: string, t2: string, complete: (Client, string) -> Completion, loads: string -> Decoded)
    requires |t1| >= MAX_PROMPT_TEXT && |t2| >= MAX_PROMPT_TEXT
    requires t1[..MAX_PROMPT_TEXT] == t2[..MAX_PROMPT_TEXT]
    ensures PolishWithLlm(s, t1, complete, loads) == PolishWithLlm(s, t2, complete, loads)
  {
    assert PromptText(t1) == PromptText(t2);
  }

  /** The outcome is a failure exactly when there is no client, the call raised, the content
      was None, or the decoded value is not a container. */
  lemma PolishSuccessIff(s: Settings, text: string, complete: (Client, string) -> Completion, loads: string -> Decoded)
    ensures PolishWithLlm(s, text, complete, loads).success <==>
      GetLlmClient(s).Some? &&
      (var answer := complete(GetLlmClient(s).value, PromptText(text));
       answer.Answered? && answer.content.Some? &&
       (var decoded := loads(Strip(ExtractJson(answer.content.value)));
        decoded.DecodeError? || IsContainer(decoded.value)))
  {
  }

  /** A decoded object holding the three keys is returned as the result, unchanged. */
  lemma CompleteAnswerReturned(s: Settings, text: string, complete: (Client, string) -> Completion,
                               loads: string -> Decoded, client: Client, answer: string, fields: map<string, Json>)
    requires GetLlmClient(s) == Some(client)
    requires complete(client, PromptText(text)) == Answered(Some(answer))
    requires loads(Strip(ExtractJson(answer))) == Parsed(JObject(fields))
    requires "polishedText" in fields && "summary" in fields && "keywords" in fields
    ensures PolishWithLlm(s, text, complete, loads) == PolishResult(true, JObject(fields))
  {
    assert AllIn(REQUIRED_KEYS, JObject(fields)) == Member(true) by {
      assert forall i :: 0 <= i < |REQUIRED_KEYS| ==> REQUIRED_KEYS[i] in fields;
    }
  }

  /** An answer that does not decode, or an object lacking one of the keys, gives the fallback
      around the extracted text. */
  lemma UnusableAnswerFallsBack(s: Settings, text: string, complete: (Client, string) -> Completion,
                                loads: string -> Decoded, client: Client, answer: string)
    requires GetLlmClient(s) == Some(client)
    requires complete(client, PromptText(text)) == Answered(Some(answer))
    requires var d := loads(Strip(ExtractJson(answer)));
      d.DecodeError? || (d.value.JObject? && exists i :: 0 <= i < |REQUIRED_KEYS| && REQUIRED_KEYS[i] !in d.value.fields)
    ensures PolishWithLlm(s, text, complete, loads) == FallbackResult(ExtractJson(answer))
  {
  }
}
