/**
 * The orchestration the routes call (backend/app/services/audio_service.py): mock mode, the
 * the real services when a key is configured, and the mock answers as the fallback for every
 * failure.
 */
module AudioService {
  import opened Text
  import opened JsonValues
  import opened Config
  import opened AsrService
  import opened LlmService

  const MOCK_TRANSCRIPT_HEAD := "这是文件 \""
  const MOCK_TRANSCRIPT_TAIL := "\" 的转写结果。\n\n在这个架构中，音频流被发送到了后端服务，并转发给了阿里云 Paraformer 语音识别服务。\n阿里云的中文识别准确率非常高，特别是在处理中文长语音和方言方面。\n这段文字代表了原始的、未经润色的语音识别输出，可能包含一些语气词，比如那个，呃，然后之类的。\n后端服务目前运行在 Mock 模式，请配置 DASHSCOPE_API_KEY 以启用真实的语音识别功能。"

  const MOCK_POLISHED_HEAD := "这是经过 AI 模型润色后的结果。\n\n原始转写文本已被发送到后端，然后调用通义千问或 DeepSeek 的 API 进行处理。\n这种方式不仅成本低廉，而且由于数据中心位于国内，响应速度极快。\n\n模型已删除了原始文本中的语气词（如\"那个\"、\"呃\"），并优化了句子结构，使其更符合书面语规范。\n\n[Mock 模式] 原文预览: "
  const MOCK_SUMMARY := "本音频主要演示了 Sonote 的后端架构流程：前端上传音频至后端服务，后端集成阿里云 ASR 进行转写，随后使用 LLM 模型进行文本润色。该方案在成本控制和访问速度上具有显著优势。[Mock 模式]"
  const MOCK_KEYWORDS: seq<string> := ["音频转录", "语音识别", "文本润色", "AI处理", "Mock模式"]

  /** The preview keeps this many characters before adding "...". */
  const PREVIEW_LENGTH: nat := 100

  /** `_mock_transcribe`: a fixed transcript that names the file. */
  function MockTranscribe(filename: string): (r: AsrResult)
    ensures r.success
    ensures OccursAt(r.text, filename, |MOCK_TRANSCRIPT_HEAD|) && Contains(r.text, filename)
  {
    var t := MOCK_TRANSCRIPT_HEAD + filename + MOCK_TRANSCRIPT_TAIL;
    assert t[|MOCK_TRANSCRIPT_HEAD|..|MOCK_TRANSCRIPT_HEAD| + |filename|] == filename;
    assert OccursAt(t, filename, |MOCK_TRANSCRIPT_HEAD|);
    AsrResult(true, t)
  }

  /** Line 80: the text itself up to 100 characters, else its first 100 and "...". */
  function Preview(text: string): (p: string)
    ensures |p| <= PREVIEW_LENGTH + 3
    ensures |text| <= PREVIEW_LENGTH ==> p == text
    ensures |text| > PREVIEW_LENGTH ==> |p| == PREVIEW_LENGTH + 3 && p[..PREVIEW_LENGTH] == text[..PREVIEW_LENGTH] && p[PREVIEW_LENGTH..] == "..."
  {
    if |text| > PREVIEW_LENGTH then text[..PREVIEW_LENGTH] + "..." else text
  }

  /** Texts that agree on their first 100 characters have the same preview when both are long. */
  lemma PreviewSeesFirstHundred(t1: string, t2: string)
    requires |t1| > PREVIEW_LENGTH && |t2| > PREVIEW_LENGTH && t1[..PREVIEW_LENGTH] == t2[..PREVIEW_LENGTH]
    ensures Preview(t1) == Preview(t2)
  {
  }

  /** `_mock_polish`: fixed text ending in the preview, a fixed summary and five keywords. */
  function MockPolish(text: string): (r: PolishResult)
    ensures r.success && r.result.JObject?
    ensures r.result.fields.Keys == {"polishedText", "summary", "keywords"}
    ensures r.result.fields["polishedText"] == JString(MOCK_POLISHED_HEAD + Preview(text))
    ensures r.result.fields["summary"] == JString(MOCK_SUMMARY)
    ensures r.result.fields["keywords"] == JArray(seq(5, i requires 0 <= i < 5 => JString(MOCK_KEYWORDS[i])))
  {
    PolishResult(true, JObject(map[
      "polishedText" := JString(MOCK_POLISHED_HEAD + Preview(text)),
      "summary" := JString(MOCK_SUMMARY),
      "keywords" := JArray(seq(5, i requires 0 <= i < 5 => JString(MOCK_KEYWORDS[i])))]))
  }

  /** `transcribe_audio`; `post` is the HTTP call of the recognition service. */
  function TranscribeAudio(s: Settings, content: seq<bv8>, filename: string, post: AsrRequest -> HttpReply): (r: AsrResult)
    ensures r.success
    ensures r == MockTranscribe(filename) || (!s.useMock && r == TranscribeWithParaformer(s, content, filename, post))
  {
    if s.useMock then MockTranscribe(filename)
    else if s.dashscopeApiKey != "" then
      var attempt := TranscribeWithParaformer(s, content, filename, post);
      if attempt.success then AsrResult(true, attempt.text) else MockTranscribe(filename)
    else MockTranscribe(filename)
  }

  /** Transcription always reports success: a real success, or else the mock. */
  lemma TranscribeAlwaysSucceeds(s: Settings, content: seq<bv8>, filename: string, post: AsrRequest -> HttpReply)
    ensures TranscribeAudio(s, content, filename, post).success
    ensures var attempt := TranscribeWithParaformer(s, content, filename, post);
      TranscribeAudio(s, content, filename, post) ==
        if !s.useMock && attempt.success then attempt else MockTranscribe(filename)
  {
  }

  /** In mock mode the recognition service is never consulted. */
  lemma MockTranscribeIgnoresService(s: Settings, content: seq<bv8>, filename: string, post: AsrRequest -> HttpReply,
                                     other: AsrRequest -> HttpReply)
    requires s.useMock
    ensures TranscribeAudio(s, content, filename, post) == TranscribeAudio(s, content, filename, other) == MockTranscribe(filename)
  {
  }

  /** `polish_and_summarize`. Either key is enough to try the language model; when the
      provider does not match the key that call fails and the mock answers. */
  function PolishAndSummarize(s: Settings, text: string, complete: (Client, string) -> Completion,
                              loads: string -> Decoded): (r: PolishResult)
    ensures r.success
    ensures r == MockPolish(text) || (!s.useMock && r == PolishWithLlm(s, text, complete, loads))
  {
    if s.useMock then MockPolish(text)
    else if s.dashscopeApiKey != "" || s.deepseekApiKey != "" then
      var attempt := PolishWithLlm(s, text, complete, loads);
      if attempt.success then PolishResult(true, attempt.result) else MockPolish(text)
    else MockPolish(text)
  }

  /** Polishing always reports success: a real success returned unchanged, or else the mock. */
  lemma PolishAlwaysSucceeds(s: Settings, text: string, complete: (Client, string) -> Completion, loads: string -> Decoded)
    ensures PolishAndSummarize(s, text, complete, loads).success
    ensures var attempt := PolishWithLlm(s, text, complete, loads);
      PolishAndSummarize(s, text, complete, loads) ==
        if !s.useMock && attempt.success then attempt else MockPolish(text)
  {
    var attempt := PolishWithLlm(s, text, complete, loads);
    if !s.useMock && attempt.success {
      assert GetLlmClient(s).Some?;
    }
  }

  /** In mock mode the language model is never consulted. */
  lemma MockPolishIgnoresService(s: Settings, text: string, complete: (Client, string) -> Completion,
                                 loads: string -> Decoded, complete2: (Client, string) -> Completion, loads2: string -> Decoded)
    requires s.useMock
    ensures PolishAndSummarize(s, text, complete, loads) == PolishAndSummarize(s, text, complete2, loads2) == MockPolish(text)
  {
  }
}
