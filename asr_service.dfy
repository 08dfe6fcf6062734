/**
 * Speech recognition through DashScope's Paraformer endpoint
 * (backend/app/services/asr_service.py): the audio format taken from the file name, and the
 * classification of the HTTP reply into a transcript or an error message.
 */
module AsrService {
  import opened Text
  import opened Config

  const NO_KEY_MESSAGE := "DashScope API key not configured"
  const EMPTY_RESULT_MESSAGE := "Empty transcription result"
  const TIMEOUT_MESSAGE := "ASR request timeout"
  const WHISPER_MESSAGE := "Whisper API not implemented"
  const PROBE_NO_KEY_MESSAGE := "DashScope API key not configured. Set DASHSCOPE_API_KEY in .env"
  const REACHABLE_MESSAGE := "DashScope ASR API reachable"
  /** The form fields sent beside the file. */
  const ASR_MODEL := "paraformer-v2"
  const ASR_LANGUAGE := "zh"

  /** `(success, transcript_or_error)`. */
  datatype AsrResult = AsrResult(success: bool, text: string)

  /** Line 22: the lower-cased text after the last '.', or "mp3" for a name without a dot. */
  function FileExtension(filename: string): (ext: string)
    ensures '.' !in ext
    ensures '.' !in filename ==> ext == "mp3"
    ensures '.' in filename ==>
      var lowered := Lower(filename);
      |ext| < |lowered| && lowered[|lowered| - |ext| - 1] == '.' && lowered[|lowered| - |ext|..] == ext
  {
    if '.' in filename then
      var lowered := Lower(filename);
      LowerKeepsDots(filename);
      assert '.' in lowered;
      LastSegment(lowered, '.')
    else
      assert "mp3"[0] != '.' && "mp3"[1] != '.' && "mp3"[2] != '.';
      "mp3"
  }

  /** Lower-casing neither adds nor removes dots. */
  lemma LowerKeepsDots(s: string)
    ensures '.' in Lower(s) <==> '.' in s
  {
    if '.' in s {
      var i :| 0 <= i < |s| && s[i] == '.';
      assert Lower(s)[i] == '.';
    }
  }

  /** Lines 23-31: the format map, "mp3" for an extension it does not hold. */
  function AudioFormat(ext: string): (format: string)
    ensures format in {"mp3", "wav", "mp4", "flac", "ogg"}
    ensures ext in {"mp3", "wav", "mp4", "flac", "ogg"} ==> format == ext
    ensures ext == "m4a" ==> format == "mp4"
    ensures ext !in {"mp3", "wav", "m4a", "mp4", "flac", "ogg"} ==> format == "mp3"
  {
    if ext == "wav" then "wav"
    else if ext == "m4a" || ext == "mp4" then "mp4"
    else if ext == "flac" then "flac"
    else if ext == "ogg" then "ogg"
    else "mp3"
  }

  /** `text` as read from the decoded reply body by `result.get("text", "")`. */
  datatype TextField = TextValue(s: string) | NoText | BodyUnreadable(message: string)

  /** What the multipart POST gave. */
  datatype HttpReply =
    | Reply(status: nat, body: string, text: TextField)
    | TimedOut
    | Failed(message: string)

  /** The multipart upload the service sends: the bearer key, the file part (name, the audio
      bytes as received, MIME type) and the `model` and `language` form fields. */
  datatype AsrRequest = AsrRequest(apiKey: string, filename: string, content: seq<bv8>, mimeType: string,
                                   model: string, language: string)

  /** Lines 73-87: what the reply means. */
  function ClassifyReply(reply: HttpReply): (r: AsrResult)
    ensures r.success <==> reply.Reply? && reply.status == 200 && reply.text.TextValue? && reply.text.s != ""
    ensures r.success ==> r.text == reply.text.s
    ensures reply.Reply? && reply.status == 200 && !reply.text.BodyUnreadable? && !r.success ==>
      r.text == EMPTY_RESULT_MESSAGE
    ensures reply.Reply? && reply.status != 200 ==>
      r.text == "ASR API error (" + Decimal(reply.status) + "): " + reply.body
    ensures reply.TimedOut? ==> r.text == TIMEOUT_MESSAGE
  {
    match reply
    case TimedOut => AsrResult(false, TIMEOUT_MESSAGE)
    case Failed(msg) => AsrResult(false, "ASR error: " + msg)
    case Reply(status, body, text) =>
      if status == 200 then
        match text
        case BodyUnreadable(msg) => AsrResult(false, "ASR error: " + msg)
        case NoText => AsrResult(false, EMPTY_RESULT_MESSAGE)
        case TextValue(t) => if t != "" then AsrResult(true, t) else AsrResult(false, EMPTY_RESULT_MESSAGE)
      else AsrResult(false, "ASR API error (" + Decimal(status) + "): " + body)
  }

  /** The status code can be read back from an error message. */
  lemma StatusInErrorMessage(status: nat, body: string)
    requires status != 200
    ensures var m := ClassifyReply(Reply(status, body, NoText)).text;
      var prefix := "ASR API error (";
      var digits := m[|prefix|..|prefix| + |Decimal(status)|];
      (forall i :: 0 <= i < |digits| ==> IsDigit(digits[i])) && ParseDecimal(digits) == status
  {
    var prefix := "ASR API error (";
    var m := ClassifyReply(Reply(status, body, NoText)).text;
    assert m[|prefix|..|prefix| + |Decimal(status)|] == Decimal(status);
    DecimalRoundTrip(status);
  }

  /** The request for `filename` with `content`, under the key. */
  function ParaformerUpload(apiKey: string, content: seq<bv8>, filename: string): (req: AsrRequest)
    ensures req.apiKey == apiKey && req.filename == filename && req.content == content
    ensures req.mimeType == "audio/" + AudioFormat(FileExtension(filename))
    ensures req.model == ASR_MODEL && req.language == ASR_LANGUAGE
  {
    AsrRequest(apiKey, filename, content, "audio/" + AudioFormat(FileExtension(filename)), ASR_MODEL, ASR_LANGUAGE)
  }

  /** `transcribe_with_paraformer`; `post` is the HTTP call. The base64 copy of the audio and
      the JSON payload the source builds are never sent, so they are not modelled. */
  function TranscribeWithParaformer(s: Settings, content: seq<bv8>, filename: string, post: AsrRequest -> HttpReply): (r: AsrResult)
    ensures s.dashscopeApiKey == "" ==> r == AsrResult(false, NO_KEY_MESSAGE)
  {
    if s.dashscopeApiKey == "" then AsrResult(false, NO_KEY_MESSAGE)
    else ClassifyReply(post(ParaformerUpload(s.dashscopeApiKey, content, filename)))
  }

  /** With a key, the request carries the key, the audio bytes unchanged, the file name, the
      mapped MIME type and the fixed model and language, and the result is the classified
      reply; without one, no request is made. */
  lemma ParaformerRequest(s: Settings, content: seq<bv8>, filename: string, post: AsrRequest -> HttpReply,
                          other: AsrRequest -> HttpReply)
    ensures s.dashscopeApiKey != "" ==>
      TranscribeWithParaformer(s, content, filename, post) ==
      ClassifyReply(post(AsrRequest(s.dashscopeApiKey, filename, content, "audio/" + AudioFormat(FileExtension(filename)),
                                    ASR_MODEL, ASR_LANGUAGE)))
    ensures s.dashscopeApiKey == "" ==>
      TranscribeWithParaformer(s, content, filename, post) == TranscribeWithParaformer(s, content, filename, other)
  {
  }

  /** The extension of `stem.ext`, for an `ext` without dots, is `ext` lower-cased, whatever the stem. */
  lemma ExtensionOfDottedName(stem: string, ext: string)
    requires '.' !in ext
    ensures FileExtension(stem + "." + ext) == Lower(ext)
  {
    var name := stem + "." + ext;
    assert name[|stem|] == '.';
    LowerAppend(stem + ".", ext);
    LowerAppend(stem, ".");
    assert Lower(".") == ".";
    LowerKeepsDots(ext);
    LastSegmentUnique(Lower(stem), '.', Lower(ext), FileExtension(name));
  }

  lemma LowerM4a(x: string)
    requires x == "M4A"
    ensures Lower(x) == "m4a"
  {
    var l := Lower(x);
    assert l[0] == LowerChar('M') == 'm';
    assert l[1] == '4' && l[2] == LowerChar('A') == 'a';
  }

  lemma M4aExtension(stem: string)
    ensures FileExtension(stem + ".M4A") == "m4a"
  {
    assert '.' !in "M4A";
    assert stem + ".M4A" == stem + "." + "M4A";
    ExtensionOfDottedName(stem, "M4A");
    LowerM4a("M4A");
  }

  /** An .M4A file is sent as audio/mp4. */
  lemma M4aSentAsMp4(s: Settings, content: seq<bv8>, stem: string, post: AsrRequest -> HttpReply)
    requires s.dashscopeApiKey != ""
    ensures TranscribeWithParaformer(s, content, stem + ".M4A", post) ==
      ClassifyReply(post(AsrRequest(s.dashscopeApiKey, stem + ".M4A", content, "audio/mp4", ASR_MODEL, ASR_LANGUAGE)))
  {
    var name := stem + ".M4A";
    M4aExtension(stem);
    Mp4Mime(AudioFormat(FileExtension(name)));
  }

  lemma Mp4Mime(format: string)
    requires format == "mp4"
    ensures "audio/" + format == "audio/mp4"
  {
  }

  /** `transcribe_with_whisper_api`: a stub that always fails. */
  function TranscribeWithWhisper(filename: string): (r: AsrResult)
    ensures !r.success && r.text == WHISPER_MESSAGE
  {
    AsrResult(false, WHISPER_MESSAGE)
  }

  /** What the connectivity probe's GET gave. */
  datatype ProbeReply = ProbeStatus(status: nat) | ProbeFailed(message: string)

  /** `test_asr_connection`: 200, 405 and 400 all mean the endpoint is reachable. */
  function TestAsrConnection(s: Settings, get: string -> ProbeReply): (r: AsrResult)
    ensures r.success <==> s.dashscopeApiKey != "" && get(s.dashscopeApiKey).ProbeStatus? &&
                           get(s.dashscopeApiKey).status in {200, 405, 400}
    ensures s.dashscopeApiKey == "" ==> r.text == PROBE_NO_KEY_MESSAGE
    ensures r.success ==> r.text == REACHABLE_MESSAGE
    ensures s.dashscopeApiKey != "" && get(s.dashscopeApiKey).ProbeStatus? && !r.success ==>
      r.text == "API returned status " + Decimal(get(s.dashscopeApiKey).status)
  {
    if s.dashscopeApiKey == "" then AsrResult(false, PROBE_NO_KEY_MESSAGE)
    else match get(s.dashscopeApiKey)
      case ProbeFailed(msg) => AsrResult(false, msg)
      case ProbeStatus(status) =>
        if status in [200, 405, 400] then AsrResult(true, REACHABLE_MESSAGE)
        else AsrResult(false, "API returned status " + Decimal(status))
  }
}
