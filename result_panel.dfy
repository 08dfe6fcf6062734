/** The parts of the result panel that decide what it shows
    (src/components/ResultPanel.tsx): the friendly error message and the progress label. */
module ResultPanel {
  import opened Wrappers
  import opened Text
  import opened BatchTypes

  const UNKNOWN_ERROR: string := "An unknown error occurred during processing."

  /** The error map, in declaration order: a key and the message shown when the lower-cased
      error contains the lower-cased key. */
  const ERROR_MAP: seq<(string, string)> := [
    ("Failed to process", "The file could not be processed. Please check the file format and try again."),
    ("Network Error", "Unable to connect to the server. Please check your network connection."),
    ("Failed to fetch", "Unable to connect to the server. Please ensure the backend is running."),
    ("timeout", "The request timed out. The file may be too large or the server is busy."),
    ("Unsupported", "This file format is not supported. Please use MP3, WAV, M4A, or MP4."),
    ("Too large", "The file exceeds the maximum size limit of 100MB.")
  ]

  /** Entry `k` of the map matches the error. */
  predicate Matches(error: string, k: nat)
    requires k < |ERROR_MAP|
  {
    Contains(Lower(error), Lower(ERROR_MAP[k].0))
  }

  /** The first entry at or after `from` that matches, if any. */
  function FirstMatch(error: string, from: nat): (m: Option<nat>)
    requires from <= |ERROR_MAP|
    ensures m.Some? ==> from <= m.value < |ERROR_MAP| && Matches(error, m.value)
    ensures m.Some? ==> forall j :: from <= j < m.value ==> !Matches(error, j)
    ensures m.None? ==> forall j :: from <= j < |ERROR_MAP| ==> !Matches(error, j)
    decreases |ERROR_MAP| - from
  {
    if from == |ERROR_MAP| then None
    else if Matches(error, from) then Some(from)
    else FirstMatch(error, from + 1)
  }

  /** `getFriendlyErrorMessage`: an absent or empty error gives the fixed unknown-error
      message; otherwise the message of the first matching entry; otherwise the error itself. */
  function FriendlyErrorMessage(error: Option<string>): (message: string)
    ensures error.None? || error.value == "" ==> message == UNKNOWN_ERROR
    ensures forall k ::
              0 <= k < |ERROR_MAP| && error.Some? && error.value != "" &&
              Matches(error.value, k) && (forall j :: 0 <= j < k ==> !Matches(error.value, j))
              ==> message == ERROR_MAP[k].1
    ensures error.Some? && error.value != "" &&
            (forall k :: 0 <= k < |ERROR_MAP| ==> !Matches(error.value, k))
            ==> message == error.value
  {
    if error.None? || error.value == "" then UNKNOWN_ERROR
    else match FirstMatch(error.value, 0)
      case Some(k) => ERROR_MAP[k].1
      case None => error.value
  }

  /** Lower-casing keeps a lower-case letter out when neither case of it is there. */
  lemma LowerLacks(s: string, c: char)
    requires 'a' <= c <= 'z'
    requires c !in s && (c as int - 32) as char !in s
    ensures c !in Lower(s)
  {
    forall i | 0 <= i < |s| ensures Lower(s)[i] != c {
      assert s[i] != c && s[i] != (c as int - 32) as char;
    }
  }

  /** Key `k` does not match an error lacking one of the key's lower-case letters in both cases. */
  lemma KeyAbsent(error: string, k: nat, i: nat, c: char)
    requires k < |ERROR_MAP| && i < |ERROR_MAP[k].0| && 'a' <= c <= 'z'
    requires LowerChar(ERROR_MAP[k].0[i]) == c
    requires c !in error && (c as int - 32) as char !in error
    ensures !Matches(error, k)
  {
    var key := ERROR_MAP[k].0;
    assert Lower(key)[i] == c;
    LowerLacks(error, c);
    MissingChar(Lower(error), Lower(key), c);
  }

  /** Every key contains the letter t, so an error without a t in either case matches no
      key and is shown as it is. */
  lemma NoLetterTMatchesNothing(error: string)
    requires 't' !in error && 'T' !in error
    ensures forall k :: 0 <= k < |ERROR_MAP| ==> !Matches(error, k)
  {
    KeyAbsent(error, 0, 7, 't');
    KeyAbsent(error, 1, 2, 't');
    KeyAbsent(error, 2, 7, 't');
    KeyAbsent(error, 3, 0, 't');
    KeyAbsent(error, 4, 8, 't');
    KeyAbsent(error, 5, 0, 't');
  }

  /** The cancel message has no t, so it is shown as it is. */
  lemma CancelledMessageShownVerbatim()
    ensures FriendlyErrorMessage(Some("Processing cancelled by user")) == "Processing cancelled by user"
  {
    var msg := "Processing cancelled by user";
    CancelledMessageLacksT(msg);
    NoLetterTMatchesNothing(msg);
  }

  lemma CancelledMessageLacksT(msg: string)
    requires msg == "Processing cancelled by user"
    ensures 't' !in msg && 'T' !in msg
  {
  }

  lemma NoTimeoutInUploadTimedOut()
    ensures forall k :: 0 <= k ==> !OccursAt("upload timed out", "timeout", k)
  {
    var s, sub := "upload timed out", "timeout";
    forall k | 0 <= k ensures !OccursAt(s, sub, k) {
      if k == 0 { assert s[k..k + |sub|][0] == s[0]; }
      else if k == 1 { assert s[k..k + |sub|][0] == s[1]; }
      else if k == 2 { assert s[k..k + |sub|][0] == s[2]; }
      else if k == 3 { assert s[k..k + |sub|][0] == s[3]; }
      else if k == 4 { assert s[k..k + |sub|][0] == s[4]; }
      else if k == 5 { assert s[k..k + |sub|][0] == s[5]; }
      else if k == 6 { assert s[k..k + |sub|][0] == s[6]; }
      else if k == 7 { assert s[k..k + |sub|][4] == s[11]; }
      else if k == 8 { assert s[k..k + |sub|][0] == s[8]; }
      else if k == 9 { assert s[k..k + |sub|][0] == s[9]; }
    }
  }

  lemma UploadTimedOutMissesTimeout(msg: string)
    requires msg == "Upload timed out"
    ensures !Matches(msg, 3)
  {
    assert Lower(msg) == "upload timed out";
    assert Lower(ERROR_MAP[3].0) == "timeout";
    NoTimeoutInUploadTimedOut();
  }

  lemma UploadTimedOutLacks(msg: string, c: char)
    requires msg == "Upload timed out"
    requires c == 'f' || c == 'n' || c == 's' || c == 'r'
    ensures c !in msg && (c as int - 32) as char !in msg
  {
    forall i | 0 <= i < |msg| ensures msg[i] != c && msg[i] != (c as int - 32) as char {
    }
  }

  /** The front end's own upload timeout error matches no key; in particular
      "Upload timed out" does not contain "timeout". */
  lemma UploadTimedOutMatchesNothing(msg: string)
    requires msg == "Upload timed out"
    ensures forall k :: 0 <= k < |ERROR_MAP| ==> !Matches(msg, k)
  {
    UploadTimedOutMissesFirstKeys(msg);
    UploadTimedOutMissesTimeout(msg);
    UploadTimedOutMissesLastKeys(msg);
  }

  lemma UploadTimedOutMissesFirstKeys(msg: string)
    requires msg == "Upload timed out"
    ensures !Matches(msg, 0) && !Matches(msg, 1) && !Matches(msg, 2)
  {
    UploadTimedOutLacks(msg, 'f');
    KeyAbsent(msg, 0, 0, 'f');
    KeyAbsent(msg, 2, 0, 'f');
    UploadTimedOutLacks(msg, 'n');
    KeyAbsent(msg, 1, 0, 'n');
  }

  lemma UploadTimedOutMissesLastKeys(msg: string)
    requires msg == "Upload timed out"
    ensures !Matches(msg, 4) && !Matches(msg, 5)
  {
    UploadTimedOutLacks(msg, 's');
    KeyAbsent(msg, 4, 2, 's');
    UploadTimedOutLacks(msg, 'r');
    KeyAbsent(msg, 5, 6, 'r');
  }

  /** So that error is shown as it is, not as the friendly timeout message. */
  lemma UploadTimedOutShownVerbatim()
    ensures FriendlyErrorMessage(Some("Upload timed out")) == "Upload timed out"
  {
    UploadTimedOutMatchesNothing("Upload timed out");
  }

  lemma NetworkErrorMatchesNetwork(msg: string)
    requires msg == "Network error during upload"
    ensures Matches(msg, 1)
  {
    LowerNetworkMessage(msg);
    LowerNetworkKey(ERROR_MAP[1].0);
    NetworkKeyLeads("network error during upload", "network error");
  }

  lemma LowerNetworkMessage(msg: string)
    requires msg == "Network error during upload"
    ensures Lower(msg) == "network error during upload"
  {
    var l := Lower(msg);
    assert l[0] == LowerChar('N') == 'n';
  }

  lemma LowerNetworkKey(key: string)
    requires key == "Network Error"
    ensures Lower(key) == "network error"
  {
    var l := Lower(key);
    assert l[0] == LowerChar('N') == 'n';
    assert l[8] == LowerChar('E') == 'e';
  }

  lemma NetworkKeyLeads(s: string, key: string)
    requires s == "network error during upload" && key == "network error"
    ensures OccursAt(s, key, 0)
  {
    assert s[..|key|] == key;
  }

  /** "Network error during upload" skips the first entry and takes the second. */
  lemma NetworkErrorIsFriendly()
    ensures FriendlyErrorMessage(Some("Network error during upload")) == ERROR_MAP[1].1
  {
    var msg := "Network error during upload";
    NetworkErrorMissesFirst(msg);
    NetworkErrorMatchesNetwork(msg);
    assert forall j :: 0 <= j < 1 ==> !Matches(msg, j);
  }

  lemma NetworkErrorMissesFirst(msg: string)
    requires msg == "Network error during upload"
    ensures !Matches(msg, 0)
  {
    NetworkErrorLacksF(msg);
    KeyAbsent(msg, 0, 0, 'f');
  }

  lemma NetworkErrorLacksF(msg: string)
    requires msg == "Network error during upload"
    ensures 'f' !in msg && 'F' !in msg
  {
  }

  /** What the panel shows for the selected item. */
  datatype PanelView =
    | Placeholder                              // no item selected
    | ErrorView(message: string)               // "Processing Failed" and a friendly message
    | ProgressView(statusText: string, statusDescription: string)
    | ResultView                               // the tabs with the results

  /** The label and description for an item that is neither COMPLETED nor ERROR. */
  function ProgressLabel(status: Status, fileName: string): (v: PanelView)
    ensures v.ProgressView?
    ensures status == Uploading ==> v.statusText == "Uploading..." && v.statusDescription == "Uploading \"" + fileName + "\" to server"
    ensures status == Transcribing ==> v.statusText == "Transcribing..." && v.statusDescription == "Processing audio with ASR engine"
    ensures status != Uploading && status != Transcribing ==>
      v.statusText == "AI Polishing..." && v.statusDescription == "Removing filler words and generating summary"
  {
    if status == Uploading then ProgressView("Uploading...", "Uploading \"" + fileName + "\" to server")
    else if status == Transcribing then ProgressView("Transcribing...", "Processing audio with ASR engine")
    else ProgressView("AI Polishing...", "Removing filler words and generating summary")
  }

  /** The view chosen by the panel for the selected item. */
  function View(file: Option<BatchFile>): (v: PanelView)
    ensures file.None? <==> v.Placeholder?
    ensures file.Some? && file.value.status == Error <==> v.ErrorView?
    ensures file.Some? && file.value.status == Completed <==> v.ResultView?
    ensures v.ErrorView? ==> v.message == FriendlyErrorMessage(file.value.error)
  {
    match file
    case None => Placeholder
    case Some(f) =>
      if f.status == Error then ErrorView(FriendlyErrorMessage(f.error))
      else if f.status == Completed then ResultView
      else ProgressLabel(f.status, f.file.name)
  }

  /** A QUEUED item (and an IDLE one) is labelled as being polished. */
  lemma QueuedLabelledPolishing(f: BatchFile)
    requires f.status == Queued || f.status == Idle
    ensures View(Some(f)) == ProgressView("AI Polishing...", "Removing filler words and generating summary")
  {
  }
}
