# Sonote batch transcription: a Dafny model

Sonote is a web application for audio transcription. The browser front end queues files and
works on at most two at a time (`App.BatchScheduler.ActiveItemsCapped`). Each upload is transcribed by the back end, and the transcript
is then polished into cleaned-up text, a summary and keywords. Completed items are kept in a
local history. This project models the decision logic of both halves in Dafny 4.11 and proves
properties of that model.

**Front end**

- **`App`** (`app.dfy`): the batch scheduler, as a class.
  - State: the item list, the running-pipeline counter, the set of ids already saved to
    history, the selection, and the suspended `processFile` runs.
  - A method per handler, plus `ProcessQueue` for the admission effect. Each pipeline
    step is its own method, taking the remote outcome as a parameter.
  - Steps of different runs, and the user's cancel, retry and remove calls, can therefore
    be interleaved in any order.
- **`History`** (`history.dfy`): the local-storage history hook, as a class. The storage
  outcome is a parameter: a write can fail, and the value read back can be unparseable.
- **`DropZone`** (`drop_zone.dfy`): the upload filter (a loop with its invariants) and the
  two entry points that call it.
- **`ResultPanel`** (`result_panel.dfy`): the friendly error classifier and the choice of
  view for the selected item.

**Back end**

- **`Config`** (`config.dfy`): the settings and the CORS origin list.
- **`LlmService`** (`llm_service.py`): provider selection, extraction of fenced JSON from
  the model's answer, the key check and the fallback. The chat call and `json.loads` are
  function parameters.
- **`AsrService`** (`asr_service.py`): mapping the file name to an audio format, classifying
  the HTTP reply, the Whisper stub and the connectivity probe. The HTTP calls are function
  parameters.
- **`AudioService`** (`audio_service.py`): mock mode and the fall back to mock answers.
- **`Routes`** (`routes.py`, with the response models of `schemas.py`): request validation
  and response shaping, including the validation of the response model.

**Shared modules**

- **`Wrappers`**: `Option`.
- **`BatchTypes`**: the front end's records.
- **`Text`**: the string operations the sources use:
  - ASCII lower-casing;
  - substring search;
  - Python's `split`, `strip` and `str(int)`.
- **`JsonValues`**: decoded JSON, and Python's `in` applied to it.

**Where the code's behaviour is easy to misread, the model follows the code:**

- Nothing ties a pipeline's later steps to its run. The steps find the item by id, so a
  cancelled or retried item is overwritten when a late result arrives
  (`App.LateTranscriptOverwritesCancel`, `App.CancelRaceScenario`).
- Cancel and retry apply in any status. Retry keeps `uploadProgress`.
- The cap of two counts running pipelines, not items. Every UPLOADING, TRANSCRIBING or
  POLISHING item has a running pipeline with its id, so at most two distinct ids are in those
  statuses. Nothing makes ids unique: items sharing an id also share its pipeline.
- `addToHistory` and `removeFromHistory` call `saveHistory` inside the state updater. Its
  `setHistory` of the trimmed list comes first, and the updater's own result, the untrimmed
  list, is applied last. So the list shown can hold more than 50 records, while at most 50
  are persisted.
- The counter always equals the number of runs that have started and not yet ended. Cancel
  does not release a slot.
- Both back-end services always report success. The real call is tried first and the
  mock answers otherwise, so the failure bodies of both endpoints are never sent
  (`Routes.AcceptedUploadSucceeds`, `Routes.PolishNeverReportsFailure`).
- A QUEUED item is labelled "AI Polishing...".
- "Upload timed out" does not contain "timeout", so that error is shown verbatim.
- The key check of `polish_with_llm` uses Python's `in`. A decoded list or string that
  merely contains the three key names therefore passes as a success. When such a success
  reaches `/api/polish`, the route answers 500 (`Routes.ListAnswerIsServerError`).

## Model

| member | source | states |
|---|---|---|
| App.FailureMessage | src/App.tsx:95 | an Error's own message, "Failed to process" for any other thrown value |
| App.Apply | src/App.tsx:72-101 | every item update keeps the item's id and file |
| App.ReplaceById | src/App.tsx:35-39 | each item with the id gets the update and every other item is unchanged; the length is kept |
| App.NewItems | src/App.tsx:20-27 | one item per file, in order, QUEUED with the given id and no other field set |
| App.CoveredAfterAdd | src/App.tsx:20-27 | new QUEUED items keep every active item covered by a run with its id |
| App.CoveredAfterRemove | src/App.tsx:29-32 | removing items keeps the remaining active items covered |
| App.CoveredAfterDeactivate | src/App.tsx:34-48 | retry (QUEUED) and cancel (ERROR) keep every active item covered |
| App.CoveredAfterStart | src/App.tsx:68-72 | a pipeline starting for an id keeps every active item covered, its own UPLOADING items by the new run |
| App.CoveredAfterRunning | src/App.tsx:75-84 | progress, TRANSCRIBING and POLISHING updates for a running id keep every active item covered |
| App.CoveredAfterEnd | src/App.tsx:86-104 | COMPLETED or ERROR at the end of a run keeps every other active item covered by the remaining runs |
| App.SameRunIds | src/App.tsx:79-84 | a run moving to its next stage keeps the ids the runs captured |
| App.ActiveBoundedByRuns | src/App.tsx:68-104 | covered active items have no more distinct ids than there are runs, and with distinct ids no more items |
| App.RetryThenAdmitIsFresh | src/App.tsx:34-40 | a retried item, once admitted again, is exactly a fresh item with that id and file |
| App.LateTranscriptOverwritesCancel | src/App.tsx:79 | after a cancel, a late transcription result makes the item TRANSCRIBING again, still carrying the cancel message |
| App.WithoutId | src/App.tsx:30 | keeps exactly the items whose id differs |
| App.WithoutIdAppend | src/App.tsx:30 | removal distributes over concatenation, so the remaining items keep their order |
| App.QueuedItems | src/App.tsx:56 | keeps exactly the QUEUED items |
| App.QueuedItemsAppend | src/App.tsx:56 | the queued items of a list are those of its parts, in order |
| App.Admitted | src/App.tsx:56-60 | nothing when no slot is free or nothing is queued; otherwise the first min(2 - count, queued) QUEUED items, in list order |
| App.UploadAllAt | src/App.tsx:72 | after admission, every item whose id was admitted is UPLOADING with progress 0 and every other item is unchanged |
| App.AdmissionLeavesNoIdleSlot | src/App.tsx:58-64 | after admission either both slots are taken or no item is left QUEUED |
| App.AdmissionIdempotent | src/App.tsx:54-108 | the effect re-running on the state admission produced admits nothing more |
| App.AdmissionWithDistinctIds | src/App.tsx:60-72 | with distinct ids, admission changes exactly the admitted items |
| App.ToRecordSound | src/App.tsx:113 | the history effect writes only COMPLETED items with a result, from the list, whose id was not saved before |
| App.ToRecordDistinct | src/App.tsx:113-114 | one run of the effect writes each id at most once |
| App.ToRecordComplete | src/App.tsx:112-115 | every COMPLETED item with a result and an unsaved id has its id written |
| App.ToRecordIdempotent | src/App.tsx:111-127 | a second run of the effect after the first writes nothing |
| App.ToRecordNone | src/App.tsx:113 | nothing recordable, nothing written |
| App.Entries | src/App.tsx:115-124 | one history entry per written item, with name, size, transcript (default '') and result |
| App.BatchScheduler.constructor | src/App.tsx:10-14 | starts with no items, counter 0, no saved ids, no selection, no runs |
| App.BatchScheduler.HandleFilesAdded | src/App.tsx:20-27 | appends the new QUEUED items after the existing ones, which are unchanged |
| App.BatchScheduler.HandleRemoveFile | src/App.tsx:29-32 | removes every item with the id and clears the selection if it was that id |
| App.BatchScheduler.ActiveItemsCapped | src/App.tsx:7-108 | at most `CONCURRENT_LIMIT` (two) distinct ids are UPLOADING, TRANSCRIBING or POLISHING, and at most two items when ids are distinct |
| App.BatchScheduler.SelectFile | src/App.tsx:165 | selects the given id |
| App.BatchScheduler.MarkSaved | src/App.tsx:114 | adds the id to the saved set and appends it to the ids written, keeping each written once |
| App.BatchScheduler.HandleBack | src/App.tsx:50-52 | clears the selection |
| App.BatchScheduler.HandleRetryFile | src/App.tsx:34-40 | the id's items become QUEUED with error, transcript and result cleared, in place, whatever their status; progress is kept; the counter is untouched |
| App.BatchScheduler.HandleCancelFile | src/App.tsx:42-48 | the id's items become ERROR with "Processing cancelled by user", whatever their status; the counter and the running pipeline are untouched |
| App.BatchScheduler.ProcessQueue | src/App.tsx:55-66 | admits exactly `Admitted`, marks them UPLOADING, raises the counter by their number and starts a run for each, keeping the counter at most 2 |
| App.BatchScheduler.StartAll | src/App.tsx:62-64 | starting the selected items one after the other marks exactly their ids UPLOADING, raises the counter by their number and adds their runs in order |
| App.BatchScheduler.StartProcessFile | src/App.tsx:68-72 | the synchronous start of a pipeline: the counter rises by one, the id's items become UPLOADING with progress 0, and a run awaiting the transcript is added |
| App.BatchScheduler.OnUploadProgress | src/App.tsx:75-77 | sets the progress of the run's id |
| App.BatchScheduler.OnTranscribed | src/App.tsx:79 | TRANSCRIBING with progress 100; the run waits for the pause |
| App.BatchScheduler.OnSettled | src/App.tsx:82-84 | POLISHING with the transcript; the run awaits polishing |
| App.BatchScheduler.OnPolished | src/App.tsx:86-104 | COMPLETED with the result; the counter drops by one and the run ends |
| App.BatchScheduler.OnFailed | src/App.tsx:94-104 | ERROR with the failure message, other fields kept; the counter drops by one and the run ends |
| App.CancelRaceScenario | src/App.tsx:42-84 | one item cancelled while uploading is ERROR with the counter still 1; a late transcript then makes it TRANSCRIBING and POLISHING with that transcript |
| App.BatchScheduler.SaveCompletedToHistory | src/App.tsx:111-127 | writes exactly `ToRecord` of the list, in order, and adds their ids to the saved set; every id is written at most once over the scheduler's life |
| History.MakeRecord | src/hooks/useLocalStorage.ts:49-53 | the entry's fields plus the given id and timestamp |
| History.Trimmed | src/hooks/useLocalStorage.ts:40 | the first (newest) min(50, n) records, in order |
| History.WithoutRecord | src/hooks/useLocalStorage.ts:64 | keeps exactly the records whose id differs |
| History.WithoutRecordAppend | src/hooks/useLocalStorage.ts:64 | removal distributes over concatenation, so the kept records stay in order |
| History.WithoutRecordAbsent | src/hooks/useLocalStorage.ts:64 | removing an absent id leaves the list as it was |
| History.PrependTrimmed | src/hooks/useLocalStorage.ts:55-57 | the new record comes first, followed by the previous records in order |
| History.HistoryStore.constructor | src/hooks/useLocalStorage.ts:20 | empty history, nothing persisted |
| History.HistoryStore.Load | src/hooks/useLocalStorage.ts:23-34 | a stored array is taken as it is, a non-array or a failure gives [], nothing stored changes nothing |
| History.HistoryStore.SaveHistory | src/hooks/useLocalStorage.ts:37-46 | a successful write stores and shows the trimmed list; a failed one changes nothing; at most 50 records are ever persisted |
| History.HistoryStore.AddToHistory | src/hooks/useLocalStorage.ts:48-60 | the new record is prepended and the untrimmed list is shown; a successful write persists its first 50 records, a failed one leaves storage as it was |
| History.HistoryStore.RemoveFromHistory | src/hooks/useLocalStorage.ts:62-68 | the records with the id are removed and the filtered list is shown; a successful write persists its first 50 records, a failed one leaves storage as it was |
| History.HistoryStore.ClearHistory | src/hooks/useLocalStorage.ts:70-77 | empty history and nothing stored, unless removing fails |
| DropZone.Accepted | src/components/DropZone.tsx:19-30 | no more files than given |
| DropZone.AcceptedMembers | src/components/DropZone.tsx:20-29 | a file is kept exactly when it has an audio/ or video/ type and at most 100 MiB |
| DropZone.AcceptedAppend | src/components/DropZone.tsx:19-30 | filtering distributes over concatenation |
| DropZone.AcceptedIsSubsequence | src/components/DropZone.tsx:19-30 | the kept files are a subsequence of the input, in order |
| DropZone.SizeLimitBoundary | src/components/DropZone.tsx:4 | exactly 100 MiB is accepted, one byte more is not |
| DropZone.ValidateAndFilterFiles | src/components/DropZone.tsx:14-40 | keeps the accepted files; the bad-type flag is set iff some file has a bad type; the oversize flag is set iff some well-typed file is too large |
| DropZone.Toasts | src/components/DropZone.tsx:32-37 | each toast is shown exactly when its flag is set |
| DropZone.HandleDrop | src/components/DropZone.tsx:42-56 | ignored while processing; otherwise hands on the accepted files, and only when there are some, with a toast for a bad type and one for an oversized file exactly when such a file was dropped |
| DropZone.HandleFileInput | src/components/DropZone.tsx:63-71 | an absent or empty selection is ignored; otherwise hands on the accepted files, and only when there are some, with the same toasts as a drop |
| ResultPanel.FirstMatch | src/components/ResultPanel.tsx:29-33 | the first entry, in declaration order, whose key occurs case-insensitively in the error |
| ResultPanel.FriendlyErrorMessage | src/components/ResultPanel.tsx:17-36 | the unknown-error text for an absent or empty error, else the first matching entry's message, else the error itself |
| ResultPanel.NoLetterTMatchesNothing | src/components/ResultPanel.tsx:29-35 | every key (after case folding) contains a t, so an error without a t matches no key |
| ResultPanel.CancelledMessageShownVerbatim | src/components/ResultPanel.tsx:35 | the cancel message is shown as it is |
| ResultPanel.UploadTimedOutMatchesNothing | src/components/ResultPanel.tsx:24 | "Upload timed out" matches no key; in particular it lacks "timeout" |
| ResultPanel.UploadTimedOutShownVerbatim | src/components/ResultPanel.tsx:35 | so that error is shown as it is |
| ResultPanel.NetworkErrorIsFriendly | src/components/ResultPanel.tsx:22 | "Network error during upload" gets the second entry's message |
| ResultPanel.ProgressLabel | src/components/ResultPanel.tsx:82-93 | Uploading for UPLOADING, Transcribing for TRANSCRIBING, AI Polishing otherwise, with their descriptions |
| ResultPanel.View | src/components/ResultPanel.tsx:38-82 | placeholder iff nothing is selected, error view iff ERROR (with the friendly message), results iff COMPLETED |
| ResultPanel.QueuedLabelledPolishing | src/components/ResultPanel.tsx:84-88 | a QUEUED or IDLE item is labelled as being polished |
| Config.CorsOriginsList | backend/app/core/config.py:29-31 | one entry per comma-separated segment (commas + 1), each the segment stripped, in order |
| Config.CorsOriginsRoundTrip | backend/app/core/config.py:31 | joining origins with commas and parsing gives them back |
| Config.DefaultCorsOrigins | backend/app/core/config.py:13 | the default setting gives ["http://localhost:3000"] |
| JsonValues.PyIn | backend/app/services/llm_service.py:95 | Python `in`: dict keys, list elements, str substrings, TypeError with the type's name otherwise |
| LlmService.GetLlmClient | backend/app/services/llm_service.py:32-52 | a client iff the lower-cased provider is dashscope or deepseek and that provider's key is set, with qwen-max or deepseek-chat and the right endpoint |
| LlmService.ProviderCaseInsensitive | backend/app/services/llm_service.py:34 | provider names differing only in case select the same client |
| LlmService.PromptText | backend/app/services/llm_service.py:75 | the first min(n, 10000) characters |
| LlmService.OnlyPromptTextMatters | backend/app/services/llm_service.py:75 | texts agreeing on their first 10000 characters get the same result |
| LlmService.NoClientNoRequest | backend/app/services/llm_service.py:62-63 | no client: the fixed "LLM not configured" error whatever the model or parser would do |
| LlmService.ExtractJson | backend/app/services/llm_service.py:87-90 | the extracted text is never longer than the answer |
| LlmService.JsonFenceExtraction | backend/app/services/llm_service.py:87-88 | with a "```json" fence, the text after it up to the next "```" (unless a backtick precedes a second "```json") |
| LlmService.PlainFenceExtraction | backend/app/services/llm_service.py:89-90 | with only plain fences, the text between the first two |
| LlmService.NoFenceNoExtraction | backend/app/services/llm_service.py:87-92 | without a fence, the whole answer |
| LlmService.ExtractedHasNoFence | backend/app/services/llm_service.py:87-90 | the extracted text contains no fence |
| LlmService.AllIn | backend/app/services/llm_service.py:95 | all keys found in a container, TypeError for a non-container |
| LlmService.FallbackResult | backend/app/services/llm_service.py:102-106 | success with the text as polishedText, the placeholder summary and no keywords |
| LlmService.PolishWithLlm | backend/app/services/llm_service.py:55-109 | a success is a JSON container from a configured client; a failure is an object holding only a string "error" |
| LlmService.PolishSuccessIff | backend/app/services/llm_service.py:55-109 | failure exactly when there is no client, the call raised, the content was None, or the decoded value is not a container |
| LlmService.CompleteAnswerReturned | backend/app/services/llm_service.py:92-98 | a decoded object with the three keys is returned as the result, unchanged |
| LlmService.UnusableAnswerFallsBack | backend/app/services/llm_service.py:100-106 | undecodable JSON or a missing key gives the fallback around the extracted text |
| AsrService.FileExtension | backend/app/services/asr_service.py:22 | the lower-cased text after the last dot, dot-free; mp3 without a dot |
| AsrService.ExtensionOfDottedName | backend/app/services/asr_service.py:22 | for stem.ext with a dot-free ext, exactly ext lower-cased |
| AsrService.AudioFormat | backend/app/services/asr_service.py:23-31 | the map's formats; m4a becomes mp4; anything unknown becomes mp3 |
| AsrService.M4aSentAsMp4 | backend/app/services/asr_service.py:65 | a .M4A file is posted as audio/mp4, with its bytes and the fixed model and language |
| AsrService.ParaformerUpload | backend/app/services/asr_service.py:59-71 | the request carries the key, the file name, the audio bytes unchanged, the mapped MIME type, model paraformer-v2 and language zh |
| AsrService.ClassifyReply | backend/app/services/asr_service.py:73-87 | success iff status 200 with non-empty text; empty-result message, "ASR API error (status): body", timeout message otherwise |
| AsrService.StatusInErrorMessage | backend/app/services/asr_service.py:82 | the status code can be read back from the error message |
| AsrService.TranscribeWithParaformer | backend/app/services/asr_service.py:18-19 | no key: the fixed error |
| AsrService.ParaformerRequest | backend/app/services/asr_service.py:59-71 | with a key the request carries key, file name, audio bytes, mapped MIME type, model and language, and the result is the classified reply; without one no request is made |
| AsrService.TranscribeWithWhisper | backend/app/services/asr_service.py:90-96 | always fails with the fixed message |
| AsrService.TestAsrConnection | backend/app/services/asr_service.py:99-118 | success iff a key is set and the probe returns 200, 405 or 400 |
| AudioService.MockTranscribe | backend/app/services/audio_service.py:61-72 | success, and the transcript contains the file name |
| AudioService.Preview | backend/app/services/audio_service.py:80 | the text itself up to 100 characters, else its first 100 and "..." |
| AudioService.PreviewSeesFirstHundred | backend/app/services/audio_service.py:80 | long texts with the same first 100 characters have the same preview |
| AudioService.MockPolish | backend/app/services/audio_service.py:75-95 | success with exactly the three keys, text ending in the preview, the fixed summary and five keywords |
| AudioService.TranscribeAudio | backend/app/services/audio_service.py:14-34 | always success; the result is the mock or, outside mock mode, the recognition service's result |
| AudioService.TranscribeAlwaysSucceeds | backend/app/services/audio_service.py:14-34 | always success: a real success unchanged, else the mock |
| AudioService.MockTranscribeIgnoresService | backend/app/services/audio_service.py:21-22 | in mock mode the recognition service is not consulted |
| AudioService.PolishAndSummarize | backend/app/services/audio_service.py:37-58 | always success; the result is the mock or, outside mock mode, the language model's result |
| AudioService.PolishAlwaysSucceeds | backend/app/services/audio_service.py:37-58 | always success: a real success unchanged, else the mock |
| AudioService.MockPolishIgnoresService | backend/app/services/audio_service.py:44-45 | in mock mode the language model is not consulted |
| Routes.UploadName | backend/app/api/routes.py:62 | the file name, or "audio" when missing or empty |
| Routes.TranscribeResponseOf | backend/app/api/routes.py:64-67 | success keeps the transcript; failure gives transcript "" and the message as error |
| Routes.Transcribe | backend/app/api/routes.py:44-67 | a refusal is a 400 naming the unsupported type; a body is always a success without error |
| Routes.TranscribeRejectsIff | backend/app/api/routes.py:51-56 | 400 exactly for a content type off the five-entry list |
| Routes.AcceptedUploadSucceeds | backend/app/api/routes.py:58-67 | an accepted upload always gets a successful body with the service's transcript |
| Routes.StrValue | backend/app/api/schemas.py:17-18 | a str field accepts exactly a JSON string |
| Routes.StrList | backend/app/api/schemas.py:19 | a List[str] field accepts exactly a list of strings, element by element |
| Routes.PolishSuccessResponse | backend/app/api/routes.py:80-86 | a body iff the result is an object with string text and summary and a list of string keywords; 500 otherwise |
| Routes.PolishFailureResponse | backend/app/api/routes.py:87-95 | empty fields and no keywords, with the "error" entry, "Unknown error" without one, or str(result) for a non-object |
| Routes.Polish | backend/app/api/routes.py:70-95 | the only refusal is the 400 for empty text; a body is always a success |
| Routes.PolishRejectsBlank | backend/app/api/routes.py:75-76 | 400 exactly for text that is empty or all whitespace |
| Routes.PolishNeverReportsFailure | backend/app/api/routes.py:78-95 | a body sent by the endpoint always says success |
| Routes.MockPolishResponse | backend/app/api/routes.py:70-95 | in mock mode, non-blank text gets the mock text, summary and five keywords |
| Routes.ListAnswerIsServerError | backend/app/api/routes.py:80-86 | a model answer decoding to a list of the key names passes the service and makes the endpoint answer 500 |

## Left out

- Rendering (JSX), the toast component, the queue list and the header are presentation only.
- The progress bar percentage and the size formatting are floating point.
- The transport in the front end's API service (XHR, fetch, the timeout, the mock delays) is I/O. The upload progress is an integer parameter.
- `Math.random` ids and `new Date()` timestamps are parameters. Nothing makes ids unique, and the model does not rely on it.
- React's scheduling, batching and StrictMode double effects are not modelled. Each state update is applied at once, and the effects are explicit method calls.
- localStorage and `JSON.parse` are outcome parameters. The history effect's `addToHistory` calls are returned as a list, not applied to a `HistoryStore`.
- The HTTP calls, the OpenAI client and `json.loads` are function parameters. The prompt's fixed wording, the request headers and the sleeps are left out.
- `transcribe_with_paraformer` also builds a base64 copy of the audio and a JSON payload, and sends neither. They are left out. The audio bytes are an opaque `seq<bv8>` passed through unchanged.
- History.HistoryStore.AddToHistory: shows the untrimmed list, as the updater's statement order gives. React could apply the updates differently, so the trimmed list might show instead; that ordering is not modelled.
- Logging (`print`, `console.error`) is left out.
- `test_llm_connection` and the health and configuration routes are not modelled: they only report connectivity.
- JSON floats are not modelled. A `text` field of the recognition reply whose value is not a string is not modelled either.
- Text.Lower: folds ASCII letters only, where JavaScript's `toLowerCase` and Python's `lower` fold all of Unicode.
- LlmService.GetLlmClient: uses ASCII `Lower` for the provider name, for the same reason.
- AsrService.FileExtension: uses ASCII `Lower` for the file name, for the same reason.
- Routes.PolishFailureResponse: `str()` of a result that is not an object is a parameter. Python's `repr` is not modelled.
- Routes.PolishSuccessResponse: models only the strict part of the response model's validation (string and list-of-string fields). Pydantic's other coercions do not arise for decoded JSON.
