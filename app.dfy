/**
 * The batch scheduler of the front end (src/App.tsx): the list of items, the counter of
 * running pipelines, admission of queued items up to CONCURRENT_LIMIT, the per-item
 * pipeline, retry/cancel/remove, and the effect that writes completed items to history.
 *
 * React state updates are modelled as assignments. Every update of one item is the
 * source's `prev.map(f => f.id === id ? { ...f, ... } : f)`, here `ReplaceById`: it
 * matches by id only and never looks at the status.
 */
module App {
  import opened Wrappers
  import opened BatchTypes
  import opened History

  const CONCURRENT_LIMIT: nat := 2
  const CANCELLED_MESSAGE: string := "Processing cancelled by user"
  const GENERIC_FAILURE: string := "Failed to process"

  // ----- Item updates -----------------------------------------------------------

  /** A value thrown by a pipeline step: an `Error` object, or anything else. */
  datatype Thrown = ErrorObject(message: string) | OtherValue

  /** `err instanceof Error ? err.message : "Failed to process"`. */
  function FailureMessage(e: Thrown): (m: string)
    ensures e.ErrorObject? ==> m == e.message
    ensures e.OtherValue? ==> m == GENERIC_FAILURE
  {
    match e
    case ErrorObject(message) => message
    case OtherValue => GENERIC_FAILURE
  }

  /** The object spreads `{ ...f, ... }` that App.tsx applies to an item. */
  datatype Transition =
    | StartUpload                          // admission: UPLOADING, progress 0
    | SetProgress(progress: int)           // upload progress callback
    | StartTranscribing                    // transcription returned: TRANSCRIBING, progress 100
    | StartPolishing(transcript: string)   // after the pause: POLISHING with the transcript
    | Complete(refined: RefinedContent)    // polishing returned: COMPLETED with the result
    | Fail(message: string)                // a step threw, or the user cancelled
    | Requeue                              // retry

  function Apply(t: Transition, f: BatchFile): (g: BatchFile)
    ensures g.id == f.id && g.file == f.file
  {
    match t
    case StartUpload => f.(status := Uploading, uploadProgress := Some(0))
    case SetProgress(p) => f.(uploadProgress := Some(p))
    case StartTranscribing => f.(status := Transcribing, uploadProgress := Some(100))
    case StartPolishing(text) => f.(status := Polishing, transcript := Some(text))
    case Complete(r) => f.(status := Completed, refined := Some(r))
    case Fail(m) => f.(status := Error, error := Some(m))
    case Requeue => f.(status := Queued, error := None, transcript := None, refined := None)
  }

  /** `prev.map(f => f.id === id ? apply(f) : f)`. */
  function ReplaceById(fs: seq<BatchFile>, id: Id, t: Transition): (r: seq<BatchFile>)
    ensures |r| == |fs|
    ensures forall i :: 0 <= i < |fs| ==> r[i] == if fs[i].id == id then Apply(t, fs[i]) else fs[i]
  {
    seq(|fs|, i requires 0 <= i < |fs| => if fs[i].id == id then Apply(t, fs[i]) else fs[i])
  }

  /** The items `handleFilesAdded` creates: QUEUED, with nothing else set. */
  function NewItems(files: seq<SourceFile>, ids: seq<Id>): (items: seq<BatchFile>)
    requires |ids| == |files|
    ensures |items| == |files|
    ensures forall i :: 0 <= i < |files| ==>
      items[i] == BatchFile(ids[i], files[i], Queued, None, None, None, None)
  {
    seq(|files|, i requires 0 <= i < |files| => BatchFile(ids[i], files[i], Queued, None, None, None, None))
  }

  /** A retried item starts over like a fresh item: once admitted again, it is exactly what
      admitting a new item with its id and file gives, so no stale error, transcript, result or progress survives into the new run. */
  lemma RetryThenAdmitIsFresh(f: BatchFile)
    ensures Apply(StartUpload, Apply(Requeue, f))
         == Apply(StartUpload, NewItems([f.file], [f.id])[0])
  {
  }

  /** Cancelling does not stop the pipeline: when its transcription returns afterwards, the
      item it matches by id is TRANSCRIBING again and still carries the cancel message. */
  lemma LateTranscriptOverwritesCancel(fs: seq<BatchFile>, id: Id)
    ensures var r := ReplaceById(ReplaceById(fs, id, Fail(CANCELLED_MESSAGE)), id, StartTranscribing);
      forall i :: 0 <= i < |fs| && fs[i].id == id ==>
        r[i].status == Transcribing && r[i].error == Some(CANCELLED_MESSAGE)
  {
  }

  // ----- Filters ----------------------------------------------------------------

  /** `prev.filter(f => f.id !== id)`. */
  function WithoutId(fs: seq<BatchFile>, id: Id): (r: seq<BatchFile>)
    ensures |r| <= |fs|
    ensures forall x :: x in r <==> x in fs && x.id != id
  {
    if fs == [] then [] else (if fs[0].id != id then [fs[0]] else []) + WithoutId(fs[1..], id)
  }

  /** Removing distributes over concatenation: the remaining items keep their order. */
  lemma {:induction false} WithoutIdAppend(a: seq<BatchFile>, b: seq<BatchFile>, id: Id)
    ensures WithoutId(a + b, id) == WithoutId(a, id) + WithoutId(b, id)
  {
    if a == [] {
      assert a + b == b;
    } else {
      assert (a + b)[1..] == a[1..] + b;
      WithoutIdAppend(a[1..], b, id);
    }
  }

  /** `files.filter(f => f.status === ProcessStatus.QUEUED)`. */
  function QueuedItems(fs: seq<BatchFile>): (q: seq<BatchFile>)
    ensures |q| <= |fs|
    ensures forall x :: x in q <==> x in fs && x.status == Queued
  {
    if fs == [] then [] else (if fs[0].status == Queued then [fs[0]] else []) + QueuedItems(fs[1..])
  }

  /** The queued items of a list are the queued items of its parts, in list order. */
  lemma {:induction false} QueuedItemsAppend(a: seq<BatchFile>, b: seq<BatchFile>)
    ensures QueuedItems(a + b) == QueuedItems(a) + QueuedItems(b)
  {
    if a == [] {
      assert a + b == b;
    } else {
      assert (a + b)[1..] == a[1..] + b;
      QueuedItemsAppend(a[1..], b);
    }
  }

  // ----- Admission --------------------------------------------------------------

  function Min(a: int, b: int): int {
    if a <= b then a else b
  }

  /** The items `processQueue` hands to `processFile`: the first `CONCURRENT_LIMIT - count`
      queued items in list order, and none when no slot is free or nothing is queued. */
  function Admitted(fs: seq<BatchFile>, count: nat): (a: seq<BatchFile>)
    ensures count >= CONCURRENT_LIMIT || QueuedItems(fs) == [] ==> a == []
    ensures count < CONCURRENT_LIMIT ==> |a| == Min(CONCURRENT_LIMIT - count, |QueuedItems(fs)|)
    ensures a == QueuedItems(fs)[..|a|]
  {
    var q := QueuedItems(fs);
    if count < CONCURRENT_LIMIT && |q| > 0 then q[..Min(CONCURRENT_LIMIT - count, |q|)] else []
  }

  /** The ids of some items, in order. */
  function Ids(a: seq<BatchFile>): (r: seq<Id>)
    ensures |r| == |a| && forall k :: 0 <= k < |a| ==> r[k] == a[k].id
  {
    seq(|a|, k requires 0 <= k < |a| => a[k].id)
  }

  /** The list after `processFile` marked each admitted item UPLOADING, one after the other. */
  function UploadAll(fs: seq<BatchFile>, a: seq<BatchFile>): (r: seq<BatchFile>)
    ensures |r| == |fs|
    decreases |a|
  {
    if a == [] then fs else ReplaceById(UploadAll(fs, a[..|a| - 1]), a[|a| - 1].id, StartUpload)
  }

  /** Every item whose id was admitted becomes UPLOADING with progress 0 (an item that
      shares such an id included); every other item is unchanged. */
  lemma {:induction false} UploadAllAt(fs: seq<BatchFile>, a: seq<BatchFile>)
    ensures forall i :: 0 <= i < |fs| ==>
      UploadAll(fs, a)[i] == if fs[i].id in Ids(a) then Apply(StartUpload, fs[i]) else fs[i]
  {
    if a != [] {
      var init := a[..|a| - 1];
      UploadAllAt(fs, init);
      assert Ids(a) == Ids(init) + [a[|a| - 1].id];
    }
  }

  /** A list none of whose items is QUEUED has no queued items. */
  lemma NoneQueued(fs: seq<BatchFile>)
    requires forall i :: 0 <= i < |fs| ==> fs[i].status != Queued
    ensures QueuedItems(fs) == []
  {
  }

  lemma QueuedCons(x: BatchFile, rest: seq<BatchFile>)
    ensures QueuedItems([x] + rest) == (if x.status == Queued then [x] else []) + QueuedItems(rest)
  {
    assert ([x] + rest)[1..] == rest;
  }

  /** A list whose items are all QUEUED is its own queue. */
  lemma {:induction false} AllQueued(fs: seq<BatchFile>)
    requires forall i :: 0 <= i < |fs| ==> fs[i].status == Queued
    ensures QueuedItems(fs) == fs
  {
    if fs != [] {
      AllQueued(fs[1..]);
    }
  }

  /** After admission either every slot is taken or no item is left QUEUED: a queued item
      never waits while a slot is free. */
  lemma AdmissionLeavesNoIdleSlot(fs: seq<BatchFile>, count: nat)
    requires count <= CONCURRENT_LIMIT
    ensures var a := Admitted(fs, count);
      count + |a| == CONCURRENT_LIMIT || QueuedItems(UploadAll(fs, a)) == []
  {
    var a := Admitted(fs, count);
    if count + |a| < CONCURRENT_LIMIT {
      var q := QueuedItems(fs);
      assert |a| == |q|;
      assert a == q;
      var r := UploadAll(fs, a);
      UploadAllAt(fs, a);
      forall i | 0 <= i < |r| ensures r[i].status != Queued {
        if fs[i].status == Queued {
          assert fs[i] in q;
          var k :| 0 <= k < |a| && a[k] == fs[i];
          assert Ids(a)[k] == fs[i].id;
        }
      }
      NoneQueued(r);
    }
  }

  /** Running admission again right after it admits nothing: the effect re-running on the
      state admission produced neither over-admits nor changes anything. */
  lemma AdmissionIdempotent(fs: seq<BatchFile>, count: nat)
    requires count <= CONCURRENT_LIMIT
    ensures var a := Admitted(fs, count);
      Admitted(UploadAll(fs, a), count + |a|) == []
  {
    AdmissionLeavesNoIdleSlot(fs, count);
  }

  predicate DistinctIds(fs: seq<BatchFile>) {
    forall i, j :: 0 <= i < j < |fs| ==> fs[i].id != fs[j].id
  }

  /** With distinct ids, admission changes exactly the admitted items. */
  lemma AdmissionWithDistinctIds(fs: seq<BatchFile>, count: nat)
    requires DistinctIds(fs)
    ensures var a := Admitted(fs, count);
      forall i :: 0 <= i < |fs| ==>
        UploadAll(fs, a)[i] == if fs[i] in a then Apply(StartUpload, fs[i]) else fs[i]
  {
    var a := Admitted(fs, count);
    UploadAllAt(fs, a);
    assert forall x :: x in a ==> x in QueuedItems(fs);
    forall i | 0 <= i < |fs| ensures fs[i].id in Ids(a) <==> fs[i] in a {
      IdInItems(fs, a, i);
    }
  }

  /** Among items with distinct ids, an item's id is among those of a selection of them
      exactly when the item itself was selected. */
  lemma IdInItems(fs: seq<BatchFile>, a: seq<BatchFile>, i: int)
    requires DistinctIds(fs) && 0 <= i < |fs|
    requires forall x :: x in a ==> x in fs
    ensures fs[i].id in Ids(a) <==> fs[i] in a
  {
    if fs[i].id in Ids(a) {
      var k :| 0 <= k < |a| && Ids(a)[k] == fs[i].id;
      assert a[k] in fs;
      var j :| 0 <= j < |fs| && fs[j] == a[k];
      assert i == j;
    }
    if fs[i] in a {
      var k :| 0 <= k < |a| && a[k] == fs[i];
      assert Ids(a)[k] == fs[i].id;
    }
  }

  /** Admitting one more item marks it UPLOADING after the others and starts its run last. */
  lemma AdmitOneMore(fs: seq<BatchFile>, a: seq<BatchFile>, x: BatchFile)
    ensures UploadAll(fs, a + [x]) == ReplaceById(UploadAll(fs, a), x.id, StartUpload)
    ensures Runs(a + [x]) == Runs(a) + [Run(x.id, AwaitingTranscript)]
  {
    assert (a + [x])[..|a|] == a;
  }

  /** The runs `processQueue` starts for the admitted items, in order. */
  function Runs(a: seq<BatchFile>): (rs: seq<Run>)
    ensures |rs| == |a| && forall k :: 0 <= k < |a| ==> rs[k] == Run(a[k].id, AwaitingTranscript)
  {
    seq(|a|, k requires 0 <= k < |a| => Run(a[k].id, AwaitingTranscript))
  }

  // ----- History ----------------------------------------------------------------

  /** The history effect writes an item that is COMPLETED, has a result and is not yet saved. */
  predicate Recordable(f: BatchFile, saved: set<Id>) {
    f.status == Completed && f.refined.Some? && f.id !in saved
  }

  /** The items one run of the history effect writes, in list order; `saved` grows as it goes. */
  function ToRecord(fs: seq<BatchFile>, saved: set<Id>): (w: seq<BatchFile>)
    ensures forall k :: 0 <= k < |w| ==> w[k].refined.Some?
    decreases |fs|
  {
    if fs == [] then []
    else if Recordable(fs[0], saved) then [fs[0]] + ToRecord(fs[1..], saved + {fs[0].id})
    else ToRecord(fs[1..], saved)
  }

  /** `ToRecord` writes only COMPLETED items with a result from the list, none of whose
      ids was saved before. */
  lemma {:induction false} ToRecordSound(fs: seq<BatchFile>, saved: set<Id>)
    ensures forall x :: x in ToRecord(fs, saved) ==>
      x in fs && x.status == Completed && x.refined.Some? && x.id !in saved
  {
    if fs != [] {
      if Recordable(fs[0], saved) {
        ToRecordSound(fs[1..], saved + {fs[0].id});
      } else {
        ToRecordSound(fs[1..], saved);
      }
    }
  }

  /** One run of the history effect writes each id at most once. */
  lemma {:induction false} ToRecordDistinct(fs: seq<BatchFile>, saved: set<Id>)
    ensures DistinctIds(ToRecord(fs, saved))
  {
    if fs != [] {
      if Recordable(fs[0], saved) {
        ToRecordDistinct(fs[1..], saved + {fs[0].id});
        ToRecordSound(fs[1..], saved + {fs[0].id});
      } else {
        ToRecordDistinct(fs[1..], saved);
      }
    }
  }

  /** Every COMPLETED item with a result whose id is not yet saved gets its id written. */
  lemma {:induction false} ToRecordComplete(fs: seq<BatchFile>, saved: set<Id>)
    ensures forall i :: 0 <= i < |fs| && Recordable(fs[i], saved) ==> fs[i].id in Ids(ToRecord(fs, saved))
  {
    if fs != [] {
      var w := ToRecord(fs, saved);
      var rest := fs[1..];
      var saved' := if Recordable(fs[0], saved) then saved + {fs[0].id} else saved;
      ToRecordComplete(rest, saved');
      var tail := ToRecord(rest, saved');
      assert Ids(w) == (if Recordable(fs[0], saved) then [fs[0].id] else []) + Ids(tail);
      forall i | 0 <= i < |fs| && Recordable(fs[i], saved) ensures fs[i].id in Ids(w) {
        if i > 0 && fs[i].id != fs[0].id {
          assert rest[i - 1] == fs[i];
        }
      }
    }
  }

  /** The ids of some items, as a set. */
  function IdSet(w: seq<BatchFile>): (ids: set<Id>)
    ensures forall id :: id in ids <==> id in Ids(w)
  {
    set k | 0 <= k < |w| :: w[k].id
  }

  lemma EntriesSnoc(w: seq<BatchFile>, f: BatchFile)
    requires forall k :: 0 <= k < |w| ==> w[k].refined.Some?
    requires f.refined.Some?
    ensures Entries(w + [f]) == Entries(w) + [EntryOf(f)]
    ensures Ids(w + [f]) == Ids(w) + [f.id]
    ensures IdSet(w + [f]) == IdSet(w) + {f.id}
  {
    assert Ids(w + [f]) == Ids(w) + [f.id];
  }

  /** One step of the history effect's loop. */
  lemma RecordStep(written: seq<BatchFile>, fs: seq<BatchFile>, saved: set<Id>)
    requires fs != []
    ensures Recordable(fs[0], saved) ==>
      written + ToRecord(fs, saved) == (written + [fs[0]]) + ToRecord(fs[1..], saved + {fs[0].id})
    ensures !Recordable(fs[0], saved) ==>
      written + ToRecord(fs, saved) == written + ToRecord(fs[1..], saved)
  {
    if Recordable(fs[0], saved) {
      assert ToRecord(fs, saved) == [fs[0]] + ToRecord(fs[1..], saved + {fs[0].id});
    }
  }

  /** A second run of the history effect over the same list, with the ids the first run
      saved, writes nothing. */
  lemma ToRecordIdempotent(fs: seq<BatchFile>, saved: set<Id>)
    ensures ToRecord(fs, saved + IdSet(ToRecord(fs, saved))) == []
  {
    var s2 := saved + IdSet(ToRecord(fs, saved));
    ToRecordComplete(fs, saved);
    assert forall i :: 0 <= i < |fs| ==> !Recordable(fs[i], s2);
    ToRecordNone(fs, s2);
  }

  /** Nothing recordable, nothing written. */
  lemma {:induction false} ToRecordNone(fs: seq<BatchFile>, saved: set<Id>)
    requires forall i :: 0 <= i < |fs| ==> !Recordable(fs[i], saved)
    ensures ToRecord(fs, saved) == []
  {
    if fs != [] {
      ToRecordNone(fs[1..], saved);
    }
  }

  /** The record handed to `addToHistory`; a missing transcript becomes ''. */
  function EntryOf(f: BatchFile): HistoryEntry
    requires f.refined.Some?
  {
    HistoryEntry(f.file.name, f.file.size, f.transcript.GetOr(""), f.refined.value)
  }

  function Entries(w: seq<BatchFile>): (es: seq<HistoryEntry>)
    requires forall k :: 0 <= k < |w| ==> w[k].refined.Some?
    ensures |es| == |w| && forall k :: 0 <= k < |w| ==> es[k] == EntryOf(w[k])
  {
    seq(|w|, k requires 0 <= k < |w| => EntryOf(w[k]))
  }

  // ----- The scheduler ----------------------------------------------------------

  /** Where a running `processFile` is suspended. */
  datatype Stage =
    | AwaitingTranscript           // awaiting transcribeAudio (progress callbacks may arrive)
    | Settling(transcript: string) // awaiting the 500 ms pause, holding the transcript
    | AwaitingRefined              // awaiting polishAndSummarize

  /** One running `processFile` call: the id it captured and where it is suspended. */
  datatype Run = Run(id: Id, stage: Stage)

  // ----- Active items -----------------------------------------------------------

  /** An item some pipeline is working on. */
  predicate Active(f: BatchFile) {
    f.status == Uploading || f.status == Transcribing || f.status == Polishing
  }

  /** The ids the running pipelines captured, in start order. */
  function RunIds(ps: seq<Run>): (r: seq<Id>)
    ensures |r| == |ps| && forall k :: 0 <= k < |ps| ==> r[k] == ps[k].id
  {
    seq(|ps|, k requires 0 <= k < |ps| => ps[k].id)
  }

  /** Every active item has a running pipeline with its id. */
  ghost predicate Covered(fs: seq<BatchFile>, ps: seq<Run>) {
    forall i :: 0 <= i < |fs| && Active(fs[i]) ==> fs[i].id in RunIds(ps)
  }

  /** Starting a pipeline for `id` keeps every active item covered. */
  lemma CoveredAfterStart(fs: seq<BatchFile>, ps: seq<Run>, id: Id)
    requires Covered(fs, ps)
    ensures Covered(ReplaceById(fs, id, StartUpload), ps + [Run(id, AwaitingTranscript)])
  {
    var fs', ps' := ReplaceById(fs, id, StartUpload), ps + [Run(id, AwaitingTranscript)];
    assert RunIds(ps') == RunIds(ps) + [id];
    forall i | 0 <= i < |fs'| && Active(fs'[i]) ensures fs'[i].id in RunIds(ps') {
      if fs[i].id != id {
        assert fs'[i] == fs[i];
      }
    }
  }

  /** Any update of the items of a running pipeline's id keeps every active item covered. */
  lemma CoveredAfterRunning(fs: seq<BatchFile>, ps: seq<Run>, id: Id, t: Transition)
    requires Covered(fs, ps) && id in RunIds(ps)
    ensures Covered(ReplaceById(fs, id, t), ps)
  {
    var fs' := ReplaceById(fs, id, t);
    forall i | 0 <= i < |fs'| && Active(fs'[i]) ensures fs'[i].id in RunIds(ps) {
      if fs[i].id != id {
        assert fs'[i] == fs[i];
      }
    }
  }

  /** A run moving to its next stage keeps the captured ids. */
  lemma SameRunIds(ps: seq<Run>, r: nat, stage: Stage)
    requires r < |ps|
    ensures RunIds(ps[r := Run(ps[r].id, stage)]) == RunIds(ps)
  {
  }

  /** An update that leaves items inactive (retry, cancel) keeps every active item covered. */
  lemma CoveredAfterDeactivate(fs: seq<BatchFile>, ps: seq<Run>, id: Id, t: Transition)
    requires Covered(fs, ps) && (t.Requeue? || t.Fail? || t.Complete?)
    ensures Covered(ReplaceById(fs, id, t), ps)
  {
    var fs' := ReplaceById(fs, id, t);
    forall i | 0 <= i < |fs'| && Active(fs'[i]) ensures fs'[i].id in RunIds(ps) {
      assert fs'[i] == fs[i];
    }
  }

  /** A run ending with COMPLETED or ERROR for its id keeps every remaining active item covered
      by one of the other runs. */
  lemma CoveredAfterEnd(fs: seq<BatchFile>, ps: seq<Run>, r: nat, t: Transition)
    requires Covered(fs, ps) && r < |ps| && (t.Complete? || t.Fail?)
    ensures Covered(ReplaceById(fs, ps[r].id, t), ps[..r] + ps[r + 1..])
  {
    var fs', ps' := ReplaceById(fs, ps[r].id, t), ps[..r] + ps[r + 1..];
    forall i | 0 <= i < |fs'| && Active(fs'[i]) ensures fs'[i].id in RunIds(ps') {
      assert fs'[i] == fs[i];
      var k :| 0 <= k < |ps| && RunIds(ps)[k] == fs[i].id;
      if k < r {
        assert RunIds(ps')[k] == fs[i].id;
      } else {
        assert RunIds(ps')[k - 1] == fs[i].id;
      }
    }
  }

  /** Adding QUEUED items keeps every active item covered. */
  lemma CoveredAfterAdd(fs: seq<BatchFile>, ps: seq<Run>, added: seq<BatchFile>)
    requires Covered(fs, ps) && forall k :: 0 <= k < |added| ==> added[k].status == Queued
    ensures Covered(fs + added, ps)
  {
    var fs' := fs + added;
    forall i | 0 <= i < |fs'| && Active(fs'[i]) ensures fs'[i].id in RunIds(ps) {
      if i < |fs| {
        assert fs'[i] == fs[i];
      }
    }
  }

  /** Removing items keeps the remaining active items covered. */
  lemma CoveredAfterRemove(fs: seq<BatchFile>, ps: seq<Run>, id: Id)
    requires Covered(fs, ps)
    ensures Covered(WithoutId(fs, id), ps)
  {
    var fs' := WithoutId(fs, id);
    forall i | 0 <= i < |fs'| && Active(fs'[i]) ensures fs'[i].id in RunIds(ps) {
      assert fs'[i] in fs;
      var j :| 0 <= j < |fs| && fs[j] == fs'[i];
    }
  }

  /** The ids of the active items. */
  function ActiveIdSet(fs: seq<BatchFile>): (r: set<Id>)
    ensures forall i :: 0 <= i < |fs| && Active(fs[i]) ==> fs[i].id in r
    ensures forall x :: x in r ==> exists i :: 0 <= i < |fs| && Active(fs[i]) && fs[i].id == x
  {
    if fs == [] then {}
    else
      var rest := ActiveIdSet(fs[1..]);
      assert forall i :: 1 <= i < |fs| ==> fs[i] == fs[1..][i - 1];
      (if Active(fs[0]) then {fs[0].id} else {}) + rest
  }

  /** The ids the running pipelines captured, as a set: no more of them than runs. */
  function RunIdSet(ps: seq<Run>): (r: set<Id>)
    ensures |r| <= |ps|
    ensures forall k :: 0 <= k < |ps| ==> ps[k].id in r
  {
    if ps == [] then {}
    else
      var rest := RunIdSet(ps[1..]);
      assert forall k :: 1 <= k < |ps| ==> ps[k] == ps[1..][k - 1];
      {ps[0].id} + rest
  }

  /** The number of active items. */
  function ActiveCount(fs: seq<BatchFile>): nat {
    if fs == [] then 0 else (if Active(fs[0]) then 1 else 0) + ActiveCount(fs[1..])
  }

  lemma {:induction false} SubsetCard<T>(a: set<T>, b: set<T>)
    requires a <= b
    ensures |a| <= |b|
  {
    if a != {} {
      var x :| x in a;
      SubsetCard(a - {x}, b - {x});
    }
  }

  /** With distinct ids, each active item contributes its own id. */
  lemma {:induction false} DistinctActiveCount(fs: seq<BatchFile>)
    requires DistinctIds(fs)
    ensures ActiveCount(fs) == |ActiveIdSet(fs)|
  {
    if fs != [] {
      var rest := fs[1..];
      assert DistinctIds(rest) by {
        forall i, j | 0 <= i < j < |rest| ensures rest[i].id != rest[j].id {
          assert rest[i] == fs[i + 1] && rest[j] == fs[j + 1];
        }
      }
      DistinctActiveCount(rest);
    }
  }

  /** When every active item is covered, there are no more active ids than runs, and with
      distinct ids no more active items than runs. */
  lemma ActiveBoundedByRuns(fs: seq<BatchFile>, ps: seq<Run>)
    requires Covered(fs, ps)
    ensures |ActiveIdSet(fs)| <= |ps|
    ensures DistinctIds(fs) ==> ActiveCount(fs) <= |ps|
  {
    forall x | x in ActiveIdSet(fs) ensures x in RunIdSet(ps) {
      var i :| 0 <= i < |fs| && Active(fs[i]) && fs[i].id == x;
      var k :| 0 <= k < |ps| && RunIds(ps)[k] == x;
    }
    SubsetCard(ActiveIdSet(fs), RunIdSet(ps));
    if DistinctIds(fs) {
      DistinctActiveCount(fs);
    }
  }

  class BatchScheduler {
    var files: seq<BatchFile>
    var processingCount: nat
    /** `savedFilesRef`: ids already written to history. */
    var saved: set<Id>
    /** `selectedFileId`. */
    var selected: Option<Id>
    /** The `processFile` calls that have started and not yet reached `finally`. */
    var pending: seq<Run>
    /** Every id written to history so far, in order. */
    ghost var recorded: seq<Id>

    /** The counter counts the running pipelines and never exceeds the limit; every item in
        UPLOADING, TRANSCRIBING or POLISHING has a running pipeline with its id; history holds
        each saved id exactly once. */
    ghost predicate Valid()
      reads this
    {
      && processingCount == |pending|
      && processingCount <= CONCURRENT_LIMIT
      && Covered(files, pending)
      && (forall i, j :: 0 <= i < j < |recorded| ==> recorded[i] != recorded[j])
      && (forall id :: id in saved <==> id in recorded)
    }

    constructor ()
      ensures Valid()
      ensures files == [] && processingCount == 0 && saved == {} && selected == None && pending == []
    {
      files := [];
      processingCount := 0;
      saved := {};
      selected := None;
      pending := [];
      recorded := [];
    }

    /** `handleFilesAdded`: the new items go at the end, in order. */
    method HandleFilesAdded(newFiles: seq<SourceFile>, ids: seq<Id>)
      requires Valid()
      requires |ids| == |newFiles|
      modifies this`files
      ensures Valid()
      ensures files == old(files) + NewItems(newFiles, ids)
    {
      CoveredAfterAdd(files, pending, NewItems(newFiles, ids));
      files := files + NewItems(newFiles, ids);
    }

    /** At most `CONCURRENT_LIMIT` distinct ids are in UPLOADING, TRANSCRIBING or POLISHING,
        and, when the ids are distinct, at most that many items. */
    lemma ActiveItemsCapped()
      requires Valid()
      ensures |ActiveIdSet(files)| <= CONCURRENT_LIMIT
      ensures DistinctIds(files) ==> ActiveCount(files) <= CONCURRENT_LIMIT
    {
      ActiveBoundedByRuns(files, pending);
    }

    /** `handleRemoveFile`: drop every item with the id, clear the selection if it was that id. */
    method HandleRemoveFile(id: Id)
      requires Valid()
      modifies this`files, this`selected
      ensures Valid()
      ensures files == WithoutId(old(files), id)
      ensures selected == if old(selected) == Some(id) then None else old(selected)
    {
      CoveredAfterRemove(files, pending, id);
      files := WithoutId(files, id);
      if selected == Some(id) {
        selected := None;
      }
    }

    /** `onSelectFile`. */
    method SelectFile(id: Id)
      requires Valid()
      modifies this`selected
      ensures Valid() && selected == Some(id)
    {
      selected := Some(id);
    }

    /** `handleBack`. */
    method HandleBack()
      requires Valid()
      modifies this`selected
      ensures Valid() && selected == None
    {
      selected := None;
    }

    /** `handleRetryFile`: back to QUEUED in place, whatever the status; progress is kept. */
    method HandleRetryFile(id: Id)
      requires Valid()
      modifies this`files
      ensures Valid()
      ensures files == ReplaceById(old(files), id, Requeue)
    {
      CoveredAfterDeactivate(files, pending, id, Requeue);
      files := ReplaceById(files, id, Requeue);
    }

    /** `handleCancelFile`: ERROR with the fixed message, whatever the status; the running
        pipeline, if any, goes on and the counter is not touched. */
    method HandleCancelFile(id: Id)
      requires Valid()
      modifies this`files
      ensures Valid()
      ensures files == ReplaceById(old(files), id, Fail(CANCELLED_MESSAGE))
    {
      CoveredAfterDeactivate(files, pending, id, Fail(CANCELLED_MESSAGE));
      files := ReplaceById(files, id, Fail(CANCELLED_MESSAGE));
    }

    /** `processQueue`, run by the effect after every change of `files` or the counter. */
    method ProcessQueue()
      requires Valid()
      modifies this`files, this`processingCount, this`pending
      ensures Valid()
      ensures var a := Admitted(old(files), old(processingCount));
        && files == UploadAll(old(files), a)
        && processingCount == old(processingCount) + |a|
        && pending == old(pending) + Runs(a)
    {
      var queuedFiles := QueuedItems(files);
      if processingCount < CONCURRENT_LIMIT && |queuedFiles| > 0 {
        var slotsAvailable := CONCURRENT_LIMIT - processingCount;
        var filesToProcess := queuedFiles[..Min(slotsAvailable, |queuedFiles|)];
        assert filesToProcess == Admitted(old(files), old(processingCount));
        StartAll(filesToProcess);
      }
    }

    /** `filesToProcess.forEach(file => processFile(file))`, each call up to its first await. */
    method StartAll(a: seq<BatchFile>)
      requires Covered(files, pending)
      modifies this`files, this`processingCount, this`pending
      ensures Covered(files, pending)
      ensures files == UploadAll(old(files), a)
      ensures processingCount == old(processingCount) + |a|
      ensures pending == old(pending) + Runs(a)
    {
      var i := 0;
      while i < |a|
        invariant 0 <= i <= |a|
        invariant files == UploadAll(old(files), a[..i])
        invariant processingCount == old(processingCount) + i
        invariant pending == old(pending) + Runs(a[..i])
        invariant Covered(files, pending)
      {
        var file := a[i];
        assert a[..i + 1] == a[..i] + [file];
        AdmitOneMore(old(files), a[..i], file);
        StartProcessFile(file.id);
        i := i + 1;
      }
      assert a[..i] == a;
    }

    /** The part of `processFile` before its first await: take a slot, mark the item
        UPLOADING and suspend the run until the transcript arrives. */
    method StartProcessFile(id: Id)
      requires Covered(files, pending)
      modifies this`files, this`processingCount, this`pending
      ensures Covered(files, pending)
      ensures files == ReplaceById(old(files), id, StartUpload)
      ensures processingCount == old(processingCount) + 1
      ensures pending == old(pending) + [Run(id, AwaitingTranscript)]
    {
      CoveredAfterStart(files, pending, id);
      processingCount := processingCount + 1;
      files := ReplaceById(files, id, StartUpload);
      pending := pending + [Run(id, AwaitingTranscript)];
    }

    /** The upload progress callback of run `r`. */
    method OnUploadProgress(r: nat, progress: int)
      requires Valid()
      requires r < |pending| && pending[r].stage == AwaitingTranscript
      modifies this`files
      ensures Valid()
      ensures files == ReplaceById(old(files), pending[r].id, SetProgress(progress))
    {
      CoveredAfterRunning(files, pending, pending[r].id, SetProgress(progress));
      files := ReplaceById(files, pending[r].id, SetProgress(progress));
    }

    /** `transcribeAudio` resolved for run `r`: TRANSCRIBING, progress 100, then the pause. */
    method OnTranscribed(r: nat, transcript: string)
      requires Valid()
      requires r < |pending| && pending[r].stage == AwaitingTranscript
      modifies this`files, this`pending
      ensures Valid()
      ensures files == ReplaceById(old(files), old(pending)[r].id, StartTranscribing)
      ensures pending == old(pending)[r := Run(old(pending)[r].id, Settling(transcript))]
    {
      var id := pending[r].id;
      CoveredAfterRunning(files, pending, id, StartTranscribing);
      SameRunIds(pending, r, Settling(transcript));
      files := ReplaceById(files, id, StartTranscribing);
      pending := pending[r := Run(id, Settling(transcript))];
    }

    /** The pause of run `r` ended: POLISHING with the transcript, then `polishAndSummarize`. */
    method OnSettled(r: nat)
      requires Valid()
      requires r < |pending| && pending[r].stage.Settling?
      modifies this`files, this`pending
      ensures Valid()
      ensures files == ReplaceById(old(files), old(pending)[r].id, StartPolishing(old(pending)[r].stage.transcript))
      ensures pending == old(pending)[r := Run(old(pending)[r].id, AwaitingRefined)]
    {
      var id := pending[r].id;
      CoveredAfterRunning(files, pending, id, StartPolishing(pending[r].stage.transcript));
      SameRunIds(pending, r, AwaitingRefined);
      files := ReplaceById(files, id, StartPolishing(pending[r].stage.transcript));
      pending := pending[r := Run(id, AwaitingRefined)];
    }

    /** `polishAndSummarize` resolved for run `r`: COMPLETED with the result; `finally`
        decrements the counter and the run ends. */
    method OnPolished(r: nat, refined: RefinedContent)
      requires Valid()
      requires r < |pending| && pending[r].stage == AwaitingRefined
      modifies this`files, this`pending, this`processingCount
      ensures Valid()
      ensures files == ReplaceById(old(files), old(pending)[r].id, Complete(refined))
      ensures processingCount == old(processingCount) - 1
      ensures pending == old(pending)[..r] + old(pending)[r + 1..]
    {
      CoveredAfterEnd(files, pending, r, Complete(refined));
      files := ReplaceById(files, pending[r].id, Complete(refined));
      processingCount := processingCount - 1;
      pending := pending[..r] + pending[r + 1..];
    }

    /** A step of run `r` threw: ERROR with its message (a transcript already set stays);
        `finally` decrements the counter and the run ends. The pause never throws. */
    method OnFailed(r: nat, thrown: Thrown)
      requires Valid()
      requires r < |pending| && !pending[r].stage.Settling?
      modifies this`files, this`pending, this`processingCount
      ensures Valid()
      ensures files == ReplaceById(old(files), old(pending)[r].id, Fail(FailureMessage(thrown)))
      ensures processingCount == old(processingCount) - 1
      ensures pending == old(pending)[..r] + old(pending)[r + 1..]
    {
      CoveredAfterEnd(files, pending, r, Fail(FailureMessage(thrown)));
      files := ReplaceById(files, pending[r].id, Fail(FailureMessage(thrown)));
      processingCount := processingCount - 1;
      pending := pending[..r] + pending[r + 1..];
    }

    /** `savedFilesRef.current.add(id)` for an id not saved before: history still holds
        each saved id once. */
    method MarkSaved(id: Id)
      requires Valid() && id !in saved
      modifies this`saved, this`recorded
      ensures Valid()
      ensures saved == old(saved) + {id} && recorded == old(recorded) + [id]
    {
      saved := saved + {id};
      recorded := recorded + [id];
    }

    /** The history effect: for each item in order, write it to history if it is COMPLETED,
        has a result and its id is not saved yet, and mark the id saved. Returns the
        `addToHistory` arguments in call order. */
    method SaveCompletedToHistory() returns (entries: seq<HistoryEntry>)
      requires Valid()
      modifies this`saved, this`recorded
      ensures Valid()
      ensures var w := ToRecord(files, old(saved));
        && entries == Entries(w)
        && recorded == old(recorded) + Ids(w)
        && saved == old(saved) + IdSet(w)
    {
      ghost var written: seq<BatchFile> := [];
      entries := [];
      var i := 0;
      while i < |files|
        invariant 0 <= i <= |files|
        invariant written + ToRecord(files[i..], saved) == ToRecord(files, old(saved))
        invariant forall k :: 0 <= k < |written| ==> written[k].refined.Some?
        invariant entries == Entries(written)
        invariant recorded == old(recorded) + Ids(written)
        invariant saved == old(saved) + IdSet(written)
        invariant Valid()
      {
        var file := files[i];
        RecordStep(written, files[i..], saved);
        assert files[i..][1..] == files[i + 1..];
        if file.status == Completed && file.refined.Some? && file.id !in saved {
          MarkSaved(file.id);
          entries := entries + [EntryOf(file)];
          EntriesSnoc(written, file);
          written := written + [file];
        }
        i := i + 1;
      }
      assert files[i..] == [];
      assert written == ToRecord(files, old(saved));
    }
  }

  // ----- Scenarios --------------------------------------------------------------

  /** Cancel does not stop a running pipeline: a late transcription result overwrites the
      cancelled item, and the counter stays taken until that pipeline ends. */
  method CancelRaceScenario() returns (afterCancel: Status, countAfterCancel: nat, afterLate: Status, transcript: Option<string>)
    ensures afterCancel == Error && countAfterCancel == 1
    ensures afterLate == Polishing && transcript == Some("late")
  {
    var app := new BatchScheduler();
    var a := SourceFile("a.mp3", 1, "audio/mpeg");
    app.HandleFilesAdded([a], ["A"]);
    AllQueued(app.files);
    app.ProcessQueue();
    assert app.pending == [Run("A", AwaitingTranscript)];
    app.HandleCancelFile("A");
    afterCancel, countAfterCancel := app.files[0].status, app.processingCount;
    app.OnTranscribed(0, "late");
    assert app.files[0].status == Transcribing;
    app.OnSettled(0);
    afterLate, transcript := app.files[0].status, app.files[0].transcript;
  }
}
