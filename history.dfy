/**
 * The completed-transcription history kept in the browser's local storage
 * (src/hooks/useLocalStorage.ts): newest first, at most 50 records persisted.
 */
module History {
  import opened Wrappers
  import opened BatchTypes

  const MAX_HISTORY_ITEMS: nat := 50

  /** What the scheduler hands to `addToHistory`: a record without its id and timestamp. */
  datatype HistoryEntry = HistoryEntry(fileName: string, fileSize: nat, transcript: string, refined: RefinedContent)

  datatype HistoryRecord = HistoryRecord(
    id: string,
    fileName: string,
    fileSize: nat,
    transcript: string,
    refined: RefinedContent,
    completedAt: string)

  /** `{ ...record, id, completedAt }`; the random id and the ISO timestamp are inputs. */
  function MakeRecord(e: HistoryEntry, id: string, completedAt: string): (r: HistoryRecord)
    ensures r.id == id && r.completedAt == completedAt
    ensures r.fileName == e.fileName && r.fileSize == e.fileSize
    ensures r.transcript == e.transcript && r.refined == e.refined
  {
    HistoryRecord(id, e.fileName, e.fileSize, e.transcript, e.refined, completedAt)
  }

  /** `records.slice(0, MAX_HISTORY_ITEMS)`: the first (newest) 50 records, in order. */
  function Trimmed(records: seq<HistoryRecord>): (r: seq<HistoryRecord>)
    ensures |r| <= MAX_HISTORY_ITEMS
    ensures |r| == if |records| <= MAX_HISTORY_ITEMS then |records| else MAX_HISTORY_ITEMS
    ensures r == records[..|r|]
  {
    if |records| <= MAX_HISTORY_ITEMS then records else records[..MAX_HISTORY_ITEMS]
  }

  /** `records.filter(h => h.id !== id)`. */
  function WithoutRecord(records: seq<HistoryRecord>, id: string): (r: seq<HistoryRecord>)
    ensures |r| <= |records|
    ensures forall h :: h in r <==> h in records && h.id != id
  {
    if records == [] then []
    else (if records[0].id != id then [records[0]] else []) + WithoutRecord(records[1..], id)
  }

  /** Filtering distributes over concatenation, so the kept records stay in their order. */
  lemma {:induction false} WithoutRecordAppend(a: seq<HistoryRecord>, b: seq<HistoryRecord>, id: string)
    ensures WithoutRecord(a + b, id) == WithoutRecord(a, id) + WithoutRecord(b, id)
  {
    if a != [] {
      assert (a + b)[1..] == a[1..] + b;
      WithoutRecordAppend(a[1..], b, id);
    } else {
      assert a + b == b;
    }
  }

  /** A list with no record of that id is left exactly as it was. */
  lemma {:induction false} WithoutRecordAbsent(records: seq<HistoryRecord>, id: string)
    requires forall i :: 0 <= i < |records| ==> records[i].id != id
    ensures WithoutRecord(records, id) == records
  {
    if records != [] {
      WithoutRecordAbsent(records[1..], id);
    }
  }

  /** Adding puts the new record first, followed by the newest 49 previous records in order. */
  lemma PrependTrimmed(r: HistoryRecord, records: seq<HistoryRecord>)
    ensures Trimmed([r] + records)[0] == r
    ensures Trimmed([r] + records)[1..] == Trimmed(records)[..|Trimmed([r] + records)| - 1]
  {
    assert ([r] + records)[1..] == records;
  }

  /** What reading `localStorage` and `JSON.parse` gave at mount. */
  datatype Loaded =
    | NothingStored                             // getItem returned null or ''
    | ParsedArray(records: seq<HistoryRecord>)  // the parsed value is an array
    | ParsedOther                               // the parsed value is not an array
    | ParseFailed                               // getItem or JSON.parse threw

  /** The `useHistory` hook: the `history` state and the value it last wrote to storage. */
  class HistoryStore {
    var history: seq<HistoryRecord>
    /** The array this store last wrote under the storage key; None once removed or before any write. */
    var persisted: Option<seq<HistoryRecord>>

    /** Whatever this store writes holds at most 50 records. */
    ghost predicate Valid()
      reads this
    {
      persisted.Some? ==> |persisted.value| <= MAX_HISTORY_ITEMS
    }

    constructor ()
      ensures Valid() && history == [] && persisted == None
    {
      history := [];
      persisted := None;
    }

    /** The mount effect. An array is taken as it is (not trimmed); anything else gives []. */
    method Load(stored: Loaded)
      requires Valid()
      modifies this`history
      ensures Valid()
      ensures history == match stored
        case NothingStored => old(history)
        case ParsedArray(records) => records
        case ParsedOther => []
        case ParseFailed => []
    {
      match stored {
        case NothingStored =>
        case ParsedArray(records) => history := records;
        case ParsedOther => history := [];
        case ParseFailed => history := [];
      }
    }

    /** `saveHistory`: write the trimmed list and make it the state; a failed write changes nothing. */
    method SaveHistory(records: seq<HistoryRecord>, writeOk: bool)
      requires Valid()
      modifies this
      ensures Valid()
      ensures writeOk ==> history == Trimmed(records) && persisted == Some(Trimmed(records))
      ensures !writeOk ==> history == old(history) && persisted == old(persisted)
    {
      var trimmed := Trimmed(records);
      if writeOk {
        persisted := Some(trimmed);
        history := trimmed;
      }
    }

    /**
     * `addToHistory`. `saveHistory` runs inside the updater: its write and its `setHistory`
     * of the trimmed list come first, and the updater's own result, the untrimmed list, is
     * applied last. So the list shown is the untrimmed one, and a successful write persists
     * its first 50 records.
     */
    method AddToHistory(entry: HistoryEntry, id: string, completedAt: string, writeOk: bool)
      requires Valid()
      modifies this
      ensures Valid()
      ensures var updated := [MakeRecord(entry, id, completedAt)] + old(history);
        && history == updated
        && persisted == (if writeOk then Some(Trimmed(updated)) else old(persisted))
      ensures writeOk ==> history[0] == MakeRecord(entry, id, completedAt) && persisted.value[0] == history[0]
      ensures writeOk ==> persisted.value == history[..|persisted.value|]
    {
      var updated := [MakeRecord(entry, id, completedAt)] + history;
      SaveHistory(updated, writeOk);
      history := updated;
    }

    /** `removeFromHistory`, with the same order as `addToHistory`: the filtered list is shown,
        and a successful write persists its first 50 records. */
    method RemoveFromHistory(id: string, writeOk: bool)
      requires Valid()
      modifies this
      ensures Valid()
      ensures var updated := WithoutRecord(old(history), id);
        && history == updated
        && persisted == (if writeOk then Some(Trimmed(updated)) else old(persisted))
      ensures forall h :: h in history ==> h.id != id
      ensures writeOk ==> persisted.value == history[..|persisted.value|]
    {
      var updated := WithoutRecord(history, id);
      SaveHistory(updated, writeOk);
      history := updated;
    }

    /** `clearHistory`: remove the key and empty the state, unless removing threw. */
    method ClearHistory(removeOk: bool)
      requires Valid()
      modifies this
      ensures Valid()
      ensures removeOk ==> history == [] && persisted == None
      ensures !removeOk ==> history == old(history) && persisted == old(persisted)
    {
      if removeOk {
        persisted := None;
        history := [];
      }
    }
  }
}
