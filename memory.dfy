/** The conversation memory of aurion/memory.py: a JSON file holding a list
    of {"role", "message"} objects, read and rewritten whole on every change.
    The file is abstract state: missing, not valid JSON, or a JSON list. */
module MemoryStore {
  import opened Basics

  /** One stored history item, the JSON object {"role": ..., "message": ...}.
      A key that a hand-edited file lacks is None. There is no timestamp. */
  datatype Entry = Entry(role: Option<string>, message: Option<string>)

  /** The object `add` writes: exactly the two keys, both present. */
  function NewEntry(role: string, message: string): Entry {
    Entry(Some(role), Some(message))
  }

  /** The state of the memory file on disk. */
  datatype File = Missing | Corrupt | Valid(entries: seq<Entry>)

  /** The file used when none is named. */
  const DefaultPath: string := "data/memory.json"

  /** What `get_history` returns for a file state: the stored list, or the
      empty list when the file is missing or not valid JSON. */
  function HistoryOf(f: File): seq<Entry> {
    match f
    case Valid(es) => es
    case _ => []
  }

  /** The file after `_ensure_file_exists`: a missing file is created holding
      `[]`; an existing one, valid JSON or not, is left as it is. */
  function EnsureExists(f: File): (r: File)
    ensures !r.Missing?
    ensures !f.Missing? ==> r == f
    ensures HistoryOf(r) == HistoryOf(f)
  {
    if f.Missing? then Valid([]) else f
  }

  /** The file after `add(role, message)`: the history is read (content that
      is not valid JSON reads as `[]`), one entry is appended and the list
      rewritten. */
  function AfterAdd(f: File, role: string, message: string): (r: File)
    ensures r.Valid?
    ensures HistoryOf(r) == HistoryOf(f) + [Entry(Some(role), Some(message))]
    ensures !f.Valid? ==> HistoryOf(r) == [Entry(Some(role), Some(message))]
  {
    Valid(HistoryOf(f) + [NewEntry(role, message)])
  }

  /** The file after `clear`: whatever was there, it now holds `[]`. */
  function AfterClear(f: File): (r: File)
    ensures r.Valid? && HistoryOf(r) == []
  {
    Valid([])
  }

  /** Clearing twice is clearing once. */
  lemma ClearIdempotent(f: File)
    ensures AfterClear(AfterClear(f)) == AfterClear(f)
  {
  }

  /** The file after `add` has been called once per (role, message) pair, in order. */
  function AddAll(f: File, turns: seq<(string, string)>): File
    decreases |turns|
  {
    if turns == [] then f
    else AddAll(AfterAdd(f, turns[0].0, turns[0].1), turns[1..])
  }

  /** The entries those calls write, in call order. */
  function EntriesOf(turns: seq<(string, string)>): (es: seq<Entry>)
    ensures |es| == |turns|
    ensures forall i :: 0 <= i < |turns| ==> es[i] == Entry(Some(turns[i].0), Some(turns[i].1))
    decreases |turns|
  {
    if turns == [] then []
    else [NewEntry(turns[0].0, turns[0].1)] + EntriesOf(turns[1..])
  }

  /** Any sequence of `add` calls appends exactly its entries, in call order,
      and leaves the earlier history as it was. */
  lemma {:induction false} AddAllAppends(f: File, turns: seq<(string, string)>)
    ensures HistoryOf(AddAll(f, turns)) == HistoryOf(f) + EntriesOf(turns)
    decreases |turns|
  {
    if turns != [] {
      var g := AfterAdd(f, turns[0].0, turns[0].1);
      AddAllAppends(g, turns[1..]);
      assert HistoryOf(AddAll(f, turns)) == HistoryOf(AddAll(g, turns[1..]));
      assert HistoryOf(g) == HistoryOf(f) + [NewEntry(turns[0].0, turns[0].1)];
      assert EntriesOf(turns) == [NewEntry(turns[0].0, turns[0].1)] + EntriesOf(turns[1..]);
    }
  }

  /** No size cap: starting from a missing, empty or not-valid-JSON file, n calls
      to `add` give a history of exactly those n entries. */
  lemma NoSizeCap(f: File, turns: seq<(string, string)>)
    requires HistoryOf(f) == []
    ensures HistoryOf(AddAll(f, turns)) == EntriesOf(turns)
    ensures |HistoryOf(AddAll(f, turns))| == |turns|
  {
    AddAllAppends(f, turns);
  }

  /** A `Memory` object bound to one file; `file` is what the disk holds. */
  class Memory {
    const filePath: string
    var file: File

    /** `Memory(file_path="data/memory.json")`: `onDisk` is the state found
        at that path. */
    constructor (onDisk: File, filePath: string := DefaultPath)
      ensures this.filePath == filePath
      ensures file == EnsureExists(onDisk)
    {
      this.filePath := filePath;
      file := EnsureExists(onDisk);
    }

    /** Read the history, append one entry, rewrite the file. */
    method Add(role: string, message: string)
      modifies this`file
      ensures file == AfterAdd(old(file), role, message)
    {
      var memory := GetHistory();
      memory := memory + [NewEntry(role, message)];
      file := Valid(memory);
    }

    /** The stored list; `[]` instead of an exception when the file is
        missing or holds invalid JSON. Changes nothing. */
    method GetHistory() returns (history: seq<Entry>)
      ensures file.Valid? ==> history == file.entries
      ensures !file.Valid? ==> history == []
    {
      match file
      case Valid(es) => history := es;
      case Missing => history := [];
      case Corrupt => history := [];
    }

    /** Overwrite the file with `[]`. */
    method Clear()
      modifies this`file
      ensures file == AfterClear(old(file))
    {
      file := Valid([]);
    }
  }
}
