/**
  Terms, log entries, the apply items and the compacted log of src/raft/types.rs.

  `Log` is the value of the source's `Log` struct.  `LogBuffer` is the mutable
  struct itself; its methods are specified by the functions on `Log`.  The module
  `LogRefinement` relates a `Log` to a plain sequence that was never compacted.
*/
module Types {

  datatype Option<+T> = None | Some(value: T) {
    function GetOr(default: T): T {
      if Some? then value else default
    }
  }

  datatype Result<+T> = Ok(value: T) | Err

  newtype byte = x: int | 0 <= x < 256

  type Bytes = seq<byte>
  type Term = nat
  type LogIndex = nat
  type NodeId = nat

  function Max(a: nat, b: nat): nat { if a < b then b else a }

  function Min(a: nat, b: nat): nat { if a < b then a else b }

  datatype Role = Follower | Candidate | Leader

  datatype LogEntry = LogEntry(term: Term, command: Bytes)

  datatype Applied = Applied(index: LogIndex, term: Term, command: Bytes)

  datatype Snapshot = Snapshot(lastIncludedIndex: LogIndex, lastIncludedTerm: Term, data: Bytes)

  datatype Apply = ApplyCommand(entry: Applied) | ApplySnapshot(snapshot: Snapshot)

  /** Position of the first entry of `term`. */
  function FirstPosition(entries: seq<LogEntry>, term: Term): Option<nat> {
    if entries == [] then None
    else if entries[0].term == term then Some(0)
    else
      var rest := FirstPosition(entries[1..], term);
      if rest.Some? then Some(rest.value + 1) else None
  }

  /** Position of the last entry of `term`. */
  function LastPosition(entries: seq<LogEntry>, term: Term): Option<nat> {
    if entries == [] then None
    else if entries[|entries| - 1].term == term then Some(|entries| - 1)
    else LastPosition(entries[..|entries| - 1], term)
  }

  /** `p` is a position of `term`, or there is none. */
  ghost predicate PositionOf(entries: seq<LogEntry>, term: Term, p: Option<nat>) {
    match p
    case None => forall k :: 0 <= k < |entries| ==> entries[k].term != term
    case Some(k) => k < |entries| && entries[k].term == term
  }

  lemma {:induction false} FirstPositionIs(entries: seq<LogEntry>, term: Term)
    ensures var p := FirstPosition(entries, term);
            PositionOf(entries, term, p) && (p.Some? ==> forall k :: 0 <= k < p.value ==> entries[k].term != term)
  {
    if entries != [] && entries[0].term != term {
      FirstPositionIs(entries[1..], term);
      assert forall k :: 1 <= k < |entries| ==> entries[k] == entries[1..][k - 1];
    }
  }

  lemma {:induction false} LastPositionIs(entries: seq<LogEntry>, term: Term)
    ensures var p := LastPosition(entries, term);
            PositionOf(entries, term, p) && (p.Some? ==> forall k :: p.value < k < |entries| ==> entries[k].term != term)
  {
    if entries != [] && entries[|entries| - 1].term != term {
      LastPositionIs(entries[..|entries| - 1], term);
    }
  }

  /** A log whose entries through `snapshotIndex` were folded into a snapshot. */
  datatype Log = Log(entries: seq<LogEntry>, snapshotIndex: LogIndex, snapshotTerm: Term) {

    function LastIndex(): LogIndex {
      snapshotIndex + |entries|
    }

    function LastTerm(): Term {
      if entries == [] then snapshotTerm else entries[|entries| - 1].term
    }

    /** Term at an absolute index; `None` inside the compacted range and past the end. */
    function TermAt(index: LogIndex): Option<Term> {
      if index == snapshotIndex then Some(snapshotTerm)
      else if snapshotIndex < index <= LastIndex() then Some(entries[index - snapshotIndex - 1].term)
      else None
    }

    function FirstIndexOfTerm(term: Term): Option<LogIndex> {
      var p := FirstPosition(entries, term);
      if p.Some? then Some(snapshotIndex + p.value + 1) else None
    }

    function LastIndexOfTerm(term: Term): Option<LogIndex> {
      var p := LastPosition(entries, term);
      if p.Some? then Some(snapshotIndex + p.value + 1) else None
    }

    function Get(index: LogIndex): Option<LogEntry> {
      if index <= snapshotIndex || index > LastIndex() then None
      else Some(entries[index - snapshotIndex - 1])
    }

    function Append(entry: LogEntry): Log {
      this.(entries := entries + [entry])
    }

    function EntriesAfter(index: LogIndex): seq<LogEntry> {
      var start := Min(if index < snapshotIndex then 0 else index - snapshotIndex, |entries|);
      entries[start..]
    }

    function TruncateAfter(index: LogIndex): Log {
      var keep := if index < snapshotIndex then 0 else index - snapshotIndex;
      this.(entries := entries[..Min(keep, |entries|)])
    }

    /** Fold the entries through `lastIndex` into a snapshot, keeping a matching tail. */
    function Compact(lastIndex: LogIndex, lastTerm: Term): Log {
      if lastIndex <= snapshotIndex then this
      else if lastIndex <= LastIndex() && TermAt(lastIndex) == Some(lastTerm) then
        Log(entries[lastIndex - snapshotIndex..], lastIndex, lastTerm)
      else Log([], lastIndex, lastTerm)
    }
  }

  const EMPTY_LOG := Log([], 0, 0)

  /** The mutable log; it owns its fields and every change goes through these methods. */
  class LogBuffer {
    var entries: seq<LogEntry>
    var snapshotIndex: LogIndex
    var snapshotTerm: Term

    function Value(): Log
      reads this
    {
      Log(entries, snapshotIndex, snapshotTerm)
    }

    constructor FromParts(snapshotIndex: LogIndex, snapshotTerm: Term, entries: seq<LogEntry>)
      ensures Value() == Log(entries, snapshotIndex, snapshotTerm)
    {
      this.entries := entries;
      this.snapshotIndex := snapshotIndex;
      this.snapshotTerm := snapshotTerm;
    }

    method Append(entry: LogEntry) returns (index: LogIndex)
      modifies this
      ensures Value() == old(Value()).Append(entry)
      ensures index == Value().LastIndex() == old(Value()).LastIndex() + 1
    {
      entries := entries + [entry];
      index := snapshotIndex + |entries|;
    }

    method TruncateAfter(index: LogIndex)
      modifies this
      ensures Value() == old(Value()).TruncateAfter(index)
    {
      var keep := if index < snapshotIndex then 0 else index - snapshotIndex;
      if keep < |entries| {
        entries := entries[..keep];
      }
    }

    method Compact(lastIndex: LogIndex, lastTerm: Term)
      modifies this
      ensures Value() == old(Value()).Compact(lastIndex, lastTerm)
    {
      if lastIndex <= snapshotIndex {
        return;
      }
      if lastIndex <= Value().LastIndex() && Value().TermAt(lastIndex) == Some(lastTerm) {
        entries := entries[lastIndex - snapshotIndex..];
      } else {
        entries := [];
      }
      snapshotIndex := lastIndex;
      snapshotTerm := lastTerm;
    }
  }
}
