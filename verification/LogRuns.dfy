/** The compacted log against a plain one, over every interleaving of its operations. */
module LogRuns {
  import opened Types
  import opened LogRefinement

  datatype LogOp =
    | AppendEntry(entry: LogEntry)
    | Truncate(index: LogIndex)
    | Fold(index: LogIndex, term: Term)

  function OnLog(log: Log, op: LogOp): Log {
    match op
    case AppendEntry(e) => log.Append(e)
    case Truncate(k) => log.TruncateAfter(k)
    case Fold(k, t) => log.Compact(k, t)
  }

  /** The same operation on a sequence that is never compacted. */
  function OnPlain(full: seq<LogEntry>, op: LogOp): seq<LogEntry> {
    match op
    case AppendEntry(e) => full + [e]
    case Truncate(k) => if k <= |full| then full[..k] else full
    case Fold(_, _) => full
  }

  /** Truncation stays at or above the boundary; compaction is stale or names the term held there. */
  predicate Proper(log: Log, full: seq<LogEntry>, op: LogOp) {
    match op
    case AppendEntry(_) => true
    case Truncate(k) => log.snapshotIndex <= k
    case Fold(k, t) => k <= log.snapshotIndex || (k <= |full| && t == PlainTerm(full, k))
  }

  function AllOnLog(ops: seq<LogOp>): Log {
    if ops == [] then EMPTY_LOG else OnLog(AllOnLog(ops[..|ops| - 1]), ops[|ops| - 1])
  }

  function AllOnPlain(ops: seq<LogOp>): seq<LogEntry> {
    if ops == [] then [] else OnPlain(AllOnPlain(ops[..|ops| - 1]), ops[|ops| - 1])
  }

  predicate AllProper(ops: seq<LogOp>) {
    forall k :: 0 <= k < |ops| ==> Proper(AllOnLog(ops[..k]), AllOnPlain(ops[..k]), ops[k])
  }

  lemma StepRefines(log: Log, full: seq<LogEntry>, op: LogOp)
    requires Represents(log, full) && Proper(log, full, op)
    ensures Represents(OnLog(log, op), OnPlain(full, op))
  {
    match op
    case AppendEntry(e) => AppendRefines(log, full, e);
    case Truncate(k) =>
      if k <= |full| {
        TruncateRefines(log, full, k);
      }
    case Fold(k, t) =>
      if log.snapshotIndex < k {
        CompactRefines(log, full, k);
      }
  }

  lemma {:induction false} InterleavingRefines(ops: seq<LogOp>)
    requires AllProper(ops)
    ensures Represents(AllOnLog(ops), AllOnPlain(ops))
  {
    if ops != [] {
      var init := ops[..|ops| - 1];
      assert forall k :: 0 <= k <= |init| ==> init[..k] == ops[..k];
      InterleavingRefines(init);
      StepRefines(AllOnLog(init), AllOnPlain(init), ops[|ops| - 1]);
    }
  }

  /**
    At and above the boundary every accessor answers as the plain log does; below it
    the entries are gone and only the tail is left.
  */
  predicate AnswersAs(log: Log, full: seq<LogEntry>, index: LogIndex) {
    && log.snapshotIndex <= |full| == log.LastIndex()
    && log.LastTerm() == PlainTerm(full, |full|)
    && log.TermAt(index) == (if log.snapshotIndex <= index <= |full| then Some(PlainTerm(full, index)) else None)
    && log.Get(index) == (if log.snapshotIndex < index <= |full| then Some(full[index - 1]) else None)
    && log.EntriesAfter(index) == full[Min(Max(index, log.snapshotIndex), |full|)..]
  }

  lemma RepresentsAnswers(log: Log, full: seq<LogEntry>, index: LogIndex)
    requires Represents(log, full)
    ensures AnswersAs(log, full, index)
  {
    AccessorsAgree(log, full, Max(index, log.snapshotIndex));
  }

  lemma AccessorsRefine(ops: seq<LogOp>, index: LogIndex)
    requires AllProper(ops)
    ensures AnswersAs(AllOnLog(ops), AllOnPlain(ops), index)
  {
    InterleavingRefines(ops);
    RepresentsAnswers(AllOnLog(ops), AllOnPlain(ops), index);
  }

  /** The searches find the first and the last entry of a term above the boundary, or report none. */
  predicate SearchesAs(log: Log, full: seq<LogEntry>, term: Term) {
    var base, first, last := log.snapshotIndex, log.FirstIndexOfTerm(term), log.LastIndexOfTerm(term);
    && base <= |full|
    && (first.None? <==> forall k :: base <= k < |full| ==> full[k].term != term)
    && (first.None? <==> last.None?)
    && (first.Some? ==>
          && base < first.value <= last.value <= |full|
          && full[first.value - 1].term == full[last.value - 1].term == term
          && forall k :: base <= k < |full| && full[k].term == term ==> first.value <= k + 1 <= last.value)
  }

  /** The two searches agree on whether there is an entry of `term`, and enclose every one. */
  lemma SearchesEnclose(entries: seq<LogEntry>, term: Term, k: nat)
    requires k < |entries| && entries[k].term == term
    ensures FirstPosition(entries, term).Some? && LastPosition(entries, term).Some?
    ensures FirstPosition(entries, term).value <= k <= LastPosition(entries, term).value < |entries|
  {
    FirstPositionIs(entries, term);
    LastPositionIs(entries, term);
  }

  lemma SearchesHit(entries: seq<LogEntry>, term: Term)
    ensures FirstPosition(entries, term).Some? <==> LastPosition(entries, term).Some?
    ensures var first, last := FirstPosition(entries, term), LastPosition(entries, term);
            first.Some? ==> first.value <= last.value < |entries| && entries[first.value].term == entries[last.value].term == term
  {
    FirstPositionIs(entries, term);
    LastPositionIs(entries, term);
    var first, last := FirstPosition(entries, term), LastPosition(entries, term);
    if first.Some? {
      SearchesEnclose(entries, term, first.value);
    }
  }

  lemma RepresentsSearches(log: Log, full: seq<LogEntry>, term: Term)
    requires Represents(log, full)
    ensures SearchesAs(log, full, term)
  {
    var base, first, last := log.snapshotIndex, FirstPosition(log.entries, term), LastPosition(log.entries, term);
    SearchesHit(log.entries, term);
    forall k | base <= k < |full| && full[k].term == term
      ensures first.Some? && last.Some? && base + first.value <= k <= base + last.value
    {
      SearchesEnclose(log.entries, term, k - base);
    }
    if first.Some? {
      assert full[base + first.value].term == term;
    }
  }

  lemma SearchesRefine(ops: seq<LogOp>, term: Term)
    requires AllProper(ops)
    ensures SearchesAs(AllOnLog(ops), AllOnPlain(ops), term)
  {
    InterleavingRefines(ops);
    RepresentsSearches(AllOnLog(ops), AllOnPlain(ops), term);
  }
}
