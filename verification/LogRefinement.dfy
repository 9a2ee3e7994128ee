/**
  A compacted log against the plain, never compacted sequence it stands for.

  `Represents(log, full)` says that the tail of `full` past the snapshot boundary
  is what the log holds.  Every accessor agrees with `full` at and above the
  boundary, and every operation is an operation on `full`.
*/
module LogRefinement {
  import opened Types
  import opened Consensus
  import opened History
  import opened HistorySteps

  /** The term at a 1-based index of a plain log; index 0 is the origin of term 0. */
  function PlainTerm(full: seq<LogEntry>, index: LogIndex): Term
    requires index <= |full|
  {
    if index == 0 then 0 else full[index - 1].term
  }

  ghost predicate Represents(log: Log, full: seq<LogEntry>) {
    && log.snapshotIndex <= |full|
    && log.entries == full[log.snapshotIndex..]
    && log.snapshotTerm == PlainTerm(full, log.snapshotIndex)
  }

  // ---- accessors ----

  lemma AccessorsAgree(log: Log, full: seq<LogEntry>, index: LogIndex)
    requires Represents(log, full) && log.snapshotIndex <= index
    ensures log.LastIndex() == |full|
    ensures log.LastTerm() == PlainTerm(full, |full|)
    ensures log.TermAt(index) == if index <= |full| then Some(PlainTerm(full, index)) else None
    ensures log.Get(index) == if log.snapshotIndex < index <= |full| then Some(full[index - 1]) else None
    ensures log.EntriesAfter(index) == if index <= |full| then full[index..] else []
  {
  }

  // ---- mutators ----

  lemma AppendRefines(log: Log, full: seq<LogEntry>, e: LogEntry)
    requires Represents(log, full)
    ensures Represents(log.Append(e), full + [e])
  {
    assert (full + [e])[log.snapshotIndex..] == full[log.snapshotIndex..] + [e];
  }

  lemma TruncateRefines(log: Log, full: seq<LogEntry>, index: LogIndex)
    requires Represents(log, full) && log.snapshotIndex <= index <= |full|
    ensures Represents(log.TruncateAfter(index), full[..index])
  {
    assert full[..index][log.snapshotIndex..] == full[log.snapshotIndex..][..index - log.snapshotIndex];
  }

  /** Compaction at a held index with the right term does not change the plain log. */
  lemma CompactRefines(log: Log, full: seq<LogEntry>, index: LogIndex)
    requires Represents(log, full) && index <= |full|
    ensures index <= log.snapshotIndex ==> log.Compact(index, PlainTerm(full, index)) == log
    ensures Represents(log.Compact(index, PlainTerm(full, index)), full)
    ensures log.Compact(index, PlainTerm(full, index)).snapshotIndex == Max(log.snapshotIndex, index)
  {
    if log.snapshotIndex < index {
      assert full[log.snapshotIndex..][index - log.snapshotIndex..] == full[index..];
    }
  }

  /** Compaction to a foreign snapshot keeps the tail exactly when the boundary matches. */
  lemma CompactForeignRefines(log: Log, full: seq<LogEntry>, prefix: seq<LogEntry>)
    requires Represents(log, full) && log.snapshotIndex < |prefix|
    requires |prefix| <= |full| && full[|prefix| - 1].term == PlainTerm(prefix, |prefix|) ==> full[..|prefix|] == prefix
    ensures Represents(log.Compact(|prefix|, PlainTerm(prefix, |prefix|)), if prefix <= full then full else prefix)
  {
    var k := |prefix|;
    if k <= |full| && full[k - 1].term == PlainTerm(prefix, k) {
      assert full[log.snapshotIndex..][k - log.snapshotIndex..] == full[k..];
    }
  }

  // ---- the splice ----

  /** Where two logs hold the same term they agree on the whole prefix. */
  ghost predicate Matching(a: seq<LogEntry>, b: seq<LogEntry>) {
    forall k :: 0 <= k < |a| && k < |b| && a[k].term == b[k].term ==> Agree(a, b, k + 1)
  }

  /** One spliced entry, at an index past the snapshot up to which the logs agree. */
  lemma SpliceOneRefines(log: Log, full: seq<LogEntry>, leader: seq<LogEntry>, index: LogIndex)
    requires Represents(log, full) && log.snapshotIndex < index <= |leader|
    requires Matching(full, leader) && Agree(full, leader, index - 1)
    ensures Represents(SpliceOne(log, index, leader[index - 1]), Adopted(full, leader, index))
    ensures SpliceOne(log, index, leader[index - 1]).snapshotIndex == log.snapshotIndex
  {
    var e := leader[index - 1];
    AccessorsAgree(log, full, index);
    if |full| < index {
      AppendRefines(log, full, e);
      assert full + [e] == leader[..index];
    } else if full[index - 1].term != e.term {
      TruncateRefines(log, full, index - 1);
      AppendRefines(log.TruncateAfter(index - 1), full[..index - 1], e);
      assert full[..index - 1] + [e] == leader[..index];
    }
  }

  lemma AdoptedTwice(full: seq<LogEntry>, leader: seq<LogEntry>, k: nat, m: nat)
    requires k <= m <= |leader|
    ensures Adopted(Adopted(full, leader, k), leader, m) == Adopted(full, leader, m)
  {
    if !Agree(full, leader, k) && Agree(leader[..k], leader, m) {
      assert k == m;
    }
  }

  lemma AdoptedMatching(full: seq<LogEntry>, leader: seq<LogEntry>, k: nat)
    requires k <= |leader| && Matching(full, leader)
    ensures Matching(Adopted(full, leader, k), leader) && Agree(Adopted(full, leader, k), leader, k)
  {
  }

  lemma SpliceUnfolds(log: Log, leader: seq<LogEntry>, prev: LogIndex, m: nat)
    requires prev < m <= |leader|
    ensures Splice(log, prev, leader[prev..m]) == Splice(SpliceOne(log, prev + 1, leader[prev]), prev + 1, leader[prev + 1..m])
  {
    assert leader[prev..m][1..] == leader[prev + 1..m];
  }

  /** Splicing entries of the leader's log adopts that log up to the last of them. */
  lemma {:induction false} SpliceRefines(log: Log, full: seq<LogEntry>, leader: seq<LogEntry>, prev: LogIndex, m: nat)
    requires Represents(log, full) && prev <= m <= |leader|
    requires Matching(full, leader) && Agree(full, leader, Max(prev, log.snapshotIndex))
    ensures Represents(Splice(log, prev, leader[prev..m]), Adopted(full, leader, m))
    ensures Splice(log, prev, leader[prev..m]).snapshotIndex == log.snapshotIndex
    decreases m - prev
  {
    if prev < m {
      var full1 := SpliceStep(log, full, leader, prev, m);
      SpliceUnfolds(log, leader, prev, m);
      SpliceRefines(SpliceOne(log, prev + 1, leader[prev]), full1, leader, prev + 1, m);
    }
  }

  lemma SpliceStep(log: Log, full: seq<LogEntry>, leader: seq<LogEntry>, prev: LogIndex, m: nat)
      returns (full1: seq<LogEntry>)
    requires Represents(log, full) && prev < m <= |leader|
    requires Matching(full, leader) && Agree(full, leader, Max(prev, log.snapshotIndex))
    ensures Represents(SpliceOne(log, prev + 1, leader[prev]), full1)
    ensures SpliceOne(log, prev + 1, leader[prev]).snapshotIndex == log.snapshotIndex
    ensures Matching(full1, leader) && Agree(full1, leader, Max(prev + 1, log.snapshotIndex))
    ensures Adopted(full1, leader, m) == Adopted(full, leader, m)
  {
    if prev < log.snapshotIndex {
      full1 := full;
    } else {
      SpliceOneRefines(log, full, leader, prev + 1);
      full1 := Adopted(full, leader, prev + 1);
      AdoptedMatching(full, leader, prev + 1);
      AdoptedTwice(full, leader, prev + 1, m);
    }
  }
}
