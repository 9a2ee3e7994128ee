/** What the invariant of the history says about logs, votes and commitment. */
module HistoryFacts {
  import opened Types
  import opened Quorums
  import opened History
  import opened HistorySteps
  import opened LogRefinement

  /** Log matching: the same term at the same index means the same prefix. */
  lemma LogMatching(h: Hist, a: seq<LogEntry>, b: seq<LogEntry>, hi: Term, hi': Term)
    requires LogOk(h, a, hi) && LogOk(h, b, hi')
    ensures Matching(a, b)
  {
    forall k | 0 <= k < |a| && k < |b| && a[k].term == b[k].term
      ensures Agree(a, b, k + 1)
    {
      assert Agree(a, h.reigns[a[k].term].log, k + 1);
      assert Agree(b, h.reigns[a[k].term].log, k + 1);
    }
  }

  /** Terms never fall along a log. */
  lemma TermsRise(s: set<NodeId>, h: Hist, log: seq<LogEntry>, hi: Term, j: nat, k: nat)
    requires ReignsOk(s, h) && LogOk(h, log, hi) && j <= k < |log|
    ensures log[j].term <= log[k].term
  {
    var u := log[k].term;
    assert Agree(log, h.reigns[u].log, k + 1);
    assert ReignOk(s, h, u);
  }

  lemma ChosenIsPinned(s: set<NodeId>, h: Hist, t: Term, n: nat)
    requires Chosen(s, h, t, n)
    ensures Pinned(s, h, t, n)
  {
    var q :| IsQuorum(s, q) && ChosenBy(h, t, n, q);
    assert ChoosableBy(h, t, n, q);
  }

  /** What is committed by a term is in the log of every leader from that term on. */
  lemma CommittedHeld(s: set<NodeId>, h: Hist, log: seq<LogEntry>, k: nat, t: Term)
    requires LeadersComplete(s, h) && Committed(s, h, log, k, t) && t in h.reigns
    ensures Agree(log, h.reigns[t].log, k)
  {
    if k != 0 {
      var ct: Term, n: nat :| ct <= t && CommittedIn(s, h, log, k, ct, n);
      ChosenIsPinned(s, h, ct, n);
      assert Agree(h.reigns[ct].log, h.reigns[t].log, n);
    }
  }

  /** Any two committed prefixes agree. */
  lemma CommittedAgree(s: set<NodeId>, h: Hist, a: seq<LogEntry>, j: nat, t: Term, b: seq<LogEntry>, k: nat, u: Term)
    requires LeadersComplete(s, h) && Committed(s, h, a, j, t) && Committed(s, h, b, k, u) && j <= k
    ensures Agree(a, b, j)
  {
    if j != 0 {
      var ct: Term, n: nat :| ct <= t && CommittedIn(s, h, a, j, ct, n);
      var cu: Term, m: nat :| cu <= u && CommittedIn(s, h, b, k, cu, m);
      ChosenIsPinned(s, h, ct, n);
      ChosenIsPinned(s, h, cu, m);
      if cu < ct {
        assert Agree(h.reigns[cu].log, h.reigns[ct].log, m);
      } else {
        assert Agree(h.reigns[ct].log, h.reigns[cu].log, n);
      }
    }
  }

  lemma CommittedPrefix(s: set<NodeId>, h: Hist, log: seq<LogEntry>, k: nat, t: Term, log': seq<LogEntry>, j: nat)
    requires Committed(s, h, log, k, t) && j <= k && Agree(log, log', j)
    ensures Committed(s, h, log', j, t)
  {
    if j != 0 {
      var ct: Term, n: nat :| ct <= t && CommittedIn(s, h, log, k, ct, n);
      assert CommittedIn(s, h, log', j, ct, n);
    }
  }

  /** Adopting a leader's log never touches the committed prefix. */
  lemma AdoptedKeepsCommitted(s: set<NodeId>, h: Hist, v: NodeId, k: nat, m: nat)
    requires LeadersComplete(s, h) && v in h.nodes && h.nodes[v].cur in h.reigns
    requires m <= |h.reigns[h.nodes[v].cur].log|
    requires Committed(s, h, h.nodes[v].full, k, h.nodes[v].cur)
    ensures Agree(h.nodes[v].full, Adopted(h.nodes[v].full, h.reigns[h.nodes[v].cur].log, m), k)
  {
    var full, leader := h.nodes[v].full, h.reigns[h.nodes[v].cur].log;
    CommittedHeld(s, h, full, k, h.nodes[v].cur);
    AdoptedKeeps(full, k, full, leader, m);
  }

  /** The up-to-date check of section 5.4.1 of the Raft paper. */
  predicate UpToDate(lastIndex: LogIndex, lastTerm: Term, log: seq<LogEntry>) {
    || lastTerm > PlainTerm(log, |log|)
    || (lastTerm == PlainTerm(log, |log|) && lastIndex >= |log|)
  }

  /** A vote that passes the up-to-date check respects what the voter acknowledged. */
  lemma VoteRespectsAcks(s: set<NodeId>, h: Hist, v: NodeId, log: seq<LogEntry>)
    requires ReignsOk(s, h) && MembersOk(s, h) && AcksKept(s, h) && LeadersComplete(s, h)
    requires v in h.nodes && h.nodes[v].cur > 0 && LogOk(h, log, h.nodes[v].cur - 1)
    requires UpToDate(|log|, PlainTerm(log, |log|), h.nodes[v].full)
    ensures VoteSafe(s, h, v, h.nodes[v].cur, log)
  {
    forall t: Term, n: nat | Pinned(s, h, t, n) && t < h.nodes[v].cur && n <= Ack(h, v, t)
      ensures Agree(h.reigns[t].log, log, n)
    {
      assert Agree(h.reigns[t].log, h.nodes[v].full, n);
      VoterHolds(s, h, v, log, t, n);
    }
  }

  lemma VoterHolds(s: set<NodeId>, h: Hist, v: NodeId, log: seq<LogEntry>, t: Term, n: nat)
    requires ReignsOk(s, h) && LeadersComplete(s, h) && v in h.nodes
    requires LogOk(h, h.nodes[v].full, h.nodes[v].cur) && LogOk(h, log, h.nodes[v].cur)
    requires UpToDate(|log|, PlainTerm(log, |log|), h.nodes[v].full)
    requires Pinned(s, h, t, n) && Agree(h.reigns[t].log, h.nodes[v].full, n)
    ensures Agree(h.reigns[t].log, log, n)
  {
    var full := h.nodes[v].full;
    TermsRise(s, h, full, h.nodes[v].cur, n - 1, |full| - 1);
    var u := PlainTerm(log, |log|);
    assert t <= u;
    assert Agree(log, h.reigns[u].log, |log|);
    if t < u {
      // `log` cannot stop short of entry n: its last entry would be of term t or earlier
      assert Agree(h.reigns[t].log, h.reigns[u].log, n);
      assert ReignOk(s, h, t);
    }
  }

  /** At most one candidate collects a quorum in a term. */
  lemma OneWinner(s: set<NodeId>, h: Hist, c: NodeId, t: Term, q: set<NodeId>)
    requires ReignsOk(s, h) && t in h.reigns && IsQuorum(s, q)
    requires forall v :: v in q ==> (v, t) in h.voted && h.voted[(v, t)] == c
    ensures h.reigns[t].leader == c
  {
    assert ReignOk(s, h, t);
    var v := QuorumsMeet(s, q, h.reigns[t].electors);
  }
}
