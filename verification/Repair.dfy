/**
  Log repair: the exchange of AppendEntries and replies between a leader and one
  follower.  Every rejection strictly lowers `next_index`, so after finitely many
  rounds the follower accepts or must be sent a snapshot.
*/
module Repair {
  import opened Types
  import opened Rpc
  import opened Consensus
  import opened Cluster
  import opened History
  import opened LogRefinement
  import opened Invariant
  import opened ReplicationSteps
  import opened Runs
  import opened LogTheorems
  import opened Justification

  // ---- the hint on the wire ----

  /** A reply survives the wire unchanged exactly when its two hints come together. */
  lemma WireIdentity(r: AppendEntriesReply)
    ensures OverWire(r) == r <==> (r.conflictIndex.Some? <==> r.conflictTerm.Some?)
  {
  }

  /** Where it does not, the leader computes the same next index, because no entry has term 0. */
  lemma WireHarmless(n: Node, peer: NodeId, r: AppendEntriesReply)
    requires forall k :: 0 <= k < |n.log.entries| ==> n.log.entries[k].term != 0
    ensures n.NextIndexAfterConflict(peer, OverWire(r)) == n.NextIndexAfterConflict(peer, r)
  {
    LastPositionIs(n.log.entries, 0);
  }

  // ---- one rejection ----

  /** The last entry the leader holds of the follower's conflicting term lies below the conflict. */
  lemma ConflictTermBelow(s: set<NodeId>, h: Hist, log: Log, full: seq<LogEntry>, hi: Term, full': seq<LogEntry>,
      hi': Term, prev: LogIndex, term: Term)
    requires ReignsOk(s, h) && LogOk(h, full, hi) && LogOk(h, full', hi') && Represents(log, full)
    requires 0 < prev <= |full| && prev <= |full'|
    requires full'[prev - 1].term == term != full[prev - 1].term
    requires log.LastIndexOfTerm(term).Some?
    ensures log.LastIndexOfTerm(term).value < prev
  {
    var last := log.LastIndexOfTerm(term).value;
    LastPositionIs(log.entries, term);
    assert full[last - 1].term == term;
    assert Agree(full, h.reigns[term].log, last) && Agree(full', h.reigns[term].log, prev);
  }

  lemma BackOff(s: set<NodeId>, h: Hist, l: Node, full: seq<LogEntry>, p: NodeId, f: Node, full': seq<LogEntry>,
      a: AppendEntriesArgs)
    requires ReignsOk(s, h) && LogOk(h, full, l.currentTerm) && LogOk(h, full', l.currentTerm)
    requires Represents(l.log, full) && Represents(f.log, full')
    requires a.prevLogIndex <= |full| && a.prevLogTerm == PlainTerm(full, a.prevLogIndex) && !f.PrevMatches(a)
    ensures l.NextIndexAfterConflict(p, f.AppendConflict(a.prevLogIndex)) <= a.prevLogIndex
    ensures 0 < a.prevLogIndex
  {
    var prev := a.prevLogIndex;
    AccessorsAgree(f.log, full', prev);
    if prev <= |full'| {
      var term := full'[prev - 1].term;
      FirstPositionIs(f.log.entries, term);
      assert f.log.entries[prev - f.log.snapshotIndex - 1] == full'[prev - 1];
      if l.log.LastIndexOfTerm(term).Some? {
        ConflictTermBelow(s, h, l.log, full, l.currentTerm, full', l.currentTerm, prev, term);
      }
    }
  }

  // ---- one round trip ----

  /** The leader sends to `p`, the follower answers at `now` with a fresh `timeout`, the leader hears the answer. */
  function RoundTrip(l: Node, p: NodeId, f: Node, now: nat, timeout: nat): (Node, Node, bool) {
    var a := l.AppendArgsFor(p);
    var (f', reply) := f.HandleAppendEntries(a, now, timeout);
    (l.HandleAppendReply(p, OverWire(reply), a.prevLogIndex + |a.entries|), f', reply.success)
  }

  /** Leader `i` and a node `p` of one cluster that is no further ahead in terms. */
  ghost predicate Paired(cfg: Config, h: Hist, i: NodeId, l: Node, p: NodeId, f: Node) {
    && Valid(cfg.servers, h) && NodeOk(cfg, h, i, l) && NodeOk(cfg, h, p, f)
    && l.role == Leader && p in l.peers && f.currentTerm <= l.currentTerm
  }

  /** A rejection changes the leader's next index for `p` and nothing in the follower's log. */
  lemma RejectedRound(l: Node, p: NodeId, f: Node, now: nat, timeout: nat)
    requires l.role == Leader && f.currentTerm <= l.currentTerm && !RoundTrip(l, p, f, now, timeout).2
    requires forall k :: 0 <= k < |l.log.entries| ==> l.log.entries[k].term != 0
    ensures var a, (l', f', _) := l.AppendArgsFor(p), RoundTrip(l, p, f, now, timeout);
            && !f.PrevMatches(a) && f'.log == f.log && f'.currentTerm == l.currentTerm
            && l' == l.(nextIndex := l.nextIndex[p := Max(l.NextIndexAfterConflict(p, f.AppendConflict(a.prevLogIndex)), 1)])
  {
    WireHarmless(l, p, f.YieldTo(l.currentTerm, l.id, now, timeout).AppendConflict(l.AppendArgsFor(p).prevLogIndex));
  }

  /** A rejection strictly lowers the next index, and never below 1. */
  lemma RoundLowers(cfg: Config, h: Hist, i: NodeId, l: Node, p: NodeId, f: Node, full': seq<LogEntry>)
    requires Valid(cfg.servers, h) && NodeOk(cfg, h, i, l) && l.role == Leader && p in l.peers && !l.NeedsSnapshot(p)
    requires LogOk(h, full', l.currentTerm) && Represents(f.log, full')
    requires !f.PrevMatches(l.AppendArgsFor(p))
    ensures p in l.nextIndex && l.NextIndexAfterConflict(p, f.AppendConflict(l.AppendArgsFor(p).prevLogIndex)) < l.nextIndex[p]
    ensures 1 < l.nextIndex[p] <= l.log.LastIndex() + 1
  {
    var full := h.nodes[i].full;
    SendAppendOk(cfg, h, i, l, p);
    assert PeerViewOk(h, l, |full|, p);
    BackOff(cfg.servers, h, l, full, p, f, full', l.AppendArgsFor(p));
  }

  lemma AcceptedRound(l: Node, p: NodeId, f: Node, now: nat, timeout: nat)
    requires l.role == Leader && f.currentTerm <= l.currentTerm && RoundTrip(l, p, f, now, timeout).2
    ensures var a, (l', f', _) := l.AppendArgsFor(p), RoundTrip(l, p, f, now, timeout);
            && f.PrevMatches(a) && f'.log == Splice(f.log, a.prevLogIndex, a.entries) && l'.log == l.log
            && p in l'.matchIndex && l'.matchIndex[p] == Max(l.MatchFor(p), a.prevLogIndex + |a.entries|)
            && p in l'.nextIndex && l'.nextIndex[p] == l'.matchIndex[p] + 1
  {
  }

  /** The follower, now `f'`, holds all of the leader's log, and the leader knows. */
  ghost predicate Repaired(log: Log, p: NodeId, l': Node, f': Node) {
    && l'.log == log
    && log.LastIndex() <= f'.log.LastIndex() && SameBelow(f'.log, log, log.LastIndex())
    && p in l'.matchIndex && l'.matchIndex[p] == log.LastIndex()
    && p in l'.nextIndex && l'.nextIndex[p] == log.LastIndex() + 1
  }

  /** Acceptance moves both of the leader's cursors to the end of its log. */
  lemma RoundCounts(cfg: Config, h: Hist, i: NodeId, l: Node, p: NodeId, f: Node, now: nat, timeout: nat)
    requires NodeOk(cfg, h, i, l) && l.role == Leader && p in l.peers && !l.NeedsSnapshot(p) && f.currentTerm <= l.currentTerm
    requires RoundTrip(l, p, f, now, timeout).2
    ensures var l' := RoundTrip(l, p, f, now, timeout).0;
            && l'.log == l.log && p in l'.matchIndex && l'.matchIndex[p] == l.log.LastIndex()
            && p in l'.nextIndex && l'.nextIndex[p] == l.log.LastIndex() + 1
  {
    SendAppendOk(cfg, h, i, l, p);
    assert PeerViewOk(h, l, |h.nodes[i].full|, p);
    AcceptedRound(l, p, f, now, timeout);
  }

  /** Acceptance makes the follower agree with the leader through the leader's last entry. */
  lemma RoundAgrees(cfg: Config, h: Hist, i: NodeId, l: Node, p: NodeId, f0: Node, f: Node, now: nat, timeout: nat)
    requires Paired(cfg, h, i, l, p, f0) && !l.NeedsSnapshot(p) && f.log == f0.log && f.currentTerm <= l.currentTerm
    requires RoundTrip(l, p, f, now, timeout).2
    ensures Repaired(l.log, p, RoundTrip(l, p, f, now, timeout).0, RoundTrip(l, p, f, now, timeout).1)
  {
    RoundCounts(cfg, h, i, l, p, f, now, timeout);
    AcceptedRound(l, p, f, now, timeout);
    RoundSplices(cfg, h, i, l, p, f0);
  }

  lemma RoundSplices(cfg: Config, h: Hist, i: NodeId, l: Node, p: NodeId, f: Node)
    requires Paired(cfg, h, i, l, p, f) && !l.NeedsSnapshot(p) && f.PrevMatches(l.AppendArgsFor(p))
    ensures var a := l.AppendArgsFor(p);
            var log := Splice(f.log, a.prevLogIndex, a.entries);
            l.log.LastIndex() <= log.LastIndex() && SameBelow(log, l.log, l.log.LastIndex())
  {
    var a, full := l.AppendArgsFor(p), h.nodes[i].full;
    SendAppendOk(cfg, h, i, l, p);
    AcceptedSame(cfg, h, p, f, a, |full|, Splice(f.log, a.prevLogIndex, a.entries), l.log, full);
  }

  /** After a rejection the pair is as before, with a lower next index. */
  lemma RoundBacksOff(cfg: Config, h: Hist, i: NodeId, l: Node, p: NodeId, f0: Node, f: Node, now: nat, timeout: nat)
    requires Paired(cfg, h, i, l, p, f0) && !l.NeedsSnapshot(p) && f.log == f0.log && f.currentTerm <= l.currentTerm
    requires !RoundTrip(l, p, f, now, timeout).2
    ensures var (l', f', _) := RoundTrip(l, p, f, now, timeout);
            && Paired(cfg, h, i, l', p, f0) && f'.log == f.log && f'.currentTerm == l'.currentTerm && l'.log == l.log
            && p in l.nextIndex && p in l'.nextIndex && 1 <= l'.nextIndex[p] < l.nextIndex[p]
  {
    TermsShow(h, l.log, h.nodes[i].full, l.currentTerm);
    RejectedRound(l, p, f, now, timeout);
    LogOkStable(h, h, h.nodes[p].full, f0.currentTerm, l.currentTerm);
    RoundLowers(cfg, h, i, l, p, f, h.nodes[p].full);
    BackedOff(cfg, h, i, l, p, Max(l.NextIndexAfterConflict(p, f.AppendConflict(l.AppendArgsFor(p).prevLogIndex)), 1));
  }

  lemma BackedOff(cfg: Config, h: Hist, i: NodeId, l: Node, p: NodeId, next: LogIndex)
    requires NodeOk(cfg, h, i, l) && l.role == Leader && 1 <= next <= l.log.LastIndex() + 1
    ensures NodeOk(cfg, h, i, l.(nextIndex := l.nextIndex[p := next]))
  {
    var l', last := l.(nextIndex := l.nextIndex[p := next]), |h.nodes[i].full|;
    forall q | q in l'.peers
      ensures PeerViewOk(h, l', last, q)
    {
      assert PeerViewOk(h, l, last, q);
    }
  }

  // ---- the whole exchange ----

  /** At most `rounds` round trips with node `p`, ending early on acceptance or when `p` needs a snapshot. */
  function Exchange(trip: (Node, Node, nat) -> (Node, Node, bool), l: Node, p: NodeId, f: Node,
      rounds: nat): (Node, Node, bool)
    decreases rounds
  {
    if rounds == 0 || l.NeedsSnapshot(p) then (l, f, false)
    else
      var (l', f', ok) := trip(l, f, rounds);
      if ok then (l', f', true) else Exchange(trip, l', p, f', rounds - 1)
  }

  ghost predicate Ended(log: Log, p: NodeId, result: (Node, Node, bool)) {
    if result.2 then Repaired(log, p, result.0, result.1) else result.0.NeedsSnapshot(p)
  }

  /** From every pair in `pairs`, a round repairs the follower or leads to a pair with a lower next index. */
  ghost predicate Progresses(trip: (Node, Node, nat) -> (Node, Node, bool), p: NodeId, log: Log,
      pairs: (Node, Node) -> bool) {
    forall l, f, k {:trigger trip(l, f, k)} :: pairs(l, f) && !l.NeedsSnapshot(p) ==>
      var (l', f', ok) := trip(l, f, k);
      if ok then Repaired(log, p, l', f') else pairs(l', f') && l'.NextFor(p, 0) < l.NextFor(p, 0)
  }

  lemma {:induction false} ExchangeEnds(trip: (Node, Node, nat) -> (Node, Node, bool), l: Node, p: NodeId,
      f: Node, log: Log, pairs: (Node, Node) -> bool, rounds: nat)
    requires Progresses(trip, p, log, pairs) && pairs(l, f) && l.NextFor(p, 0) < rounds
    ensures Ended(log, p, Exchange(trip, l, p, f, rounds))
    decreases rounds
  {
    var (l', f', ok) := trip(l, f, rounds);
    if !l.NeedsSnapshot(p) && !ok {
      ExchangeEnds(trip, l', p, f', log, pairs, rounds - 1);
    }
  }

  /** The pairs an exchange between `l` and `f` goes through before it ends. */
  ghost predicate Exchanging(cfg: Config, h: Hist, i: NodeId, log: Log, p: NodeId, f0: Node, l: Node, f: Node) {
    Paired(cfg, h, i, l, p, f0) && l.log == log && f.log == f0.log && f.currentTerm <= l.currentTerm
  }

  lemma Round(cfg: Config, h: Hist, i: NodeId, log: Log, l: Node, p: NodeId, f0: Node, f: Node, now: nat, timeout: nat)
    requires Exchanging(cfg, h, i, log, p, f0, l, f) && !l.NeedsSnapshot(p)
    ensures var (l', f', ok) := RoundTrip(l, p, f, now, timeout);
            if ok then Repaired(log, p, l', f')
            else Exchanging(cfg, h, i, log, p, f0, l', f') && l'.NextFor(p, 0) < l.NextFor(p, 0)
  {
    if RoundTrip(l, p, f, now, timeout).2 {
      RoundAgrees(cfg, h, i, l, p, f0, f, now, timeout);
    } else {
      RoundBacksOff(cfg, h, i, l, p, f0, f, now, timeout);
    }
  }

  /** Round `k` of the exchange with `p` is the round trip at time `clock(k).0` with timeout `clock(k).1`. */
  function Trip(p: NodeId, clock: nat -> (nat, nat)): (Node, Node, nat) -> (Node, Node, bool) {
    (l: Node, f: Node, k: nat) => RoundTrip(l, p, f, clock(k).0, clock(k).1)
  }

  ghost function Pairs(cfg: Config, h: Hist, i: NodeId, log: Log, p: NodeId, f0: Node): (Node, Node) -> bool {
    (l: Node, f: Node) => Exchanging(cfg, h, i, log, p, f0, l, f)
  }

  lemma TripProgresses(cfg: Config, h: Hist, i: NodeId, log: Log, p: NodeId, f0: Node, clock: nat -> (nat, nat))
    ensures Progresses(Trip(p, clock), p, log, Pairs(cfg, h, i, log, p, f0))
  {
    var trip, pairs := Trip(p, clock), Pairs(cfg, h, i, log, p, f0);
    forall l, f, k | pairs(l, f) && !l.NeedsSnapshot(p)
      ensures var (l', f', ok) := trip(l, f, k);
              if ok then Repaired(log, p, l', f') else pairs(l', f') && l'.NextFor(p, 0) < l.NextFor(p, 0)
    {
      Round(cfg, h, i, log, l, p, f0, f, clock(k).0, clock(k).1);
    }
  }

  /**
    Log repair terminates: from any reachable state, after finitely many round trips,
    at most one more than `next_index`, the follower holds the leader's log through its
    last entry, or needs a snapshot.
  */
  lemma RepairTerminates(cfg: Config, r: Run, k: nat, i: NodeId, l: Node, p: NodeId, f: Node, clock: nat -> (nat, nat))
    requires IsRun(cfg, r) && IsNode(r, k, i, l) && IsNode(r, k, p, f)
    requires l.role == Leader && p in l.peers && f.currentTerm <= l.currentTerm
    ensures Ended(l.log, p, Exchange(Trip(p, clock), l, p, f, l.NextFor(p, 0) + 1))
  {
    var h := Reach(cfg, r, k);
    NodeReached(cfg, r.states[k], h, i);
    NodeReached(cfg, r.states[k], h, p);
    PairRepaired(cfg, h, i, l, p, f, clock);
  }

  lemma PairRepaired(cfg: Config, h: Hist, i: NodeId, l: Node, p: NodeId, f: Node, clock: nat -> (nat, nat))
    requires Paired(cfg, h, i, l, p, f)
    ensures Ended(l.log, p, Exchange(Trip(p, clock), l, p, f, l.NextFor(p, 0) + 1))
  {
    TripProgresses(cfg, h, i, l.log, p, f, clock);
    ExchangeEnds(Trip(p, clock), l, p, f, l.log, Pairs(cfg, h, i, l.log, p, f), l.NextFor(p, 0) + 1);
  }
}
