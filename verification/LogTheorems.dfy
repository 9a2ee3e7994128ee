/**
  Log matching, leader completeness, the cursors, and what the driver sends, as
  statements about any two states of a run or any state and the step after it.
*/
module LogTheorems {
  import opened Types
  import opened Rpc
  import opened Consensus
  import opened Cluster
  import opened History
  import opened HistoryFacts
  import opened LogRefinement
  import opened Invariant
  import opened Safety
  import opened Runs
  import opened Theorems

  /** The consensus module of node `i` in state `k` of the run. */
  ghost predicate IsNode(r: Run, k: nat, i: NodeId, n: Node) {
    k < |r.states| && i in r.states[k].hosts && r.states[k].hosts[i].node == n
  }

  lemma NodeReached(cfg: Config, c: Cluster, h: Hist, i: NodeId)
    requires Sound(cfg, c, h) && i in c.hosts
    ensures Valid(cfg.servers, h) && NodeOk(cfg, h, i, c.hosts[i].node)
  {
  }

  lemma ReachNode(cfg: Config, r: Run, k: nat, i: NodeId, n: Node) returns (h: Hist)
    requires IsRun(cfg, r) && IsNode(r, k, i, n)
    ensures NodeOk(cfg, h, i, n) && LogOk(h, h.nodes[i].full, h.nodes[i].cur)
  {
    h := Reach(cfg, r, k);
    NodeReached(cfg, r.states[k], h, i);
  }

  lemma ReachNodes(cfg: Config, r: Run, j: nat, a: NodeId, na: Node, k: nat, b: NodeId, nb: Node)
      returns (hj: Hist, hk: Hist)
    requires IsRun(cfg, r) && j <= k && IsNode(r, j, a, na) && IsNode(r, k, b, nb)
    ensures Valid(cfg.servers, hj) && Valid(cfg.servers, hk) && Later(hj, hk)
    ensures NodeOk(cfg, hj, a, na) && NodeOk(cfg, hk, b, nb)
  {
    hj, hk := ReachBoth(cfg, r, j, k);
    NodeReached(cfg, r.states[j], hj, a);
    NodeReached(cfg, r.states[k], hk, b);
  }

  // ---- log matching ----

  /** The logs agree wherever both still hold an entry at or below `m`. */
  ghost predicate SameBelow(a: Log, b: Log, m: LogIndex) {
    && (forall k: LogIndex :: k <= m && a.Get(k).Some? && b.Get(k).Some? ==> a.Get(k) == b.Get(k))
    && (forall k: LogIndex :: k <= m && a.TermAt(k).Some? && b.TermAt(k).Some? ==> a.TermAt(k) == b.TermAt(k))
  }

  lemma PlainAgreementShows(a: Log, fa: seq<LogEntry>, b: Log, fb: seq<LogEntry>, m: LogIndex)
    requires Represents(a, fa) && Represents(b, fb) && Agree(fa, fb, m)
    ensures SameBelow(a, b, m)
  {
  }

  /** Log matching, also across time, compaction and restarts. */
  lemma SameTermSamePrefix(cfg: Config, r: Run, j: nat, a: NodeId, na: Node, k: nat, b: NodeId, nb: Node, m: LogIndex)
    requires IsRun(cfg, r) && j <= k && IsNode(r, j, a, na) && IsNode(r, k, b, nb)
    requires na.log.TermAt(m).Some? && na.log.TermAt(m) == nb.log.TermAt(m)
    ensures SameBelow(na.log, nb.log, m)
  {
    var hj, hk := ReachNodes(cfg, r, j, a, na, k, b, nb);
    FullLogsMatch(cfg, hj, hk, a, na, b, nb, m);
    PlainAgreementShows(na.log, hj.nodes[a].full, nb.log, hk.nodes[b].full, m);
  }

  lemma FullLogsMatch(cfg: Config, hj: Hist, hk: Hist, a: NodeId, na: Node, b: NodeId, nb: Node, m: LogIndex)
    requires MembersOk(cfg.servers, hj) && MembersOk(cfg.servers, hk) && Later(hj, hk)
    requires a in hj.nodes && b in hk.nodes && DurableOk(hj, a, na) && DurableOk(hk, b, nb)
    requires na.log.TermAt(m).Some? && na.log.TermAt(m) == nb.log.TermAt(m)
    ensures Agree(hj.nodes[a].full, hk.nodes[b].full, m)
  {
    var fa, fb := hj.nodes[a].full, hk.nodes[b].full;
    LogOkStable(hj, hk, fa, hj.nodes[a].cur, hj.nodes[a].cur);
    LogMatching(hk, fa, fb, hj.nodes[a].cur, hk.nodes[b].cur);
    AccessorsAgree(na.log, fa, m);
    AccessorsAgree(nb.log, fb, m);
    if m > 0 {
      assert fa[m - 1].term == fb[m - 1].term;
    }
  }

  // ---- leader completeness ----

  /** The log of `n` holds the entries of `log` from its boundary through `m`. */
  ghost predicate HoldsThrough(n: Node, log: seq<LogEntry>, m: LogIndex) {
    m <= |log| && m <= n.log.LastIndex() && forall k :: n.log.snapshotIndex < k <= m ==> n.log.Get(k) == Some(log[k - 1])
  }

  /**
    Leader completeness: in the one log behind the run, what any node ever holds as committed
    is held by every leader of a later term, in states before as well as after.  A leader's
    compacted prefix is a snapshot of that same log.
  */
  lemma LeaderCompleteness(cfg: Config, r: Run) returns (log: seq<LogEntry>)
    requires IsRun(cfg, r)
    ensures Covers(cfg, r, |r.states| - 1, log)
    ensures forall j: nat, a: NodeId, na: Node, k: nat, b: NodeId, nb: Node ::
              IsNode(r, j, a, na) && LeadsLater(r, k, b, nb, na.currentTerm) ==> HoldsThrough(nb, log, na.commitIndex)
  {
    var last := |r.states| - 1;
    var hs := HasChronicle(cfg, r, last);
    log := OneLogUpTo(cfg, r, hs, last);
    forall j: nat, a: NodeId, na: Node, k: nat, b: NodeId, nb: Node
      | IsNode(r, j, a, na) && LeadsLater(r, k, b, nb, na.currentTerm)
      ensures HoldsThrough(nb, log, na.commitIndex)
    {
      OnOneLog(cfg, r, log, j, a);
      LeaderHolds(cfg, r, hs, log, j, a, na, k, b, nb);
    }
  }

  /** Node `b` is leader of a term after `t` in state `k`. */
  ghost predicate LeadsLater(r: Run, k: nat, b: NodeId, n: Node, t: Term) {
    IsNode(r, k, b, n) && n.role == Leader && t < n.currentTerm
  }

  lemma LeaderHolds(cfg: Config, r: Run, hs: seq<Hist>, log: seq<LogEntry>, j: nat, a: NodeId, na: Node,
      k: nat, b: NodeId, nb: Node)
    requires IsRun(cfg, r) && Chronicle(cfg, r, hs) && |hs| == |r.states| && Agreed(cfg, hs[|hs| - 1], log)
    requires IsNode(r, j, a, na) && LeadsLater(r, k, b, nb, na.currentTerm) && na.commitIndex <= |log|
    ensures HoldsThrough(nb, log, na.commitIndex)
  {
    ChronicleNode(cfg, r, hs, j, a, na);
    ChronicleNode(cfg, r, hs, k, b, nb);
    HeldByLeader(cfg, r, hs, j, a, na, k, b, nb);
    ChronicleLater(cfg, r, hs, j, |hs| - 1);
    ChronicleSound(cfg, r, hs, |hs| - 1);
    CommittedOnLog(cfg, hs[j], hs[|hs| - 1], a, na, log);
    PlainHolds(nb, hs[k].nodes[b].full, hs[j].nodes[a].full, log, na.commitIndex);
  }

  lemma ChronicleNode(cfg: Config, r: Run, hs: seq<Hist>, k: nat, i: NodeId, n: Node)
    requires Chronicle(cfg, r, hs) && k < |hs| && IsNode(r, k, i, n)
    ensures Valid(cfg.servers, hs[k]) && NodeOk(cfg, hs[k], i, n)
  {
    ChronicleSound(cfg, r, hs, k);
    NodeReached(cfg, r.states[k], hs[k], i);
  }

  lemma CommittedOnLog(cfg: Config, h: Hist, h': Hist, a: NodeId, n: Node, log: seq<LogEntry>)
    requires Later(h, h') && LeadersComplete(cfg.servers, h') && a in h.nodes && CursorsOk(cfg, h, a, n)
    requires Agreed(cfg, h', log) && n.commitIndex <= |log|
    ensures Agree(h.nodes[a].full, log, n.commitIndex)
  {
    var t: Term :| Committed(cfg.servers, h', log, |log|, t);
    CommittedStable(cfg.servers, h, h', h.nodes[a].full, n.commitIndex, n.currentTerm, n.currentTerm);
    CommittedAgree(cfg.servers, h', h.nodes[a].full, n.commitIndex, n.currentTerm, log, |log|, t);
  }

  lemma PlainHolds(n: Node, full: seq<LogEntry>, other: seq<LogEntry>, log: seq<LogEntry>, m: LogIndex)
    requires Represents(n.log, full) && Agree(other, full, m) && Agree(other, log, m)
    ensures HoldsThrough(n, log, m)
  {
    forall k | n.log.snapshotIndex < k <= m
      ensures n.log.Get(k) == Some(log[k - 1])
    {
      AccessorsAgree(n.log, full, k);
    }
  }

  lemma HeldByLeader(cfg: Config, r: Run, hs: seq<Hist>, j: nat, a: NodeId, na: Node, k: nat, b: NodeId, nb: Node)
    requires Chronicle(cfg, r, hs) && j < |hs| && k < |hs| && Valid(cfg.servers, hs[j]) && Valid(cfg.servers, hs[k])
    requires NodeOk(cfg, hs[j], a, na) && NodeOk(cfg, hs[k], b, nb) && nb.role == Leader && na.currentTerm < nb.currentTerm
    ensures Agree(hs[j].nodes[a].full, hs[k].nodes[b].full, na.commitIndex)
  {
    if j <= k {
      ChronicleLater(cfg, r, hs, j, k);
      HeldByNextLeader(cfg, hs[j], hs[k], a, na, b, nb);
    } else {
      ChronicleLater(cfg, r, hs, k, j);
      HeldByPastLeader(cfg, hs[k], hs[j], a, na, b, nb);
    }
  }

  lemma HeldByNextLeader(cfg: Config, hj: Hist, hk: Hist, a: NodeId, na: Node, b: NodeId, nb: Node)
    requires Later(hj, hk) && LeadersComplete(cfg.servers, hk) && a in hj.nodes && b in hk.nodes
    requires CursorsOk(cfg, hj, a, na) && LeaderOk(hk, b, nb) && na.currentTerm < nb.currentTerm
    ensures Agree(hj.nodes[a].full, hk.nodes[b].full, na.commitIndex)
  {
    CommittedStable(cfg.servers, hj, hk, hj.nodes[a].full, na.commitIndex, na.currentTerm, nb.currentTerm);
    CommittedHeld(cfg.servers, hk, hj.nodes[a].full, na.commitIndex, nb.currentTerm);
  }

  /** The leader of the later term stood first: nothing was committed behind its back. */
  lemma HeldByPastLeader(cfg: Config, hk: Hist, hj: Hist, a: NodeId, na: Node, b: NodeId, nb: Node)
    requires Later(hk, hj) && Valid(cfg.servers, hk) && a in hj.nodes && b in hk.nodes
    requires CursorsOk(cfg, hj, a, na) && LeaderOk(hk, b, nb) && na.currentTerm < nb.currentTerm
    ensures Agree(hj.nodes[a].full, hk.nodes[b].full, na.commitIndex)
  {
    var s, full, c := cfg.servers, hj.nodes[a].full, na.commitIndex;
    if c != 0 {
      var ct: Term, n: nat :| ct <= na.currentTerm && CommittedIn(s, hj, full, c, ct, n);
      ChosenInLeader(s, hk, hj, ct, n, nb.currentTerm);
    }
  }

  // ---- cursors ----

  /** The cursors are ordered, so both lookups the code expects to succeed do succeed. */
  lemma CursorOrder(cfg: Config, r: Run, k: nat, i: NodeId, n: Node)
    requires IsRun(cfg, r) && IsNode(r, k, i, n)
    ensures n.log.snapshotIndex <= n.lastApplied <= n.commitIndex <= n.log.LastIndex()
    ensures forall m :: n.lastApplied < m <= n.commitIndex ==> n.log.Get(m).Some?
    ensures forall m :: n.log.snapshotIndex < m <= n.lastApplied ==> n.log.TermAt(m).Some?
  {
    var h := ReachNode(cfg, r, k, i, n);
    CursorsShow(n, h.nodes[i].full);
  }

  lemma CursorsShow(n: Node, full: seq<LogEntry>)
    requires Represents(n.log, full) && n.log.snapshotIndex <= n.lastApplied <= n.commitIndex <= |full|
    ensures n.commitIndex <= n.log.LastIndex()
    ensures forall m :: n.lastApplied < m <= n.commitIndex ==> n.log.Get(m).Some?
    ensures forall m :: n.log.snapshotIndex < m <= n.lastApplied ==> n.log.TermAt(m).Some?
  {
  }

  /** Durable state is what the codec can carry: no snapshot means an untouched boundary. */
  lemma DurableShape(cfg: Config, r: Run, k: nat, i: NodeId, n: Node)
    requires IsRun(cfg, r) && IsNode(r, k, i, n)
    ensures n.snapshot.None? <==> n.log.snapshotIndex == 0
    ensures n.snapshot.None? ==> n.log.snapshotTerm == 0
    ensures forall m :: 0 <= m < |n.log.entries| ==> 1 <= n.log.entries[m].term <= n.currentTerm
  {
    var h := ReachNode(cfg, r, k, i, n);
    TermsShow(h, n.log, h.nodes[i].full, n.currentTerm);
  }

  lemma TermsShow(h: Hist, log: Log, full: seq<LogEntry>, t: Term)
    requires Represents(log, full) && LogOk(h, full, t)
    ensures forall m :: 0 <= m < |log.entries| ==> 1 <= log.entries[m].term <= t
  {
    forall m | 0 <= m < |log.entries|
      ensures 1 <= log.entries[m].term <= t
    {
      assert log.entries[m] == full[log.snapshotIndex + m];
    }
  }

  /** Within a process lifetime the commit index never falls. */
  lemma CommitNeverFalls(cfg: Config, r: Run, k: nat, i: NodeId, n: Node, n': Node)
    requires IsRun(cfg, r) && k < |r.steps| && IsNode(r, k, i, n) && IsNode(r, k + 1, i, n')
    requires !(r.steps[k].Crash? && r.steps[k].at == i)
    ensures n.commitIndex <= n'.commitIndex
  {
    assert StepAt(cfg, r, k);
    if r.steps[k].at == i {
      CommittedFits(cfg, r, k, i, n, n');
      ActAdvances(cfg, r.states[k].hosts[i], r.steps[k]);
    }
  }

  lemma CommittedFits(cfg: Config, r: Run, k: nat, i: NodeId, n: Node, n': Node)
    requires IsRun(cfg, r) && k < |r.steps| && IsNode(r, k, i, n) && IsNode(r, k + 1, i, n') && r.steps[k].at == i
    ensures n.commitIndex <= n'.log.LastIndex()
  {
    var h := Reach(cfg, r, k);
    assert StepAt(cfg, r, k);
    StepKeepsCommitted(cfg, r.states[k], h, r.steps[k], r.states[k + 1]);
  }

  lemma StepKeepsCommitted(cfg: Config, c: Cluster, h: Hist, step: Step, c': Cluster)
    requires Inv(cfg, c, h) && StepsTo(cfg, c, step, c') && step.at in c'.hosts
    ensures c.hosts[step.at].node.commitIndex <= c'.hosts[step.at].node.log.LastIndex()
  {
    var h' := InvNext(cfg, c, h, step, c');
    LastIndexIs(cfg, c', h', step.at);
  }

  lemma LastIndexIs(cfg: Config, c: Cluster, h: Hist, i: NodeId)
    requires Inv(cfg, c, h) && i in c.hosts
    ensures i in h.nodes && c.hosts[i].node.log.LastIndex() == |h.nodes[i].full|
  {
    assert NodeOk(cfg, h, i, c.hosts[i].node);
  }

  lemma ActAdvances(cfg: Config, x: Host, step: Step)
    requires Guard(cfg, x, step) && !step.Crash?
    requires x.node.commitIndex <= Act(cfg, x, step).0.node.log.LastIndex()
    ensures x.node.commitIndex <= Act(cfg, x, step).0.node.commitIndex
  {
    if step.DeliverAppendReq? {
      EntriesAdvance(x.node, step.packet.append, step.now, step.timeout);
    } else if Delivers(step) {
      DeliveryAdvances(cfg, x, step);
    }
  }

  lemma DeliveryAdvances(cfg: Config, x: Host, step: Step)
    requires Guard(cfg, x, step) && Delivers(step) && !step.DeliverAppendReq?
    ensures x.node.commitIndex <= Act(cfg, x, step).0.node.commitIndex
  {
    if step.DeliverAppendRep? || step.DeliverInstallRep? {
      ReplyAdvances(cfg, x, step);
    }
  }

  lemma ReplyAdvances(cfg: Config, x: Host, step: Step)
    requires Guard(cfg, x, step) && (step.DeliverAppendRep? || step.DeliverInstallRep?)
    ensures x.node.commitIndex <= Act(cfg, x, step).0.node.commitIndex
  {
  }

  lemma EntriesAdvance(n: Node, a: AppendEntriesArgs, now: nat, timeout: nat)
    requires n.commitIndex <= n.HandleAppendEntries(a, now, timeout).0.log.LastIndex()
    ensures n.commitIndex <= n.HandleAppendEntries(a, now, timeout).0.commitIndex
  {
  }

  // ---- what the driver sends ----

  /**
    Every AppendEntries is aligned with the leader's log, ships its whole tail and
    reaches past the leader's commit index; the lookup of the previous term never
    falls back to its default.
  */
  lemma AppendIsAligned(cfg: Config, r: Run, k: nat, i: NodeId, n: Node, peer: NodeId)
    requires IsRun(cfg, r) && IsNode(r, k, i, n) && n.role == Leader && peer in n.peers && !n.NeedsSnapshot(peer)
    ensures var a := n.AppendArgsFor(peer);
            && n.log.snapshotIndex <= a.prevLogIndex
            && n.log.TermAt(a.prevLogIndex) == Some(a.prevLogTerm)
            && a.prevLogIndex + |a.entries| == n.log.LastIndex()
            && a.leaderCommit <= a.prevLogIndex + |a.entries|
            && forall m :: a.prevLogIndex < m <= n.log.LastIndex() ==> n.log.Get(m) == Some(a.entries[m - a.prevLogIndex - 1])
  {
    var h := ReachNode(cfg, r, k, i, n);
    assert PeerViewOk(h, n, |h.nodes[i].full|, peer);
    AlignedArgs(n, h.nodes[i].full, peer);
  }

  lemma AlignedArgs(n: Node, full: seq<LogEntry>, peer: NodeId)
    requires Represents(n.log, full) && n.commitIndex <= |full| && n.role == Leader && !n.NeedsSnapshot(peer)
    requires peer in n.nextIndex && 1 <= n.nextIndex[peer] <= |full| + 1
    requires n.log.snapshotIndex > 0 ==> n.snapshot.Some?
    ensures var a := n.AppendArgsFor(peer);
            && n.log.snapshotIndex <= a.prevLogIndex
            && n.log.TermAt(a.prevLogIndex) == Some(a.prevLogTerm)
            && a.prevLogIndex + |a.entries| == n.log.LastIndex()
            && a.leaderCommit <= a.prevLogIndex + |a.entries|
            && forall m :: a.prevLogIndex < m <= n.log.LastIndex() ==> n.log.Get(m) == Some(a.entries[m - a.prevLogIndex - 1])
  {
    var a, prev := n.AppendArgsFor(peer), n.nextIndex[peer] - 1;
    AccessorsAgree(n.log, full, prev);
    assert a.prevLogIndex == prev && a.entries == full[prev..];
    forall m | prev < m <= |full|
      ensures n.log.Get(m) == Some(a.entries[m - prev - 1])
    {
      AccessorsAgree(n.log, full, m);
    }
  }
}
