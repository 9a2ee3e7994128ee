/** Compaction, snapshot installation, draining and restart keep the invariant. */
module SnapshotSteps {
  import opened Types
  import opened Rpc
  import opened Consensus
  import opened Cluster
  import opened History
  import opened HistorySteps
  import opened HistoryFacts
  import opened LogRefinement
  import opened Invariant
  import opened ElectionSteps

  // ---- compaction by the application ----

  lemma FoldNode(cfg: Config, h: Hist, h': Hist, i: NodeId, n: Node, index: LogIndex, data: Bytes)
    requires NodeOk(cfg, h, i, n) && RecordsOk(h) && h.nodes.Keys == cfg.servers
    requires n.log.snapshotIndex < index <= n.lastApplied
    requires h' == Fold(h, i, index) && Evolves(h, h', i)
    ensures NodeOk(cfg, h', i, n.TakeSnapshot(index, data))
    ensures n.log.TermAt(index).Some?
  {
    var full := h.nodes[i].full;
    AccessorsAgree(n.log, full, index);
    CompactRefines(n.log, full, index);
    CommittedStable(cfg.servers, h, h', full, n.commitIndex, n.currentTerm, n.currentTerm);
    FoldRole(cfg, h, h', i, n, n.TakeSnapshot(index, data));
  }

  lemma FoldRole(cfg: Config, h: Hist, h': Hist, i: NodeId, n: Node, n': Node)
    requires i in h.nodes && i in h'.nodes && RecordsOk(h) && h.nodes.Keys == cfg.servers && Evolves(h, h', i)
    requires RoleOk(cfg, h, i, n) && IdentityOk(cfg, i, n)
    requires h'.nodes[i].full == h.nodes[i].full && h'.reigns == h.reigns && h'.acks == h.acks
    requires n' == n.(log := n'.log, snapshot := n'.snapshot)
    ensures RoleOk(cfg, h', i, n')
  {
    if n'.role == Candidate {
      CandidateStable(cfg, h, h', i, n');
    }
    if n'.role == Leader {
      forall p | p in n'.peers
        ensures PeerViewOk(h', n', |h'.nodes[i].full|, p)
      {
        assert PeerViewOk(h, n, |h.nodes[i].full|, p);
      }
    }
  }

  lemma CompactOk(cfg: Config, h: Hist, i: NodeId, n: Node, index: LogIndex, data: Bytes) returns (h': Hist)
    requires Ready(cfg, h, i, n)
    ensures Good(cfg, h, h', i, n, n.TakeSnapshot(index, data), {})
  {
    if n.log.snapshotIndex < index <= n.lastApplied {
      h' := Fold(h, i, index);
      FoldOk(cfg.servers, h, i, index);
      FoldNode(cfg, h, h', i, n, index, data);
    } else {
      EvolvesSelf(h, i);
      h' := h;
    }
  }

  // ---- draining the apply stream, and restarting ----

  lemma DrainNode(cfg: Config, h: Hist, i: NodeId, n: Node, n': Node)
    requires NodeOk(cfg, h, i, n) && n' == n.(pendingSnapshot := None, lastApplied := n.commitIndex)
    ensures NodeOk(cfg, h, i, n')
  {
    if n'.role == Leader {
      forall p | p in n'.peers
        ensures PeerViewOk(h, n', |h.nodes[i].full|, p)
      {
        assert PeerViewOk(h, n, |h.nodes[i].full|, p);
      }
    }
  }

  lemma DrainOk(cfg: Config, h: Hist, i: NodeId, n: Node)
    requires Ready(cfg, h, i, n)
    ensures Good(cfg, h, h, i, n, n.TakeApplies().0, {})
  {
    EvolvesSelf(h, i);
    DrainNode(cfg, h, i, n, n.TakeApplies().0);
  }

  lemma RestartOk(cfg: Config, h: Hist, i: NodeId, n: Node, now: nat, timeout: nat)
    requires Ready(cfg, h, i, n)
    ensures Good(cfg, h, h, i, n, New(n.id, n.peers, n.timing, n.Persistent(), now, timeout), {})
  {
    EvolvesSelf(h, i);
    CommittedPrefix(cfg.servers, h, h.nodes[i].full, n.commitIndex, n.currentTerm, h.nodes[i].full, n.log.snapshotIndex);
  }

  // ---- installing a leader's snapshot ----

  /** Following the leader through its snapshot boundary, then folding there. */
  function Installed(h: Hist, i: NodeId, k: LogIndex): Hist
    requires i in h.nodes && h.nodes[i].cur in h.reigns && k <= |h.reigns[h.nodes[i].cur].log|
  {
    Fold(Follow(h, i, k, false), i, k)
  }

  lemma InstalledOk(cfg: Config, h: Hist, i: NodeId, k: LogIndex)
    requires Valid(cfg.servers, h) && i in h.nodes && h.nodes[i].cur in h.reigns && k <= |h.reigns[h.nodes[i].cur].log|
    ensures Valid(cfg.servers, Installed(h, i, k)) && Evolves(h, Installed(h, i, k), i)
  {
    var h1 := Follow(h, i, k, false);
    FollowOk(cfg.servers, h, i, k, false);
    FoldOk(cfg.servers, h1, i, k);
    EvolvesCompose(h, h1, Installed(h, i, k), i);
  }

  /** Compacting to the leader's boundary keeps the tail exactly when it continues the leader's log. */
  lemma InstalledLog(log: Log, full: seq<LogEntry>, leader: seq<LogEntry>, k: LogIndex)
    requires Represents(log, full) && Matching(full, leader) && log.snapshotIndex < k <= |leader|
    ensures Represents(log.Compact(k, PlainTerm(leader, k)), Adopted(full, leader, k))
    ensures log.Compact(k, PlainTerm(leader, k)).snapshotIndex == k
  {
    var prefix := leader[..k];
    if k <= |full| && full[k - 1].term == leader[k - 1].term {
      assert full[..k] == prefix;
    }
    CompactForeignRefines(log, full, prefix);
    assert prefix <= full <==> Agree(full, leader, k);
  }

  lemma InstalledNode(cfg: Config, h: Hist, h': Hist, i: NodeId, n: Node, s: Snapshot)
    requires NodeOk(cfg, h, i, n) && n.role == Follower && n.currentTerm in h.reigns
    requires n.commitIndex < s.lastIncludedIndex <= |h.reigns[n.currentTerm].log|
    requires s.lastIncludedTerm == PlainTerm(h.reigns[n.currentTerm].log, s.lastIncludedIndex)
    requires Matching(h.nodes[i].full, h.reigns[n.currentTerm].log)
    requires Committed(cfg.servers, h, h.reigns[n.currentTerm].log, s.lastIncludedIndex, n.currentTerm)
    requires h' == Installed(h, i, s.lastIncludedIndex) && Evolves(h, h', i)
    ensures NodeOk(cfg, h', i, n.Install(s))
  {
    var k, leader := s.lastIncludedIndex, h.reigns[n.currentTerm].log;
    InstalledLog(n.log, h.nodes[i].full, leader, k);
    CommittedOver(cfg.servers, h, leader, h'.nodes[i].full, k, n.currentTerm);
    CommittedStable(cfg.servers, h, h', h'.nodes[i].full, k, n.currentTerm, n.currentTerm);
  }

  lemma InstallGood(cfg: Config, h: Hist, i: NodeId, n: Node, a: InstallSnapshotArgs, s: Snapshot) returns (h': Hist)
    requires Ready(cfg, h, i, n) && n.role == Follower && a.term == n.currentTerm && InstallReqOk(cfg, h, a.leaderId, a)
    requires s == Snapshot(a.lastIncludedIndex, a.lastIncludedTerm, a.data) && n.commitIndex < a.lastIncludedIndex
    ensures Good(cfg, h, h', i, n, n.Install(s), {})
  {
    var k := a.lastIncludedIndex;
    assert ReignOk(cfg.servers, h, a.term);
    LogMatching(h, h.nodes[i].full, h.reigns[a.term].log, h.nodes[i].cur, a.term);
    h' := Installed(h, i, k);
    InstalledOk(cfg, h, i, k);
    AdoptedKeepsCommitted(cfg.servers, h, i, n.commitIndex, k);
    InstalledNode(cfg, h, h', i, n, s);
  }

  /** InstallSnapshot at a node that already follows the sender's term. */
  ghost predicate Absorbs(n: Node, a: InstallSnapshotArgs, n': Node) {
    if a.lastIncludedIndex <= n.commitIndex then n' == n
    else n' == n.Install(Snapshot(a.lastIncludedIndex, a.lastIncludedTerm, a.data))
  }

  lemma InstallInTerm(cfg: Config, h: Hist, i: NodeId, n: Node, a: InstallSnapshotArgs, n': Node) returns (h': Hist)
    requires Ready(cfg, h, i, n) && n.role == Follower && a.term == n.currentTerm && InstallReqOk(cfg, h, a.leaderId, a)
    requires Absorbs(n, a, n')
    ensures Good(cfg, h, h', i, n, n', {})
  {
    if a.lastIncludedIndex <= n.commitIndex {
      EvolvesSelf(h, i);
      h' := h;
    } else {
      h' := InstallGood(cfg, h, i, n, a, Snapshot(a.lastIncludedIndex, a.lastIncludedTerm, a.data));
    }
  }

  lemma InstallFollows(cfg: Config, h: Hist, i: NodeId, n: Node, n1: Node, a: InstallSnapshotArgs, n': Node)
      returns (h': Hist)
    requires Ready(cfg, h, i, n) && Follows(n, n1, a.term) && InstallReqOk(cfg, h, a.leaderId, a)
    requires Absorbs(n1, a, n')
    ensures Good(cfg, h, h', i, n, n', {})
  {
    var h1 := Bump(h, i, a.term);
    FollowTerm(cfg, h, i, n, n1, a.term);
    InstallReqStable(cfg, h, h1, a.leaderId, a);
    h' := InstallInTerm(cfg, h1, i, n1, a, n');
    GoodCompose(cfg, h, h1, h', i, n, n1, n', {});
  }

  lemma InstallShape(n: Node, a: InstallSnapshotArgs, now: nat, timeout: nat)
    requires n.currentTerm <= a.term
    ensures var n1 := n.YieldTo(a.term, a.leaderId, now, timeout);
            Follows(n, n1, a.term) && Absorbs(n1, a, n.HandleInstallSnapshot(a, now, timeout).0)
  {
  }

  lemma InstallSilent(cfg: Config, h: Hist, i: NodeId, n: Node, src: NodeId, a: InstallSnapshotArgs, now: nat,
      timeout: nat) returns (h': Hist)
    requires Ready(cfg, h, i, n) && InstallReqOk(cfg, h, src, a)
    ensures Good(cfg, h, h', i, n, n.HandleInstallSnapshot(a, now, timeout).0, {})
  {
    if a.term < n.currentTerm {
      EvolvesSelf(h, i);
      h' := h;
    } else {
      InstallShape(n, a, now, timeout);
      h' := InstallFollows(cfg, h, i, n, n.YieldTo(a.term, a.leaderId, now, timeout), a, n.HandleInstallSnapshot(a, now, timeout).0);
    }
  }

  /** InstallSnapshot, as a whole. */
  lemma InstallOk(cfg: Config, h: Hist, i: NodeId, n: Node, src: NodeId, a: InstallSnapshotArgs, now: nat,
      timeout: nat) returns (h': Hist)
    requires Ready(cfg, h, i, n) && InstallReqOk(cfg, h, src, a) && src != i
    ensures Good(cfg, h, h', i, n, n.HandleInstallSnapshot(a, now, timeout).0,
                 {InstallRep(n.id, src, n.HandleInstallSnapshot(a, now, timeout).1, a.lastIncludedIndex)})
  {
    var (n', reply) := n.HandleInstallSnapshot(a, now, timeout);
    h' := InstallSilent(cfg, h, i, n, src, a, now, timeout);
    WithPacket(cfg, h, h', i, n, n', InstallRep(n.id, src, reply, a.lastIncludedIndex));
  }
}
