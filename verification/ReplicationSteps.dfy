/** Replication, commitment and snapshot transfer keep the invariant. */
module ReplicationSteps {
  import opened Types
  import opened Quorums
  import opened Rpc
  import opened Consensus
  import opened Cluster
  import opened History
  import opened HistorySteps
  import opened HistoryFacts
  import opened LogRefinement
  import opened Invariant
  import opened ElectionSteps

  // ---- commitment by counting ----

  /** The peers whose acknowledged length has reached `k`. */
  function Matched(peers: seq<NodeId>, matchIndex: map<NodeId, LogIndex>, k: LogIndex): set<NodeId> {
    set p | p in peers && (if p in matchIndex then matchIndex[p] else 0) >= k
  }

  lemma {:induction false} CountIsSize(peers: seq<NodeId>, matchIndex: map<NodeId, LogIndex>, k: LogIndex)
    requires forall i, j :: 0 <= i < j < |peers| ==> peers[i] != peers[j]
    ensures CountMatching(peers, matchIndex, k) == |Matched(peers, matchIndex, k)|
    decreases |peers|
  {
    if peers == [] {
      assert Matched(peers, matchIndex, k) == {};
    } else {
      var p, rest := peers[0], peers[1..];
      CountIsSize(rest, matchIndex, k);
      var tail := Matched(rest, matchIndex, k);
      assert p !in tail;
      if (if p in matchIndex then matchIndex[p] else 0) >= k {
        assert Matched(peers, matchIndex, k) == tail + {p};
      } else {
        assert Matched(peers, matchIndex, k) == tail;
      }
    }
  }

  /** Whatever a leader commits by counting, a quorum acknowledged in the leader's own term. */
  lemma CountedIsChosen(cfg: Config, h: Hist, i: NodeId, n: Node, k: LogIndex)
    requires i in h.nodes && h.nodes.Keys == cfg.servers
    requires IdentityOk(cfg, i, n) && DurableOk(h, i, n) && LeaderOk(h, i, n)
    requires n.log.snapshotIndex <= n.commitIndex < k <= n.log.LastIndex() && n.Committable(k)
    ensures Chosen(cfg.servers, h, n.currentTerm, k)
  {
    AccessorsAgree(n.log, h.nodes[i].full, k);
    var q := Matched(n.peers, n.matchIndex, k) + {i};
    CountIsSize(n.peers, n.matchIndex, k);
    ClusterSize(cfg, i, n);
    assert IsQuorum(cfg.servers, q);
    forall p | p in q
      ensures p in h.nodes && Ack(h, p, n.currentTerm) >= k
    {
      if p != i {
        assert PeerViewOk(h, n, |h.nodes[i].full|, p);
      }
    }
    assert ChosenBy(h, n.currentTerm, k, q);
  }

  lemma AdvancedCommit(cfg: Config, h: Hist, i: NodeId, n: Node)
    requires i in h.nodes && h.nodes.Keys == cfg.servers
    requires IdentityOk(cfg, i, n) && DurableOk(h, i, n) && CursorsOk(cfg, h, i, n) && LeaderOk(h, i, n)
    ensures CursorsOk(cfg, h, i, n.MaybeAdvanceCommit())
    ensures n.commitIndex <= n.MaybeAdvanceCommit().commitIndex
  {
    var k := n.MaybeAdvanceCommit().commitIndex;
    AccessorsAgree(n.log, h.nodes[i].full, |h.nodes[i].full|);
    if n.commitIndex < k {
      CountedIsChosen(cfg, h, i, n, k);
      assert CommittedIn(cfg.servers, h, h.nodes[i].full, k, n.currentTerm, k);
    }
  }

  lemma AdvancedLeader(h: Hist, i: NodeId, n: Node, n': Node)
    requires i in h.nodes && LeaderOk(h, i, n) && n.commitIndex <= n'.commitIndex
    requires n' == n.(commitIndex := n'.commitIndex)
    ensures LeaderOk(h, i, n')
  {
    forall p | p in n'.peers
      ensures PeerViewOk(h, n', |h.nodes[i].full|, p)
    {
      assert PeerViewOk(h, n, |h.nodes[i].full|, p);
    }
  }

  lemma AdvanceNode(cfg: Config, h: Hist, i: NodeId, n: Node)
    requires h.nodes.Keys == cfg.servers && NodeOk(cfg, h, i, n) && n.role == Leader
    ensures NodeOk(cfg, h, i, n.MaybeAdvanceCommit())
  {
    AdvancedCommit(cfg, h, i, n);
    AdvancedLeader(h, i, n, n.MaybeAdvanceCommit());
  }

  lemma NextMoved(h: Hist, i: NodeId, n: Node, peer: NodeId, next: LogIndex)
    requires i in h.nodes && LeaderOk(h, i, n) && 1 <= next <= |h.nodes[i].full| + 1
    ensures LeaderOk(h, i, n.(nextIndex := n.nextIndex[peer := next]))
  {
    forall p | p in n.peers
      ensures PeerViewOk(h, n.(nextIndex := n.nextIndex[peer := next]), |h.nodes[i].full|, p)
    {
      assert PeerViewOk(h, n, |h.nodes[i].full|, p);
    }
  }

  /** The match index of a peer moves within what that peer acknowledged. */
  lemma MatchMoved(h: Hist, i: NodeId, n: Node, peer: NodeId, matched: LogIndex)
    requires i in h.nodes && LeaderOk(h, i, n) && matched <= |h.nodes[i].full|
    requires matched <= Max(n.commitIndex, Ack(h, peer, n.currentTerm))
    ensures LeaderOk(h, i, n.(matchIndex := n.matchIndex[peer := matched]))
  {
    forall p | p in n.peers
      ensures PeerViewOk(h, n.(matchIndex := n.matchIndex[peer := matched]), |h.nodes[i].full|, p)
    {
      assert PeerViewOk(h, n, |h.nodes[i].full|, p);
    }
  }

  lemma PeerMoved(h: Hist, i: NodeId, n: Node, peer: NodeId, hint: LogIndex, matched: LogIndex, n': Node)
    requires i in h.nodes && LeaderOk(h, i, n) && peer in n.peers
    requires hint <= |h.nodes[i].full| && hint <= Max(n.commitIndex, Ack(h, peer, n.currentTerm))
    requires matched == Max(n.MatchFor(peer), hint)
    requires n' == n.(matchIndex := n.matchIndex[peer := matched], nextIndex := n.nextIndex[peer := matched + 1])
    ensures LeaderOk(h, i, n')
  {
    assert PeerViewOk(h, n, |h.nodes[i].full|, peer);
    MatchMoved(h, i, n, peer, matched);
    NextMoved(h, i, n.(matchIndex := n.matchIndex[peer := matched]), peer, matched + 1);
  }

  lemma ViewNode(cfg: Config, h: Hist, i: NodeId, n: Node, n': Node)
    requires NodeOk(cfg, h, i, n) && n.role == Leader
    requires n' == n.(nextIndex := n'.nextIndex, matchIndex := n'.matchIndex)
    requires LeaderOk(h, i, n')
    ensures NodeOk(cfg, h, i, n')
  {
  }

  // ---- proposing ----

  lemma ExtendDurable(h: Hist, h': Hist, i: NodeId, n: Node, e: LogEntry)
    requires i in h.nodes && h.nodes[i].cur in h.reigns && DurableOk(h, i, n)
    requires Leads(h, i) && h' == Extend(h, i, e)
    ensures DurableOk(h', i, n.(log := n.log.Append(e)))
  {
    var full := h.nodes[i].full;
    AppendRefines(n.log, full, e);
    assert (full + [e])[..n.log.snapshotIndex] == full[..n.log.snapshotIndex];
  }

  lemma ExtendCursors(cfg: Config, h: Hist, h': Hist, i: NodeId, n: Node, e: LogEntry)
    requires i in h.nodes && h.nodes[i].cur in h.reigns && CursorsOk(cfg, h, i, n)
    requires Leads(h, i) && h' == Extend(h, i, e) && Evolves(h, h', i)
    ensures CursorsOk(cfg, h', i, n.(log := n.log.Append(e)))
  {
    var full := h.nodes[i].full;
    CommittedStable(cfg.servers, h, h', full, n.commitIndex, n.currentTerm, n.currentTerm);
    CommittedOver(cfg.servers, h', full, full + [e], n.commitIndex, n.currentTerm);
  }

  lemma ExtendLeader(cfg: Config, h: Hist, h': Hist, i: NodeId, n: Node, e: LogEntry)
    requires i in h.nodes && n.currentTerm == h.nodes[i].cur && LeaderOk(h, i, n) && IdentityOk(cfg, i, n)
    requires Leads(h, i) && h' == Extend(h, i, e)
    ensures LeaderOk(h', i, n.(log := n.log.Append(e)))
  {
    var n' := n.(log := n.log.Append(e));
    forall p | p in n'.peers
      ensures PeerViewOk(h', n', |h'.nodes[i].full|, p)
    {
      assert PeerViewOk(h, n, |h.nodes[i].full|, p);
    }
  }

  lemma ExtendNode(cfg: Config, h: Hist, h': Hist, i: NodeId, n: Node, e: LogEntry)
    requires NodeOk(cfg, h, i, n) && n.role == Leader
    requires Leads(h, i) && h' == Extend(h, i, e) && Evolves(h, h', i)
    ensures NodeOk(cfg, h', i, n.(log := n.log.Append(e)))
  {
    ExtendDurable(h, h', i, n, e);
    ExtendCursors(cfg, h, h', i, n, e);
    ExtendLeader(cfg, h, h', i, n, e);
  }

  lemma ProposeOk(cfg: Config, h: Hist, i: NodeId, n: Node, command: Bytes) returns (h': Hist)
    requires Ready(cfg, h, i, n)
    ensures Good(cfg, h, h', i, n, n.SubmitCommand(command).0, {})
  {
    if n.role == Leader {
      var e := LogEntry(n.currentTerm, command);
      h' := Extend(h, i, e);
      ExtendOk(cfg.servers, h, i, e);
      ExtendNode(cfg, h, h', i, n, e);
      AdvanceNode(cfg, h', i, n.(log := n.log.Append(e)));
    } else {
      EvolvesSelf(h, i);
      h' := h;
    }
  }

  // ---- sending ----

  /** What the leader ships from a next index past its snapshot: its whole tail. */
  lemma AppendArgsShape(n: Node, full: seq<LogEntry>, peer: NodeId)
    requires Represents(n.log, full) && peer in n.nextIndex
    requires 1 <= n.nextIndex[peer] <= |full| + 1 && n.log.snapshotIndex < n.nextIndex[peer]
    ensures var a := n.AppendArgsFor(peer);
            && a.prevLogIndex == n.nextIndex[peer] - 1
            && a.prevLogTerm == PlainTerm(full, a.prevLogIndex)
            && a.entries == full[a.prevLogIndex..]
  {
    AccessorsAgree(n.log, full, n.nextIndex[peer] - 1);
  }

  lemma WholeTailOk(cfg: Config, h: Hist, i: NodeId, a: AppendEntriesArgs, log: seq<LogEntry>)
    requires a.leaderId == i && a.term in h.reigns && h.reigns[a.term].leader == i && h.reigns[a.term].log == log
    requires a.prevLogIndex <= |log| && a.entries == log[a.prevLogIndex..] && a.prevLogTerm == PlainTerm(log, a.prevLogIndex)
    requires Committed(cfg.servers, h, log, a.leaderCommit, a.term)
    ensures AppendReqOk(cfg, h, i, a)
  {
  }

  lemma SendAppendOk(cfg: Config, h: Hist, i: NodeId, n: Node, peer: NodeId)
    requires i in h.nodes && n.id == i && DurableOk(h, i, n) && CursorsOk(cfg, h, i, n) && LeaderOk(h, i, n)
    requires n.role == Leader && peer in n.peers && !n.NeedsSnapshot(peer)
    ensures AppendReqOk(cfg, h, i, n.AppendArgsFor(peer))
    ensures n.AppendArgsFor(peer).prevLogIndex + |n.AppendArgsFor(peer).entries| == |h.nodes[i].full|
  {
    var full := h.nodes[i].full;
    assert PeerViewOk(h, n, |full|, peer);
    AppendArgsShape(n, full, peer);
    WholeTailOk(cfg, h, i, n.AppendArgsFor(peer), full);
  }

  lemma SendSnapshotOk(cfg: Config, h: Hist, i: NodeId, n: Node, peer: NodeId)
    requires i in h.nodes && n.id == i && DurableOk(h, i, n) && CursorsOk(cfg, h, i, n) && LeaderOk(h, i, n)
    requires n.NeedsSnapshot(peer)
    ensures InstallReqOk(cfg, h, i, n.GetInstallSnapshotArgs())
  {
    var full := h.nodes[i].full;
    CommittedPrefix(cfg.servers, h, full, n.commitIndex, n.currentTerm, full, n.log.snapshotIndex);
  }

  lemma SendOk(cfg: Config, h: Hist, i: NodeId, n: Node, peer: NodeId)
    requires Ready(cfg, h, i, n) && n.role == Leader && peer in n.peers
    ensures Good(cfg, h, h, i, n, n, {Outgoing(n, peer)})
  {
    EvolvesSelf(h, i);
    OutgoingOk(cfg, h, i, n, peer);
    WithPacket(cfg, h, h, i, n, n, Outgoing(n, peer));
  }

  lemma OutgoingOk(cfg: Config, h: Hist, i: NodeId, n: Node, peer: NodeId)
    requires i in h.nodes && i in cfg.servers && IdentityOk(cfg, i, n)
    requires DurableOk(h, i, n) && CursorsOk(cfg, h, i, n) && LeaderOk(h, i, n)
    requires n.role == Leader && peer in n.peers
    ensures PacketOk(cfg, h, Outgoing(n, peer))
  {
    if n.NeedsSnapshot(peer) {
      SendSnapshotOk(cfg, h, i, n, peer);
    } else {
      SendAppendOk(cfg, h, i, n, peer);
    }
  }

  // ---- receiving entries ----

  /** A passed check, or a boundary past it, means agreement with the leader's log. */
  lemma PrevAgrees(cfg: Config, h: Hist, i: NodeId, n: Node, a: AppendEntriesArgs)
    requires Valid(cfg.servers, h) && i in h.nodes && DurableOk(h, i, n) && CursorsOk(cfg, h, i, n)
    requires a.term == n.currentTerm && AppendReqOk(cfg, h, a.leaderId, a) && n.PrevMatches(a)
    ensures Agree(h.nodes[i].full, h.reigns[a.term].log, Max(a.prevLogIndex, n.log.snapshotIndex))
  {
    var full, leader := h.nodes[i].full, h.reigns[a.term].log;
    assert ReignOk(cfg.servers, h, a.term);
    LogMatching(h, full, leader, h.nodes[i].cur, a.term);
    if a.prevLogIndex > n.log.snapshotIndex {
      AccessorsAgree(n.log, full, a.prevLogIndex);
      assert full[a.prevLogIndex - 1].term == leader[a.prevLogIndex - 1].term;
    } else {
      CommittedHeld(cfg.servers, h, full, n.commitIndex, a.term);
    }
  }

  lemma ConflictOk(cfg: Config, h: Hist, i: NodeId, n: Node, a: AppendEntriesArgs)
    requires i in h.nodes && DurableOk(h, i, n)
    requires a.term == n.currentTerm && AppendReqOk(cfg, h, a.leaderId, a) && !n.PrevMatches(a)
    ensures AppendRepOk(h, i, OverWire(n.AppendConflict(a.prevLogIndex)), a.prevLogIndex + |a.entries|)
    ensures n.AppendConflict(a.prevLogIndex).conflictIndex.Some?
    ensures n.AppendConflict(a.prevLogIndex).conflictIndex.value <= a.prevLogIndex
  {
    var full, prev := h.nodes[i].full, a.prevLogIndex;
    AccessorsAgree(n.log, full, prev);
    if prev <= |full| {
      FirstPositionIs(n.log.entries, full[prev - 1].term);
      assert n.log.entries[prev - n.log.snapshotIndex - 1] == full[prev - 1];
    }
  }

  /** The commit index after accepting entries through `m`. */
  lemma FollowedCommit(cfg: Config, h: Hist, h': Hist, i: NodeId, n: Node, m: nat, commit: LogIndex)
    requires LeadersComplete(cfg.servers, h) && i in h.nodes && n.currentTerm == h.nodes[i].cur && n.currentTerm in h.reigns && CursorsOk(cfg, h, i, n)
    requires m <= |h.reigns[n.currentTerm].log| && h' == Follow(h, i, m, true) && Evolves(h, h', i)
    requires commit == n.commitIndex ||
             (n.commitIndex < commit <= m && Committed(cfg.servers, h, h.reigns[n.currentTerm].log, commit, n.currentTerm))
    ensures Committed(cfg.servers, h', h'.nodes[i].full, commit, n.currentTerm)
    ensures Agree(h.nodes[i].full, h'.nodes[i].full, n.commitIndex)
  {
    var full, full', leader := h.nodes[i].full, h'.nodes[i].full, h.reigns[n.currentTerm].log;
    AdoptedKeepsCommitted(cfg.servers, h, i, n.commitIndex, m);
    if commit == n.commitIndex {
      CommittedOver(cfg.servers, h, full, full', commit, n.currentTerm);
    } else {
      assert Agree(leader, full', commit);
      CommittedOver(cfg.servers, h, leader, full', commit, n.currentTerm);
    }
    CommittedStable(cfg.servers, h, h', full', commit, n.currentTerm, n.currentTerm);
  }

  /** The node with a log and commit index that keep its committed prefix. */
  lemma AcceptNode(cfg: Config, h: Hist, h': Hist, i: NodeId, n: Node, log': Log, commit: LogIndex)
    requires NodeOk(cfg, h, i, n) && n.role == Follower && i in h'.nodes
    requires h'.voted == h.voted && h'.nodes[i].cur == h.nodes[i].cur && h'.nodes[i].base == h.nodes[i].base
    requires Represents(log', h'.nodes[i].full) && log'.snapshotIndex == n.log.snapshotIndex
    requires n.commitIndex <= commit && Committed(cfg.servers, h', h'.nodes[i].full, commit, n.currentTerm)
    ensures NodeOk(cfg, h', i, n.(log := log', commitIndex := commit))
  {
  }

  /** The splice turns the node's log into the leader's, up to the last entry sent. */
  lemma SplicedLog(h: Hist, log: Log, full: seq<LogEntry>, leader: seq<LogEntry>, a: AppendEntriesArgs, m: nat,
      log': Log)
    requires Represents(log, full) && Agree(full, leader, Max(a.prevLogIndex, log.snapshotIndex))
    requires LogOk(h, full, a.term) && LogOk(h, leader, a.term)
    requires m == a.prevLogIndex + |a.entries| <= |leader| && a.entries == leader[a.prevLogIndex..m]
    requires log' == Splice(log, a.prevLogIndex, a.entries)
    ensures Represents(log', Adopted(full, leader, m)) && log'.snapshotIndex == log.snapshotIndex
  {
    LogMatching(h, full, leader, a.term, a.term);
    SpliceRefines(log, full, leader, a.prevLogIndex, m);
  }

  /** Accepting: acknowledge, and follow the leader's commit index. */
  lemma AcceptGood(cfg: Config, h: Hist, i: NodeId, n: Node, a: AppendEntriesArgs, m: nat, log': Log,
      commit: LogIndex) returns (h': Hist)
    requires Ready(cfg, h, i, n) && n.role == Follower && m == a.prevLogIndex + |a.entries|
    requires a.term == n.currentTerm && AppendReqOk(cfg, h, a.leaderId, a)
    requires Represents(log', Adopted(h.nodes[i].full, h.reigns[a.term].log, m)) && log'.snapshotIndex == n.log.snapshotIndex
    requires commit == if a.leaderCommit > n.commitIndex then Min(a.leaderCommit, log'.LastIndex()) else n.commitIndex
    ensures Good(cfg, h, h', i, n, n.(log := log', commitIndex := commit), {})
    ensures h'.reigns == h.reigns && m <= Ack(h', i, a.term)
  {
    h' := Follow(h, i, m, true);
    FollowOk(cfg.servers, h, i, m, true);
    AcceptedNode(cfg, h, h', i, n, a, m, log', commit);
  }

  /** The follower's log after a passed check, as a plain sequence. */
  lemma AcceptedLog(cfg: Config, h: Hist, i: NodeId, n: Node, a: AppendEntriesArgs, m: nat, log': Log)
    requires Valid(cfg.servers, h) && i in h.nodes && DurableOk(h, i, n) && CursorsOk(cfg, h, i, n)
    requires a.term == n.currentTerm && AppendReqOk(cfg, h, a.leaderId, a) && n.PrevMatches(a)
    requires m == a.prevLogIndex + |a.entries| && log' == Splice(n.log, a.prevLogIndex, a.entries)
    ensures m <= |h.reigns[a.term].log|
    ensures Represents(log', Adopted(h.nodes[i].full, h.reigns[a.term].log, m)) && log'.snapshotIndex == n.log.snapshotIndex
  {
    PrevAgrees(cfg, h, i, n, a);
    assert ReignOk(cfg.servers, h, a.term);
    SplicedLog(h, n.log, h.nodes[i].full, h.reigns[a.term].log, a, m, log');
  }

  lemma AcceptOk(cfg: Config, h: Hist, i: NodeId, n: Node, a: AppendEntriesArgs, log': Log, commit: LogIndex)
      returns (h': Hist)
    requires Ready(cfg, h, i, n) && n.role == Follower
    requires a.term == n.currentTerm && AppendReqOk(cfg, h, a.leaderId, a) && a.leaderId != i && n.PrevMatches(a)
    requires log' == Splice(n.log, a.prevLogIndex, a.entries)
    requires commit == if a.leaderCommit > n.commitIndex then Min(a.leaderCommit, log'.LastIndex()) else n.commitIndex
    ensures Good(cfg, h, h', i, n, n.(log := log', commitIndex := commit),
                 {AppendAnswer(i, a.leaderId, a, Accepted(a.term))})
  {
    var m := a.prevLogIndex + |a.entries|;
    AcceptedLog(cfg, h, i, n, a, m, log');
    h' := AcceptGood(cfg, h, i, n, a, m, log', commit);
    WithPacket(cfg, h, h', i, n, n.(log := log', commitIndex := commit),
               AppendAnswer(i, a.leaderId, a, Accepted(a.term)));
  }

  /** `min(leader_commit, last_index)` is the leader's commit index: the message reached that far. */
  lemma AcceptedCommit(cfg: Config, h: Hist, h': Hist, i: NodeId, n: Node, a: AppendEntriesArgs, m: nat,
      log': Log, commit: LogIndex)
    requires i in h.nodes && n.currentTerm == h.nodes[i].cur && a.term == n.currentTerm
    requires AppendReqOk(cfg, h, a.leaderId, a) && m == a.prevLogIndex + |a.entries|
    requires h' == Follow(h, i, m, true) && Represents(log', h'.nodes[i].full)
    requires commit == if a.leaderCommit > n.commitIndex then Min(a.leaderCommit, log'.LastIndex()) else n.commitIndex
    ensures commit == Max(n.commitIndex, a.leaderCommit)
    ensures commit == n.commitIndex ||
             (n.commitIndex < commit <= m && Committed(cfg.servers, h, h.reigns[n.currentTerm].log, commit, n.currentTerm))
  {
  }

  lemma AcceptedNode(cfg: Config, h: Hist, h': Hist, i: NodeId, n: Node, a: AppendEntriesArgs, m: nat,
      log': Log, commit: LogIndex)
    requires LeadersComplete(cfg.servers, h) && NodeOk(cfg, h, i, n) && n.role == Follower && a.term == n.currentTerm
    requires AppendReqOk(cfg, h, a.leaderId, a) && m == a.prevLogIndex + |a.entries|
    requires h' == Follow(h, i, m, true) && Evolves(h, h', i)
    requires Represents(log', h'.nodes[i].full) && log'.snapshotIndex == n.log.snapshotIndex
    requires commit == if a.leaderCommit > n.commitIndex then Min(a.leaderCommit, log'.LastIndex()) else n.commitIndex
    ensures NodeOk(cfg, h', i, n.(log := log', commitIndex := commit))
    ensures Kept(h, h', i, n.commitIndex)
  {
    AcceptedCommit(cfg, h, h', i, n, a, m, log', commit);
    FollowedCommit(cfg, h, h', i, n, m, commit);
    AcceptNode(cfg, h, h', i, n, log', commit);
  }

  /** The outcome of AppendEntries at a node that already follows the sender's term. */
  ghost predicate Answers(n: Node, a: AppendEntriesArgs, n': Node, reply: AppendEntriesReply) {
    if n.PrevMatches(a) then
      var log' := Splice(n.log, a.prevLogIndex, a.entries);
      && reply == Accepted(a.term)
      && n' == n.(log := log', commitIndex := if a.leaderCommit > n.commitIndex then Min(a.leaderCommit, log'.LastIndex()) else n.commitIndex)
    else n' == n && reply == n.AppendConflict(a.prevLogIndex)
  }

  lemma AppendInTerm(cfg: Config, h: Hist, i: NodeId, n: Node, a: AppendEntriesArgs, n': Node,
      reply: AppendEntriesReply) returns (h': Hist)
    requires Ready(cfg, h, i, n) && n.role == Follower && a.term == n.currentTerm && AppendReqOk(cfg, h, a.leaderId, a)
    requires a.leaderId != i && Answers(n, a, n', reply)
    ensures Good(cfg, h, h', i, n, n', {AppendAnswer(i, a.leaderId, a, reply)})
  {
    if n.PrevMatches(a) {
      h' := AcceptOk(cfg, h, i, n, a, n'.log, n'.commitIndex);
    } else {
      ConflictOk(cfg, h, i, n, a);
      h' := h;
      EvolvesSelf(h, i);
      WithPacket(cfg, h, h, i, n, n, AppendAnswer(i, a.leaderId, a, reply));
    }
  }

  lemma AppendFollows(cfg: Config, h: Hist, i: NodeId, n: Node, n1: Node, a: AppendEntriesArgs, n': Node,
      reply: AppendEntriesReply) returns (h': Hist)
    requires Ready(cfg, h, i, n) && Follows(n, n1, a.term) && AppendReqOk(cfg, h, a.leaderId, a)
    requires a.leaderId != i && Answers(n1, a, n', reply)
    ensures Good(cfg, h, h', i, n, n', {AppendAnswer(i, a.leaderId, a, reply)})
  {
    var h1 := Bump(h, i, a.term);
    FollowTerm(cfg, h, i, n, n1, a.term);
    AppendReqStable(cfg, h, h1, a.leaderId, a);
    h' := AppendInTerm(cfg, h1, i, n1, a, n', reply);
    GoodCompose(cfg, h, h1, h', i, n, n1, n', {AppendAnswer(i, a.leaderId, a, reply)});
  }

  lemma AppendShape(n: Node, a: AppendEntriesArgs, now: nat, timeout: nat)
    requires n.currentTerm <= a.term
    ensures var n1 := n.YieldTo(a.term, a.leaderId, now, timeout);
            var (n', reply) := n.HandleAppendEntries(a, now, timeout);
            Follows(n, n1, a.term) && Answers(n1, a, n', reply)
  {
  }

  /** AppendEntries, as a whole. */
  lemma OnAppendOk(cfg: Config, h: Hist, i: NodeId, x: Host, src: NodeId, a: AppendEntriesArgs, now: nat,
      timeout: nat) returns (h': Hist)
    requires Ready(cfg, h, i, x.node) && AppendReqOk(cfg, h, src, a) && src != i
    ensures Good(cfg, h, h', i, x.node, OnAppend(x, src, a, now, timeout).0.node, OnAppend(x, src, a, now, timeout).1)
  {
    var n := x.node;
    var (n', reply) := n.HandleAppendEntries(a, now, timeout);
    if a.term < n.currentTerm {
      EvolvesSelf(h, i);
      h' := h;
      WithPacket(cfg, h, h, i, n, n, AppendAnswer(i, src, a, reply));
    } else {
      AppendShape(n, a, now, timeout);
      h' := AppendFollows(cfg, h, i, n, n.YieldTo(a.term, a.leaderId, now, timeout), a, n', reply);
    }
  }

  // ---- replies to the leader ----

  lemma AdvancePeerNode(cfg: Config, h: Hist, i: NodeId, n: Node, peer: NodeId, hint: LogIndex)
    requires h.nodes.Keys == cfg.servers && NodeOk(cfg, h, i, n) && n.role == Leader && hint <= |h.nodes[i].full|
    requires peer in n.peers && hint <= Max(n.commitIndex, Ack(h, peer, n.currentTerm))
    ensures NodeOk(cfg, h, i, n.AdvancePeer(peer, hint))
  {
    var matched := Max(n.MatchFor(peer), hint);
    var n1 := n.(matchIndex := n.matchIndex[peer := matched], nextIndex := n.nextIndex[peer := matched + 1]);
    PeerMoved(h, i, n, peer, hint, matched, n1);
    ViewNode(cfg, h, i, n, n1);
    AdvanceNode(cfg, h, i, n1);
  }

  lemma AppendReplyNode(cfg: Config, h: Hist, i: NodeId, n: Node, src: NodeId, r: AppendEntriesReply, hint: LogIndex)
    requires h.nodes.Keys == cfg.servers && NodeOk(cfg, h, i, n) && src in n.peers && AppendRepOk(h, src, r, hint)
    requires r.term <= n.currentTerm
    ensures NodeOk(cfg, h, i, n.HandleAppendReply(src, r, hint))
  {
    if n.role == Leader && r.term == n.currentTerm {
      if r.success {
        AdvancePeerNode(cfg, h, i, n, src, hint);
      } else {
        BackOffNode(cfg, h, i, n, src, r, hint);
      }
    }
  }

  /** Backing off keeps the next index between 1 and one past the leader's log. */
  lemma BackOffNode(cfg: Config, h: Hist, i: NodeId, n: Node, src: NodeId, r: AppendEntriesReply, hint: LogIndex)
    requires NodeOk(cfg, h, i, n) && n.role == Leader && r.term == n.currentTerm && !r.success
    requires src in n.peers && AppendRepOk(h, src, r, hint)
    ensures NodeOk(cfg, h, i, n.HandleAppendReply(src, r, hint))
  {
    var next := Max(n.NextIndexAfterConflict(src, r), 1);
    assert PeerViewOk(h, n, |h.nodes[i].full|, src);
    NextBounded(n, h.nodes[i].full, src, r);
    NextMoved(h, i, n, src, next);
    ViewNode(cfg, h, i, n, n.(nextIndex := n.nextIndex[src := next]));
  }

  lemma NextBounded(n: Node, full: seq<LogEntry>, src: NodeId, r: AppendEntriesReply)
    requires Represents(n.log, full) && src in n.nextIndex && n.nextIndex[src] <= |full| + 1
    requires r.conflictIndex.Some? ==> r.conflictIndex.value <= |full|
    ensures n.NextIndexAfterConflict(src, r) <= |full| + 1
  {
    LastPositionIs(n.log.entries, r.conflictTerm.GetOr(0));
  }

  lemma AppendReplyOk(cfg: Config, h: Hist, i: NodeId, n: Node, src: NodeId, r: AppendEntriesReply,
      hint: LogIndex) returns (h': Hist)
    requires Ready(cfg, h, i, n) && src in n.peers && AppendRepOk(h, src, r, hint)
    ensures Good(cfg, h, h', i, n, n.HandleAppendReply(src, r, hint), {})
  {
    if r.term > n.currentTerm {
      h' := Bump(h, i, r.term);
      FollowTerm(cfg, h, i, n, n.HandleAppendReply(src, r, hint), r.term);
    } else {
      h' := h;
      EvolvesSelf(h, i);
      AppendReplyNode(cfg, h, i, n, src, r, hint);
    }
  }

  lemma InstallReplyOk(cfg: Config, h: Hist, i: NodeId, n: Node, src: NodeId, r: InstallSnapshotReply,
      last: LogIndex) returns (h': Hist)
    requires Ready(cfg, h, i, n) && src in n.peers && InstallRepOk(h, i, last)
    ensures Good(cfg, h, h', i, n, n.HandleInstallSnapshotReply(src, r, last), {})
  {
    if r.term > n.currentTerm {
      h' := Bump(h, i, r.term);
      FollowTerm(cfg, h, i, n, n.HandleInstallSnapshotReply(src, r, last), r.term);
    } else {
      h' := h;
      EvolvesSelf(h, i);
      if n.role == Leader && r.term == n.currentTerm {
        AdvancePeerNode(cfg, h, i, n, src, last);
      }
    }
  }
}
