/** Elections, votes and term changes keep the invariant. */
module ElectionSteps {
  import opened Types
  import opened Rpc
  import opened Consensus
  import opened Cluster
  import opened History
  import opened HistorySteps
  import opened HistoryFacts
  import opened LogRefinement
  import opened Invariant

  ghost predicate Ready(cfg: Config, h: Hist, i: NodeId, n: Node) {
    Valid(cfg.servers, h) && NodeOk(cfg, h, i, n)
  }

  ghost predicate AllOk(cfg: Config, h: Hist, sent: set<Packet>) {
    forall p :: p in sent ==> PacketOk(cfg, h, p)
  }

  /** The first `k` entries of node `i`'s full log are untouched. */
  ghost predicate Kept(h: Hist, h': Hist, i: NodeId, k: LogIndex) {
    i in h.nodes && i in h'.nodes && Agree(h.nodes[i].full, h'.nodes[i].full, k)
  }

  /** The step from `h` to `h'` by node `i`, now `n'`, having sent `sent`. */
  ghost predicate Good(cfg: Config, h: Hist, h': Hist, i: NodeId, n: Node, n': Node, sent: set<Packet>) {
    && Ready(cfg, h', i, n') && Evolves(h, h', i) && AllOk(cfg, h', sent)
    && Kept(h, h', i, n.commitIndex)
  }

  lemma WithPacket(cfg: Config, h: Hist, h': Hist, i: NodeId, n: Node, n': Node, p: Packet)
    requires Good(cfg, h, h', i, n, n', {}) && PacketOk(cfg, h', p)
    ensures Good(cfg, h, h', i, n, n', {p})
  {
  }

  lemma GoodCompose(cfg: Config, h: Hist, h1: Hist, h2: Hist, i: NodeId, n: Node, n1: Node, n2: Node, sent: set<Packet>)
    requires Good(cfg, h, h1, i, n, n1, {}) && Good(cfg, h1, h2, i, n1, n2, sent) && n.commitIndex <= n1.commitIndex
    ensures Good(cfg, h, h2, i, n, n2, sent)
  {
    EvolvesCompose(h, h1, h2, i);
  }

  lemma EvolvesSelf(h: Hist, i: NodeId)
    ensures Evolves(h, h, i)
  {
  }

  // ---- changes that touch neither log, cursors nor application ----

  ghost predicate SameCore(n: Node, n': Node) {
    && n'.id == n.id && n'.peers == n.peers && n'.timing == n.timing
    && n'.log == n.log && n'.snapshot == n.snapshot
    && n'.commitIndex == n.commitIndex && n'.lastApplied == n.lastApplied
    && n'.pendingSnapshot == n.pendingSnapshot
  }

  ghost predicate SameRole(n: Node, n': Node) {
    && n'.currentTerm == n.currentTerm && n'.votedFor == n.votedFor
    && n'.role == n.role && n'.votes == n.votes
    && n'.nextIndex == n.nextIndex && n'.matchIndex == n.matchIndex
  }

  lemma QuietNode(cfg: Config, h: Hist, i: NodeId, n: Node, n': Node)
    requires NodeOk(cfg, h, i, n) && SameCore(n, n') && SameRole(n, n')
    ensures NodeOk(cfg, h, i, n')
  {
    if n'.role == Leader {
      forall p | p in n'.peers
        ensures PeerViewOk(h, n', |h.nodes[i].full|, p)
      {
        assert PeerViewOk(h, n, |h.nodes[i].full|, p);
      }
    }
  }

  /** Node `i` follows term `t`, not older than its own. */
  ghost predicate Follows(n: Node, n': Node, t: Term) {
    && SameCore(n, n')
    && n'.role == Follower
    && n.currentTerm <= t == n'.currentTerm
    && n'.votedFor == if n.currentTerm < t then None else n.votedFor
  }

  lemma FollowTerm(cfg: Config, h: Hist, i: NodeId, n: Node, n': Node, t: Term)
    requires Ready(cfg, h, i, n) && Follows(n, n', t)
    ensures Good(cfg, h, Bump(h, i, t), i, n, n', {})
    ensures Bump(h, i, t).nodes[i].cur == t
  {
    BumpOk(cfg.servers, h, i, t);
    FollowNode(cfg, h, Bump(h, i, t), i, n, n', t);
  }

  lemma FollowNode(cfg: Config, h: Hist, h': Hist, i: NodeId, n: Node, n': Node, t: Term)
    requires RecordsOk(h) && NodeOk(cfg, h, i, n) && Follows(n, n', t)
    requires h' == Bump(h, i, t) && Evolves(h, h', i)
    ensures NodeOk(cfg, h', i, n')
  {
    SameCursors(cfg, h, h', i, n, n');
    assert (i, t) in h.voted ==> VotedOk(h, (i, t));
  }

  lemma SameCursors(cfg: Config, h: Hist, h': Hist, i: NodeId, n: Node, n': Node)
    requires i in h.nodes && i in h'.nodes && Evolves(h, h', i) && CursorsOk(cfg, h, i, n)
    requires h'.nodes[i].full == h.nodes[i].full && n.currentTerm <= n'.currentTerm && SameCore(n, n')
    ensures CursorsOk(cfg, h', i, n')
  {
    CommittedStable(cfg.servers, h, h', h.nodes[i].full, n.commitIndex, n.currentTerm, n'.currentTerm);
  }

  // ---- pre-election ----

  lemma PreElectionOk(cfg: Config, h: Hist, i: NodeId, n: Node, now: nat, timeout: nat)
    requires Ready(cfg, h, i, n)
    ensures Good(cfg, h, h, i, n, n.StartPreElection(now, timeout).0,
                 Broadcast(n, n.StartPreElection(now, timeout).1))
  {
    EvolvesSelf(h, i);
    QuietNode(cfg, h, i, n, n.StartPreElection(now, timeout).0);
  }

  // ---- standing and winning ----

  lemma {:induction false} PeersCount(peers: seq<NodeId>, set_: set<NodeId>)
    requires forall k :: 0 <= k < |peers| ==> peers[k] in set_
    requires forall p :: p in set_ ==> p in peers
    requires forall j, k :: 0 <= j < k < |peers| ==> peers[j] != peers[k]
    ensures |set_| == |peers|
  {
    if peers != [] {
      var init, last := peers[..|peers| - 1], peers[|peers| - 1];
      forall p | p in set_ - {last}
        ensures p in init
      {
        var k :| 0 <= k < |peers| && peers[k] == p;
        assert init[k] == p;
      }
      PeersCount(init, set_ - {last});
    }
  }

  lemma ClusterSize(cfg: Config, i: NodeId, n: Node)
    requires IdentityOk(cfg, i, n) && i in cfg.servers
    ensures |cfg.servers| == |n.peers| + 1
  {
    PeersCount(n.peers, cfg.servers - {i});
  }

  lemma StandGood(cfg: Config, h: Hist, i: NodeId, n: Node, now: nat, timeout: nat)
    requires Ready(cfg, h, i, n)
    ensures Good(cfg, h, Stand(h, i), i, n, n.StandForElection(now, timeout), {})
  {
    StandOk(cfg.servers, h, i);
    StandFresh(cfg, h, i, n.currentTerm + 1);
    StandNode(cfg, h, Stand(h, i), i, n, n.StandForElection(now, timeout));
  }

  lemma StandFresh(cfg: Config, h: Hist, i: NodeId, t: Term)
    requires ReignsOk(cfg.servers, h) && i in h.nodes && h.nodes[i].cur < t
    ensures t in h.reigns ==> h.reigns[t].leader != i
  {
    if t in h.reigns {
      assert ReignOk(cfg.servers, h, t);
    }
  }

  lemma StandNode(cfg: Config, h: Hist, h': Hist, i: NodeId, n: Node, n': Node)
    requires NodeOk(cfg, h, i, n) && h.nodes.Keys == cfg.servers && h' == Stand(h, i) && Evolves(h, h', i)
    requires SameCore(n, n') && n'.role == Candidate && n'.votes == {i}
    requires n'.currentTerm == n.currentTerm + 1 && n'.votedFor == Some(i)
    requires n'.currentTerm in h.reigns ==> h.reigns[n'.currentTerm].leader != i
    requires VoteSafe(cfg.servers, h', i, n'.currentTerm, h.nodes[i].full)
    ensures NodeOk(cfg, h', i, n')
  {
    SameCursors(cfg, h, h', i, n, n');
    assert VoteCounts(cfg, h', i, n'.currentTerm, i, h'.nodes[i].full);
  }

  /** A candidate with a quorum of votes becomes the leader of a term that had none. */
  lemma WinNode(cfg: Config, h: Hist, i: NodeId, n: Node) returns (h': Hist)
    requires Ready(cfg, h, i, n) && n.role == Candidate && |n.votes| >= n.Quorum()
    ensures Good(cfg, h, h', i, n, n.BecomeLeader(), {})
  {
    var t := n.currentTerm;
    assert n.votes <= cfg.servers;
    ClusterSize(cfg, i, n);
    if t in h.reigns {
      OneWinner(cfg.servers, h, i, t, n.votes);
    }
    assert Elects(cfg.servers, h, i, n.votes);
    h' := Elect(h, i, n.votes);
    ElectOk(cfg.servers, h, i, n.votes);
    WonNode(cfg, h, h', i, n);
  }

  lemma WonNode(cfg: Config, h: Hist, h': Hist, i: NodeId, n: Node)
    requires NodeOk(cfg, h, i, n) && n.role == Candidate
    requires h' == Elect(h, i, n.votes) && Evolves(h, h', i)
    ensures NodeOk(cfg, h', i, n.BecomeLeader())
  {
    var n' := n.BecomeLeader();
    SameCursors(cfg, h, h', i, n, n');
  }

  lemma MaybeWin(cfg: Config, h: Hist, i: NodeId, n: Node) returns (h': Hist)
    requires Ready(cfg, h, i, n)
    ensures Good(cfg, h, h', i, n, n.MaybeBecomeLeader(), {})
  {
    if n.role == Candidate && |n.votes| >= n.Quorum() {
      h' := WinNode(cfg, h, i, n);
    } else {
      EvolvesSelf(h, i);
      h' := h;
    }
  }

  lemma ElectionOk(cfg: Config, h: Hist, i: NodeId, n: Node, now: nat, timeout: nat) returns (h': Hist)
    requires Ready(cfg, h, i, n)
    ensures Good(cfg, h, h', i, n, n.StartElection(now, timeout).0,
                 Broadcast(n, n.StartElection(now, timeout).1))
  {
    var h1 := Stand(h, i);
    var n1 := n.StandForElection(now, timeout);
    StandGood(cfg, h, i, n, now, timeout);
    h' := MaybeWin(cfg, h1, i, n1);
    EvolvesCompose(h, h1, h', i);
    var args := n.StartElection(now, timeout).1;
    AccessorsAgree(n.log, h.nodes[i].full, |h.nodes[i].full|);
    assert VoteReqOk(h1, i, args);
    assert VoteReqOk(h', i, args);
  }

  // ---- voting ----

  lemma VoteOk(cfg: Config, h: Hist, i: NodeId, n: Node, src: NodeId, a: RequestVoteArgs, now: nat,
      timeout: nat) returns (h': Hist)
    requires Ready(cfg, h, i, n) && VoteReqOk(h, src, a) && src != i
    ensures Good(cfg, h, h', i, n, n.HandleRequestVote(a, now, timeout).0,
                 {VoteRep(n.id, src, a.preVote, n.HandleRequestVote(a, now, timeout).1)})
  {
    if !a.preVote && a.term > n.currentTerm {
      var h1, n1 := Bump(h, i, a.term), n.StepDown(a.term);
      FollowTerm(cfg, h, i, n, n1, a.term);
      assert n.HandleRequestVote(a, now, timeout) == n1.HandleRequestVote(a, now, timeout);
      h' := VoteInTerm(cfg, h1, i, n1, src, a, now, timeout);
      GoodCompose(cfg, h, h1, h', i, n, n1, n1.HandleRequestVote(a, now, timeout).0,
                  {VoteRep(n.id, src, a.preVote, n.HandleRequestVote(a, now, timeout).1)});
    } else {
      h' := VoteInTerm(cfg, h, i, n, src, a, now, timeout);
    }
  }

  lemma VoteInTerm(cfg: Config, h: Hist, i: NodeId, n: Node, src: NodeId, a: RequestVoteArgs, now: nat,
      timeout: nat) returns (h': Hist)
    requires Ready(cfg, h, i, n) && VoteReqOk(h, src, a) && src != i && (a.preVote || a.term <= n.currentTerm)
    ensures Good(cfg, h, h', i, n, n.HandleRequestVote(a, now, timeout).0,
                 {VoteRep(n.id, src, a.preVote, n.HandleRequestVote(a, now, timeout).1)})
  {
    if !a.preVote && n.HandleRequestVote(a, now, timeout).1.voteGranted {
      h' := GrantOk(cfg, h, i, n, src, a, now, timeout);
    } else {
      EvolvesSelf(h, i);
      h' := h;
    }
  }

  /** Casting the vote, after the term was adopted. */
  lemma GrantOk(cfg: Config, h: Hist, i: NodeId, n: Node, src: NodeId, a: RequestVoteArgs, now: nat,
      timeout: nat) returns (h': Hist)
    requires Ready(cfg, h, i, n) && VoteReqOk(h, src, a) && src != i && !a.preVote && a.term == n.currentTerm
    requires n.votedFor == None || n.votedFor == Some(src)
    requires n.LogIsUpToDate(a.lastLogIndex, a.lastLogTerm)
    ensures Good(cfg, h, h', i, n, n.(votedFor := Some(src)).ResetElectionDeadline(now, timeout),
                 {VoteRep(n.id, src, false, RequestVoteReply(a.term, true))})
  {
    var n' := n.(votedFor := Some(src)).ResetElectionDeadline(now, timeout);
    h' := Cast(h, i, src);
    CastGood(cfg, h, i, n, src, n');
    GrantSafe(cfg, h, h', i, n, src, a);
    WithPacket(cfg, h, h', i, n, n', VoteRep(n.id, src, false, RequestVoteReply(a.term, true)));
  }

  lemma CastGood(cfg: Config, h: Hist, i: NodeId, n: Node, src: NodeId, n': Node)
    requires Ready(cfg, h, i, n)
    requires n.votedFor == None || n.votedFor == Some(src)
    requires SameCore(n, n') && SameRole(n, n'.(votedFor := n.votedFor)) && n'.votedFor == Some(src)
    ensures Good(cfg, h, Cast(h, i, src), i, n, n', {})
  {
    CastOk(cfg.servers, h, i, src);
    CastNode(cfg, h, Cast(h, i, src), i, n, src, n');
  }

  lemma GrantSafe(cfg: Config, h: Hist, h': Hist, i: NodeId, n: Node, src: NodeId, a: RequestVoteArgs)
    requires Valid(cfg.servers, h) && i in h.nodes && DurableOk(h, i, n)
    requires VoteReqOk(h, src, a) && !a.preVote && a.term == n.currentTerm
    requires n.LogIsUpToDate(a.lastLogIndex, a.lastLogTerm)
    requires h' == Cast(h, i, src) && Evolves(h, h', i)
    ensures VoteRepOk(cfg, h', i, src, RequestVoteReply(a.term, true))
  {
    var log := h.stood[(src, a.term)];
    assert StoodOk(h, (src, a.term));
    UpToDateAgrees(n, h.nodes[i].full, a.lastLogIndex, a.lastLogTerm);
    VoteRespectsAcks(cfg.servers, h, i, log);
    VoteSafeStable(cfg.servers, h, h', i, a.term, log);
  }

  lemma UpToDateAgrees(n: Node, full: seq<LogEntry>, lastIndex: LogIndex, lastTerm: Term)
    requires Represents(n.log, full)
    ensures n.LogIsUpToDate(lastIndex, lastTerm) == UpToDate(lastIndex, lastTerm, full)
  {
    AccessorsAgree(n.log, full, |full|);
  }

  lemma CastNode(cfg: Config, h: Hist, h': Hist, i: NodeId, n: Node, src: NodeId, n': Node)
    requires RecordsOk(h) && h.nodes.Keys == cfg.servers && NodeOk(cfg, h, i, n)
    requires h' == Cast(h, i, src) && Evolves(h, h', i)
    requires SameCore(n, n') && SameRole(n, n'.(votedFor := n.votedFor)) && n'.votedFor == Some(src)
    ensures NodeOk(cfg, h', i, n')
  {
    SameCursors(cfg, h, h', i, n, n');
    SameRoleStable(cfg, h, h', i, n, n');
  }

  lemma SameRoleStable(cfg: Config, h: Hist, h': Hist, i: NodeId, n: Node, n': Node)
    requires i in h.nodes && RecordsOk(h) && Evolves(h, h', i) && RoleOk(cfg, h, i, n)
    requires h.nodes.Keys == cfg.servers && IdentityOk(cfg, i, n)
    requires h'.nodes == h.nodes && h'.reigns == h.reigns && h'.acks == h.acks
    requires SameCore(n, n') && SameRole(n, n'.(votedFor := n.votedFor))
    ensures RoleOk(cfg, h', i, n')
  {
    if n'.role == Candidate {
      CandidateStable(cfg, h, h', i, n');
    }
    if n'.role == Leader {
      forall p | p in n'.peers
        ensures PeerViewOk(h', n', |h'.nodes[i].full|, p)
      {
        assert PeerViewOk(h, n, |h.nodes[i].full|, p);
      }
    }
  }

  // ---- tallying ----

  lemma PreBallotOk(cfg: Config, h: Hist, i: NodeId, n: Node, src: NodeId, r: RequestVoteReply) returns (h': Hist)
    requires Ready(cfg, h, i, n)
    ensures Good(cfg, h, h', i, n, n.RecordPreVoteReply(src, r), {})
  {
    var n' := n.RecordPreVoteReply(src, r);
    if r.term > n.currentTerm {
      h' := Bump(h, i, r.term);
      FollowTerm(cfg, h, i, n, n', r.term);
    } else {
      EvolvesSelf(h, i);
      QuietNode(cfg, h, i, n, n');
      h' := h;
    }
  }

  lemma BallotOk(cfg: Config, h: Hist, i: NodeId, n: Node, src: NodeId, r: RequestVoteReply) returns (h': Hist)
    requires Ready(cfg, h, i, n) && VoteRepOk(cfg, h, src, i, r)
    ensures Good(cfg, h, h', i, n, n.RecordVoteReply(src, r), {})
  {
    if r.term > n.currentTerm {
      h' := Bump(h, i, r.term);
      FollowTerm(cfg, h, i, n, n.RecordVoteReply(src, r), r.term);
    } else if n.role == Candidate && r.term == n.currentTerm && r.voteGranted {
      var n1 := n.(votes := n.votes + {src});
      TallyNode(cfg, h, i, n, src);
      h' := MaybeWin(cfg, h, i, n1);
    } else {
      EvolvesSelf(h, i);
      h' := h;
    }
  }

  lemma TallyNode(cfg: Config, h: Hist, i: NodeId, n: Node, src: NodeId)
    requires NodeOk(cfg, h, i, n) && n.role == Candidate
    requires VoteCounts(cfg, h, src, n.currentTerm, i, h.nodes[i].full)
    ensures NodeOk(cfg, h, i, n.(votes := n.votes + {src}))
  {
  }
}
