/**
  The invariant tying a cluster to its history: what each node and each sent
  message means in terms of full logs, leaders' logs, votes and acknowledgements.
*/
module Invariant {
  import opened Types
  import opened Rpc
  import opened Consensus
  import opened Cluster
  import opened History
  import opened LogRefinement

  // ---- one node ----

  ghost predicate IdentityOk(cfg: Config, i: NodeId, n: Node) {
    n.id == i && PeersOf(cfg.servers, i, n.peers) && n.timing == cfg.timing
  }

  ghost predicate DurableOk(h: Hist, i: NodeId, n: Node)
    requires i in h.nodes
  {
    var m := h.nodes[i];
    && m.cur == n.currentTerm
    && m.base == n.log.snapshotIndex
    && Represents(n.log, m.full)
    && (n.votedFor == if (i, m.cur) in h.voted then Some(h.voted[(i, m.cur)]) else None)
    && (n.snapshot.None? <==> n.log.snapshotIndex == 0)
  }

  ghost predicate CursorsOk(cfg: Config, h: Hist, i: NodeId, n: Node)
    requires i in h.nodes
  {
    && n.log.snapshotIndex <= n.lastApplied <= n.commitIndex <= |h.nodes[i].full|
    && Committed(cfg.servers, h, h.nodes[i].full, n.commitIndex, n.currentTerm)
  }

  /** A vote of `v` for `c` in term `t`, cast with respect for what `v` acknowledged. */
  ghost predicate VoteCounts(cfg: Config, h: Hist, v: NodeId, t: Term, c: NodeId, log: seq<LogEntry>) {
    && v in cfg.servers
    && (v, t) in h.voted && h.voted[(v, t)] == c
    && VoteSafe(cfg.servers, h, v, t, log)
  }

  ghost predicate CandidateOk(cfg: Config, h: Hist, i: NodeId, n: Node)
    requires i in h.nodes
  {
    var t := n.currentTerm;
    && (i, t) in h.stood && h.stood[(i, t)] == h.nodes[i].full
    && (t in h.reigns ==> h.reigns[t].leader != i)
    && forall v :: v in n.votes ==> VoteCounts(cfg, h, v, t, i, h.nodes[i].full)
  }

  /** What the leader believes about `p` above its commit index, `p` acknowledged. */
  ghost predicate PeerViewOk(h: Hist, n: Node, last: LogIndex, p: NodeId) {
    && p in n.nextIndex && 1 <= n.nextIndex[p] <= last + 1
    && p in n.matchIndex && n.matchIndex[p] <= last
    && n.matchIndex[p] <= Max(n.commitIndex, Ack(h, p, n.currentTerm))
  }

  ghost predicate LeaderOk(h: Hist, i: NodeId, n: Node)
    requires i in h.nodes
  {
    var t := n.currentTerm;
    && t in h.reigns && h.reigns[t].leader == i
    && h.reigns[t].log == h.nodes[i].full
    && Ack(h, i, t) == |h.nodes[i].full|
    && forall p :: p in n.peers ==> PeerViewOk(h, n, |h.nodes[i].full|, p)
  }

  ghost predicate RoleOk(cfg: Config, h: Hist, i: NodeId, n: Node)
    requires i in h.nodes
  {
    && (n.role == Candidate ==> CandidateOk(cfg, h, i, n))
    && (n.role == Leader ==> LeaderOk(h, i, n))
  }

  ghost predicate NodeOk(cfg: Config, h: Hist, i: NodeId, n: Node) {
    && i in h.nodes
    && IdentityOk(cfg, i, n)
    && DurableOk(h, i, n)
    && CursorsOk(cfg, h, i, n)
    && RoleOk(cfg, h, i, n)
  }

  // ---- one message ----

  ghost predicate VoteReqOk(h: Hist, src: NodeId, a: RequestVoteArgs) {
    && a.candidateId == src
    && (!a.preVote ==>
          && (src, a.term) in h.stood
          && a.lastLogIndex == |h.stood[(src, a.term)]|
          && a.lastLogTerm == PlainTerm(h.stood[(src, a.term)], |h.stood[(src, a.term)]|))
  }

  ghost predicate VoteRepOk(cfg: Config, h: Hist, src: NodeId, dst: NodeId, r: RequestVoteReply) {
    r.voteGranted ==> (dst, r.term) in h.stood && VoteCounts(cfg, h, src, r.term, dst, h.stood[(dst, r.term)])
  }

  ghost predicate AppendReqOk(cfg: Config, h: Hist, src: NodeId, a: AppendEntriesArgs) {
    && a.leaderId == src
    && a.term in h.reigns && h.reigns[a.term].leader == src
    && var log := h.reigns[a.term].log;
    && a.prevLogIndex + |a.entries| <= |log|
    && a.entries == log[a.prevLogIndex..a.prevLogIndex + |a.entries|]
    && a.prevLogTerm == PlainTerm(log, a.prevLogIndex)
    && a.leaderCommit <= a.prevLogIndex + |a.entries|
    && Committed(cfg.servers, h, log, a.leaderCommit, a.term)
  }

  ghost predicate AppendRepOk(h: Hist, src: NodeId, r: AppendEntriesReply, hint: LogIndex) {
    && (r.success ==> r.term in h.reigns && hint <= |h.reigns[r.term].log| && hint <= Ack(h, src, r.term))
    && (!r.success && r.conflictIndex.Some? ==> r.term in h.reigns && r.conflictIndex.value <= |h.reigns[r.term].log|)
  }

  ghost predicate InstallReqOk(cfg: Config, h: Hist, src: NodeId, a: InstallSnapshotArgs) {
    && a.leaderId == src
    && a.term in h.reigns && h.reigns[a.term].leader == src
    && var log := h.reigns[a.term].log;
    && a.lastIncludedIndex <= |log|
    && a.lastIncludedTerm == PlainTerm(log, a.lastIncludedIndex)
    && Committed(cfg.servers, h, log, a.lastIncludedIndex, a.term)
    && src in h.nodes && a.lastIncludedIndex <= h.nodes[src].base
  }

  /** A snapshot once shipped stays within the sender's own compacted prefix. */
  ghost predicate InstallRepOk(h: Hist, dst: NodeId, lastIncluded: LogIndex) {
    dst in h.nodes && lastIncluded <= h.nodes[dst].base
  }

  ghost predicate PacketOk(cfg: Config, h: Hist, p: Packet) {
    && p.src in cfg.servers && p.src != p.dst
    && match p
       case VoteReq(src, _, a) => VoteReqOk(h, src, a)
       case VoteRep(src, dst, pre, r) => pre || VoteRepOk(cfg, h, src, dst, r)
       case AppendReq(src, _, a) => AppendReqOk(cfg, h, src, a)
       case AppendRep(src, _, r, hint) => AppendRepOk(h, src, r, hint)
       case InstallReq(src, _, a) => InstallReqOk(cfg, h, src, a)
       case InstallRep(_, dst, _, lastIncluded) => InstallRepOk(h, dst, lastIncluded)
  }

  // ---- the cluster ----

  ghost predicate Inv(cfg: Config, c: Cluster, h: Hist) {
    && Valid(cfg.servers, h)
    && c.hosts.Keys == cfg.servers
    && (forall i :: i in c.hosts ==> NodeOk(cfg, h, i, c.hosts[i].node))
    && (forall p :: p in c.net ==> PacketOk(cfg, h, p))
  }

  // ---- what a step of another node leaves in place ----

  lemma VoteCountsStable(cfg: Config, h: Hist, h': Hist, v: NodeId, t: Term, c: NodeId, log: seq<LogEntry>)
    requires Later(h, h') && RecordsOk(h) && VoteCounts(cfg, h, v, t, c, log)
    ensures VoteCounts(cfg, h', v, t, c, log)
  {
    VoteSafeStable(cfg.servers, h, h', v, t, log);
  }

  lemma CandidateStable(cfg: Config, h: Hist, h': Hist, j: NodeId, n: Node)
    requires Later(h, h') && RecordsOk(h) && j in h.nodes && h'.nodes[j].full == h.nodes[j].full
    requires CandidateOk(cfg, h, j, n)
    requires n.currentTerm in h'.reigns ==> h'.reigns[n.currentTerm].leader != j
    ensures CandidateOk(cfg, h', j, n)
  {
    forall v | v in n.votes
      ensures VoteCounts(cfg, h', v, n.currentTerm, j, h'.nodes[j].full)
    {
      VoteCountsStable(cfg, h, h', v, n.currentTerm, j, h.nodes[j].full);
    }
  }

  lemma LeaderStable(h: Hist, h': Hist, j: NodeId, n: Node)
    requires Later(h, h') && j in h.nodes && h'.nodes[j].full == h.nodes[j].full
    requires LeaderOk(h, j, n) && Ack(h', j, n.currentTerm) == Ack(h, j, n.currentTerm)
    requires h'.reigns[n.currentTerm] == h.reigns[n.currentTerm]
    requires forall p :: p in n.peers ==> p in h.nodes
    ensures LeaderOk(h', j, n)
  {
  }

  lemma OtherNodeStable(cfg: Config, h: Hist, h': Hist, i: NodeId, j: NodeId, n: Node)
    requires Evolves(h, h', i) && RecordsOk(h) && h.nodes.Keys == cfg.servers
    requires j != i && NodeOk(cfg, h, j, n)
    ensures NodeOk(cfg, h', j, n)
  {
    CommittedStable(cfg.servers, h, h', h.nodes[j].full, n.commitIndex, n.currentTerm, n.currentTerm);
    if n.role == Candidate {
      CandidateStable(cfg, h, h', j, n);
    }
    if n.role == Leader {
      LeaderStable(h, h', j, n);
    }
  }

  lemma AppendReqStable(cfg: Config, h: Hist, h': Hist, src: NodeId, a: AppendEntriesArgs)
    requires Later(h, h') && AppendReqOk(cfg, h, src, a)
    ensures AppendReqOk(cfg, h', src, a)
  {
    var log, log' := h.reigns[a.term].log, h'.reigns[a.term].log;
    CommittedStable(cfg.servers, h, h', log, a.leaderCommit, a.term, a.term);
    CommittedOver(cfg.servers, h', log, log', a.leaderCommit, a.term);
  }

  lemma CommittedOver(s: set<NodeId>, h: Hist, log: seq<LogEntry>, log': seq<LogEntry>, k: nat, t: Term)
    requires Committed(s, h, log, k, t) && Agree(log, log', k)
    ensures Committed(s, h, log', k, t)
  {
    if k != 0 {
      var ct: Term, n: nat :| ct <= t && CommittedIn(s, h, log, k, ct, n);
      assert CommittedIn(s, h, log', k, ct, n);
    }
  }

  lemma InstallReqStable(cfg: Config, h: Hist, h': Hist, src: NodeId, a: InstallSnapshotArgs)
    requires Later(h, h') && InstallReqOk(cfg, h, src, a)
    ensures InstallReqOk(cfg, h', src, a)
  {
    var log, log' := h.reigns[a.term].log, h'.reigns[a.term].log;
    CommittedStable(cfg.servers, h, h', log, a.lastIncludedIndex, a.term, a.term);
    CommittedOver(cfg.servers, h', log, log', a.lastIncludedIndex, a.term);
  }

  lemma PacketStable(cfg: Config, h: Hist, h': Hist, p: Packet)
    requires Later(h, h') && RecordsOk(h) && h.nodes.Keys == cfg.servers && PacketOk(cfg, h, p)
    ensures PacketOk(cfg, h', p)
  {
    match p
    case VoteReq(_, _, _) =>
    case VoteRep(src, dst, pre, r) =>
      if !pre && r.voteGranted {
        VoteCountsStable(cfg, h, h', src, r.term, dst, h.stood[(dst, r.term)]);
      }
    case AppendReq(src, _, a) => AppendReqStable(cfg, h, h', src, a);
    case AppendRep(src, _, r, hint) =>
      assert Ack(h, src, r.term) <= Ack(h', src, r.term);
    case InstallReq(src, _, a) => InstallReqStable(cfg, h, h', src, a);
    case InstallRep(_, _, _, _) =>
  }
}
