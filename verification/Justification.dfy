/**
  Why a leader may count a peer: above its commit index, `match_index` is only ever
  set by a peer's own acceptance in the leader's current term.  Replies of earlier
  leaderships and flagless InstallSnapshot replies never reach that far.
*/
module Justification {
  import opened Types
  import opened Rpc
  import opened Consensus
  import opened Cluster
  import opened History
  import opened HistorySteps
  import opened LogRefinement
  import opened Invariant
  import opened ElectionSteps
  import opened ReplicationSteps
  import opened Runs
  import opened LogTheorems

  /** A reply of `p` to `i` accepting entries of term `t` through `m` was sent. */
  ghost predicate Acceptance(p: Packet, src: NodeId, dst: NodeId, t: Term, m: LogIndex) {
    p.AppendRep? && p.src == src && p.dst == dst && p.answer.success && p.answer.term == t && p.matchHint == m
  }

  ghost predicate Backed(net: set<Packet>, i: NodeId, n: Node, p: NodeId)
    requires p in n.matchIndex
  {
    n.matchIndex[p] <= n.commitIndex || exists q :: q in net && Acceptance(q, p, i, n.currentTerm, n.matchIndex[p])
  }

  /** Everything a leader believes about its peers above its commit index is backed by an acceptance. */
  ghost predicate Justified(net: set<Packet>, i: NodeId, n: Node) {
    n.role == Leader ==> forall p :: p in n.matchIndex ==> Backed(net, i, n, p)
  }

  ghost predicate AllJustified(c: Cluster) {
    forall i {:trigger Justified(c.net, i, c.hosts[i].node)} :: i in c.hosts ==> Justified(c.net, i, c.hosts[i].node)
  }

  // ---- how one step moves the leader's view ----

  /** Beliefs about peers other than `p` are unchanged, as are term and role. */
  ghost predicate OnlyPeer(n: Node, n': Node, p: NodeId) {
    && n.role == Leader && n'.currentTerm == n.currentTerm && n.commitIndex <= n'.commitIndex
    && n'.matchIndex.Keys <= n.matchIndex.Keys + {p}
    && forall q :: q in n'.matchIndex && q != p ==> q in n.matchIndex && n'.matchIndex[q] == n.matchIndex[q]
  }

  ghost predicate SameView(n: Node, n': Node) {
    n.role == Leader && n'.currentTerm == n.currentTerm && n.commitIndex <= n'.commitIndex && n'.matchIndex == n.matchIndex
  }

  ghost predicate FreshView(n: Node) {
    forall q :: q in n.matchIndex ==> n.matchIndex[q] == 0
  }

  lemma SameViewJustified(net: set<Packet>, net': set<Packet>, i: NodeId, n: Node, n': Node)
    requires Justified(net, i, n) && net <= net' && SameView(n, n')
    ensures Justified(net', i, n')
  {
    forall p | p in n'.matchIndex
      ensures Backed(net', i, n', p)
    {
      assert Backed(net, i, n, p);
    }
  }

  lemma AdvancedJustified(net: set<Packet>, i: NodeId, n: Node, n': Node, p: NodeId, hint: LogIndex)
    requires Justified(net, i, n) && OnlyPeer(n, n', p) && p in n'.matchIndex
    requires n'.matchIndex[p] == Max(n.MatchFor(p), hint)
    requires hint <= n.commitIndex || exists q :: q in net && Acceptance(q, p, i, n.currentTerm, hint)
    ensures Justified(net, i, n')
  {
    forall q | q in n'.matchIndex
      ensures Backed(net, i, n', q)
    {
      if q in n.matchIndex {
        assert Backed(net, i, n, q);
      }
    }
  }

  lemma AdvancePeerView(n: Node, p: NodeId, hint: LogIndex)
    requires n.role == Leader
    ensures var n' := n.AdvancePeer(p, hint); OnlyPeer(n, n', p) && p in n'.matchIndex && n'.matchIndex[p] == Max(n.MatchFor(p), hint)
  {
  }

  /** The steps of a node that is and stays leader without hearing from a peer. */
  lemma OtherSteps(cfg: Config, x: Host, step: Step)
    requires Guard(cfg, x, step) && !step.DeliverAppendRep? && !step.DeliverInstallRep?
    requires Act(cfg, x, step).0.node.role == Leader
    ensures SameView(x.node, Act(cfg, x, step).0.node) || FreshView(Act(cfg, x, step).0.node)
  {
    if step.DeliverVoteRep? || step.TickElection? {
      WinningSteps(cfg, x, step);
    } else if step.Propose? {
      assert x.node.commitIndex <= x.node.SubmitCommand(step.command).0.commitIndex;
    } else if step.DeliverAppendReq? || step.DeliverInstallReq? || step.DeliverVoteReq? {
      RequestedLeader(cfg, x, step);
    }
  }

  /** A node that is leader after a request took no notice of it. */
  lemma RequestedLeader(cfg: Config, x: Host, step: Step)
    requires Guard(cfg, x, step) && (step.DeliverAppendReq? || step.DeliverInstallReq? || step.DeliverVoteReq?)
    requires Act(cfg, x, step).0.node.role == Leader
    ensures SameView(x.node, Act(cfg, x, step).0.node)
  {
  }

  lemma WinningSteps(cfg: Config, x: Host, step: Step)
    requires Guard(cfg, x, step) && (step.DeliverVoteRep? || step.TickElection?)
    requires Act(cfg, x, step).0.node.role == Leader
    ensures SameView(x.node, Act(cfg, x, step).0.node) || FreshView(Act(cfg, x, step).0.node)
  {
  }

  lemma ReplyStep(cfg: Config, x: Host, step: Step)
    requires Guard(cfg, x, step) && (step.DeliverAppendRep? || step.DeliverInstallRep?)
    requires Act(cfg, x, step).0.node.role == Leader
    ensures x.node.role == Leader
    ensures var n, n' := x.node, Act(cfg, x, step).0.node;
            || SameView(n, n')
            || (step.DeliverAppendRep? && step.packet.answer.success && step.packet.answer.term == n.currentTerm
                && n' == n.AdvancePeer(step.packet.src, step.packet.matchHint))
            || (step.DeliverInstallRep? && n' == n.AdvancePeer(step.packet.src, step.packet.lastIncluded))
  {
  }

  lemma HostJustified(cfg: Config, net: set<Packet>, i: NodeId, x: Host, step: Step)
    requires Justified(net, i, x.node) && Guard(cfg, x, step)
    requires Delivers(step) ==> step.packet in net && step.packet.dst == i
    requires step.DeliverInstallRep? ==> step.packet.lastIncluded <= x.node.commitIndex
    ensures Justified(net, i, Act(cfg, x, step).0.node)
  {
    var n, n' := x.node, Act(cfg, x, step).0.node;
    if n'.role == Leader {
      if step.DeliverAppendRep? || step.DeliverInstallRep? {
        ReplyStep(cfg, x, step);
        if SameView(n, n') {
          SameViewJustified(net, net, i, n, n');
        } else {
          var p, hint := step.packet.src, if step.DeliverAppendRep? then step.packet.matchHint else step.packet.lastIncluded;
          assert step.DeliverAppendRep? ==> Acceptance(step.packet, p, i, n.currentTerm, hint);
          AdvancePeerView(n, p, hint);
          AdvancedJustified(net, i, n, n', p, hint);
        }
      } else {
        OtherSteps(cfg, x, step);
        if SameView(n, n') {
          SameViewJustified(net, net, i, n, n');
        }
      }
    }
  }

  lemma MoreNetJustified(net: set<Packet>, net': set<Packet>, i: NodeId, n: Node)
    requires Justified(net, i, n) && net <= net'
    ensures Justified(net', i, n)
  {
    if n.role == Leader {
      SameViewJustified(net, net', i, n, n);
    }
  }

  // ---- the cluster ----

  lemma JustifiedNext(cfg: Config, c: Cluster, h: Hist, step: Step, c': Cluster)
    requires Inv(cfg, c, h) && AllJustified(c) && StepsTo(cfg, c, step, c')
    ensures AllJustified(c')
  {
    var i, x := step.at, c.hosts[step.at];
    assert Justified(c.net, i, x.node);
    assert NodeOk(cfg, h, i, x.node);
    InstallRepBound(cfg, h, i, x.node, c.net, step);
    HostJustified(cfg, c.net, i, x, step);
    var (x', sent) := Act(cfg, x, step);
    JustifiedAssembled(c, i, x', sent);
  }

  lemma InstallRepBound(cfg: Config, h: Hist, i: NodeId, n: Node, net: set<Packet>, step: Step)
    requires NodeOk(cfg, h, i, n) && (forall p :: p in net ==> PacketOk(cfg, h, p))
    requires Delivers(step) ==> step.packet in net && step.packet.dst == i
    ensures step.DeliverInstallRep? && step.packet.InstallRep? ==> step.packet.lastIncluded <= n.commitIndex
  {
    if step.DeliverInstallRep? && step.packet.InstallRep? {
      assert PacketOk(cfg, h, step.packet);
    }
  }

  lemma JustifiedAssembled(c: Cluster, i: NodeId, x': Host, sent: set<Packet>)
    requires AllJustified(c) && Justified(c.net, i, x'.node)
    ensures AllJustified(Cluster(c.hosts[i := x'], c.net + sent))
  {
    var c' := Cluster(c.hosts[i := x'], c.net + sent);
    forall j | j in c'.hosts
      ensures Justified(c'.net, j, c'.hosts[j].node)
    {
      if j != i {
        assert Justified(c.net, j, c.hosts[j].node);
      }
      MoreNetJustified(c.net, c'.net, j, c'.hosts[j].node);
    }
  }

  lemma {:induction false} ReachJustified(cfg: Config, r: Run, k: nat)
    requires IsRun(cfg, r) && k < |r.states|
    ensures AllJustified(r.states[k])
  {
    if k == 0 {
      InitJustified(cfg, r.states[0]);
    } else {
      ReachJustified(cfg, r, k - 1);
      JustifiedStep(cfg, r, k - 1);
    }
  }

  lemma JustifiedStep(cfg: Config, r: Run, k: nat)
    requires IsRun(cfg, r) && k < |r.steps| && AllJustified(r.states[k])
    ensures AllJustified(r.states[k + 1])
  {
    var h := Reach(cfg, r, k);
    assert StepAt(cfg, r, k);
    JustifiedNext(cfg, r.states[k], h, r.steps[k], r.states[k + 1]);
  }

  lemma InitJustified(cfg: Config, c: Cluster)
    requires Init(cfg, c)
    ensures AllJustified(c)
  {
    forall i | i in c.hosts
      ensures Justified(c.net, i, c.hosts[i].node)
    {
      assert Booted(cfg, i, c.hosts[i]);
    }
  }

  // ---- where an acceptance comes from ----

  /** Step `j` of the run is node `p` accepting entries of `i`, leader of term `t`, through `m`. */
  ghost predicate Accepts(cfg: Config, r: Run, j: nat, p: NodeId, i: NodeId, t: Term, m: LogIndex)
    requires IsRun(cfg, r)
  {
    && j < |r.steps| && r.steps[j].DeliverAppendReq? && r.steps[j].at == p
    && p in r.states[j].hosts
    && r.steps[j].packet in r.states[j].net && r.steps[j].packet.AppendReq? && r.steps[j].packet.src == i
    && var a := r.steps[j].packet.append;
    && a.term == t && a.prevLogIndex + |a.entries| == m
    && r.states[j].hosts[p].node.currentTerm <= t
    && r.states[j].hosts[p].node.PrevMatches(a)
    && p in r.states[j + 1].hosts
    && r.states[j + 1].hosts[p].node.log == Splice(r.states[j].hosts[p].node.log, a.prevLogIndex, a.entries)
  }

  lemma {:induction false} AcceptanceSent(cfg: Config, r: Run, k: nat, q: Packet, p: NodeId, i: NodeId, t: Term,
      m: LogIndex) returns (j: nat)
    requires IsRun(cfg, r) && k < |r.states| && q in r.states[k].net && Acceptance(q, p, i, t, m)
    ensures j < k && Accepts(cfg, r, j, p, i, t, m)
  {
    if k == 0 {
      assert false;
    } else if q in r.states[k - 1].net {
      j := AcceptanceSent(cfg, r, k - 1, q, p, i, t, m);
    } else {
      j := k - 1;
      AcceptanceStep(cfg, r, j, q, p, i, t, m);
    }
  }

  lemma NamedById(cfg: Config, r: Run, k: nat, i: NodeId)
    requires IsRun(cfg, r) && k < |r.states| && i in r.states[k].hosts
    ensures r.states[k].hosts[i].node.id == i
  {
    var h := ReachNode(cfg, r, k, i, r.states[k].hosts[i].node);
  }

  lemma AcceptanceStep(cfg: Config, r: Run, j: nat, q: Packet, p: NodeId, i: NodeId, t: Term, m: LogIndex)
    requires IsRun(cfg, r) && j < |r.steps| && q in r.states[j + 1].net && q !in r.states[j].net
    requires Acceptance(q, p, i, t, m)
    ensures Accepts(cfg, r, j, p, i, t, m)
  {
    assert StepAt(cfg, r, j);
    NamedById(cfg, r, j, r.steps[j].at);
    AcceptanceIs(cfg, r.states[j].hosts[r.steps[j].at], r.steps[j], q, p, i, t, m);
  }

  lemma AcceptanceIs(cfg: Config, x: Host, step: Step, q: Packet, p: NodeId, i: NodeId, t: Term, m: LogIndex)
    requires Guard(cfg, x, step) && q in Act(cfg, x, step).1 && Acceptance(q, p, i, t, m)
    ensures step.DeliverAppendReq? && p == x.node.id && step.packet.src == i
    ensures var a, n := step.packet.append, x.node;
            && a.term == t && a.prevLogIndex + |a.entries| == m && n.currentTerm <= t && n.PrevMatches(a)
            && Act(cfg, x, step).0.node.log == Splice(n.log, a.prevLogIndex, a.entries)
  {
  }

  // ---- the theorem ----

  /** A log that adopted `leader` through `m` shows the same entries as any log extending `leader`. */
  lemma AdoptedShows(log: Log, full: seq<LogEntry>, leader: seq<LogEntry>, m: LogIndex, lead: Log,
      leadFull: seq<LogEntry>)
    requires m <= |leader| && leader <= leadFull && Represents(log, Adopted(full, leader, m)) && Represents(lead, leadFull)
    ensures m <= log.LastIndex() && SameBelow(log, lead, m)
  {
    PlainAgreementShows(log, Adopted(full, leader, m), lead, leadFull, m);
  }

  /** After an accepted append the follower's log is the leader's through the last entry sent. */
  lemma AcceptedAgrees(cfg: Config, h: Hist, p: NodeId, n: Node, a: AppendEntriesArgs, m: LogIndex, log: Log,
      lead: Log, leadFull: seq<LogEntry>)
    requires Valid(cfg.servers, h) && p in h.nodes && DurableOk(h, p, n) && CursorsOk(cfg, h, p, n)
    requires a.term == n.currentTerm && AppendReqOk(cfg, h, a.leaderId, a) && n.PrevMatches(a)
    requires m == a.prevLogIndex + |a.entries| && log == Splice(n.log, a.prevLogIndex, a.entries)
    requires h.reigns[a.term].log <= leadFull && Represents(lead, leadFull)
    ensures m <= log.LastIndex() && SameBelow(log, lead, m)
  {
    AcceptedLog(cfg, h, p, n, a, m, log);
    AdoptedShows(log, h.nodes[p].full, h.reigns[a.term].log, m, lead, leadFull);
  }

  lemma YieldedAgrees(cfg: Config, h: Hist, p: NodeId, n: Node, n1: Node, a: AppendEntriesArgs, m: LogIndex,
      log: Log, lead: Log, leadFull: seq<LogEntry>)
    requires Ready(cfg, h, p, n) && AppendReqOk(cfg, h, a.leaderId, a) && Follows(n, n1, a.term) && n1.PrevMatches(a)
    requires m == a.prevLogIndex + |a.entries| && log == Splice(n1.log, a.prevLogIndex, a.entries)
    requires h.reigns[a.term].log <= leadFull && Represents(lead, leadFull)
    ensures m <= log.LastIndex() && SameBelow(log, lead, m)
  {
    var h1 := Yielded(cfg, h, p, n, n1, a);
    AcceptedAgrees(cfg, h1, p, n1, a, m, log, lead, leadFull);
  }

  lemma Yielded(cfg: Config, h: Hist, p: NodeId, n: Node, n1: Node, a: AppendEntriesArgs) returns (h1: Hist)
    requires Ready(cfg, h, p, n) && AppendReqOk(cfg, h, a.leaderId, a) && Follows(n, n1, a.term)
    ensures Valid(cfg.servers, h1) && NodeOk(cfg, h1, p, n1) && AppendReqOk(cfg, h1, a.leaderId, a) && h1.reigns == h.reigns
    ensures Later(h, h1) && h1.nodes[p].full == h.nodes[p].full
  {
    h1 := Bump(h, p, a.term);
    FollowTerm(cfg, h, p, n, n1, a.term);
    AppendReqStable(cfg, h, h1, a.leaderId, a);
  }

  lemma YieldKeepsCheck(n: Node, a: AppendEntriesArgs)
    requires n.currentTerm <= a.term && n.PrevMatches(a)
    ensures var n1 := n.YieldTo(a.term, a.leaderId, 0, 0); Follows(n, n1, a.term) && n1.PrevMatches(a) && n1.log == n.log
  {
  }

  lemma AcceptedSame(cfg: Config, h: Hist, p: NodeId, n: Node, a: AppendEntriesArgs, m: LogIndex, log: Log,
      lead: Log, leadFull: seq<LogEntry>)
    requires Ready(cfg, h, p, n) && AppendReqOk(cfg, h, a.leaderId, a) && n.currentTerm <= a.term && n.PrevMatches(a)
    requires m == a.prevLogIndex + |a.entries| && log == Splice(n.log, a.prevLogIndex, a.entries)
    requires h.reigns[a.term].log <= leadFull && Represents(lead, leadFull)
    ensures m <= log.LastIndex() && SameBelow(log, lead, m)
  {
    YieldKeepsCheck(n, a);
    YieldedAgrees(cfg, h, p, n, n.YieldTo(a.term, a.leaderId, 0, 0), a, m, log, lead, leadFull);
  }

  lemma ReignExtends(h: Hist, h': Hist, t: Term)
    requires ReignsGrow(h, h') && t in h.reigns
    ensures h.reigns[t].log <= h'.reigns[t].log
  {
  }

  lemma AcceptsAgree(cfg: Config, r: Run, j: nat, p: NodeId, k: nat, i: NodeId, n: Node, m: LogIndex)
    requires IsRun(cfg, r) && j < k && IsNode(r, k, i, n) && n.role == Leader
    requires Accepts(cfg, r, j, p, i, n.currentTerm, m)
    ensures m <= r.states[j + 1].hosts[p].node.log.LastIndex()
    ensures SameBelow(r.states[j + 1].hosts[p].node.log, n.log, m)
  {
    var hj, hk := ReachBoth(cfg, r, j, k);
    NodeReached(cfg, r.states[j], hj, p);
    NodeReached(cfg, r.states[k], hk, i);
    PacketReached(cfg, r.states[j], hj, r.steps[j].packet);
    ReignExtends(hj, hk, n.currentTerm);
    AcceptedSame(cfg, hj, p, r.states[j].hosts[p].node, r.steps[j].packet.append, m,
                 r.states[j + 1].hosts[p].node.log, n.log, hk.nodes[i].full);
  }

  lemma PacketReached(cfg: Config, c: Cluster, h: Hist, p: Packet)
    requires Sound(cfg, c, h) && p in c.net
    ensures PacketOk(cfg, h, p)
  {
  }

  /**
    Commit justification: a peer counted for an index above the commit index accepted
    the leader's own entries through that index in the leader's current term, and then
    held the leader's log that far.
  */
  lemma CountedPeerAccepted(cfg: Config, r: Run, k: nat, i: NodeId, n: Node, p: NodeId, m: LogIndex)
      returns (j: nat, last: LogIndex)
    requires IsRun(cfg, r) && IsNode(r, k, i, n) && n.role == Leader
    requires p in n.matchIndex && n.commitIndex < m <= n.matchIndex[p]
    ensures j < k && m <= last && Accepts(cfg, r, j, p, i, n.currentTerm, last)
    ensures last <= r.states[j + 1].hosts[p].node.log.LastIndex()
    ensures SameBelow(r.states[j + 1].hosts[p].node.log, n.log, last)
  {
    ReachJustified(cfg, r, k);
    assert Justified(r.states[k].net, i, r.states[k].hosts[i].node) && Backed(r.states[k].net, i, n, p);
    last := n.matchIndex[p];
    var q :| q in r.states[k].net && Acceptance(q, p, i, n.currentTerm, last);
    j := AcceptanceSent(cfg, r, k, q, p, i, n.currentTerm, last);
    AcceptsAgree(cfg, r, j, p, k, i, n, last);
  }

  // ---- the follower's commit rule ----

  lemma AcceptedReaches(cfg: Config, h: Hist, p: NodeId, n: Node, a: AppendEntriesArgs, log: Log)
    requires Ready(cfg, h, p, n) && AppendReqOk(cfg, h, a.leaderId, a) && n.currentTerm <= a.term && n.PrevMatches(a)
    requires log == Splice(n.log, a.prevLogIndex, a.entries)
    ensures a.leaderCommit <= a.prevLogIndex + |a.entries| <= log.LastIndex()
  {
    var full := h.reigns[a.term].log;
    AcceptedSame(cfg, h, p, n, a, a.prevLogIndex + |a.entries|, log, Log(full, 0, 0), full);
  }

  lemma FollowsCommit(n: Node, a: AppendEntriesArgs, now: nat, timeout: nat)
    requires n.currentTerm <= a.term && n.PrevMatches(a)
    requires a.leaderCommit <= Splice(n.log, a.prevLogIndex, a.entries).LastIndex()
    ensures n.HandleAppendEntries(a, now, timeout).0.commitIndex == Max(n.commitIndex, a.leaderCommit)
  {
  }

  /**
    `min(leader_commit, last_index)` never cuts: a follower that accepts entries commits
    exactly what the leader had committed, all of it within the entries the two agree on.
  */
  lemma FollowerCommitsAsLeader(cfg: Config, r: Run, j: nat, p: NodeId, i: NodeId, t: Term, m: LogIndex)
    requires IsRun(cfg, r) && Accepts(cfg, r, j, p, i, t, m)
    ensures r.steps[j].packet.append.leaderCommit <= m <= r.states[j + 1].hosts[p].node.log.LastIndex()
    ensures r.states[j + 1].hosts[p].node.commitIndex == Max(r.states[j].hosts[p].node.commitIndex, r.steps[j].packet.append.leaderCommit)
  {
    AcceptanceReaches(cfg, r, j, p, i, t, m);
    assert StepAt(cfg, r, j);
    FollowsCommit(r.states[j].hosts[p].node, r.steps[j].packet.append, r.steps[j].now, r.steps[j].timeout);
  }

  lemma AcceptanceReaches(cfg: Config, r: Run, j: nat, p: NodeId, i: NodeId, t: Term, m: LogIndex)
    requires IsRun(cfg, r) && Accepts(cfg, r, j, p, i, t, m)
    ensures r.steps[j].packet.append.leaderCommit <= m <= r.states[j + 1].hosts[p].node.log.LastIndex()
  {
    var h := Reach(cfg, r, j);
    NodeReached(cfg, r.states[j], h, p);
    PacketReached(cfg, r.states[j], h, r.steps[j].packet);
    AcceptedReaches(cfg, h, p, r.states[j].hosts[p].node, r.steps[j].packet.append, r.states[j + 1].hosts[p].node.log);
  }
}
