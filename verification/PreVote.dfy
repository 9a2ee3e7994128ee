/**
  PreVote: a proposed term is never adopted, so terms come from elections alone, and
  no election starts while a quorum keeps hearing from a leader.
*/
module PreVote {
  import opened Types
  import opened Quorums
  import opened Rpc
  import opened Consensus
  import opened Cluster
  import opened Invariant
  import opened ElectionSteps
  import opened Runs
  import opened LogTheorems

  // ---- where terms come from ----

  /** Term 0, or a term that a node entered by starting an election before state `k`. */
  ghost predicate Origin(r: Run, k: nat, t: Term) {
    t == 0 || exists m: nat :: ElectsAt(r, m, t) && m < k
  }

  ghost predicate ElectsAt(r: Run, m: nat, t: Term) {
    && m < |r.steps| && m < |r.states| && r.steps[m].TickElection?
    && r.steps[m].at in r.states[m].hosts && r.states[m].hosts[r.steps[m].at].node.currentTerm + 1 == t
  }

  /** The term a receiver of the message may adopt. */
  function CarriedTerm(p: Packet): Option<Term> {
    match p
    case VoteReq(_, _, a) => if a.preVote then None else Some(a.term)
    case VoteRep(_, _, _, b) => Some(b.term)
    case AppendReq(_, _, a) => Some(a.term)
    case AppendRep(_, _, b, _) => Some(b.term)
    case InstallReq(_, _, a) => Some(a.term)
    case InstallRep(_, _, b, _) => Some(b.term)
  }

  ghost predicate TermsFrom(c: Cluster, ok: Term -> bool) {
    && (forall i :: i in c.hosts ==> ok(c.hosts[i].node.currentTerm))
    && (forall p :: p in c.net && CarriedTerm(p).Some? ==> ok(CarriedTerm(p).value))
  }

  /** A step leaves a node in its own term, in the term a message carried, or in the term it stands for. */
  ghost predicate TermMoves(t: Term, step: Step, t': Term) {
    || t' == t
    || (step.TickElection? && t' == t + 1)
    || (Delivers(step) && CarriedTerm(step.packet) == Some(t'))
  }

  // A delivery takes the receiver to the larger of the two terms, unless it is a pre-vote request.

  lemma TermAfterVote(n: Node, a: RequestVoteArgs, now: nat, timeout: nat)
    ensures n.HandleRequestVote(a, now, timeout).0.currentTerm == if a.preVote then n.currentTerm else Max(n.currentTerm, a.term)
  {
  }

  lemma TermAfterAppend(n: Node, a: AppendEntriesArgs, now: nat, timeout: nat)
    ensures n.HandleAppendEntries(a, now, timeout).0.currentTerm == Max(n.currentTerm, a.term)
  {
  }

  lemma TermAfterInstall(n: Node, a: InstallSnapshotArgs, now: nat, timeout: nat)
    ensures n.HandleInstallSnapshot(a, now, timeout).0.currentTerm == Max(n.currentTerm, a.term)
  {
  }

  lemma TermAfterBallot(n: Node, p: NodeId, r: RequestVoteReply)
    ensures n.RecordPreVoteReply(p, r).currentTerm == n.RecordVoteReply(p, r).currentTerm == Max(n.currentTerm, r.term)
  {
  }

  lemma TermAfterAnswer(n: Node, p: NodeId, r: AppendEntriesReply, hint: LogIndex)
    ensures n.HandleAppendReply(p, r, hint).currentTerm == Max(n.currentTerm, r.term)
  {
  }

  lemma TermAfterDone(n: Node, p: NodeId, r: InstallSnapshotReply, k: LogIndex)
    ensures n.HandleInstallSnapshotReply(p, r, k).currentTerm == Max(n.currentTerm, r.term)
  {
  }

  lemma TermAfterDelivery(cfg: Config, x: Host, step: Step)
    requires Guard(cfg, x, step) && Delivers(step)
    ensures TermMoves(x.node.currentTerm, step, Act(cfg, x, step).0.node.currentTerm)
  {
    match step
    case DeliverVoteReq(_, p, now, timeout) => TermAfterVote(x.node, p.vote, now, timeout);
    case DeliverAppendReq(_, p, now, timeout) => TermAfterAppend(x.node, p.append, now, timeout);
    case DeliverInstallReq(_, p, now, timeout) => TermAfterInstall(x.node, p.install, now, timeout);
    case DeliverVoteRep(_, p) => TermAfterBallot(x.node, p.src, p.ballot);
    case DeliverAppendRep(_, p) => TermAfterAnswer(x.node, p.src, p.answer, p.matchHint);
    case DeliverInstallRep(_, p) => TermAfterDone(x.node, p.src, p.done, p.lastIncluded);
  }

  lemma TermAfter(cfg: Config, x: Host, step: Step)
    requires Guard(cfg, x, step)
    ensures TermMoves(x.node.currentTerm, step, Act(cfg, x, step).0.node.currentTerm)
  {
    if Delivers(step) {
      TermAfterDelivery(cfg, x, step);
    }
  }

  lemma SentTerm(cfg: Config, x: Host, step: Step, p: Packet)
    requires Guard(cfg, x, step) && p in Act(cfg, x, step).1 && CarriedTerm(p).Some?
    ensures CarriedTerm(p).value == Act(cfg, x, step).0.node.currentTerm
  {
  }

  lemma TermsNext(cfg: Config, c: Cluster, step: Step, c': Cluster, ok: Term -> bool)
    requires TermsFrom(c, ok) && StepsTo(cfg, c, step, c')
    requires step.TickElection? ==> ok(c.hosts[step.at].node.currentTerm + 1)
    ensures TermsFrom(c', ok)
  {
    var x := c.hosts[step.at];
    TermAfter(cfg, x, step);
    assert ok(Act(cfg, x, step).0.node.currentTerm);
    forall p | p in c'.net && CarriedTerm(p).Some?
      ensures ok(CarriedTerm(p).value)
    {
      if p !in c.net {
        SentTerm(cfg, x, step, p);
      }
    }
  }

  ghost function Origins(r: Run, k: nat): Term -> bool {
    (t: Term) => Origin(r, k, t)
  }

  /** Every current term, in every state of every run, was entered by an election: no pre-vote created it. */
  lemma {:induction false} TermsFromElections(cfg: Config, r: Run, k: nat)
    requires IsRun(cfg, r) && k < |r.states|
    ensures TermsFrom(r.states[k], Origins(r, k))
  {
    if k == 0 {
      TermsInit(cfg, r.states[0], Origins(r, 0));
    } else {
      TermsFromElections(cfg, r, k - 1);
      TermsOver(r.states[k - 1], Origins(r, k - 1), Origins(r, k));
      TermsStep(cfg, r, k - 1);
    }
  }

  lemma TermsStep(cfg: Config, r: Run, k: nat)
    requires IsRun(cfg, r) && k < |r.steps| && TermsFrom(r.states[k], Origins(r, k + 1))
    ensures TermsFrom(r.states[k + 1], Origins(r, k + 1))
  {
    assert StepAt(cfg, r, k);
    assert r.steps[k].TickElection? ==> ElectsAt(r, k, r.states[k].hosts[r.steps[k].at].node.currentTerm + 1);
    TermsNext(cfg, r.states[k], r.steps[k], r.states[k + 1], Origins(r, k + 1));
  }

  lemma TermsInit(cfg: Config, c: Cluster, ok: Term -> bool)
    requires Init(cfg, c) && ok(0)
    ensures TermsFrom(c, ok)
  {
    forall i | i in c.hosts
      ensures c.hosts[i].node.currentTerm == 0
    {
      assert Booted(cfg, i, c.hosts[i]);
    }
  }

  lemma TermsOver(c: Cluster, ok: Term -> bool, ok': Term -> bool)
    requires TermsFrom(c, ok) && forall t: Term :: ok(t) ==> ok'(t)
    ensures TermsFrom(c, ok')
  {
  }

  // ---- the clock ----

  ghost predicate Timed(step: Step) {
    step.TickPreElection? || step.TickElection? || step.DeliverVoteReq? || step.DeliverAppendReq? || step.DeliverInstallReq? || step.Crash?
  }

  /** The step's time is not before the node's last contact with a leader. */
  ghost predicate Onward(c: Cluster, step: Step) {
    Timed(step) && step.at in c.hosts ==> c.hosts[step.at].node.lastLeaderContact <= step.now
  }

  /** A node never times out within `electionMin` of hearing from a leader. */
  ghost predicate Patient(cfg: Config, n: Node) {
    n.timing == cfg.timing && n.lastLeaderContact + cfg.timing.electionMin <= n.electionDeadline
  }

  /** Contact and deadline stay, the deadline is reset, or both are. */
  ghost predicate ClockMoves(n: Node, n': Node, now: nat, timeout: nat) {
    && n'.timing == n.timing
    && ((n'.lastLeaderContact == n.lastLeaderContact && n'.electionDeadline == n.electionDeadline)
        || (n'.lastLeaderContact == n.lastLeaderContact && n'.electionDeadline == now + timeout)
        || (n'.lastLeaderContact == now && n'.electionDeadline == now + timeout))
  }

  lemma UntimedClock(cfg: Config, x: Host, step: Step)
    requires Guard(cfg, x, step) && !Timed(step)
    ensures ClockMoves(x.node, Act(cfg, x, step).0.node, 0, 0) && Act(cfg, x, step).0.node.lastLeaderContact == x.node.lastLeaderContact
    ensures Act(cfg, x, step).0.node.electionDeadline == x.node.electionDeadline
  {
  }

  lemma TimedClock(cfg: Config, x: Host, step: Step)
    requires Guard(cfg, x, step) && Timed(step)
    ensures ClockMoves(x.node, Act(cfg, x, step).0.node, step.now, step.timeout) && TimeoutOk(cfg, step.timeout)
  {
  }

  lemma StaysPatient(cfg: Config, x: Host, step: Step)
    requires Guard(cfg, x, step) && Patient(cfg, x.node) && (Timed(step) ==> x.node.lastLeaderContact <= step.now)
    ensures Patient(cfg, Act(cfg, x, step).0.node)
  {
    if Timed(step) {
      TimedClock(cfg, x, step);
    } else {
      UntimedClock(cfg, x, step);
    }
  }

  // ---- a quorum that hears from a leader ----

  /** No pre-vote of a member of `q` is tallied. */
  ghost predicate Untallied(cfg: Config, q: set<NodeId>, n: Node) {
    n.preVotes <= cfg.servers && n.preVotes !! q
  }

  /** The message is a granted pre-vote of a member of `q`. */
  ghost predicate GrantOf(q: set<NodeId>, p: Packet) {
    p.VoteRep? && p.pre && p.ballot.voteGranted && p.src in q
  }

  ghost predicate FromServer(cfg: Config, p: Packet) {
    p.VoteRep? ==> p.src in cfg.servers
  }

  /** Nothing of `q` is tallied, and every pre-vote it granted is among the messages `earlier`. */
  ghost predicate Undisturbed(cfg: Config, q: set<NodeId>, earlier: set<Packet>, c: Cluster) {
    && (forall i :: i in c.hosts ==> Patient(cfg, c.hosts[i].node) && Untallied(cfg, q, c.hosts[i].node))
    && (forall p :: p in c.net ==> FromServer(cfg, p) && (GrantOf(q, p) ==> p in earlier))
  }

  /** If the step is taken at a member of `q`, that member is leader or heard one within `electionMin`. */
  ghost predicate Hears(q: set<NodeId>, c: Cluster, step: Step) {
    Timed(step) && step.at in q && step.at in c.hosts && !step.Crash? ==> c.hosts[step.at].node.LeaderIsLive(step.now)
  }

  lemma TallyGrows(cfg: Config, x: Host, step: Step)
    requires Guard(cfg, x, step)
    ensures var n, n' := x.node, Act(cfg, x, step).0.node;
            || n'.preVotes <= n.preVotes
            || (step.TickPreElection? && n'.preVotes == {n.id})
            || (step.DeliverVoteRep? && step.packet.pre && step.packet.ballot.voteGranted
                && n'.preVotes == n.preVotes + {step.packet.src})
  {
    if step.DeliverVoteRep? && step.packet.pre {
      BallotTally(x.node, step.packet.src, step.packet.ballot);
    } else if Delivers(step) {
      DeliveryTally(cfg, x, step);
    }
  }

  lemma BallotTally(n: Node, p: NodeId, r: RequestVoteReply)
    ensures n.RecordPreVoteReply(p, r).preVotes <= n.preVotes ||
            (r.voteGranted && n.RecordPreVoteReply(p, r).preVotes == n.preVotes + {p})
  {
  }

  lemma DeliveryTally(cfg: Config, x: Host, step: Step)
    requires Guard(cfg, x, step) && Delivers(step) && !(step.DeliverVoteRep? && step.packet.pre)
    ensures Act(cfg, x, step).0.node.preVotes <= x.node.preVotes
  {
    if step.DeliverAppendRep? || step.DeliverInstallRep? || step.DeliverVoteRep? {
      ReplyTally(cfg, x, step);
    }
  }

  lemma ReplyTally(cfg: Config, x: Host, step: Step)
    requires Guard(cfg, x, step) && (step.DeliverAppendRep? || step.DeliverInstallRep? || step.DeliverVoteRep?)
    requires step.DeliverVoteRep? ==> !step.packet.pre
    ensures Act(cfg, x, step).0.node.preVotes <= x.node.preVotes
  {
  }

  lemma StaysUntallied(cfg: Config, q: set<NodeId>, x: Host, step: Step)
    requires Guard(cfg, x, step) && Patient(cfg, x.node) && Untallied(cfg, q, x.node) && x.node.id in cfg.servers
    requires step.TickPreElection? ==> x.node.lastLeaderContact <= step.now && (x.node.id in q ==> x.node.LeaderIsLive(step.now))
    requires step.DeliverVoteRep? ==> FromServer(cfg, step.packet) && !GrantOf(q, step.packet)
    ensures Untallied(cfg, q, Act(cfg, x, step).0.node)
  {
    TallyGrows(cfg, x, step);
  }

  lemma GrantsNothing(cfg: Config, q: set<NodeId>, x: Host, step: Step, p: Packet)
    requires Guard(cfg, x, step) && Patient(cfg, x.node) && x.node.id in cfg.servers && p in Act(cfg, x, step).1
    requires step.DeliverVoteReq? ==> x.node.lastLeaderContact <= step.now && (x.node.id in q ==> x.node.LeaderIsLive(step.now))
    ensures FromServer(cfg, p) && !GrantOf(q, p)
  {
  }

  /** Pre-votes from outside `q` are never enough. */
  lemma NoMajority(cfg: Config, q: set<NodeId>, i: NodeId, n: Node)
    requires IsQuorum(cfg.servers, q) && i in cfg.servers && IdentityOk(cfg, i, n) && Untallied(cfg, q, n)
    ensures !n.PreVoteSucceeded()
  {
    ClusterSize(cfg, i, n);
    if n.PreVoteSucceeded() {
      var v := QuorumsMeet(cfg.servers, q, n.preVotes);
      assert false;
    }
  }

  // ---- the cluster ----

  lemma UndisturbedNext(cfg: Config, q: set<NodeId>, earlier: set<Packet>, c: Cluster, step: Step, c': Cluster)
    requires Undisturbed(cfg, q, earlier, c) && StepsTo(cfg, c, step, c') && QuietStep(q, earlier, c, step)
    requires step.at in cfg.servers && IdentityOk(cfg, step.at, c.hosts[step.at].node)
    ensures Undisturbed(cfg, q, earlier, c') && (IsQuorum(cfg.servers, q) ==> !step.TickElection?)
  {
    var i, x := step.at, c.hosts[step.at];
    assert Patient(cfg, x.node) && Untallied(cfg, q, x.node);
    if IsQuorum(cfg.servers, q) {
      NoMajority(cfg, q, i, x.node);
    }
    StaysPatient(cfg, x, step);
    StaysUntallied(cfg, q, x, step);
    var (x', sent) := Act(cfg, x, step);
    forall p | p in sent
      ensures FromServer(cfg, p) && !GrantOf(q, p)
    {
      GrantsNothing(cfg, q, x, step, p);
    }
    UndisturbedAssembled(cfg, q, earlier, c, i, x', sent);
  }

  lemma UndisturbedAssembled(cfg: Config, q: set<NodeId>, earlier: set<Packet>, c: Cluster, i: NodeId, x': Host, sent: set<Packet>)
    requires Undisturbed(cfg, q, earlier, c) && Patient(cfg, x'.node) && Untallied(cfg, q, x'.node)
    requires forall p :: p in sent ==> FromServer(cfg, p) && !GrantOf(q, p)
    ensures Undisturbed(cfg, q, earlier, Cluster(c.hosts[i := x'], c.net + sent))
  {
  }

  /** The clock does not run behind, `q` hears from a leader, and no grant of `q` among `earlier` is delivered. */
  ghost predicate QuietStep(q: set<NodeId>, earlier: set<Packet>, c: Cluster, step: Step) {
    && Onward(c, step) && Hears(q, c, step)
    && (step.DeliverVoteRep? && step.packet in earlier ==> !GrantOf(q, step.packet))
  }

  /** Every step from state `j` to state `k` is quiet for `q` and the messages `earlier`. */
  ghost predicate Undisrupted(r: Run, q: set<NodeId>, earlier: set<Packet>, j: nat, k: nat)
    requires k <= |r.steps| && |r.states| == |r.steps| + 1
  {
    forall m {:trigger QuietStep(q, earlier, r.states[m], r.steps[m])} :: j <= m < k ==> QuietStep(q, earlier, r.states[m], r.steps[m])
  }

  lemma Identity(cfg: Config, r: Run, k: nat, i: NodeId)
    requires IsRun(cfg, r) && k < |r.states| && i in r.states[k].hosts
    ensures i in cfg.servers && IdentityOk(cfg, i, r.states[k].hosts[i].node)
  {
    var h := Reach(cfg, r, k);
    assert NodeOk(cfg, h, i, r.states[k].hosts[i].node);
  }

  lemma {:induction false} StaysUndisturbed(cfg: Config, r: Run, q: set<NodeId>, earlier: set<Packet>, j: nat, k: nat)
    requires IsRun(cfg, r) && j <= k < |r.states|
    requires Undisturbed(cfg, q, earlier, r.states[j]) && Undisrupted(r, q, earlier, j, k)
    ensures Undisturbed(cfg, q, earlier, r.states[k])
    ensures IsQuorum(cfg.servers, q) ==> forall m :: j <= m < k ==> !r.steps[m].TickElection?
    decreases k - j
  {
    if j < k {
      StaysUndisturbed(cfg, r, q, earlier, j, k - 1);
      assert QuietStep(q, earlier, r.states[k - 1], r.steps[k - 1]);
      assert StepAt(cfg, r, k - 1);
      Identity(cfg, r, k - 1, r.steps[k - 1].at);
      UndisturbedNext(cfg, q, earlier, r.states[k - 1], r.steps[k - 1], r.states[k]);
    }
  }

  lemma InitUndisturbed(cfg: Config, c: Cluster)
    requires Init(cfg, c)
    ensures Undisturbed(cfg, {}, {}, c)
  {
    forall i | i in c.hosts
      ensures Patient(cfg, c.hosts[i].node) && Untallied(cfg, {}, c.hosts[i].node)
    {
      assert Booted(cfg, i, c.hosts[i]);
    }
  }

  /** No node tallies a pre-vote of a member of `q`. */
  ghost predicate NoneTallied(q: set<NodeId>, c: Cluster) {
    forall i :: i in c.hosts ==> c.hosts[i].node.preVotes !! q
  }

  lemma NoneTalliedUndisturbed(cfg: Config, q: set<NodeId>, c: Cluster)
    requires Undisturbed(cfg, {}, {}, c) && NoneTallied(q, c)
    ensures Undisturbed(cfg, q, c.net, c)
  {
  }

  /** No step before state `j` runs behind a node's last leader contact. */
  ghost predicate ClocksForward(r: Run, j: nat)
    requires j <= |r.steps| && |r.states| == |r.steps| + 1
  {
    forall m :: 0 <= m < j ==> Onward(r.states[m], r.steps[m])
  }

  lemma ReachPatient(cfg: Config, r: Run, j: nat)
    requires IsRun(cfg, r) && j < |r.states| && ClocksForward(r, j)
    ensures Undisturbed(cfg, {}, {}, r.states[j])
  {
    InitUndisturbed(cfg, r.states[0]);
    StaysUndisturbed(cfg, r, {}, {}, 0, j);
  }

  /**
    PreVote non-disruption: let no node tally a pre-vote of a quorum `q` in state `j`.  While
    the members of `q` hear from a leader and none of the pre-votes they granted before is
    delivered any more, no election starts, and every node stays in a term that existed
    before.  Clocks never run behind a node's last leader contact.
  */
  lemma NoNewTerm(cfg: Config, r: Run, q: set<NodeId>, j: nat, k: nat, i: NodeId, n: Node)
    requires IsRun(cfg, r) && j <= k < |r.states| && IsQuorum(cfg.servers, q) && ClocksForward(r, j)
    requires NoneTallied(q, r.states[j]) && Undisrupted(r, q, r.states[j].net, j, k)
    requires IsNode(r, k, i, n)
    ensures Origin(r, j, n.currentTerm)
    ensures forall m :: j <= m < k ==> !r.steps[m].TickElection?
  {
    ReachPatient(cfg, r, j);
    NoneTalliedUndisturbed(cfg, q, r.states[j]);
    StaysUndisturbed(cfg, r, q, r.states[j].net, j, k);
    TermsFromElections(cfg, r, k);
    assert Origins(r, k)(n.currentTerm);
  }
}
