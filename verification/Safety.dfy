/** The invariant holds in every state of every run, with one history per state. */
module Safety {
  import opened Types
  import opened Cluster
  import opened History
  import opened Invariant
  import opened ElectionSteps
  import opened ReplicationSteps
  import opened SnapshotSteps

  // ---- one step of one process ----

  lemma TickOk(cfg: Config, h: Hist, i: NodeId, x: Host, step: Step) returns (h': Hist)
    requires Ready(cfg, h, i, x.node) && Guard(cfg, x, step)
    requires step.TickPreElection? || step.TickElection? || step.TickSend?
    ensures Good(cfg, h, h', i, x.node, Act(cfg, x, step).0.node, Act(cfg, x, step).1)
  {
    match step
    case TickPreElection(_, now, timeout) =>
      PreElectionOk(cfg, h, i, x.node, now, timeout);
      h' := h;
    case TickElection(_, now, timeout) => h' := ElectionOk(cfg, h, i, x.node, now, timeout);
    case TickSend(_, peer) =>
      SendOk(cfg, h, i, x.node, peer);
      h' := h;
  }

  /** The apply stream and a restart leave the history as it was. */
  lemma StreamOk(cfg: Config, h: Hist, i: NodeId, x: Host, step: Step)
    requires Ready(cfg, h, i, x.node) && Guard(cfg, x, step) && (step.Drain? || step.Consume? || step.Crash?)
    ensures Good(cfg, h, h, i, x.node, Act(cfg, x, step).0.node, Act(cfg, x, step).1)
  {
    match step
    case Drain(_) => DrainOk(cfg, h, i, x.node);
    case Consume(_) => EvolvesSelf(h, i);
    case Crash(_, now, timeout) => RestartOk(cfg, h, i, x.node, now, timeout);
  }

  lemma LocalOk(cfg: Config, h: Hist, i: NodeId, x: Host, step: Step) returns (h': Hist)
    requires Ready(cfg, h, i, x.node) && Guard(cfg, x, step)
    requires step.Propose? || step.Drain? || step.Consume? || step.Compact? || step.Crash?
    ensures Good(cfg, h, h', i, x.node, Act(cfg, x, step).0.node, Act(cfg, x, step).1)
  {
    if step.Propose? {
      h' := ProposeOk(cfg, h, i, x.node, step.command);
    } else if step.Compact? {
      h' := CompactOk(cfg, h, i, x.node, x.pos, step.data);
    } else {
      StreamOk(cfg, h, i, x, step);
      h' := h;
    }
  }

  lemma DeliverVoteOk(cfg: Config, h: Hist, i: NodeId, x: Host, step: Step) returns (h': Hist)
    requires Ready(cfg, h, i, x.node) && Guard(cfg, x, step) && step.DeliverVoteReq?
    requires PacketOk(cfg, h, step.packet) && step.packet.dst == i
    ensures Good(cfg, h, h', i, x.node, Act(cfg, x, step).0.node, Act(cfg, x, step).1)
  {
    var p := step.packet;
    h' := VoteOk(cfg, h, i, x.node, p.src, p.vote, step.now, step.timeout);
  }

  lemma AppendPacket(cfg: Config, h: Hist, p: Packet)
    requires p.AppendReq? && PacketOk(cfg, h, p)
    ensures AppendReqOk(cfg, h, p.src, p.append) && p.src != p.dst
  {
  }

  lemma DeliverInstallOk(cfg: Config, h: Hist, i: NodeId, x: Host, step: Step) returns (h': Hist)
    requires Ready(cfg, h, i, x.node) && Guard(cfg, x, step) && step.DeliverInstallReq?
    requires PacketOk(cfg, h, step.packet) && step.packet.dst == i
    ensures Good(cfg, h, h', i, x.node, Act(cfg, x, step).0.node, Act(cfg, x, step).1)
  {
    var p := step.packet;
    h' := InstallOk(cfg, h, i, x.node, p.src, p.install, step.now, step.timeout);
  }

  lemma DeliverReplyOk(cfg: Config, h: Hist, i: NodeId, x: Host, step: Step) returns (h': Hist)
    requires Ready(cfg, h, i, x.node) && Guard(cfg, x, step)
    requires step.DeliverVoteRep? || step.DeliverAppendRep? || step.DeliverInstallRep?
    requires PacketOk(cfg, h, step.packet) && step.packet.dst == i
    ensures Good(cfg, h, h', i, x.node, Act(cfg, x, step).0.node, Act(cfg, x, step).1)
  {
    assert step.packet.src in x.node.peers;
    match step
    case DeliverVoteRep(_, p) =>
      if p.pre {
        h' := PreBallotOk(cfg, h, i, x.node, p.src, p.ballot);
      } else {
        h' := BallotOk(cfg, h, i, x.node, p.src, p.ballot);
      }
    case DeliverAppendRep(_, p) => h' := AppendReplyOk(cfg, h, i, x.node, p.src, p.answer, p.matchHint);
    case DeliverInstallRep(_, p) => h' := InstallReplyOk(cfg, h, i, x.node, p.src, p.done, p.lastIncluded);
  }

  lemma ActOk(cfg: Config, h: Hist, i: NodeId, x: Host, step: Step) returns (h': Hist)
    requires Ready(cfg, h, i, x.node) && Guard(cfg, x, step)
    requires Delivers(step) ==> PacketOk(cfg, h, step.packet) && step.packet.dst == i
    ensures Good(cfg, h, h', i, x.node, Act(cfg, x, step).0.node, Act(cfg, x, step).1)
  {
    if step.DeliverVoteReq? {
      h' := DeliverVoteOk(cfg, h, i, x, step);
    } else if step.DeliverAppendReq? {
      AppendPacket(cfg, h, step.packet);
      h' := OnAppendOk(cfg, h, i, x, step.packet.src, step.packet.append, step.now, step.timeout);
    } else if step.DeliverInstallReq? {
      h' := DeliverInstallOk(cfg, h, i, x, step);
    } else if Delivers(step) {
      h' := DeliverReplyOk(cfg, h, i, x, step);
    } else if step.TickPreElection? || step.TickElection? || step.TickSend? {
      h' := TickOk(cfg, h, i, x, step);
    } else {
      h' := LocalOk(cfg, h, i, x, step);
    }
  }

  // ---- one step of the cluster ----

  lemma InvNext(cfg: Config, c: Cluster, h: Hist, step: Step, c': Cluster) returns (h': Hist)
    requires Inv(cfg, c, h) && StepsTo(cfg, c, step, c')
    ensures Inv(cfg, c', h')
    ensures Evolves(h, h', step.at) && Kept(h, h', step.at, c.hosts[step.at].node.commitIndex)
  {
    var i, x := step.at, c.hosts[step.at];
    h' := ActOk(cfg, h, i, x, step);
    OthersOk(cfg, c, h, h', i);
    var (x', sent) := Act(cfg, x, step);
    Assembled(cfg, c, h', i, x', sent);
  }

  lemma Assembled(cfg: Config, c: Cluster, h: Hist, i: NodeId, x: Host, sent: set<Packet>)
    requires Valid(cfg.servers, h) && c.hosts.Keys == cfg.servers && i in c.hosts
    requires NodeOk(cfg, h, i, x.node) && AllOk(cfg, h, sent)
    requires forall j :: j in c.hosts && j != i ==> NodeOk(cfg, h, j, c.hosts[j].node)
    requires forall p :: p in c.net ==> PacketOk(cfg, h, p)
    ensures Inv(cfg, Cluster(c.hosts[i := x], c.net + sent), h)
  {
  }

  lemma OthersOk(cfg: Config, c: Cluster, h: Hist, h': Hist, i: NodeId)
    requires Inv(cfg, c, h) && Evolves(h, h', i)
    ensures forall j :: j in c.hosts && j != i ==> NodeOk(cfg, h', j, c.hosts[j].node)
    ensures forall p :: p in c.net ==> PacketOk(cfg, h', p)
  {
    forall j | j in c.hosts && j != i
      ensures NodeOk(cfg, h', j, c.hosts[j].node)
    {
      OtherNodeStable(cfg, h, h', i, j, c.hosts[j].node);
    }
    forall p | p in c.net
      ensures PacketOk(cfg, h', p)
    {
      PacketStable(cfg, h, h', p);
    }
  }

  // ---- the initial state ----

  function Genesis(servers: set<NodeId>): Hist {
    Hist(map i | i in servers :: Member(0, [], 0), map[], map[], map[], map[])
  }

  lemma InitOk(cfg: Config, c: Cluster)
    requires Init(cfg, c)
    ensures Inv(cfg, c, Genesis(cfg.servers))
  {
    var h := Genesis(cfg.servers);
    forall i | i in c.hosts
      ensures NodeOk(cfg, h, i, c.hosts[i].node)
    {
      assert Booted(cfg, i, c.hosts[i]);
    }
  }
}
