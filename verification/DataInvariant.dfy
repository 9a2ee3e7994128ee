/**
  What the bytes mean: every stored, pending and shipped snapshot denotes the state
  after the commands it replaced, and every application is the replay of its node's
  applied prefix.  The invariant over logs and terms is taken from `Safety`.
*/
module DataInvariant {
  import opened Types
  import opened Rpc
  import opened Consensus
  import opened SnapshotCodec
  import opened Cluster
  import opened History
  import opened HistoryFacts
  import opened LogRefinement
  import opened Invariant
  import opened ElectionSteps
  import opened ApplyStream
  import opened Safety

  ghost predicate DataOk(cfg: Config, full: seq<LogEntry>, x: Host) {
    var n := x.node;
    && n.log.snapshotIndex <= n.lastApplied <= |full|
    && (n.snapshot.Some? ==> Denotes(cfg, n.snapshot.value, full[..n.log.snapshotIndex]))
    && AppOk(cfg, full[..n.lastApplied], x.app, x.pos, x.channel, n.pendingSnapshot)
  }

  ghost predicate ShippedOk(cfg: Config, h: Hist, p: Packet) {
    p.InstallReq? ==>
      && p.install.term in h.reigns
      && p.install.lastIncludedIndex <= |h.reigns[p.install.term].log|
      && Denotes(cfg, p.install.data, h.reigns[p.install.term].log[..p.install.lastIncludedIndex])
  }

  ghost predicate DataInv(cfg: Config, c: Cluster, h: Hist) {
    && (forall i :: i in c.hosts ==> i in h.nodes && DataOk(cfg, h.nodes[i].full, c.hosts[i]))
    && (forall p :: p in c.net ==> ShippedOk(cfg, h, p))
  }

  // ---- steps that leave snapshot, cursors and application alone ----

  ghost predicate SameData(x: Host, x': Host) {
    && x'.node.log.snapshotIndex == x.node.log.snapshotIndex && x'.node.snapshot == x.node.snapshot
    && x'.node.lastApplied == x.node.lastApplied && x'.node.pendingSnapshot == x.node.pendingSnapshot
    && x'.app == x.app && x'.pos == x.pos && x'.channel == x.channel
  }

  lemma {:induction false} SpliceKeepsBoundary(log: Log, prev: LogIndex, entries: seq<LogEntry>)
    ensures Splice(log, prev, entries).snapshotIndex == log.snapshotIndex
    decreases |entries|
  {
    if entries != [] {
      SpliceKeepsBoundary(SpliceOne(log, prev + 1, entries[0]), prev + 1, entries[1..]);
    }
  }

  ghost predicate Quiet(step: Step) {
    !(step.DeliverInstallReq? || step.Drain? || step.Consume? || step.Compact? || step.Crash?)
  }

  lemma QuietVote(cfg: Config, x: Host, step: Step)
    requires Guard(cfg, x, step)
    requires step.TickPreElection? || step.TickElection? || step.TickSend? || step.DeliverVoteReq? || step.DeliverVoteRep?
    ensures SameData(x, Act(cfg, x, step).0)
  {
  }

  lemma QuietEntries(cfg: Config, x: Host, step: Step)
    requires Guard(cfg, x, step)
    requires step.DeliverAppendReq? || step.DeliverAppendRep? || step.DeliverInstallRep? || step.Propose?
    ensures SameData(x, Act(cfg, x, step).0)
  {
    if step.DeliverAppendReq? {
      var a := step.packet.append;
      SpliceKeepsBoundary(x.node.log, a.prevLogIndex, a.entries);
    }
  }

  lemma QuietData(cfg: Config, x: Host, step: Step)
    requires Guard(cfg, x, step) && Quiet(step)
    ensures SameData(x, Act(cfg, x, step).0)
  {
    if step.DeliverAppendReq? || step.DeliverAppendRep? || step.DeliverInstallRep? || step.Propose? {
      QuietEntries(cfg, x, step);
    } else {
      QuietVote(cfg, x, step);
    }
  }

  lemma SameDataOk(cfg: Config, full: seq<LogEntry>, full': seq<LogEntry>, x: Host, x': Host)
    requires DataOk(cfg, full, x) && SameData(x, x') && Agree(full, full', x.node.lastApplied)
    ensures DataOk(cfg, full', x')
  {
    var n := x.node;
    assert full[..n.lastApplied] == full'[..n.lastApplied];
    assert full[..n.log.snapshotIndex] == full'[..n.log.snapshotIndex];
  }

  // ---- the others ----

  lemma DrainData(cfg: Config, full: seq<LogEntry>, x: Host, x': Host, commit: LogIndex)
    requires DataOk(cfg, full, x) && Represents(x.node.log, full) && x.node.lastApplied <= commit == x.node.commitIndex <= |full|
    requires x' == x.(node := x.node.TakeApplies().0, channel := x.channel + x.node.TakeApplies().1)
    ensures DataOk(cfg, full, x')
  {
    DrainApp(cfg, x.node, full, x.app, x.pos, x.channel);
  }

  /** A snapshot is taken only between the boundary and the applied position, else nothing changes. */
  lemma TakeSnapshotShape(n: Node, index: LogIndex, data: Bytes)
    ensures var n' := n.TakeSnapshot(index, data);
            n' == n || (n.log.snapshotIndex < index <= n.lastApplied && n'.log.snapshotIndex == index
                        && n' == n.(log := n'.log, snapshot := Some(data)))
  {
  }

  lemma CompactData(cfg: Config, full: seq<LogEntry>, x: Host, n': Node, data: Bytes)
    requires DataOk(cfg, full, x) && IsSnapshotOf(data, x.app)
    requires n'.log.snapshotIndex == x.pos <= x.node.lastApplied && n'.snapshot == Some(data)
    requires n'.lastApplied == x.node.lastApplied && n'.pendingSnapshot == x.node.pendingSnapshot
    ensures DataOk(cfg, full, x.(node := n'))
  {
    assert full[..x.node.lastApplied][..x.pos] == full[..x.pos];
  }

  lemma CrashData(cfg: Config, full: seq<LogEntry>, x: Host, now: nat, timeout: nat)
    requires DataOk(cfg, full, x) && (x.node.snapshot.None? <==> x.node.log.snapshotIndex == 0)
    ensures DataOk(cfg, full, Boot(x.node.id, x.node.peers, x.node.timing, x.node.Persistent(), now, timeout))
  {
    var n := x.node;
    assert full[..n.log.snapshotIndex][..0] == [];
  }

  lemma InstallData(cfg: Config, full: seq<LogEntry>, full': seq<LogEntry>, x: Host, n': Node, s: Snapshot)
    requires DataOk(cfg, full, x) && x.node.lastApplied < s.lastIncludedIndex <= |full'|
    requires Agree(full, full', x.node.lastApplied) && Denotes(cfg, s.data, full'[..s.lastIncludedIndex])
    requires n'.log.snapshotIndex == n'.lastApplied == s.lastIncludedIndex
    requires n'.snapshot == Some(s.data) && n'.pendingSnapshot == Some(s)
    ensures DataOk(cfg, full', x.(node := n'))
  {
    var lo, hi := full[..x.node.lastApplied], full'[..s.lastIncludedIndex];
    assert lo < hi;
    InstallApp(cfg, lo, hi, x.app, x.pos, x.channel, x.node.pendingSnapshot, s);
  }

  /** After an install the node's log is the leader's log through the boundary. */
  lemma InstalledPrefix(cfg: Config, h: Hist, h': Hist, i: NodeId, n': Node, a: InstallSnapshotArgs)
    requires LeadersComplete(cfg.servers, h') && Later(h, h') && i in h'.nodes && CursorsOk(cfg, h', i, n')
    requires n'.currentTerm == a.term && n'.commitIndex == a.lastIncludedIndex
    requires a.term in h.reigns && a.lastIncludedIndex <= |h.reigns[a.term].log|
    ensures h'.nodes[i].full[..a.lastIncludedIndex] == h.reigns[a.term].log[..a.lastIncludedIndex]
  {
    CommittedHeld(cfg.servers, h', h'.nodes[i].full, a.lastIncludedIndex, a.term);
  }

  /** A refused or outdated snapshot changes nothing here; any other is installed whole. */
  lemma InstallReqShape(cfg: Config, x: Host, step: Step)
    requires Guard(cfg, x, step) && step.DeliverInstallReq?
    ensures var a, n' := step.packet.install, Act(cfg, x, step).0.node;
            if a.term < x.node.currentTerm || a.lastIncludedIndex <= x.node.commitIndex then SameData(x, Act(cfg, x, step).0)
            else
              && n'.currentTerm == a.term && n'.commitIndex == n'.lastApplied == a.lastIncludedIndex
              && (n'.log.snapshotIndex == a.lastIncludedIndex || a.lastIncludedIndex < x.node.log.snapshotIndex)
              && n'.snapshot == Some(a.data)
              && n'.pendingSnapshot == Some(Snapshot(a.lastIncludedIndex, a.lastIncludedTerm, a.data))
              && Act(cfg, x, step).0 == x.(node := n')
  {
  }

  lemma InstallReqData(cfg: Config, h: Hist, h': Hist, i: NodeId, x: Host, step: Step)
    requires LeadersComplete(cfg.servers, h') && Later(h, h') && i in h.nodes && i in h'.nodes
    requires CursorsOk(cfg, h, i, x.node)
    requires Guard(cfg, x, step) && step.DeliverInstallReq? && CursorsOk(cfg, h', i, Act(cfg, x, step).0.node)
    requires ShippedOk(cfg, h, step.packet) && Agree(h.nodes[i].full, h'.nodes[i].full, x.node.commitIndex)
    requires DataOk(cfg, h.nodes[i].full, x)
    ensures DataOk(cfg, h'.nodes[i].full, Act(cfg, x, step).0)
  {
    var a, x' := step.packet.install, Act(cfg, x, step).0;
    InstallReqShape(cfg, x, step);
    if a.term < x.node.currentTerm || a.lastIncludedIndex <= x.node.commitIndex {
      SameDataOk(cfg, h.nodes[i].full, h'.nodes[i].full, x, x');
    } else {
      InstalledPrefix(cfg, h, h', i, x'.node, a);
      InstallData(cfg, h.nodes[i].full, h'.nodes[i].full, x, x'.node, Snapshot(a.lastIncludedIndex, a.lastIncludedTerm, a.data));
    }
  }

  lemma StreamData(cfg: Config, full: seq<LogEntry>, x: Host, step: Step)
    requires Represents(x.node.log, full) && x.node.lastApplied <= x.node.commitIndex <= |full|
    requires Guard(cfg, x, step) && (step.Drain? || step.Consume?) && DataOk(cfg, full, x)
    ensures DataOk(cfg, full, Act(cfg, x, step).0) && Act(cfg, x, step).0.node.lastApplied <= x.node.commitIndex
  {
    if step.Drain? {
      DrainData(cfg, full, x, Act(cfg, x, step).0, x.node.commitIndex);
    } else {
      ConsumeApp(cfg, full[..x.node.lastApplied], x);
    }
  }

  lemma FoldData(cfg: Config, full: seq<LogEntry>, x: Host, step: Step)
    requires x.node.snapshot.None? <==> x.node.log.snapshotIndex == 0
    requires Guard(cfg, x, step) && (step.Compact? || step.Crash?) && DataOk(cfg, full, x)
    requires x.node.lastApplied <= x.node.commitIndex
    ensures DataOk(cfg, full, Act(cfg, x, step).0) && Act(cfg, x, step).0.node.lastApplied <= x.node.commitIndex
  {
    match step
    case Compact(_, data) =>
      TakeSnapshotShape(x.node, x.pos, data);
      if x.node.TakeSnapshot(x.pos, data) != x.node {
        CompactData(cfg, full, x, x.node.TakeSnapshot(x.pos, data), data);
      }
    case Crash(_, now, timeout) => CrashData(cfg, full, x, now, timeout);
  }

  // ---- a step of one process, and what it sends ----

  lemma HostData(cfg: Config, h: Hist, h': Hist, i: NodeId, x: Host, step: Step)
    requires LeadersComplete(cfg.servers, h') && Later(h, h') && Guard(cfg, x, step)
    requires NodeOk(cfg, h, i, x.node) && NodeOk(cfg, h', i, Act(cfg, x, step).0.node) && Kept(h, h', i, x.node.commitIndex)
    requires DataOk(cfg, h.nodes[i].full, x) && (step.DeliverInstallReq? ==> ShippedOk(cfg, h, step.packet))
    ensures DataOk(cfg, h'.nodes[i].full, Act(cfg, x, step).0)
  {
    var full, full', x' := h.nodes[i].full, h'.nodes[i].full, Act(cfg, x, step).0;
    if step.DeliverInstallReq? {
      InstallReqData(cfg, h, h', i, x, step);
    } else if Quiet(step) {
      QuietData(cfg, x, step);
      SameDataOk(cfg, full, full', x, x');
    } else {
      LocalData(cfg, full, x, step);
      SameDataOk(cfg, full, full', x', x');
    }
  }

  lemma LocalData(cfg: Config, full: seq<LogEntry>, x: Host, step: Step)
    requires Represents(x.node.log, full) && x.node.lastApplied <= x.node.commitIndex <= |full|
    requires x.node.snapshot.None? <==> x.node.log.snapshotIndex == 0
    requires Guard(cfg, x, step) && !Quiet(step) && !step.DeliverInstallReq? && DataOk(cfg, full, x)
    ensures DataOk(cfg, full, Act(cfg, x, step).0) && Act(cfg, x, step).0.node.lastApplied <= x.node.commitIndex
  {
    if step.Drain? || step.Consume? {
      StreamData(cfg, full, x, step);
    } else {
      FoldData(cfg, full, x, step);
    }
  }

  lemma SentData(cfg: Config, h: Hist, i: NodeId, x: Host, step: Step, p: Packet)
    requires NodeOk(cfg, h, i, x.node) && DataOk(cfg, h.nodes[i].full, x) && Guard(cfg, x, step)
    requires p in Act(cfg, x, step).1
    ensures ShippedOk(cfg, h, p)
  {
  }

  lemma ShippedStable(cfg: Config, h: Hist, h': Hist, p: Packet)
    requires ReignsGrow(h, h') && ShippedOk(cfg, h, p)
    ensures ShippedOk(cfg, h', p)
  {
    if p.InstallReq? {
      var k := p.install.lastIncludedIndex;
      assert h.reigns[p.install.term].log[..k] == h'.reigns[p.install.term].log[..k];
    }
  }

  // ---- the cluster ----

  lemma ShippedAssembled(cfg: Config, h: Hist, h': Hist, net: set<Packet>, sent: set<Packet>)
    requires ReignsGrow(h, h') && (forall p :: p in net ==> ShippedOk(cfg, h, p)) && (forall p :: p in sent ==> ShippedOk(cfg, h, p))
    ensures forall p :: p in net + sent ==> ShippedOk(cfg, h', p)
  {
    forall p | p in net + sent
      ensures ShippedOk(cfg, h', p)
    {
      ShippedStable(cfg, h, h', p);
    }
  }

  lemma DataAssembled(cfg: Config, c: Cluster, h: Hist, h': Hist, i: NodeId, x': Host, sent: set<Packet>)
    requires DataInv(cfg, c, h) && Evolves(h, h', i) && i in c.hosts && i in h'.nodes
    requires DataOk(cfg, h'.nodes[i].full, x') && forall p :: p in sent ==> ShippedOk(cfg, h, p)
    ensures DataInv(cfg, Cluster(c.hosts[i := x'], c.net + sent), h')
  {
    ShippedAssembled(cfg, h, h', c.net, sent);
    HostsAssembled(cfg, c.hosts, h, h', i, x');
  }

  lemma HostsAssembled(cfg: Config, hosts: map<NodeId, Host>, h: Hist, h': Hist, i: NodeId, x': Host)
    requires forall j :: j in hosts ==> j in h.nodes && DataOk(cfg, h.nodes[j].full, hosts[j])
    requires h'.nodes.Keys == h.nodes.Keys && (forall j :: j in h.nodes && j != i ==> h'.nodes[j] == h.nodes[j])
    requires i in h'.nodes && DataOk(cfg, h'.nodes[i].full, x')
    ensures forall j :: j in hosts[i := x'] ==> j in h'.nodes && DataOk(cfg, h'.nodes[j].full, hosts[i := x'][j])
  {
    forall j | j in hosts[i := x']
      ensures j in h'.nodes && DataOk(cfg, h'.nodes[j].full, hosts[i := x'][j])
    {
      if j != i {
        assert DataOk(cfg, h.nodes[j].full, hosts[j]);
      }
    }
  }

  lemma DataNext(cfg: Config, c: Cluster, h: Hist, step: Step, c': Cluster, h': Hist)
    requires Inv(cfg, c, h) && DataInv(cfg, c, h) && StepsTo(cfg, c, step, c')
    requires Inv(cfg, c', h') && Evolves(h, h', step.at) && Kept(h, h', step.at, c.hosts[step.at].node.commitIndex)
    ensures DataInv(cfg, c', h')
  {
    var i, x := step.at, c.hosts[step.at];
    var (x', sent) := Act(cfg, x, step);
    assert NodeOk(cfg, h, i, x.node) && NodeOk(cfg, h', i, c'.hosts[i].node);
    assert DataOk(cfg, h.nodes[i].full, x);
    HostData(cfg, h, h', i, x, step);
    forall p | p in sent
      ensures ShippedOk(cfg, h, p)
    {
      SentData(cfg, h, i, x, step, p);
    }
    DataAssembled(cfg, c, h, h', i, x', sent);
  }

  lemma DataInit(cfg: Config, c: Cluster)
    requires Init(cfg, c)
    ensures DataInv(cfg, c, Genesis(cfg.servers))
  {
    forall i | i in c.hosts
      ensures DataOk(cfg, [], c.hosts[i])
    {
      assert Booted(cfg, i, c.hosts[i]);
    }
  }
}
