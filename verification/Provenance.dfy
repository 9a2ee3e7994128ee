/** Every entry anywhere in a cluster was proposed to a leader, at that index and in that term. */
module Provenance {
  import opened Types
  import opened Rpc
  import opened Consensus
  import opened Cluster
  import opened History
  import opened HistorySteps
  import opened LogRefinement
  import opened Invariant
  import opened ElectionSteps
  import opened ReplicationSteps
  import opened ApplyStream
  import opened Runs
  import opened LogTheorems
  import opened Justification
  import opened RealTime

  // ---- entries admitted by a predicate on index and entry ----

  ghost predicate LogFrom(log: Log, ok: (LogIndex, LogEntry) -> bool) {
    forall k: LogIndex {:trigger log.Get(k)} :: log.Get(k).Some? ==> ok(k, log.Get(k).value)
  }

  ghost predicate SentFrom(a: AppendEntriesArgs, ok: (LogIndex, LogEntry) -> bool) {
    forall k :: 0 <= k < |a.entries| ==> ok(a.prevLogIndex + k + 1, a.entries[k])
  }

  ghost predicate QueueFrom(items: seq<Apply>, ok: (LogIndex, LogEntry) -> bool) {
    forall k :: 0 <= k < |items| && items[k].ApplyCommand? ==>
      ok(items[k].entry.index, LogEntry(items[k].entry.term, items[k].entry.command))
  }

  ghost predicate HostFrom(x: Host, ok: (LogIndex, LogEntry) -> bool) {
    LogFrom(x.node.log, ok) && QueueFrom(x.channel, ok)
  }

  ghost predicate PacketFrom(p: Packet, ok: (LogIndex, LogEntry) -> bool) {
    p.AppendReq? ==> SentFrom(p.append, ok)
  }

  ghost predicate EntriesFrom(c: Cluster, ok: (LogIndex, LogEntry) -> bool) {
    && (forall i {:trigger HostFrom(c.hosts[i], ok)} :: i in c.hosts ==> HostFrom(c.hosts[i], ok))
    && (forall p {:trigger PacketFrom(p, ok)} :: p in c.net ==> PacketFrom(p, ok))
  }

  // ---- the log of one node ----

  lemma PlainFrom(log: Log, full: seq<LogEntry>, ok: (LogIndex, LogEntry) -> bool)
    requires Represents(log, full)
    ensures LogFrom(log, ok) <==> forall k :: log.snapshotIndex <= k < |full| ==> ok(k + 1, full[k])
  {
    if LogFrom(log, ok) {
      forall k | log.snapshotIndex <= k < |full|
        ensures ok(k + 1, full[k])
      {
        AccessorsAgree(log, full, k + 1);
        assert log.Get(k + 1) == Some(full[k]);
      }
    }
    if forall k :: log.snapshotIndex <= k < |full| ==> ok(k + 1, full[k]) {
      forall k: LogIndex | log.Get(k).Some?
        ensures ok(k, log.Get(k).value)
      {
        assert log.Get(k).value == full[k - 1];
        assert ok((k - 1) + 1, full[k - 1]);
      }
    }
  }

  /** A spliced log holds entries of the old log and of the message, each at its own index. */
  lemma AdoptedFrom(log: Log, full: seq<LogEntry>, leader: seq<LogEntry>, a: AppendEntriesArgs, m: nat, log': Log,
      ok: (LogIndex, LogEntry) -> bool)
    requires Represents(log, full) && LogFrom(log, ok) && SentFrom(a, ok)
    requires m == a.prevLogIndex + |a.entries| <= |leader| && a.entries == leader[a.prevLogIndex..m]
    requires Agree(full, leader, Max(a.prevLogIndex, log.snapshotIndex))
    requires Represents(log', Adopted(full, leader, m)) && log'.snapshotIndex == log.snapshotIndex
    ensures LogFrom(log', ok)
  {
    PlainFrom(log, full, ok);
    var full' := Adopted(full, leader, m);
    forall k | log.snapshotIndex <= k < |full'|
      ensures ok(k + 1, full'[k])
    {
      if full' != full && a.prevLogIndex <= k {
        assert full'[k] == a.entries[k - a.prevLogIndex];
      }
    }
    PlainFrom(log', full', ok);
  }

  lemma AcceptedFrom(cfg: Config, h: Hist, i: NodeId, n: Node, a: AppendEntriesArgs, log': Log,
      ok: (LogIndex, LogEntry) -> bool)
    requires Valid(cfg.servers, h) && i in h.nodes && DurableOk(h, i, n) && CursorsOk(cfg, h, i, n) && a.term == n.currentTerm
    requires AppendReqOk(cfg, h, a.leaderId, a) && n.PrevMatches(a) && log' == Splice(n.log, a.prevLogIndex, a.entries)
    requires LogFrom(n.log, ok) && SentFrom(a, ok)
    ensures LogFrom(log', ok)
  {
    var full, leader, m := AcceptedPlain(cfg, h, i, n, a, log');
    AdoptedFrom(n.log, full, leader, a, m, log', ok);
  }

  lemma AcceptedPlain(cfg: Config, h: Hist, i: NodeId, n: Node, a: AppendEntriesArgs, log': Log)
      returns (full: seq<LogEntry>, leader: seq<LogEntry>, m: nat)
    requires Valid(cfg.servers, h) && i in h.nodes && DurableOk(h, i, n) && CursorsOk(cfg, h, i, n) && a.term == n.currentTerm
    requires AppendReqOk(cfg, h, a.leaderId, a) && n.PrevMatches(a) && log' == Splice(n.log, a.prevLogIndex, a.entries)
    ensures Represents(n.log, full) && Agree(full, leader, Max(a.prevLogIndex, n.log.snapshotIndex))
    ensures m == a.prevLogIndex + |a.entries| <= |leader| && a.entries == leader[a.prevLogIndex..m]
    ensures Represents(log', Adopted(full, leader, m)) && log'.snapshotIndex == n.log.snapshotIndex
  {
    full, leader, m := h.nodes[i].full, h.reigns[a.term].log, a.prevLogIndex + |a.entries|;
    AcceptedLog(cfg, h, i, n, a, m, log');
    PrevAgrees(cfg, h, i, n, a);
  }

  lemma SplicedFrom(cfg: Config, h: Hist, i: NodeId, n: Node, a: AppendEntriesArgs, log': Log,
      ok: (LogIndex, LogEntry) -> bool)
    requires Ready(cfg, h, i, n) && n.currentTerm <= a.term
    requires AppendReqOk(cfg, h, a.leaderId, a) && n.PrevMatches(a) && log' == Splice(n.log, a.prevLogIndex, a.entries)
    requires LogFrom(n.log, ok) && SentFrom(a, ok)
    ensures LogFrom(log', ok)
  {
    var n1 := n.YieldTo(a.term, a.leaderId, 0, 0);
    YieldKeepsCheck(n, a);
    var h1 := Yielded(cfg, h, i, n, n1, a);
    AcceptedFrom(cfg, h1, i, n1, a, log', ok);
  }

  lemma CompactFrom(log: Log, k: LogIndex, t: Term, ok: (LogIndex, LogEntry) -> bool)
    requires LogFrom(log, ok)
    ensures LogFrom(log.Compact(k, t), ok)
  {
    var log' := log.Compact(k, t);
    forall j: LogIndex | log'.Get(j).Some?
      ensures ok(j, log'.Get(j).value)
    {
      assert log'.Get(j) == log.Get(j);
    }
  }

  lemma AppendFrom(log: Log, e: LogEntry, ok: (LogIndex, LogEntry) -> bool)
    requires LogFrom(log, ok) && ok(log.LastIndex() + 1, e)
    ensures LogFrom(log.Append(e), ok)
  {
    var log' := log.Append(e);
    forall j: LogIndex | log'.Get(j).Some?
      ensures ok(j, log'.Get(j).value)
    {
      if j <= log.LastIndex() {
        assert log'.Get(j) == log.Get(j);
      }
    }
  }

  // ---- the queue and the messages ----

  lemma DrainFrom(n: Node, full: seq<LogEntry>, ok: (LogIndex, LogEntry) -> bool)
    requires Represents(n.log, full) && n.log.snapshotIndex <= n.lastApplied <= n.commitIndex <= |full| && LogFrom(n.log, ok)
    ensures QueueFrom(n.TakeApplies().1, ok)
  {
    PlainFrom(n.log, full, ok);
    CommandsAre(n.log, full, n.lastApplied, n.commitIndex);
    var items, head := n.TakeApplies().1, if n.pendingSnapshot.Some? then 1 else 0;
    forall k | 0 <= k < |items| && items[k].ApplyCommand?
      ensures ok(items[k].entry.index, LogEntry(items[k].entry.term, items[k].entry.command))
    {
      var j := n.lastApplied + (k - head);
      assert items[k] == ApplyCommand(Applied(j + 1, full[j].term, full[j].command));
      assert ok(j + 1, full[j]);
    }
  }

  lemma SendFrom(n: Node, full: seq<LogEntry>, peer: NodeId, ok: (LogIndex, LogEntry) -> bool)
    requires Represents(n.log, full) && n.commitIndex <= |full| && n.role == Leader && LogFrom(n.log, ok)
    requires peer in n.nextIndex && 1 <= n.nextIndex[peer] <= |full| + 1
    requires n.log.snapshotIndex > 0 ==> n.snapshot.Some?
    ensures PacketFrom(Outgoing(n, peer), ok)
  {
    if !n.NeedsSnapshot(peer) {
      AlignedArgs(n, full, peer);
      var a := n.AppendArgsFor(peer);
      forall k | 0 <= k < |a.entries|
        ensures ok(a.prevLogIndex + k + 1, a.entries[k])
      {
        assert n.log.Get(a.prevLogIndex + k + 1) == Some(a.entries[(a.prevLogIndex + k + 1) - a.prevLogIndex - 1]);
      }
    }
  }

  // ---- a step of one process ----

  /** What a step can do to a node's log. */
  ghost predicate LogMoves(n: Node, step: Step, log': Log) {
    || log' == n.log
    || (step.DeliverAppendReq? && step.packet.AppendReq? && n.currentTerm <= step.packet.append.term && n.PrevMatches(step.packet.append)
        && log' == Splice(n.log, step.packet.append.prevLogIndex, step.packet.append.entries))
    || (step.Propose? && n.role == Leader && log' == n.log.Append(LogEntry(n.currentTerm, step.command)))
    || ((step.DeliverInstallReq? || step.Compact?) && exists k, t :: log' == n.log.Compact(k, t))
  }

  lemma LogAfterEntries(cfg: Config, x: Host, step: Step)
    requires Guard(cfg, x, step) && (step.DeliverAppendReq? || step.Propose?)
    ensures LogMoves(x.node, step, Act(cfg, x, step).0.node.log)
  {
  }

  lemma LogAfterFold(cfg: Config, x: Host, step: Step)
    requires Guard(cfg, x, step) && (step.DeliverInstallReq? || step.Compact?)
    ensures LogMoves(x.node, step, Act(cfg, x, step).0.node.log)
  {
    if step.DeliverInstallReq? {
      var a := step.packet.install;
      assert a.term >= x.node.currentTerm && a.lastIncludedIndex > x.node.commitIndex ==>
        Act(cfg, x, step).0.node.log == x.node.log.Compact(a.lastIncludedIndex, a.lastIncludedTerm);
    } else if x.node.TakeSnapshot(x.pos, step.data) != x.node {
      assert Act(cfg, x, step).0.node.log == x.node.log.Compact(x.pos, x.node.log.TermAt(x.pos).value);
    }
  }

  lemma LogAfterOther(cfg: Config, x: Host, step: Step)
    requires Guard(cfg, x, step)
    requires !(step.DeliverAppendReq? || step.Propose? || step.DeliverInstallReq? || step.Compact?)
    ensures Act(cfg, x, step).0.node.log == x.node.log
  {
  }

  lemma EntriesStepFrom(cfg: Config, h: Hist, i: NodeId, x: Host, step: Step, ok: (LogIndex, LogEntry) -> bool)
    requires Ready(cfg, h, i, x.node) && Guard(cfg, x, step) && LogFrom(x.node.log, ok)
    requires step.DeliverAppendReq? && PacketOk(cfg, h, step.packet) && PacketFrom(step.packet, ok)
    ensures LogFrom(Act(cfg, x, step).0.node.log, ok)
  {
    LogAfterEntries(cfg, x, step);
    var log' := Act(cfg, x, step).0.node.log;
    if log' != x.node.log {
      SplicedFrom(cfg, h, i, x.node, step.packet.append, log', ok);
    }
  }

  lemma LogStepFrom(cfg: Config, x: Host, step: Step, ok: (LogIndex, LogEntry) -> bool)
    requires Guard(cfg, x, step) && LogFrom(x.node.log, ok) && !step.DeliverAppendReq?
    requires step.Propose? && x.node.role == Leader ==> ok(x.node.log.LastIndex() + 1, LogEntry(x.node.currentTerm, step.command))
    ensures LogFrom(Act(cfg, x, step).0.node.log, ok)
  {
    var n, log' := x.node, Act(cfg, x, step).0.node.log;
    if step.Propose? {
      LogAfterEntries(cfg, x, step);
      if log' != n.log {
        AppendFrom(n.log, LogEntry(n.currentTerm, step.command), ok);
      }
    } else if step.DeliverInstallReq? || step.Compact? {
      LogAfterFold(cfg, x, step);
      if log' != n.log {
        var k, t :| log' == n.log.Compact(k, t);
        CompactFrom(n.log, k, t, ok);
      }
    } else {
      LogAfterOther(cfg, x, step);
    }
  }

  lemma QueueStepFrom(cfg: Config, full: seq<LogEntry>, x: Host, step: Step, ok: (LogIndex, LogEntry) -> bool)
    requires Guard(cfg, x, step) && HostFrom(x, ok)
    requires Represents(x.node.log, full) && x.node.log.snapshotIndex <= x.node.lastApplied <= x.node.commitIndex <= |full|
    ensures QueueFrom(Act(cfg, x, step).0.channel, ok)
  {
    if step.Drain? {
      DrainFrom(x.node, full, ok);
    }
  }

  lemma SentStepFrom(cfg: Config, h: Hist, i: NodeId, x: Host, step: Step, p: Packet, ok: (LogIndex, LogEntry) -> bool)
    requires NodeOk(cfg, h, i, x.node) && Guard(cfg, x, step) && LogFrom(x.node.log, ok) && p in Act(cfg, x, step).1
    ensures PacketFrom(p, ok)
  {
    if step.TickSend? {
      assert PeerViewOk(h, x.node, |h.nodes[i].full|, step.peer);
      SendFrom(x.node, h.nodes[i].full, step.peer, ok);
    }
  }

  // ---- the cluster ----

  /** The proposal a step makes, if it makes one, is admitted. */
  ghost predicate Admits(x: Host, step: Step, ok: (LogIndex, LogEntry) -> bool) {
    step.Propose? && x.node.role == Leader ==> ok(x.node.log.LastIndex() + 1, LogEntry(x.node.currentTerm, step.command))
  }

  lemma HostStepFrom(cfg: Config, h: Hist, i: NodeId, x: Host, step: Step, ok: (LogIndex, LogEntry) -> bool)
    requires Ready(cfg, h, i, x.node) && Guard(cfg, x, step) && HostFrom(x, ok) && Admits(x, step, ok)
    requires step.DeliverAppendReq? ==> PacketOk(cfg, h, step.packet) && PacketFrom(step.packet, ok)
    ensures HostFrom(Act(cfg, x, step).0, ok) && forall p :: p in Act(cfg, x, step).1 ==> PacketFrom(p, ok)
  {
    if step.DeliverAppendReq? {
      EntriesStepFrom(cfg, h, i, x, step, ok);
    } else {
      LogStepFrom(cfg, x, step, ok);
    }
    QueueStepFrom(cfg, h.nodes[i].full, x, step, ok);
    forall p | p in Act(cfg, x, step).1
      ensures PacketFrom(p, ok)
    {
      SentStepFrom(cfg, h, i, x, step, p, ok);
    }
  }

  lemma EntriesNext(cfg: Config, c: Cluster, h: Hist, step: Step, c': Cluster, ok: (LogIndex, LogEntry) -> bool)
    requires Inv(cfg, c, h) && EntriesFrom(c, ok) && StepsTo(cfg, c, step, c') && Admits(c.hosts[step.at], step, ok)
    ensures EntriesFrom(c', ok)
  {
    var i, x := step.at, c.hosts[step.at];
    assert HostFrom(x, ok) && NodeOk(cfg, h, i, x.node);
    assert step.DeliverAppendReq? ==> PacketFrom(step.packet, ok) && PacketOk(cfg, h, step.packet);
    HostStepFrom(cfg, h, i, x, step, ok);
    EntriesAssembled(c, i, Act(cfg, x, step).0, Act(cfg, x, step).1, ok);
  }

  lemma EntriesAssembled(c: Cluster, i: NodeId, x': Host, sent: set<Packet>, ok: (LogIndex, LogEntry) -> bool)
    requires EntriesFrom(c, ok) && HostFrom(x', ok) && forall p :: p in sent ==> PacketFrom(p, ok)
    ensures EntriesFrom(Cluster(c.hosts[i := x'], c.net + sent), ok)
  {
    var c' := Cluster(c.hosts[i := x'], c.net + sent);
    forall j | j in c'.hosts
      ensures HostFrom(c'.hosts[j], ok)
    {
      assert j != i ==> HostFrom(c.hosts[j], ok);
    }
  }

  lemma EntriesOver(c: Cluster, ok: (LogIndex, LogEntry) -> bool, ok': (LogIndex, LogEntry) -> bool)
    requires EntriesFrom(c, ok) && forall k: LogIndex, e: LogEntry :: ok(k, e) ==> ok'(k, e)
    ensures EntriesFrom(c, ok')
  {
    forall j | j in c.hosts
      ensures HostFrom(c.hosts[j], ok')
    {
      assert HostFrom(c.hosts[j], ok);
    }
    forall p | p in c.net
      ensures PacketFrom(p, ok')
    {
      assert PacketFrom(p, ok);
    }
  }

  // ---- runs ----

  /** Entry `e` was appended at index `k` by a leader, on a proposal before state `j`. */
  ghost predicate WasProposed(r: Run, j: nat, k: LogIndex, e: LogEntry) {
    exists m: nat, b: NodeId :: m < j && Proposes(r, m, b, e.command, e.term, k)
  }

  ghost function ProposedBefore(r: Run, j: nat): (LogIndex, LogEntry) -> bool {
    (k: LogIndex, e: LogEntry) => WasProposed(r, j, k, e)
  }

  /** Every entry held, sent or queued in any state of any run was proposed at its index and term. */
  lemma {:induction false} EntriesWereProposed(cfg: Config, r: Run, j: nat)
    requires IsRun(cfg, r) && j < |r.states|
    ensures EntriesFrom(r.states[j], ProposedBefore(r, j))
  {
    if j == 0 {
      InitFrom(cfg, r.states[0], ProposedBefore(r, 0));
    } else {
      EntriesWereProposed(cfg, r, j - 1);
      EntriesOver(r.states[j - 1], ProposedBefore(r, j - 1), ProposedBefore(r, j));
      EntriesStep(cfg, r, j - 1);
    }
  }

  lemma EntriesStep(cfg: Config, r: Run, j: nat)
    requires IsRun(cfg, r) && j < |r.steps| && EntriesFrom(r.states[j], ProposedBefore(r, j + 1))
    ensures EntriesFrom(r.states[j + 1], ProposedBefore(r, j + 1))
  {
    var h := Reach(cfg, r, j);
    assert StepAt(cfg, r, j);
    ProposalAdmitted(r, j);
    EntriesNext(cfg, r.states[j], h, r.steps[j], r.states[j + 1], ProposedBefore(r, j + 1));
  }

  lemma ProposalAdmitted(r: Run, j: nat)
    requires j < |r.steps| && j < |r.states| && r.steps[j].at in r.states[j].hosts
    ensures Admits(r.states[j].hosts[r.steps[j].at], r.steps[j], ProposedBefore(r, j + 1))
  {
    var step, n := r.steps[j], r.states[j].hosts[r.steps[j].at].node;
    if step.Propose? && n.role == Leader {
      assert Proposes(r, j, step.at, step.command, n.currentTerm, n.log.LastIndex() + 1);
    }
  }

  lemma InitFrom(cfg: Config, c: Cluster, ok: (LogIndex, LogEntry) -> bool)
    requires Init(cfg, c)
    ensures EntriesFrom(c, ok)
  {
    forall i | i in c.hosts
      ensures HostFrom(c.hosts[i], ok)
    {
      assert Booted(cfg, i, c.hosts[i]);
    }
  }

  /** A queued command came from a proposal at its index, in its term. */
  lemma QueuedWasProposed(cfg: Config, r: Run, j: nat, a: NodeId, e: Applied) returns (m: nat, b: NodeId)
    requires IsRun(cfg, r) && j < |r.states| && a in r.states[j].hosts && ApplyCommand(e) in r.states[j].hosts[a].channel
    ensures m < j && Proposes(r, m, b, e.command, e.term, e.index)
  {
    EntriesWereProposed(cfg, r, j);
    var ok := ProposedBefore(r, j);
    assert HostFrom(r.states[j].hosts[a], ok);
    var k :| 0 <= k < |r.states[j].hosts[a].channel| && r.states[j].hosts[a].channel[k] == ApplyCommand(e);
    assert WasProposed(r, j, e.index, LogEntry(e.term, e.command));
    m, b :| m < j && Proposes(r, m, b, e.command, e.term, e.index);
  }
}
