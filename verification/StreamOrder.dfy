/**
  The order of the apply stream of one process, over any sequence of steps without a
  restart: each command carries the previous position plus one, each snapshot moves the
  position forward to its boundary.
*/
module StreamOrder {
  import opened Types
  import opened Consensus
  import opened Cluster
  import opened LogRefinement
  import opened ApplyStream
  import opened DataInvariant
  import opened LogTheorems

  ghost predicate InOrder(pos: LogIndex, item: Apply) {
    match item
    case ApplyCommand(e) => e.index == pos + 1
    case ApplySnapshot(s) => pos < s.lastIncludedIndex
  }

  ghost function Order(): (LogIndex, Apply) -> bool {
    (pos: LogIndex, item: Apply) => InOrder(pos, item)
  }

  // ---- what an ordered stream means ----

  /** Positions rise strictly: nothing is delivered twice or backwards. */
  lemma {:induction false} OrderRises(pos: LogIndex, items: seq<Apply>, a: nat, b: nat)
    requires Chain(Order(), pos, items) && a < b <= |items|
    ensures PositionAt(pos, items, a) < PositionAt(pos, items, b)
    decreases b
  {
    assert Order()(PositionAt(pos, items, b - 1), items[b - 1]);
    if a < b - 1 {
      OrderRises(pos, items, a, b - 1);
    }
  }

  /** Nothing is skipped: every index passed is a delivered command or lies under a delivered snapshot. */
  lemma {:induction false} OrderCovers(pos: LogIndex, items: seq<Apply>, m: LogIndex) returns (k: nat)
    requires Chain(Order(), pos, items) && pos < m <= StreamEnd(pos, items)
    ensures k < |items| && PositionAt(pos, items, k) < m <= ItemEnd(items[k])
    ensures items[k].ApplyCommand? ==> items[k].entry.index == m
    decreases |items|
  {
    assert items != [];
    k := |items| - 1;
    assert Order()(PositionAt(pos, items, k), items[k]);
    if m <= PositionAt(pos, items, k) {
      var front := items[..k];
      assert forall j :: 0 <= j <= |front| ==> PositionAt(pos, front, j) == PositionAt(pos, items, j);
      k := OrderCovers(pos, front, m);
    }
  }

  // ---- the stream of a run ----

  /** Everything process `i` hands to its apply channel between states `j` and `k`. */
  ghost function Emitted(r: Run, i: NodeId, j: nat, k: nat): seq<Apply>
    requires k <= |r.steps| && |r.states| == |r.steps| + 1
    decreases k
  {
    if k <= j then []
    else Emitted(r, i, j, k - 1) + EmittedBy(r.states[k - 1], r.steps[k - 1], i)
  }

  ghost function EmittedBy(c: Cluster, step: Step, i: NodeId): seq<Apply> {
    if step.Drain? && step.at == i && i in c.hosts then c.hosts[i].node.TakeApplies().1 else []
  }

  /** The position of the stream that has been drained from `n`: at its cursor, or behind a pending snapshot. */
  ghost predicate Standing(n: Node, pos: LogIndex) {
    match n.pendingSnapshot
    case None => pos == n.lastApplied
    case Some(s) => pos < s.lastIncludedIndex == n.lastApplied
  }

  /** A process starts at position 0. */
  lemma StartsAtZero(id: NodeId, x: Host, now: nat, timeout: nat)
    requires x.node.snapshot.None? <==> x.node.log.snapshotIndex == 0
    ensures Standing(Boot(id, x.node.peers, x.node.timing, x.node.Persistent(), now, timeout).node, 0)
  {
  }

  lemma DrainInOrder(n: Node, full: seq<LogEntry>, pos: LogIndex)
    requires Represents(n.log, full) && n.log.snapshotIndex <= n.lastApplied <= n.commitIndex <= |full| && Standing(n, pos)
    ensures var (n', items) := n.TakeApplies(); Chain(Order(), pos, items) && Standing(n', StreamEnd(pos, items))
  {
    var lo, hi := n.lastApplied, n.commitIndex;
    var items := CommandsBetween(n.log, lo, hi);
    CommandsAre(n.log, full, lo, hi);
    assert Chain(Order(), lo, items) && StreamEnd(lo, items) == hi;
    var head := if n.pendingSnapshot.Some? then [ApplySnapshot(n.pendingSnapshot.value)] else [];
    assert Chain(Order(), pos, head) && StreamEnd(pos, head) == lo;
    ChainConcat(Order(), pos, head, items);
  }

  lemma StandsOn(cfg: Config, x: Host, step: Step, pos: LogIndex)
    requires Guard(cfg, x, step) && !step.Crash? && !step.Drain? && Standing(x.node, pos) && x.node.lastApplied <= x.node.commitIndex
    ensures Standing(Act(cfg, x, step).0.node, pos)
  {
    if step.DeliverInstallReq? {
      InstallReqShape(cfg, x, step);
    } else if Quiet(step) {
      QuietData(cfg, x, step);
    } else if step.Compact? {
      TakeSnapshotShape(x.node, x.pos, step.data);
    }
  }

  lemma StepInOrder(cfg: Config, c: Cluster, step: Step, c': Cluster, i: NodeId, full: seq<LogEntry>, pos: LogIndex)
    requires StepsTo(cfg, c, step, c') && i in c.hosts && !(step.Crash? && step.at == i) && Standing(c.hosts[i].node, pos)
    requires var n := c.hosts[i].node;
             Represents(n.log, full) && n.log.snapshotIndex <= n.lastApplied <= n.commitIndex <= |full|
    ensures i in c'.hosts
    ensures Chain(Order(), pos, EmittedBy(c, step, i)) && Standing(c'.hosts[i].node, StreamEnd(pos, EmittedBy(c, step, i)))
  {
    if step.at == i {
      if step.Drain? {
        DrainInOrder(c.hosts[i].node, full, pos);
      } else {
        StandsOn(cfg, c.hosts[i], step, pos);
      }
    }
  }

  ghost predicate NoCrash(r: Run, i: NodeId, j: nat, k: nat)
    requires k <= |r.steps|
  {
    forall m :: j <= m < k ==> !(r.steps[m].Crash? && r.steps[m].at == i)
  }

  /** Apply stream order: what a process emits in one lifetime is one ordered walk. */
  lemma {:induction false} StreamInOrder(cfg: Config, r: Run, i: NodeId, j: nat, k: nat, pos: LogIndex)
    requires IsRun(cfg, r) && j <= k < |r.states| && i in r.states[j].hosts
    requires Standing(r.states[j].hosts[i].node, pos) && NoCrash(r, i, j, k)
    ensures i in r.states[k].hosts && Chain(Order(), pos, Emitted(r, i, j, k))
    ensures Standing(r.states[k].hosts[i].node, StreamEnd(pos, Emitted(r, i, j, k)))
    decreases k
  {
    if j < k {
      StreamInOrder(cfg, r, i, j, k - 1, pos);
      var before, c, step := Emitted(r, i, j, k - 1), r.states[k - 1], r.steps[k - 1];
      var h := ReachNode(cfg, r, k - 1, i, c.hosts[i].node);
      assert StepAt(cfg, r, k - 1);
      StepInOrder(cfg, c, step, r.states[k], i, h.nodes[i].full, StreamEnd(pos, before));
      ChainConcat(Order(), pos, before, EmittedBy(c, step, i));
    }
  }

  /** From a start or a restart on, the stream begins at 0 and never passes the commit index. */
  lemma LifetimeInOrder(cfg: Config, r: Run, i: NodeId, j: nat, k: nat)
    requires IsRun(cfg, r) && j <= k < |r.states| && i in r.states[j].hosts && NoCrash(r, i, j, k)
    requires j == 0 || (r.steps[j - 1].Crash? && r.steps[j - 1].at == i)
    ensures i in r.states[k].hosts && Chain(Order(), 0, Emitted(r, i, j, k))
    ensures StreamEnd(0, Emitted(r, i, j, k)) <= r.states[k].hosts[i].node.commitIndex
  {
    if j == 0 {
      assert Booted(cfg, i, r.states[0].hosts[i]);
    } else {
      assert StepAt(cfg, r, j - 1);
      var x := r.states[j - 1].hosts[i];
      DurableShape(cfg, r, j - 1, i, x.node);
      StartsAtZero(x.node.id, x, r.steps[j - 1].now, r.steps[j - 1].timeout);
    }
    StreamInOrder(cfg, r, i, j, k, 0);
    CursorOrder(cfg, r, k, i, r.states[k].hosts[i].node);
  }
}
