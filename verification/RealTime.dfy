/**
  Real-time order: a request proposed after another was answered commits, if at all, at
  a higher index; and the waiter of a request is answered with the outcome of its entry.
*/
module RealTime {
  import opened Types
  import opened Cluster
  import opened History
  import opened HistoryFacts
  import opened Invariant
  import opened DataInvariant
  import opened Runs
  import opened Theorems

  /** Step `j` applies command `e` at node `a`; the caller waiting for it there is answered. */
  ghost predicate Responds(r: Run, j: nat, a: NodeId, e: Applied) {
    && j < |r.steps| && j < |r.states| && r.steps[j] == Consume(a) && a in r.states[j].hosts
    && r.states[j].hosts[a].channel != [] && r.states[j].hosts[a].channel[0] == ApplyCommand(e)
  }

  /** Step `m` proposes `command` at node `b`, which appends it at index `x` in term `t`. */
  ghost predicate Proposes(r: Run, m: nat, b: NodeId, command: Bytes, t: Term, x: LogIndex) {
    && m < |r.steps| && m < |r.states| && r.steps[m] == Propose(b, command) && b in r.states[m].hosts
    && var n := r.states[m].hosts[b].node;
    && n.SubmitCommand(command).1 == Some(x) && n.currentTerm == t
  }

  /** A committed command of a process's queue, in its full log. */
  lemma QueuedCommitted(cfg: Config, c: Cluster, h: Hist, a: NodeId, e: Applied)
    requires Sound(cfg, c, h) && a in c.hosts && ApplyCommand(e) in c.hosts[a].channel
    ensures a in h.nodes && LogOk(h, h.nodes[a].full, h.nodes[a].cur) && 0 < e.index <= |h.nodes[a].full|
    ensures h.nodes[a].full[e.index - 1] == LogEntry(e.term, e.command)
    ensures Committed(cfg.servers, h, h.nodes[a].full, e.index, c.hosts[a].node.currentTerm)
  {
    var x, full := c.hosts[a], h.nodes[a].full;
    assert NodeOk(cfg, h, a, x.node) && DataOk(cfg, full, x);
    QueuedOnLog(cfg, full, x, e);
    CommittedPrefix(cfg.servers, h, full, x.node.commitIndex, x.node.currentTerm, full, e.index);
  }

  /** If entry `x` of term `t` is committed at or below an index answered in `hj`, its leader had it by then. */
  lemma AlreadyThere(s: set<NodeId>, hj: Hist, hn: Hist, h: Hist, fa: seq<LogEntry>, ka: nat, ta: Term,
      fc: seq<LogEntry>, x: nat, tc: Term)
    requires Later(hj, h) && Later(hn, h) && LeadersComplete(s, h)
    requires LogOk(hj, fa, ta) && Committed(s, hj, fa, ka, ta) && Committed(s, hn, fc, x, tc) && 0 < x <= ka
    ensures fc[x - 1].term in hj.reigns && x <= |hj.reigns[fc[x - 1].term].log|
  {
    CommittedStable(s, hj, h, fa, ka, ta, ta);
    CommittedStable(s, hn, h, fc, x, tc, tc);
    CommittedAgree(s, h, fc, x, tc, fa, ka, ta);
    assert fa[x - 1] == fc[x - 1];
  }

  lemma LeaderIndex(cfg: Config, c: Cluster, h: Hist, b: NodeId)
    requires Sound(cfg, c, h) && b in c.hosts && c.hosts[b].node.role == Leader
    ensures c.hosts[b].node.currentTerm in h.reigns
    ensures c.hosts[b].node.log.LastIndex() == |h.reigns[c.hosts[b].node.currentTerm].log|
  {
    assert NodeOk(cfg, h, b, c.hosts[b].node);
  }

  /** The step that emits a command leaves it in the channel. */
  lemma EmittedQueued(cfg: Config, r: Run, n: nat, e: Applied)
    requires IsRun(cfg, r) && n < |r.steps| && Emits(cfg, r, n, e)
    ensures r.steps[n].at in r.states[n + 1].hosts && ApplyCommand(e) in r.states[n + 1].hosts[r.steps[n].at].channel
  {
    assert StepAt(cfg, r, n);
  }

  lemma LateProposal(cfg: Config, r: Run, hs: seq<Hist>, j: nat, a: NodeId, e: Applied, m: nat, b: NodeId,
      command: Bytes, n: nat, c: NodeId, e': Applied)
    requires Chronicle(cfg, r, hs) && |hs| == |r.states| && j <= m < |hs| && n < |hs|
    requires a in r.states[j].hosts && ApplyCommand(e) in r.states[j].hosts[a].channel
    requires c in r.states[n].hosts && ApplyCommand(e') in r.states[n].hosts[c].channel
    requires Proposes(r, m, b, command, e'.term, e'.index)
    ensures e.index < e'.index
  {
    var last := |hs| - 1;
    ChronicleSound(cfg, r, hs, j);
    ChronicleSound(cfg, r, hs, m);
    ChronicleSound(cfg, r, hs, n);
    ChronicleSound(cfg, r, hs, last);
    QueuedCommitted(cfg, r.states[j], hs[j], a, e);
    QueuedCommitted(cfg, r.states[n], hs[n], c, e');
    LeaderIndex(cfg, r.states[m], hs[m], b);
    ChronicleLater(cfg, r, hs, j, m);
    if e'.index <= e.index {
      ChronicleLater(cfg, r, hs, j, last);
      ChronicleLater(cfg, r, hs, n, last);
      AlreadyThere(cfg.servers, hs[j], hs[n], hs[last], hs[j].nodes[a].full, e.index, r.states[j].hosts[a].node.currentTerm,
                   hs[n].nodes[c].full, e'.index, r.states[n].hosts[c].node.currentTerm);
    }
  }

  /**
    Real-time order: a request proposed after command `e` was answered, and whose entry
    is emitted anywhere at any time, has a higher index than `e`.
  */
  lemma RealTimeOrder(cfg: Config, r: Run, j: nat, a: NodeId, e: Applied, m: nat, b: NodeId, command: Bytes,
      n: nat, e': Applied)
    requires IsRun(cfg, r) && Responds(r, j, a, e) && j < m && n < |r.steps|
    requires Proposes(r, m, b, command, e'.term, e'.index) && Emits(cfg, r, n, e')
    ensures e.index < e'.index
  {
    var hs := HasChronicle(cfg, r, |r.states| - 1);
    EmittedQueued(cfg, r, n, e');
    assert r.states[j].hosts[a].channel[0] in r.states[j].hosts[a].channel;
    LateProposal(cfg, r, hs, j, a, e, m, b, command, n + 1, r.steps[n].at, e');
  }
}
