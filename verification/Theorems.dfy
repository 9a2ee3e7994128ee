/**
  The safety theorems, stated over runs alone: no history appears in them.
  A run may lose, duplicate and reorder messages, compact logs, install snapshots
  and crash and restart any node any number of times.
*/
module Theorems {
  import opened Types
  import opened Quorums
  import opened Consensus
  import opened App
  import opened Cluster
  import opened History
  import opened HistoryFacts
  import opened LogRefinement
  import opened Invariant
  import opened ApplyStream
  import opened DataInvariant
  import opened Runs

  // ---- one log behind the whole run ----

  /** Whatever the process holds as committed, stored, queued or applied is `log`'s. */
  ghost predicate Embodies(cfg: Config, log: seq<LogEntry>, x: Host) {
    && x.node.commitIndex <= |log|
    && (forall k :: x.node.log.snapshotIndex < k <= x.node.commitIndex ==> x.node.log.Get(k) == Some(log[k - 1]))
    && DataOk(cfg, log, x)
  }

  ghost predicate AllEmbody(cfg: Config, log: seq<LogEntry>, c: Cluster) {
    forall i {:trigger Embodies(cfg, log, c.hosts[i])} :: i in c.hosts ==> Embodies(cfg, log, c.hosts[i])
  }

  /** `log` is committed in `h`, by some term. */
  ghost predicate Agreed(cfg: Config, h: Hist, log: seq<LogEntry>) {
    exists t: Term :: Committed(cfg.servers, h, log, |log|, t)
  }

  lemma HostEmbodies(cfg: Config, h: Hist, i: NodeId, x: Host, log: seq<LogEntry>)
    requires NodeOk(cfg, h, i, x.node) && DataOk(cfg, h.nodes[i].full, x)
    requires Agree(h.nodes[i].full, log, x.node.commitIndex)
    ensures Embodies(cfg, log, x)
  {
    SameDataOk(cfg, h.nodes[i].full, log, x, x);
    forall k | x.node.log.snapshotIndex < k <= x.node.commitIndex
      ensures x.node.log.Get(k) == Some(log[k - 1])
    {
      AccessorsAgree(x.node.log, h.nodes[i].full, k);
    }
  }

  /** The longer of an agreed log and a node's committed prefix, and their agreement. */
  lemma Longer(cfg: Config, h: Hist, i: NodeId, n: Node, log: seq<LogEntry>) returns (log': seq<LogEntry>)
    requires LeadersComplete(cfg.servers, h) && NodeOk(cfg, h, i, n) && Agreed(cfg, h, log)
    ensures Agreed(cfg, h, log') && log <= log' && Agree(h.nodes[i].full, log', n.commitIndex)
  {
    var full, k := h.nodes[i].full, n.commitIndex;
    var t: Term :| Committed(cfg.servers, h, log, |log|, t);
    if k <= |log| {
      CommittedAgree(cfg.servers, h, full, k, n.currentTerm, log, |log|, t);
      log' := log;
    } else {
      CommittedAgree(cfg.servers, h, log, |log|, t, full, k, n.currentTerm);
      log' := full[..k];
      CommittedOver(cfg.servers, h, full, log', k, n.currentTerm);
      assert log == log'[..|log|];
    }
  }

  lemma EmbodiesMore(cfg: Config, log: seq<LogEntry>, log': seq<LogEntry>, x: Host)
    requires Embodies(cfg, log, x) && log <= log' && x.node.lastApplied <= |log|
    ensures Embodies(cfg, log', x)
  {
    SameDataOk(cfg, log, log', x, x);
  }

  ghost predicate Covers(cfg: Config, r: Run, k: nat, log: seq<LogEntry>)
    requires k < |r.states|
  {
    forall j {:trigger AllEmbody(cfg, log, r.states[j])} :: 0 <= j <= k ==> AllEmbody(cfg, log, r.states[j])
  }

  lemma CoversMore(cfg: Config, r: Run, k: nat, log: seq<LogEntry>, log': seq<LogEntry>)
    requires 0 < k < |r.states| && Covers(cfg, r, k - 1, log) && log <= log' && AllEmbody(cfg, log', r.states[k])
    ensures Covers(cfg, r, k, log')
  {
    forall j | 0 <= j <= k
      ensures AllEmbody(cfg, log', r.states[j])
    {
      if j < k {
        ClusterMore(cfg, log, log', r.states[j]);
      }
    }
  }

  lemma ClusterMore(cfg: Config, log: seq<LogEntry>, log': seq<LogEntry>, c: Cluster)
    requires AllEmbody(cfg, log, c) && log <= log'
    ensures AllEmbody(cfg, log', c)
  {
    forall i | i in c.hosts
      ensures Embodies(cfg, log', c.hosts[i])
    {
      EmbodiesMore(cfg, log, log', c.hosts[i]);
    }
  }

  lemma AgreedLater(cfg: Config, h: Hist, h': Hist, log: seq<LogEntry>)
    requires Agreed(cfg, h, log) && Later(h, h')
    ensures Agreed(cfg, h', log)
  {
    var t: Term :| Committed(cfg.servers, h, log, |log|, t);
    CommittedStable(cfg.servers, h, h', log, |log|, t, t);
  }

  /** A state whose processes other than `i` embody `log`: one extension embodies them all. */
  lemma StepEmbodies(cfg: Config, c: Cluster, h: Hist, i: NodeId, log: seq<LogEntry>) returns (log': seq<LogEntry>)
    requires Sound(cfg, c, h) && Agreed(cfg, h, log) && i in c.hosts
    requires forall j :: j in c.hosts && j != i ==> Embodies(cfg, log, c.hosts[j])
    ensures Agreed(cfg, h, log') && log <= log' && AllEmbody(cfg, log', c)
  {
    assert NodeOk(cfg, h, i, c.hosts[i].node) && DataOk(cfg, h.nodes[i].full, c.hosts[i]);
    log' := Longer(cfg, h, i, c.hosts[i].node, log);
    HostEmbodies(cfg, h, i, c.hosts[i], log');
    forall j | j in c.hosts
      ensures Embodies(cfg, log', c.hosts[j])
    {
      if j != i {
        EmbodiesMore(cfg, log, log', c.hosts[j]);
      }
    }
  }

  lemma OneLogStep(cfg: Config, c: Cluster, h: Hist, log: seq<LogEntry>, step: Step, c': Cluster, h': Hist)
      returns (log': seq<LogEntry>)
    requires Agreed(cfg, h, log) && AllEmbody(cfg, log, c) && StepsTo(cfg, c, step, c')
    requires Later(h, h') && Sound(cfg, c', h')
    ensures Agreed(cfg, h', log') && log <= log' && AllEmbody(cfg, log', c')
  {
    AgreedLater(cfg, h, h', log);
    OthersSame(cfg, c, step, c', log);
    log' := StepEmbodies(cfg, c', h', step.at, log);
  }

  lemma OneLogNext(cfg: Config, r: Run, hs: seq<Hist>, k: nat, k': nat, log: seq<LogEntry>) returns (log': seq<LogEntry>)
    requires IsRun(cfg, r) && Chronicle(cfg, r, hs) && k' == k + 1 && k' < |hs|
    requires Agreed(cfg, hs[k], log) && AllEmbody(cfg, log, r.states[k])
    ensures Agreed(cfg, hs[k'], log') && log <= log' && AllEmbody(cfg, log', r.states[k'])
  {
    ChronicleSound(cfg, r, hs, k');
    ChronicleEvolves(cfg, r, hs, k, k');
    StepBetween(cfg, r, k, k');
    log' := OneLogStep(cfg, r.states[k], hs[k], log, r.steps[k], r.states[k'], hs[k']);
  }

  lemma OneLogStart(cfg: Config, r: Run, hs: seq<Hist>)
    requires IsRun(cfg, r) && Chronicle(cfg, r, hs) && hs != []
    ensures Agreed(cfg, hs[0], []) && Covers(cfg, r, 0, [])
  {
    ChronicleSound(cfg, r, hs, 0);
    InitEmbodies(cfg, r.states[0], hs[0]);
  }

  /** One log, agreed in the chronicle's history of state `k`, that every state so far embodies. */
  lemma {:induction false} OneLogUpTo(cfg: Config, r: Run, hs: seq<Hist>, k: nat) returns (log: seq<LogEntry>)
    requires IsRun(cfg, r) && Chronicle(cfg, r, hs) && k < |hs|
    ensures Agreed(cfg, hs[k], log) && Covers(cfg, r, k, log)
  {
    if k == 0 {
      OneLogStart(cfg, r, hs);
      log := [];
    } else {
      var j := k - 1;
      var log0 := OneLogUpTo(cfg, r, hs, j);
      assert AllEmbody(cfg, log0, r.states[j]);
      log := OneLogNext(cfg, r, hs, j, k, log0);
      CoversMore(cfg, r, k, log0, log);
    }
  }

  lemma OthersSame(cfg: Config, c: Cluster, step: Step, c': Cluster, log: seq<LogEntry>)
    requires StepsTo(cfg, c, step, c') && AllEmbody(cfg, log, c)
    ensures step.at in c'.hosts && forall j :: j in c'.hosts && j != step.at ==> Embodies(cfg, log, c'.hosts[j])
  {
    forall j | j in c'.hosts && j != step.at
      ensures Embodies(cfg, log, c'.hosts[j])
    {
      assert c'.hosts[j] == c.hosts[j];
    }
  }

  lemma InitEmbodies(cfg: Config, c: Cluster, h: Hist)
    requires Init(cfg, c) && Sound(cfg, c, h)
    ensures Agreed(cfg, h, []) && AllEmbody(cfg, [], c)
  {
    assert Committed(cfg.servers, h, [], 0, 0);
    forall i | i in c.hosts
      ensures Embodies(cfg, [], c.hosts[i])
    {
      assert Booted(cfg, i, c.hosts[i]);
      HostEmbodies(cfg, h, i, c.hosts[i], []);
    }
  }

  /**
    State machine safety and snapshot substitution in one: behind every run there is
    one log such that every process, in every state, holds its entries as committed,
    queues its entries and snapshots of its prefixes, stores a snapshot of a prefix,
    and has an application state equal to replaying a prefix on an empty store.
  */
  lemma OneLog(cfg: Config, r: Run) returns (log: seq<LogEntry>)
    requires IsRun(cfg, r)
    ensures Covers(cfg, r, |r.states| - 1, log)
  {
    var last := |r.states| - 1;
    var hs := HasChronicle(cfg, r, last);
    log := OneLogUpTo(cfg, r, hs, last);
  }

  lemma OnOneLog(cfg: Config, r: Run, log: seq<LogEntry>, k: nat, i: NodeId)
    requires r.states != [] && Covers(cfg, r, |r.states| - 1, log) && k < |r.states| && i in r.states[k].hosts
    ensures Embodies(cfg, log, r.states[k].hosts[i])
  {
    assert AllEmbody(cfg, log, r.states[k]);
  }

  // ---- state machine safety ----

  /** Step `k` of the run hands command `e` to the apply channel of its process. */
  ghost predicate Emits(cfg: Config, r: Run, k: nat, e: Applied)
    requires IsRun(cfg, r) && k < |r.steps|
  {
    && r.steps[k].Drain?
    && r.steps[k].at in r.states[k].hosts
    && ApplyCommand(e) in r.states[k].hosts[r.steps[k].at].node.TakeApplies().1
  }

  lemma QueuedOnLog(cfg: Config, log: seq<LogEntry>, x: Host, e: Applied)
    requires DataOk(cfg, log, x) && ApplyCommand(e) in x.channel
    ensures 0 < e.index <= x.node.lastApplied && log[e.index - 1] == LogEntry(e.term, e.command)
  {
    var k :| 0 <= k < |x.channel| && x.channel[k] == ApplyCommand(e);
    var pos := PositionAt(x.pos, x.channel, k);
    assert Along(cfg, log[..x.node.lastApplied])(pos, x.channel[k]);
    assert ItemOk(cfg, log[..x.node.lastApplied], pos, x.channel[k]);
  }

  lemma EmittedOnLog(cfg: Config, r: Run, k: nat, e: Applied, log: seq<LogEntry>)
    requires IsRun(cfg, r) && k < |r.steps| && Emits(cfg, r, k, e) && Covers(cfg, r, |r.states| - 1, log)
    ensures 0 < e.index <= |log| && log[e.index - 1] == LogEntry(e.term, e.command)
  {
    var i := r.steps[k].at;
    assert StepAt(cfg, r, k);
    OnOneLog(cfg, r, log, k + 1, i);
    QueuedOnLog(cfg, log, r.states[k + 1].hosts[i], e);
  }

  /** No two processes ever emit different commands at one index; neither does one process in two lives. */
  lemma StateMachineSafety(cfg: Config, r: Run, j: nat, e: Applied, k: nat, e': Applied)
    requires IsRun(cfg, r) && j < |r.steps| && k < |r.steps|
    requires Emits(cfg, r, j, e) && Emits(cfg, r, k, e') && e.index == e'.index
    ensures e == e'
  {
    var log := OneLog(cfg, r);
    EmittedOnLog(cfg, r, j, e, log);
    EmittedOnLog(cfg, r, k, e', log);
  }

  lemma AppIsReplay(cfg: Config, log: seq<LogEntry>, x: Host)
    requires Embodies(cfg, log, x)
    ensures x.pos <= |log| && x.app == Replay(cfg.decode, log[..x.pos])
  {
    assert log[..x.node.lastApplied][..x.pos] == log[..x.pos];
  }

  /** Applications at the same position are in the same state, however each got there. */
  lemma ApplicationsAgree(cfg: Config, r: Run, j: nat, a: NodeId, k: nat, b: NodeId)
    requires IsRun(cfg, r) && j < |r.states| && k < |r.states|
    requires a in r.states[j].hosts && b in r.states[k].hosts
    requires r.states[j].hosts[a].pos == r.states[k].hosts[b].pos
    ensures r.states[j].hosts[a].app == r.states[k].hosts[b].app
  {
    var log := OneLog(cfg, r);
    OnOneLog(cfg, r, log, j, a);
    OnOneLog(cfg, r, log, k, b);
    AppIsReplay(cfg, log, r.states[j].hosts[a]);
    AppIsReplay(cfg, log, r.states[k].hosts[b]);
  }

  // ---- elections ----

  ghost predicate Leads(r: Run, k: nat, i: NodeId, t: Term)
    requires k < |r.states|
  {
    i in r.states[k].hosts && r.states[k].hosts[i].node.role == Leader && r.states[k].hosts[i].node.currentTerm == t
  }

  /** At most one node is ever leader of a term, whatever crashes in between. */
  lemma ElectionSafety(cfg: Config, r: Run, j: nat, a: NodeId, k: nat, b: NodeId, t: Term)
    requires IsRun(cfg, r) && j <= k < |r.states|
    requires Leads(r, j, a, t) && Leads(r, k, b, t)
    ensures a == b
  {
    var hj, hk := ReachBoth(cfg, r, j, k);
    assert LeaderOk(hj, a, r.states[j].hosts[a].node);
    assert LeaderOk(hk, b, r.states[k].hosts[b].node);
  }

  // ---- leader completeness ----

  /** A chosen entry was already in the log of every leader of a later term when it took over. */
  lemma ChosenInLeader(s: set<NodeId>, h: Hist, h': Hist, ct: Term, n: nat, t: Term)
    requires Valid(s, h) && Later(h, h') && Chosen(s, h', ct, n) && ct < t && t in h.reigns
    ensures ct in h.reigns && n <= |h.reigns[ct].log| && Agree(h.reigns[ct].log, h.reigns[t].log, n)
  {
    ChosenIsPinned(s, h', ct, n);
    ChoosableStable(s, h, h', ct, n);
    if ct in h.reigns && n <= |h.reigns[ct].log| {
      PinnedStable(s, h, h', ct, n);
    } else {
      LateEntryUnchosen(s, h, h', ct, n, t);
      assert false;
    }
  }

  /** What a leader appends after a later one was elected is never chosen. */
  lemma LateEntryUnchosen(s: set<NodeId>, h: Hist, h': Hist, ct: Term, n: nat, t: Term)
    requires ReignsOk(s, h) && RecordsOk(h) && Later(h, h') && ct < t && t in h.reigns && 0 < n
    requires ct in h.reigns ==> |h.reigns[ct].log| < n
    ensures !Choosable(s, h', ct, n)
  {
    assert ReignOk(s, h, t);
    var q := h.reigns[t].electors;
    forall p | IsQuorum(s, p)
      ensures !ChoosableBy(h', ct, n, p)
    {
      var v := QuorumsMeet(s, p, q);
      assert Ack(h', v, ct) == Ack(h, v, ct);
      assert (v, ct) in h.acks ==> AckOk(h, (v, ct));
    }
  }
}
