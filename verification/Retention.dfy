/**
  A committed entry is durable: once a node holds it as committed it holds it for good,
  in its log or under its snapshot, through splices, installs and restarts.  A restart
  forgets that the entry was committed, so the argument carries the entry itself.
*/
module Retention {
  import opened Types
  import opened Rpc
  import opened Consensus
  import opened Cluster
  import opened History
  import opened HistorySteps
  import opened HistoryFacts
  import opened LogRefinement
  import opened Invariant
  import opened ElectionSteps
  import opened ReplicationSteps
  import opened SnapshotSteps
  import opened Runs
  import opened LogTheorems
  import opened Justification
  import opened Provenance

  /** The first `k` entries of `log` are committed, and node `i` has them. */
  ghost predicate Retained(cfg: Config, h: Hist, i: NodeId, t: Term, log: seq<LogEntry>, k: nat) {
    i in h.nodes && Committed(cfg.servers, h, log, k, t) && Agree(log, h.nodes[i].full, k)
  }

  // ---- the log after a step, as a plain sequence that still starts with the committed entries ----

  /** A log that adopts a leader's keeps what is committed, since the leader has it. */
  lemma AdoptedRetains(cfg: Config, h: Hist, i: NodeId, t: Term, log: seq<LogEntry>, k: nat, m: nat)
    requires LeadersComplete(cfg.servers, h) && Retained(cfg, h, i, t, log, k)
    requires t in h.reigns && m <= |h.reigns[t].log|
    ensures Agree(log, Adopted(h.nodes[i].full, h.reigns[t].log, m), k)
  {
    CommittedHeld(cfg.servers, h, log, k, t);
    AdoptedKeeps(log, k, h.nodes[i].full, h.reigns[t].log, m);
  }

  lemma SpliceInTerm(cfg: Config, h: Hist, i: NodeId, n: Node, a: AppendEntriesArgs, log': Log,
      log: seq<LogEntry>, k: nat) returns (plain: seq<LogEntry>)
    requires Valid(cfg.servers, h) && i in h.nodes && DurableOk(h, i, n) && CursorsOk(cfg, h, i, n)
    requires a.term == n.currentTerm
    requires AppendReqOk(cfg, h, a.leaderId, a) && n.PrevMatches(a) && log' == Splice(n.log, a.prevLogIndex, a.entries)
    requires Retained(cfg, h, i, a.term, log, k)
    ensures Represents(log', plain) && Agree(log, plain, k)
  {
    var m := a.prevLogIndex + |a.entries|;
    AcceptedLog(cfg, h, i, n, a, m, log');
    AdoptedRetains(cfg, h, i, a.term, log, k, m);
    plain := Adopted(h.nodes[i].full, h.reigns[a.term].log, m);
  }

  lemma SpliceRetains(cfg: Config, h: Hist, i: NodeId, n: Node, a: AppendEntriesArgs, log': Log,
      log: seq<LogEntry>, k: nat) returns (plain: seq<LogEntry>)
    requires Ready(cfg, h, i, n) && n.currentTerm <= a.term
    requires AppendReqOk(cfg, h, a.leaderId, a) && n.PrevMatches(a) && log' == Splice(n.log, a.prevLogIndex, a.entries)
    requires Retained(cfg, h, i, n.currentTerm, log, k)
    ensures Represents(log', plain) && Agree(log, plain, k)
  {
    var n1 := n.YieldTo(a.term, a.leaderId, 0, 0);
    YieldKeepsCheck(n, a);
    var h1 := Yielded(cfg, h, i, n, n1, a);
    CommittedStable(cfg.servers, h, h1, log, k, n.currentTerm, a.term);
    plain := SpliceInTerm(cfg, h1, i, n1, a, log', log, k);
  }

  lemma InstallRetains(cfg: Config, h: Hist, i: NodeId, n: Node, a: InstallSnapshotArgs, log: seq<LogEntry>, k: nat)
      returns (plain: seq<LogEntry>)
    requires Ready(cfg, h, i, n) && n.currentTerm <= a.term && InstallReqOk(cfg, h, a.leaderId, a)
    requires n.commitIndex < a.lastIncludedIndex && Retained(cfg, h, i, n.currentTerm, log, k)
    ensures Represents(n.log.Compact(a.lastIncludedIndex, a.lastIncludedTerm), plain) && Agree(log, plain, k)
  {
    var full, leader, m := h.nodes[i].full, h.reigns[a.term].log, a.lastIncludedIndex;
    assert ReignOk(cfg.servers, h, a.term);
    InstalledPlain(h, n.log, full, h.nodes[i].cur, leader, a.term, m);
    LaterSelf(h);
    CommittedStable(cfg.servers, h, h, log, k, n.currentTerm, a.term);
    AdoptedRetains(cfg, h, i, a.term, log, k, m);
    plain := Adopted(full, leader, m);
  }

  lemma InstalledPlain(h: Hist, log: Log, full: seq<LogEntry>, hi: Term, leader: seq<LogEntry>, t: Term, m: LogIndex)
    requires Represents(log, full) && LogOk(h, full, hi) && LogOk(h, leader, t) && log.snapshotIndex < m <= |leader|
    ensures Represents(log.Compact(m, PlainTerm(leader, m)), Adopted(full, leader, m))
  {
    LogMatching(h, full, leader, hi, t);
    InstalledLog(log, full, leader, m);
  }

  lemma LocalRetains(cfg: Config, x: Host, step: Step, full: seq<LogEntry>, log: seq<LogEntry>, k: nat)
      returns (plain: seq<LogEntry>)
    requires Guard(cfg, x, step) && !step.DeliverAppendReq? && !step.DeliverInstallReq?
    requires Represents(x.node.log, full) && x.node.lastApplied <= |full| && Agree(log, full, k)
    ensures Represents(Act(cfg, x, step).0.node.log, plain) && Agree(log, plain, k)
  {
    var n := x.node;
    plain := full;
    if step.Propose? {
      LogAfterEntries(cfg, x, step);
      if Act(cfg, x, step).0.node.log != n.log {
        var e := LogEntry(n.currentTerm, step.command);
        AppendRefines(n.log, full, e);
        plain := full + [e];
      }
    } else if step.Compact? {
      TakenPlain(n, full, x.pos, step.data);
    } else {
      LogAfterOther(cfg, x, step);
    }
  }

  lemma TakenPlain(n: Node, full: seq<LogEntry>, index: LogIndex, data: Bytes)
    requires Represents(n.log, full) && n.lastApplied <= |full|
    ensures Represents(n.TakeSnapshot(index, data).log, full)
  {
    if n.log.snapshotIndex < index <= n.lastApplied {
      AccessorsAgree(n.log, full, index);
      CompactRefines(n.log, full, index);
    }
  }

  lemma InstallMoves(cfg: Config, x: Host, step: Step)
    requires Guard(cfg, x, step) && step.DeliverInstallReq?
    ensures var n, a, log' := x.node, step.packet.install, Act(cfg, x, step).0.node.log;
            log' == if n.currentTerm <= a.term && n.commitIndex < a.lastIncludedIndex
                    then n.log.Compact(a.lastIncludedIndex, a.lastIncludedTerm) else n.log
  {
  }

  lemma PacketReady(cfg: Config, h: Hist, p: Packet)
    requires PacketOk(cfg, h, p)
    ensures p.AppendReq? ==> AppendReqOk(cfg, h, p.append.leaderId, p.append)
    ensures p.InstallReq? ==> InstallReqOk(cfg, h, p.install.leaderId, p.install)
  {
  }

  lemma StepRetains(cfg: Config, h: Hist, i: NodeId, x: Host, step: Step, log: seq<LogEntry>, k: nat)
      returns (plain: seq<LogEntry>)
    requires Ready(cfg, h, i, x.node) && Guard(cfg, x, step) && Retained(cfg, h, i, x.node.currentTerm, log, k)
    requires Delivers(step) ==> PacketOk(cfg, h, step.packet)
    ensures Represents(Act(cfg, x, step).0.node.log, plain) && Agree(log, plain, k)
  {
    var n, log' := x.node, Act(cfg, x, step).0.node.log;
    plain := h.nodes[i].full;
    if step.DeliverAppendReq? {
      LogAfterEntries(cfg, x, step);
      if log' != n.log {
        PacketReady(cfg, h, step.packet);
        plain := SpliceRetains(cfg, h, i, n, step.packet.append, log', log, k);
      }
    } else if step.DeliverInstallReq? {
      InstallMoves(cfg, x, step);
      if log' != n.log {
        PacketReady(cfg, h, step.packet);
        plain := InstallRetains(cfg, h, i, n, step.packet.install, log, k);
      }
    } else {
      plain := LocalRetains(cfg, x, step, h.nodes[i].full, log, k);
    }
  }

  // ---- the full log after a step ----

  /** The compacted prefix of a node is committed, so it agrees with anything committed. */
  lemma BoundaryAgrees(cfg: Config, h: Hist, i: NodeId, n: Node, log: seq<LogEntry>, k: nat)
    requires LeadersComplete(cfg.servers, h) && i in h.nodes && CursorsOk(cfg, h, i, n)
    requires Committed(cfg.servers, h, log, k, n.currentTerm)
    ensures Agree(log, h.nodes[i].full, Min(k, n.log.snapshotIndex))
  {
    var full, c, t := h.nodes[i].full, n.commitIndex, n.currentTerm;
    if k <= c {
      CommittedAgree(cfg.servers, h, log, k, t, full, c, t);
    } else {
      CommittedAgree(cfg.servers, h, full, c, t, log, k, t);
    }
  }

  /** Two plain logs of one compacted log differ at most below its boundary. */
  lemma AboveBoundary(log': Log, plain: seq<LogEntry>, full: seq<LogEntry>, log: seq<LogEntry>, k: nat)
    requires Represents(log', plain) && Represents(log', full) && Agree(log, plain, k)
    requires Agree(log, full, Min(k, log'.snapshotIndex))
    ensures Agree(log, full, k)
  {
    assert |plain| == |full|;
    forall j | log'.snapshotIndex <= j < |full|
      ensures full[j] == plain[j]
    {
      assert full[j] == log'.entries[j - log'.snapshotIndex] == plain[j];
    }
  }

  lemma NodeRetains(cfg: Config, h': Hist, i: NodeId, n': Node, plain: seq<LogEntry>, log: seq<LogEntry>, k: nat)
    requires LeadersComplete(cfg.servers, h') && NodeOk(cfg, h', i, n')
    requires Represents(n'.log, plain) && Agree(log, plain, k)
    requires Committed(cfg.servers, h', log, k, n'.currentTerm)
    ensures Retained(cfg, h', i, n'.currentTerm, log, k)
  {
    BoundaryAgrees(cfg, h', i, n', log, k);
    AboveBoundary(n'.log, plain, h'.nodes[i].full, log, k);
  }

  // ---- runs ----

  lemma CommittedOnward(cfg: Config, h: Hist, h': Hist, i: NodeId, n: Node, n': Node, log: seq<LogEntry>, k: nat)
    requires Later(h, h') && i in h.nodes && i in h'.nodes && DurableOk(h, i, n) && DurableOk(h', i, n')
    requires Committed(cfg.servers, h, log, k, n.currentTerm)
    ensures Committed(cfg.servers, h', log, k, n'.currentTerm)
  {
    CommittedStable(cfg.servers, h, h', log, k, n.currentTerm, n'.currentTerm);
  }

  lemma InvNode(cfg: Config, c: Cluster, h: Hist, i: NodeId)
    requires Inv(cfg, c, h) && i in c.hosts
    ensures Ready(cfg, h, i, c.hosts[i].node)
  {
  }

  /** The acting node keeps the entries. */
  lemma ActingRetains(cfg: Config, h: Hist, h': Hist, i: NodeId, x: Host, step: Step, log: seq<LogEntry>, k: nat)
    requires Ready(cfg, h, i, x.node) && Guard(cfg, x, step) && Retained(cfg, h, i, x.node.currentTerm, log, k)
    requires Delivers(step) ==> PacketOk(cfg, h, step.packet)
    requires Later(h, h') && LeadersComplete(cfg.servers, h') && NodeOk(cfg, h', i, Act(cfg, x, step).0.node)
    ensures Retained(cfg, h', i, Act(cfg, x, step).0.node.currentTerm, log, k)
  {
    var n' := Act(cfg, x, step).0.node;
    CommittedOnward(cfg, h, h', i, x.node, n', log, k);
    var plain := StepRetains(cfg, h, i, x, step, log, k);
    NodeRetains(cfg, h', i, n', plain, log, k);
  }

  /** So does every other node. */
  lemma OtherRetains(cfg: Config, h: Hist, h': Hist, i: NodeId, j: NodeId, n: Node, log: seq<LogEntry>, k: nat)
    requires Evolves(h, h', j) && i != j && Retained(cfg, h, i, n.currentTerm, log, k)
    ensures Retained(cfg, h', i, n.currentTerm, log, k)
  {
    CommittedStable(cfg.servers, h, h', log, k, n.currentTerm, n.currentTerm);
  }

  lemma ActorRetains(cfg: Config, c: Cluster, h: Hist, step: Step, h': Hist, log: seq<LogEntry>, k: nat)
    requires Inv(cfg, c, h) && Enabled(cfg, c, step) && Later(h, h')
    requires Ready(cfg, h', step.at, Act(cfg, c.hosts[step.at], step).0.node)
    requires Retained(cfg, h, step.at, c.hosts[step.at].node.currentTerm, log, k)
    ensures Retained(cfg, h', step.at, Act(cfg, c.hosts[step.at], step).0.node.currentTerm, log, k)
  {
    InvNode(cfg, c, h, step.at);
    ActingRetains(cfg, h, h', step.at, c.hosts[step.at], step, log, k);
  }

  lemma NextHost(cfg: Config, c: Cluster, step: Step, c': Cluster, i: NodeId)
    requires StepsTo(cfg, c, step, c') && i in c.hosts
    ensures i in c'.hosts && c'.hosts[i] == if i == step.at then Act(cfg, c.hosts[i], step).0 else c.hosts[i]
  {
  }

  lemma RetainedNext(cfg: Config, c: Cluster, h: Hist, step: Step, c': Cluster, h': Hist,
      i: NodeId, log: seq<LogEntry>, k: nat)
    requires Inv(cfg, c, h) && StepsTo(cfg, c, step, c') && Evolves(h, h', step.at) && i in c.hosts && i in c'.hosts
    requires Ready(cfg, h', i, c'.hosts[i].node) && Retained(cfg, h, i, c.hosts[i].node.currentTerm, log, k)
    ensures Retained(cfg, h', i, c'.hosts[i].node.currentTerm, log, k)
  {
    NextHost(cfg, c, step, c', i);
    if step.at == i {
      ActorRetains(cfg, c, h, step, h', log, k);
    } else {
      OtherRetains(cfg, h, h', i, step.at, c.hosts[i].node, log, k);
    }
  }

  /** In state `k` of the run node `i` has the first `m` entries of `log`, which are committed. */
  ghost predicate RetainedAt(cfg: Config, r: Run, hs: seq<Hist>, k: nat, i: NodeId, log: seq<LogEntry>, m: nat) {
    && k < |hs| && k < |r.states| && i in r.states[k].hosts
    && Retained(cfg, hs[k], i, r.states[k].hosts[i].node.currentTerm, log, m)
  }

  lemma RetainedStart(cfg: Config, r: Run, hs: seq<Hist>, j: nat, i: NodeId, n: Node) returns (log: seq<LogEntry>)
    requires Chronicle(cfg, r, hs) && j < |hs| && IsNode(r, j, i, n)
    ensures RetainedAt(cfg, r, hs, j, i, log, n.commitIndex) && Represents(n.log, log)
  {
    ChronicleSound(cfg, r, hs, j);
    NodeReached(cfg, r.states[j], hs[j], i);
    log := hs[j].nodes[i].full;
  }

  lemma ReadyAt(cfg: Config, r: Run, hs: seq<Hist>, k: nat, i: NodeId)
    requires Chronicle(cfg, r, hs) && k < |hs| && i in r.states[k].hosts
    ensures Ready(cfg, hs[k], i, r.states[k].hosts[i].node)
  {
    ChronicleSound(cfg, r, hs, k);
    InvNode(cfg, r.states[k], hs[k], i);
  }

  lemma RetainedStep(cfg: Config, r: Run, hs: seq<Hist>, k: nat, k': nat, i: NodeId, log: seq<LogEntry>, m: nat)
    requires IsRun(cfg, r) && Chronicle(cfg, r, hs) && k' == k + 1 && k' < |hs| && RetainedAt(cfg, r, hs, k, i, log, m)
    ensures RetainedAt(cfg, r, hs, k', i, log, m)
  {
    StepBetween(cfg, r, k, k');
    ChronicleSound(cfg, r, hs, k);
    ChronicleEvolves(cfg, r, hs, k, k');
    ReadyAt(cfg, r, hs, k', i);
    RetainedNext(cfg, r.states[k], hs[k], r.steps[k], r.states[k'], hs[k'], i, log, m);
  }

  /** What node `i` holds as committed in state `j` it has in every later state `k`. */
  lemma {:induction false} RetainedOnward(cfg: Config, r: Run, hs: seq<Hist>, j: nat, k: nat,
      i: NodeId, log: seq<LogEntry>, m: nat)
    requires IsRun(cfg, r) && Chronicle(cfg, r, hs) && j <= k < |hs| && RetainedAt(cfg, r, hs, j, i, log, m)
    ensures RetainedAt(cfg, r, hs, k, i, log, m)
    decreases k - j
  {
    if j < k {
      var j' := j + 1;
      RetainedStep(cfg, r, hs, j, j', i, log, m);
      RetainedOnward(cfg, r, hs, j', k, i, log, m);
    }
  }

  /**
    A committed entry is never lost or replaced: in every later state, restarts included, the
    node still holds it at its index, or has folded it into its snapshot.
  */
  lemma CommittedEntryStays(cfg: Config, r: Run, j: nat, n: Node, k: nat, n': Node, i: NodeId, m: LogIndex)
    requires IsRun(cfg, r) && j <= k && IsNode(r, j, i, n) && IsNode(r, k, i, n')
    requires n.log.snapshotIndex < m <= n.commitIndex
    ensures m <= n'.log.snapshotIndex || (n.log.Get(m).Some? && n'.log.Get(m) == n.log.Get(m))
  {
    var hs := HasChronicle(cfg, r, k);
    var log := RetainedStart(cfg, r, hs, j, i, n);
    RetainedOnward(cfg, r, hs, j, k, i, log, n.commitIndex);
    ChronicleSound(cfg, r, hs, k);
    InvNode(cfg, r.states[k], hs[k], i);
    EntryStays(n.log, log, n'.log, hs[k].nodes[i].full, n.commitIndex, m);
  }

  lemma EntryStays(a: Log, log: seq<LogEntry>, b: Log, full: seq<LogEntry>, k: nat, m: LogIndex)
    requires Represents(a, log) && Represents(b, full) && Agree(log, full, k) && a.snapshotIndex < m <= k
    ensures m <= b.snapshotIndex || (a.Get(m).Some? && b.Get(m) == a.Get(m))
  {
    AccessorsAgree(a, log, m);
    if b.snapshotIndex < m {
      AccessorsAgree(b, full, m);
    }
  }
}
