/**
  The driver's tick (src/raft/node.rs): what it decides under the lock, the messages it
  hands to the transport, and the single drain of the apply stream.
*/
module Driver {
  import opened Types
  import opened Rpc
  import opened Consensus
  import opened Cluster
  import opened ConsensusObject

  /** A lagging peer gets the snapshot on heartbeats; any other peer gets entries, or a heartbeat. */
  predicate Sends(n: Node, peer: NodeId, due: bool) {
    if n.NeedsSnapshot(peer) then due else due || n.AppendArgsFor(peer).entries != []
  }

  function Messages(n: Node, peers: seq<NodeId>, due: bool): seq<Packet> {
    if peers == [] then []
    else
      var peer := peers[|peers| - 1];
      Messages(n, peers[..|peers| - 1], due) + (if Sends(n, peer, due) then [Outgoing(n, peer)] else [])
  }

  function Polls(id: NodeId, peers: seq<NodeId>, args: RequestVoteArgs): seq<Packet> {
    seq(|peers|, k requires 0 <= k < |peers| => VoteReq(id, peers[k], args))
  }

  /** The tick's decision: the node after it and the messages to send. */
  function Decide(n: Node, due: bool, now: nat, timeout: nat): (Node, seq<Packet>) {
    if n.role == Leader then (n, Messages(n, n.peers, due))
    else if n.PreVoteSucceeded() then
      var (n', args) := n.StartElection(now, timeout);
      (n', Polls(n.id, n.peers, args))
    else if n.ElectionTimedOut(now) then
      var (n', args) := n.StartPreElection(now, timeout);
      (n', Polls(n.id, n.peers, args))
    else (n, [])
  }

  // ---- the tick is made of cluster steps ----

  lemma {:induction false} MessagesAre(n: Node, peers: seq<NodeId>, due: bool, p: Packet)
    ensures p in Messages(n, peers, due) <==> exists k :: 0 <= k < |peers| && Sends(n, peers[k], due) && p == Outgoing(n, peers[k])
  {
    if peers != [] {
      var front, last := peers[..|peers| - 1], |peers| - 1;
      MessagesAre(n, front, due, p);
      if p in Messages(n, front, due) {
        var k :| 0 <= k < |front| && Sends(n, front[k], due) && p == Outgoing(n, front[k]);
        assert peers[k] == front[k];
      }
      if k :| 0 <= k < |peers| && Sends(n, peers[k], due) && p == Outgoing(n, peers[k]) {
        if k < last {
          assert front[k] == peers[k];
        }
      }
    }
  }

  /** The node and the messages are those of one step of the cluster. */
  ghost predicate IsStep(cfg: Config, x: Host, step: Step, n': Node, sent: seq<Packet>) {
    Guard(cfg, x, step) && Act(cfg, x, step).0 == x.(node := n') && forall p :: p in Act(cfg, x, step).1 <==> p in sent
  }

  /**
    Every tick is one election step, one pre-election step, or sends of a leader that
    leave it unchanged, each of them a step of the cluster.
  */
  lemma TickIsSteps(cfg: Config, x: Host, due: bool, now: nat, timeout: nat)
    requires TimeoutOk(cfg, timeout)
    ensures var n, (n', sent) := x.node, Decide(x.node, due, now, timeout);
            if n.role == Leader then
              n' == n && forall p :: p in sent ==> exists peer :: IsStep(cfg, x, TickSend(n.id, peer), n, [p])
            else if n.PreVoteSucceeded() then IsStep(cfg, x, TickElection(n.id, now, timeout), n', sent)
            else if n.ElectionTimedOut(now) then IsStep(cfg, x, TickPreElection(n.id, now, timeout), n', sent)
            else n' == n && sent == []
  {
    var n := x.node;
    if n.role == Leader {
      forall p | p in Messages(n, n.peers, due)
        ensures exists peer :: IsStep(cfg, x, TickSend(n.id, peer), n, [p])
      {
        SendIsStep(cfg, x, due, p);
      }
    } else if n.PreVoteSucceeded() {
      ElectionIsStep(cfg, x, now, timeout);
    } else if n.ElectionTimedOut(now) {
      PreElectionIsStep(cfg, x, now, timeout);
    }
  }

  lemma SendIsStep(cfg: Config, x: Host, due: bool, p: Packet)
    requires x.node.role == Leader && p in Messages(x.node, x.node.peers, due)
    ensures exists peer :: IsStep(cfg, x, TickSend(x.node.id, peer), x.node, [p])
  {
    var n := x.node;
    MessagesAre(n, n.peers, due, p);
    var k :| 0 <= k < |n.peers| && Sends(n, n.peers[k], due) && p == Outgoing(n, n.peers[k]);
    var step := TickSend(n.id, n.peers[k]);
    assert Act(cfg, x, step) == (x, {p});
    assert IsStep(cfg, x, step, n, [p]);
  }

  lemma ElectionIsStep(cfg: Config, x: Host, now: nat, timeout: nat)
    requires TimeoutOk(cfg, timeout) && x.node.role != Leader && x.node.PreVoteSucceeded()
    ensures var (n', args) := x.node.StartElection(now, timeout);
            IsStep(cfg, x, TickElection(x.node.id, now, timeout), n', Polls(x.node.id, x.node.peers, args))
  {
    PollsBroadcast(x.node, x.node.StartElection(now, timeout).1);
  }

  lemma PreElectionIsStep(cfg: Config, x: Host, now: nat, timeout: nat)
    requires TimeoutOk(cfg, timeout) && x.node.role != Leader && !x.node.PreVoteSucceeded() && x.node.ElectionTimedOut(now)
    ensures var (n', args) := x.node.StartPreElection(now, timeout);
            IsStep(cfg, x, TickPreElection(x.node.id, now, timeout), n', Polls(x.node.id, x.node.peers, args))
  {
    PollsBroadcast(x.node, x.node.StartPreElection(now, timeout).1);
  }

  lemma PollsBroadcast(n: Node, args: RequestVoteArgs)
    ensures forall p :: p in Broadcast(n, args) <==> p in Polls(n.id, n.peers, args)
  {
    var polls := Polls(n.id, n.peers, args);
    forall q | q in n.peers
      ensures VoteReq(n.id, q, args) in polls
    {
      var k :| 0 <= k < |n.peers| && n.peers[k] == q;
      assert polls[k] == VoteReq(n.id, q, args);
    }
  }

  // ---- the code ----

  class DriverLoop {
    const core: ConsensusModule
    const timing: Timing
    var lastHeartbeat: int

    constructor (core: ConsensusModule, timing: Timing, now: nat)
      ensures this.core == core && this.timing == timing && lastHeartbeat == now - timing.heartbeat
    {
      this.core, this.timing := core, timing;
      lastHeartbeat := now - timing.heartbeat;
    }

    method Replicate(due: bool) returns (sent: seq<Packet>)
      ensures sent == Messages(core.View(), core.peers, due)
    {
      sent := [];
      for k := 0 to |core.peers|
        invariant sent == Messages(core.View(), core.peers[..k], due)
      {
        var n, peer := core.View(), core.peers[k];
        assert core.peers[..k + 1][..k] == core.peers[..k];
        if n.NeedsSnapshot(peer) {
          if due {
            sent := sent + [InstallReq(core.id, peer, n.GetInstallSnapshotArgs())];
          }
        } else {
          var args := n.AppendArgsFor(peer);
          if due || args.entries != [] {
            sent := sent + [AppendReq(core.id, peer, args)];
          }
        }
      }
      assert core.peers[..|core.peers|] == core.peers;
    }

    method Poll(args: RequestVoteArgs) returns (sent: seq<Packet>)
      ensures sent == Polls(core.id, core.peers, args)
    {
      sent := [];
      for k := 0 to |core.peers|
        invariant sent == Polls(core.id, core.peers[..k], args)
      {
        sent := sent + [VoteReq(core.id, core.peers[k], args)];
      }
    }

    /** One tick: decide, then drain the apply stream. */
    method Tick(now: nat, timeout: nat) returns (sent: seq<Packet>, applied: seq<Apply>)
      requires core.Mirror()
      requires core.log.snapshotIndex <= core.lastApplied && core.commitIndex <= core.log.Value().LastIndex()
      modifies this, core, core.storage
      ensures var due := now - old(lastHeartbeat) >= timing.heartbeat;
              var (n', out) := Decide(old(core.View()), due, now, timeout);
              && sent == out && (core.View(), applied) == n'.TakeApplies() && core.Mirror()
              && lastHeartbeat == if old(core.role) == Leader && due && out != [] then now else old(lastHeartbeat)
    {
      sent := [];
      if core.role == Leader {
        var due := now - lastHeartbeat >= timing.heartbeat;
        sent := Replicate(due);
        if sent != [] && due {
          lastHeartbeat := now;
        }
      } else {
        var won := core.PreVoteSucceeded();
        if won {
          var args := core.StartElection(now, timeout);
          sent := Poll(args);
        } else if now >= core.electionDeadline {
          var args := core.StartPreElection(now, timeout);
          sent := Poll(args);
        }
      }
      applied := core.TakeApplies();
    }
  }
}
