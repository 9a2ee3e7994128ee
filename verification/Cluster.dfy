/**
  A cluster: N nodes, each with its apply channel and its state machine, and the
  set of all messages ever sent.  Delivering any sent message at any time, any
  number of times or never covers loss, duplication and reordering.

  A step is one call into one node: a decision of the driver's tick loop
  (src/raft/node.rs), an RPC or a reply delivered by the transport, a proposal, a
  drain of the apply stream, one round of the apply loop, or a crash.  A reply
  packet carries what the sender of the request remembers about it.
*/
module Cluster {
  import opened Types
  import opened Rpc
  import opened Storage
  import opened Consensus
  import opened App
  import opened SnapshotCodec

  /** The fixed membership, the timing and the decoder of log commands. */
  datatype Config = Config(servers: set<NodeId>, timing: Timing, decode: Bytes -> Option<Command>)

  datatype Packet =
    | VoteReq(src: NodeId, dst: NodeId, vote: RequestVoteArgs)
    | VoteRep(src: NodeId, dst: NodeId, pre: bool, ballot: RequestVoteReply)
    | AppendReq(src: NodeId, dst: NodeId, append: AppendEntriesArgs)
    | AppendRep(src: NodeId, dst: NodeId, answer: AppendEntriesReply, matchHint: LogIndex)
    | InstallReq(src: NodeId, dst: NodeId, install: InstallSnapshotArgs)
    | InstallRep(src: NodeId, dst: NodeId, done: InstallSnapshotReply, lastIncluded: LogIndex)

  /** A process: its consensus module, the apply channel, and the state machine at position `pos`. */
  datatype Host = Host(node: Node, channel: seq<Apply>, app: AppData, pos: LogIndex)

  datatype Cluster = Cluster(hosts: map<NodeId, Host>, net: set<Packet>)

  datatype Step =
    | TickPreElection(at: NodeId, now: nat, timeout: nat)
    | TickElection(at: NodeId, now: nat, timeout: nat)
    | TickSend(at: NodeId, peer: NodeId)
    | DeliverVoteReq(at: NodeId, packet: Packet, now: nat, timeout: nat)
    | DeliverVoteRep(at: NodeId, packet: Packet)
    | DeliverAppendReq(at: NodeId, packet: Packet, now: nat, timeout: nat)
    | DeliverAppendRep(at: NodeId, packet: Packet)
    | DeliverInstallReq(at: NodeId, packet: Packet, now: nat, timeout: nat)
    | DeliverInstallRep(at: NodeId, packet: Packet)
    | Propose(at: NodeId, command: Bytes)
    | Drain(at: NodeId)
    | Consume(at: NodeId)
    | Compact(at: NodeId, data: Bytes)
    | Crash(at: NodeId, now: nat, timeout: nat)

  // ---- initial states ----

  ghost predicate PeersOf(servers: set<NodeId>, id: NodeId, peers: seq<NodeId>) {
    && (forall k :: 0 <= k < |peers| ==> peers[k] in servers && peers[k] != id)
    && (forall p :: p in servers && p != id ==> p in peers)
    && (forall j, k :: 0 <= j < k < |peers| ==> peers[j] != peers[k])
  }

  /** A process just started from durable state `p`, with an empty store. */
  function Boot(id: NodeId, peers: seq<NodeId>, timing: Timing, p: PersistentState, now: nat, timeout: nat): Host {
    Host(New(id, peers, timing, p, now, timeout), [], EMPTY_APP, 0)
  }

  ghost predicate Booted(cfg: Config, id: NodeId, x: Host) {
    exists peers: seq<NodeId>, now: nat, timeout: nat ::
      PeersOf(cfg.servers, id, peers) && TimeoutOk(cfg, timeout) && x == Boot(id, peers, cfg.timing, FRESH, now, timeout)
  }

  ghost predicate Init(cfg: Config, c: Cluster) {
    && c.net == {}
    && c.hosts.Keys == cfg.servers
    && forall i :: i in c.hosts ==> Booted(cfg, i, c.hosts[i])
  }

  // ---- one step of one process ----

  function Broadcast(n: Node, args: RequestVoteArgs): set<Packet> {
    set p | p in n.peers :: VoteReq(n.id, p, args)
  }

  /** What the tick sends one peer: the snapshot once its next entry is compacted away, else entries. */
  function Outgoing(n: Node, peer: NodeId): Packet {
    if n.NeedsSnapshot(peer) then InstallReq(n.id, peer, n.GetInstallSnapshotArgs())
    else AppendReq(n.id, peer, n.AppendArgsFor(peer))
  }

  /** One round of the apply loop on the head of the channel. */
  function ApplyItem(cfg: Config, x: Host, item: Apply): Host {
    match item
    case ApplyCommand(e) => x.(app := ApplyBytes(cfg.decode, x.app, e.command), pos := e.index)
    case ApplySnapshot(s) => x.(app := InstallSnapshot(x.app, s.data), pos := s.lastIncludedIndex)
  }

  /** The guard under which the step happens; packets are checked separately. */
  ghost predicate Guard(cfg: Config, x: Host, step: Step) {
    match step
    case TickPreElection(_, now, timeout) =>
      TimeoutOk(cfg, timeout) && x.node.role != Leader && !x.node.PreVoteSucceeded() && x.node.ElectionTimedOut(now)
    case TickElection(_, _, timeout) =>
      TimeoutOk(cfg, timeout) && x.node.role != Leader && x.node.PreVoteSucceeded()
    case TickSend(_, peer) => x.node.role == Leader && peer in x.node.peers
    case DeliverVoteReq(_, p, _, timeout) => p.VoteReq? && TimeoutOk(cfg, timeout)
    case DeliverVoteRep(_, p) => p.VoteRep?
    case DeliverAppendReq(_, p, _, timeout) => p.AppendReq? && TimeoutOk(cfg, timeout)
    case DeliverAppendRep(_, p) => p.AppendRep?
    case DeliverInstallReq(_, p, _, timeout) => p.InstallReq? && TimeoutOk(cfg, timeout)
    case DeliverInstallRep(_, p) => p.InstallRep?
    case Propose(_, _) => true
    case Drain(_) => true
    case Consume(_) => x.channel != []
    case Compact(_, data) => IsSnapshotOf(data, x.app)
    case Crash(_, _, timeout) => TimeoutOk(cfg, timeout)
  }

  predicate TimeoutOk(cfg: Config, timeout: nat) {
    cfg.timing.electionMin <= timeout <= cfg.timing.electionMax
  }

  // The three requests: the receiver handles them and answers.

  function OnVote(x: Host, src: NodeId, a: RequestVoteArgs, now: nat, timeout: nat): (Host, set<Packet>) {
    var (n', reply) := x.node.HandleRequestVote(a, now, timeout);
    (x.(node := n'), {VoteRep(x.node.id, src, a.preVote, reply)})
  }

  /** The reply as it reaches the leader, which remembers how far the request would advance the peer. */
  function AppendAnswer(id: NodeId, src: NodeId, a: AppendEntriesArgs, reply: AppendEntriesReply): Packet {
    AppendRep(id, src, OverWire(reply), a.prevLogIndex + |a.entries|)
  }

  function OnAppend(x: Host, src: NodeId, a: AppendEntriesArgs, now: nat, timeout: nat): (Host, set<Packet>) {
    var (n', reply) := x.node.HandleAppendEntries(a, now, timeout);
    (x.(node := n'), {AppendAnswer(x.node.id, src, a, reply)})
  }

  function OnInstall(x: Host, src: NodeId, a: InstallSnapshotArgs, now: nat, timeout: nat): (Host, set<Packet>) {
    var (n', reply) := x.node.HandleInstallSnapshot(a, now, timeout);
    (x.(node := n'), {InstallRep(x.node.id, src, reply, a.lastIncludedIndex)})
  }

  /** The process after the step and the messages it sends. */
  ghost function Act(cfg: Config, x: Host, step: Step): (Host, set<Packet>)
    requires Guard(cfg, x, step)
  {
    var n := x.node;
    match step
    case TickPreElection(_, now, timeout) =>
      var (n', args) := n.StartPreElection(now, timeout);
      (x.(node := n'), Broadcast(n, args))
    case TickElection(_, now, timeout) =>
      var (n', args) := n.StartElection(now, timeout);
      (x.(node := n'), Broadcast(n, args))
    case TickSend(_, peer) => (x, {Outgoing(n, peer)})
    case DeliverVoteReq(_, p, now, timeout) => OnVote(x, p.src, p.vote, now, timeout)
    case DeliverVoteRep(_, p) =>
      (x.(node := if p.pre then n.RecordPreVoteReply(p.src, p.ballot) else n.RecordVoteReply(p.src, p.ballot)), {})
    case DeliverAppendReq(_, p, now, timeout) => OnAppend(x, p.src, p.append, now, timeout)
    case DeliverAppendRep(_, p) => (x.(node := n.HandleAppendReply(p.src, p.answer, p.matchHint)), {})
    case DeliverInstallReq(_, p, now, timeout) => OnInstall(x, p.src, p.install, now, timeout)
    case DeliverInstallRep(_, p) => (x.(node := n.HandleInstallSnapshotReply(p.src, p.done, p.lastIncluded)), {})
    case Propose(_, command) => (x.(node := n.SubmitCommand(command).0), {})
    case Drain(_) =>
      var (n', items) := n.TakeApplies();
      (x.(node := n', channel := x.channel + items), {})
    case Consume(_) => (ApplyItem(cfg, x.(channel := x.channel[1..]), x.channel[0]), {})
    case Compact(_, data) => (x.(node := n.TakeSnapshot(x.pos, data)), {})
    case Crash(_, now, timeout) => (Boot(n.id, n.peers, n.timing, n.Persistent(), now, timeout), {})
  }

  ghost predicate Delivers(step: Step) {
    step.DeliverVoteReq? || step.DeliverVoteRep? || step.DeliverAppendReq? || step.DeliverAppendRep?
    || step.DeliverInstallReq? || step.DeliverInstallRep?
  }

  ghost predicate Enabled(cfg: Config, c: Cluster, step: Step) {
    && step.at in c.hosts
    && Guard(cfg, c.hosts[step.at], step)
    && (Delivers(step) ==> step.packet in c.net && step.packet.dst == step.at)
  }

  ghost function Next(cfg: Config, c: Cluster, step: Step): Cluster
    requires Enabled(cfg, c, step)
  {
    var (x, sent) := Act(cfg, c.hosts[step.at], step);
    Cluster(c.hosts[step.at := x], c.net + sent)
  }

  // ---- runs ----

  /** A run: its states, and the step between each two of them. */
  datatype Run = Run(states: seq<Cluster>, steps: seq<Step>)

  ghost predicate StepsTo(cfg: Config, c: Cluster, step: Step, c': Cluster) {
    Enabled(cfg, c, step) && c' == Next(cfg, c, step)
  }

  ghost predicate StepAt(cfg: Config, r: Run, k: nat)
    requires k < |r.steps| && |r.states| == |r.steps| + 1
  {
    StepsTo(cfg, r.states[k], r.steps[k], r.states[k + 1])
  }

  ghost predicate IsRun(cfg: Config, r: Run) {
    && |r.states| == |r.steps| + 1
    && Init(cfg, r.states[0])
    && forall k {:trigger StepAt(cfg, r, k)} :: 0 <= k < |r.steps| ==> StepAt(cfg, r, k)
  }
}
