/**
  The consensus state machine of src/raft/consensus.rs as a value and a function
  per public method.  Clocks are natural numbers and the random election timeout
  is a parameter.  `ConsensusObject` holds the mutable module itself.
*/
module Consensus {
  import opened Types
  import opened Quorums
  import opened Rpc
  import opened Storage

  datatype Timing = Timing(electionMin: nat, electionMax: nat, heartbeat: nat)

  datatype Node = Node(
    id: NodeId,
    peers: seq<NodeId>,
    timing: Timing,
    currentTerm: Term,
    votedFor: Option<NodeId>,
    log: Log,
    snapshot: Option<Bytes>,
    role: Role,
    leaderId: Option<NodeId>,
    commitIndex: LogIndex,
    lastApplied: LogIndex,
    nextIndex: map<NodeId, LogIndex>,
    matchIndex: map<NodeId, LogIndex>,
    votes: set<NodeId>,
    preCandidate: bool,
    preVotes: set<NodeId>,
    lastLeaderContact: nat,
    pendingSnapshot: Option<Snapshot>,
    electionDeadline: nat)
  {
    function Quorum(): nat { QuorumSize(|peers| + 1) }

    function Persistent(): PersistentState {
      PersistentState(currentTerm, votedFor, log, snapshot)
    }

    function NextFor(peer: NodeId, default: LogIndex): LogIndex {
      if peer in nextIndex then nextIndex[peer] else default
    }

    function MatchFor(peer: NodeId): LogIndex {
      if peer in matchIndex then matchIndex[peer] else 0
    }

    predicate NeedsSnapshot(peer: NodeId) {
      role == Leader && snapshot.Some? && NextFor(peer, 1) <= log.snapshotIndex
    }

    function ResetElectionDeadline(now: nat, timeout: nat): Node {
      this.(electionDeadline := now + timeout)
    }

    predicate ElectionTimedOut(now: nat) {
      role != Leader && now >= electionDeadline
    }

    // ---- role transitions ----

    function AbandonPreElection(): Node {
      this.(preCandidate := false, preVotes := {})
    }

    /** Revert to follower; a strictly newer term is adopted and its vote is open. */
    function StepDown(term: Term): Node {
      var n := if term > currentTerm then this.(currentTerm := term, votedFor := None) else this;
      n.(role := Follower, votes := {}).AbandonPreElection()
    }

    function BecomeLeader(): Node {
      AbandonPreElection().(
        role := Leader,
        leaderId := Some(id),
        nextIndex := ForPeers(peers, log.LastIndex() + 1),
        matchIndex := ForPeers(peers, 0))
    }

    function MaybeBecomeLeader(): Node {
      if role == Candidate && |votes| >= Quorum() then BecomeLeader() else this
    }

    // ---- candidate side ----

    function StartPreElection(now: nat, timeout: nat): (Node, RequestVoteArgs) {
      (this.(preCandidate := true, preVotes := {id}).ResetElectionDeadline(now, timeout),
       RequestVoteArgs(currentTerm + 1, id, log.LastIndex(), log.LastTerm(), true))
    }

    function RecordPreVoteReply(from: NodeId, reply: RequestVoteReply): Node {
      if reply.term > currentTerm then StepDown(reply.term).(leaderId := None)
      else if preCandidate && reply.voteGranted then this.(preVotes := preVotes + {from})
      else this
    }

    predicate PreVoteSucceeded() {
      preCandidate && |preVotes| >= Quorum()
    }

    function StandForElection(now: nat, timeout: nat): Node {
      AbandonPreElection().(
        role := Candidate,
        currentTerm := currentTerm + 1,
        votedFor := Some(id),
        leaderId := None,
        votes := {id}).ResetElectionDeadline(now, timeout)
    }

    function StartElection(now: nat, timeout: nat): (Node, RequestVoteArgs) {
      var n := StandForElection(now, timeout).MaybeBecomeLeader();
      (n, RequestVoteArgs(n.currentTerm, id, log.LastIndex(), log.LastTerm(), false))
    }

    function RecordVoteReply(from: NodeId, reply: RequestVoteReply): Node {
      if reply.term > currentTerm then StepDown(reply.term).(leaderId := None)
      else if role != Candidate || reply.term != currentTerm then this
      else if reply.voteGranted then this.(votes := votes + {from}).MaybeBecomeLeader()
      else this
    }

    // ---- voter side ----

    /** The candidate's log is at least as up-to-date as ours. */
    predicate LogIsUpToDate(lastLogIndex: LogIndex, lastLogTerm: Term) {
      || lastLogTerm > log.LastTerm()
      || (lastLogTerm == log.LastTerm() && lastLogIndex >= log.LastIndex())
    }

    predicate LeaderIsLive(now: nat) {
      role == Leader || (if now < lastLeaderContact then 0 else now - lastLeaderContact) < timing.electionMin
    }

    function HandlePreVote(args: RequestVoteArgs, now: nat): RequestVoteReply {
      RequestVoteReply(currentTerm,
        && args.term >= currentTerm
        && !LeaderIsLive(now)
        && LogIsUpToDate(args.lastLogIndex, args.lastLogTerm))
    }

    function HandleRequestVote(args: RequestVoteArgs, now: nat, timeout: nat): (Node, RequestVoteReply) {
      if args.preVote then (this, HandlePreVote(args, now))
      else if args.term < currentTerm then (this, RequestVoteReply(currentTerm, false))
      else
        var n := if args.term > currentTerm then StepDown(args.term) else this;
        if (n.votedFor == None || n.votedFor == Some(args.candidateId)) && n.LogIsUpToDate(args.lastLogIndex, args.lastLogTerm)
        then (n.(votedFor := Some(args.candidateId)).ResetElectionDeadline(now, timeout), RequestVoteReply(n.currentTerm, true))
        else (n, RequestVoteReply(n.currentTerm, false))
    }

    // ---- follower side ----

    /** Yield to the leader of `term`, a term not older than ours. */
    function YieldTo(term: Term, leader: NodeId, now: nat, timeout: nat): Node {
      StepDown(term).(leaderId := Some(leader), lastLeaderContact := now).ResetElectionDeadline(now, timeout)
    }

    predicate PrevMatches(args: AppendEntriesArgs) {
      args.prevLogIndex > log.snapshotIndex ==> log.TermAt(args.prevLogIndex) == Some(args.prevLogTerm)
    }

    function HandleAppendEntries(args: AppendEntriesArgs, now: nat, timeout: nat): (Node, AppendEntriesReply) {
      if args.term < currentTerm then (this, Rejected(currentTerm))
      else
        var n := YieldTo(args.term, args.leaderId, now, timeout);
        if !n.PrevMatches(args) then (n, n.AppendConflict(args.prevLogIndex))
        else
          var spliced := Splice(n.log, args.prevLogIndex, args.entries);
          var commit := if args.leaderCommit > n.commitIndex then Min(args.leaderCommit, spliced.LastIndex()) else n.commitIndex;
          (n.(log := spliced, commitIndex := commit), Accepted(n.currentTerm))
    }

    /** The rejection of a failed consistency check, with its backtracking hint. */
    function AppendConflict(prevLogIndex: LogIndex): AppendEntriesReply {
      match log.TermAt(prevLogIndex)
      case None => AppendEntriesReply(currentTerm, false, Some(log.LastIndex() + 1), None)
      case Some(term) => AppendEntriesReply(currentTerm, false, log.FirstIndexOfTerm(term), Some(term))
    }

    // ---- leader side ----

    function AppendArgsFor(peer: NodeId): AppendEntriesArgs {
      var next := NextFor(peer, log.LastIndex() + 1);
      var prev := if next == 0 then 0 else next - 1;
      AppendEntriesArgs(currentTerm, id, prev, log.TermAt(prev).GetOr(0), log.EntriesAfter(prev), commitIndex)
    }

    function SubmitCommand(command: Bytes): (Node, Option<LogIndex>) {
      if role != Leader then (this, None)
      else
        var n := this.(log := log.Append(LogEntry(currentTerm, command)));
        (n.MaybeAdvanceCommit(), Some(n.log.LastIndex()))
    }

    function HandleAppendReply(peer: NodeId, reply: AppendEntriesReply, matchHint: LogIndex): Node {
      if reply.term > currentTerm then StepDown(reply.term).(leaderId := None)
      else if role != Leader || reply.term != currentTerm then this
      else if reply.success then AdvancePeer(peer, matchHint)
      else this.(nextIndex := nextIndex[peer := Max(NextIndexAfterConflict(peer, reply), 1)])
    }

    /** `peer` holds our log through `hint`; recompute the commit index. */
    function AdvancePeer(peer: NodeId, hint: LogIndex): Node {
      var matched := Max(MatchFor(peer), hint);
      this.(matchIndex := matchIndex[peer := matched], nextIndex := nextIndex[peer := matched + 1]).MaybeAdvanceCommit()
    }

    function NextIndexAfterConflict(peer: NodeId, reply: AppendEntriesReply): LogIndex {
      if reply.conflictIndex.Some? then
        if reply.conflictTerm.Some? && log.LastIndexOfTerm(reply.conflictTerm.value).Some?
        then log.LastIndexOfTerm(reply.conflictTerm.value).value + 1
        else reply.conflictIndex.value
      else
        var next := NextFor(peer, 1);
        if next == 0 then 0 else next - 1
    }

    // ---- snapshots ----

    function TakeSnapshot(index: LogIndex, data: Bytes): Node {
      if index <= log.snapshotIndex || index > lastApplied || log.TermAt(index).None? then this
      else this.(log := log.Compact(index, log.TermAt(index).value), snapshot := Some(data))
    }

    function GetInstallSnapshotArgs(): InstallSnapshotArgs {
      InstallSnapshotArgs(currentTerm, id, log.snapshotIndex, log.snapshotTerm, snapshot.GetOr([]))
    }

    function HandleInstallSnapshot(args: InstallSnapshotArgs, now: nat, timeout: nat): (Node, InstallSnapshotReply) {
      if args.term < currentTerm then (this, InstallSnapshotReply(currentTerm))
      else
        var n := YieldTo(args.term, args.leaderId, now, timeout);
        if args.lastIncludedIndex <= n.commitIndex then (n, InstallSnapshotReply(n.currentTerm))
        else (n.Install(Snapshot(args.lastIncludedIndex, args.lastIncludedTerm, args.data)), InstallSnapshotReply(n.currentTerm))
    }

    function Install(s: Snapshot): Node {
      this.(
        log := log.Compact(s.lastIncludedIndex, s.lastIncludedTerm),
        snapshot := Some(s.data),
        commitIndex := s.lastIncludedIndex,
        lastApplied := s.lastIncludedIndex,
        pendingSnapshot := Some(s))
    }

    function HandleInstallSnapshotReply(peer: NodeId, reply: InstallSnapshotReply, lastIncludedIndex: LogIndex): Node {
      if reply.term > currentTerm then StepDown(reply.term).(leaderId := None)
      else if role != Leader || reply.term != currentTerm then this
      else AdvancePeer(peer, lastIncludedIndex)
    }

    // ---- commitment ----

    predicate IsReplicatedOnMajority(n: LogIndex) {
      1 + CountMatching(peers, matchIndex, n) >= Quorum()
    }

    predicate Committable(n: LogIndex) {
      log.TermAt(n) == Some(currentTerm) && IsReplicatedOnMajority(n)
    }

    /** The highest committable index in `(commitIndex, n]`, else the commit index itself. */
    function HighestCommittable(n: LogIndex): (r: LogIndex)
      ensures r == commitIndex || (commitIndex < r <= n && Committable(r))
      ensures forall k :: r < k <= n && commitIndex < k ==> !Committable(k)
    {
      if n <= commitIndex then commitIndex
      else if Committable(n) then n
      else HighestCommittable(n - 1)
    }

    function MaybeAdvanceCommit(): Node {
      this.(commitIndex := HighestCommittable(log.LastIndex()))
    }

    // ---- the apply stream ----

    function TakeApplies(): (Node, seq<Apply>) {
      (this.(pendingSnapshot := None, lastApplied := Max(lastApplied, commitIndex)),
       (if pendingSnapshot.Some? then [ApplySnapshot(pendingSnapshot.value)] else [])
       + CommandsBetween(log, lastApplied, commitIndex))
    }
  }

  function ForPeers(peers: seq<NodeId>, index: LogIndex): map<NodeId, LogIndex> {
    map p | p in peers :: index
  }

  function CountMatching(peers: seq<NodeId>, matchIndex: map<NodeId, LogIndex>, n: LogIndex): nat {
    if peers == [] then 0
    else
      (if (if peers[0] in matchIndex then matchIndex[peers[0]] else 0) >= n then 1 else 0)
      + CountMatching(peers[1..], matchIndex, n)
  }

  /** The committed entries after `from` through `to`, each with its index. */
  function CommandsBetween(log: Log, from: LogIndex, to: LogIndex): seq<Apply>
    decreases to - from
  {
    if from >= to then []
    else
      match log.Get(from + 1)
      case None => CommandsBetween(log, from + 1, to)
      case Some(e) => [ApplyCommand(Applied(from + 1, e.term, e.command))] + CommandsBetween(log, from + 1, to)
  }

  function SpliceOne(log: Log, index: LogIndex, entry: LogEntry): Log {
    if index <= log.snapshotIndex then log
    else
      match log.TermAt(index)
      case Some(term) => if term == entry.term then log else log.TruncateAfter(index - 1).Append(entry)
      case None => log.Append(entry)
  }

  /** Lay `entries` over the log from index `prev + 1` on. */
  function Splice(log: Log, prev: LogIndex, entries: seq<LogEntry>): Log
    decreases |entries|
  {
    if entries == [] then log
    else Splice(SpliceOne(log, prev + 1, entries[0]), prev + 1, entries[1..])
  }

  /** A node built from its durable state: a first start or a restart. */
  function New(id: NodeId, peers: seq<NodeId>, timing: Timing, p: PersistentState, now: nat, timeout: nat): Node {
    var base := p.log.snapshotIndex;
    Node(id, peers, timing, p.currentTerm, p.votedFor, p.log, p.snapshot,
         Follower, None, base, base, map[], map[], {}, false, {}, now,
         if p.snapshot.Some? then Some(Snapshot(base, p.log.snapshotTerm, p.snapshot.value)) else None,
         now + timeout)
  }
}
