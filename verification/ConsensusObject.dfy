/**
  The consensus module as the mutable object it is: every public method of
  src/raft/consensus.rs, updating its fields and its log in place and saving before it
  returns.  Each is proved to compute the function of the same name on `Node`, and to
  leave the store equal to the durable part of the state.
*/
module ConsensusObject {
  import opened Types
  import opened Quorums
  import opened Rpc
  import opened Storage
  import opened Consensus

  class ConsensusModule {
    const id: NodeId
    const peers: seq<NodeId>
    const quorum: nat
    const storage: RaftStorage
    const timing: Timing
    const log: LogBuffer

    var currentTerm: Term
    var votedFor: Option<NodeId>
    var snapshot: Option<Bytes>
    var role: Role
    var leaderId: Option<NodeId>
    var commitIndex: LogIndex
    var lastApplied: LogIndex
    var nextIndex: map<NodeId, LogIndex>
    var matchIndex: map<NodeId, LogIndex>
    var votes: set<NodeId>
    var preCandidate: bool
    var preVotes: set<NodeId>
    var lastLeaderContact: nat
    var pendingSnapshot: Option<Snapshot>
    var electionDeadline: nat

    /** The state as a value. */
    function View(): Node
      reads this, log
    {
      Node(id, peers, timing, currentTerm, votedFor, log.Value(), snapshot, role, leaderId, commitIndex, lastApplied,
           nextIndex, matchIndex, votes, preCandidate, preVotes, lastLeaderContact, pendingSnapshot, electionDeadline)
    }

    /** What is stored is what is in memory. */
    ghost predicate Mirror()
      reads this, log, storage
    {
      quorum == QuorumSize(|peers| + 1) && storage.state == View().Persistent()
    }

    constructor (id: NodeId, peers: seq<NodeId>, storage: RaftStorage, timing: Timing, now: nat, timeout: nat)
      ensures View() == New(id, peers, timing, storage.state, now, timeout)
      ensures Mirror() && this.storage == storage && fresh(log)
    {
      var persisted := storage.state;
      var base := persisted.log.snapshotIndex;
      this.id, this.peers, this.storage, this.timing := id, peers, storage, timing;
      quorum := (|peers| + 1) / 2 + 1;
      log := new LogBuffer.FromParts(base, persisted.log.snapshotTerm, persisted.log.entries);
      currentTerm, votedFor, snapshot := persisted.currentTerm, persisted.votedFor, persisted.snapshot;
      role, leaderId, commitIndex, lastApplied := Follower, None, base, base;
      nextIndex, matchIndex, votes, preCandidate, preVotes := map[], map[], {}, false, {};
      lastLeaderContact := now;
      pendingSnapshot :=
        if persisted.snapshot.Some? then Some(Snapshot(base, persisted.log.snapshotTerm, persisted.snapshot.value)) else None;
      electionDeadline := now + timeout;
    }

    // ---- persistence and timer ----

    method Persist()
      requires quorum == QuorumSize(|peers| + 1)
      modifies storage
      ensures Mirror()
    {
      storage.Save(PersistentState(currentTerm, votedFor, log.Value(), snapshot));
    }

    method ResetElectionDeadline(now: nat, timeout: nat)
      modifies this`electionDeadline
      ensures View() == old(View()).ResetElectionDeadline(now, timeout)
    {
      electionDeadline := now + timeout;
    }

    // ---- role transitions ----

    method AbandonPreElection()
      modifies this`preCandidate, this`preVotes
      ensures View() == old(View()).AbandonPreElection()
    {
      preCandidate := false;
      preVotes := {};
    }

    method StepDown(term: Term)
      requires Mirror()
      modifies this, storage
      ensures View() == old(View()).StepDown(term) && Mirror()
    {
      var newer := term > currentTerm;
      if newer {
        currentTerm := term;
        votedFor := None;
      }
      role := Follower;
      votes := {};
      AbandonPreElection();
      if newer {
        Persist();
      }
    }

    /** A reply from a newer term ends whatever this node was doing. */
    method YieldToTerm(term: Term)
      requires Mirror()
      modifies this, storage
      ensures View() == old(View()).StepDown(term).(leaderId := None) && Mirror()
    {
      StepDown(term);
      leaderId := None;
    }

    /** Assume of every peer that it needs `next` and has nothing. */
    method ResetPeers(next: LogIndex)
      modifies this`nextIndex, this`matchIndex
      ensures nextIndex == ForPeers(peers, next) && matchIndex == ForPeers(peers, 0)
    {
      nextIndex := map[];
      matchIndex := map[];
      for k := 0 to |peers|
        invariant nextIndex == ForPeers(peers[..k], next) && matchIndex == ForPeers(peers[..k], 0)
      {
        assert peers[..k + 1] == peers[..k] + [peers[k]];
        nextIndex := nextIndex[peers[k] := next];
        matchIndex := matchIndex[peers[k] := 0];
      }
      assert peers[..|peers|] == peers;
    }

    method BecomeLeader()
      modifies this
      ensures View() == old(View()).BecomeLeader()
    {
      role := Leader;
      leaderId := Some(id);
      AbandonPreElection();
      ResetPeers(log.Value().LastIndex() + 1);
    }

    method MaybeBecomeLeader()
      requires quorum == QuorumSize(|peers| + 1)
      modifies this
      ensures View() == old(View()).MaybeBecomeLeader()
    {
      if role == Candidate && |votes| >= quorum {
        BecomeLeader();
      }
    }

    // ---- candidate side ----

    method StartPreElection(now: nat, timeout: nat) returns (args: RequestVoteArgs)
      requires Mirror()
      modifies this
      ensures (View(), args) == old(View()).StartPreElection(now, timeout) && Mirror()
    {
      preCandidate := true;
      preVotes := {};
      preVotes := preVotes + {id};
      assert preVotes == {id};
      ResetElectionDeadline(now, timeout);
      args := RequestVoteArgs(currentTerm + 1, id, log.Value().LastIndex(), log.Value().LastTerm(), true);
    }

    method RecordPreVoteReply(from: NodeId, reply: RequestVoteReply)
      requires Mirror()
      modifies this, storage
      ensures View() == old(View()).RecordPreVoteReply(from, reply) && Mirror()
    {
      if reply.term > currentTerm {
        YieldToTerm(reply.term);
        return;
      }
      if preCandidate && reply.voteGranted {
        preVotes := preVotes + {from};
      }
    }

    method PreVoteSucceeded() returns (won: bool)
      requires Mirror()
      ensures won == View().PreVoteSucceeded()
    {
      won := preCandidate && |preVotes| >= quorum;
    }

    method StartElection(now: nat, timeout: nat) returns (args: RequestVoteArgs)
      requires Mirror()
      modifies this, storage
      ensures (View(), args) == old(View()).StartElection(now, timeout) && Mirror()
    {
      AbandonPreElection();
      role := Candidate;
      currentTerm := currentTerm + 1;
      votedFor := Some(id);
      leaderId := None;
      votes := {};
      votes := votes + {id};
      ResetElectionDeadline(now, timeout);
      assert View() == old(View()).StandForElection(now, timeout);
      Persist();
      MaybeBecomeLeader();
      args := RequestVoteArgs(currentTerm, id, log.Value().LastIndex(), log.Value().LastTerm(), false);
    }

    method RecordVoteReply(from: NodeId, reply: RequestVoteReply)
      requires Mirror()
      modifies this, storage
      ensures View() == old(View()).RecordVoteReply(from, reply) && Mirror()
    {
      if reply.term > currentTerm {
        YieldToTerm(reply.term);
        return;
      }
      if role != Candidate || reply.term != currentTerm {
        return;
      }
      if reply.voteGranted {
        votes := votes + {from};
        MaybeBecomeLeader();
      }
    }

    // ---- voter side ----

    method HandleRequestVote(args: RequestVoteArgs, now: nat, timeout: nat) returns (reply: RequestVoteReply)
      requires Mirror()
      modifies this, storage
      ensures (View(), reply) == old(View()).HandleRequestVote(args, now, timeout) && Mirror()
    {
      if args.preVote {
        var sinceContact := if now < lastLeaderContact then 0 else now - lastLeaderContact;
        var leaderIsLive := role == Leader || sinceContact < timing.electionMin;
        var grant := args.term >= currentTerm && !leaderIsLive && View().LogIsUpToDate(args.lastLogIndex, args.lastLogTerm);
        return RequestVoteReply(currentTerm, grant);
      }
      if args.term < currentTerm {
        return RequestVoteReply(currentTerm, false);
      }
      if args.term > currentTerm {
        StepDown(args.term);
      }
      var upToDate := View().LogIsUpToDate(args.lastLogIndex, args.lastLogTerm);
      var freeToVote := votedFor == None || votedFor == Some(args.candidateId);
      if freeToVote && upToDate {
        votedFor := Some(args.candidateId);
        ResetElectionDeadline(now, timeout);
        Persist();
        reply := RequestVoteReply(currentTerm, true);
      } else {
        reply := RequestVoteReply(currentTerm, false);
      }
    }

    // ---- follower side ----

    method YieldTo(term: Term, leader: NodeId, now: nat, timeout: nat)
      requires Mirror() && currentTerm <= term
      modifies this, storage
      ensures View() == old(View()).YieldTo(term, leader, now, timeout) && Mirror()
    {
      if term > currentTerm {
        StepDown(term);
      } else {
        role := Follower;
        votes := {};
        AbandonPreElection();
        assert View() == old(View()).StepDown(term);
      }
      leaderId := Some(leader);
      lastLeaderContact := now;
      ResetElectionDeadline(now, timeout);
    }

    /** The splice loop. */
    method SpliceEntries(prevLogIndex: LogIndex, entries: seq<LogEntry>)
      modifies log
      ensures log.Value() == Splice(old(log.Value()), prevLogIndex, entries)
    {
      var index := prevLogIndex;
      for k := 0 to |entries|
        invariant index == prevLogIndex + k
        invariant Splice(log.Value(), index, entries[k..]) == Splice(old(log.Value()), prevLogIndex, entries)
      {
        assert entries[k..][1..] == entries[k + 1..];
        index := index + 1;
        if index <= log.snapshotIndex {
          continue;
        }
        match log.Value().TermAt(index)
        case Some(term) =>
          if term != entries[k].term {
            log.TruncateAfter(index - 1);
            var _ := log.Append(entries[k]);
          }
        case None =>
          var _ := log.Append(entries[k]);
      }
    }

    method HandleAppendEntries(args: AppendEntriesArgs, now: nat, timeout: nat) returns (reply: AppendEntriesReply)
      requires Mirror()
      modifies this, log, storage
      ensures (View(), reply) == old(View()).HandleAppendEntries(args, now, timeout) && Mirror()
    {
      if args.term < currentTerm {
        return Rejected(currentTerm);
      }
      YieldTo(args.term, args.leaderId, now, timeout);
      if args.prevLogIndex > log.snapshotIndex && log.Value().TermAt(args.prevLogIndex) != Some(args.prevLogTerm) {
        return View().AppendConflict(args.prevLogIndex);
      }
      SpliceEntries(args.prevLogIndex, args.entries);
      if args.entries != [] {
        Persist();
      }
      if args.leaderCommit > commitIndex {
        commitIndex := Min(args.leaderCommit, log.Value().LastIndex());
      }
      reply := Accepted(currentTerm);
    }

    // ---- leader side ----

    method SubmitCommand(command: Bytes) returns (index: Option<LogIndex>)
      requires Mirror()
      modifies this, log, storage
      ensures (View(), index) == old(View()).SubmitCommand(command) && Mirror()
    {
      if role != Leader {
        return None;
      }
      var at := log.Append(LogEntry(currentTerm, command));
      Persist();
      MaybeAdvanceCommit();
      index := Some(at);
    }

    method HandleAppendReply(peer: NodeId, reply: AppendEntriesReply, matchHint: LogIndex)
      requires Mirror()
      modifies this, storage
      ensures View() == old(View()).HandleAppendReply(peer, reply, matchHint) && Mirror()
    {
      if reply.term > currentTerm {
        YieldToTerm(reply.term);
        return;
      }
      if role != Leader || reply.term != currentTerm {
        return;
      }
      if reply.success {
        AdvancePeer(peer, matchHint);
      } else {
        var next := View().NextIndexAfterConflict(peer, reply);
        nextIndex := nextIndex[peer := Max(next, 1)];
      }
    }

    method AdvancePeer(peer: NodeId, hint: LogIndex)
      requires quorum == QuorumSize(|peers| + 1)
      modifies this
      ensures View() == old(View()).AdvancePeer(peer, hint)
    {
      var matched := Max(View().MatchFor(peer), hint);
      matchIndex := matchIndex[peer := matched];
      nextIndex := nextIndex[peer := matched + 1];
      MaybeAdvanceCommit();
    }

    // ---- snapshots ----

    /** The term lookup never fails: an applied entry past the boundary is in the log. */
    method TakeSnapshot(index: LogIndex, data: Bytes)
      requires Mirror()
      requires log.snapshotIndex <= lastApplied <= log.Value().LastIndex()
      modifies this, log, storage
      ensures View() == old(View()).TakeSnapshot(index, data) && Mirror()
    {
      if index <= log.snapshotIndex || index > lastApplied {
        return;
      }
      var term := log.Value().TermAt(index).value;
      log.Compact(index, term);
      snapshot := Some(data);
      Persist();
    }

    method HandleInstallSnapshot(args: InstallSnapshotArgs, now: nat, timeout: nat)
        returns (reply: InstallSnapshotReply)
      requires Mirror()
      modifies this, log, storage
      ensures (View(), reply) == old(View()).HandleInstallSnapshot(args, now, timeout) && Mirror()
    {
      if args.term < currentTerm {
        return InstallSnapshotReply(currentTerm);
      }
      YieldTo(args.term, args.leaderId, now, timeout);
      if args.lastIncludedIndex <= commitIndex {
        return InstallSnapshotReply(currentTerm);
      }
      Install(Snapshot(args.lastIncludedIndex, args.lastIncludedTerm, args.data));
      reply := InstallSnapshotReply(currentTerm);
    }

    method Install(s: Snapshot)
      requires quorum == QuorumSize(|peers| + 1)
      modifies this, log, storage
      ensures View() == old(View()).Install(s) && Mirror()
    {
      log.Compact(s.lastIncludedIndex, s.lastIncludedTerm);
      snapshot := Some(s.data);
      commitIndex := s.lastIncludedIndex;
      lastApplied := s.lastIncludedIndex;
      Persist();
      pendingSnapshot := Some(s);
    }

    method HandleInstallSnapshotReply(peer: NodeId, reply: InstallSnapshotReply, lastIncludedIndex: LogIndex)
      requires Mirror()
      modifies this, storage
      ensures View() == old(View()).HandleInstallSnapshotReply(peer, reply, lastIncludedIndex) && Mirror()
    {
      if reply.term > currentTerm {
        YieldToTerm(reply.term);
        return;
      }
      if role != Leader || reply.term != currentTerm {
        return;
      }
      AdvancePeer(peer, lastIncludedIndex);
    }

    // ---- commitment ----

    method MaybeAdvanceCommit()
      requires quorum == QuorumSize(|peers| + 1)
      modifies this`commitIndex
      ensures View() == old(View()).MaybeAdvanceCommit()
    {
      var n: LogIndex := log.Value().LastIndex();
      while n > commitIndex
        invariant View() == old(View())
        invariant View().HighestCommittable(log.Value().LastIndex()) == View().HighestCommittable(n)
      {
        if log.Value().TermAt(n) == Some(currentTerm) && 1 + CountMatching(peers, matchIndex, n) >= quorum {
          commitIndex := n;
          return;
        }
        n := n - 1;
      }
    }

    // ---- the apply stream ----

    /** The lookup never fails while the commit index stays within the log. */
    method TakeApplies() returns (out: seq<Apply>)
      requires Mirror() && log.snapshotIndex <= lastApplied && commitIndex <= log.Value().LastIndex()
      modifies this`pendingSnapshot, this`lastApplied
      ensures (View(), out) == old(View()).TakeApplies() && Mirror()
    {
      out := [];
      if pendingSnapshot.Some? {
        out := out + [ApplySnapshot(pendingSnapshot.value)];
        pendingSnapshot := None;
      }
      while lastApplied < commitIndex
        invariant old(lastApplied) <= lastApplied <= Max(old(lastApplied), commitIndex)
        invariant View() == old(View()).(pendingSnapshot := None, lastApplied := lastApplied)
        invariant out + CommandsBetween(log.Value(), lastApplied, commitIndex) == old(View()).TakeApplies().1
      {
        lastApplied := lastApplied + 1;
        var entry := log.Value().Get(lastApplied).value;
        out := out + [ApplyCommand(Applied(lastApplied, entry.term, entry.command))];
      }
      assert out + [] == out;
    }
  }
}
