/** The messages of src/raft/rpc.rs and the wire form of the append reply (src/raft/transport.rs). */
module Rpc {
  import opened Types

  datatype RequestVoteArgs = RequestVoteArgs(
    term: Term, candidateId: NodeId, lastLogIndex: LogIndex, lastLogTerm: Term, preVote: bool)

  datatype RequestVoteReply = RequestVoteReply(term: Term, voteGranted: bool)

  datatype AppendEntriesArgs = AppendEntriesArgs(
    term: Term, leaderId: NodeId, prevLogIndex: LogIndex, prevLogTerm: Term,
    entries: seq<LogEntry>, leaderCommit: LogIndex)

  datatype AppendEntriesReply = AppendEntriesReply(
    term: Term, success: bool, conflictIndex: Option<LogIndex>, conflictTerm: Option<Term>)

  function Accepted(term: Term): AppendEntriesReply {
    AppendEntriesReply(term, true, None, None)
  }

  function Rejected(term: Term): AppendEntriesReply {
    AppendEntriesReply(term, false, None, None)
  }

  datatype InstallSnapshotArgs = InstallSnapshotArgs(
    term: Term, leaderId: NodeId, lastIncludedIndex: LogIndex, lastIncludedTerm: Term, data: Bytes)

  datatype InstallSnapshotReply = InstallSnapshotReply(term: Term)

  // ---- the append reply on the wire ----

  datatype AppendEntriesResponse = AppendEntriesResponse(
    term: Term, success: bool, hasConflict: bool, conflictIndex: LogIndex, conflictTerm: Term)

  function AppendReplyToPb(r: AppendEntriesReply): AppendEntriesResponse {
    AppendEntriesResponse(r.term, r.success, r.conflictIndex.Some?, r.conflictIndex.GetOr(0), r.conflictTerm.GetOr(0))
  }

  function AppendReplyFromPb(r: AppendEntriesResponse): AppendEntriesReply {
    AppendEntriesReply(r.term, r.success,
      if r.hasConflict then Some(r.conflictIndex) else None,
      if r.hasConflict then Some(r.conflictTerm) else None)
  }

  /** The reply as the leader receives it. */
  function OverWire(r: AppendEntriesReply): AppendEntriesReply {
    AppendReplyFromPb(AppendReplyToPb(r))
  }
}
