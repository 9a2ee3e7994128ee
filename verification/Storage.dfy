/** The durable state of a node and the store that replaces it atomically (src/raft/storage.rs). */
module Storage {
  import opened Types

  datatype PersistentState = PersistentState(
    currentTerm: Term, votedFor: Option<NodeId>, log: Log, snapshot: Option<Bytes>)

  const FRESH := PersistentState(0, None, EMPTY_LOG, None)

  /** `RaftStorage`: a save replaces the whole state. */
  class RaftStorage {
    var state: PersistentState

    constructor ()
      ensures state == FRESH
    {
      state := FRESH;
    }

    method Load() returns (s: PersistentState)
      ensures s == state
    {
      s := state;
    }

    method Save(s: PersistentState)
      modifies this
      ensures state == s
    {
      state := s;
    }
  }
}
