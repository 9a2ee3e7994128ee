/**
  The replicated state machine of src/app.rs as values: the store with its key
  directory and the per-client dedup table.  The storage engine is a total map
  whose operations never fail.
*/
module App {
  import opened Types

  const OP_GET: int := 0
  const OP_PUT: int := 1
  const OP_DELETE: int := 2
  const OP_APPEND: int := 3

  datatype Command = Command(op: int, key: Bytes, value: Bytes, clientId: nat, seq_: nat, nonce: nat)

  datatype Outcome = Value(value: Option<Bytes>) | Done | Failed(message: Bytes)

  datatype LastApplied = LastApplied(seq_: nat, outcome: Outcome)

  datatype AppData = AppData(store: map<Bytes, Bytes>, keys: set<Bytes>, dedup: map<nat, LastApplied>)

  const EMPTY_APP := AppData(map[], {}, map[])

  predicate IsMutation(c: Command) {
    c.op == OP_PUT || c.op == OP_DELETE || c.op == OP_APPEND
  }

  /** The dedup table is consulted: a mutation by a client that named itself. */
  predicate Identified(c: Command) {
    IsMutation(c) && c.clientId != 0
  }

  function Decimal(n: nat): Bytes {
    (if n < 10 then [] else Decimal(n / 10)) + [(48 + n % 10) as byte]
  }

  /** The text `unknown op N`. */
  function UnknownOp(op: int): Bytes {
    [117, 110, 107, 110, 111, 119, 110, 32, 111, 112, 32] + (if op < 0 then [45] + Decimal(-op) else Decimal(op))
  }

  /** Execute an operation against the store, keeping the key directory in step. */
  function Run(a: AppData, c: Command): (AppData, Outcome) {
    if c.op == OP_GET then (a, Value(if c.key in a.store then Some(a.store[c.key]) else None))
    else if c.op == OP_PUT then
      (a.(store := a.store[c.key := c.value], keys := a.keys + {c.key}), Done)
    else if c.op == OP_DELETE then
      (a.(store := a.store - {c.key}, keys := a.keys - {c.key}), Done)
    else if c.op == OP_APPEND then
      var value := (if c.key in a.store then a.store[c.key] else []) + c.value;
      (a.(store := a.store[c.key := value], keys := a.keys + {c.key}), Value(Some(value)))
    else (a, Failed(UnknownOp(c.op)))
  }

  /** Apply one committed command, replaying the cached outcome of a retry. */
  function ApplyCommitted(a: AppData, c: Command): (AppData, Outcome) {
    if !Identified(c) then Run(a, c)
    else if c.clientId in a.dedup && c.seq_ <= a.dedup[c.clientId].seq_ then (a, a.dedup[c.clientId].outcome)
    else
      var (a1, outcome) := Run(a, c);
      (a1.(dedup := a1.dedup[c.clientId := LastApplied(c.seq_, outcome)]), outcome)
  }

  /** Apply the bytes of a log entry; an undecodable entry is skipped. */
  function ApplyBytes(decode: Bytes -> Option<Command>, a: AppData, command: Bytes): AppData {
    match decode(command)
    case None => a
    case Some(c) => ApplyCommitted(a, c).0
  }

  /** The state after applying the log from the empty state. */
  function Replay(decode: Bytes -> Option<Command>, log: seq<LogEntry>): AppData {
    if log == [] then EMPTY_APP
    else ApplyBytes(decode, Replay(decode, log[..|log| - 1]), log[|log| - 1].command)
  }

  // ---- the key directory lists exactly the stored keys ----

  predicate Directory(a: AppData) {
    a.keys == a.store.Keys
  }

  lemma ApplyKeepsDirectory(a: AppData, c: Command)
    requires Directory(a)
    ensures Directory(ApplyCommitted(a, c).0)
  {
  }

  lemma {:induction false} ReplayKeepsDirectory(decode: Bytes -> Option<Command>, log: seq<LogEntry>)
    ensures Directory(Replay(decode, log))
  {
    if log != [] {
      var init := log[..|log| - 1];
      ReplayKeepsDirectory(decode, init);
      var d := decode(log[|log| - 1].command);
      if d.Some? {
        ApplyKeepsDirectory(Replay(decode, init), d.value);
      }
    }
  }
}
