/**
  The state machine of src/app.rs as the mutable object it is, with the waiters of
  local callers, the snapshot builder and the loops of its decoder.  Hash tables iterate
  in an arbitrary order, which is a nondeterministic choice here.
*/
module AppObject {
  import opened Types
  import opened Codec
  import opened App
  import opened SnapshotCodec

  const SNAPSHOT_THRESHOLD := 64

  // ---- the snapshot decoder ----

  method DecodeOutcome(r: Reader) returns (o: Result<Outcome>)
    modifies r
    ensures match GetOutcome(r.buf, old(r.pos))
            case Err => o == Err
            case Ok((x, p)) => o == Ok(x) && r.pos == p
  {
    var tag := r.U8();
    if tag.Err? {
      return Err;
    }
    if tag.value == 0 {
      return Ok(Done);
    } else if tag.value == 1 {
      return Ok(Value(None));
    } else if tag.value == 2 || tag.value == 3 {
      var v := r.Bytes();
      if v.Err? {
        return Err;
      }
      return Ok(if tag.value == 2 then Value(Some(v.value)) else Failed(v.value));
    }
    return Err;
  }

  method DecodeClient(r: Reader) returns (c: Result<Client>)
    modifies r
    ensures match GetClient(r.buf, old(r.pos))
            case Err => c == Err
            case Ok((x, p)) => c == Ok(x) && r.pos == p
  {
    var id := r.U64();
    if id.Err? {
      return Err;
    }
    var number := r.U64();
    if number.Err? {
      return Err;
    }
    var outcome := DecodeOutcome(r);
    if outcome.Err? {
      return Err;
    }
    return Ok((id.value, LastApplied(number.value, outcome.value)));
  }

  method DecodePair(r: Reader) returns (kv: Result<Pair>)
    modifies r
    ensures match GetPair(r.buf, old(r.pos))
            case Err => kv == Err
            case Ok((x, p)) => kv == Ok(x) && r.pos == p
  {
    var key := r.Bytes();
    if key.Err? {
      return Err;
    }
    var value := r.Bytes();
    if value.Err? {
      return Err;
    }
    return Ok((key.value, value.value));
  }

  lemma InsertAllSnoc<K, V>(acc: map<K, V>, items: seq<(K, V)>, x: (K, V))
    ensures InsertAll(acc, items + [x]) == InsertAll(acc, items)[x.0 := x.1]
  {
    assert (items + [x])[..|items|] == items;
  }

  /** The dedup table; `clients` are the records read, in order. */
  method DecodeClients(r: Reader) returns (table: Result<map<nat, LastApplied>>, ghost clients: seq<Client>)
    modifies r
    ensures match GetClients(r.buf, old(r.pos))
            case Err => table == Err
            case Ok((x, p)) => table == Ok(InsertAll(map[], x)) && clients == x && r.pos == p
  {
    clients := [];
    var count := r.U64();
    if count.Err? {
      table := Err;
      return;
    }
    table, clients := DecodeTable(r, count.value);
  }

  method DecodeTable(r: Reader, count: nat) returns (table: Result<map<nat, LastApplied>>, ghost clients: seq<Client>)
    modifies r
    ensures match Repeat(GetClient, r.buf, old(r.pos), count)
            case Err => table == Err
            case Ok((x, p)) => table == Ok(InsertAll(map[], x)) && clients == x && r.pos == p
  {
    clients := [];
    var dedup: map<nat, LastApplied> := map[];
    ghost var whole := Repeat(GetClient, r.buf, r.pos, count);
    PrependNothing(whole);
    for i := 0 to count
      invariant whole == Prepend(clients, Repeat(GetClient, r.buf, r.pos, count - i))
      invariant dedup == InsertAll(map[], clients)
    {
      RepeatStep(GetClient, r.buf, r.pos, count - i, clients);
      var client := DecodeClient(r);
      if client.Err? {
        table := Err;
        return;
      }
      InsertAllSnoc(map[], clients, client.value);
      dedup := dedup[client.value.0 := client.value.1];
      clients := clients + [client.value];
    }
    assert clients + [] == clients;
    table := Ok(dedup);
  }

  method DecodePairs(r: Reader) returns (pairs: Result<seq<Pair>>)
    modifies r
    ensures match GetPairs(r.buf, old(r.pos))
            case Err => pairs == Err
            case Ok((x, p)) => pairs == Ok(x) && r.pos == p
  {
    var count := r.U64();
    if count.Err? {
      return Err;
    }
    pairs := DecodeImage(r, count.value);
  }

  method DecodeImage(r: Reader, count: nat) returns (pairs: Result<seq<Pair>>)
    modifies r
    ensures match Repeat(GetPair, r.buf, old(r.pos), count)
            case Err => pairs == Err
            case Ok((x, p)) => pairs == Ok(x) && r.pos == p
  {
    var out: seq<Pair> := [];
    ghost var whole := Repeat(GetPair, r.buf, r.pos, count);
    PrependNothing(whole);
    for i := 0 to count
      invariant whole == Prepend(out, Repeat(GetPair, r.buf, r.pos, count - i))
    {
      RepeatStep(GetPair, r.buf, r.pos, count - i, out);
      var pair := DecodePair(r);
      if pair.Err? {
        return Err;
      }
      out := out + [pair.value];
    }
    assert out + [] == out;
    return Ok(out);
  }

  /** Decode a snapshot into the dedup table and the key/value pairs. */
  method DecodeBlob(data: Bytes) returns (parts: Result<(map<nat, LastApplied>, seq<Pair>)>)
    ensures parts == DecodeSnapshot(data)
  {
    var r := new Reader(data);
    var table, _ := DecodeClients(r);
    if table.Err? {
      return Err;
    }
    var pairs := DecodePairs(r);
    if pairs.Err? {
      return Err;
    }
    return Ok((table.value, pairs.value));
  }

  // ---- the snapshot builder ----

  /** `order` lists what has left `s` so far, each element once. */
  ghost predicate Listed<T(!new)>(order: seq<T>, s: set<T>, rest: set<T>) {
    && rest <= s && |order| + |rest| == |s|
    && (forall i :: 0 <= i < |order| ==> order[i] in s && order[i] !in rest)
    && (forall x :: x in s && x !in rest ==> x in order)
    && (forall i, j :: 0 <= i < j < |order| ==> order[i] != order[j])
  }

  lemma ListedMore<T(!new)>(order: seq<T>, s: set<T>, rest: set<T>, x: T)
    requires Listed(order, s, rest) && x in rest
    ensures Listed(order + [x], s, rest - {x})
  {
  }

  lemma ListedAll<T(!new)>(order: seq<T>, s: set<T>)
    requires Listed(order, s, {})
    ensures IsOrder(order, s)
  {
  }

  method EncodeRecord(buf: Bytes, client: nat, last: LastApplied) returns (part: Bytes)
    ensures part == buf + EncodeClient((client, last))
  {
    part := buf + PutU64(client);
    part := part + PutU64(last.seq_);
    part := part + EncodeOutcome(last.outcome);
  }

  method EncodeBinding(buf: Bytes, key: Bytes, value: Bytes) returns (part: Bytes)
    ensures part == buf + EncodePair((key, value))
  {
    part := buf + PutBytes(key);
    part := part + PutBytes(value);
  }

  /** `part` is the count and the records of the clients in `order`; those in `rest` are still to come. */
  ghost predicate TableSoFar(part: Bytes, dedup: map<nat, LastApplied>, order: seq<nat>, rest: set<nat>) {
    Listed(order, dedup.Keys, rest) && part == PutU64(|dedup|) + Concat(EncodeClient, ClientsOf(order, dedup))
  }

  lemma TableMore(part: Bytes, dedup: map<nat, LastApplied>, order: seq<nat>, rest: set<nat>, client: nat)
    requires TableSoFar(part, dedup, order, rest) && client in rest
    ensures TableSoFar(part + EncodeClient((client, dedup[client])), dedup, order + [client], rest - {client})
  {
    var record := (client, dedup[client]);
    ListedMore(order, dedup.Keys, rest, client);
    ConcatSnoc(EncodeClient, ClientsOf(order, dedup), record);
    assert ClientsOf(order + [client], dedup) == ClientsOf(order, dedup) + [record];
    Regroup(PutU64(|dedup|), Concat(EncodeClient, ClientsOf(order, dedup)), EncodeClient(record));
  }

  lemma Regroup(a: Bytes, b: Bytes, c: Bytes)
    ensures a + b + c == a + (b + c)
  {
  }

  lemma TableWhole(part: Bytes, dedup: map<nat, LastApplied>, order: seq<nat>)
    requires TableSoFar(part, dedup, order, {})
    ensures IsOrder(order, dedup.Keys) && part == EncodeClients(ClientsOf(order, dedup))
  {
    ListedAll(order, dedup.Keys);
  }

  method EncodeTable(dedup: map<nat, LastApplied>) returns (part: Bytes, ghost order: seq<nat>)
    ensures IsOrder(order, dedup.Keys) && part == EncodeClients(ClientsOf(order, dedup))
  {
    part := PutU64(|dedup|);
    order := [];
    var rest := dedup.Keys;
    while rest != {}
      invariant TableSoFar(part, dedup, order, rest)
      decreases rest
    {
      var client :| client in rest;
      TableMore(part, dedup, order, rest, client);
      part := EncodeRecord(part, client, dedup[client]);
      order := order + [client];
      rest := rest - {client};
    }
    TableWhole(part, dedup, order);
  }

  ghost predicate ImageSoFar(part: Bytes, store: map<Bytes, Bytes>, keys: set<Bytes>, order: seq<Bytes>,
      rest: set<Bytes>) {
    Listed(order, keys, rest) && part == PutU64(|keys|) + Concat(EncodePair, PairsOf(order, store))
  }

  lemma ImageMore(part: Bytes, store: map<Bytes, Bytes>, keys: set<Bytes>, order: seq<Bytes>, rest: set<Bytes>,
      key: Bytes)
    requires ImageSoFar(part, store, keys, order, rest) && key in rest
    ensures ImageSoFar(part + EncodePair((key, StoredValue(store, key))), store, keys, order + [key], rest - {key})
  {
    var pair := (key, StoredValue(store, key));
    ListedMore(order, keys, rest, key);
    ConcatSnoc(EncodePair, PairsOf(order, store), pair);
    assert PairsOf(order + [key], store) == PairsOf(order, store) + [pair];
    Regroup(PutU64(|keys|), Concat(EncodePair, PairsOf(order, store)), EncodePair(pair));
  }

  method EncodeStore(store: map<Bytes, Bytes>, keys: set<Bytes>) returns (part: Bytes, ghost order: seq<Bytes>)
    ensures IsOrder(order, keys) && part == EncodePairs(PairsOf(order, store))
  {
    part := PutU64(|keys|);
    order := [];
    var rest := keys;
    while rest != {}
      invariant ImageSoFar(part, store, keys, order, rest)
      decreases rest
    {
      var key :| key in rest;
      ImageMore(part, store, keys, order, rest, key);
      part := EncodeBinding(part, key, if key in store then store[key] else []);
      order := order + [key];
      rest := rest - {key};
    }
    ListedAll(order, keys);
  }

  // ---- the state machine ----

  class AppState {
    var store: map<Bytes, Bytes>
    var keys: set<Bytes>
    var dedup: map<nat, LastApplied>
    /** Nonces of callers waiting for their entry, and the outcomes sent to callers. */
    var waiters: set<nat>
    var answers: map<nat, Outcome>

    function Data(): AppData
      reads this
    {
      AppData(store, keys, dedup)
    }

    constructor ()
      ensures Data() == EMPTY_APP && waiters == {} && answers == map[]
    {
      store, keys, dedup, waiters, answers := map[], {}, map[], {}, map[];
    }

    /** Apply one committed command and wake the caller waiting for it, if any. */
    method Apply(c: Command)
      modifies this
      ensures Data() == ApplyCommitted(old(Data()), c).0
      ensures waiters == old(waiters) - {c.nonce}
      ensures answers == if c.nonce in old(waiters) then old(answers)[c.nonce := ApplyCommitted(old(Data()), c).1] else old(answers)
    {
      var outcome := ApplyDeduplicated(c);
      if c.nonce in waiters {
        waiters := waiters - {c.nonce};
        answers := answers[c.nonce := outcome];
      }
    }

    method ApplyDeduplicated(c: Command) returns (outcome: Outcome)
      modifies this`store, this`keys, this`dedup
      ensures (Data(), outcome) == ApplyCommitted(old(Data()), c)
    {
      var isMutation := c.op == OP_PUT || c.op == OP_DELETE || c.op == OP_APPEND;
      if !isMutation || c.clientId == 0 {
        outcome := RunCommand(c);
        return;
      }
      if c.clientId in dedup && c.seq_ <= dedup[c.clientId].seq_ {
        return dedup[c.clientId].outcome;
      }
      outcome := RunCommand(c);
      dedup := dedup[c.clientId := LastApplied(c.seq_, outcome)];
    }

    method RunCommand(c: Command) returns (outcome: Outcome)
      modifies this`store, this`keys
      ensures (Data(), outcome) == Run(old(Data()), c)
    {
      if c.op == OP_GET {
        outcome := Value(if c.key in store then Some(store[c.key]) else None);
      } else if c.op == OP_PUT {
        store := store[c.key := c.value];
        keys := keys + {c.key};
        outcome := Done;
      } else if c.op == OP_DELETE {
        store := store - {c.key};
        keys := keys - {c.key};
        outcome := Done;
      } else if c.op == OP_APPEND {
        var value := if c.key in store then store[c.key] else [];
        value := value + c.value;
        store := store[c.key := value];
        keys := keys + {c.key};
        outcome := Value(Some(value));
      } else {
        outcome := Failed(UnknownOp(c.op));
      }
    }

    /** One round of the apply loop: apply the item, and after a command snapshot a log that has grown too long. */
    method Round(decode: Bytes -> Option<Command>, item: Apply, logLen: nat)
        returns (request: Option<(LogIndex, Bytes)>)
      modifies this
      ensures Data() == match item
                        case ApplyCommand(e) => ApplyBytes(decode, old(Data()), e.command)
                        case ApplySnapshot(s) => InstallSnapshot(old(Data()), s.data)
      ensures request.Some? <==> item.ApplyCommand? && logLen >= SNAPSHOT_THRESHOLD
      ensures request.Some? && Fits(Data()) ==> request.value.0 == item.entry.index && IsSnapshotOf(request.value.1, Data())
    {
      request := None;
      match item
      case ApplyCommand(entry) =>
        var command := decode(entry.command);
        if command.Some? {
          Apply(command.value);
        }
        if logLen >= SNAPSHOT_THRESHOLD {
          var data := BuildSnapshot();
          request := Some((entry.index, data));
        }
      case ApplySnapshot(s) =>
        Install(s.data);
    }

    /** Serialize the dedup table and the key/value image, in some iteration order. */
    method BuildSnapshot() returns (data: Bytes)
      ensures exists clients: seq<nat>, order: seq<Bytes> :: BuiltFrom(data, Data(), clients, order)
      ensures Fits(Data()) ==> IsSnapshotOf(data, Data())
    {
      var table, clients := EncodeTable(dedup);
      var image, order := EncodeStore(store, keys);
      data := table + image;
      assert BuiltFrom(data, Data(), clients, order);
    }

    /** Clear every known key, then load the snapshot's image and adopt its table. */
    method Install(data: Bytes)
      modifies this`store, this`keys, this`dedup
      ensures Data() == InstallSnapshot(old(Data()), data)
    {
      var parts := DecodeBlob(data);
      if parts.Err? {
        return;
      }
      ClearKeys();
      LoadPairs(parts.value.1);
      dedup := parts.value.0;
    }

    method ClearKeys()
      modifies this`store, this`keys
      ensures store == old(store) - old(keys) && keys == {}
    {
      var rest := keys;
      while rest != {}
        invariant rest <= keys && keys == old(keys) && store == old(store) - (keys - rest)
        decreases rest
      {
        var key :| key in rest;
        store := store - {key};
        rest := rest - {key};
      }
      keys := {};
    }

    method LoadPairs(pairs: seq<Pair>)
      requires keys == {}
      modifies this`store, this`keys
      ensures store == InsertAll(old(store), pairs) && keys == KeysOf(pairs)
    {
      for i := 0 to |pairs|
        invariant store == InsertAll(old(store), pairs[..i]) && keys == KeysOf(pairs[..i])
      {
        assert pairs[..i + 1] == pairs[..i] + [pairs[i]];
        InsertAllSnoc(old(store), pairs[..i], pairs[i]);
        store := store[pairs[i].0 := pairs[i].1];
        keys := keys + {pairs[i].0};
      }
      assert pairs[..|pairs|] == pairs;
    }
  }
}
