/**
  The snapshot blob of src/app.rs: the dedup table and the key/value image, in
  whatever order the hash map and the hash set iterate.
*/
module SnapshotCodec {
  import opened Types
  import opened Codec
  import opened App

  // ---- writing ----

  function EncodeOutcome(o: Outcome): Bytes {
    match o
    case Done => [0]
    case Value(None) => [1]
    case Value(Some(v)) => [2] + PutBytes(v)
    case Failed(msg) => [3] + PutBytes(msg)
  }

  type Client = (nat, LastApplied)
  type Pair = (Bytes, Bytes)

  function EncodeClient(c: Client): Bytes {
    PutU64(c.0) + (PutU64(c.1.seq_) + EncodeOutcome(c.1.outcome))
  }

  function EncodePair(kv: Pair): Bytes { PutBytes(kv.0) + PutBytes(kv.1) }

  /** The value written for a directory key; the directory only lists stored keys. */
  function StoredValue(store: map<Bytes, Bytes>, key: Bytes): Bytes {
    if key in store then store[key] else []
  }

  function ClientsOf(order: seq<nat>, dedup: map<nat, LastApplied>): (r: seq<Client>)
    requires forall i :: 0 <= i < |order| ==> order[i] in dedup
    ensures |r| == |order|
    ensures forall i :: 0 <= i < |order| ==> r[i] == (order[i], dedup[order[i]])
  {
    seq(|order|, i requires 0 <= i < |order| => (order[i], dedup[order[i]]))
  }

  function PairsOf(order: seq<Bytes>, store: map<Bytes, Bytes>): (r: seq<Pair>)
    ensures |r| == |order|
    ensures forall i :: 0 <= i < |order| ==> r[i] == (order[i], StoredValue(store, order[i]))
  {
    seq(|order|, i requires 0 <= i < |order| => (order[i], StoredValue(store, order[i])))
  }

  /** `order` lists each element of `s` once. */
  ghost predicate IsOrder<T(!new)>(order: seq<T>, s: set<T>) {
    && (forall i :: 0 <= i < |order| ==> order[i] in s)
    && (forall x :: x in s ==> x in order)
    && (forall i, j :: 0 <= i < j < |order| ==> order[i] != order[j])
    && |order| == |s|
  }

  function EncodeClients(clients: seq<Client>): Bytes { PutList(EncodeClient, clients) }

  function EncodePairs(pairs: seq<Pair>): Bytes { PutList(EncodePair, pairs) }

  function BlobOf(clients: seq<Client>, pairs: seq<Pair>): Bytes {
    EncodeClients(clients) + EncodePairs(pairs)
  }

  // ---- reading ----

  function GetOutcome(buf: Bytes, pos: nat): Result<(Outcome, nat)> {
    match GetU8(buf, pos)
    case Err => Err
    case Ok((tag, p)) =>
      if tag == 0 then Ok((Done, p))
      else if tag == 1 then Ok((Value(None), p))
      else if tag == 2 || tag == 3 then
        (match GetBytes(buf, p)
         case Err => Err
         case Ok((v, q)) => Ok((if tag == 2 then Value(Some(v)) else Failed(v), q)))
      else Err
  }

  function GetClient(buf: Bytes, pos: nat): Result<(Client, nat)> {
    match GetU64(buf, pos)
    case Err => Err
    case Ok((id, p)) =>
      match GetU64(buf, p)
      case Err => Err
      case Ok((sq, q)) =>
        match GetOutcome(buf, q)
        case Err => Err
        case Ok((o, r)) => Ok(((id, LastApplied(sq, o)), r))
  }

  function GetPair(buf: Bytes, pos: nat): Result<(Pair, nat)> {
    GetBoth(GetBytes, GetBytes, buf, pos)
  }

  function GetClients(buf: Bytes, pos: nat): Result<(seq<Client>, nat)> {
    GetList(GetClient, buf, pos)
  }

  function GetPairs(buf: Bytes, pos: nat): Result<(seq<Pair>, nat)> {
    GetList(GetPair, buf, pos)
  }

  function GetLists(buf: Bytes, pos: nat): Result<((seq<Client>, seq<Pair>), nat)> {
    GetBoth(GetClients, GetPairs, buf, pos)
  }

  /** Both lists and the position after them; trailing bytes are not looked at. */
  function GetImage(data: Bytes): Result<((seq<Client>, seq<Pair>), nat)> { GetLists(data, 0) }

  /** A table built by inserting the listed entries in order. */
  function InsertAll<K, V>(acc: map<K, V>, items: seq<(K, V)>): map<K, V>
    decreases |items|
  {
    if items == [] then acc else InsertAll(acc, items[..|items| - 1])[items[|items| - 1].0 := items[|items| - 1].1]
  }

  function DecodeSnapshot(data: Bytes): Result<(map<nat, LastApplied>, seq<Pair>)> {
    match GetImage(data)
    case Err => Err
    case Ok(((clients, pairs), _)) => Ok((InsertAll(map[], clients), pairs))
  }

  // ---- installing ----

  function KeysOf(pairs: seq<Pair>): set<Bytes> {
    set kv | kv in pairs :: kv.0
  }

  /** Replace the state by a snapshot; an undecodable one is ignored. */
  function InstallSnapshot(a: AppData, data: Bytes): AppData {
    match DecodeSnapshot(data)
    case Err => a
    case Ok((dedup, pairs)) => AppData(InsertAll(a.store - a.keys, pairs), KeysOf(pairs), dedup)
  }

  // ---- sizes fit the 64-bit fields ----

  predicate OutcomeFits(o: Outcome) {
    match o
    case Value(Some(v)) => |v| < WORD
    case Failed(msg) => |msg| < WORD
    case _ => true
  }

  predicate ClientFits(c: Client) {
    c.0 < WORD && c.1.seq_ < WORD && OutcomeFits(c.1.outcome)
  }

  predicate PairFits(kv: Pair) {
    |kv.0| < WORD && |kv.1| < WORD
  }

  predicate Fits(a: AppData) {
    && |a.dedup.Keys| < WORD && |a.keys| < WORD
    && (forall c :: c in a.dedup ==> ClientFits((c, a.dedup[c])))
    && (forall k :: k in a.keys ==> PairFits((k, StoredValue(a.store, k))))
  }

  ghost predicate BuiltFrom(data: Bytes, a: AppData, clients: seq<nat>, keys: seq<Bytes>) {
    && IsOrder(clients, a.dedup.Keys)
    && IsOrder(keys, a.keys)
    && data == BlobOf(ClientsOf(clients, a.dedup), PairsOf(keys, a.store))
  }

  /** `data` is a snapshot of `a`, built in some iteration order. */
  ghost predicate IsSnapshotOf(data: Bytes, a: AppData) {
    Fits(a) && exists clients: seq<nat>, keys: seq<Bytes> :: BuiltFrom(data, a, clients, keys)
  }

  // ---- reading back one item ----

  lemma OutcomeReadsBack(buf: Bytes, pos: nat, o: Outcome)
    requires OutcomeFits(o) && Holds(buf, pos, EncodeOutcome(o))
    ensures GetOutcome(buf, pos) == Ok((o, pos + |EncodeOutcome(o)|))
  {
    match o
    case Done =>
      assert buf[pos] == EncodeOutcome(o)[0];
    case Value(None) =>
      assert buf[pos] == EncodeOutcome(o)[0];
    case Value(Some(v)) =>
      HoldsSplit(buf, pos, [2], PutBytes(v));
      ReadBytes(buf, pos + 1, v);
    case Failed(v) =>
      HoldsSplit(buf, pos, [3], PutBytes(v));
      ReadBytes(buf, pos + 1, v);
  }

  lemma ClientReadsBack(buf: Bytes, c: Client)
    requires ClientFits(c)
    ensures ReadsBack(GetClient, EncodeClient, buf, c)
  {
    ClientReads(buf, c, EncodeClient(c));
  }

  lemma ClientReads(buf: Bytes, c: Client, part: Bytes)
    requires ClientFits(c) && part == EncodeClient(c)
    ensures ReadsAt(GetClient, buf, part, c)
  {
    forall pos: nat | Holds(buf, pos, part)
      ensures GetClient(buf, pos) == Ok((c, pos + |part|))
    {
      ClientReadsBackAt(buf, pos, c.0, c.1, part);
    }
  }

  lemma ClientReadsBackAt(buf: Bytes, pos: nat, id: nat, last: LastApplied, part: Bytes)
    requires ClientFits((id, last)) && part == EncodeClient((id, last)) && Holds(buf, pos, part)
    ensures GetClient(buf, pos) == Ok(((id, last), pos + |part|))
  {
    HoldsSplit(buf, pos, PutU64(id), PutU64(last.seq_) + EncodeOutcome(last.outcome));
    HoldsSplit(buf, pos + 8, PutU64(last.seq_), EncodeOutcome(last.outcome));
    ReadU64(buf, pos, id);
    ReadU64(buf, pos + 8, last.seq_);
    OutcomeReadsBack(buf, pos + 16, last.outcome);
  }

  lemma PairReadsBack(buf: Bytes, kv: Pair)
    requires PairFits(kv)
    ensures ReadsBack(GetPair, EncodePair, buf, kv)
  {
    BytesReadBack(buf, kv.0);
    BytesReadBack(buf, kv.1);
    BothRead(GetBytes, PutBytes(kv.0), kv.0, GetBytes, PutBytes(kv.1), kv.1, GetPair, buf);
  }

  // ---- reading back the whole blob ----

  lemma ClientsReadBack(buf: Bytes, clients: seq<Client>)
    requires |clients| < WORD
    requires forall i :: 0 <= i < |clients| ==> ClientFits(clients[i])
    ensures ReadsBack(GetClients, EncodeClients, buf, clients)
  {
    forall i | 0 <= i < |clients|
      ensures ReadsBack(GetClient, EncodeClient, buf, clients[i])
    {
      ClientReadsBack(buf, clients[i]);
    }
    ListReads(GetClient, EncodeClient, buf, clients, EncodeClients(clients));
  }

  lemma PairsReadBack(buf: Bytes, pairs: seq<Pair>)
    requires |pairs| < WORD
    requires forall i :: 0 <= i < |pairs| ==> PairFits(pairs[i])
    ensures ReadsBack(GetPairs, EncodePairs, buf, pairs)
  {
    forall i | 0 <= i < |pairs|
      ensures ReadsBack(GetPair, EncodePair, buf, pairs[i])
    {
      PairReadsBack(buf, pairs[i]);
    }
    ListReads(GetPair, EncodePair, buf, pairs, EncodePairs(pairs));
  }

  /** Decoding a built blob gives back both lists and consumes it entirely. */
  lemma ImageReadsBack(clients: seq<Client>, pairs: seq<Pair>)
    requires |clients| < WORD && |pairs| < WORD
    requires forall i :: 0 <= i < |clients| ==> ClientFits(clients[i])
    requires forall i :: 0 <= i < |pairs| ==> PairFits(pairs[i])
    ensures GetImage(BlobOf(clients, pairs)) == Ok(((clients, pairs), |BlobOf(clients, pairs)|))
  {
    var buf := BlobOf(clients, pairs);
    ClientsReadBack(buf, clients);
    PairsReadBack(buf, pairs);
    BothRead(GetClients, EncodeClients(clients), clients, GetPairs, EncodePairs(pairs), pairs, GetLists, buf);
    HoldsAll(buf);
  }

  // ---- installing a built snapshot restores the state ----

  lemma {:induction false} InsertedFrom<K, V>(items: seq<(K, V)>, k: K) returns (i: nat)
    requires k in InsertAll(map[], items)
    ensures i < |items| && items[i].0 == k
  {
    var init := items[..|items| - 1];
    if items[|items| - 1].0 == k {
      i := |items| - 1;
    } else {
      i := InsertedFrom(init, k);
    }
  }

  lemma {:induction false} InsertedAt<K, V>(items: seq<(K, V)>, i: nat)
    requires i < |items| && forall j, k :: 0 <= j < k < |items| ==> items[j].0 != items[k].0
    ensures items[i].0 in InsertAll(map[], items) && InsertAll(map[], items)[items[i].0] == items[i].1
  {
    if i < |items| - 1 {
      InsertedAt(items[..|items| - 1], i);
    }
  }

  lemma ClientsRestored(order: seq<nat>, dedup: map<nat, LastApplied>)
    requires IsOrder(order, dedup.Keys)
    ensures InsertAll(map[], ClientsOf(order, dedup)) == dedup
  {
    var items := ClientsOf(order, dedup);
    var r := InsertAll(map[], items);
    forall k | k in dedup
      ensures k in r && r[k] == dedup[k]
    {
      var i :| 0 <= i < |order| && order[i] == k;
      InsertedAt(items, i);
    }
    forall k | k in r
      ensures k in dedup
    {
      var i := InsertedFrom(items, k);
      assert order[i] == k;
    }
  }

  lemma PairsRestored(order: seq<Bytes>, store: map<Bytes, Bytes>)
    requires IsOrder(order, store.Keys)
    ensures InsertAll(map[], PairsOf(order, store)) == store
    ensures KeysOf(PairsOf(order, store)) == store.Keys
  {
    var items := PairsOf(order, store);
    var r := InsertAll(map[], items);
    forall k | k in store
      ensures k in r && r[k] == store[k] && k in KeysOf(items)
    {
      var i :| 0 <= i < |order| && order[i] == k;
      InsertedAt(items, i);
      assert items[i] in items;
    }
    forall k | k in r
      ensures k in store
    {
      var i := InsertedFrom(items, k);
      assert order[i] == k;
    }
  }

  lemma SnapshotFits(a: AppData, clients: seq<nat>, keys: seq<Bytes>)
    requires Fits(a) && IsOrder(clients, a.dedup.Keys) && IsOrder(keys, a.keys)
    ensures forall i :: 0 <= i < |clients| ==> ClientFits(ClientsOf(clients, a.dedup)[i])
    ensures forall i :: 0 <= i < |keys| ==> PairFits(PairsOf(keys, a.store)[i])
  {
  }

  /** A snapshot decodes to the table and the image it was built from, whatever the iteration order. */
  lemma SnapshotDecodes(data: Bytes, a: AppData, clients: seq<nat>, keys: seq<Bytes>)
    requires Fits(a) && BuiltFrom(data, a, clients, keys)
    ensures DecodeSnapshot(data) == Ok((a.dedup, PairsOf(keys, a.store)))
    ensures GetImage(data).Ok? && GetImage(data).value.1 == |data|
  {
    SnapshotFits(a, clients, keys);
    ImageReadsBack(ClientsOf(clients, a.dedup), PairsOf(keys, a.store));
    ClientsRestored(clients, a.dedup);
  }

  lemma {:induction false} InsertedOver<K, V>(acc: map<K, V>, items: seq<(K, V)>)
    ensures InsertAll(acc, items) == acc + InsertAll(map[], items)
  {
    if items != [] {
      InsertedOver(acc, items[..|items| - 1]);
    }
  }

  /** Installing a snapshot of `a` clears the keys the directory lists and lays the image of `a` over the rest. */
  lemma SnapshotInstalls(data: Bytes, a: AppData, b: AppData)
    requires IsSnapshotOf(data, a) && Directory(a)
    ensures InstallSnapshot(b, data) == AppData((b.store - b.keys) + a.store, a.keys, a.dedup)
  {
    var clients: seq<nat>, keys: seq<Bytes> :| BuiltFrom(data, a, clients, keys);
    SnapshotDecodes(data, a, clients, keys);
    PairsRestored(keys, a.store);
    InsertedOver(b.store - b.keys, PairsOf(keys, a.store));
  }

  /** It gives exactly `a` if and only if every stored key is listed or in the image. */
  lemma SnapshotRestoresIff(data: Bytes, a: AppData, b: AppData)
    requires IsSnapshotOf(data, a) && Directory(a)
    ensures InstallSnapshot(b, data) == a <==> forall k :: k in b.store && k !in b.keys ==> k in a.store
  {
    SnapshotInstalls(data, a, b);
    LaidOver(b.store - b.keys, a.store);
  }

  lemma LaidOver(rest: map<Bytes, Bytes>, image: map<Bytes, Bytes>)
    ensures rest + image == image <==> forall k :: k in rest ==> k in image
  {
    if forall k :: k in rest ==> k in image {
      assert (rest + image).Keys == image.Keys;
    } else {
      var k :| k in rest && k !in image;
      assert k in rest + image;
    }
  }

  /** Installing a snapshot of `a` over a state whose directory lists its keys gives exactly `a`. */
  lemma SnapshotRestores(data: Bytes, a: AppData, b: AppData)
    requires IsSnapshotOf(data, a) && Directory(a) && Directory(b)
    ensures InstallSnapshot(b, data) == a
  {
    SnapshotRestoresIff(data, a, b);
  }

  // ---- truncation ----

  lemma OutcomeStable(buf: Bytes, more: Bytes, pos: nat)
    requires GetOutcome(buf, pos).Ok?
    ensures GetOutcome(buf + more, pos) == GetOutcome(buf, pos)
    ensures pos <= GetOutcome(buf, pos).value.1 <= |buf|
  {
    TakeStable(buf, more, pos, 1);
    if GetU8(buf, pos).value.0 == 2 || GetU8(buf, pos).value.0 == 3 {
      BytesStable(buf, more, pos + 1);
    }
  }

  lemma ClientStable(buf: Bytes, more: Bytes)
    ensures Stable(GetClient, buf, more)
  {
    forall pos: nat | GetClient(buf, pos).Ok?
      ensures GetClient(buf + more, pos) == GetClient(buf, pos) && pos <= GetClient(buf, pos).value.1 <= |buf|
    {
      U64Stable(buf, more, pos);
      U64Stable(buf, more, pos + 8);
      OutcomeStable(buf, more, pos + 16);
    }
  }

  lemma ClientsStable(buf: Bytes, more: Bytes)
    ensures Stable(GetClients, buf, more)
  {
    ClientStable(buf, more);
    forall pos: nat | GetClients(buf, pos).Ok?
      ensures GetClients(buf + more, pos) == GetClients(buf, pos) && pos <= GetClients(buf, pos).value.1 <= |buf|
    {
      ListStable(GetClient, buf, more, pos);
    }
  }

  lemma PairStable(buf: Bytes, more: Bytes)
    ensures Stable(GetPair, buf, more)
  {
    forall pos: nat | GetPair(buf, pos).Ok?
      ensures GetPair(buf + more, pos) == GetPair(buf, pos) && pos <= GetPair(buf, pos).value.1 <= |buf|
    {
      BytesStable(buf, more, pos);
      BytesStable(buf, more, GetBytes(buf, pos).value.1);
    }
  }

  lemma PairsStable(buf: Bytes, more: Bytes)
    ensures Stable(GetPairs, buf, more)
  {
    PairStable(buf, more);
    forall pos: nat | GetPairs(buf, pos).Ok?
      ensures GetPairs(buf + more, pos) == GetPairs(buf, pos) && pos <= GetPairs(buf, pos).value.1 <= |buf|
    {
      ListStable(GetPair, buf, more, pos);
    }
  }

  lemma ImageStable(buf: Bytes, more: Bytes)
    requires GetImage(buf).Ok?
    ensures GetImage(buf + more) == GetImage(buf) && GetImage(buf).value.1 <= |buf|
  {
    ClientsStable(buf, more);
    PairsStable(buf, more);
  }

  lemma PrefixRejected(data: Bytes, prefix: Bytes, more: Bytes)
    requires data == prefix + more && more != [] && GetImage(data).Ok? && GetImage(data).value.1 == |data|
    ensures DecodeSnapshot(prefix) == Err
  {
    if GetImage(prefix).Ok? {
      ImageStable(prefix, more);
    }
  }

  /** Every strict prefix of a snapshot is rejected. */
  lemma TruncatedSnapshotRejected(data: Bytes, a: AppData, n: nat)
    requires IsSnapshotOf(data, a) && n < |data|
    ensures DecodeSnapshot(data[..n]) == Err
  {
    var clients: seq<nat>, keys: seq<Bytes> :| BuiltFrom(data, a, clients, keys);
    SnapshotDecodes(data, a, clients, keys);
    PrefixRejected(data, data[..n], data[n..]);
  }

  /** Bytes after a snapshot are ignored. */
  lemma TrailingBytesIgnored(data: Bytes, a: AppData, more: Bytes)
    requires IsSnapshotOf(data, a)
    ensures DecodeSnapshot(data + more) == DecodeSnapshot(data) && DecodeSnapshot(data).Ok?
  {
    var clients: seq<nat>, keys: seq<Bytes> :| BuiltFrom(data, a, clients, keys);
    SnapshotDecodes(data, a, clients, keys);
    ImageStable(data, more);
  }
}
