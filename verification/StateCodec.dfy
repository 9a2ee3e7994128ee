/**
  The on-disk form of the durable state (src/raft/storage.rs): `Encode` and `Decode` as
  the code runs them, over a specification by parsers, and the laws of the format.
*/
module StateCodec {
  import opened Types
  import opened Storage
  import opened Codec

  /** The magic `MRMR` and the version. */
  const HEADER: Bytes := [77, 82, 77, 82, 2]

  // ---- the layout ----

  function PutVote(v: Option<NodeId>): Bytes {
    match v
    case None => [0] + PutU64(0)
    case Some(id) => [1] + PutU64(id)
  }

  function GetVote(buf: Bytes, pos: nat): Result<(Option<NodeId>, nat)> {
    match GetBoth(GetU8, GetU64, buf, pos)
    case Err => Err
    case Ok(((flag, id), p)) => if flag == 0 then Ok((None, p)) else if flag == 1 then Ok((Some(id), p)) else Err
  }

  /** The compaction boundary and the snapshot it stands for. */
  datatype Boundary = Boundary(index: LogIndex, term: Term, snapshot: Option<Bytes>)

  function PutFlagged(flag: byte, index: LogIndex, term: Term, data: Bytes): Bytes {
    [flag] + (PutU64(index) + (PutU64(term) + PutBytes(data)))
  }

  function PutBoundary(b: Boundary): Bytes {
    match b.snapshot
    case None => PutFlagged(0, 0, 0, [])
    case Some(data) => PutFlagged(1, b.index, b.term, data)
  }

  function GetBoundary(buf: Bytes, pos: nat): Result<(Boundary, nat)> {
    match GetU8(buf, pos)
    case Err => Err
    case Ok((flag, p0)) =>
      match GetU64(buf, p0)
      case Err => Err
      case Ok((index, p1)) =>
        match GetU64(buf, p1)
        case Err => Err
        case Ok((term, p2)) =>
          match GetU64(buf, p2)
          case Err => Err
          case Ok((len, p3)) =>
            if flag == 0 then Ok((Boundary(index, term, None), p3))
            else if flag == 1 then
              match TakeAt(buf, p3, len)
              case Err => Err
              case Ok((data, p4)) => Ok((Boundary(index, term, Some(data)), p4))
            else Err
  }

  function PutEntry(e: LogEntry): Bytes { PutU64(e.term) + PutBytes(e.command) }

  function GetEntry(buf: Bytes, pos: nat): Result<(LogEntry, nat)> {
    match GetBoth(GetU64, GetBytes, buf, pos)
    case Err => Err
    case Ok(((term, command), p)) => Ok((LogEntry(term, command), p))
  }

  function PutEntries(entries: seq<LogEntry>): Bytes { PutList(PutEntry, entries) }

  function GetEntries(buf: Bytes, pos: nat): Result<(seq<LogEntry>, nat)> { GetList(GetEntry, buf, pos) }

  // ---- the whole state ----

  type Parts = (nat, (Option<NodeId>, (Boundary, seq<LogEntry>)))

  function PutTail(x: (Boundary, seq<LogEntry>)): Bytes { PutBoundary(x.0) + PutEntries(x.1) }

  function PutVoteOn(x: (Option<NodeId>, (Boundary, seq<LogEntry>))): Bytes { PutVote(x.0) + PutTail(x.1) }

  function PutParts(x: Parts): Bytes { PutU64(x.0) + PutVoteOn(x.1) }

  function GetTail(buf: Bytes, pos: nat): Result<((Boundary, seq<LogEntry>), nat)> {
    GetBoth(GetBoundary, GetEntries, buf, pos)
  }

  function GetVoteOn(buf: Bytes, pos: nat): Result<((Option<NodeId>, (Boundary, seq<LogEntry>)), nat)> {
    GetBoth(GetVote, GetTail, buf, pos)
  }

  function GetParts(buf: Bytes, pos: nat): Result<(Parts, nat)> {
    GetBoth(GetU64, GetVoteOn, buf, pos)
  }

  function PartsOf(s: PersistentState): Parts {
    (s.currentTerm, (s.votedFor, (Boundary(s.log.snapshotIndex, s.log.snapshotTerm, s.snapshot), s.log.entries)))
  }

  function StateOf(x: Parts): PersistentState {
    PersistentState(x.0, x.1.0, Log(x.1.1.1, x.1.1.0.index, x.1.1.0.term), x.1.1.0.snapshot)
  }

  function EncodeState(s: PersistentState): Bytes { HEADER + PutParts(PartsOf(s)) }

  predicate HasHeader(buf: Bytes) { HEADER <= buf }

  /** Strict about length: the parts must end where the input ends. */
  function DecodeState(buf: Bytes): Result<PersistentState> {
    if !HasHeader(buf) then Err
    else
      match GetParts(buf, |HEADER|)
      case Err => Err
      case Ok((x, p)) => if p == |buf| then Ok(StateOf(x)) else Err
  }

  // ---- sizes ----

  predicate EntryFits(e: LogEntry) { e.term < WORD && |e.command| < WORD }

  predicate BoundaryFits(b: Boundary) {
    b.index < WORD && b.term < WORD && (b.snapshot.Some? ==> |b.snapshot.value| < WORD)
  }

  /** Every number and length is a 64-bit word. */
  predicate StateFits(s: PersistentState) {
    && s.currentTerm < WORD && s.votedFor.GetOr(0) < WORD
    && BoundaryFits(Boundary(s.log.snapshotIndex, s.log.snapshotTerm, s.snapshot))
    && |s.log.entries| < WORD && forall k :: 0 <= k < |s.log.entries| ==> EntryFits(s.log.entries[k])
  }

  /** A boundary without a snapshot is not written down. */
  function Carried(b: Boundary): Boundary {
    if b.snapshot.None? then Boundary(0, 0, None) else b
  }

  // ---- reading back ----

  lemma VoteReadsBack(buf: Bytes, pos: nat, v: Option<NodeId>, part: Bytes)
    requires v.GetOr(0) < WORD && part == PutVote(v) && Holds(buf, pos, part)
    ensures GetVote(buf, pos) == Ok((v, pos + |part|))
  {
    var flag: byte, id := if v.Some? then 1 else 0, v.GetOr(0);
    HoldsSplit(buf, pos, [flag], PutU64(id));
    ReadU64(buf, pos + 1, id);
    assert buf[pos..pos + 1][0] == flag;
  }

  lemma VoteReads(buf: Bytes, v: Option<NodeId>, part: Bytes)
    requires v.GetOr(0) < WORD && part == PutVote(v)
    ensures ReadsAt(GetVote, buf, part, v)
  {
    forall pos: nat | Holds(buf, pos, part)
      ensures GetVote(buf, pos) == Ok((v, pos + |part|))
    {
      VoteReadsBack(buf, pos, v, part);
    }
  }

  lemma FlaggedReadsBack(buf: Bytes, pos: nat, flag: byte, index: LogIndex, term: Term, data: Bytes)
    requires index < WORD && term < WORD && |data| < WORD && Holds(buf, pos, PutFlagged(flag, index, term, data))
    ensures GetU8(buf, pos) == Ok((flag, pos + 1)) && GetU64(buf, pos + 1) == Ok((index, pos + 9))
    ensures GetU64(buf, pos + 9) == Ok((term, pos + 17)) && GetU64(buf, pos + 17) == Ok((|data|, pos + 25))
    ensures TakeAt(buf, pos + 25, |data|) == Ok((data, pos + 25 + |data|))
  {
    HoldsSplit(buf, pos, [flag], PutU64(index) + (PutU64(term) + PutBytes(data)));
    assert buf[pos..pos + 1][0] == flag;
    HoldsSplit(buf, pos + 1, PutU64(index), PutU64(term) + PutBytes(data));
    ReadU64(buf, pos + 1, index);
    HoldsSplit(buf, pos + 9, PutU64(term), PutBytes(data));
    ReadU64(buf, pos + 9, term);
    HoldsSplit(buf, pos + 17, PutU64(|data|), data);
    ReadU64(buf, pos + 17, |data|);
  }

  lemma BoundaryReadsBack(buf: Bytes, pos: nat, b: Boundary, part: Bytes)
    requires BoundaryFits(b) && part == PutBoundary(b) && Holds(buf, pos, part)
    ensures GetBoundary(buf, pos) == Ok((Carried(b), pos + |part|))
  {
    if b.snapshot.Some? {
      FlaggedReadsBack(buf, pos, 1, b.index, b.term, b.snapshot.value);
    } else {
      FlaggedReadsBack(buf, pos, 0, 0, 0, []);
    }
  }

  lemma BoundaryReads(buf: Bytes, b: Boundary, part: Bytes)
    requires BoundaryFits(b) && part == PutBoundary(b)
    ensures ReadsAt(GetBoundary, buf, part, Carried(b))
  {
    forall pos: nat | Holds(buf, pos, part)
      ensures GetBoundary(buf, pos) == Ok((Carried(b), pos + |part|))
    {
      BoundaryReadsBack(buf, pos, b, part);
    }
  }

  lemma EntryReadsBack(buf: Bytes, pos: nat, e: LogEntry, part: Bytes)
    requires EntryFits(e) && part == PutEntry(e) && Holds(buf, pos, part)
    ensures GetEntry(buf, pos) == Ok((e, pos + |part|))
  {
    HoldsSplit(buf, pos, PutU64(e.term), PutBytes(e.command));
    ReadU64(buf, pos, e.term);
    ReadBytes(buf, pos + 8, e.command);
  }

  lemma EntryReads(buf: Bytes, e: LogEntry, part: Bytes)
    requires EntryFits(e) && part == PutEntry(e)
    ensures ReadsAt(GetEntry, buf, part, e)
  {
    forall p: nat | Holds(buf, p, part)
      ensures GetEntry(buf, p) == Ok((e, p + |part|))
    {
      EntryReadsBack(buf, p, e, part);
    }
  }

  lemma EntriesRead(buf: Bytes, entries: seq<LogEntry>, part: Bytes)
    requires |entries| < WORD && (forall k :: 0 <= k < |entries| ==> EntryFits(entries[k])) && part == PutEntries(entries)
    ensures ReadsAt(GetEntries, buf, part, entries)
  {
    forall k | 0 <= k < |entries|
      ensures ReadsBack(GetEntry, PutEntry, buf, entries[k])
    {
      EntryReads(buf, entries[k], PutEntry(entries[k]));
    }
    ListReads(GetEntry, PutEntry, buf, entries, part);
  }

  lemma WordReads(buf: Bytes, x: nat, part: Bytes)
    requires x < WORD && part == PutU64(x)
    ensures ReadsAt(GetU64, buf, part, x)
  {
    forall pos: nat | Holds(buf, pos, part)
      ensures GetU64(buf, pos) == Ok((x, pos + |part|))
    {
      ReadU64(buf, pos, x);
    }
  }

  /** Four parts side by side, whatever they are. */
  lemma PartsCompose(buf: Bytes, p0: Bytes, term: nat, p1: Bytes, vote: Option<NodeId>, p2: Bytes, b: Boundary,
      p3: Bytes, entries: seq<LogEntry>)
    requires ReadsAt(GetU64, buf, p0, term) && ReadsAt(GetVote, buf, p1, vote)
    requires ReadsAt(GetBoundary, buf, p2, b) && ReadsAt(GetEntries, buf, p3, entries)
    ensures ReadsAt(GetParts, buf, p0 + (p1 + (p2 + p3)), (term, (vote, (b, entries))))
  {
    BothRead(GetBoundary, p2, b, GetEntries, p3, entries, GetTail, buf);
    BothRead(GetVote, p1, vote, GetTail, p2 + p3, (b, entries), GetVoteOn, buf);
    BothRead(GetU64, p0, term, GetVoteOn, p1 + (p2 + p3), (vote, (b, entries)), GetParts, buf);
  }

  function CarriedParts(x: Parts): Parts { (x.0, (x.1.0, (Carried(x.1.1.0), x.1.1.1))) }

  lemma PartsRead(buf: Bytes, s: PersistentState)
    requires StateFits(s)
    ensures ReadsAt(GetParts, buf, PutParts(PartsOf(s)), CarriedParts(PartsOf(s)))
  {
    var x := PartsOf(s);
    var p0, p1, p2, p3 := PutU64(x.0), PutVote(x.1.0), PutBoundary(x.1.1.0), PutEntries(x.1.1.1);
    WordReads(buf, x.0, p0);
    VoteReads(buf, x.1.0, p1);
    BoundaryReads(buf, x.1.1.0, p2);
    EntriesRead(buf, x.1.1.1, p3);
    PartsCompose(buf, p0, x.0, p1, x.1.0, p2, Carried(x.1.1.0), p3, x.1.1.1);
  }

  /** What decoding gives back: everything, except a boundary that has no snapshot. */
  function Restored(s: PersistentState): PersistentState {
    if s.snapshot.None? then s.(log := Log(s.log.entries, 0, 0)) else s
  }

  lemma EncodedParts(s: PersistentState)
    requires StateFits(s)
    ensures HasHeader(EncodeState(s)) && GetParts(EncodeState(s), |HEADER|).Ok?
    ensures GetParts(EncodeState(s), |HEADER|).value.1 == |EncodeState(s)|
    ensures StateOf(GetParts(EncodeState(s), |HEADER|).value.0) == Restored(s)
  {
    PartsRead(EncodeState(s), s);
    HeaderSkipped(EncodeState(s), PutParts(PartsOf(s)), CarriedParts(PartsOf(s)));
    CarriedIsRestored(s);
  }

  lemma HeaderSkipped(buf: Bytes, parts: Bytes, x: Parts)
    requires buf == HEADER + parts && ReadsAt(GetParts, buf, parts, x)
    ensures HasHeader(buf) && GetParts(buf, |HEADER|) == Ok((x, |buf|))
  {
    HoldsAll(buf);
    HoldsSplit(buf, 0, HEADER, parts);
  }

  lemma CarriedIsRestored(s: PersistentState)
    ensures StateOf(CarriedParts(PartsOf(s))) == Restored(s)
  {
  }

  lemma DecodeEncode(s: PersistentState)
    requires StateFits(s)
    ensures DecodeState(EncodeState(s)) == Ok(Restored(s))
  {
    EncodedParts(s);
  }

  /** The round trip is exact if and only if a state without a snapshot has the boundary (0, 0). */
  lemma RoundTripIff(s: PersistentState)
    requires StateFits(s)
    ensures DecodeState(EncodeState(s)) == Ok(s) <==>
            (s.snapshot.None? ==> s.log.snapshotIndex == 0 && s.log.snapshotTerm == 0)
  {
    DecodeEncode(s);
  }

  // ---- truncation and trailing bytes ----

  lemma BoundaryStable(buf: Bytes, more: Bytes, pos: nat)
    requires GetBoundary(buf, pos).Ok?
    ensures GetBoundary(buf + more, pos) == GetBoundary(buf, pos) && pos <= GetBoundary(buf, pos).value.1 <= |buf|
  {
    TakeStable(buf, more, pos, 1);
    U64Stable(buf, more, pos + 1);
    U64Stable(buf, more, pos + 9);
    U64Stable(buf, more, pos + 17);
    var len := GetU64(buf, pos + 17).value.0;
    if TakeAt(buf, pos + 25, len).Ok? {
      TakeStable(buf, more, pos + 25, len);
    }
  }

  lemma VoteStable(buf: Bytes, more: Bytes, pos: nat)
    requires GetVote(buf, pos).Ok?
    ensures GetVote(buf + more, pos) == GetVote(buf, pos) && pos <= GetVote(buf, pos).value.1 <= |buf|
  {
    TakeStable(buf, more, pos, 1);
    U64Stable(buf, more, pos + 1);
  }

  lemma EntryStable(buf: Bytes, more: Bytes, pos: nat)
    requires GetEntry(buf, pos).Ok?
    ensures GetEntry(buf + more, pos) == GetEntry(buf, pos) && pos <= GetEntry(buf, pos).value.1 <= |buf|
  {
    U64Stable(buf, more, pos);
    BytesStable(buf, more, pos + 8);
  }

  lemma EntriesStable(buf: Bytes, more: Bytes, pos: nat)
    requires GetEntries(buf, pos).Ok?
    ensures GetEntries(buf + more, pos) == GetEntries(buf, pos) && pos <= GetEntries(buf, pos).value.1 <= |buf|
  {
    forall p: nat | GetEntry(buf, p).Ok?
      ensures GetEntry(buf + more, p) == GetEntry(buf, p) && p <= GetEntry(buf, p).value.1 <= |buf|
    {
      EntryStable(buf, more, p);
    }
    ListStable(GetEntry, buf, more, pos);
  }

  lemma PartsStable(buf: Bytes, more: Bytes, pos: nat)
    requires GetParts(buf, pos).Ok?
    ensures GetParts(buf + more, pos) == GetParts(buf, pos) && GetParts(buf, pos).value.1 <= |buf|
  {
    U64Stable(buf, more, pos);
    VoteStable(buf, more, pos + 8);
    var p := GetVote(buf, pos + 8).value.1;
    BoundaryStable(buf, more, p);
    EntriesStable(buf, more, GetBoundary(buf, p).value.1);
  }

  /** No strict prefix of an encoding decodes. */
  lemma PrefixRejected(s: PersistentState, prefix: Bytes)
    requires StateFits(s) && prefix < EncodeState(s)
    ensures DecodeState(prefix) == Err
  {
    var buf := EncodeState(s);
    var more := buf[|prefix|..];
    assert prefix + more == buf;
    EncodedParts(s);
    if HasHeader(prefix) && GetParts(prefix, |HEADER|).Ok? {
      PartsStable(prefix, more, |HEADER|);
    }
  }

  /** No strict extension of an encoding decodes. */
  lemma ExtensionRejected(s: PersistentState, more: Bytes)
    requires StateFits(s) && more != []
    ensures DecodeState(EncodeState(s) + more) == Err
  {
    EncodedParts(s);
    PartsStable(EncodeState(s), more, |HEADER|);
  }

  // ---- the code ----

  const MAGIC: Bytes := HEADER[..4]
  const VERSION: byte := 2

  method EncodeVote(v: Option<NodeId>) returns (part: Bytes)
    ensures part == PutVote(v)
  {
    var flag: byte, id := 0, 0;
    if v.Some? {
      flag, id := 1, v.value;
    }
    part := [flag];
    part := part + PutU64(id);
  }

  method EncodeFlagged(flag: byte, index: LogIndex, term: Term, data: Bytes) returns (part: Bytes)
    ensures part == PutFlagged(flag, index, term, data)
  {
    part := [flag];
    part := part + PutU64(index);
    part := part + PutU64(term);
    part := part + PutU64(|data|);
    part := part + data;
  }

  /** The block is written even when there is no snapshot, with every field zero. */
  method EncodeBoundary(b: Boundary) returns (part: Bytes)
    ensures part == PutBoundary(b)
  {
    if b.snapshot.Some? {
      part := EncodeFlagged(1, b.index, b.term, b.snapshot.value);
    } else {
      part := EncodeFlagged(0, 0, 0, []);
    }
  }

  method EncodeEntries(entries: seq<LogEntry>) returns (part: Bytes)
    ensures part == PutEntries(entries)
  {
    part := PutU64(|entries|);
    for i := 0 to |entries|
      invariant part == PutU64(|entries|) + Concat(PutEntry, entries[..i])
    {
      ghost var done := part;
      part := part + PutU64(entries[i].term);
      part := part + PutU64(|entries[i].command|);
      part := part + entries[i].command;
      assert part == done + PutEntry(entries[i]);
      ConcatSnoc(PutEntry, entries[..i], entries[i]);
      assert entries[..i + 1] == entries[..i] + [entries[i]];
    }
    assert entries[..|entries|] == entries;
  }

  /** Serialize the state. */
  method Encode(s: PersistentState) returns (buf: Bytes)
    ensures buf == EncodeState(s)
  {
    buf := MAGIC;
    buf := buf + [VERSION];
    buf := buf + PutU64(s.currentTerm);
    var vote := EncodeVote(s.votedFor);
    buf := buf + vote;
    var boundary := EncodeBoundary(Boundary(s.log.snapshotIndex, s.log.snapshotTerm, s.snapshot));
    buf := buf + boundary;
    var entries := EncodeEntries(s.log.entries);
    buf := buf + entries;
  }

  method DecodeVote(r: Reader) returns (v: Result<Option<NodeId>>)
    modifies r
    ensures match GetVote(r.buf, old(r.pos))
            case Err => v == Err
            case Ok((x, p)) => v == Ok(x) && r.pos == p
  {
    var flag := r.U8();
    if flag.Err? {
      return Err;
    }
    var id := r.U64();
    if id.Err? {
      return Err;
    }
    if flag.value == 0 {
      return Ok(None);
    } else if flag.value == 1 {
      return Ok(Some(id.value));
    }
    return Err;
  }

  method DecodeBoundary(r: Reader) returns (b: Result<Boundary>)
    modifies r
    ensures match GetBoundary(r.buf, old(r.pos))
            case Err => b == Err
            case Ok((x, p)) => b == Ok(x) && r.pos == p
  {
    var flag := r.U8();
    if flag.Err? {
      return Err;
    }
    var index := r.U64();
    if index.Err? {
      return Err;
    }
    var term := r.U64();
    if term.Err? {
      return Err;
    }
    var len := r.U64();
    if len.Err? {
      return Err;
    }
    if flag.value == 0 {
      return Ok(Boundary(index.value, term.value, None));
    } else if flag.value == 1 {
      var data := r.Take(len.value);
      if data.Err? {
        return Err;
      }
      return Ok(Boundary(index.value, term.value, Some(data.value)));
    }
    return Err;
  }

  method DecodeEntry(r: Reader) returns (e: Result<LogEntry>)
    modifies r
    ensures match GetEntry(r.buf, old(r.pos))
            case Err => e == Err
            case Ok((x, p)) => e == Ok(x) && r.pos == p
  {
    var term := r.U64();
    if term.Err? {
      return Err;
    }
    var command := r.Bytes();
    if command.Err? {
      return Err;
    }
    return Ok(LogEntry(term.value, command.value));
  }

  method DecodeEntries(r: Reader) returns (e: Result<seq<LogEntry>>)
    modifies r
    ensures match GetEntries(r.buf, old(r.pos))
            case Err => e == Err
            case Ok((x, p)) => e == Ok(x) && r.pos == p
  {
    var count := r.U64();
    if count.Err? {
      return Err;
    }
    e := DecodeAll(r, count.value);
  }

  method DecodeAll(r: Reader, count: nat) returns (e: Result<seq<LogEntry>>)
    modifies r
    ensures match Repeat(GetEntry, r.buf, old(r.pos), count)
            case Err => e == Err
            case Ok((x, p)) => e == Ok(x) && r.pos == p
  {
    var entries: seq<LogEntry> := [];
    ghost var whole := Repeat(GetEntry, r.buf, r.pos, count);
    PrependNothing(whole);
    for i := 0 to count
      invariant whole == Prepend(entries, Repeat(GetEntry, r.buf, r.pos, count - i))
    {
      RepeatStep(GetEntry, r.buf, r.pos, count - i, entries);
      var entry := DecodeEntry(r);
      if entry.Err? {
        return Err;
      }
      entries := entries + [entry.value];
    }
    assert entries + [] == entries;
    return Ok(entries);
  }

  /** Inverse of `Encode`: any truncation or trailing byte is an error. */
  method Decode(bytes: Bytes) returns (s: Result<PersistentState>)
    ensures s == DecodeState(bytes)
  {
    var r := new Reader(bytes);
    var magic := r.Take(4);
    if magic.Err? || magic.value != MAGIC {
      return Err;
    }
    var version := r.U8();
    if version.Err? || version.value != VERSION {
      return Err;
    }
    assert HasHeader(bytes);
    var term := r.U64();
    if term.Err? {
      return Err;
    }
    var vote := DecodeVote(r);
    if vote.Err? {
      return Err;
    }
    var boundary := DecodeBoundary(r);
    if boundary.Err? {
      return Err;
    }
    var entries := DecodeEntries(r);
    if entries.Err? || r.pos != |bytes| {
      return Err;
    }
    return Ok(PersistentState(term.value, vote.value, Log(entries.value, boundary.value.index, boundary.value.term), boundary.value.snapshot));
  }

  /** `FileStorage` over a file whose content is replaced atomically. */
  class FileStorage {
    var file: Option<Bytes>

    constructor ()
      ensures file == None
    {
      file := None;
    }

    method Load() returns (s: Result<PersistentState>)
      ensures s == if file.None? then Ok(FRESH) else DecodeState(file.value)
    {
      if file.None? {
        return Ok(FRESH);
      }
      s := Decode(file.value);
    }

    method Save(s: PersistentState)
      modifies this
      ensures file == Some(EncodeState(s))
    {
      var image := Encode(s);
      file := Some(image);
    }
  }
}
