/** Little-endian integers, length-prefixed byte strings and the forward cursor both decoders use. */
module Codec {
  import opened Types

  /** One more than the largest 64-bit word. */
  const WORD: nat := 0x1_0000_0000_0000_0000

  // ---- writing ----

  /** The `k` low bytes of `x`, least significant first. */
  function LeBytes(x: nat, k: nat): (r: Bytes)
    ensures |r| == k
  {
    if k == 0 then [] else [(x % 256) as byte] + LeBytes(x / 256, k - 1)
  }

  function PutU64(x: nat): Bytes { LeBytes(x, 8) }

  function PutBytes(b: Bytes): Bytes { PutU64(|b|) + b }

  // ---- reading ----

  /** The little-endian number at positions `lo` up to `hi`. */
  function LeValue(buf: Bytes, lo: nat, hi: nat): nat
    requires lo <= hi <= |buf|
    decreases |buf| - lo
  {
    if lo == hi then 0 else buf[lo] as nat + 256 * LeValue(buf, lo + 1, hi)
  }

  /** The next `n` bytes and the position after them. */
  function TakeAt(buf: Bytes, pos: nat, n: nat): Result<(Bytes, nat)> {
    if pos + n <= |buf| then Ok((buf[pos..pos + n], pos + n)) else Err
  }

  function GetU8(buf: Bytes, pos: nat): Result<(byte, nat)> {
    match TakeAt(buf, pos, 1)
    case Err => Err
    case Ok((b, p)) => Ok((b[0], p))
  }

  function GetU64(buf: Bytes, pos: nat): Result<(nat, nat)> {
    if pos + 8 <= |buf| then Ok((LeValue(buf, pos, pos + 8), pos + 8)) else Err
  }

  function GetBytes(buf: Bytes, pos: nat): Result<(Bytes, nat)> {
    match GetU64(buf, pos)
    case Err => Err
    case Ok((n, p)) => TakeAt(buf, p, n)
  }

  // ---- reading back what was written ----

  function Pow256(k: nat): nat { if k == 0 then 1 else 256 * Pow256(k - 1) }

  lemma {:induction false} LeRoundTrip(buf: Bytes, pos: nat, x: nat, k: nat)
    requires x < Pow256(k) && Holds(buf, pos, LeBytes(x, k))
    ensures LeValue(buf, pos, pos + k) == x
    decreases k
  {
    if k > 0 {
      HoldsSplit(buf, pos, [(x % 256) as byte], LeBytes(x / 256, k - 1));
      assert buf[pos] == buf[pos..pos + 1][0];
      LeRoundTrip(buf, pos + 1, x / 256, k - 1);
    }
  }

  lemma Pow256Word()
    ensures Pow256(8) == WORD
  {
    assert Pow256(4) == 0x1_0000_0000;
    assert Pow256(6) == 256 * (256 * Pow256(4));
    assert Pow256(8) == 256 * (256 * Pow256(6));
  }

  /** `buf` carries `part` at `pos`. */
  ghost predicate Holds(buf: Bytes, pos: nat, part: Bytes) {
    pos + |part| <= |buf| && buf[pos..pos + |part|] == part
  }

  lemma HoldsAll(buf: Bytes)
    ensures Holds(buf, 0, buf)
  {
    assert buf[0..|buf|] == buf;
  }

  lemma HoldsSplit(buf: Bytes, pos: nat, a: Bytes, b: Bytes)
    requires Holds(buf, pos, a + b)
    ensures Holds(buf, pos, a) && Holds(buf, pos + |a|, b)
  {
    assert buf[pos..pos + |a|] == (a + b)[..|a|];
    assert buf[pos + |a|..pos + |a + b|] == (a + b)[|a|..];
  }

  lemma ReadU64(buf: Bytes, pos: nat, x: nat)
    requires x < WORD && Holds(buf, pos, PutU64(x))
    ensures GetU64(buf, pos) == Ok((x, pos + 8))
  {
    Pow256Word();
    LeRoundTrip(buf, pos, x, 8);
  }

  lemma ReadBytes(buf: Bytes, pos: nat, b: Bytes)
    requires |b| < WORD && Holds(buf, pos, PutBytes(b))
    ensures GetBytes(buf, pos) == Ok((b, pos + |PutBytes(b)|))
  {
    HoldsSplit(buf, pos, PutU64(|b|), b);
    ReadU64(buf, pos, |b|);
  }

  lemma BytesReadBack(buf: Bytes, b: Bytes)
    requires |b| < WORD
    ensures ReadsBack(GetBytes, PutBytes, buf, b)
  {
    forall pos: nat | Holds(buf, pos, PutBytes(b))
      ensures GetBytes(buf, pos) == Ok((b, pos + |PutBytes(b)|))
    {
      ReadBytes(buf, pos, b);
    }
  }

  // ---- counted lists, whatever their elements ----

  type Parser<!T> = (Bytes, nat) -> Result<(T, nat)>

  function Concat<T>(put: T -> Bytes, items: seq<T>): Bytes {
    if items == [] then [] else put(items[0]) + Concat(put, items[1..])
  }

  lemma {:induction false} ConcatSnoc<T>(put: T -> Bytes, items: seq<T>, x: T)
    ensures Concat(put, items + [x]) == Concat(put, items) + put(x)
  {
    if items == [] {
      assert items + [x] == [x] && [x][1..] == [];
      assert Concat(put, [x]) == put(x) + [];
    } else {
      assert (items + [x])[1..] == items[1..] + [x];
      ConcatSnoc(put, items[1..], x);
    }
  }

  /** `count` elements one after the other. */
  function Repeat<T>(get: Parser<T>, buf: Bytes, pos: nat, count: nat): Result<(seq<T>, nat)>
    decreases count
  {
    if count == 0 then Ok(([], pos))
    else
      match get(buf, pos)
      case Err => Err
      case Ok((x, p)) => Prepend([x], Repeat(get, buf, p, count - 1))
  }

  function Prepend<T>(xs: seq<T>, rest: Result<(seq<T>, nat)>): Result<(seq<T>, nat)> {
    match rest
    case Err => Err
    case Ok((ys, p)) => Ok((xs + ys, p))
  }

  lemma PrependTwice<T>(xs: seq<T>, x: T, rest: Result<(seq<T>, nat)>)
    ensures Prepend(xs, Prepend([x], rest)) == Prepend(xs + [x], rest)
  {
    if rest.Ok? {
      assert xs + ([x] + rest.value.0) == xs + [x] + rest.value.0;
    }
  }

  /** One more element read, or none: what it means for the whole list. */
  lemma RepeatStep<T>(get: Parser<T>, buf: Bytes, pos: nat, count: nat, xs: seq<T>)
    requires 0 < count
    ensures Prepend(xs, Repeat(get, buf, pos, count)) ==
            match get(buf, pos)
            case Err => Err
            case Ok((x, p)) => Prepend(xs + [x], Repeat(get, buf, p, count - 1))
  {
    if get(buf, pos).Ok? {
      PrependTwice(xs, get(buf, pos).value.0, Repeat(get, buf, get(buf, pos).value.1, count - 1));
    }
  }

  lemma PrependNothing<T>(rest: Result<(seq<T>, nat)>)
    ensures Prepend([], rest) == rest
  {
    if rest.Ok? {
      assert [] + rest.value.0 == rest.value.0;
    }
  }

  function PutList<T>(put: T -> Bytes, items: seq<T>): Bytes {
    PutU64(|items|) + Concat(put, items)
  }

  /** A count and then that many elements. */
  function GetList<T>(get: Parser<T>, buf: Bytes, pos: nat): Result<(seq<T>, nat)> {
    match GetU64(buf, pos)
    case Err => Err
    case Ok((n, p)) => Repeat(get, buf, p, n)
  }

  /** `get` reads `x` wherever `part` stands in `buf`. */
  ghost predicate ReadsAt<T(!new)>(get: Parser<T>, buf: Bytes, part: Bytes, x: T) {
    forall pos: nat {:trigger Holds(buf, pos, part)} :: Holds(buf, pos, part) ==> get(buf, pos) == Ok((x, pos + |part|))
  }

  /** `get` reads back what `put` wrote of `x`. */
  ghost predicate ReadsBack<T(!new)>(get: Parser<T>, put: T -> Bytes, buf: Bytes, x: T) {
    ReadsAt(get, buf, put(x), x)
  }

  lemma {:induction false} RepeatReadsBack<T(!new)>(get: Parser<T>, put: T -> Bytes, buf: Bytes, pos: nat,
      items: seq<T>)
    requires forall i :: 0 <= i < |items| ==> ReadsBack(get, put, buf, items[i])
    requires Holds(buf, pos, Concat(put, items))
    ensures Repeat(get, buf, pos, |items|) == Ok((items, pos + |Concat(put, items)|))
    decreases |items|
  {
    if items != [] {
      var first, rest := put(items[0]), Concat(put, items[1..]);
      HoldsSplit(buf, pos, first, rest);
      assert ReadsBack(get, put, buf, items[0]);
      RepeatReadsBack(get, put, buf, pos + |first|, items[1..]);
      assert [items[0]] + items[1..] == items;
    }
  }

  lemma ListBodyReadsBack<T(!new)>(get: Parser<T>, put: T -> Bytes, buf: Bytes, pos: nat, items: seq<T>, n: nat,
      body: Bytes)
    requires GetU64(buf, pos) == Ok((n, pos + 8)) && n == |items| && body == Concat(put, items)
    requires forall i :: 0 <= i < |items| ==> ReadsBack(get, put, buf, items[i])
    requires Holds(buf, pos + 8, body)
    ensures GetList(get, buf, pos) == Ok((items, pos + 8 + |body|))
  {
    RepeatReadsBack(get, put, buf, pos + 8, items);
  }

  lemma ListReadsBack<T(!new)>(get: Parser<T>, put: T -> Bytes, buf: Bytes, pos: nat, items: seq<T>)
    requires |items| < WORD
    requires forall i :: 0 <= i < |items| ==> ReadsBack(get, put, buf, items[i])
    requires Holds(buf, pos, PutList(put, items))
    ensures GetList(get, buf, pos) == Ok((items, pos + |PutList(put, items)|))
  {
    var body := Concat(put, items);
    HoldsSplit(buf, pos, PutU64(|items|), body);
    ReadU64(buf, pos, |items|);
    ListBodyReadsBack(get, put, buf, pos, items, |items|, body);
  }

  lemma ListReads<T(!new)>(get: Parser<T>, put: T -> Bytes, buf: Bytes, items: seq<T>, part: Bytes)
    requires |items| < WORD && part == PutList(put, items)
    requires forall i :: 0 <= i < |items| ==> ReadsBack(get, put, buf, items[i])
    ensures forall pos: nat {:trigger Holds(buf, pos, part)} :: Holds(buf, pos, part) ==> GetList(get, buf, pos) == Ok((items, pos + |part|))
  {
    forall pos: nat | Holds(buf, pos, part)
      ensures GetList(get, buf, pos) == Ok((items, pos + |part|))
    {
      ListReadsBack(get, put, buf, pos, items);
    }
  }

  /** One value and then another. */
  function GetBoth<A, B>(first: Parser<A>, second: Parser<B>, buf: Bytes, pos: nat): Result<((A, B), nat)> {
    match first(buf, pos)
    case Err => Err
    case Ok((x, p)) =>
      match second(buf, p)
      case Err => Err
      case Ok((y, q)) => Ok(((x, y), q))
  }

  /** Two parts side by side are read as a pair. */
  lemma BothRead<A(!new), B(!new)>(get1: Parser<A>, part1: Bytes, x: A, get2: Parser<B>, part2: Bytes, y: B,
      get: Parser<(A, B)>, buf: Bytes)
    requires ReadsAt(get1, buf, part1, x) && ReadsAt(get2, buf, part2, y)
    requires forall pos: nat :: get(buf, pos) == GetBoth(get1, get2, buf, pos)
    ensures ReadsAt(get, buf, part1 + part2, (x, y))
  {
    forall pos: nat | Holds(buf, pos, part1 + part2)
      ensures get(buf, pos) == Ok(((x, y), pos + |part1 + part2|))
    {
      HoldsSplit(buf, pos, part1, part2);
    }
  }

  // ---- more input never changes what was already read ----

  /** A successful read stays within its input and is the same with more input. */
  ghost predicate Stable<T(!new)>(get: Parser<T>, buf: Bytes, more: Bytes) {
    forall pos: nat :: get(buf, pos).Ok? ==>
      get(buf + more, pos) == get(buf, pos) && pos <= get(buf, pos).value.1 <= |buf|
  }

  lemma TakeStable(buf: Bytes, more: Bytes, pos: nat, n: nat)
    requires TakeAt(buf, pos, n).Ok?
    ensures TakeAt(buf + more, pos, n) == TakeAt(buf, pos, n)
    ensures pos <= TakeAt(buf, pos, n).value.1 <= |buf|
  {
    assert (buf + more)[pos..pos + n] == buf[pos..pos + n];
  }

  lemma U64Stable(buf: Bytes, more: Bytes, pos: nat)
    requires GetU64(buf, pos).Ok?
    ensures GetU64(buf + more, pos) == GetU64(buf, pos)
    ensures pos <= GetU64(buf, pos).value.1 <= |buf|
  {
    LeStable(buf, more, pos, pos + 8);
  }

  lemma {:induction false} LeStable(buf: Bytes, more: Bytes, lo: nat, hi: nat)
    requires lo <= hi <= |buf|
    ensures LeValue(buf + more, lo, hi) == LeValue(buf, lo, hi)
    decreases |buf| - lo
  {
    if lo < hi {
      LeStable(buf, more, lo + 1, hi);
    }
  }

  /** The value of a slice is the value of its range. */
  lemma {:induction false} LeSlice(buf: Bytes, start: nat, lo: nat, hi: nat)
    requires start <= lo <= hi <= |buf|
    ensures LeValue(buf[start..hi], lo - start, hi - start) == LeValue(buf, lo, hi)
    decreases |buf| - lo
  {
    if lo < hi {
      LeSlice(buf, start, lo + 1, hi);
    }
  }

  lemma BytesStable(buf: Bytes, more: Bytes, pos: nat)
    requires GetBytes(buf, pos).Ok?
    ensures GetBytes(buf + more, pos) == GetBytes(buf, pos)
    ensures pos <= GetBytes(buf, pos).value.1 <= |buf|
  {
    U64Stable(buf, more, pos);
    var n := GetU64(buf, pos).value.0;
    TakeStable(buf, more, pos + 8, n);
  }

  lemma {:induction false} RepeatStable<T(!new)>(get: Parser<T>, buf: Bytes, more: Bytes, pos: nat, count: nat)
    requires Stable(get, buf, more) && pos <= |buf| && Repeat(get, buf, pos, count).Ok?
    ensures Repeat(get, buf + more, pos, count) == Repeat(get, buf, pos, count)
    ensures pos <= Repeat(get, buf, pos, count).value.1 <= |buf|
    decreases count
  {
    if count > 0 {
      assert get(buf, pos).Ok?;
      RepeatStable(get, buf, more, get(buf, pos).value.1, count - 1);
    }
  }

  lemma ListStable<T(!new)>(get: Parser<T>, buf: Bytes, more: Bytes, pos: nat)
    requires Stable(get, buf, more) && GetList(get, buf, pos).Ok?
    ensures GetList(get, buf + more, pos) == GetList(get, buf, pos)
    ensures pos <= GetList(get, buf, pos).value.1 <= |buf|
  {
    U64Stable(buf, more, pos);
    var (n, p) := GetU64(buf, pos).value;
    RepeatStable(get, buf, more, p, n);
  }

  /** The bounds-checked cursor: a read moves `pos`, a failed one leaves it. */
  class Reader {
    const buf: Bytes
    var pos: nat

    constructor (buf: Bytes)
      ensures this.buf == buf && pos == 0
    {
      this.buf := buf;
      pos := 0;
    }

    method Take(n: nat) returns (r: Result<Bytes>)
      modifies this
      ensures match TakeAt(buf, old(pos), n)
              case Err => r == Err && pos == old(pos)
              case Ok((b, p)) => r == Ok(b) && pos == p
    {
      if pos + n <= |buf| {
        r := Ok(buf[pos..pos + n]);
        pos := pos + n;
      } else {
        r := Err;
      }
    }

    method U8() returns (r: Result<byte>)
      modifies this
      ensures match GetU8(buf, old(pos))
              case Err => r == Err && pos == old(pos)
              case Ok((b, p)) => r == Ok(b) && pos == p
    {
      var t := Take(1);
      r := if t.Ok? then Ok(t.value[0]) else Err;
    }

    method U64() returns (r: Result<nat>)
      modifies this
      ensures match GetU64(buf, old(pos))
              case Err => r == Err && pos == old(pos)
              case Ok((x, p)) => r == Ok(x) && pos == p
    {
      var t := Take(8);
      if t.Err? {
        return Err;
      }
      LeSlice(buf, old(pos), old(pos), pos);
      r := Ok(LeValue(t.value, 0, 8));
    }

    /** A length and then that many bytes; a truncated body leaves the cursor after the length. */
    method Bytes() returns (r: Result<Bytes>)
      modifies this
      ensures match GetBytes(buf, old(pos))
              case Err => r == Err
              case Ok((b, p)) => r == Ok(b) && pos == p
    {
      var n := U64();
      if n.Err? {
        return Err;
      }
      r := Take(n.value);
    }
  }
}
