/**
  The known gap of a restarted application: its store survives on disk, its key
  directory and dedup table do not, and the snapshot and the committed tail are applied
  on top of whatever the store holds.  This module shows that the store can differ from
  the replay of the log, and exactly when it does, whatever the surviving store is: it
  may lie past the snapshot, or behind one that was saved before it was applied.
*/
module RestartGap {
  import opened Types
  import opened App
  import opened SnapshotCodec
  import opened ExactlyOnce

  /** A restarted application: the old store, an empty directory and an empty table. */
  function Reopened(a: AppData): AppData {
    AppData(a.store, {}, map[])
  }

  /** A reopened application after installing a snapshot of `image`. */
  function Reset(store: map<Bytes, Bytes>, image: AppData): AppData {
    AppData(store + image.store, image.keys, image.dedup)
  }

  /** Installing a snapshot over a reopened store clears nothing: it only overwrites. */
  lemma InstallResets(data: Bytes, image: AppData, a: AppData)
    requires IsSnapshotOf(data, image) && Directory(image)
    ensures InstallSnapshot(Reopened(a), data) == Reset(a.store, image)
  {
    ClearsNothing(a.store);
    SnapshotInstalls(data, image, Reopened(a));
  }

  lemma ClearsNothing(store: map<Bytes, Bytes>)
    ensures store - {} == store
  {
  }

  /** Commands `base` up to `m`, applied to `a`. */
  function ApplyTail(a: AppData, cs: seq<Command>, base: nat, m: nat): AppData
    requires base <= m <= |cs|
    decreases m
  {
    if m == base then a else ApplyCommitted(ApplyTail(a, cs, base, m - 1), cs[m - 1]).0
  }

  /** The state after a restart on a surviving `store`, with a snapshot of the first `base` commands. */
  function Recovered(cs: seq<Command>, base: nat, store: map<Bytes, Bytes>): AppData
    requires base <= |cs|
  {
    ApplyTail(Reset(store, ApplyAll(cs[..base])), cs, base, |cs|)
  }

  // ---- what the tail does to one key ----

  /** Command `j` runs and overwrites or removes `key`. */
  predicate Resets(cs: seq<Command>, j: nat, key: Bytes)
    requires j < |cs|
  {
    New(cs, j) && cs[j].key == key && (cs[j].op == OP_PUT || cs[j].op == OP_DELETE)
  }

  ghost predicate ResetBetween(cs: seq<Command>, base: nat, m: nat, key: Bytes)
    requires base <= m <= |cs|
  {
    exists j :: base <= j < m && Resets(cs, j, key)
  }

  /** Command `j` runs and appends to `key`. */
  predicate Appends(cs: seq<Command>, j: nat, key: Bytes)
    requires j < |cs|
  {
    New(cs, j) && cs[j].key == key && cs[j].op == OP_APPEND
  }

  ghost predicate AppendedBetween(cs: seq<Command>, base: nat, m: nat, key: Bytes)
    requires base <= m <= |cs|
  {
    exists j :: base <= j < m && Appends(cs, j, key)
  }

  /** Both tables skip the same commands. */
  predicate SameNumbers(a: AppData, b: AppData) {
    a.dedup.Keys == b.dedup.Keys && forall c :: c in a.dedup ==> a.dedup[c].seq_ == b.dedup[c].seq_
  }

  /** At `key`, `b` holds what `a` holds behind a stale prefix. */
  predicate Behind(stale: Bytes, a: AppData, b: AppData, key: Bytes) {
    key in b.store && b.store[key] == stale + (if key in a.store then a.store[key] else [])
  }

  predicate SameAt(a: AppData, b: AppData, key: Bytes) {
    (key in a.store <==> key in b.store) && (key in a.store ==> a.store[key] == b.store[key])
  }

  lemma StepNumbers(a: AppData, b: AppData, c: Command)
    requires SameNumbers(a, b)
    ensures SameNumbers(ApplyCommitted(a, c).0, ApplyCommitted(b, c).0)
  {
  }

  predicate Skips(a: AppData, c: Command) {
    Identified(c) && c.clientId in a.dedup && c.seq_ <= a.dedup[c.clientId].seq_
  }

  /** A command changes a lagging key by appending behind the stale prefix, or settles it. */
  lemma StepAtKey(stale: Bytes, a: AppData, b: AppData, c: Command, key: Bytes)
    requires SameNumbers(a, b)
    ensures var a', b' := ApplyCommitted(a, c).0, ApplyCommitted(b, c).0;
            && (SameAt(a, b, key) ==> SameAt(a', b', key))
            && (Behind(stale, a, b, key) ==>
                  if !Skips(a, c) && c.key == key && (c.op == OP_PUT || c.op == OP_DELETE) then SameAt(a', b', key)
                  else Behind(stale, a', b', key))
  {
    if Behind(stale, a, b, key) && c.op == OP_APPEND {
      var v := if key in a.store then a.store[key] else [];
      assert stale + v + c.value == stale + (v + c.value);
    }
  }

  lemma SkipsIffOld(cs: seq<Command>, m: nat)
    requires m < |cs|
    ensures Skips(ApplyAll(cs[..m]), cs[m]) <==> !New(cs, m)
  {
    SkippedIffOld(cs[..m], cs[m]);
    assert cs[..m] + [cs[m]] == cs[..m + 1];
    assert New(cs[..m + 1], m) <==> New(cs, m);
  }

  /** True state `a` and recovered state `b` at `key`, given whether a command has `reset` it since the snapshot. */
  predicate Tracks(store: map<Bytes, Bytes>, image: AppData, reset: bool, a: AppData, b: AppData, key: Bytes) {
    && SameNumbers(a, b)
    && (if key in image.store || key !in store || reset then SameAt(a, b, key) else Behind(store[key], a, b, key))
  }

  lemma TracksStart(store: map<Bytes, Bytes>, image: AppData, key: Bytes)
    ensures Tracks(store, image, false, image, Reset(store, image), key)
  {
    if key in store && key !in image.store {
      assert store[key] + [] == store[key];
    }
  }

  lemma TracksStep(store: map<Bytes, Bytes>, image: AppData, reset: bool, a: AppData, b: AppData, key: Bytes,
      c: Command, reset': bool)
    requires Tracks(store, image, reset, a, b, key)
    requires reset' == (reset || (!Skips(a, c) && c.key == key && (c.op == OP_PUT || c.op == OP_DELETE)))
    ensures Tracks(store, image, reset', ApplyCommitted(a, c).0, ApplyCommitted(b, c).0, key)
  {
    StepNumbers(a, b, c);
    StepAtKey(if key in store then store[key] else [], a, b, c, key);
  }

  lemma {:induction false} TailTracks(cs: seq<Command>, base: nat, store: map<Bytes, Bytes>, m: nat, key: Bytes)
    requires base <= m <= |cs|
    ensures var image := ApplyAll(cs[..base]);
            Tracks(store, image, ResetBetween(cs, base, m, key), ApplyAll(cs[..m]), ApplyTail(Reset(store, image), cs, base, m), key)
    decreases m
  {
    var image := ApplyAll(cs[..base]);
    if m == base {
      TracksStart(store, image, key);
    } else {
      TailTracks(cs, base, store, m - 1, key);
      SkipsIffOld(cs, m - 1);
      ResetsUpTo(cs, base, m, key);
      TracksStep(store, image, ResetBetween(cs, base, m - 1, key), ApplyAll(cs[..m - 1]),
                 ApplyTail(Reset(store, image), cs, base, m - 1), key, cs[m - 1], ResetBetween(cs, base, m, key));
      ApplyAllSnoc(cs, m);
    }
  }

  lemma ResetsUpTo(cs: seq<Command>, base: nat, m: nat, key: Bytes)
    requires base < m <= |cs|
    ensures ResetBetween(cs, base, m, key) <==> ResetBetween(cs, base, m - 1, key) || Resets(cs, m - 1, key)
  {
  }

  lemma ApplyAllSnoc(cs: seq<Command>, m: nat)
    requires 0 < m <= |cs|
    ensures ApplyAll(cs[..m]) == ApplyCommitted(ApplyAll(cs[..m - 1]), cs[m - 1]).0
  {
    assert cs[..m][..m - 1] == cs[..m - 1];
  }

  /** A key absent from the snapshot and never reset is stored exactly once it is appended to. */
  lemma {:induction false} StoredIffAppended(cs: seq<Command>, base: nat, m: nat, key: Bytes)
    requires base <= m <= |cs| && key !in ApplyAll(cs[..base]).store && !ResetBetween(cs, base, m, key)
    ensures key in ApplyAll(cs[..m]).store <==> AppendedBetween(cs, base, m, key)
    decreases m
  {
    if base < m {
      ResetsUpTo(cs, base, m, key);
      StoredIffAppended(cs, base, m - 1, key);
      ApplyAllSnoc(cs, m);
      SkipsIffOld(cs, m - 1);
      StoredAfter(ApplyAll(cs[..m - 1]), cs[m - 1], key);
      AppendsUpTo(cs, base, m, key);
    }
  }

  lemma StoredAfter(a: AppData, c: Command, key: Bytes)
    ensures var runs := !Skips(a, c) && c.key == key;
            key in ApplyCommitted(a, c).0.store <==>
            (runs && (c.op == OP_PUT || c.op == OP_APPEND)) || (key in a.store && !(runs && c.op == OP_DELETE))
  {
  }

  lemma AppendsUpTo(cs: seq<Command>, base: nat, m: nat, key: Bytes)
    requires base < m <= |cs|
    ensures AppendedBetween(cs, base, m, key) <==> AppendedBetween(cs, base, m - 1, key) || Appends(cs, m - 1, key)
  {
  }

  /** The tail overwrites or removes `key`, or it was stored empty and the tail appends to it. */
  ghost predicate Settled(cs: seq<Command>, base: nat, store: map<Bytes, Bytes>, key: Bytes)
    requires base <= |cs| && key in store
  {
    ResetBetween(cs, base, |cs|, key) || (store[key] == [] && AppendedBetween(cs, base, |cs|, key))
  }

  /** Every surviving key the snapshot does not hold is settled by the tail. */
  ghost predicate AllSettled(cs: seq<Command>, base: nat, store: map<Bytes, Bytes>)
    requires base <= |cs|
  {
    forall key :: key in store && key !in ApplyAll(cs[..base]).store ==> Settled(cs, base, store, key)
  }

  lemma KeyRecovered(cs: seq<Command>, base: nat, store: map<Bytes, Bytes>, key: Bytes)
    requires base <= |cs|
    ensures SameAt(ApplyAll(cs), Recovered(cs, base, store), key) <==>
            (key in store && key !in ApplyAll(cs[..base]).store ==> Settled(cs, base, store, key))
  {
    TailTracks(cs, base, store, |cs|, key);
    assert cs[..|cs|] == cs;
    if key in store && key !in ApplyAll(cs[..base]).store && !ResetBetween(cs, base, |cs|, key) {
      StoredIffAppended(cs, base, |cs|, key);
      BehindDiffers(store[key], ApplyAll(cs), Recovered(cs, base, store), key);
    }
  }

  lemma BehindDiffers(stale: Bytes, a: AppData, b: AppData, key: Bytes)
    requires Behind(stale, a, b, key)
    ensures SameAt(a, b, key) <==> key in a.store && stale == []
  {
    if key in a.store {
      assert |b.store[key]| == |stale| + |a.store[key]|;
      assert stale == [] ==> stale + a.store[key] == a.store[key];
    }
  }

  /** A restart recovers the store if and only if every surviving key outside the snapshot is settled by the tail. */
  lemma RecoversIff(cs: seq<Command>, base: nat, store: map<Bytes, Bytes>)
    requires base <= |cs|
    ensures Recovered(cs, base, store).store == ApplyAll(cs).store <==> AllSettled(cs, base, store)
  {
    forall key
      ensures SameAt(ApplyAll(cs), Recovered(cs, base, store), key) <==>
              (key in store && key !in ApplyAll(cs[..base]).store ==> Settled(cs, base, store, key))
    {
      KeyRecovered(cs, base, store, key);
    }
    StoresEqual(ApplyAll(cs), Recovered(cs, base, store));
  }

  lemma StoresEqual(a: AppData, b: AppData)
    ensures b.store == a.store <==> forall key :: SameAt(a, b, key)
  {
    if forall key :: SameAt(a, b, key) {
      forall key
        ensures key in a.store <==> key in b.store
        ensures key in a.store ==> a.store[key] == b.store[key]
      {
        assert SameAt(a, b, key);
      }
      assert b.store == a.store;
    }
  }

  /** One append, applied before the crash and again after it. */
  lemma DoubleAppend()
    ensures var cs := [Command(OP_APPEND, [107], [1], 0, 0, 0)];
            && ApplyAll(cs).store == map[[107] := [1]]
            && Recovered(cs, 0, ApplyAll(cs[..1]).store).store == map[[107] := [1, 1]]
  {
    var c := Command(OP_APPEND, [107], [1], 0, 0, 0);
    var cs := [c];
    assert cs[..0] == [] && cs[..1] == cs;
    assert ApplyAll([]) == EMPTY_APP && ApplyAll(cs) == ApplyCommitted(EMPTY_APP, c).0;
    var none: Bytes := [];
    assert none + c.value == [1];
    assert ApplyAll(cs).store == map[[107] := [1]];
    var start := Reset(ApplyAll(cs).store, EMPTY_APP);
    assert ApplyTail(start, cs, 0, 1) == ApplyCommitted(ApplyTail(start, cs, 0, 0), c).0;
    assert start.store == map[[107] := [1]];
    assert [1 as byte] + [1] == [1, 1];
  }

  /** A removal covered by a snapshot that was saved but not yet applied: the removed key comes back. */
  lemma RemovedKeyReturns()
    ensures var cs := [Command(OP_PUT, [107], [1], 0, 0, 0), Command(OP_DELETE, [107], [], 0, 0, 0)];
            && ApplyAll(cs).store == map[]
            && Recovered(cs, 2, ApplyAll(cs[..1]).store).store == map[[107] := [1]]
  {
    var put, remove := Command(OP_PUT, [107], [1], 0, 0, 0), Command(OP_DELETE, [107], [], 0, 0, 0);
    var cs := [put, remove];
    assert cs[..0] == [] && cs[..1] == [put] && cs[..2] == cs;
    ApplyAllSnoc(cs, 1);
    ApplyAllSnoc(cs, 2);
    assert ApplyAll(cs[..1]).store == map[[107] := [1]];
    assert ApplyAll(cs).store == map[];
  }
}
