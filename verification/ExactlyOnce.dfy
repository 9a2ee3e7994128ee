/**
  Exactly-once as a refinement: the state machine with its dedup table against a plain
  one that runs only the commands that are new.
*/
module ExactlyOnce {
  import opened Types
  import opened App

  /** The state after applying the commands in order, with deduplication. */
  function ApplyAll(cs: seq<Command>): AppData {
    if cs == [] then EMPTY_APP
    else ApplyCommitted(ApplyAll(cs[..|cs| - 1]), cs[|cs| - 1]).0
  }

  /** The outcome the waiter of command `k` receives. */
  function OutcomeAt(cs: seq<Command>, k: nat): Outcome
    requires k < |cs|
  {
    ApplyCommitted(ApplyAll(cs[..k]), cs[k]).1
  }

  /** The state after running every command, without deduplication. */
  function RunAll(cs: seq<Command>): AppData {
    if cs == [] then EMPTY_APP
    else Run(RunAll(cs[..|cs| - 1]), cs[|cs| - 1]).0
  }

  predicate SameClient(a: Command, b: Command) {
    Identified(a) && Identified(b) && a.clientId == b.clientId
  }

  /** Command `k` is unidentified, or its number exceeds every earlier one of its client. */
  predicate New(cs: seq<Command>, k: nat)
    requires k < |cs|
  {
    forall j :: 0 <= j < k && SameClient(cs[j], cs[k]) ==> cs[j].seq_ < cs[k].seq_
  }

  /** The new commands, in order. */
  function OnlyNew(cs: seq<Command>): seq<Command> {
    if cs == [] then []
    else
      var front := cs[..|cs| - 1];
      if New(cs, |cs| - 1) then OnlyNew(front) + [cs[|cs| - 1]] else OnlyNew(front)
  }

  // ---- the dedup table ----

  /** Command `j` is the one that set its client's highest number among the commands. */
  predicate Latest(cs: seq<Command>, client: nat, j: nat) {
    && j < |cs| && Identified(cs[j]) && cs[j].clientId == client && New(cs, j)
    && forall m :: 0 <= m < |cs| && SameClient(cs[m], cs[j]) ==> cs[m].seq_ <= cs[j].seq_
  }

  ghost predicate Names(cs: seq<Command>, client: nat) {
    exists m :: 0 <= m < |cs| && Identified(cs[m]) && cs[m].clientId == client
  }

  lemma LatestKeeps(cs: seq<Command>, c: Command, client: nat, j: nat)
    requires Latest(cs, client, j) && !(SameClient(c, cs[j]) && cs[j].seq_ < c.seq_)
    ensures Latest(cs + [c], client, j) && OutcomeAt(cs + [c], j) == OutcomeAt(cs, j)
  {
    assert (cs + [c])[..j] == cs[..j];
  }

  /** The table holds, for exactly the clients seen, their highest number and its original outcome. */
  lemma {:induction false} DedupIsLatest(cs: seq<Command>, client: nat) returns (j: nat)
    ensures client in ApplyAll(cs).dedup <==> Names(cs, client)
    ensures client in ApplyAll(cs).dedup ==>
              Latest(cs, client, j) && ApplyAll(cs).dedup[client] == LastApplied(cs[j].seq_, OutcomeAt(cs, j))
    decreases |cs|
  {
    if cs == [] {
      j := 0;
    } else {
      var front, c := cs[..|cs| - 1], cs[|cs| - 1];
      assert cs == front + [c];
      j := DedupIsLatest(front, client);
      if Identified(c) && c.clientId == client && (client !in ApplyAll(front).dedup || ApplyAll(front).dedup[client].seq_ < c.seq_) {
        j := |front|;
        assert cs[..j] == front;
        assert cs[j] == c;
      } else {
        assert forall m :: 0 <= m < |front| ==> cs[m] == front[m];
        if client in ApplyAll(front).dedup {
          LatestKeeps(front, c, client, j);
        }
      }
    }
  }

  /** A command is skipped exactly when it is not new. */
  lemma SkippedIffOld(cs: seq<Command>, c: Command)
    ensures var a := ApplyAll(cs);
            (Identified(c) && c.clientId in a.dedup && c.seq_ <= a.dedup[c.clientId].seq_) <==> !New(cs + [c], |cs|)
  {
    var j := DedupIsLatest(cs, c.clientId);
    var all := cs + [c];
    assert forall m :: 0 <= m < |cs| ==> all[m] == cs[m];
    if Identified(c) && c.clientId in ApplyAll(cs).dedup {
      assert all[j] == cs[j];
      assert New(all, |cs|) ==> cs[j].seq_ < c.seq_;
    }
  }

  // ---- the refinement ----

  predicate SameStore(a: AppData, b: AppData) {
    a.store == b.store && a.keys == b.keys
  }

  lemma RunSame(a: AppData, b: AppData, c: Command)
    requires SameStore(a, b)
    ensures SameStore(Run(a, c).0, Run(b, c).0) && Run(a, c).1 == Run(b, c).1
  {
  }

  /** Deduplicated application is plain execution of the new commands alone. */
  lemma {:induction false} ApplyRefinesRun(cs: seq<Command>)
    ensures SameStore(ApplyAll(cs), RunAll(OnlyNew(cs)))
    decreases |cs|
  {
    if cs != [] {
      var front, c := cs[..|cs| - 1], cs[|cs| - 1];
      assert cs == front + [c];
      ApplyRefinesRun(front);
      SkippedIffOld(front, c);
      if New(cs, |front|) {
        var kept := OnlyNew(front) + [c];
        assert kept[..|kept| - 1] == OnlyNew(front);
        RunSame(ApplyAll(front), RunAll(OnlyNew(front)), c);
      }
    }
  }

  /** The index in `cs` of the `k`-th new command. */
  lemma {:induction false} NewAt(cs: seq<Command>, k: nat) returns (m: nat)
    requires k < |OnlyNew(cs)|
    ensures m < |cs| && New(cs, m) && OnlyNew(cs)[k] == cs[m] && |OnlyNew(cs[..m])| == k
    decreases |cs|
  {
    var front := cs[..|cs| - 1];
    if k < |OnlyNew(front)| {
      m := NewAt(front, k);
      assert cs[..m] == front[..m];
      assert forall j :: 0 <= j <= m ==> cs[j] == front[j];
    } else {
      m := |cs| - 1;
    }
  }

  lemma {:induction false} NewOrder(cs: seq<Command>, a: nat, b: nat)
    requires a <= b <= |cs|
    ensures |OnlyNew(cs[..a])| <= |OnlyNew(cs[..b])|
    decreases b
  {
    if a < b {
      NewOrder(cs, a, b - 1);
      assert cs[..b][..b - 1] == cs[..b - 1];
    }
  }

  /** A client's numbers strictly rise among the commands that run, so each runs at most once. */
  lemma RunAtMostOnce(cs: seq<Command>, j: nat, k: nat)
    requires j < k < |OnlyNew(cs)| && SameClient(OnlyNew(cs)[j], OnlyNew(cs)[k])
    ensures OnlyNew(cs)[j].seq_ < OnlyNew(cs)[k].seq_
  {
    var a := NewAt(cs, j);
    var b := NewAt(cs, k);
    if b <= a {
      NewOrder(cs, b, a);
      assert false;
    }
  }

  /** A retry of its client's latest command returns the original outcome and changes nothing. */
  lemma RetryReturnsOriginal(cs: seq<Command>, j: nat, k: nat)
    requires j < k < |cs| && SameClient(cs[j], cs[k]) && cs[j].seq_ == cs[k].seq_ && Latest(cs[..k], cs[j].clientId, j)
    ensures OutcomeAt(cs, k) == OutcomeAt(cs, j)
    ensures ApplyAll(cs[..k + 1]) == ApplyAll(cs[..k])
  {
    var front := cs[..k];
    var i := DedupIsLatest(front, cs[k].clientId);
    assert front[j] == cs[j];
    assert SameClient(front[i], front[j]) && front[i].seq_ == front[j].seq_;
    assert i == j;
    assert front[..j] == cs[..j];
    assert cs[..k + 1][..k] == front && cs[..k + 1][k] == cs[k];
  }

  // ---- the log ----

  /** The commands of a log; entries that do not decode are skipped. */
  function Decoded(decode: Bytes -> Option<Command>, log: seq<LogEntry>): seq<Command> {
    if log == [] then []
    else
      Decoded(decode, log[..|log| - 1])
      + (match decode(log[|log| - 1].command) case None => [] case Some(c) => [c])
  }

  /** Replaying a log is applying its commands. */
  lemma {:induction false} ReplayApplies(decode: Bytes -> Option<Command>, log: seq<LogEntry>)
    ensures Replay(decode, log) == ApplyAll(Decoded(decode, log))
  {
    if log != [] {
      var init, d := log[..|log| - 1], decode(log[|log| - 1].command);
      ReplayApplies(decode, init);
      if d.Some? {
        var cs := Decoded(decode, init) + [d.value];
        assert cs[..|cs| - 1] == Decoded(decode, init);
      } else {
        assert Decoded(decode, log) == Decoded(decode, init);
      }
    }
  }
}
