/** What nodes do to the history, each step with the proof that it keeps the invariant. */
module HistorySteps {
  import opened Types
  import opened Quorums
  import opened History

  // ---- adopting a newer term ----

  function Bump(h: Hist, i: NodeId, t: Term): Hist
    requires i in h.nodes
  {
    h.(nodes := h.nodes[i := h.nodes[i].(cur := Max(h.nodes[i].cur, t))])
  }

  lemma BumpOk(s: set<NodeId>, h: Hist, i: NodeId, t: Term)
    requires Valid(s, h) && i in h.nodes
    ensures Valid(s, Bump(h, i, t)) && Evolves(h, Bump(h, i, t), i)
  {
    var h' := Bump(h, i, t);
    BumpEvolves(h, i, t);
    QuietOk(s, h, h', i);
  }

  lemma BumpEvolves(h: Hist, i: NodeId, t: Term)
    requires i in h.nodes
    ensures Evolves(h, Bump(h, i, t), i)
  {
  }

  /** Steps that leave all logs and acknowledgements alone keep the invariant. */
  lemma QuietOk(s: set<NodeId>, h: Hist, h': Hist, i: NodeId)
    requires Valid(s, h) && Evolves(h, h', i)
    requires h'.reigns == h.reigns && h'.acks == h.acks
    requires forall j :: j in h.nodes ==> h'.nodes[j].full == h.nodes[j].full
    requires forall k :: k in h'.voted && k !in h.voted ==> VotedOk(h', k)
    requires forall k :: k in h'.stood && k !in h.stood ==> StoodOk(h', k)
    ensures Valid(s, h')
  {
    QuietMembers(s, h, h', i);
    ReignsStable(s, h, h');
    RecordsStable(h, h');
    QuietPins(s, h, h', i);
  }

  lemma QuietMembers(s: set<NodeId>, h: Hist, h': Hist, i: NodeId)
    requires MembersOk(s, h) && Evolves(h, h', i)
    requires forall j :: j in h.nodes ==> h'.nodes[j].full == h.nodes[j].full
    ensures MembersOk(s, h')
  {
    if i in h.nodes {
      LogOkStable(h, h', h.nodes[i].full, h.nodes[i].cur, h'.nodes[i].cur);
    }
    MembersStable(s, h, h', i);
  }

  lemma QuietPins(s: set<NodeId>, h: Hist, h': Hist, i: NodeId)
    requires AcksKept(s, h) && LeadersComplete(s, h) && Evolves(h, h', i)
    requires h'.reigns == h.reigns && h'.acks == h.acks
    requires forall j :: j in h.nodes ==> h'.nodes[j].full == h.nodes[j].full
    ensures AcksKept(s, h') && LeadersComplete(s, h')
  {
    forall t: Term, n: nat | Pinned(s, h', t, n)
      ensures Pinned(s, h, t, n)
    {
      PinnedStable(s, h, h', t, n);
    }
  }

  // ---- moving the snapshot boundary ----

  function Fold(h: Hist, i: NodeId, k: LogIndex): Hist
    requires i in h.nodes
  {
    h.(nodes := h.nodes[i := h.nodes[i].(base := Max(h.nodes[i].base, k))])
  }

  lemma FoldOk(s: set<NodeId>, h: Hist, i: NodeId, k: LogIndex)
    requires Valid(s, h) && i in h.nodes
    ensures Valid(s, Fold(h, i, k)) && Evolves(h, Fold(h, i, k), i)
  {
    FoldEvolves(h, i, k);
    QuietOk(s, h, Fold(h, i, k), i);
  }

  lemma FoldEvolves(h: Hist, i: NodeId, k: LogIndex)
    requires i in h.nodes
    ensures Evolves(h, Fold(h, i, k), i)
  {
  }

  // ---- voting ----

  function Cast(h: Hist, v: NodeId, c: NodeId): Hist
    requires v in h.nodes
  {
    h.(voted := h.voted[(v, h.nodes[v].cur) := c])
  }

  lemma CastOk(s: set<NodeId>, h: Hist, v: NodeId, c: NodeId)
    requires Valid(s, h) && v in h.nodes
    requires (v, h.nodes[v].cur) in h.voted ==> h.voted[(v, h.nodes[v].cur)] == c
    ensures Valid(s, Cast(h, v, c)) && Evolves(h, Cast(h, v, c), v)
  {
    CastEvolves(h, v, c);
    QuietOk(s, h, Cast(h, v, c), v);
  }

  lemma CastEvolves(h: Hist, v: NodeId, c: NodeId)
    requires v in h.nodes
    requires (v, h.nodes[v].cur) in h.voted ==> h.voted[(v, h.nodes[v].cur)] == c
    ensures Evolves(h, Cast(h, v, c), v)
  {
  }

  // ---- standing for election ----

  function Stand(h: Hist, c: NodeId): Hist
    requires c in h.nodes
  {
    var t := h.nodes[c].cur + 1;
    h.(nodes := h.nodes[c := h.nodes[c].(cur := t)],
       voted := h.voted[(c, t) := c],
       stood := h.stood[(c, t) := h.nodes[c].full])
  }

  lemma StandOk(s: set<NodeId>, h: Hist, c: NodeId)
    requires Valid(s, h) && c in h.nodes
    ensures Valid(s, Stand(h, c)) && Evolves(h, Stand(h, c), c)
    ensures VoteSafe(s, Stand(h, c), c, h.nodes[c].cur + 1, h.nodes[c].full)
  {
    var h' := Stand(h, c);
    StandEvolves(h, c);
    LogOkStable(h, h', h.nodes[c].full, h.nodes[c].cur, h.nodes[c].cur);
    assert StoodOk(h', (c, h'.nodes[c].cur));
    QuietOk(s, h, h', c);
  }

  lemma StandEvolves(h: Hist, c: NodeId)
    requires RecordsOk(h) && c in h.nodes
    ensures Evolves(h, Stand(h, c), c)
  {
    var k := (c, h.nodes[c].cur + 1);
    assert k !in h.voted && k !in h.stood;
  }

  // ---- winning an election ----

  function Elect(h: Hist, c: NodeId, q: set<NodeId>): Hist
    requires c in h.nodes
  {
    var t := h.nodes[c].cur;
    h.(reigns := h.reigns[t := Reign(h.nodes[c].full, c, q)],
       acks := h.acks[(c, t) := |h.nodes[c].full|])
  }

  /** `q` elected `c` in its current term. */
  ghost predicate Elects(s: set<NodeId>, h: Hist, c: NodeId, q: set<NodeId>) {
    && c in h.nodes
    && var t := h.nodes[c].cur;
    && t !in h.reigns
    && (c, t) in h.stood && h.stood[(c, t)] == h.nodes[c].full
    && IsQuorum(s, q)
    && forall v :: v in q ==>
         (v, t) in h.voted && h.voted[(v, t)] == c && VoteSafe(s, h, v, t, h.nodes[c].full)
  }

  lemma ElectEvolves(s: set<NodeId>, h: Hist, c: NodeId, q: set<NodeId>)
    requires RecordsOk(h) && Elects(s, h, c, q)
    ensures Evolves(h, Elect(h, c, q), c)
  {
    assert (c, h.nodes[c].cur) !in h.acks;
  }

  lemma ElectReigns(s: set<NodeId>, h: Hist, c: NodeId, q: set<NodeId>)
    requires MembersOk(s, h) && ReignsOk(s, h) && RecordsOk(h) && Elects(s, h, c, q)
    requires Evolves(h, Elect(h, c, q), c)
    ensures ReignsOk(s, Elect(h, c, q))
  {
    var h' := Elect(h, c, q);
    var t2 := h.nodes[c].cur;
    assert StoodOk(h, (c, t2));
    LogOkStable(h, h', h.nodes[c].full, t2, t2);
    forall t | t in h'.reigns
      ensures ReignOk(s, h', t)
    {
      if t != t2 {
        ReignStable(s, h, h', t);
      }
    }
  }

  lemma ElectOk(s: set<NodeId>, h: Hist, c: NodeId, q: set<NodeId>)
    requires Valid(s, h) && Elects(s, h, c, q)
    ensures Valid(s, Elect(h, c, q)) && Evolves(h, Elect(h, c, q), c)
  {
    ElectEvolves(s, h, c, q);
    QuietMembers(s, h, Elect(h, c, q), c);
    ElectReigns(s, h, c, q);
    RecordsStable(h, Elect(h, c, q));
    ElectKeepsPins(s, h, c, q);
  }

  /** The new leader has no entry of its own term, so only earlier entries are pinned. */
  lemma ElectPins(s: set<NodeId>, h: Hist, c: NodeId, q: set<NodeId>, t: Term, n: nat)
    requires Valid(s, h) && Elects(s, h, c, q)
    requires Pinned(s, Elect(h, c, q), t, n)
    ensures Pinned(s, h, t, n) && t != h.nodes[c].cur
    ensures Elect(h, c, q).reigns[t] == h.reigns[t]
  {
    ElectEvolves(s, h, c, q);
    assert StoodOk(h, (c, h.nodes[c].cur));
    PinnedStable(s, h, Elect(h, c, q), t, n);
  }

  lemma ElectKeepsPins(s: set<NodeId>, h: Hist, c: NodeId, q: set<NodeId>)
    requires Valid(s, h) && Elects(s, h, c, q)
    ensures AcksKept(s, Elect(h, c, q)) && LeadersComplete(s, Elect(h, c, q))
  {
    var h' := Elect(h, c, q);
    forall v: NodeId, t: Term, n: nat | v in h'.nodes && Pinned(s, h', t, n) && n <= Ack(h', v, t)
      ensures Agree(h'.reigns[t].log, h'.nodes[v].full, n)
    {
      ElectPins(s, h, c, q, t, n);
    }
    forall t: Term, n: nat, t2: Term | Pinned(s, h', t, n) && t < t2 && t2 in h'.reigns
      ensures Agree(h'.reigns[t].log, h'.reigns[t2].log, n)
    {
      ElectPins(s, h, c, q, t, n);
      if t2 == h.nodes[c].cur {
        ElectedComplete(s, h, c, q, t, n);
      }
    }
  }

  /** Quorum intersection: some elector acknowledged the entry, so the winner's log holds it. */
  lemma ElectedComplete(s: set<NodeId>, h: Hist, c: NodeId, q: set<NodeId>, t: Term, n: nat)
    requires Valid(s, h) && Elects(s, h, c, q)
    requires Pinned(s, h, t, n) && t < h.nodes[c].cur
    ensures Agree(h.reigns[t].log, h.nodes[c].full, n)
  {
    var p :| IsQuorum(s, p) && ChoosableBy(h, t, n, p);
    var v := QuorumsMeet(s, p, q);
  }

  // ---- a leader appending an entry ----

  function Extend(h: Hist, l: NodeId, e: LogEntry): Hist
    requires l in h.nodes && h.nodes[l].cur in h.reigns
  {
    var t := h.nodes[l].cur;
    var log := h.reigns[t].log + [e];
    h.(nodes := h.nodes[l := h.nodes[l].(full := log)],
       reigns := h.reigns[t := h.reigns[t].(log := log)],
       acks := h.acks[(l, t) := |log|])
  }

  ghost predicate Leads(h: Hist, l: NodeId) {
    && l in h.nodes
    && h.nodes[l].cur in h.reigns
    && h.reigns[h.nodes[l].cur].leader == l
    && h.reigns[h.nodes[l].cur].log == h.nodes[l].full
  }

  lemma ExtendEvolves(h: Hist, l: NodeId, e: LogEntry)
    requires RecordsOk(h) && Leads(h, l)
    ensures Evolves(h, Extend(h, l, e), l)
  {
    var k := (l, h.nodes[l].cur);
    assert k in h.acks ==> AckOk(h, k);
    ExtendOnlyBy(h, l, e);
  }

  lemma ExtendOnlyBy(h: Hist, l: NodeId, e: LogEntry)
    requires Leads(h, l)
    ensures OnlyBy(h, Extend(h, l, e), l)
  {
  }

  lemma ExtendLogOk(h: Hist, h': Hist, l: NodeId, t: Term, e: LogEntry)
    requires Evolves(h, h', l) && 1 <= t && t in h.reigns && LogOk(h, h.reigns[t].log, t) && e.term == t
    requires h'.reigns[t].log == h.reigns[t].log + [e]
    ensures LogOk(h', h'.reigns[t].log, t)
  {
    LogOkStable(h, h', h.reigns[t].log, t, t);
  }

  lemma ExtendReigns(s: set<NodeId>, h: Hist, l: NodeId, e: LogEntry)
    requires ReignsOk(s, h) && Leads(h, l) && e.term == h.nodes[l].cur
    requires Evolves(h, Extend(h, l, e), l)
    ensures ReignsOk(s, Extend(h, l, e))
  {
    var h' := Extend(h, l, e);
    assert ReignOk(s, h, e.term);
    ExtendLogOk(h, h', l, e.term, e);
    forall t | t in h'.reigns
      ensures ReignOk(s, h', t)
    {
      ReignStable(s, h, h', t);
    }
  }

  lemma ExtendOk(s: set<NodeId>, h: Hist, l: NodeId, e: LogEntry)
    requires Valid(s, h) && Leads(h, l) && e.term == h.nodes[l].cur
    ensures Valid(s, Extend(h, l, e)) && Evolves(h, Extend(h, l, e), l)
  {
    var h' := Extend(h, l, e);
    ExtendEvolves(h, l, e);
    ExtendReigns(s, h, l, e);
    assert ReignOk(s, h', e.term);
    MembersStable(s, h, h', l);
    RecordsStable(h, h');
    ExtendKeepsAcks(s, h, l, e);
    ExtendKeepsLeaders(s, h, l, e);
  }

  /** No later term has been won when a new entry can still be acknowledged by a quorum. */
  lemma NewEntryUnpinned(s: set<NodeId>, h: Hist, h': Hist, t: Term, n: nat, t2: Term)
    requires ReignsOk(s, h) && RecordsOk(h)
    requires t in h.reigns && |h.reigns[t].log| < n && t < t2 && t2 in h.reigns
    requires h'.nodes.Keys == h.nodes.Keys
    requires forall j :: j in h.nodes && h.nodes[j].cur > t ==> h'.nodes[j].cur > t && Ack(h', j, t) == Ack(h, j, t)
    ensures !Choosable(s, h', t, n)
  {
    assert ReignOk(s, h, t2);
    forall p | IsQuorum(s, p)
      ensures !ChoosableBy(h', t, n, p)
    {
      var v := QuorumsMeet(s, p, h.reigns[t2].electors);
      assert (v, t) in h.acks ==> AckOk(h, (v, t));
      assert Ack(h', v, t) < n;
    }
  }

  lemma ExtendKeepsAcks(s: set<NodeId>, h: Hist, l: NodeId, e: LogEntry)
    requires RecordsOk(h) && AcksKept(s, h) && Leads(h, l) && e.term == h.nodes[l].cur
    requires Evolves(h, Extend(h, l, e), l)
    ensures AcksKept(s, Extend(h, l, e))
  {
    var h' := Extend(h, l, e);
    forall v: NodeId, t: Term, n: nat | v in h'.nodes && Pinned(s, h', t, n) && n <= Ack(h', v, t)
      ensures Agree(h'.reigns[t].log, h'.nodes[v].full, n)
    {
      if !(v == l && t == e.term) {
        assert Ack(h', v, t) == Ack(h, v, t);
        assert AckOk(h, (v, t));
        PinnedStable(s, h, h', t, n);
        assert Agree(h.reigns[t].log, h.nodes[v].full, n);
      }
    }
  }

  /** What was pinned before the step is still in every leader's log after it. */
  lemma KnownPinKept(s: set<NodeId>, h: Hist, h': Hist, i: NodeId, t: Term, n: nat, t2: Term)
    requires LeadersComplete(s, h) && Evolves(h, h', i)
    requires Pinned(s, h', t, n) && t in h.reigns && n <= |h.reigns[t].log|
    requires t < t2 && t2 in h.reigns
    ensures Agree(h'.reigns[t].log, h'.reigns[t2].log, n)
  {
    PinnedStable(s, h, h', t, n);
    assert Agree(h.reigns[t].log, h.reigns[t2].log, n);
  }

  lemma ExtendKeepsLeaders(s: set<NodeId>, h: Hist, l: NodeId, e: LogEntry)
    requires ReignsOk(s, h) && RecordsOk(h) && LeadersComplete(s, h) && Leads(h, l)
    requires Evolves(h, Extend(h, l, e), l)
    ensures LeadersComplete(s, Extend(h, l, e))
  {
    var h' := Extend(h, l, e);
    forall t: Term, n: nat, t2: Term | Pinned(s, h', t, n) && t < t2 && t2 in h'.reigns
      ensures Agree(h'.reigns[t].log, h'.reigns[t2].log, n)
    {
      if n <= |h.reigns[t].log| {
        KnownPinKept(s, h, h', l, t, n, t2);
      } else {
        NewEntryUnpinned(s, h, h', t, n, t2);
      }
    }
  }

  // ---- following a leader ----

  /** The log after taking over `m` entries of `leader`: unchanged if they are there already. */
  function Adopted(log: seq<LogEntry>, leader: seq<LogEntry>, m: nat): seq<LogEntry>
    requires m <= |leader|
  {
    if Agree(log, leader, m) then log else leader[..m]
  }

  function Follow(h: Hist, v: NodeId, m: nat, acked: bool): Hist
    requires v in h.nodes && h.nodes[v].cur in h.reigns
    requires m <= |h.reigns[h.nodes[v].cur].log|
  {
    var t := h.nodes[v].cur;
    h.(nodes := h.nodes[v := h.nodes[v].(full := Adopted(h.nodes[v].full, h.reigns[t].log, m))],
       acks := if acked then h.acks[(v, t) := Max(Ack(h, v, t), m)] else h.acks)
  }

  /** What agrees with both logs agrees with the log after the adoption. */
  lemma AdoptedKeeps(p: seq<LogEntry>, n: nat, log: seq<LogEntry>, leader: seq<LogEntry>, m: nat)
    requires m <= |leader| && Agree(p, log, n) && Agree(p, leader, n)
    ensures Agree(p, Adopted(log, leader, m), n)
  {
  }

  lemma FollowEvolves(h: Hist, v: NodeId, m: nat, acked: bool)
    requires v in h.nodes && h.nodes[v].cur in h.reigns
    requires m <= |h.reigns[h.nodes[v].cur].log|
    ensures Evolves(h, Follow(h, v, m, acked), v)
  {
  }

  lemma FollowOk(s: set<NodeId>, h: Hist, v: NodeId, m: nat, acked: bool)
    requires Valid(s, h) && v in h.nodes && h.nodes[v].cur in h.reigns
    requires m <= |h.reigns[h.nodes[v].cur].log|
    ensures Valid(s, Follow(h, v, m, acked)) && Evolves(h, Follow(h, v, m, acked), v)
  {
    var h' := Follow(h, v, m, acked);
    FollowEvolves(h, v, m, acked);
    FollowLogOk(s, h, h', v, m, acked);
    MembersStable(s, h, h', v);
    ReignsStable(s, h, h');
    RecordsStable(h, h');
    FollowKeepsAcks(s, h, v, m, acked);
    SameReignsComplete(s, h, h', v);
  }

  lemma FollowLogOk(s: set<NodeId>, h: Hist, h': Hist, v: NodeId, m: nat, acked: bool)
    requires MembersOk(s, h) && ReignsOk(s, h) && v in h.nodes && h.nodes[v].cur in h.reigns
    requires m <= |h.reigns[h.nodes[v].cur].log|
    requires h' == Follow(h, v, m, acked) && Evolves(h, h', v)
    ensures LogOk(h', h'.nodes[v].full, h'.nodes[v].cur)
  {
    var t := h.nodes[v].cur;
    assert ReignOk(s, h, t);
    LogOkStable(h, h', h.nodes[v].full, t, t);
    LogOkStable(h, h', h.reigns[t].log, t, t);
  }

  lemma SameReignsComplete(s: set<NodeId>, h: Hist, h': Hist, i: NodeId)
    requires LeadersComplete(s, h) && Evolves(h, h', i) && h'.reigns == h.reigns
    ensures LeadersComplete(s, h')
  {
    forall t: Term, n: nat | Pinned(s, h', t, n)
      ensures Pinned(s, h, t, n)
    {
      PinnedStable(s, h, h', t, n);
    }
  }

  lemma FollowKeepsAck(s: set<NodeId>, h: Hist, v: NodeId, m: nat, acked: bool, t: Term, n: nat)
    requires RecordsOk(h) && AcksKept(s, h) && LeadersComplete(s, h) && v in h.nodes && h.nodes[v].cur in h.reigns
    requires m <= |h.reigns[h.nodes[v].cur].log|
    requires Pinned(s, h, t, n) && n <= Ack(h, v, t)
    ensures Agree(h.reigns[t].log, Follow(h, v, m, acked).nodes[v].full, n)
  {
    var cur := h.nodes[v].cur;
    assert AckOk(h, (v, t));
    assert Agree(h.reigns[t].log, h.reigns[cur].log, n);
    AdoptedKeeps(h.reigns[t].log, n, h.nodes[v].full, h.reigns[cur].log, m);
  }

  lemma FollowKeepsAcks(s: set<NodeId>, h: Hist, v: NodeId, m: nat, acked: bool)
    requires RecordsOk(h) && AcksKept(s, h) && LeadersComplete(s, h) && v in h.nodes && h.nodes[v].cur in h.reigns
    requires m <= |h.reigns[h.nodes[v].cur].log|
    requires Evolves(h, Follow(h, v, m, acked), v)
    ensures AcksKept(s, Follow(h, v, m, acked))
  {
    var h' := Follow(h, v, m, acked);
    forall i: NodeId, t: Term, n: nat | i in h'.nodes && Pinned(s, h', t, n) && n <= Ack(h', i, t)
      ensures Agree(h'.reigns[t].log, h'.nodes[i].full, n)
    {
      PinnedStable(s, h, h', t, n);
      if i == v && n <= Ack(h, v, t) {
        FollowKeepsAck(s, h, v, m, acked, t, n);
      }
    }
  }
}
