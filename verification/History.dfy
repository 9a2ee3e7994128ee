/**
  The history a cluster leaves behind, as the safety argument needs it: every
  node's full log (the prefix folded into its snapshot followed by its tail),
  the log of every term's leader, who voted for whom, with which log each
  candidate stood, and how much of a leader's log each node acknowledged.

  `Valid` is the invariant of that history.  Each operation below is one thing a
  node can do to it, and keeps the invariant; the handlers of the consensus
  module are later shown to be compositions of these operations.
*/
module History {
  import opened Types
  import opened Quorums

  /** A node: its term, its full log and the length of its compacted prefix. */
  datatype Member = Member(cur: Term, full: seq<LogEntry>, base: LogIndex)

  /** A term that has a leader: the leader's log (append-only) and who elected it. */
  datatype Reign = Reign(log: seq<LogEntry>, leader: NodeId, electors: set<NodeId>)

  datatype Hist = Hist(
    nodes: map<NodeId, Member>,
    reigns: map<Term, Reign>,
    stood: map<(NodeId, Term), seq<LogEntry>>,
    voted: map<(NodeId, Term), NodeId>,
    acks: map<(NodeId, Term), nat>)

  /** How many entries of the log of term `t`'s leader node `i` acknowledged in term `t`. */
  function Ack(h: Hist, i: NodeId, t: Term): nat {
    if (i, t) in h.acks then h.acks[(i, t)] else 0
  }

  predicate Agree(a: seq<LogEntry>, b: seq<LogEntry>, n: nat) {
    n <= |a| && n <= |b| && forall j :: 0 <= j < n ==> a[j] == b[j]
  }

  /** Every entry names a term whose leader's log contains the prefix it ends. */
  ghost predicate LogOk(h: Hist, log: seq<LogEntry>, hi: Term) {
    forall k :: 0 <= k < |log| ==>
      && 1 <= log[k].term <= hi
      && log[k].term in h.reigns
      && Agree(log, h.reigns[log[k].term].log, k + 1)
  }

  /** Quorum `q` could still acknowledge `n` entries in term `t`. */
  ghost predicate ChoosableBy(h: Hist, t: Term, n: nat, q: set<NodeId>) {
    forall i :: i in q ==> i in h.nodes && (Ack(h, i, t) >= n || h.nodes[i].cur <= t)
  }

  ghost predicate Choosable(s: set<NodeId>, h: Hist, t: Term, n: nat) {
    exists q :: IsQuorum(s, q) && ChoosableBy(h, t, n, q)
  }

  /** Entry `n` of the leader of `t` is its own and may be, or become, committed by counting. */
  ghost predicate Pinned(s: set<NodeId>, h: Hist, t: Term, n: nat) {
    && t in h.reigns
    && 0 < n <= |h.reigns[t].log|
    && h.reigns[t].log[n - 1].term == t
    && Choosable(s, h, t, n)
  }

  ghost predicate ChosenBy(h: Hist, t: Term, n: nat, q: set<NodeId>) {
    forall i :: i in q ==> i in h.nodes && Ack(h, i, t) >= n
  }

  /** A quorum acknowledged entry `n` of term `t`'s leader, an entry of term `t`. */
  ghost predicate Chosen(s: set<NodeId>, h: Hist, t: Term, n: nat) {
    && t in h.reigns
    && 0 < n <= |h.reigns[t].log|
    && h.reigns[t].log[n - 1].term == t
    && exists q :: IsQuorum(s, q) && ChosenBy(h, t, n, q)
  }

  ghost predicate CommittedIn(s: set<NodeId>, h: Hist, log: seq<LogEntry>, k: nat, ct: Term, n: nat) {
    Chosen(s, h, ct, n) && k <= n && Agree(log, h.reigns[ct].log, k)
  }

  /** The first `k` entries of `log` are committed, by a term no later than `t`. */
  ghost predicate Committed(s: set<NodeId>, h: Hist, log: seq<LogEntry>, k: nat, t: Term) {
    && k <= |log|
    && (k == 0 || exists ct: Term, n: nat :: ct <= t && CommittedIn(s, h, log, k, ct, n))
  }

  /** Voter `v`'s choice in term `t2` respected everything it had acknowledged before. */
  ghost predicate VoteSafe(s: set<NodeId>, h: Hist, v: NodeId, t2: Term, log: seq<LogEntry>) {
    && v in h.nodes
    && t2 <= h.nodes[v].cur
    && forall t: Term, n: nat :: Pinned(s, h, t, n) && t < t2 && n <= Ack(h, v, t) ==> Agree(h.reigns[t].log, log, n)
  }

  // ---- the invariant ----

  ghost predicate MembersOk(s: set<NodeId>, h: Hist) {
    && h.nodes.Keys == s
    && forall i :: i in h.nodes ==> LogOk(h, h.nodes[i].full, h.nodes[i].cur)
  }

  ghost predicate ReignOk(s: set<NodeId>, h: Hist, t: Term)
    requires t in h.reigns
  {
    var r := h.reigns[t];
    && 1 <= t
    && LogOk(h, r.log, t)
    && r.leader in h.nodes
    && t <= h.nodes[r.leader].cur
    && IsQuorum(s, r.electors)
    && forall v :: v in r.electors ==>
         v in h.nodes && t <= h.nodes[v].cur && (v, t) in h.voted && h.voted[(v, t)] == r.leader
  }

  ghost predicate ReignsOk(s: set<NodeId>, h: Hist) {
    forall t :: t in h.reigns ==> ReignOk(s, h, t)
  }

  ghost predicate VotedOk(h: Hist, k: (NodeId, Term)) {
    k.0 in h.nodes && k.1 <= h.nodes[k.0].cur
  }

  ghost predicate StoodOk(h: Hist, k: (NodeId, Term)) {
    k in h.stood && k.0 in h.nodes && 1 <= k.1 <= h.nodes[k.0].cur && LogOk(h, h.stood[k], k.1 - 1)
  }

  ghost predicate AckOk(h: Hist, k: (NodeId, Term)) {
    && k in h.acks
    && k.0 in h.nodes && k.1 in h.reigns
    && k.1 <= h.nodes[k.0].cur && h.acks[k] <= |h.reigns[k.1].log|
  }

  ghost predicate RecordsOk(h: Hist) {
    && (forall k :: k in h.voted ==> VotedOk(h, k))
    && (forall k :: k in h.stood ==> StoodOk(h, k))
    && (forall k :: k in h.acks ==> AckOk(h, k))
  }

  /** Each node still holds whatever it acknowledged that may be, or become, committed. */
  ghost predicate AcksKept(s: set<NodeId>, h: Hist) {
    forall v: NodeId, t: Term, n: nat :: v in h.nodes && Pinned(s, h, t, n) && n <= Ack(h, v, t) ==>
      Agree(h.reigns[t].log, h.nodes[v].full, n)
  }

  /** Leader completeness: later leaders hold whatever an earlier one may have committed. */
  ghost predicate LeadersComplete(s: set<NodeId>, h: Hist) {
    forall t: Term, n: nat, t2: Term :: Pinned(s, h, t, n) && t < t2 && t2 in h.reigns ==>
      Agree(h.reigns[t].log, h.reigns[t2].log, n)
  }

  ghost predicate Valid(s: set<NodeId>, h: Hist) {
    && MembersOk(s, h)
    && ReignsOk(s, h)
    && RecordsOk(h)
    && AcksKept(s, h)
    && LeadersComplete(s, h)
  }

  // ---- how a history grows ----

  ghost predicate NodesGrow(h: Hist, h': Hist) {
    && h.nodes.Keys == h'.nodes.Keys
    && forall j :: j in h.nodes ==> h.nodes[j].cur <= h'.nodes[j].cur && h.nodes[j].base <= h'.nodes[j].base
  }

  ghost predicate ReignsGrow(h: Hist, h': Hist) {
    forall t :: t in h.reigns ==>
      && t in h'.reigns
      && Agree(h.reigns[t].log, h'.reigns[t].log, |h.reigns[t].log|)
      && h'.reigns[t].leader == h.reigns[t].leader
      && h'.reigns[t].electors == h.reigns[t].electors
  }

  ghost predicate RecordsGrow(h: Hist, h': Hist) {
    && (forall k :: k in h.stood ==> k in h'.stood && h'.stood[k] == h.stood[k])
    && (forall k :: k in h.voted ==> k in h'.voted && h'.voted[k] == h.voted[k])
  }

  /** Acknowledgements only grow, and never in a term the node has left. */
  ghost predicate AcksGrow(h: Hist, h': Hist) {
    forall j: NodeId, t: Term :: j in h.nodes ==>
      && Ack(h, j, t) <= Ack(h', j, t)
      && (Ack(h, j, t) < Ack(h', j, t) ==> h.nodes[j].cur <= t)
  }

  /** `h'` is a later history: terms, leaders' logs, votes and acknowledgements only grew. */
  ghost predicate Later(h: Hist, h': Hist) {
    NodesGrow(h, h') && ReignsGrow(h, h') && RecordsGrow(h, h') && AcksGrow(h, h')
  }

  /** Nothing but what belongs to node `i` changed. */
  ghost predicate OnlyBy(h: Hist, h': Hist, i: NodeId) {
    && (forall j :: j in h.nodes && j in h'.nodes && j != i ==> h'.nodes[j] == h.nodes[j])
    && (forall t :: t in h.reigns && t in h'.reigns && h.reigns[t].leader != i ==> h'.reigns[t] == h.reigns[t])
    && (forall t :: t in h'.reigns && t !in h.reigns ==> h'.reigns[t].leader == i)
    && (forall k :: k in h'.stood && k !in h.stood ==> k.0 == i)
    && (forall k :: k in h'.voted && k !in h.voted ==> k.0 == i)
    && (forall j: NodeId, t: Term :: Ack(h, j, t) != Ack(h', j, t) ==> j == i)
  }

  /** Activity of node `i`. */
  ghost predicate Evolves(h: Hist, h': Hist, i: NodeId) {
    Later(h, h') && OnlyBy(h, h', i)
  }

  lemma LaterCompose(h: Hist, h1: Hist, h2: Hist)
    requires Later(h, h1) && Later(h1, h2)
    ensures Later(h, h2)
  {
  }

  lemma EvolvesCompose(h: Hist, h1: Hist, h2: Hist, i: NodeId)
    requires Evolves(h, h1, i) && Evolves(h1, h2, i)
    ensures Evolves(h, h2, i)
  {
    LaterCompose(h, h1, h2);
  }

  // ---- stability of facts about the history ----

  lemma ChoosableStable(s: set<NodeId>, h: Hist, h': Hist, t: Term, n: nat)
    requires Later(h, h') && Choosable(s, h', t, n)
    ensures Choosable(s, h, t, n)
  {
    var q :| IsQuorum(s, q) && ChoosableBy(h', t, n, q);
    assert ChoosableBy(h, t, n, q);
  }

  /** An entry known before stays pinned only if it was pinned before. */
  lemma PinnedStable(s: set<NodeId>, h: Hist, h': Hist, t: Term, n: nat)
    requires Later(h, h') && Pinned(s, h', t, n)
    requires t in h.reigns && n <= |h.reigns[t].log|
    ensures Pinned(s, h, t, n)
  {
    ChoosableStable(s, h, h', t, n);
  }

  lemma LogOkStable(h: Hist, h': Hist, log: seq<LogEntry>, hi: Term, hi': Term)
    requires Later(h, h') && LogOk(h, log, hi) && hi <= hi'
    ensures LogOk(h', log, hi')
  {
  }

  lemma ChosenStable(s: set<NodeId>, h: Hist, h': Hist, t: Term, n: nat)
    requires Later(h, h') && Chosen(s, h, t, n)
    ensures Chosen(s, h', t, n)
  {
    var q :| IsQuorum(s, q) && ChosenBy(h, t, n, q);
    assert ChosenBy(h', t, n, q);
  }

  lemma CommittedStable(s: set<NodeId>, h: Hist, h': Hist, log: seq<LogEntry>, k: nat, t: Term, t': Term)
    requires Later(h, h') && Committed(s, h, log, k, t) && t <= t'
    ensures Committed(s, h', log, k, t')
  {
    if k != 0 {
      var ct: Term, n: nat :| ct <= t && CommittedIn(s, h, log, k, ct, n);
      ChosenStable(s, h, h', ct, n);
      assert CommittedIn(s, h', log, k, ct, n);
    }
  }

  lemma VoteSafeStable(s: set<NodeId>, h: Hist, h': Hist, v: NodeId, t2: Term, log: seq<LogEntry>)
    requires Later(h, h') && RecordsOk(h) && VoteSafe(s, h, v, t2, log)
    ensures VoteSafe(s, h', v, t2, log)
  {
    forall t: Term, n: nat | Pinned(s, h', t, n) && t < t2 && n <= Ack(h', v, t)
      ensures Agree(h'.reigns[t].log, log, n)
    {
      assert Ack(h', v, t) == Ack(h, v, t);
      assert (v, t) in h.acks;
      PinnedStable(s, h, h', t, n);
    }
  }

  // ---- rebuilding the clauses of the invariant after a step ----

  lemma MembersStable(s: set<NodeId>, h: Hist, h': Hist, i: NodeId)
    requires Evolves(h, h', i) && MembersOk(s, h)
    requires i in h'.nodes ==> LogOk(h', h'.nodes[i].full, h'.nodes[i].cur)
    ensures MembersOk(s, h')
  {
    forall j | j in h'.nodes
      ensures LogOk(h', h'.nodes[j].full, h'.nodes[j].cur)
    {
      if j != i {
        LogOkStable(h, h', h.nodes[j].full, h.nodes[j].cur, h.nodes[j].cur);
      }
    }
  }

  lemma ReignStable(s: set<NodeId>, h: Hist, h': Hist, t: Term)
    requires Later(h, h') && t in h.reigns && ReignOk(s, h, t)
    requires h'.reigns[t].log == h.reigns[t].log || LogOk(h', h'.reigns[t].log, t)
    ensures ReignOk(s, h', t)
  {
    if h'.reigns[t].log == h.reigns[t].log {
      LogOkStable(h, h', h.reigns[t].log, t, t);
    }
  }

  lemma ReignsStable(s: set<NodeId>, h: Hist, h': Hist)
    requires Later(h, h') && ReignsOk(s, h) && h'.reigns == h.reigns
    ensures ReignsOk(s, h')
  {
    forall t | t in h'.reigns
      ensures ReignOk(s, h', t)
    {
      ReignStable(s, h, h', t);
    }
  }

  lemma RecordsStable(h: Hist, h': Hist)
    requires Later(h, h') && RecordsOk(h)
    requires forall k :: k in h'.voted && k !in h.voted ==> VotedOk(h', k)
    requires forall k :: k in h'.stood && k !in h.stood ==> StoodOk(h', k)
    requires forall k :: k in h'.acks && (k !in h.acks || h'.acks[k] != h.acks[k]) ==> AckOk(h', k)
    ensures RecordsOk(h')
  {
    forall k | k in h'.stood
      ensures StoodOk(h', k)
    {
      if k in h.stood {
        LogOkStable(h, h', h.stood[k], k.1 - 1, k.1 - 1);
      }
    }
    forall k | k in h'.voted
      ensures VotedOk(h', k)
    {
    }
    forall k | k in h'.acks
      ensures AckOk(h', k)
    {
    }
  }
}
