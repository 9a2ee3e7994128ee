/**
  Requests and answers: nonces name proposals, a waiter is answered with the outcome of
  its own entry, and a request sees everything answered before it was proposed.
*/
module Linearizability {
  import opened Types
  import opened App
  import opened Cluster
  import opened ApplyStream
  import opened Runs
  import opened Theorems
  import opened RealTime
  import opened Provenance

  const TWO16 := 0x1_0000
  const TWO48 := 0x1_0000_0000_0000
  const TWO64 := 0x1_0000_0000_0000_0000

  /** `next_nonce`: the node id shifted by 48 bits, in a 64-bit word, above the low 48 bits of the counter. */
  function Nonce(id: NodeId, counter: nat): nat {
    (id * TWO48) % TWO64 + counter % TWO48
  }

  lemma ShiftedId(id: NodeId)
    ensures (id * TWO48) % TWO64 == (id % TWO16) * TWO48
  {
    var q, low := id / TWO16, id % TWO16;
    assert id * TWO48 == q * TWO64 + low * TWO48;
    assert 0 <= low * TWO48 < TWO64;
    assert (q * TWO64 + low * TWO48) % TWO64 == low * TWO48;
  }

  /** Two nonces coincide exactly when the ids agree modulo 2^16 and the counters modulo 2^48. */
  lemma NonceIff(id: NodeId, counter: nat, id': NodeId, counter': nat)
    ensures Nonce(id, counter) == Nonce(id', counter') <==>
            id % TWO16 == id' % TWO16 && counter % TWO48 == counter' % TWO48
  {
    ShiftedId(id);
    ShiftedId(id');
  }

  // ---- numbered proposals ----

  /** The command proposed in step `m` carries the nonce of its node for the number `counter(m)`. */
  ghost predicate Stamped(cfg: Config, r: Run, counter: nat -> nat, m: nat)
    requires m < |r.steps|
  {
    r.steps[m].Propose? ==>
      && NonceOf(cfg, r.steps[m].command) == Some(Nonce(r.steps[m].at, counter(m)))
      && r.steps[m].at < TWO16
      && counter(m) < TWO48
  }

  /** Two proposals at one node. */
  ghost predicate BothPropose(s: Step, s': Step) {
    s.Propose? && s'.Propose? && s.at == s'.at
  }

  /**
    Every proposal is stamped, and no two proposals of a node with the same number.  Callers
    may submit in another order than they took their numbers.  A counter hands out each
    number once as long as its process does not restart.
  */
  ghost predicate AllStamped(cfg: Config, r: Run, counter: nat -> nat) {
    && (forall m :: 0 <= m < |r.steps| ==> Stamped(cfg, r, counter, m))
    && (forall m, m' :: 0 <= m < m' < |r.steps| && BothPropose(r.steps[m], r.steps[m']) ==> counter(m) != counter(m'))
  }

  function NonceOf(cfg: Config, command: Bytes): Option<nat> {
    match cfg.decode(command)
    case None => None
    case Some(c) => Some(c.nonce)
  }

  /** A nonce names one proposal. */
  lemma NonceNamesProposal(cfg: Config, r: Run, counter: nat -> nat, m: nat, m': nat)
    requires AllStamped(cfg, r, counter) && m < |r.steps| && m' < |r.steps| && r.steps[m].Propose? && r.steps[m'].Propose?
    requires NonceOf(cfg, r.steps[m].command) == NonceOf(cfg, r.steps[m'].command)
    ensures m == m'
  {
    assert Stamped(cfg, r, counter, m) && Stamped(cfg, r, counter, m');
    NonceIff(r.steps[m].at, counter(m), r.steps[m'].at, counter(m'));
  }

  // ---- answers ----

  /** Whatever entry answers the waiter of a proposal, it is the entry of that proposal. */
  lemma WaiterGetsOwnEntry(cfg: Config, r: Run, counter: nat -> nat, m: nat, b: NodeId, command: Bytes, t: Term, x: LogIndex,
      j: nat, a: NodeId, e: Applied)
    requires IsRun(cfg, r) && AllStamped(cfg, r, counter) && Proposes(r, m, b, command, t, x)
    requires Responds(r, j, a, e) && NonceOf(cfg, e.command) == NonceOf(cfg, command)
    ensures e == Applied(x, t, command)
  {
    assert r.states[j].hosts[a].channel[0] in r.states[j].hosts[a].channel;
    var m', b' := QueuedWasProposed(cfg, r, j, a, e);
    NonceNamesProposal(cfg, r, counter, m, m');
  }

  /** The outcome of applying a log command to `app`; an undecodable one has none. */
  function Answer(cfg: Config, app: AppData, command: Bytes): Option<Outcome> {
    match cfg.decode(command)
    case None => None
    case Some(c) => Some(ApplyCommitted(app, c).1)
  }

  /** The outcome entry `k` of the log has when the log is replayed. */
  function LogAnswer(cfg: Config, log: seq<LogEntry>, k: LogIndex): Option<Outcome>
    requires 0 < k <= |log|
  {
    Answer(cfg, Replay(cfg.decode, log[..k - 1]), log[k - 1].command)
  }

  /** The state a command is applied to is the replay of the one log up to that command. */
  lemma AnsweredFrom(cfg: Config, r: Run, log: seq<LogEntry>, j: nat, a: NodeId, e: Applied)
    requires IsRun(cfg, r) && Covers(cfg, r, |r.states| - 1, log) && Responds(r, j, a, e)
    ensures 0 < e.index <= |log| && log[e.index - 1] == LogEntry(e.term, e.command)
    ensures r.states[j].hosts[a].app == Replay(cfg.decode, log[..e.index - 1])
    ensures Answer(cfg, r.states[j].hosts[a].app, e.command) == LogAnswer(cfg, log, e.index)
  {
    var x := r.states[j].hosts[a];
    OnOneLog(cfg, r, log, j, a);
    assert x.channel[0] in x.channel;
    QueuedOnLog(cfg, log, x, e);
    AppIsReplay(cfg, log, x);
    StreamRest(cfg, log[..x.node.lastApplied], x.pos, x.channel);
  }

  /** The answer given in step `j` is the one of its entry in the log. */
  ghost predicate AnsweredAsLog(cfg: Config, r: Run, log: seq<LogEntry>, j: nat, a: NodeId, e: Applied)
    requires Responds(r, j, a, e)
  {
    && 0 < e.index <= |log| && log[e.index - 1] == LogEntry(e.term, e.command)
    && Answer(cfg, r.states[j].hosts[a].app, e.command) == LogAnswer(cfg, log, e.index)
  }

  /** A request proposed in step `m` and answered as `e'`, after `e` was answered in step `j`. */
  ghost predicate AskedAfter(r: Run, j: nat, a: NodeId, e: Applied, m: nat, b: NodeId, command: Bytes, n: nat, d: NodeId, e': Applied) {
    Responds(r, j, a, e) && j < m && Proposes(r, m, b, command, e'.term, e'.index) && Responds(r, n, d, e')
  }

  /**
    Linearizability: there is one log behind the run such that every answer ever given is
    that of replaying the log to its entry, and a request proposed after another was
    answered comes later in it, so its answer takes the earlier one into account.
  */
  lemma AnswersRespectRealTime(cfg: Config, r: Run) returns (log: seq<LogEntry>)
    requires IsRun(cfg, r)
    ensures Covers(cfg, r, |r.states| - 1, log)
    ensures forall j: nat, a: NodeId, e: Applied :: Responds(r, j, a, e) ==> AnsweredAsLog(cfg, r, log, j, a, e)
    ensures forall j: nat, a: NodeId, e: Applied, m: nat, b: NodeId, command: Bytes, n: nat, d: NodeId, e': Applied ::
              AskedAfter(r, j, a, e, m, b, command, n, d, e') ==> e.index < e'.index
  {
    log := OneLog(cfg, r);
    forall j: nat, a: NodeId, e: Applied | Responds(r, j, a, e)
      ensures AnsweredAsLog(cfg, r, log, j, a, e)
    {
      AnsweredFrom(cfg, r, log, j, a, e);
    }
    forall j: nat, a: NodeId, e: Applied, m: nat, b: NodeId, command: Bytes, n: nat, d: NodeId, e': Applied
      | AskedAfter(r, j, a, e, m, b, command, n, d, e')
      ensures e.index < e'.index
    {
      AnsweredBefore(cfg, r, j, a, e, m, b, command, n, d, e');
    }
  }

  lemma AnsweredBefore(cfg: Config, r: Run, j: nat, a: NodeId, e: Applied, m: nat, b: NodeId, command: Bytes,
      n: nat, d: NodeId, e': Applied)
    requires IsRun(cfg, r) && Responds(r, j, a, e) && j < m
    requires Proposes(r, m, b, command, e'.term, e'.index) && Responds(r, n, d, e')
    ensures e.index < e'.index
  {
    var hs := HasChronicle(cfg, r, |r.states| - 1);
    assert r.states[j].hosts[a].channel[0] in r.states[j].hosts[a].channel;
    assert r.states[n].hosts[d].channel[0] in r.states[n].hosts[d].channel;
    LateProposal(cfg, r, hs, j, a, e, m, b, command, n, d, e');
  }
}
