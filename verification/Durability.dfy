/** What a process saves in a reachable state is what a restart reads back. */
module Durability {
  import opened Types
  import opened Consensus
  import opened Cluster
  import opened StateCodec
  import opened LogTheorems

  /** Every reachable durable state survives the file format unchanged. */
  lemma DurableRoundTrip(cfg: Config, r: Run, k: nat, i: NodeId, n: Node)
    requires IsRun(cfg, r) && IsNode(r, k, i, n) && StateFits(n.Persistent())
    ensures DecodeState(EncodeState(n.Persistent())) == Ok(n.Persistent())
  {
    DurableShape(cfg, r, k, i, n);
    RoundTripIff(n.Persistent());
  }

  /** A crash is a restart from the file the process last wrote. */
  lemma CrashReadsFile(cfg: Config, r: Run, k: nat, i: NodeId, n: Node)
    requires IsRun(cfg, r) && k < |r.steps| && IsNode(r, k, i, n) && StateFits(n.Persistent())
    requires r.steps[k].Crash? && r.steps[k].at == i
    ensures DecodeState(EncodeState(n.Persistent())).Ok? && i in r.states[k + 1].hosts
    ensures r.states[k + 1].hosts[i] == Boot(n.id, n.peers, n.timing, DecodeState(EncodeState(n.Persistent())).value, r.steps[k].now, r.steps[k].timeout)
  {
    DurableRoundTrip(cfg, r, k, i, n);
    assert StepAt(cfg, r, k);
  }
}
