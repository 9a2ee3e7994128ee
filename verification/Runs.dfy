/** Every state of every run satisfies both invariants, and histories only grow along a run. */
module Runs {
  import opened Cluster
  import opened History
  import opened Invariant
  import opened DataInvariant
  import opened Safety

  ghost predicate Sound(cfg: Config, c: Cluster, h: Hist) {
    Inv(cfg, c, h) && DataInv(cfg, c, h)
  }

  lemma SoundNext(cfg: Config, c: Cluster, h: Hist, step: Step, c': Cluster) returns (h': Hist)
    requires Sound(cfg, c, h) && StepsTo(cfg, c, step, c')
    ensures Sound(cfg, c', h') && Evolves(h, h', step.at)
  {
    h' := InvNext(cfg, c, h, step, c');
    DataNext(cfg, c, h, step, c', h');
  }

  lemma SoundInit(cfg: Config, c: Cluster)
    requires Init(cfg, c)
    ensures Sound(cfg, c, Genesis(cfg.servers))
  {
    InitOk(cfg, c);
    DataInit(cfg, c);
  }

  lemma LaterSelf(h: Hist)
    ensures Later(h, h)
  {
  }

  // ---- one history per state ----

  ghost predicate SoundAt(cfg: Config, r: Run, hs: seq<Hist>, k: nat)
    requires k < |hs| <= |r.states|
  {
    && Sound(cfg, r.states[k], hs[k])
    && (0 < k ==> k - 1 < |r.steps| && Evolves(hs[k - 1], hs[k], r.steps[k - 1].at))
  }

  /** Histories of the first states of a run, each grown out of the one before. */
  ghost predicate Chronicle(cfg: Config, r: Run, hs: seq<Hist>) {
    && |hs| <= |r.states|
    && forall k {:trigger SoundAt(cfg, r, hs, k)} :: 0 <= k < |hs| ==> SoundAt(cfg, r, hs, k)
  }

  lemma SoundAtSame(cfg: Config, r: Run, hs: seq<Hist>, hs': seq<Hist>, k: nat)
    requires k < |hs| <= |hs'| <= |r.states| && SoundAt(cfg, r, hs, k)
    requires hs'[k] == hs[k] && (0 < k ==> hs'[k - 1] == hs[k - 1])
    ensures SoundAt(cfg, r, hs', k)
  {
  }

  lemma ChronicleGrows(cfg: Config, r: Run, hs: seq<Hist>, h: Hist)
    requires Chronicle(cfg, r, hs) && |hs| < |r.states| && Sound(cfg, r.states[|hs|], h)
    requires hs != [] ==> |hs| - 1 < |r.steps| && Evolves(hs[|hs| - 1], h, r.steps[|hs| - 1].at)
    ensures Chronicle(cfg, r, hs + [h])
  {
    var hs' := hs + [h];
    assert SoundAt(cfg, r, hs', |hs|);
    forall k | 0 <= k < |hs'|
      ensures SoundAt(cfg, r, hs', k)
    {
      if k < |hs| {
        SoundAtSame(cfg, r, hs, hs', k);
      }
    }
  }

  lemma ChronicleSound(cfg: Config, r: Run, hs: seq<Hist>, k: nat)
    requires Chronicle(cfg, r, hs) && k < |hs|
    ensures Sound(cfg, r.states[k], hs[k])
  {
    assert SoundAt(cfg, r, hs, k);
  }

  lemma ChronicleEvolves(cfg: Config, r: Run, hs: seq<Hist>, k: nat, k': nat)
    requires Chronicle(cfg, r, hs) && k' == k + 1 && k' < |hs|
    ensures k < |r.steps| && Evolves(hs[k], hs[k'], r.steps[k].at)
  {
    assert SoundAt(cfg, r, hs, k');
  }

  lemma StepBetween(cfg: Config, r: Run, k: nat, k': nat)
    requires IsRun(cfg, r) && k' == k + 1 && k' < |r.states|
    ensures StepsTo(cfg, r.states[k], r.steps[k], r.states[k'])
  {
    assert StepAt(cfg, r, k);
  }

  lemma StepSound(cfg: Config, r: Run, k: nat, h: Hist) returns (h': Hist)
    requires IsRun(cfg, r) && k < |r.steps| && Sound(cfg, r.states[k], h)
    ensures Sound(cfg, r.states[k + 1], h') && Evolves(h, h', r.steps[k].at)
  {
    assert StepAt(cfg, r, k);
    h' := SoundNext(cfg, r.states[k], h, r.steps[k], r.states[k + 1]);
  }

  /** Every run has a chronicle, up to any of its states. */
  lemma {:induction false} HasChronicle(cfg: Config, r: Run, k: nat) returns (hs: seq<Hist>)
    requires IsRun(cfg, r) && k < |r.states|
    ensures Chronicle(cfg, r, hs) && |hs| == k + 1
  {
    var h;
    if k == 0 {
      SoundInit(cfg, r.states[0]);
      hs, h := [], Genesis(cfg.servers);
    } else {
      hs := HasChronicle(cfg, r, k - 1);
      ChronicleSound(cfg, r, hs, k - 1);
      h := StepSound(cfg, r, k - 1, hs[k - 1]);
    }
    ChronicleGrows(cfg, r, hs, h);
    hs := hs + [h];
  }

  lemma {:induction false} ChronicleLater(cfg: Config, r: Run, hs: seq<Hist>, j: nat, k: nat)
    requires Chronicle(cfg, r, hs) && j <= k < |hs|
    ensures Later(hs[j], hs[k])
    decreases k
  {
    if j == k {
      LaterSelf(hs[j]);
    } else {
      ChronicleLater(cfg, r, hs, j, k - 1);
      ChronicleEvolves(cfg, r, hs, k - 1, k);
      LaterCompose(hs[j], hs[k - 1], hs[k]);
    }
  }

  /** Every reachable state is sound. */
  lemma Reach(cfg: Config, r: Run, k: nat) returns (h: Hist)
    requires IsRun(cfg, r) && k < |r.states|
    ensures Sound(cfg, r.states[k], h)
  {
    var hs := HasChronicle(cfg, r, k);
    ChronicleSound(cfg, r, hs, k);
    h := hs[k];
  }

  /** Two states of a run, and that the history of the second grew out of the first's. */
  lemma ReachBoth(cfg: Config, r: Run, j: nat, k: nat) returns (hj: Hist, hk: Hist)
    requires IsRun(cfg, r) && j <= k < |r.states|
    ensures Sound(cfg, r.states[j], hj) && Sound(cfg, r.states[k], hk) && Later(hj, hk)
  {
    var hs := HasChronicle(cfg, r, k);
    ChronicleSound(cfg, r, hs, j);
    ChronicleSound(cfg, r, hs, k);
    ChronicleLater(cfg, r, hs, j, k);
    hj, hk := hs[j], hs[k];
  }
}
