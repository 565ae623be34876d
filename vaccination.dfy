/** The vaccination controller run at the start of every update: it compares the
    number of vaccinated agents with the configured share of the population and, when
    they differ, vaccinates a random sample of unvaccinated susceptible agents or
    withdraws the vaccination of a random sample of vaccinated ones, at most a
    speed-dependent number per update. */
module Vaccination {
  import opened Basics
  import opened Enums
  import opened Config

  /** How many agents the controller aims to have vaccinated. */
  function VaxTarget(n: nat, cfg: Params): (t: int)
    ensures 0.0 <= cfg.vaccineRate <= 1.0 ==> 0 <= t <= n
  {
    var x := n as real * cfg.vaccineRate;
    assert 0.0 <= cfg.vaccineRate <= 1.0 ==> 0.0 <= x <= n as real by {
      if 0.0 <= cfg.vaccineRate <= 1.0 {
        calc { x; == n as real * cfg.vaccineRate; <= n as real * 1.0; }
      }
    }
    Trunc(x)
  }

  /** The most agents whose status changes in one update: five per unit of speed,
      truncated, and at least one. */
  function VaxCap(cfg: Params): (c: int)
    ensures c >= 1
    ensures cfg.simSpeed >= 0.0 ==> c as real <= MaxR(1.0, 5.0 * cfg.simSpeed)
  {
    Max(1, Trunc(5.0 * cfg.simSpeed))
  }

  /** The indices of the vaccinated agents. */
  function VaxSet(vax: seq<bool>): set<nat> {
    set i | 0 <= i < |vax| && vax[i]
  }

  /** The indices of the agents eligible for vaccination: unvaccinated and susceptible. */
  function Candidates(vax: seq<bool>, states: seq<HealthState>): set<nat>
    requires |vax| == |states|
  {
    set i | 0 <= i < |vax| && !vax[i] && states[i] == Susceptible
  }

  /** Whether the controller vaccinates (below target) this update. */
  predicate Raising(vax: seq<bool>, cfg: Params) {
    |VaxSet(vax)| < VaxTarget(|vax|, cfg)
  }

  /** The agents the controller samples from: the candidates below target, the
      vaccinated above it, nobody on target. */
  function Pool(vax: seq<bool>, states: seq<HealthState>, cfg: Params): (pool: set<nat>)
    requires |vax| == |states|
    ensures Raising(vax, cfg) ==> pool == Candidates(vax, states)
    ensures |VaxSet(vax)| > VaxTarget(|vax|, cfg) ==> pool == VaxSet(vax)
    ensures |VaxSet(vax)| == VaxTarget(|vax|, cfg) ==> pool == {}
    ensures forall i :: i in pool ==> i < |vax|
  {
    var current := |VaxSet(vax)|;
    var target := VaxTarget(|vax|, cfg);
    if current < target then Candidates(vax, states)
    else if current > target then VaxSet(vax)
    else {}
  }

  /** The vaccination statuses after the controller's step: the sampled agents become
      vaccinated below target and unvaccinated above it; nobody else changes. */
  function Controlled(vax: seq<bool>, cfg: Params, sample: seq<nat>): (r: seq<bool>)
    ensures |r| == |vax|
    ensures forall i :: 0 <= i < |vax| && i !in sample ==> r[i] == vax[i]
    ensures forall i :: 0 <= i < |vax| && i in sample ==> r[i] == Raising(vax, cfg)
  {
    var up := Raising(vax, cfg);
    seq(|vax|, i requires 0 <= i < |vax| => if i in sample then up else vax[i])
  }

  /** The number of vaccinated agents after one step, from the number before, the
      target, the number of candidates and the cap. */
  function NextCount(current: nat, target: int, candidates: nat, cap: int): (r: int)
    requires cap >= 1
    ensures r >= 0
    ensures current < target ==> current <= r <= current + cap
    ensures current > target ==> current - cap <= r < current || current == 0
    ensures r == current <==> current == target || (current < target && candidates == 0) || (current > target && current == 0)
  {
    if current < target then current + Min(candidates, cap)
    else if current > target then current - Min(current, cap)
    else current
  }

  /** The controller changes the number of vaccinated agents exactly as `NextCount`
      says: by the size of the sample, which is the pool size capped. */
  lemma ControlledCount(vax: seq<bool>, states: seq<HealthState>, cfg: Params, sample: seq<nat>)
    requires |vax| == |states|
    requires IsSample(sample, Pool(vax, states, cfg), VaxCap(cfg))
    ensures |VaxSet(Controlled(vax, cfg, sample))|
         == NextCount(|VaxSet(vax)|, VaxTarget(|vax|, cfg), |Candidates(vax, states)|, VaxCap(cfg))
  {
    var r := Controlled(vax, cfg, sample);
    var picked := Elements(sample);
    DistinctCard(sample);
    assert |picked| == |sample|;
    var old_ := VaxSet(vax);
    if Raising(vax, cfg) {
      assert VaxSet(r) == old_ + picked;
      assert old_ * picked == {};
    } else if |old_| > VaxTarget(|vax|, cfg) {
      assert VaxSet(r) == old_ - picked;
      assert picked <= old_;
      assert old_ * picked == picked;
    } else {
      assert sample == [];
      assert VaxSet(r) == old_;
    }
  }

  /** The controller does not settle when the gap to the target is smaller than the
      cap: below target with enough candidates it overshoots, above target with
      enough vaccinated agents it undershoots, so the count keeps crossing the
      target. */
  lemma ControllerOvershoots(current: nat, target: int, candidates: nat, cap: int)
    requires cap >= 1
    ensures current < target && target - current < cap <= candidates ==> NextCount(current, target, candidates, cap) > target
    ensures current > target && current - target < cap <= current ==> NextCount(current, target, candidates, cap) < target
  {
  }

  /** With the default speed (cap 5), 500 agents and a 50.2% target (251), a population
      with 250 vaccinated agents and enough candidates alternates between 255 and 250
      vaccinated agents. */
  lemma ControllerOscillates()
    ensures NextCount(250, 251, 250, 5) == 255
    ensures NextCount(255, 251, 245, 5) == 250
    ensures VaxCap(DEFAULTS) == 5
    ensures VaxTarget(500, DEFAULTS.(vaccineRate := 0.502)) == 251
  {
  }
}
