/** The disease state machine as pure functions over an agent's health record:
    infection, the infection trial, and the per-step progression (immunity waning,
    symptom onset, hospital admission, death and recovery). The engine's methods
    are proved to update agents exactly as these functions say. */
module Disease {
  import opened Basics
  import opened Enums
  import opened Config
  import opened Hubs

  /** The fields of an agent that disease progression reads and writes. */
  datatype Bio = Bio(
    state: HealthState,
    daysInState: real,
    immunity: real,
    inQuarantine: bool,
    latentDur: real,
    infDur: real,
    peakShedding: real,
    aim: Aim)

  /** The fields of an agent that disease progression reads but never writes. */
  datatype Traits = Traits(
    age: AgeGroup,
    vaccinated: bool,
    superspreader: bool,
    constitution: real,
    masked: bool,
    home: HubId,
    currentHub: Option<HubId>)

  /** The hospital as one pass of the progression sees it: `occupied` is counted once
      before the pass and is not incremented by admissions during it. */
  datatype Ward = Ward(occupied: int, capacity: int, hosp: HubId, quar: HubId, cemetery: HubId)

  /** The random values one progression step of one agent consumes: uniform draws
      for the asymptomatic, quarantine and death trials, the Gaussian sample of the
      hospital stay, and the random point inside whatever hub the agent is sent to. */
  datatype BioDraws = BioDraws(asymp: real, quarantine: real, hospStay: real, death: real, spot: Point)

  /** The transitions progression may make in one step (infection, Susceptible to
      Latent, happens only through an infection trial). */
  predicate ProgressionEdge(s: HealthState, s': HealthState) {
    s == s' ||
    match s
    case Susceptible => false
    case Latent => s' == InfAsymp || s' == InfSymp
    case InfAsymp => s' == Dead || s' == Recovered
    case InfSymp => s' == Hospitalized || s' == Dead || s' == Recovered
    case Hospitalized => s' == Dead || s' == Recovered
    case Recovered => s' == Susceptible
    case Dead => false
  }

  /** Every agent that has ever been infected keeps an infectious duration of at least
      two days, so the shedding curve never divides by zero. */
  predicate Primed(s: HealthState, infDur: real) {
    (s == Latent || s.Shedding()) ==> infDur >= 2.0
  }

  // ---------------------------------------------------------------- infection

  /** `infect_agent`: the agent becomes Latent with freshly sampled durations, floored
      at 0.5 and 2.0 days, and the asymptomatic peak shedding, tripled for a
      superspreader. Nothing else changes. */
  function Infected(b: Bio, superspreader: bool, cfg: Params, latentSample: real, infSample: real): (r: Bio)
    ensures r.state == Latent && r.daysInState == 0.0
    ensures r.latentDur >= 0.5 && (latentSample >= 0.5 ==> r.latentDur == latentSample)
    ensures r.infDur >= 2.0 && (infSample >= 2.0 ==> r.infDur == infSample)
    ensures r.latentDur == MaxR(0.5, latentSample) && r.infDur == MaxR(2.0, infSample)
    ensures superspreader ==> r.peakShedding == 3.0 * cfg.sheddingAsymp
    ensures !superspreader ==> r.peakShedding == cfg.sheddingAsymp
    ensures r.immunity == b.immunity && r.inQuarantine == b.inQuarantine
    ensures r.aim == b.aim
    ensures Primed(r.state, r.infDur)
  {
    var base := cfg.sheddingAsymp;
    b.(state := Latent, daysInState := 0.0,
       latentDur := MaxR(0.5, latentSample), infDur := MaxR(2.0, infSample),
       peakShedding := if superspreader then base * 3.0 else base)
  }

  /** The susceptibility factor of the infection trial: one minus the protection of
      immunity and constitution, scaled down by an effective vaccine and mask. */
  function Susceptibility(immunity: real, t: Traits, cfg: Params): (s: real)
    ensures t.vaccinated && cfg.vaccineEfficacy == 1.0 ==> s == 0.0
    ensures t.masked && cfg.maskEfficacy == 1.0 ==> s == 0.0
    ensures !t.vaccinated && !t.masked ==> s == 1.0 - (immunity * cfg.immunityEfficacy + t.constitution * 0.2)
  {
    var s0 := 1.0 - (immunity * cfg.immunityEfficacy + t.constitution * 0.2);
    var s1 := if t.vaccinated then s0 * (1.0 - cfg.vaccineEfficacy) else s0;
    if t.masked then s1 * (1.0 - cfg.maskEfficacy) else s1
  }

  /** The infection trial succeeds when the uniform draw falls below the probability
      scaled by the susceptibility clamped at zero. A draw in [0, 1) never succeeds
      when the probability or the susceptibility is not positive. */
  function Catches(prob: real, draw: real, sus: real): (hit: bool)
    ensures draw >= 0.0 && (prob <= 0.0 || sus <= 0.0) ==> !hit
    ensures hit && draw >= 0.0 ==> prob > 0.0 && sus > 0.0
  {
    draw < prob * MaxR(0.0, sus)
  }

  /** A smaller draw succeeds wherever a larger one does. */
  lemma CatchesMonotone(prob: real, d1: real, d2: real, sus: real)
    requires d1 <= d2 && Catches(prob, d2, sus)
    ensures Catches(prob, d1, sus)
  {
  }

  /** `try_infect`: one infection trial against the agent, whatever its state. */
  function Trial(b: Bio, t: Traits, cfg: Params, prob: real, draw: real, latentSample: real, infSample: real): (r: Bio)
    ensures r == b || r == Infected(b, t.superspreader, cfg, latentSample, infSample)
    ensures draw >= 0.0 && prob <= 0.0 ==> r == b
    ensures r != b ==> Catches(prob, draw, Susceptibility(b.immunity, t, cfg))
    ensures Catches(prob, draw, Susceptibility(b.immunity, t, cfg)) ==> r == Infected(b, t.superspreader, cfg, latentSample, infSample)
    ensures r.immunity == b.immunity
    ensures Primed(b.state, b.infDur) ==> Primed(r.state, r.infDur)
  {
    if Catches(prob, draw, Susceptibility(b.immunity, t, cfg))
    then Infected(b, t.superspreader, cfg, latentSample, infSample)
    else b
  }

  // ---------------------------------------------------------------- progression

  /** Immunity decays by the given factor (exp(-waning * dt)) when positive; a Recovered
      agent whose immunity falls below 0.2 becomes Susceptible with immunity zero. */
  function Waned(b: Bio, factor: real): (r: Bio)
    ensures r.state != b.state ==> b.state == Recovered && r.state == Susceptible && r.immunity == 0.0
    ensures b.state == Recovered && r.state == Susceptible <==> b.state == Recovered && b.immunity > 0.0 && b.immunity * factor < 0.2
    ensures 0.0 <= b.immunity <= 1.0 && 0.0 <= factor <= 1.0 ==> 0.0 <= r.immunity <= b.immunity
    ensures r.(state := b.state, immunity := b.immunity) == b
  {
    if b.immunity > 0.0 then
      var imm := b.immunity * factor;
      if imm < 0.2 && b.state == Recovered then b.(state := Susceptible, immunity := 0.0)
      else b.(immunity := imm)
    else b
  }

  /** Waning spelled out for a given decayed immunity `imm`, so that callers need
      not reason about the product. */
  lemma WanedAt(b: Bio, factor: real, imm: real)
    requires b.immunity > 0.0 && imm == b.immunity * factor
    ensures Waned(b, factor) == if imm < 0.2 && b.state == Recovered then b.(state := Susceptible, immunity := 0.0)
                                else b.(immunity := imm)
  {
  }

  /** Probability that an agent leaving the latent state shows no symptoms. */
  function AsympProb(cfg: Params, vaccinated: bool, age: AgeGroup): (p: real)
    ensures !vaccinated && age == Adult ==> p == cfg.asympProb
    ensures vaccinated && age == Adult ==> p == cfg.asympProb + 0.4
    ensures !vaccinated && age == Child ==> p == cfg.asympProb + 0.2
    ensures vaccinated && age == Child ==> p == cfg.asympProb + 0.6
    ensures !vaccinated && age == Senior ==> p == cfg.asympProb - 0.2
    ensures vaccinated && age == Senior ==> p == cfg.asympProb + 0.2
    ensures cfg.asympProb - 0.2 <= p <= cfg.asympProb + 0.6
  {
    var p0 := cfg.asympProb + (if vaccinated then 0.4 else 0.0);
    var p1 := p0 + (if age == Child then 0.2 else 0.0);
    p1 - (if age == Senior then 0.2 else 0.0)
  }

  /** A newly symptomatic agent not yet in quarantine enters it, and heads there,
      when the quarantine draw succeeds. */
  function Isolated(b: Bio, w: Ward, cfg: Params, d: BioDraws): (r: Bio)
    ensures r == b || (!b.inQuarantine && r == b.(inQuarantine := true, aim := Retarget(b.aim, w.quar, d.spot)))
    ensures r != b <==> !b.inQuarantine && d.quarantine < cfg.quarantineRate
  {
    if !b.inQuarantine && d.quarantine < cfg.quarantineRate
    then b.(inQuarantine := true, aim := Retarget(b.aim, w.quar, d.spot))
    else b
  }

  /** Leaving the latent state: once the latent duration has elapsed the agent becomes
      asymptomatic or symptomatic (possibly quarantined), takes the peak shedding of
      its branch, tripled for a superspreader, and restarts its state clock. */
  function Onset(b: Bio, t: Traits, w: Ward, cfg: Params, d: BioDraws): (r: Bio)
    requires b.state == Latent
    ensures r.state == Latent || r.state == InfAsymp || r.state == InfSymp
    ensures r.state != Latent <==> b.daysInState >= b.latentDur
    ensures r.state == Latent ==> r == b
    ensures r.state != Latent ==> r.daysInState == 0.0
    ensures r.state == InfAsymp <==> b.daysInState >= b.latentDur && d.asymp < AsympProb(cfg, t.vaccinated, t.age)
    ensures r.state == InfAsymp ==> r.peakShedding == (if t.superspreader then 3.0 else 1.0) * cfg.sheddingAsymp
    ensures r.state == InfSymp ==> r.peakShedding == (if t.superspreader then 3.0 else 1.0) * cfg.sheddingSymp
    ensures r.inQuarantine != b.inQuarantine ==> r.state == InfSymp && r.inQuarantine && r.aim == Retarget(b.aim, w.quar, d.spot)
    ensures r.state == InfSymp ==> (r.inQuarantine != b.inQuarantine <==> !b.inQuarantine && d.quarantine < cfg.quarantineRate)
    ensures r.inQuarantine == b.inQuarantine ==> r.aim == b.aim
    ensures r.immunity == b.immunity && r.latentDur == b.latentDur && r.infDur == b.infDur
  {
    if b.daysInState >= b.latentDur then
      var c := if d.asymp < AsympProb(cfg, t.vaccinated, t.age)
        then b.(state := InfAsymp, peakShedding := cfg.sheddingAsymp)
        else Isolated(b.(state := InfSymp, peakShedding := cfg.sheddingSymp), w, cfg, d);
      c.(peakShedding := if t.superspreader then c.peakShedding * 3.0 else c.peakShedding,
         daysInState := 0.0)
    else b
  }

  /** Agents the engine treats as high risk: weak constitution or senior. */
  predicate HighRisk(t: Traits) {
    t.constitution < 0.4 || t.age == Senior
  }

  /** Admission: a high-risk agent symptomatic for more than two days is hospitalized
      when the bed count taken at the start of the pass is below capacity; admission
      clears quarantine and sends the agent to the hospital. (The stay length sampled
      on admission is stored by the engine and never read again.) */
  function Admitted(b: Bio, t: Traits, w: Ward, d: BioDraws): (r: Bio)
    requires b.state.Shedding()
    ensures r.state == b.state || (b.state == InfSymp && r.state == Hospitalized)
    ensures r.state != b.state <==> b.state == InfSymp && b.daysInState > 2.0 && HighRisk(t) && w.occupied < w.capacity
    ensures r.state != b.state ==> !r.inQuarantine && r.aim == Retarget(b.aim, w.hosp, d.spot)
    ensures r.state == b.state ==> r == b
    ensures r.immunity == b.immunity && r.daysInState == b.daysInState && r.infDur == b.infDur
  {
    if b.state == InfSymp && b.daysInState > 2.0 && HighRisk(t) && w.occupied < w.capacity
    then b.(state := Hospitalized, inQuarantine := false, aim := Retarget(b.aim, w.hosp, d.spot))
    else b
  }

  /** Daily mortality hazard of a shedding agent. */
  function MortalityHazard(s: HealthState, t: Traits, w: Ward, cfg: Params): (h: real)
    ensures cfg.baseMortality == 0.0 ==> h == 0.0
    ensures cfg.baseMortality >= 0.0 && cfg.hospMortalityMult >= 0.0 && cfg.noBedMult >= 0.0 ==> h >= 0.0
  {
    var h0 := if t.vaccinated then cfg.baseMortality * 0.1 else cfg.baseMortality;
    var h1 :=
      if s == Hospitalized then h0 * cfg.hospMortalityMult
      else if s == InfSymp && HighRisk(t) && w.occupied >= w.capacity then h0 * cfg.noBedMult
      else h0;
    var h2 := if t.age == Senior then h1 * 3.0 else h1;
    if t.age == Child then h2 * 0.1 else h2
  }

  /** Death or recovery of a shedding agent: death when the draw falls below
      1 - exp(-hazard * dt), otherwise recovery once the infectious duration has
      elapsed (for hospitalized agents too: the sampled stay is never consulted). */
  function Resolved(b: Bio, t: Traits, w: Ward, cfg: Params, dt: real, expNeg: NegExp, d: BioDraws): (r: Bio)
    requires Defined(expNeg)
    requires b.state.Shedding()
    ensures r.state == b.state || r.state == Dead || r.state == Recovered
    ensures r.state == Dead <==> d.death < Chance(expNeg, MortalityHazard(b.state, t, w, cfg), dt)
    ensures r.state == Dead ==> !r.inQuarantine && r.aim == Retarget(b.aim, w.cemetery, d.spot)
    ensures r.state == Recovered <==> r.state != Dead && b.daysInState >= b.infDur
    ensures r.state == Recovered ==> r.immunity == 1.0 && !r.inQuarantine
    ensures r.state == Recovered ==>
              r.aim == if t.currentHub == Some(w.hosp) || t.currentHub == Some(w.quar) then Retarget(b.aim, t.home, d.spot) else b.aim
    ensures r.state == b.state ==> r == b
    ensures r.daysInState == b.daysInState && r.latentDur == b.latentDur && r.infDur == b.infDur
  {
    var pDie := Chance(expNeg, MortalityHazard(b.state, t, w, cfg), dt);
    if d.death < pDie then
      b.(state := Dead, inQuarantine := false, aim := Retarget(b.aim, w.cemetery, d.spot))
    else if b.daysInState >= b.infDur then
      var c := b.(state := Recovered, immunity := 1.0, inQuarantine := false);
      if t.currentHub == Some(w.hosp) || t.currentHub == Some(w.quar)
      then c.(aim := Retarget(c.aim, t.home, d.spot))
      else c
    else b
  }

  /** `update_bio`: one progression step of one agent over `dt` days. Immunity wanes
      first (even for the dead); a dead agent changes nothing else; every other agent
      ages its state clock and, if latent, may show symptoms, or, if shedding, may be
      admitted and then die or recover. */
  function BioStep(b: Bio, t: Traits, w: Ward, cfg: Params, dt: real, expNeg: NegExp, d: BioDraws): (r: Bio)
    requires Defined(expNeg)
    ensures ProgressionEdge(b.state, r.state)
    ensures b.state == Dead ==> r == b.(immunity := r.immunity)
    ensures b.state == Recovered && r.state == Susceptible ==>
              r.immunity == 0.0 && b.immunity * Remaining(expNeg, cfg.immunityWaning, dt) < 0.2
    ensures b.state == Latent && r.state != Latent ==> r.daysInState == 0.0
    ensures b.state != Hospitalized && r.state == Hospitalized ==>
              b.state == InfSymp && w.occupied < w.capacity && HighRisk(t) && !r.inQuarantine && r.aim.hub == w.hosp
    ensures b.state != Dead && r.state == Dead ==> !r.inQuarantine && r.aim.hub == w.cemetery
    ensures b.state.Shedding() && r.state == Recovered ==>
              r.immunity == 1.0 && !r.inQuarantine && b.daysInState + dt >= b.infDur
    ensures 0.0 <= b.immunity <= 1.0 && 0.0 <= Remaining(expNeg, cfg.immunityWaning, dt) <= 1.0 ==> 0.0 <= r.immunity <= 1.0
    ensures r.latentDur == b.latentDur && r.infDur == b.infDur
    ensures Primed(b.state, b.infDur) ==> Primed(r.state, r.infDur)
  {
    var b1 := Waned(b, Remaining(expNeg, cfg.immunityWaning, dt));
    if b1.state == Dead then b1
    else
      var b2 := b1.(daysInState := b1.daysInState + dt);
      if b2.state == Latent then Onset(b2, t, w, cfg, d)
      else if b2.state.Shedding() then Resolved(Admitted(b2, t, w, d), t, w, cfg, dt, expNeg, d)
      else b2
  }

  /** The step admits the agent to hospital (the engine then also samples a length of
      stay): symptomatic, past its second day once the step is counted, high risk, and
      a bed free by the count taken before the pass. */
  predicate Admission(b: Bio, t: Traits, w: Ward, dt: real) {
    b.state == InfSymp && b.daysInState + dt > 2.0 && HighRisk(t) && w.occupied < w.capacity
  }

  /** An admitted agent ends the step in hospital, or already dead or recovered; an
      agent that ends the step newly in hospital was admitted. */
  lemma AdmissionOutcome(b: Bio, t: Traits, w: Ward, cfg: Params, dt: real, expNeg: NegExp, d: BioDraws)
    requires Defined(expNeg)
    ensures Admission(b, t, w, dt) ==> BioStep(b, t, w, cfg, dt, expNeg, d).state in {Hospitalized, Dead, Recovered}
    ensures b.state != Hospitalized && BioStep(b, t, w, cfg, dt, expNeg, d).state == Hospitalized ==> Admission(b, t, w, dt)
  {
    var b1 := Waned(b, Remaining(expNeg, cfg.immunityWaning, dt));
    if b.state == InfSymp {
      var b2 := b1.(daysInState := b1.daysInState + dt);
      assert b2.state == InfSymp && b2.daysInState == b.daysInState + dt;
      assert BioStep(b, t, w, cfg, dt, expNeg, d) == Resolved(Admitted(b2, t, w, d), t, w, cfg, dt, expNeg, d);
    }
  }

  /** An eligible agent that neither dies nor recovers in the step is in hospital
      after it. */
  lemma EligibleAdmitted(b: Bio, t: Traits, w: Ward, cfg: Params, dt: real, expNeg: NegExp, d: BioDraws)
    requires Defined(expNeg)
    requires Admission(b, t, w, dt) && b.daysInState + dt < b.infDur
    requires d.death >= Chance(expNeg, MortalityHazard(Hospitalized, t, w, cfg), dt)
    ensures BioStep(b, t, w, cfg, dt, expNeg, d).state == Hospitalized
  {
    var b1 := Waned(b, Remaining(expNeg, cfg.immunityWaning, dt));
    var b2 := b1.(daysInState := b1.daysInState + dt);
    assert b2.state == InfSymp && b2.daysInState == b.daysInState + dt && b2.infDur == b.infDur;
    var a := Admitted(b2, t, w, d);
    assert a.state == Hospitalized;
    assert BioStep(b, t, w, cfg, dt, expNeg, d) == Resolved(a, t, w, cfg, dt, expNeg, d);
  }

  /** The ward is counted once per pass and admissions do not update it: with one bed
      left, two eligible agents of the same pass are both admitted, so the hospital
      ends the pass holding one patient more than its capacity. */
  lemma OneBedTwoAdmissions(b1: Bio, t1: Traits, d1: BioDraws, b2: Bio, t2: Traits, d2: BioDraws,
                            w: Ward, cfg: Params, dt: real, expNeg: NegExp)
    requires Defined(expNeg)
    requires w.occupied == w.capacity - 1
    requires Admission(b1, t1, w, dt) && b1.daysInState + dt < b1.infDur
    requires Admission(b2, t2, w, dt) && b2.daysInState + dt < b2.infDur
    requires d1.death >= Chance(expNeg, MortalityHazard(Hospitalized, t1, w, cfg), dt)
    requires d2.death >= Chance(expNeg, MortalityHazard(Hospitalized, t2, w, cfg), dt)
    ensures BioStep(b1, t1, w, cfg, dt, expNeg, d1).state == Hospitalized
    ensures BioStep(b2, t2, w, cfg, dt, expNeg, d2).state == Hospitalized
    ensures w.occupied + 2 > w.capacity
  {
    EligibleAdmitted(b1, t1, w, cfg, dt, expNeg, d1);
    EligibleAdmitted(b2, t2, w, cfg, dt, expNeg, d2);
  }

  /** With zero base mortality (and exp(0) = 1) no agent ever dies, whatever happens. */
  lemma NoDeathWithoutMortality(b: Bio, t: Traits, w: Ward, cfg: Params, dt: real, expNeg: NegExp, d: BioDraws)
    requires Defined(expNeg)
    requires cfg.baseMortality == 0.0 && expNeg[0.0] == 1.0 && d.death >= 0.0
    requires b.state != Dead
    ensures BioStep(b, t, w, cfg, dt, expNeg, d).state != Dead
  {
    var b1 := Waned(b, Remaining(expNeg, cfg.immunityWaning, dt));
    var b2 := b1.(daysInState := b1.daysInState + dt);
    if b2.state.Shedding() {
      var a := Admitted(b2, t, w, d);
      assert BioStep(b, t, w, cfg, dt, expNeg, d) == Resolved(a, t, w, cfg, dt, expNeg, d);
      assert MortalityHazard(a.state, t, w, cfg) == 0.0;
    }
  }
}
