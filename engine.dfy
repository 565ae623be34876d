/** The engine: the world (hubs, agents, clock, statistics) and its update step.
    Every source of randomness, the exponential and the square root are parameters:
    each operation receives the draws it consumes. */
module Simulation {
  import opened Basics
  import opened Enums
  import opened Config
  import opened Hubs
  import opened Disease
  import opened Schedule
  import opened Entities
  import opened Transmission
  import opened SocialGraph
  import opened Census
  import opened Vaccination
  import opened World

  // ---------------------------------------------------------------- the clock

  /** The day clock: the tick (phase of the day), the day, and the update counter
      that drives the ticks. */
  datatype Clock = Clock(tick: nat, day: nat, count: real)

  /** The counter reaches a tick in this update. */
  predicate TickDue(c: Clock, speed: real) {
    c.count + speed >= UPDATES_PER_TICK
  }

  /** The clock after one update at the given speed: the counter grows by the speed;
      when it reaches `UPDATES_PER_TICK` it restarts at zero and the tick advances,
      wrapping from 2 to 0 and then starting the next day. */
  function Advanced(c: Clock, speed: real): (r: Clock)
    ensures c.tick <= 2 ==> r.tick <= 2
    ensures r.day == c.day || r.day == c.day + 1
    ensures r.day == c.day + 1 <==> TickDue(c, speed) && c.tick >= 2
    ensures c.tick <= 2 ==> (r.day == c.day + 1 <==> c.tick == 2 && r.tick == 0)
    ensures TickDue(c, speed) ==> r.count == 0.0
    ensures !TickDue(c, speed) ==> r.tick == c.tick && r.day == c.day && r.count == c.count + speed
  {
    var count := c.count + speed;
    if count >= UPDATES_PER_TICK then
      if c.tick + 1 > 2 then Clock(0, c.day + 1, 0.0) else Clock(c.tick + 1, c.day, 0.0)
    else Clock(c.tick, c.day, count)
  }

  /** The clock after `n` updates. */
  function Run(c: Clock, speed: real, n: nat): Clock
    decreases n
  {
    if n == 0 then c else Run(Advanced(c, speed), speed, n - 1)
  }

  /** Running `m + n` updates is running `m` and then `n`. */
  lemma {:induction false} RunSplit(c: Clock, speed: real, m: nat, n: nat)
    ensures Run(c, speed, m + n) == Run(Run(c, speed, m), speed, n)
    decreases m
  {
    if m > 0 {
      RunSplit(Advanced(c, speed), speed, m - 1, n);
    }
  }

  /** At speed 1, until the counter reaches a tick, each update adds one to it. */
  lemma {:induction false} CountsUp(c: Clock, n: nat)
    requires c.count + n as real < UPDATES_PER_TICK
    ensures Run(c, 1.0, n) == c.(count := c.count + n as real)
    decreases n
  {
    if n > 0 {
      var c' := Advanced(c, 1.0);
      assert c' == c.(count := c.count + 1.0);
      CountsUp(c', n - 1);
    }
  }

  /** At speed 1 a tick lasts exactly 600 updates. */
  lemma TickLength(c: Clock)
    requires c.count == 0.0 && c.tick <= 2
    ensures Run(c, 1.0, 600) == if c.tick == 2 then Clock(0, c.day + 1, 0.0) else Clock(c.tick + 1, c.day, 0.0)
  {
    var c' := c.(count := 599.0);
    assert Run(c, 1.0, 600) == Run(c', 1.0, 1) by {
      RunSplit(c, 1.0, 599, 1);
      CountsUp(c, 599);
    }
    assert Run(c', 1.0, 1) == Advanced(c', 1.0);
  }

  /** At speed 1 a day lasts 1800 updates, which is exactly the time the progression
      advances over those updates: 1800 steps of `DAYS_PER_UPDATE` make one day. */
  lemma DayLength(c: Clock)
    requires c.count == 0.0 && c.tick == 0
    ensures Run(c, 1.0, 1800) == Clock(0, c.day + 1, 0.0)
    ensures 1800.0 * StepDays(DEFAULTS) == 1.0
  {
    RunSplit(c, 1.0, 600, 1200);
    TickLength(c);
    var c1 := Clock(1, c.day, 0.0);
    RunSplit(c1, 1.0, 600, 600);
    TickLength(c1);
    TickLength(Clock(2, c.day, 0.0));
  }

  /** History is sampled in the updates whose counter, truncated, is a multiple of
      the sampling period (Python's `%` agrees with Dafny's for a positive divisor). */
  predicate SampleDue(count: real) {
    Trunc(count) % SAMPLE_PERIOD == 0
  }

  /** How an agent's state may change over one update: a progression edge, or
      infection by a trial followed by a progression edge out of Latent. */
  predicate StepEdge(s: HealthState, s': HealthState) {
    ProgressionEdge(s, s') || (s == Susceptible && ProgressionEdge(Latent, s'))
  }

  /** The daily-routine view of an agent the scheduler reads. */
  function Routine(p: Person): (r: Resident)
    reads p`state, p`inQuarantine, p`assignedHub
  {
    Resident(p.state, p.inQuarantine, p.age, p.mobility, p.home, p.assignedHub)
  }

  /** The random values one update consumes: the vaccination sample (agent indices),
      per agent the schedule draws and the point inside its new target hub, the
      movement draws, the infection-trial draws (one per structural edge) and the
      progression draws. */
  datatype StepDraws = StepDraws(
    vaccinations: seq<nat>,
    schedule: seq<SchedDraws>,
    spots: seq<Point>,
    moves: seq<MoveDraws>,
    trials: seq<seq<TrialDraws>>,
    bio: seq<BioDraws>)

  /** One location trial of `Exposed`, unfolded at position `k`. */
  lemma ExposedStep(b: Bio, t: Traits, keys: seq<HubId>, k: nat, edges: map<HubId, real>, loads: seq<real>,
                    hubs: seq<Hub>, cfg: Params, dt: real, expNeg: NegExp, draws: seq<TrialDraws>)
    requires Defined(expNeg) && k < |keys| && |draws| >= |keys| && KeysWithin(keys, edges, loads, hubs)
    requires forall j :: 0 <= j < |hubs| ==> hubs[j].capacity >= 0
    ensures KeysWithin(keys[k..], edges, loads, hubs) && KeysWithin(keys[k + 1..], edges, loads, hubs)
    ensures var h := keys[k];
            var b' := if edges[h] > EDGE_THRESHOLD && loads[h] > 0.0
                      then Trial(b, t, cfg, Chance(expNeg, LocationHazard(loads[h], hubs[h], edges[h], cfg), dt),
                                 draws[k].u, draws[k].latent, draws[k].inf)
                      else b;
            Exposed(b, t, keys[k..], edges, loads, hubs, cfg, dt, expNeg, draws[k..])
            == Exposed(b', t, keys[k + 1..], edges, loads, hubs, cfg, dt, expNeg, draws[k + 1..])
  {
    assert keys[k..][0] == keys[k] && keys[k..][1..] == keys[k + 1..];
    assert draws[k..][0] == draws[k] && draws[k..][1..] == draws[k + 1..];
  }

  /** Adding the next agent to a prefix of the population adds its deposit. */
  lemma LoadStep(sheds: seq<real>, edges: seq<map<HubId, real>>, i: nat, h: HubId)
    requires |sheds| == |edges| && i < |sheds|
    ensures Load(sheds[..i + 1], edges[..i + 1], h) == Load(sheds[..i], edges[..i], h) + Deposit(sheds[i], edges[i], h)
  {
    assert sheds[..i + 1][..i] == sheds[..i] && edges[..i + 1][..i] == edges[..i];
  }

  // ---------------------------------------------------------------- infection and seeding

  /** `infect_agent`: the agent becomes Latent as `Infected` says, with the given
      samples of its latent and infectious durations. */
  method InfectAgent(p: Person, cfg: Params, latentSample: real, infSample: real)
    modifies p`state, p`daysInState, p`latentDur, p`infDur, p`peakShedding
    ensures p.Bio() == Infected(old(p.Bio()), p.isSuperspreader, cfg, latentSample, infSample)
  {
    p.state := Latent;
    p.daysInState := 0.0;
    p.latentDur := MaxR(0.5, latentSample);
    p.infDur := MaxR(2.0, infSample);
    var baseShed := cfg.sheddingAsymp;
    if p.isSuperspreader {
      baseShed := baseShed * 3.0;
    }
    p.peakShedding := baseShed;
  }

  /** The seeding loop of `init_world`: each sampled agent of a healthy population
      is infected in turn, the `k`-th with the `k`-th duration samples; every other
      agent keeps its record. */
  method SeedInfections(agents: seq<Person>, cfg: Params, seeds: seq<nat>, onsets: seq<(real, real)>)
    requires Distinct(agents) && Distinct(seeds) && |onsets| == |seeds|
    requires forall k :: 0 <= k < |seeds| ==> seeds[k] < |agents|
    requires forall i :: 0 <= i < |agents| ==> agents[i].state == Susceptible
    modifies agents`state, agents`daysInState, agents`latentDur, agents`infDur, agents`peakShedding
    ensures StatesOf(agents) == Seeded(|agents|, seeds)
    ensures forall i :: 0 <= i < |agents| ==> Primed(agents[i].state, agents[i].infDur)
    ensures forall i :: 0 <= i < |agents| && i !in seeds ==> agents[i].Bio() == old(agents[i].Bio())
    ensures forall k :: 0 <= k < |seeds| ==>
              agents[seeds[k]].Bio() == Infected(old(agents[seeds[k]].Bio()), agents[seeds[k]].isSuperspreader, cfg, onsets[k].0, onsets[k].1)
  {
    for k := 0 to |seeds|
      invariant forall i :: 0 <= i < |agents| && i !in seeds[..k] ==> agents[i].Bio() == old(agents[i].Bio())
      invariant forall j :: 0 <= j < k ==>
                  agents[seeds[j]].Bio() == Infected(old(agents[seeds[j]].Bio()), agents[seeds[j]].isSuperspreader, cfg, onsets[j].0, onsets[j].1)
    {
      InfectAgent(agents[seeds[k]], cfg, onsets[k].0, onsets[k].1);
      assert seeds[..k + 1] == seeds[..k] + [seeds[k]];
    }
    assert seeds[..|seeds|] == seeds;
    forall i | 0 <= i < |agents|
      ensures agents[i].state == Seeded(|agents|, seeds)[i] && Primed(agents[i].state, agents[i].infDur)
    {
      if i in seeds {
        var k :| 0 <= k < |seeds| && seeds[k] == i;
      }
    }
  }

  /** Seeding a founded, healthy population: the seeds' states and durations as
      `SeedInfections` sets them, and the homes, hubs, edges and neighbour lists untouched. */
  method SeedWorld(agents: seq<Person>, hubs: seq<Hub>, l: Layout, ns: seq<Newcomer>, cfg: Params,
                   seeds: seq<nat>, onsets: seq<(real, real)>)
    requires Distinct(agents) && Distinct(seeds) && |onsets| == |seeds|
    requires forall k :: 0 <= k < |seeds| ==> seeds[k] < |agents|
    requires Founded(agents, hubs, l, ns) && Healthy(agents)
    modifies agents`state, agents`daysInState, agents`latentDur, agents`infDur, agents`peakShedding
    ensures Founded(agents, hubs, l, ns)
    ensures NeighboursOf(agents) == old(NeighboursOf(agents))
    ensures StatesOf(agents) == Seeded(|agents|, seeds)
    ensures PrimedAll(agents)
    ensures forall k :: 0 <= k < |seeds| ==>
              agents[seeds[k]].latentDur == MaxR(0.5, onsets[k].0) && agents[seeds[k]].infDur == MaxR(2.0, onsets[k].1)
  {
    SeedInfections(agents, cfg, seeds, onsets);
  }

  /** The world `init_world` builds: the population with its edge dictionaries and
      neighbour lists, then the initial infections. */
  method InitWorld(hubs: seq<Hub>, l: Layout, cfg: Params, ns: seq<Newcomer>, links: seq<(nat, nat)>,
                   seeds: seq<nat>, onsets: seq<(real, real)>)
    returns (agents: seq<Person>, dm: Demographics)
    requires WellFormed(hubs, l) && forall k :: 0 <= k < |ns| ==> Fits(ns[k], l)
    requires EdgesWithin(|ns|, links)
    requires IsSample(seeds, Below(|ns|), SeedCount(cfg, |ns|)) && |onsets| == |seeds|
    ensures Distinct(agents) && dm == Enrolled(ns)
    ensures Initialised(agents, hubs, l, ns, links, seeds, onsets)
  {
    agents, dm := Inhabit(hubs, l, cfg, ns, links);
    SeedWorld(agents, hubs, l, ns, cfg, seeds, onsets);
  }

  // ---------------------------------------------------------------- the engine

  class Engine {
    /** The locations; a hub's identity is its index. */
    const hubs: seq<Hub>
    /** The hubs the engine refers to by role. */
    const layout: Layout
    /** The agents; an agent's index is its id and its name in neighbour lists. */
    const agents: seq<Person>
    var tick: nat
    var day: nat
    var tickCount: real
    var paused: bool
    var history: History
    var demographics: Demographics
    /** The hospital's bed count, taken once per update. */
    var occupiedBeds: int
    /** The viral load of each hub, rebuilt every update. */
    var viralLoad: seq<real>

    /** `Engine()` with `init_world`: the agents are created one by one from their
        draws, linked along the edges of the generated social graph, and the sampled
        seeds are infected with their own duration samples; the clock, history and
        loads start empty. `seeds` is the sample of agent indices and `onsets` the
        latent and infectious duration samples of each seed. */
    constructor (hubs: seq<Hub>, layout: Layout, cfg: Params, ns: seq<Newcomer>, links: seq<(nat, nat)>,
                 seeds: seq<nat>, onsets: seq<(real, real)>)
      requires WellFormed(hubs, layout) && forall k :: 0 <= k < |hubs| ==> hubs[k].capacity >= 0
      requires |ns| == PopulationSize(cfg) && forall k :: 0 <= k < |ns| ==> Fits(ns[k], layout)
      requires EdgesWithin(|ns|, links)
      requires IsSample(seeds, Below(|ns|), SeedCount(cfg, |ns|)) && |onsets| == |seeds|
      ensures Valid()
      ensures Timing() == Clock(0, 0, 0.0) && !paused && history == EmptyHistory
      ensures demographics == Enrolled(ns) && occupiedBeds == 0
      ensures |viralLoad| == |hubs| && forall h :: 0 <= h < |hubs| ==> viralLoad[h] == 0.0
      ensures Initialised(agents, hubs, layout, ns, links, seeds, onsets)
    {
      var people, dm := InitWorld(hubs, layout, cfg, ns, links, seeds, onsets);
      this.hubs := hubs;
      this.layout := layout;
      this.agents := people;
      tick, day, tickCount, paused := 0, 0, 0.0, false;
      history, demographics := EmptyHistory, dm;
      occupiedBeds := 0;
      viralLoad := seq(|hubs|, h => 0.0);
    }

    /** The world as built: the hub roles are well formed, capacities are not
        negative, and the agents are different objects. */
    ghost predicate Grounded() {
      && WellFormed(hubs, layout)
      && (forall k :: 0 <= k < |hubs| ==> hubs[k].capacity >= 0)
      && Distinct(agents)
    }

    /** The engine's own state fits the world: one viral load per hub, a tick within
        the day, and aligned history series. */
    ghost predicate Shape()
      reads this`viralLoad, this`tick, this`history
    {
      && |viralLoad| == |hubs|
      && tick <= 2
      && Aligned(history)
    }

    /** Every agent's edge dictionary is well formed. */
    ghost predicate AllTied()
      reads agents`edgeKeys, agents`edges
    {
      Anchored(agents, hubs)
    }

    /** Every agent ever infected has an infectious duration of at least two days. */
    ghost predicate AllPrimed()
      reads agents`state, agents`infDur
    {
      PrimedAll(agents)
    }

    /** The invariant of the whole world. */
    ghost predicate Valid()
      reads this`viralLoad, this`tick, this`history
      reads agents`edgeKeys, agents`edges
      reads agents`state, agents`infDur
    {
      Grounded() && Shape() && AllTied() && AllPrimed()
    }

    /** The day clock. */
    function Timing(): Clock
      reads this`tick, this`day, this`tickCount
    {
      Clock(tick, day, tickCount)
    }

    /** The health state of every agent. */
    function States(): (s: seq<HealthState>)
      reads agents`state
      ensures |s| == |agents| && forall i :: 0 <= i < |agents| ==> s[i] == agents[i].state
    {
      StatesOf(agents)
    }

    /** The vaccination status of every agent. */
    function VaxStatuses(): (v: seq<bool>)
      reads agents`vaccinated
      ensures |v| == |agents| && forall i :: 0 <= i < |agents| ==> v[i] == agents[i].vaccinated
    {
      VaxOf(agents)
    }

    /** The neighbour list of every agent. */
    function Neighbours(): (adj: Lists)
      reads agents`neighbors
      ensures |adj| == |agents| && forall i :: 0 <= i < |agents| ==> adj[i] == agents[i].neighbors
    {
      NeighboursOf(agents)
    }

    /** What every agent sheds now. */
    function Sheds(maskEfficacy: real): (s: seq<real>)
      reads agents`state, agents`daysInState,
            agents`infDur, agents`peakShedding
      requires forall i :: 0 <= i < |agents| ==> (agents[i].state.Shedding() ==> agents[i].infDur != 0.0)
      ensures |s| == |agents| && forall i :: 0 <= i < |agents| ==> s[i] == agents[i].Shedding(maskEfficacy)
    {
      ShedsOf(agents, maskEfficacy)
    }

    /** The structural edges of every agent. */
    function EdgeMaps(): (m: seq<map<HubId, real>>)
      reads agents`edges
      ensures |m| == |agents| && forall i :: 0 <= i < |agents| ==> m[i] == agents[i].edges
    {
      EdgeMapsOf(agents)
    }

    // -------------------------------------------------------------- infection

    /** `try_infect`: one infection trial with probability `prob` against the agent,
        whatever its state, as `Trial` says. */
    method TryInfect(p: Person, cfg: Params, prob: real, d: TrialDraws)
      modifies p`state, p`daysInState, p`latentDur, p`infDur, p`peakShedding
      ensures p.Bio() == Trial(old(p.Bio()), p.Traits(), cfg, prob, d.u, d.latent, d.inf)
    {
      var susFactor := 1.0 - (p.immunity * cfg.immunityEfficacy + p.constitution * 0.2);
      if p.vaccinated {
        susFactor := susFactor * (1.0 - cfg.vaccineEfficacy);
      }
      if p.masked {
        susFactor := susFactor * (1.0 - cfg.maskEfficacy);
      }
      if d.u < prob * MaxR(0.0, susFactor) {
        InfectAgent(p, cfg, d.latent, d.inf);
      }
    }

    /** One location trial of the loop: only through a strong edge to a hub carrying
        virus, with the hub's hazard. */
    method ExposeAt(p: Person, t: Traits, cfg: Params, dt: real, expNeg: NegExp,
                    weight: real, load: real, hub: Hub, d: TrialDraws)
      requires Defined(expNeg) && hub.capacity >= 0 && t == p.Traits()
      modifies p`state, p`daysInState, p`latentDur, p`infDur, p`peakShedding
      ensures p.Bio() == if weight > EDGE_THRESHOLD && load > 0.0
                         then Trial(old(p.Bio()), t, cfg, Chance(expNeg, LocationHazard(load, hub, weight, cfg), dt), d.u, d.latent, d.inf)
                         else old(p.Bio())
    {
      if weight > EDGE_THRESHOLD && load > 0.0 {
        var prob := Chance(expNeg, LocationHazard(load, hub, weight, cfg), dt);
        TryInfect(p, cfg, prob, d);
      }
    }

    /** The location trials of one agent (the second pass of the transmission step):
        an agent found susceptible undergoes, for each structural edge in insertion
        order heavier than the threshold and leading to a hub carrying virus, one
        infection trial with the hub's hazard; any other agent is skipped. */
    method ExposeAgent(p: Person, cfg: Params, dt: real, expNeg: NegExp, draws: seq<TrialDraws>)
      requires Defined(expNeg) && KeysWithin(p.edgeKeys, p.edges, viralLoad, hubs)
      requires (forall k :: 0 <= k < |hubs| ==> hubs[k].capacity >= 0) && |draws| >= |p.edgeKeys|
      modifies p`state, p`daysInState, p`latentDur, p`infDur, p`peakShedding
      ensures p.Bio() == if old(p.state) == Susceptible
                         then Exposed(old(p.Bio()), p.Traits(), p.edgeKeys, p.edges, viralLoad, hubs, cfg, dt, expNeg, draws)
                         else old(p.Bio())
    {
      if p.state != Susceptible {
        return;
      }
      var keys, edges, t := p.edgeKeys, p.edges, p.Traits();
      var loads, hs := viralLoad, hubs;
      ghost var goal := Exposed(p.Bio(), t, keys, edges, loads, hs, cfg, dt, expNeg, draws);
      for k := 0 to |keys|
        invariant Exposed(p.Bio(), t, keys[k..], edges, loads, hs, cfg, dt, expNeg, draws[k..]) == goal
      {
        ghost var b := p.Bio();
        ExposeAt(p, t, cfg, dt, expNeg, edges[keys[k]], loads[keys[k]], hs[keys[k]], draws[k]);
        ExposedStep(b, t, keys, k, edges, loads, hs, cfg, dt, expNeg, draws);
      }
    }
    // -------------------------------------------------------------- progression

    /** The hospital as the progression pass sees it: the bed count taken before the
        pass, the hospital's capacity and the hubs agents are sent to. */
    function Beds(): (w: Ward)
      reads this`occupiedBeds
      requires layout.hosp < |hubs|
      ensures w.occupied == occupiedBeds && w.capacity == hubs[layout.hosp].capacity
      ensures w.hosp == layout.hosp && w.quar == layout.quar && w.cemetery == layout.cemetery
    {
      Ward(occupiedBeds, hubs[layout.hosp].capacity, layout.hosp, layout.quar, layout.cemetery)
    }

    /** Immunity decays by exp(-waning * dt) when positive; a Recovered agent left
        with less than 0.2 becomes Susceptible with no immunity. */
    method WaneImmunity(p: Person, cfg: Params, dt: real, expNeg: NegExp)
      requires Defined(expNeg)
      modifies p`state, p`immunity
      ensures p.Bio() == Waned(old(p.Bio()), Remaining(expNeg, cfg.immunityWaning, dt))
    {
      var factor := Remaining(expNeg, cfg.immunityWaning, dt);
      if p.immunity > 0.0 {
        var imm := p.immunity * factor;
        WanedAt(p.Bio(), factor, imm);
        p.immunity := imm;
        if imm < 0.2 && p.state == Recovered {
          p.state := Susceptible;
          p.immunity := 0.0;
        }
      }
    }

    /** The latent branch of `update_bio`: once the latent duration has elapsed the
        agent shows symptoms or not, as `Onset` says. */
    method ShowSymptoms(p: Person, w: Ward, cfg: Params, d: BioDraws)
      requires p.state == Latent
      modifies p`state, p`daysInState, p`inQuarantine, p`peakShedding, p`target, p`targetPos
      ensures p.Bio() == Onset(old(p.Bio()), p.Traits(), w, cfg, d)
    {
      if p.daysInState >= p.latentDur {
        p.state := InfSymp;
        var probAsymp := cfg.asympProb;
        if p.vaccinated {
          probAsymp := probAsymp + 0.4;
        }
        if p.age == Child {
          probAsymp := probAsymp + 0.2;
        }
        if p.age == Senior {
          probAsymp := probAsymp - 0.2;
        }
        if d.asymp < probAsymp {
          p.state := InfAsymp;
          p.peakShedding := cfg.sheddingAsymp;
        } else {
          p.state := InfSymp;
          p.peakShedding := cfg.sheddingSymp;
          if !p.inQuarantine && d.quarantine < cfg.quarantineRate {
            p.inQuarantine := true;
            p.SetTarget(w.quar, d.spot);
          }
        }
        if p.isSuperspreader {
          p.peakShedding := p.peakShedding * 3.0;
        }
        p.daysInState := 0.0;
      }
    }

    /** Hospital admission, as `Admitted` says; an admitted agent also gets a length
        of stay of at least two days, which nothing reads afterwards. */
    method Admit(p: Person, w: Ward, d: BioDraws)
      requires p.state.Shedding()
      modifies p`state, p`inQuarantine, p`hospitalStayDur, p`target, p`targetPos
      ensures p.Bio() == Admitted(old(p.Bio()), p.Traits(), w, d)
      ensures p.hospitalStayDur == if p.state != old(p.state) then MaxR(2.0, d.hospStay) else old(p.hospitalStayDur)
    {
      if p.state == InfSymp && p.daysInState > 2.0 {
        if p.constitution < 0.4 || p.age == Senior {
          if p.state != Hospitalized {
            if w.occupied < w.capacity {
              p.state := Hospitalized;
              p.inQuarantine := false;
              p.SetTarget(w.hosp, d.spot);
              p.hospitalStayDur := MaxR(2.0, d.hospStay);
            }
          }
        }
      }
    }

    /** The mortality trial and, failing it, recovery, as `Resolved` says. */
    method Resolve(p: Person, w: Ward, cfg: Params, dt: real, expNeg: NegExp, d: BioDraws)
      requires Defined(expNeg) && p.state.Shedding()
      modifies p`state, p`immunity, p`inQuarantine, p`target, p`targetPos
      ensures p.Bio() == Resolved(old(p.Bio()), p.Traits(), w, cfg, dt, expNeg, d)
    {
      var hazard := MortalityHazard(p.state, p.Traits(), w, cfg);
      var pDie := 1.0 - Remaining(expNeg, hazard, dt);
      if d.death < pDie {
        p.state := Dead;
        p.inQuarantine := false;
        p.SetTarget(w.cemetery, d.spot);
      } else if p.daysInState >= p.infDur {
        p.state := Recovered;
        p.immunity := 1.0;
        p.inQuarantine := false;
        if p.currentHub == Some(w.hosp) || p.currentHub == Some(w.quar) {
          p.SetTarget(p.home, d.spot);
        }
      }
    }

    /** `update_bio`: one progression step of one agent, exactly as `BioStep` says,
        with the stay length sampled exactly when `Admission` holds. */
    method UpdateBio(p: Person, w: Ward, cfg: Params, dt: real, expNeg: NegExp, d: BioDraws)
      requires Defined(expNeg)
      modifies p`state, p`daysInState, p`immunity, p`inQuarantine, p`peakShedding, p`hospitalStayDur,
               p`target, p`targetPos
      ensures p.Bio() == BioStep(old(p.Bio()), p.Traits(), w, cfg, dt, expNeg, d)
      ensures p.hospitalStayDur == if Admission(old(p.Bio()), p.Traits(), w, dt) then MaxR(2.0, d.hospStay)
                                   else old(p.hospitalStayDur)
      ensures ProgressionEdge(old(p.state), p.state)
      ensures Primed(old(p.state), p.infDur) ==> Primed(p.state, p.infDur)
    {
      WaneImmunity(p, cfg, dt, expNeg);
      if p.state == Dead {
        return;
      }
      p.daysInState := p.daysInState + dt;
      if p.state == Latent {
        ShowSymptoms(p, w, cfg, d);
      } else if p.state.Shedding() {
        Admit(p, w, d);
        Resolve(p, w, cfg, dt, expNeg, d);
      }
    }

    /** Agent `p`, which had health record `b0` and stay length `stay0`, has taken its
        progression step. */
    ghost predicate Progressed(p: Person, b0: Bio, stay0: real, w: Ward, cfg: Params, dt: real, expNeg: NegExp, d: BioDraws)
      reads p`state, p`daysInState, p`immunity, p`inQuarantine, p`latentDur, p`infDur, p`peakShedding,
            p`hospitalStayDur, p`target, p`targetPos, p`vaccinated, p`currentHub
      requires Defined(expNeg)
    {
      && p.Bio() == BioStep(b0, p.Traits(), w, cfg, dt, expNeg, d)
      && p.hospitalStayDur == if Admission(b0, p.Traits(), w, dt) then MaxR(2.0, d.hospStay) else stay0
    }

    /** The progression pass: every agent, in order, takes its `update_bio` step
        against the same ward, whatever the admissions made earlier in the pass. */
    method ProgressAll(w: Ward, cfg: Params, dt: real, expNeg: NegExp, bio: seq<BioDraws>)
      requires Defined(expNeg) && Distinct(agents) && AllPrimed() && |bio| == |agents|
      modifies agents`state, agents`daysInState,
               agents`immunity, agents`inQuarantine,
               agents`peakShedding, agents`hospitalStayDur,
               agents`target, agents`targetPos
      ensures AllPrimed()
      ensures forall i :: 0 <= i < |agents| ==> ProgressionEdge(old(agents[i].state), agents[i].state)
      ensures forall i {:trigger Progressed(agents[i], old(agents[i].Bio()), old(agents[i].hospitalStayDur), w, cfg, dt, expNeg, bio[i])} :: 0 <= i < |agents| ==>
                Progressed(agents[i], old(agents[i].Bio()), old(agents[i].hospitalStayDur), w, cfg, dt, expNeg, bio[i])
    {
      for i := 0 to |agents|
        invariant forall j :: 0 <= j < i ==>
                    Progressed(agents[j], old(agents[j].Bio()), old(agents[j].hospitalStayDur), w, cfg, dt, expNeg, bio[j])
        invariant forall j :: 0 <= j < i ==>
                    ProgressionEdge(old(agents[j].state), agents[j].state) && Primed(agents[j].state, agents[j].infDur)
        invariant forall j :: i <= j < |agents| ==>
                    agents[j].Bio() == old(agents[j].Bio()) && agents[j].hospitalStayDur == old(agents[j].hospitalStayDur)
      {
        UpdateBio(agents[i], w, cfg, dt, expNeg, bio[i]);
      }
    }

    // -------------------------------------------------------------- counting

    /** The number of vaccinated agents, counted one by one. */
    method CountVaccinated() returns (n: nat)
      ensures n == |VaxSet(VaxStatuses())|
    {
      ghost var vax := VaxStatuses();
      n := 0;
      for i := 0 to |agents|
        invariant n == |VaxSet(vax[..i])|
      {
        assert VaxSet(vax[..i + 1]) == VaxSet(vax[..i]) + (if vax[i] then {i} else {});
        if agents[i].vaccinated {
          n := n + 1;
        }
      }
      assert vax[..|agents|] == vax;
    }

    /** The census of the history sample, counted one agent at a time. */
    method TakeCensus() returns (c: Census)
      requires Valid()
      ensures Valid()
      ensures c == CensusOf(States())
    {
      ghost var states := States();
      c := Census(0, 0, 0, 0, 0);
      for i := 0 to |agents|
        invariant c == CensusOf(states[..i])
      {
        c := Tally(c, agents[i].state);
        CensusStep(states, i);
      }
      assert states[..|agents|] == states;
    }

    /** History sampling: the census of the agents is appended to the history. */
    method SampleHistory()
      requires Valid()
      modifies this`history
      ensures Valid() && States() == old(States())
      ensures history == Record(old(history), CensusOf(States()))
    {
      var c := TakeCensus();
      AppendSample(c);
    }

    /** Each series gets its census count appended and, once longer than the chart,
        all five lose their oldest sample together. */
    method AppendSample(c: Census)
      requires Valid()
      modifies this`history
      ensures Valid() && States() == old(States())
      ensures history == Record(old(history), c)
    {
      ghost var h0 := history;
      history := History(history.s + [c.s], history.active + [c.active], history.r + [c.r],
                         history.d + [c.d], history.h + [c.h]);
      if |history.s| > PANEL_W - 40 {
        history := History(history.s[1..], history.active[1..], history.r[1..], history.d[1..], history.h[1..]);
      }
      assert history.s == Slide(h0.s, c.s) && history.active == Slide(h0.active, c.active);
      assert history.r == Slide(h0.r, c.r) && history.d == Slide(h0.d, c.d) && history.h == Slide(h0.h, c.h);
    }

    // -------------------------------------------------------------- clock

    /** The clock phase of the update: the counter grows by the speed and, when it
        reaches a tick, restarts; `due` says that the schedule must be applied. */
    method AdvanceClock(cfg: Params) returns (due: bool)
      modifies this`tick, this`day, this`tickCount
      ensures due == TickDue(old(Timing()), cfg.simSpeed)
      ensures Timing() == Advanced(old(Timing()), cfg.simSpeed)
    {
      tickCount := tickCount + 1.0 * cfg.simSpeed;
      due := tickCount >= UPDATES_PER_TICK;
      if due {
        tickCount := 0.0;
        tick := tick + 1;
        if tick > 2 {
          tick := 0;
          day := day + 1;
        }
      }
    }

    // -------------------------------------------------------------- viral load

    /** The per-update reset of every hub's viral load. */
    method ClearLoads()
      requires |viralLoad| == |hubs|
      modifies this`viralLoad
      ensures |viralLoad| == |hubs|
      ensures |viralLoad| == |hubs| && forall h :: 0 <= h < |hubs| ==> viralLoad[h] == 0.0
    {
      for h := 0 to |hubs|
        invariant |viralLoad| == |hubs|
        invariant forall j :: 0 <= j < h ==> viralLoad[j] == 0.0
      {
        viralLoad := viralLoad[h := 0.0];
      }
    }

    /** One agent's deposits: if it sheds, each of its edges heavier than the threshold,
        in insertion order, adds the shedding times the weight to the hub's load. */
    method DepositAgent(p: Person, shed: real)
      requires p.Valid() && forall h :: h in p.edges ==> h < |viralLoad|
      modifies this`viralLoad
      ensures |viralLoad| == |old(viralLoad)|
      ensures forall h :: 0 <= h < |viralLoad| ==> viralLoad[h] == old(viralLoad[h]) + Deposit(shed, p.edges, h)
    {
      if shed > 0.0 {
        var keys := p.edgeKeys;
        for k := 0 to |keys|
          invariant |viralLoad| == |old(viralLoad)|
          invariant forall h :: 0 <= h < |viralLoad| ==>
                      viralLoad[h] == old(viralLoad[h]) + (if h in keys[..k] then Deposit(shed, p.edges, h) else 0.0)
        {
          var h := keys[k];
          var weight := p.edges[h];
          if weight > EDGE_THRESHOLD {
            viralLoad := viralLoad[h := viralLoad[h] + shed * weight];
          }
          assert keys[..k + 1] == keys[..k] + [h];
        }
        assert keys[..|keys|] == keys;
      }
    }

    /** The first pass of the transmission step: every agent adds what it sheds to the
        hubs it is strongly tied to, so each hub gains exactly `Load` of the agents'
        sheddings and edges. */
    method AccumulateLoads(cfg: Params)
      requires AllTied() && AllPrimed() && |viralLoad| == |hubs|
      modifies this`viralLoad
      ensures |viralLoad| == |hubs|
      ensures forall h :: 0 <= h < |hubs| ==> viralLoad[h] == old(viralLoad[h]) + Load(Sheds(cfg.maskEfficacy), EdgeMaps(), h)
    {
      ghost var sheds, maps := Sheds(cfg.maskEfficacy), EdgeMaps();
      for i := 0 to |agents|
        invariant |viralLoad| == |hubs|
        invariant forall h :: 0 <= h < |hubs| ==> viralLoad[h] == old(viralLoad[h]) + Load(sheds[..i], maps[..i], h)
      {
        var p := agents[i];
        var shed := p.Shedding(cfg.maskEfficacy);
        DepositAgent(p, shed);
        forall h | 0 <= h < |hubs|
          ensures viralLoad[h] == old(viralLoad[h]) + Load(sheds[..i + 1], maps[..i + 1], h)
        {
          LoadStep(sheds, maps, i, h);
        }
      }
      assert sheds[..|agents|] == sheds && maps[..|agents|] == maps;
      assert Sheds(cfg.maskEfficacy) == sheds && EdgeMaps() == maps;
    }
    /** An agent's edge keys name hubs with a viral load. */
    lemma KeysOk(p: Person)
      requires Tethered(p, hubs) && |viralLoad| == |hubs|
      ensures KeysWithin(p.edgeKeys, p.edges, viralLoad, hubs)
      ensures |p.edgeKeys| <= |hubs|
    {
      forall k | 0 <= k < |p.edgeKeys|
        ensures p.edgeKeys[k] in p.edges && p.edgeKeys[k] < |hubs|
      {
        assert p.edgeKeys[k] in p.edgeKeys;
      }
      DistinctBelow(p.edgeKeys, |hubs|);
    }

    /** Every agent's edge keys name hubs with a viral load. */
    lemma AllKeysOk()
      requires AllTied() && |viralLoad| == |hubs|
      ensures forall i :: 0 <= i < |agents| ==> KeysWithin(agents[i].edgeKeys, agents[i].edges, viralLoad, hubs)
      ensures forall i :: 0 <= i < |agents| ==> |agents[i].edgeKeys| <= |hubs|
    {
      forall i | 0 <= i < |agents|
        ensures KeysWithin(agents[i].edgeKeys, agents[i].edges, viralLoad, hubs)
        ensures |agents[i].edgeKeys| <= |hubs|
      {
        KeysOk(agents[i]);
      }
    }

    /** The health record of agent `p` after its location trials, from the record `b0`
        it had before them: `Exposed` if it was susceptible, `b0` otherwise. */
    function AfterTrials(b0: Bio, p: Person, cfg: Params, dt: real, expNeg: NegExp, draws: seq<TrialDraws>): Bio
      reads this`viralLoad, p`edgeKeys, p`edges, p`vaccinated, p`currentHub
      requires Defined(expNeg) && |draws| >= |p.edgeKeys| && KeysWithin(p.edgeKeys, p.edges, viralLoad, hubs)
      requires forall k :: 0 <= k < |hubs| ==> hubs[k].capacity >= 0
    {
      if b0.state == Susceptible
      then Exposed(b0, p.Traits(), p.edgeKeys, p.edges, viralLoad, hubs, cfg, dt, expNeg, draws)
      else b0
    }

    /** The second pass of the transmission step over all agents: each agent found
        susceptible undergoes its location trials as `Exposed` says, with its own
        draws; the others are untouched. */
    method ExposeAll(cfg: Params, dt: real, expNeg: NegExp, trials: seq<seq<TrialDraws>>)
      requires Defined(expNeg) && Distinct(agents) && forall k :: 0 <= k < |hubs| ==> hubs[k].capacity >= 0
      requires forall i :: 0 <= i < |agents| ==> KeysWithin(agents[i].edgeKeys, agents[i].edges, viralLoad, hubs)
      requires |trials| == |agents| && forall i :: 0 <= i < |agents| ==> |trials[i]| >= |agents[i].edgeKeys|
      requires AllPrimed()
      modifies agents`state, agents`daysInState,
               agents`latentDur, agents`infDur,
               agents`peakShedding
      ensures AllPrimed()
      ensures forall i :: 0 <= i < |agents| ==>
                agents[i].state == old(agents[i].state) || (old(agents[i].state) == Susceptible && agents[i].state == Latent)
      ensures forall i :: 0 <= i < |agents| ==>
                agents[i].Bio() == AfterTrials(old(agents[i].Bio()), agents[i], cfg, dt, expNeg, trials[i])
    {
      for i := 0 to |agents|
        invariant forall j :: 0 <= j < i ==>
                    agents[j].Bio() == AfterTrials(old(agents[j].Bio()), agents[j], cfg, dt, expNeg, trials[j])
        invariant forall j :: i <= j < |agents| ==> agents[j].Bio() == old(agents[j].Bio())
      {
        ExposeAgent(agents[i], cfg, dt, expNeg, trials[i]);
      }
      forall j | 0 <= j < |agents|
        ensures Primed(agents[j].state, agents[j].infDur)
        ensures agents[j].state == old(agents[j].state) || (old(agents[j].state) == Susceptible && agents[j].state == Latent)
      {
        assert old(Primed(agents[j].state, agents[j].infDur));
      }
    }

    // -------------------------------------------------------------- vaccination

    /** Setting the vaccination status of the sampled agents. */
    method SetVaccinated(sample: seq<nat>, value: bool)
      requires Distinct(agents) && forall j :: 0 <= j < |sample| ==> sample[j] < |agents|
      modifies agents`vaccinated
      ensures forall i :: 0 <= i < |agents| ==> agents[i].vaccinated == if i in sample then value else old(agents[i].vaccinated)
    {
      for j := 0 to |sample|
        invariant forall i :: 0 <= i < |agents| ==>
                    agents[i].vaccinated == if i in sample[..j] then value else old(agents[i].vaccinated)
      {
        agents[sample[j]].vaccinated := value;
        assert sample[..j + 1] == sample[..j] + [sample[j]];
      }
      assert sample[..|sample|] == sample;
    }

    /** The vaccination phase of the update, given the sample `random.sample` draws
        from the pool: below target the sampled candidates are vaccinated, above it the
        sampled vaccinated agents lose their vaccination, on target nothing happens
        (`ControlledCount` gives the resulting count). */
    method Vaccinate(cfg: Params, sample: seq<nat>)
      requires Distinct(agents)
      requires IsSample(sample, Pool(VaxStatuses(), States(), cfg), VaxCap(cfg))
      modifies agents`vaccinated
      ensures VaxStatuses() == Controlled(old(VaxStatuses()), cfg, sample)
    {
      ghost var vax, states := VaxStatuses(), States();
      var current := CountVaccinated();
      var target := VaxTarget(|agents|, cfg);
      ghost var up := Raising(vax, cfg);
      assert up <==> current < target;
      assert forall j :: 0 <= j < |sample| ==> sample[j] < |agents|;
      if current < target {
        SetVaccinated(sample, true);
      } else if current > target {
        SetVaccinated(sample, false);
      } else {
        assert sample == [];
      }
      forall i | 0 <= i < |agents|
        ensures VaxStatuses()[i] == Controlled(vax, cfg, sample)[i]
      {
      }
    }

    // -------------------------------------------------------------- schedule

    /** `apply_schedule` for one agent: the agent is retargeted to the hub `Plan`
        picks, walking to `spot` in it (a hub already targeted keeps its point). */
    method ScheduleAgent(p: Person, cfg: Params, d: SchedDraws, spot: Point)
      requires tick <= 2 && d.house < |layout.households|
      modifies p`target, p`targetPos
      ensures p.Aiming() == Retarget(old(p.Aiming()), Plan(Routine(p), tick, day, cfg, layout, d).value, spot)
    {
      var isWeekend := day % 7 >= 5;
      var social := cfg.socialEngagement;
      var isLockdown := social < 0.4;
      if p.state == Dead {
        p.SetTarget(layout.cemetery, spot);
        return;
      }
      if p.state == Hospitalized {
        p.SetTarget(layout.hosp, spot);
        return;
      }
      if p.inQuarantine {
        p.SetTarget(layout.quar, spot);
        return;
      }
      if p.state == InfSymp {
        p.SetTarget(p.home, spot);
        return;
      }
      if tick == 0 {
        if isWeekend {
          if d.outing < 0.5 * social {
            var r := d.venue;
            if r < 0.4 {
              p.SetTarget(layout.park, spot);
            } else if r < 0.7 {
              p.SetTarget(layout.market, spot);
            } else {
              p.SetTarget(layout.cafe, spot);
            }
          } else {
            p.SetTarget(p.home, spot);
          }
        } else if isLockdown {
          if d.outing < 0.02 {
            p.SetTarget(layout.market, spot);
          } else {
            p.SetTarget(p.home, spot);
          }
        } else if p.age == Senior || p.mobility == Low {
          if d.outing < 0.15 {
            p.SetTarget(layout.market, spot);
          } else {
            p.SetTarget(p.home, spot);
          }
        } else if p.assignedHub.Some? {
          if d.outing < 0.95 {
            p.SetTarget(p.assignedHub.value, spot);
          } else {
            p.SetTarget(p.home, spot);
          }
        } else {
          p.SetTarget(p.home, spot);
        }
      } else if tick == 1 {
        if isLockdown {
          p.SetTarget(p.home, spot);
        } else if p.mobility == High && d.cafe < 0.3 * social {
          p.SetTarget(layout.cafe, spot);
        } else if d.visit < 0.2 * social {
          p.SetTarget(layout.households[d.house], spot);
        } else if d.market < 0.2 * social {
          p.SetTarget(layout.market, spot);
        } else {
          p.SetTarget(p.home, spot);
        }
      } else if tick == 2 {
        p.SetTarget(p.home, spot);
      }
    }

    /** `apply_schedule`: every agent, in order, is retargeted as `Plan` says for the
        current tick and day, with its own draws and point. */
    method ApplySchedule(cfg: Params, draws: seq<SchedDraws>, spots: seq<Point>)
      requires Distinct(agents) && tick <= 2
      requires |draws| == |agents| && |spots| == |agents|
      requires forall i :: 0 <= i < |draws| ==> draws[i].house < |layout.households|
      modifies agents`target, agents`targetPos
      ensures forall i :: 0 <= i < |agents| ==>
                agents[i].Aiming() == Retarget(old(agents[i].Aiming()), Plan(Routine(agents[i]), tick, day, cfg, layout, draws[i]).value, spots[i])
    {
      for i := 0 to |agents|
        invariant forall j :: 0 <= j < i ==>
                    agents[j].Aiming() == Retarget(old(agents[j].Aiming()), Plan(Routine(agents[j]), tick, day, cfg, layout, draws[j]).value, spots[j])
        invariant forall j :: i <= j < |agents| ==> agents[j].Aiming() == old(agents[j].Aiming())
      {
        ScheduleAgent(agents[i], cfg, draws[i], spots[i]);
      }
    }

    // -------------------------------------------------------------- movement

    /** The movement phase: every agent makes its `move_spatial` step, in order. */
    method MoveAll(dt: real, root: Root, moves: seq<MoveDraws>)
      requires Distinct(agents) && AllTied() && IsRoot(root) && |moves| == |agents|
      modifies agents`simPos, agents`currentHub,
               agents`edges
      ensures AllTied()
      ensures forall i :: 0 <= i < |agents| ==>
                if old(agents[i].Resting(hubs))
                then agents[i].Whereabouts() == old(agents[i].Whereabouts()) && agents[i].edges == old(agents[i].edges)
                else agents[i].Whereabouts() == Moved(old(agents[i].Whereabouts()), agents[i].state == Dead, agents[i].Aiming(), dt, root, moves[i])
                     && agents[i].edges == FadeAll(old(agents[i].edges), agents[i].currentHub, 5.0 * dt)
    {
      for i := 0 to |agents|
        invariant AllTied()
        invariant forall j :: 0 <= j < i ==>
                    if old(agents[j].Resting(hubs))
                    then agents[j].Whereabouts() == old(agents[j].Whereabouts()) && agents[j].edges == old(agents[j].edges)
                    else agents[j].Whereabouts() == Moved(old(agents[j].Whereabouts()), agents[j].state == Dead, agents[j].Aiming(), dt, root, moves[j])
                         && agents[j].edges == FadeAll(old(agents[j].edges), agents[j].currentHub, 5.0 * dt)
        invariant forall j :: i <= j < |agents| ==> agents[j].Whereabouts() == old(agents[j].Whereabouts()) && agents[j].edges == old(agents[j].edges)
      {
        agents[i].MoveSpatial(dt, hubs, root, moves[i]);
      }
    }

    // -------------------------------------------------------------- update

    /** The first phases of an update: the vaccination controller, the clock and,
        when a tick is due, the schedule. */
    method Prepare(cfg: Params, draws: StepDraws)
      requires Distinct(agents) && tick <= 2
      requires IsSample(draws.vaccinations, Pool(VaxStatuses(), States(), cfg), VaxCap(cfg))
      requires |draws.schedule| == |agents| && |draws.spots| == |agents|
      requires forall i :: 0 <= i < |agents| ==> draws.schedule[i].house < |layout.households|
      modifies this`tick, this`day, this`tickCount
      modifies agents`vaccinated,
               agents`target, agents`targetPos
      ensures Timing() == Advanced(old(Timing()), cfg.simSpeed)
      ensures VaxStatuses() == Controlled(old(VaxStatuses()), cfg, draws.vaccinations)
      ensures forall i :: 0 <= i < |agents| ==>
                agents[i].Aiming() == if TickDue(old(Timing()), cfg.simSpeed)
                                      then Retarget(old(agents[i].Aiming()), Plan(Routine(agents[i]), tick, day, cfg, layout, draws.schedule[i]).value, draws.spots[i])
                                      else old(agents[i].Aiming())
    {
      Vaccinate(cfg, draws.vaccinations);
      var due := AdvanceClock(cfg);
      if due {
        ApplySchedule(cfg, draws.schedule, draws.spots);
      }
    }

    /** Movement and the first pass of transmission: the viral loads are reset,
        every agent moves, and the loads are rebuilt from the agents' shedding. */
    method Circulate(cfg: Params, dt: real, root: Root, moves: seq<MoveDraws>)
      requires IsRoot(root) && Grounded() && Shape() && AllTied() && AllPrimed() && |moves| == |agents|
      modifies this`viralLoad
      modifies agents`simPos, agents`currentHub,
               agents`edges
      ensures Grounded() && Shape() && AllTied() && AllPrimed()
      ensures forall h :: 0 <= h < |hubs| ==> viralLoad[h] == Load(Sheds(cfg.maskEfficacy), EdgeMaps(), h)
    {
      ClearLoads();
      MoveAll(dt, root, moves);
      AccumulateLoads(cfg);
    }

    /** The second pass of transmission: every susceptible agent undergoes its
        location trials, which can only make it Latent. */
    method Transmit(cfg: Params, dt: real, expNeg: NegExp, trials: seq<seq<TrialDraws>>)
      requires Defined(expNeg) && Grounded() && Shape() && AllTied() && AllPrimed()
      requires |trials| == |agents| && forall i :: 0 <= i < |agents| ==> |trials[i]| >= |hubs|
      modifies agents`state, agents`daysInState,
               agents`latentDur, agents`infDur,
               agents`peakShedding
      ensures AllTied() && AllPrimed()
      ensures forall i :: 0 <= i < |agents| ==>
                agents[i].state == old(agents[i].state) || (old(agents[i].state) == Susceptible && agents[i].state == Latent)
    {
      AllKeysOk();
      ExposeAll(cfg, dt, expNeg, trials);
    }

    /** Movement and both passes of transmission. Each agent's state stays or, for
        a susceptible agent, becomes Latent. */
    method Outbreak(cfg: Params, dt: real, expNeg: NegExp, root: Root, moves: seq<MoveDraws>, trials: seq<seq<TrialDraws>>)
      requires Defined(expNeg) && IsRoot(root) && Grounded() && Shape() && AllTied() && AllPrimed()
      requires |moves| == |agents| && |trials| == |agents|
      requires forall i :: 0 <= i < |agents| ==> |trials[i]| >= |hubs|
      modifies this`viralLoad
      modifies agents`simPos, agents`currentHub,
               agents`edges
      modifies agents`state, agents`daysInState,
               agents`latentDur, agents`infDur,
               agents`peakShedding
      ensures Grounded() && Shape() && AllTied() && AllPrimed()
      ensures forall i :: 0 <= i < |agents| ==>
                agents[i].state == old(agents[i].state) || (old(agents[i].state) == Susceptible && agents[i].state == Latent)
    {
      Circulate(cfg, dt, root, moves);
      label circulated:
      Transmit(cfg, dt, expNeg, trials);
      forall i | 0 <= i < |agents|
        ensures agents[i].state == old(agents[i].state) || (old(agents[i].state) == Susceptible && agents[i].state == Latent)
      {
        assert old@circulated(agents[i].state) == old(agents[i].state);
      }
    }

    /** The bed count of the update: the number of hospitalized agents, summed once
        before the progression pass. */
    method CountBeds()
      requires Valid()
      modifies this`occupiedBeds
      ensures Valid()
      ensures occupiedBeds == multiset(States())[Hospitalized]
    {
      occupiedBeds := multiset(States())[Hospitalized];
    }

    /** The bed count and the progression pass against it. */
    method Progress(cfg: Params, dt: real, expNeg: NegExp, bio: seq<BioDraws>)
      requires Defined(expNeg) && Valid() && |bio| == |agents|
      modifies this`occupiedBeds
      modifies agents`state, agents`daysInState,
               agents`immunity, agents`inQuarantine,
               agents`peakShedding, agents`hospitalStayDur,
               agents`target, agents`targetPos
      ensures Valid()
      ensures forall i :: 0 <= i < |agents| ==> ProgressionEdge(old(agents[i].state), agents[i].state)
    {
      CountBeds();
      ProgressAll(Beds(), cfg, dt, expNeg, bio);
    }

    /** Progression and, when due, a history sample. Each agent's state moves along
        a progression edge. */
    method Recover(cfg: Params, dt: real, expNeg: NegExp, bio: seq<BioDraws>)
      requires Defined(expNeg) && Valid() && |bio| == |agents|
      modifies this`occupiedBeds, this`history
      modifies agents`state, agents`daysInState,
               agents`immunity, agents`inQuarantine,
               agents`peakShedding, agents`hospitalStayDur,
               agents`target, agents`targetPos
      ensures Valid()
      ensures forall i :: 0 <= i < |agents| ==> ProgressionEdge(old(agents[i].state), agents[i].state)
      ensures history == if SampleDue(tickCount) then Record(old(history), CensusOf(States())) else old(history)
    {
      Progress(cfg, dt, expNeg, bio);
      if SampleDue(tickCount) {
        SampleHistory();
      }
    }

    /** The phases of an update after the clock: movement, transmission, the bed
        count, progression and, when due, a history sample. Each agent's state moves
        along a step edge. */
    method Evolve(cfg: Params, dt: real, expNeg: NegExp, root: Root, draws: StepDraws)
      requires Defined(expNeg) && IsRoot(root) && Valid()
      requires |draws.moves| == |agents| && |draws.trials| == |agents| && |draws.bio| == |agents|
      requires forall i :: 0 <= i < |agents| ==> |draws.trials[i]| >= |hubs|
      modifies this`viralLoad, this`occupiedBeds, this`history
      modifies agents`simPos, agents`currentHub,
               agents`edges
      modifies agents`state, agents`daysInState,
               agents`latentDur, agents`infDur,
               agents`peakShedding, agents`immunity,
               agents`inQuarantine, agents`hospitalStayDur,
               agents`target, agents`targetPos
      ensures Valid() && Timing() == old(Timing()) && VaxStatuses() == old(VaxStatuses())
      ensures forall i :: 0 <= i < |agents| ==> StepEdge(old(agents[i].state), agents[i].state)
      ensures history == if SampleDue(tickCount) then Record(old(history), CensusOf(States())) else old(history)
    {
      Outbreak(cfg, dt, expNeg, root, draws.moves, draws.trials);
      label spread:
      Recover(cfg, dt, expNeg, draws.bio);
      forall i | 0 <= i < |agents|
        ensures StepEdge(old(agents[i].state), agents[i].state)
      {
        assert old@spread(agents[i].state) == old(agents[i].state) || old(agents[i].state) == Susceptible;
      }
    }

    /** One step of the world, phase by phase in the order of the source:
        vaccination, the clock (and the schedule when a tick is due), the reset of
        the viral loads, movement, transmission through locations, the bed count,
        progression, and, when due, a history sample. */
    method Step(cfg: Params, expNeg: NegExp, root: Root, draws: StepDraws)
      requires Valid() && Defined(expNeg) && IsRoot(root)
      requires IsSample(draws.vaccinations, Pool(VaxStatuses(), States(), cfg), VaxCap(cfg))
      requires |draws.schedule| == |agents| && |draws.spots| == |agents| && |draws.moves| == |agents|
      requires |draws.trials| == |agents| && |draws.bio| == |agents|
      requires forall i :: 0 <= i < |agents| ==> draws.schedule[i].house < |layout.households|
      requires forall i :: 0 <= i < |agents| ==> |draws.trials[i]| >= |hubs|
      modifies this`tick, this`day, this`tickCount, this`viralLoad, this`occupiedBeds, this`history
      modifies agents`vaccinated,
               agents`target, agents`targetPos,
               agents`simPos, agents`currentHub,
               agents`edges
      modifies agents`state, agents`daysInState,
               agents`latentDur, agents`infDur,
               agents`peakShedding, agents`immunity,
               agents`inQuarantine, agents`hospitalStayDur
      ensures Valid()
      ensures Timing() == Advanced(old(Timing()), cfg.simSpeed)
      ensures VaxStatuses() == Controlled(old(VaxStatuses()), cfg, draws.vaccinations)
      ensures forall i :: 0 <= i < |agents| ==> StepEdge(old(agents[i].state), agents[i].state)
      ensures history == if SampleDue(tickCount) then Record(old(history), CensusOf(States())) else old(history)
    {
      var dt := StepDays(cfg);
      Prepare(cfg, draws);
      Evolve(cfg, dt, expNeg, root, draws);
    }

    /** `update`: one step of the world unless the simulation is paused. */
    method Update(cfg: Params, expNeg: NegExp, root: Root, draws: StepDraws)
      requires Valid() && Defined(expNeg) && IsRoot(root)
      requires IsSample(draws.vaccinations, Pool(VaxStatuses(), States(), cfg), VaxCap(cfg))
      requires |draws.schedule| == |agents| && |draws.spots| == |agents| && |draws.moves| == |agents|
      requires |draws.trials| == |agents| && |draws.bio| == |agents|
      requires forall i :: 0 <= i < |agents| ==> draws.schedule[i].house < |layout.households|
      requires forall i :: 0 <= i < |agents| ==> |draws.trials[i]| >= |hubs|
      modifies this`tick, this`day, this`tickCount, this`viralLoad, this`occupiedBeds, this`history
      modifies agents`vaccinated,
               agents`target, agents`targetPos,
               agents`simPos, agents`currentHub,
               agents`edges
      modifies agents`state, agents`daysInState,
               agents`latentDur, agents`infDur,
               agents`peakShedding, agents`immunity,
               agents`inQuarantine, agents`hospitalStayDur
      ensures Valid()
      ensures old(paused) ==> Timing() == old(Timing()) && history == old(history) && States() == old(States())
      ensures old(paused) ==> unchanged(this) && forall i :: 0 <= i < |agents| ==> unchanged(agents[i])
      ensures !old(paused) ==> Timing() == Advanced(old(Timing()), cfg.simSpeed)
      ensures !old(paused) ==> VaxStatuses() == Controlled(old(VaxStatuses()), cfg, draws.vaccinations)
      ensures !old(paused) ==> forall i :: 0 <= i < |agents| ==> StepEdge(old(agents[i].state), agents[i].state)
      ensures !old(paused) ==> history == if SampleDue(tickCount) then Record(old(history), CensusOf(States())) else old(history)
    {
      if !paused {
        Step(cfg, expNeg, root, draws);
      }
    }
  }
}
