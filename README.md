# Epidemic engine: a verified model of its bookkeeping

This project models the core of an agent-based epidemic simulator. It covers the
`Engine` of `engine.py` and the `Person` of `entities.py`.

- **Population.** A population of agents lives in a town of hubs: households, schools,
  workplaces, a market, a park, a cafe, a hospital, a quarantine centre and a cemetery.
- **Per update.** Each update runs these phases:
  1. a vaccination controller moves the vaccinated count toward a target;
  2. a day clock advances (three ticks per day);
  3. when a tick falls due, a scheduler picks each agent's destination;
  4. agents move and fade their structural edge weights toward the hub they are at;
  5. shedding agents deposit viral load on the hubs they are tied to;
  6. susceptible agents run infection trials at those hubs;
  7. a disease state machine moves every agent along Susceptible → Latent →
     Asymptomatic/Symptomatic → Hospitalized → Dead/Recovered → Susceptible;
  8. a bounded history of the census is sampled.
- **Creation.** `init_world` creates the agents with their structural edges, links
  them along a given social graph and infects a sample of seeds.
- **Randomness and maths.** Every random draw, the exponential `exp(-x)` and the
  square root are parameters. An operation receives the draws it consumes, together
  with a table for `exp`/`sqrt` that the lemmas constrain where they need to.
  Quantities are Dafny `real`s.

Modules, one file each:

- `basics.dfy`: points, clamps, `int()` truncation, `random.sample`.
- `config.dfy`: constants and parameters.
- `enums.dfy`: health states and the other enumerations.
- `hubs.dfy`: hubs and their roles, and `set_target`.
- `census.dfy`: demographics, census and the history window.
- `disease.dfy`: the state machine of `infect_agent`, `try_infect` and `update_bio`.
- `entities.dfy`: the `Person` class (shedding, edge fading, movement).
- `schedule.dfy`: `apply_schedule`.
- `socialgraph.dfy`: symmetric edge insertion.
- `transmission.dfy`: viral loads and location trials.
- `vaccination.dfy`: the controller.
- `world.dfy`: `init_world`.
- `engine.dfy`: the `Engine` class and its `update`.

Each in-place operation of the source is a method that mutates `Person` or `Engine`
fields. Each such method is proved against a pure function of the old state, and the
properties are proved about those functions.

Three behaviours of the code are kept as written:

- **Hospital beds.** The bed count is taken once per update (engine.py:231) and is
  not incremented on admission. So one free bed can admit several agents in one
  pass (`Disease.OneBedTwoAdmissions`).
- **Location trials.** The trial loop tests susceptibility once per agent
  (engine.py:309). A later hub in the same loop re-infects an agent that has just
  become Latent (`Transmission.LaterHubReinfects`).
- **Hospital stay.** `hospital_stay_dur` is sampled on admission but never read.
  Hospitalized agents recover on `inf_dur`.

## Model

| member | source | states |
|---|---|---|
| Basics.Trunc | engine.py:196 | Python's `int()` on a real truncates toward zero: for x ≥ 0 it is the floor, for x < 0 it lies in [x, x+1) and is ≤ 0 |
| Basics.Remaining | engine.py:344 | the body is the waning factor `exp(-rate*dt)` of engine.py:344; the contract states only the degenerate case, exp(0) when rate or dt is zero |
| Basics.Chance | engine.py:390 | the body is the hazard probability `1 - exp(-h*dt)` of engine.py:390; the contract states only the degenerate case, 1 - exp(0) when h or dt is zero |
| Basics.DistSq | entities.py:112 | squared distance is non-negative and zero from a point to itself |
| Config.Distancing | engine.py:304-306 | the distancing factor is 0.2 or 1.0, and below 1.0 exactly under lockdown (social engagement < 0.4) |
| Census.Enrol | engine.py:41-47 | counting one agent adds one to exactly one age counter and one mobility counter; the child counter moves iff the agent is a child, the low-mobility counter iff its mobility is low |
| Census.CensusOf | engine.py:236-244 | S + Active + R + D equals the number of agents, and H ≤ Active |
| Census.CensusCounts | engine.py:236-244 | each count is the multiplicity of its states: S, R, D, H of their state; Active of Latent, Asymptomatic, Symptomatic and Hospitalized together |
| Census.CensusStep | engine.py:237-244 | the census of the first i+1 agents is that of the first i, tallied with agent i |
| Census.Slide | engine.py:245-247 | appending a sample: the new sample is last; below the limit the series grows by one, at the limit the oldest is dropped, so the length is min(n+1, PANEL_W-40) |
| Census.SlideAllWindow | engine.py:245-247 | after any run of samples, a series is exactly the last PANEL_W-40 values of everything ever appended |
| Census.Record | engine.py:245-247 | the five series are appended together and stay equally long; their last entries are the new census |
| Disease.Infected | engine.py:181-188 | infection sets Latent with zero days in state, the latent duration `max(0.5, sample)` and the infectious duration `max(2.0, sample)`; peak shedding is tripled for superspreaders; immunity, quarantine and target are unchanged |
| Disease.Susceptibility | engine.py:336-338 | the susceptibility factor: 1 - (immunity·efficacy + 0.2·constitution) when neither vaccinated nor masked; zero for a fully effective vaccine or mask |
| Disease.Catches | engine.py:339 | a trial hits only when the draw is below prob·max(0, sus); with prob ≤ 0 or sus ≤ 0 and a non-negative draw it never hits |
| Disease.CatchesMonotone | engine.py:339 | a smaller draw hits whenever a larger one does |
| Disease.Trial | engine.py:335-340 | `try_infect` applies `infect_agent` exactly when the draw is caught and otherwise leaves the agent as it was, never infecting with prob ≤ 0; immunity is kept |
| Disease.Waned | engine.py:343-347 | waning changes the state only from Recovered to Susceptible, exactly when the decayed immunity drops below 0.2, and then zeroes the immunity; immunity in [0,1] only decreases; nothing else changes |
| Disease.WanedAt | engine.py:343-347 | for positive immunity, the waning step is the decayed immunity, with the Recovered → Susceptible reset below 0.2 |
| Disease.AsympProb | engine.py:355-358 | the asymptomatic probability for each of the six vaccination/age cases: +0.4 for the vaccinated, +0.2 for children, -0.2 for seniors, within [p-0.2, p+0.6] |
| Disease.Isolated | engine.py:366-368 | a new symptomatic case is quarantined and retargeted to the quarantine hub exactly when it is not yet quarantined and the draw is below the quarantine rate; otherwise it is left alone |
| Disease.Onset | engine.py:352-370 | Latent leaves only for Asymptomatic or Symptomatic, exactly when days in state reach the latent duration, choosing Asymptomatic exactly when the draw is below the asymptomatic probability; it resets days in state and sets the peak shedding (tripled for superspreaders); a symptomatic case enters quarantine, retargeted to the quarantine hub, exactly when not yet quarantined and the draw is below the quarantine rate; without quarantine the aim is kept |
| Disease.Admitted | engine.py:373-380 | the state changes only Symptomatic → Hospitalized, exactly when more than 2 days have passed, the agent is high-risk and a bed is free by the count taken at the start of the pass; admission clears quarantine and retargets the agent to the hospital |
| Disease.MortalityHazard | engine.py:382-388 | the hazard is zero when base mortality is zero and non-negative when the multipliers are |
| Disease.Resolved | engine.py:382-399 | a shedding agent either stays, dies (exactly when the death draw is below the hazard probability) or recovers (exactly when not dying and days in state reach the infectious duration); death clears quarantine and retargets the agent to the cemetery; recovery sets immunity 1.0, clears quarantine and retargets the agent home when it is at the hospital or quarantine hub, keeping its aim otherwise |
| Disease.BioStep | engine.py:342-399 | `update_bio` moves the state only along the progression edges; Dead stays Dead; Latent exits reset days in state; entry to Hospitalized needs Symptomatic, a free bed and high risk; death targets the cemetery; recovery sets immunity 1.0 after the infectious duration; immunity stays in [0,1] |
| Disease.AdmissionOutcome | engine.py:373-399 | an eligible admission always ends in Hospitalized, Dead or Recovered in that update, and entry to Hospitalized happens only through an eligible admission |
| Disease.EligibleAdmitted | engine.py:373-399 | an eligible agent that neither dies nor finishes its infectious period is Hospitalized after the update |
| Disease.OneBedTwoAdmissions | engine.py:373-380 | with one bed free, two eligible agents in the same pass are both admitted, exceeding the capacity |
| Disease.NoDeathWithoutMortality | engine.py:382-394 | with zero base mortality and exp(0) = 1, no agent dies |
| Hubs.Retarget | entities.py:93-96 | `set_target(h)` leaves the aim unchanged when h is already the target; otherwise the target becomes h with a new spot |
| Hubs.RetargetIdempotent | entities.py:93-96 | setting the same target twice is the same as setting it once |
| Schedule.Confined | engine.py:406-418 | the overrides in priority order: Dead → cemetery, Hospitalized → hospital, quarantined → quarantine, Symptomatic → home |
| Schedule.Morning | engine.py:420-441 | tick 0 picks home, market, park, cafe or the assigned hub; on a weekend without an outing it is home; on a lockdown weekday home or market; the assigned hub only for a mobile non-senior outside lockdown |
| Schedule.Afternoon | engine.py:442-449 | tick 1 is home under lockdown; otherwise home, cafe (highly mobile agents only), market or a household |
| Schedule.Plan | engine.py:401-451 | `apply_schedule` for one agent: overrides first, then the tick-0 and tick-1 rules; at tick 2 every agent that is not dead, hospitalized or quarantined goes home; no target exists beyond tick 2 |
| Schedule.LockdownWeekdayConfines | engine.py:402-441 | on a lockdown weekday every agent targets home, market, cemetery, hospital or quarantine |
| Schedule.WeekendOutingDespiteLockdown | engine.py:420-428 | the weekend outing rule ignores lockdown: an agent can be sent to the park during lockdown |
| Schedule.NoEngagementStaysNear | engine.py:420-449 | with zero social engagement an unconstrained agent targets only home or the market |
| SocialGraph.Link | engine.py:76-78 | inserting edge (u, v) appends v to u's neighbours and u to v's, leaving all others |
| SocialGraph.Connect | engine.py:76-78 | the graph loop keeps one neighbour list per agent |
| SocialGraph.LinkSymmetric | engine.py:76-78 | inserting an edge keeps the neighbour relation symmetric, with multiplicities |
| SocialGraph.ConnectSymmetric | engine.py:76-78 | after the graph loop the relation is symmetric and holds two entries per edge |
| SocialGraph.ConnectMembers | engine.py:76-78 | w is a neighbour of u after the loop iff it was before or some edge joins u and w |
| SocialGraph.ConnectLast | engine.py:76-78 | the loop over a list of edges is the loop over all but the last, followed by inserting the last |
| Transmission.Deposit | engine.py:299-302 | an agent's deposit on a hub is non-negative, positive exactly when it sheds and its weight there exceeds 0.1, and at most its shedding for weights ≤ 1 |
| Transmission.Load | engine.py:297-302 | a hub's load is non-negative and positive exactly when some agent deposits on it |
| Transmission.LocationHazard | engine.py:313-314 | the body is the location risk formula of engine.py:313-314; the contract states only that the risk is zero when beta is zero |
| Transmission.Exposed | engine.py:308-316 | the trial loop over an agent's edges leaves its state or makes it Latent; it changes the agent only if some hub exposes it (weight > 0.1 and positive load); immunity, quarantine and target are unchanged |
| Transmission.ExposedLatent | engine.py:308-316 | after the trial loop the agent is Latent exactly when it was Latent already or some trial at an exposing hub catches it, for every edge list and every draws |
| Transmission.NoExposureWithoutBeta | engine.py:311-316 | with beta zero and exp(0) = 1 the trials never infect |
| Transmission.LaterHubReinfects | engine.py:309-316 | when two hubs both catch the agent, the second trial re-infects the agent already made Latent by the first |
| Vaccination.VaxTarget | engine.py:196 | the target `int(n * rate)` is within [0, n] for a rate in [0, 1] |
| Vaccination.VaxCap | engine.py:201 | the per-update cap `max(1, int(5*speed))` is at least 1 and at most max(1, 5·speed) |
| Vaccination.Pool | engine.py:198-205 | below target the pool is the unvaccinated susceptible agents, above target the vaccinated ones, at target empty |
| Vaccination.Controlled | engine.py:198-206 | sampled agents are vaccinated when below target and unvaccinated otherwise; every other agent is unchanged |
| Vaccination.NextCount | engine.py:198-206 | the count rises by at most the cap below target, falls by at most the cap above target, and is unchanged exactly at target, with no candidates, or with nobody vaccinated |
| Vaccination.ControlledCount | engine.py:195-206 | one controller step changes the vaccinated count exactly as NextCount says |
| Vaccination.ControllerOvershoots | engine.py:198-206 | the cap can carry the count past the target in either direction |
| Vaccination.ControllerOscillates | engine.py:195-206 | with the default speed, 500 agents and a target of 251, the count alternates 250 → 255 → 250 |
| World.PopulationSize | engine.py:33 | `int(pop_size)` agents: the largest whole number not above a non-negative pop size |
| World.Cohort | engine.py:36-39 | 20% children (high mobility), 55% adults (high mobility iff the coin), the rest seniors (low mobility) |
| World.Assignment | engine.py:51-53 | a child attends a school, a mobile adult a workplace, nobody else attends a hub |
| World.Enrolled | engine.py:34-47 | the demographics count every agent once per age and once per mobility; low mobility equals seniors |
| World.HomeOf | engine.py:35 | agent i's home is `households[i % len(households)]`, a household |
| World.StartEdgesShape | engine.py:59-67 | a new agent's edges cover home, attended hub and the shared hubs; home weighs 1.0, every other 0.0; all hubs exist |
| World.StartKeysDistinct | engine.py:59-67 | the insertion order names each edge hub exactly once |
| World.Found | engine.py:35-67 | agent i is created with its home, cohort, attended hub, affiliations and structural edges, susceptible and without neighbours |
| World.Anchor | engine.py:59-67 | the structural edges are inserted in order: home at 1.0, attended hub, then the shared hubs at 0.0 |
| World.AnchorOwn | engine.py:59-60 | the home edge at 1.0 and the attended hub's edge at 0.0 |
| World.AnchorShared | engine.py:62-67 | the market, hospital, quarantine, park, cafe and cemetery edges at 0.0, each a new dictionary entry |
| World.Populate | engine.py:33-69 | the population loop creates one distinct new agent per draw record, agent i from record i, and counts the demographics |
| World.Befriend | engine.py:76-78 | the graph loop over the agents' neighbour lists computes Connect of the old lists |
| World.Socialise | engine.py:76-78 | linking along the graph keeps the agents founded and healthy |
| World.Inhabit | engine.py:33-78 | the agents are founded and healthy, and their neighbour lists are the graph's edges inserted into empty lists |
| World.Newcomers | engine.py:34-69 | freshly created agents are founded, healthy and without neighbours |
| World.Lonely | entities.py:84 | a new agent's neighbour list is empty |
| World.SocialGraphShape | engine.py:71-78 | the social graph built by `init_world` is symmetric with two entries per edge |
| World.SeedCount | engine.py:80 | `min(int(init_infected), population)` seeds, never more than the population |
| World.Seeded | engine.py:80-82 | after seeding, an agent is Latent iff it is a seed and Susceptible otherwise |
| World.SeededCensus | engine.py:80-82 | the first census after seeding counts the seeds as active and every other agent as susceptible |
| World.SeededCounts | engine.py:80-82 | among the first m agents, the active count is the number of seeds below m |
| Entities.Profile | entities.py:102 | the shedding profile lies in [0,1] for progress in [0,1]; it is 1 at progress 0.3 and 0 at 0 and 1 |
| Entities.ProfileUnimodal | entities.py:102 | the profile rises up to progress 0.3 and falls after it |
| Entities.Curve | entities.py:102-103 | the unmasked shedding lies in [0, peak] for progress in [0,1], is the peak at 0.3 and is zero at 0 and 1 |
| Entities.MaskCut | entities.py:104 | a mask scales shedding into [0, amt]; an unmasked agent keeps amt; a fully effective mask gives 0 |
| Entities.ProgressRange | entities.py:100-101 | for a positive duration, progress lies in [0,1] exactly when days in state lie in [0, duration] |
| Entities.PeakAt | entities.py:102 | days = 0.3·duration is progress 0.3 |
| Entities.Goal | entities.py:132 | the fade target is 1.0 exactly for the current hub, otherwise 0.0 |
| Entities.Fade | entities.py:134-137 | a weight moves toward its target by at most the fade speed, never past it; within one speed of it, it reaches it exactly; at its target it stays |
| Entities.FadeReachesGoal | entities.py:134-137 | n fade steps reach the target from any weight at most n speeds away |
| Entities.FadeAll | entities.py:131-138 | the fade keeps the same keys and fades each weight toward its target |
| Entities.FadeAllKeepsUnit | entities.py:131-138 | weights in [0,1] stay in [0,1], and every hub other than the current one only loses weight |
| Entities.Dist | entities.py:112 | the distance is non-negative and its square is the squared distance |
| Entities.DistWithin | entities.py:116 | `dist <= step` holds exactly when the step is non-negative and the squared distance is at most step² |
| Entities.TowardDistances | entities.py:123-125 | a fraction k of the way to the target: k² and (1-k)² of the squared distance |
| Entities.StepLength | entities.py:113-114 | the step is 2500·dt while alive and 500·dt when dead |
| Entities.Moved | entities.py:111-125 | on arrival (distance ≤ step) the agent is at its target hub, at the target point or jittered from it; in transit it is at no hub, one step from where it was and one step closer to the target |
| Entities.TransitStep | entities.py:121-125 | a step short of the target moves exactly the step length and shortens the distance by it |
| Entities.Person.constructor | entities.py:52-86 | a new agent is Susceptible, unvaccinated, not quarantined, with immunity 0, target and current hub its home, constitution clamped to [0.1, 1.0], superspreader and mask by their draws, and empty edges, affiliations and neighbours |
| Entities.Person.SetTarget | entities.py:93-96 | the aim becomes Retarget of the old aim |
| Entities.Person.PutEdge | engine.py:59-67 | a dictionary assignment: the weight is set, and a new key is appended to the insertion order |
| Entities.Person.Shedding | entities.py:98-105 | zero outside Asymptomatic/Symptomatic/Hospitalized and outside progress [0,1]; within [0, peak]; the peak at progress 0.3 unmasked; zero behind a fully effective mask |
| Entities.Person.UpdateEdgeWeights | entities.py:129-138 | the loop over the dictionary leaves the edges equal to FadeAll of the old edges with speed 5·dt |
| Entities.Person.MoveSpatial | entities.py:107-127 | a dead agent at the cemetery changes nothing, not even its edges; otherwise the position and current hub follow Moved and the edges fade |
| Simulation.Advanced | engine.py:208-215 | one update of the clock: the tick stays in {0,1,2}; the day grows by one exactly when a due tick wraps from 2 to 0; a due tick resets the counter, otherwise the counter grows by the speed and nothing else changes |
| Simulation.RunSplit | engine.py:208-215 | running m+n updates is running m and then n |
| Simulation.CountsUp | engine.py:208-209 | updates below the threshold only count up |
| Simulation.TickLength | engine.py:208-215 | at speed 1 a tick lasts exactly 600 updates, after which the tick advances or wraps into the next day |
| Simulation.DayLength | engine.py:208-215 | at speed 1 a day lasts exactly 1800 updates, and 1800 updates of DAYS_PER_UPDATE are one day |
| Simulation.ExposedStep | engine.py:311-316 | one location trial of the loop at position k |
| Simulation.LoadStep | engine.py:297-302 | the load over i+1 agents is the load over i plus agent i's deposit |
| Simulation.InfectAgent | engine.py:181-188 | the agent's disease record becomes Infected of the old one |
| Simulation.SeedInfections | engine.py:80-82 | the seed loop infects each seed with its own samples and leaves every other agent unchanged; afterwards exactly the seeds are Latent |
| Simulation.SeedWorld | engine.py:80-82 | seeding a founded, healthy population keeps it founded and its neighbours, and makes exactly the seeds Latent with their durations |
| Simulation.InitWorld | engine.py:22-82 | `init_world`: distinct founded agents with the counted demographics, neighbour lists of the social graph, exactly the seeds Latent with their duration samples |
| Simulation.Engine.constructor | engine.py:10-82 | the engine starts at tick 0, day 0, unpaused, with empty history, zero loads and the world of `init_world` |
| Simulation.Engine.TryInfect | engine.py:335-340 | `try_infect` on an agent: its record becomes Trial of the old one |
| Simulation.Engine.ExposeAt | engine.py:312-316 | one hub trial runs only with weight > 0.1 and positive load, with the hub's risk as probability |
| Simulation.Engine.ExposeAgent | engine.py:309-316 | a non-susceptible agent is skipped; a susceptible one runs Exposed over its edges in insertion order |
| Simulation.Engine.WaneImmunity | engine.py:343-347 | the agent's record becomes Waned of the old one |
| Simulation.Engine.ShowSymptoms | engine.py:352-370 | the latent agent's record becomes Onset of the old one |
| Simulation.Engine.Admit | engine.py:373-380 | the record becomes Admitted of the old one; the hospital stay is sampled only on admission |
| Simulation.Engine.Resolve | engine.py:382-399 | the record becomes Resolved of the old one |
| Simulation.Engine.UpdateBio | engine.py:342-399 | the record becomes BioStep of the old one; the state moves along a progression edge; the hospital stay is written only on admission and never read |
| Simulation.Engine.ProgressAll | engine.py:232-233 | every agent takes its own BioStep with the one bed count of the pass; every state moves along a progression edge |
| Simulation.Engine.CountVaccinated | engine.py:195 | the count is the number of vaccinated agents |
| Simulation.Engine.TakeCensus | engine.py:236-244 | the census is CensusOf the agents' states |
| Simulation.Engine.SampleHistory | engine.py:235-247 | the history becomes Record of the old history and the current census |
| Simulation.Engine.AppendSample | engine.py:245-247 | the five series get the census appended together and are trimmed together |
| Simulation.Engine.AdvanceClock | engine.py:208-214 | the clock becomes Advanced of the old clock; the schedule is due exactly when a tick falls due |
| Simulation.Engine.ClearLoads | engine.py:217-219 | every hub's viral load is reset to zero |
| Simulation.Engine.DepositAgent | engine.py:298-302 | every hub's load grows by the agent's deposit on it |
| Simulation.Engine.AccumulateLoads | engine.py:297-302 | every hub's load grows by Load over all agents' shedding and edges |
| Simulation.Engine.ExposeAll | engine.py:308-316 | each agent's record becomes `AfterTrials` of its old record: unchanged unless Susceptible (the skip at engine.py:309), else its own trial-loop result; only Susceptible → Latent changes happen |
| Simulation.Engine.SetVaccinated | engine.py:201-206 | sampled agents get the new status, all others keep theirs |
| Simulation.Engine.Vaccinate | engine.py:195-206 | the vaccination statuses become Controlled of the old ones |
| Simulation.Engine.ScheduleAgent | engine.py:406-450 | the agent's aim becomes Retarget toward its Plan |
| Simulation.Engine.ApplySchedule | engine.py:401-450 | every agent is retargeted toward its own Plan |
| Simulation.Engine.MoveAll | engine.py:221-222 | every agent makes its own `move_spatial` step |
| Simulation.Engine.Prepare | engine.py:195-215 | vaccination, then the clock, then the schedule only when a tick is due |
| Simulation.Engine.Circulate | engine.py:217-229 | after the reset, movement and deposits, every hub's load is Load of the agents' shedding over their new edges |
| Simulation.Engine.Transmit | engine.py:308-316 | the location trials change a state only Susceptible → Latent and keep the invariant |
| Simulation.Engine.Outbreak | engine.py:217-229 | movement and transmission change a state only Susceptible → Latent |
| Simulation.Engine.CountBeds | engine.py:231 | the bed count is the number of Hospitalized agents |
| Simulation.Engine.Progress | engine.py:231-233 | the bed count, then every agent's `update_bio`; every state moves along a progression edge |
| Simulation.Engine.Recover | engine.py:231-247 | progression, then the history gets the census appended exactly when sampling is due |
| Simulation.Engine.Evolve | engine.py:217-247 | the rest of an update: every state moves by infection and/or a progression edge; the history is sampled exactly when due |
| Simulation.Engine.Step | engine.py:193-247 | an unpaused update: the clock advances, the vaccination statuses follow Controlled, every state moves along StepEdge, the history is sampled when due, and the invariant holds |
| Simulation.Engine.Update | engine.py:190-247 | a paused engine changes nothing: the engine's fields and every field of every agent are unchanged; otherwise as Step |

## Left out

- `setup_hubs` and `_get_random_point` (engine.py:84-179, entities.py:88-91) compute trigonometric and random coordinates. The hubs and their roles are a parameter, constrained by `Hubs.WellFormed`. Random points are draws.
- `setup_hubs` always creates a park and a cafe. So the `if self.park` / `if self.cafe` tests (engine.py:65-66) always hold, and the model has both hubs.
- The networkx graph generators (engine.py:71-74) are a foreign library. Their edge list is a parameter (`links`).
- Neighbour lists hold agent indices rather than object references. An agent's index is its id.
- The proximity transmission loop (engine.py:318-333) over graph neighbours is not modelled. It uses distance decay with a square root and an exponential.
- Spring physics, `update_physics`, `safe_normalize`, `agents_present` and the spatial hash are not modelled. They are floating-point vector physics or lists never read by the modelled logic.
- The UI: `view_mode`, drawing, colours, `ui.py` and `main.py`.
- Random draws are parameters, and so are `math.exp` and the square root. Lemmas that need exp(0) = 1, or a square root, state it as a hypothesis. Gaussian samples are taken as given reals; only the `max` floors applied to them are modelled.
- Floating point is modelled as exact reals.
- The negative counts of `random.sample` are excluded by `Basics.IsSample`. The seed count and the vaccination sample count are never negative, given a non-negative `init_infected`.
- `Hub.occupied_beds` is written only by the bed count of an update. The model starts it at 0.
- Simulation.Engine.Transmit: states only that states change Susceptible → Latent. The exact per-agent result is in `ExposeAll`'s contract.
- Simulation.Engine.Outbreak: states only the shape of the state change. The loads and the movement are stated by `Circulate` and `MoveAll`.
- Simulation.Engine.Circulate: does not restate the agents' new positions, which `MoveAll` states.
- Simulation.Engine.Progress: states the progression edges but not each agent's BioStep, which `ProgressAll` states.
- Simulation.Engine.Recover: states the progression edges but not each agent's BioStep, which `ProgressAll` states.
- Simulation.Engine.Evolve: states each agent's change as a `StepEdge` (infection and/or a progression edge), not the exact composition of the phases.
- Simulation.Engine.Step: states each agent's change as a `StepEdge`, not the exact composition of the phases.
- Simulation.Engine.Update: when not paused, as Step.
