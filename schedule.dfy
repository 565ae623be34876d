/** The daily schedule: at each change of tick the engine picks, for every agent, the
    hub it should head to. The choice depends on the agent's condition, the phase of
    the day, whether it is the weekend, lockdown, and a few random draws. */
module Schedule {
  import opened Basics
  import opened Enums
  import opened Config
  import opened Hubs

  /** What the schedule reads of an agent. */
  datatype Resident = Resident(
    state: HealthState,
    inQuarantine: bool,
    age: AgeGroup,
    mobility: Mobility,
    home: HubId,
    assignedHub: Option<HubId>)

  /** The random values one agent's schedule decision may consume, each an
      independent uniform draw in [0, 1), named after the question it decides,
      and the index of the household picked for a visit. */
  datatype SchedDraws = SchedDraws(
    outing: real,
    venue: real,
    cafe: real,
    visit: real,
    market: real,
    house: nat)

  /** Saturday and Sunday: the last two days of each seven. */
  predicate Weekend(day: nat) {
    day % 7 >= 5
  }

  /** Agents whose condition fixes their target whatever the time of day. */
  predicate Constrained(a: Resident) {
    a.state == Dead || a.state == Hospitalized || a.inQuarantine || a.state == InfSymp
  }

  /** Where a constrained agent must be: the dead at the cemetery, patients in the
      hospital, quarantined agents in quarantine, symptomatic agents at home. */
  function Confined(a: Resident, l: Layout): (h: HubId)
    requires Constrained(a)
    ensures a.state == Dead ==> h == l.cemetery
    ensures a.state == Hospitalized ==> h == l.hosp
    ensures a.state != Dead && a.state != Hospitalized && a.inQuarantine ==> h == l.quar
    ensures a.state == InfSymp && !a.inQuarantine ==> h == a.home
  {
    if a.state == Dead then l.cemetery
    else if a.state == Hospitalized then l.hosp
    else if a.inQuarantine then l.quar
    else a.home
  }

  /** The morning (tick 0) plan of an unconstrained agent. At the weekend an outing
      happens with probability half the social engagement and goes to the park, the
      market or the cafe; lockdown is not consulted then. On weekdays in lockdown an
      agent visits the market with probability 0.02; otherwise seniors and agents of
      low mobility may visit the market, and agents with a school or workplace go
      there with probability 0.95. */
  function Morning(a: Resident, day: nat, cfg: Params, l: Layout, d: SchedDraws): (h: HubId)
    ensures h == a.home || h == l.market || h == l.park || h == l.cafe || Some(h) == a.assignedHub
    ensures Weekend(day) && d.outing >= 0.5 * cfg.socialEngagement ==> h == a.home
    ensures !Weekend(day) && Lockdown(cfg) ==> h == a.home || h == l.market
    ensures !Weekend(day) && Some(h) == a.assignedHub && h != a.home && h != l.market ==>
              !Lockdown(cfg) && a.age != Senior && a.mobility != Low
  {
    if Weekend(day) then
      if d.outing < 0.5 * cfg.socialEngagement then
        if d.venue < 0.4 then l.park
        else if d.venue < 0.7 then l.market
        else l.cafe
      else a.home
    else if Lockdown(cfg) then
      if d.outing < 0.02 then l.market else a.home
    else if a.age == Senior || a.mobility == Low then
      if d.outing < 0.15 then l.market else a.home
    else if a.assignedHub.Some? then
      if d.outing < 0.95 then a.assignedHub.value else a.home
    else a.home
  }

  /** The afternoon (tick 1) plan of an unconstrained agent: home in lockdown;
      otherwise a highly mobile agent may go to the cafe, then any agent may visit a
      random household or the market, each with a chance proportional to the social
      engagement. */
  function Afternoon(a: Resident, cfg: Params, l: Layout, d: SchedDraws): (h: HubId)
    requires d.house < |l.households|
    ensures Lockdown(cfg) ==> h == a.home
    ensures h == a.home || h == l.cafe || h == l.market || h in l.households
    ensures h == l.cafe && h != a.home && h != l.market && h !in l.households ==> a.mobility == High
  {
    if Lockdown(cfg) then a.home
    else if a.mobility == High && d.cafe < 0.3 * cfg.socialEngagement then l.cafe
    else if d.visit < 0.2 * cfg.socialEngagement then l.households[d.house]
    else if d.market < 0.2 * cfg.socialEngagement then l.market
    else a.home
  }

  /** `apply_schedule` for one agent: the hub it is sent to at the given tick, or
      nothing for a tick outside 0..2. Constrained agents are sent where their
      condition demands; the others follow the morning, afternoon or evening plan. */
  function Plan(a: Resident, tick: nat, day: nat, cfg: Params, l: Layout, d: SchedDraws): (r: Option<HubId>)
    requires d.house < |l.households|
    ensures r.None? <==> tick > 2
    ensures Constrained(a) && tick <= 2 ==> r == Some(Confined(a, l))
    ensures !Constrained(a) && tick == 0 ==> r == Some(Morning(a, day, cfg, l, d))
    ensures !Constrained(a) && tick == 1 ==> r == Some(Afternoon(a, cfg, l, d))
    ensures tick == 2 && a.state != Dead && a.state != Hospitalized && !a.inQuarantine ==> r == Some(a.home)
  {
    if tick > 2 then None
    else if Constrained(a) then Some(Confined(a, l))
    else if tick == 0 then Some(Morning(a, day, cfg, l, d))
    else if tick == 1 then Some(Afternoon(a, cfg, l, d))
    else Some(a.home)
  }

  /** On a lockdown weekday an agent is only ever sent home, to the market or where
      its condition demands (cemetery, hospital, quarantine). */
  lemma LockdownWeekdayConfines(a: Resident, tick: nat, day: nat, cfg: Params, l: Layout, d: SchedDraws)
    requires d.house < |l.households|
    requires Lockdown(cfg) && !Weekend(day) && tick <= 2
    ensures var h := Plan(a, tick, day, cfg, l, d).value;
            h == a.home || h == l.market || h == l.cemetery || h == l.hosp || h == l.quar
  {
    if !Constrained(a) && tick == 0 {
      assert Morning(a, day, cfg, l, d) == a.home || Morning(a, day, cfg, l, d) == l.market;
    }
  }

  /** Lockdown does not cancel weekend outings: a healthy agent with a small enough
      outing draw goes to the park on a lockdown Saturday morning. */
  lemma WeekendOutingDespiteLockdown(a: Resident, cfg: Params, l: Layout, house: nat)
    requires !Constrained(a) && house < |l.households|
    requires 0.0 < cfg.socialEngagement < 0.4
    ensures Lockdown(cfg)
    ensures Plan(a, 0, 5, cfg, l, SchedDraws(0.0, 0.0, 0.0, 0.0, 0.0, house)) == Some(l.park)
  {
  }

  /** With no social engagement at all a healthy agent never goes beyond its home
      and the market. */
  lemma NoEngagementStaysNear(a: Resident, tick: nat, day: nat, cfg: Params, l: Layout, d: SchedDraws)
    requires d.house < |l.households| && d.outing >= 0.0
    requires cfg.socialEngagement == 0.0 && !Constrained(a) && tick <= 2
    ensures Plan(a, tick, day, cfg, l, d) == Some(a.home) || Plan(a, tick, day, cfg, l, d) == Some(l.market)
  {
  }
}
