/** Building the world (`init_world`): the population, each agent with its home, its
    age group and mobility, the hub it attends and its structural edges; the social
    graph; and the seed infections. The hub set-up, the graph generator and every
    random draw are parameters. */
module World {
  import opened Basics
  import opened Enums
  import opened Config
  import opened Hubs
  import opened Disease
  import opened Entities
  import opened SocialGraph
  import opened Census

  // ---------------------------------------------------------------- one agent

  /** The number of agents `init_world` creates: `int(pop_size)`, none if negative. */
  function PopulationSize(cfg: Params): (n: nat)
    ensures cfg.popSize >= 0.0 ==> n as real <= cfg.popSize < n as real + 1.0
  {
    Max(0, Trunc(cfg.popSize))
  }

  /** The random values the creation of one agent consumes: the age draw, the coin
      that picks an adult's mobility, the constitution jitter, the superspreader and
      mask draws, the start point in its home, and the picks of school and workplace. */
  datatype Newcomer = Newcomer(ageDraw: real, coin: bool, jitter: real, spreaderDraw: real,
                               maskDraw: real, start: Point, school: nat, work: nat)

  /** The picks name an existing school and workplace. */
  predicate Fits(n: Newcomer, l: Layout) {
    n.school < |l.schools| && n.work < |l.works|
  }

  /** Age group and mobility from the age draw: 20% children (highly mobile), 55%
      adults (highly or moderately mobile by the coin), the rest seniors (low). */
  function Cohort(ageDraw: real, coin: bool): (r: (AgeGroup, Mobility))
    ensures r.0 == Child <==> ageDraw < 0.2
    ensures r.0 == Senior <==> ageDraw >= 0.75
    ensures r.1 == Low <==> r.0 == Senior
    ensures r.0 == Child ==> r.1 == High
    ensures r.0 == Adult ==> (r.1 == High <==> coin)
  {
    if ageDraw < 0.2 then (Child, High)
    else if ageDraw < 0.75 then (Adult, if coin then High else Moderate)
    else (Senior, Low)
  }

  /** The hub an agent attends: a school for a child, a workplace for a mobile adult,
      none otherwise. */
  function Assignment(age: AgeGroup, mob: Mobility, l: Layout, n: Newcomer): (r: Option<HubId>)
    requires Fits(n, l)
    ensures age == Child ==> r == Some(l.schools[n.school])
    ensures age == Adult && mob != Low ==> r == Some(l.works[n.work])
    ensures r.Some? <==> age == Child || (age == Adult && mob != Low)
  {
    if age == Child then Some(l.schools[n.school])
    else if age == Adult && mob != Low then Some(l.works[n.work])
    else None
  }

  /** The demographics counted while creating the agents in order. */
  function Enrolled(ns: seq<Newcomer>): (dm: Demographics)
    ensures dm.child + dm.adult + dm.senior == |ns|
    ensures dm.highMob + dm.modMob + dm.lowMob == |ns|
    ensures dm.lowMob == dm.senior && dm.child <= dm.highMob
    decreases |ns|
  {
    if ns == [] then NoDemographics
    else
      var n := ns[|ns| - 1];
      var c := Cohort(n.ageDraw, n.coin);
      Enrol(Enrolled(ns[..|ns| - 1]), c.0, c.1)
  }

  /** The structural edges of a new agent, as the dictionary assignments leave them:
      home at full weight, then the attended hub, market, hospital, quarantine, park,
      cafe and cemetery at zero. */
  function StartEdges(home: HubId, attended: Option<HubId>, l: Layout): map<HubId, real> {
    Shared(OwnEdges(home, attended), l)
  }

  /** The edges to the agent's own hubs: home at full weight, the attended hub at zero. */
  function OwnEdges(home: HubId, attended: Option<HubId>): map<HubId, real> {
    var m := map[home := 1.0];
    if attended.Some? then m[attended.value := 0.0] else m
  }

  /** Edges `m` with the shared hubs added at zero weight. */
  function Shared(m: map<HubId, real>, l: Layout): map<HubId, real> {
    m[l.market := 0.0][l.hosp := 0.0][l.quar := 0.0][l.park := 0.0][l.cafe := 0.0][l.cemetery := 0.0]
  }

  /** A household or attended hub is none of the shared hubs: a new agent's edges
      reach its home at full weight and every other hub it is tied to at zero. */
  lemma StartEdgesShape(hubs: seq<Hub>, l: Layout, home: HubId, attended: Option<HubId>)
    requires WellFormed(hubs, l) && IsKind(hubs, home, Household)
    requires attended.Some? ==> IsKind(hubs, attended.value, School) || IsKind(hubs, attended.value, Workplace)
    ensures var m := StartEdges(home, attended, l);
            && m.Keys == {home, l.market, l.hosp, l.quar, l.park, l.cafe, l.cemetery} + (if attended.Some? then {attended.value} else {})
            && m[home] == 1.0
            && (forall h :: h in m && h != home ==> m[h] == 0.0)
            && (forall h :: h in m ==> h < |hubs|)
  {
  }

  /** The household of agent `i`: the households are dealt out in turn. */
  function HomeOf(l: Layout, i: nat): (h: HubId)
    requires l.households != []
    ensures h in l.households
  {
    l.households[i % |l.households|]
  }

  /** The home and, for an agent that attends one, its school or workplace. */
  function Affiliations(home: HubId, attended: Option<HubId>): seq<HubId> {
    [home] + if attended.Some? then [attended.value] else []
  }

  /** The order in which a new agent's structural edges are inserted: its
      affiliations, then the shared hubs. */
  function StartKeys(home: HubId, attended: Option<HubId>, l: Layout): seq<HubId> {
    SharedKeys(Affiliations(home, attended), l)
  }

  /** Insertion order `ks` followed by the shared hubs. */
  function SharedKeys(ks: seq<HubId>, l: Layout): seq<HubId> {
    ks + [l.market] + [l.hosp] + [l.quar] + [l.park] + [l.cafe] + [l.cemetery]
  }

  /** The insertion order names each hub of the edges once: the roles are hubs of
      different kinds. */
  lemma StartKeysDistinct(hubs: seq<Hub>, l: Layout, home: HubId, attended: Option<HubId>)
    requires WellFormed(hubs, l) && IsKind(hubs, home, Household)
    requires attended.Some? ==> IsKind(hubs, attended.value, School) || IsKind(hubs, attended.value, Workplace)
    ensures Distinct(StartKeys(home, attended, l))
    ensures forall h :: h in StartEdges(home, attended, l) <==> h in StartKeys(home, attended, l)
  {
    var ks := StartKeys(home, attended, l);
    forall i, j | 0 <= i < j < |ks| ensures ks[i] != ks[j] {
      assert IsKind(hubs, ks[i], hubs[ks[i]].kind) && IsKind(hubs, ks[j], hubs[ks[j]].kind);
    }
  }

  /** What `init_world` gives agent `i` for good: its household, cohort, attended
      hub and affiliations, and its structural edges with their insertion order. */
  ghost predicate Settled(p: Person, i: nat, l: Layout, n: Newcomer)
    reads p`assignedHub, p`affiliations, p`edgeKeys, p`edges
  {
    && l.households != [] && Fits(n, l)
    && p.id == i
    && p.home == HomeOf(l, i)
    && (p.age, p.mobility) == Cohort(n.ageDraw, n.coin)
    && p.assignedHub == Assignment(p.age, p.mobility, l, n)
    && p.affiliations == Affiliations(p.home, p.assignedHub)
    && p.edgeKeys == StartKeys(p.home, p.assignedHub, l)
    && p.edges == StartEdges(p.home, p.assignedHub, l)
  }

  /** A new agent as `init_world` leaves it before the graph and the seeds: healthy,
      with no neighbours. */
  ghost predicate Newborn(p: Person)
    reads p`state, p`infDur, p`neighbors
  {
    p.state == Susceptible && p.infDur == 0.0 && p.neighbors == []
  }

  /** The creation of agent `i`: the person is built, assigned its school or
      workplace, given its affiliations, and its structural edges are inserted one
      by one. */
  method Found(i: nat, hubs: seq<Hub>, l: Layout, cfg: Params, n: Newcomer) returns (p: Person)
    requires WellFormed(hubs, l) && Fits(n, l)
    ensures fresh(p)
    ensures Born(p, i, hubs, l, n)
  {
    var home := HomeOf(l, i);
    var cohort := Cohort(n.ageDraw, n.coin);
    p := new Person(i, home, cohort.0, cohort.1, cfg, n.jitter, n.spreaderDraw, n.maskDraw, n.start);
    p.assignedHub := Assignment(cohort.0, cohort.1, l, n);
    p.affiliations := p.affiliations + [home];
    if p.assignedHub.Some? {
      p.affiliations := p.affiliations + [p.assignedHub.value];
    }
    Anchor(p, hubs, l);
  }

  /** The structural edges of a new agent: home at full weight, then its school or
      workplace, market, hospital, quarantine, park, cafe and cemetery at zero, each
      a new entry of the dictionary. */
  method Anchor(p: Person, hubs: seq<Hub>, l: Layout)
    requires WellFormed(hubs, l) && IsKind(hubs, p.home, Household)
    requires p.assignedHub.Some? ==> IsKind(hubs, p.assignedHub.value, School) || IsKind(hubs, p.assignedHub.value, Workplace)
    requires p.edgeKeys == [] && p.edges == map[]
    modifies p`edgeKeys, p`edges
    ensures p.edgeKeys == StartKeys(p.home, p.assignedHub, l) && p.edges == StartEdges(p.home, p.assignedHub, l)
    ensures p.Valid() && forall h :: h in p.edges ==> h < |hubs|
  {
    StartEdgesShape(hubs, l, p.home, p.assignedHub);
    AnchorOwn(p, p.home, p.assignedHub);
    AnchorShared(p, hubs, l);
  }

  /** The edges to the agent's home and attended hub. */
  method AnchorOwn(p: Person, home: HubId, attended: Option<HubId>)
    requires attended.Some? ==> attended.value != home
    requires p.edgeKeys == [] && p.edges == map[]
    modifies p`edgeKeys, p`edges
    ensures p.edgeKeys == Affiliations(home, attended) && p.edges == OwnEdges(home, attended)
    ensures p.Valid()
  {
    p.PutEdge(home, 1.0);
    if attended.Some? {
      p.PutEdge(attended.value, 0.0);
    }
  }

  /** The edges to the shared hubs, none of which the agent is tied to yet. */
  method AnchorShared(p: Person, hubs: seq<Hub>, l: Layout)
    requires WellFormed(hubs, l) && p.Valid()
    requires l.market !in p.edges && l.hosp !in p.edges && l.quar !in p.edges
    requires l.park !in p.edges && l.cafe !in p.edges && l.cemetery !in p.edges
    modifies p`edgeKeys, p`edges
    ensures p.edgeKeys == SharedKeys(old(p.edgeKeys), l) && p.edges == Shared(old(p.edges), l)
    ensures p.Valid()
  {
    ghost var ks := p.edgeKeys;
    p.PutEdge(l.market, 0.0);
    ks := ks + [l.market];
    assert l.hosp !in p.edges && p.edgeKeys == ks;
    p.PutEdge(l.hosp, 0.0);
    ks := ks + [l.hosp];
    assert l.quar !in p.edges && p.edgeKeys == ks;
    p.PutEdge(l.quar, 0.0);
    ks := ks + [l.quar];
    assert l.park !in p.edges && p.edgeKeys == ks;
    p.PutEdge(l.park, 0.0);
    ks := ks + [l.park];
    assert l.cafe !in p.edges && p.edgeKeys == ks;
    p.PutEdge(l.cafe, 0.0);
    ks := ks + [l.cafe];
    assert l.cemetery !in p.edges && p.edgeKeys == ks;
    p.PutEdge(l.cemetery, 0.0);
  }

  // ---------------------------------------------------------------- the population

  /** Agent `i` as its creation leaves it: settled, newborn, and with a well-formed
      edge dictionary whose hubs exist. */
  ghost predicate Born(p: Person, i: nat, hubs: seq<Hub>, l: Layout, n: Newcomer)
    reads p
  {
    Settled(p, i, l, n) && Newborn(p) && p.Valid() && forall h :: h in p.edges ==> h < |hubs|
  }

  /** The population loop: agent `i` is created from the `i`-th newcomer's draws and
      counted in the demographics. */
  method Populate(hubs: seq<Hub>, l: Layout, cfg: Params, ns: seq<Newcomer>) returns (agents: seq<Person>, dm: Demographics)
    requires WellFormed(hubs, l) && forall k :: 0 <= k < |ns| ==> Fits(ns[k], l)
    ensures |agents| == |ns| && Distinct(agents) && dm == Enrolled(ns)
    ensures forall i :: 0 <= i < |agents| ==> fresh(agents[i]) && Born(agents[i], i, hubs, l, ns[i])
  {
    agents, dm := [], NoDemographics;
    for i := 0 to |ns|
      invariant |agents| == i && Distinct(agents) && dm == Enrolled(ns[..i])
      invariant forall j :: 0 <= j < i ==> fresh(agents[j]) && Born(agents[j], j, hubs, l, ns[j])
    {
      var p := Found(i, hubs, l, cfg, ns[i]);
      var cohort := Cohort(ns[i].ageDraw, ns[i].coin);
      dm := Enrol(dm, cohort.0, cohort.1);
      assert ns[..i + 1][..i] == ns[..i];
      assert dm == Enrolled(ns[..i + 1]);
      assert p !in agents;
      agents := agents + [p];
    }
    assert ns[..|ns|] == ns;
  }

  // ---------------------------------------------------------------- the social graph

  /** The graph loop: for each edge (u, v) of the generated graph, `v` joins the
      neighbours of `u` and then `u` those of `v`. */
  method Befriend(agents: seq<Person>, links: seq<(nat, nat)>)
    requires Distinct(agents) && EdgesWithin(|agents|, links)
    modifies agents`neighbors
    ensures NeighboursOf(agents) == Connect(old(NeighboursOf(agents)), links)
  {
    ghost var start := NeighboursOf(agents);
    for k := 0 to |links|
      invariant EdgesWithin(|agents|, links[..k])
      invariant NeighboursOf(agents) == Connect(start, links[..k])
    {
      var u, v := links[k].0, links[k].1;
      ghost var before := NeighboursOf(agents);
      agents[u].neighbors := agents[u].neighbors + [v];
      agents[v].neighbors := agents[v].neighbors + [u];
      assert links[..k + 1][..k] == links[..k];
      ConnectLast(start, links[..k + 1]);
      assert NeighboursOf(agents) == Link(before, u, v);
    }
    assert links[..|links|] == links;
  }

  /** An agent's edge dictionary is well formed and names only existing hubs. */
  ghost predicate Tethered(p: Person, hubs: seq<Hub>)
    reads p`edgeKeys, p`edges
  {
    p.Valid() && forall h :: h in p.edges ==> h < |hubs|
  }

  /** Every agent is tethered. */
  ghost predicate Anchored(agents: seq<Person>, hubs: seq<Hub>)
    reads agents`edgeKeys, agents`edges
  {
    forall i :: 0 <= i < |agents| ==> Tethered(agents[i], hubs)
  }

  /** Every agent is settled as `init_world` leaves it, with a well-formed edge
      dictionary whose hubs exist. */
  ghost predicate Founded(agents: seq<Person>, hubs: seq<Hub>, l: Layout, ns: seq<Newcomer>)
    reads agents`assignedHub, agents`affiliations, agents`edgeKeys, agents`edges
  {
    && |agents| == |ns|
    && Anchored(agents, hubs)
    && forall i {:trigger Settled(agents[i], i, l, ns[i])} :: 0 <= i < |agents| ==> Settled(agents[i], i, l, ns[i])
  }

  /** Every agent is susceptible and was never infected. */
  ghost predicate Healthy(agents: seq<Person>)
    reads agents`state, agents`infDur
  {
    forall i :: 0 <= i < |agents| ==> agents[i].state == Susceptible && agents[i].infDur == 0.0
  }

  /** The population and the social graph of `init_world`: the agents are created
      and then linked along the edges of the generated graph. */
  method Inhabit(hubs: seq<Hub>, l: Layout, cfg: Params, ns: seq<Newcomer>, links: seq<(nat, nat)>)
    returns (agents: seq<Person>, dm: Demographics)
    requires WellFormed(hubs, l) && forall k :: 0 <= k < |ns| ==> Fits(ns[k], l)
    requires EdgesWithin(|ns|, links)
    ensures Distinct(agents) && dm == Enrolled(ns)
    ensures forall i :: 0 <= i < |agents| ==> fresh(agents[i])
    ensures Founded(agents, hubs, l, ns) && Healthy(agents)
    ensures NeighboursOf(agents) == Connect(Lonely(|ns|), links)
  {
    agents, dm := Populate(hubs, l, cfg, ns);
    Newcomers(agents, hubs, l, ns);
    Socialise(agents, hubs, l, ns, links);
  }

  /** Linking a founded, healthy population along the graph's edges leaves it
      founded and healthy. */
  method Socialise(agents: seq<Person>, hubs: seq<Hub>, l: Layout, ns: seq<Newcomer>, links: seq<(nat, nat)>)
    requires Distinct(agents) && EdgesWithin(|agents|, links)
    requires Founded(agents, hubs, l, ns) && Healthy(agents)
    modifies agents`neighbors
    ensures Founded(agents, hubs, l, ns) && Healthy(agents)
    ensures NeighboursOf(agents) == Connect(old(NeighboursOf(agents)), links)
  {
    Befriend(agents, links);
  }

  /** A population of new agents is founded and healthy and has no neighbours. */
  lemma Newcomers(agents: seq<Person>, hubs: seq<Hub>, l: Layout, ns: seq<Newcomer>)
    requires |agents| == |ns| && forall i :: 0 <= i < |agents| ==> Born(agents[i], i, hubs, l, ns[i])
    ensures Founded(agents, hubs, l, ns) && Healthy(agents)
    ensures NeighboursOf(agents) == Lonely(|ns|)
  {
    forall i | 0 <= i < |agents|
      ensures Settled(agents[i], i, l, ns[i])
    {
      assert Born(agents[i], i, hubs, l, ns[i]);
    }
  }

  /** Lists with no neighbours. */
  function Lonely(n: nat): (adj: Lists)
    ensures |adj| == n && forall i :: 0 <= i < n ==> adj[i] == []
  {
    seq(n, i => [])
  }

  /** Starting from no neighbours, the social graph is symmetric and holds two
      entries per edge. */
  lemma SocialGraphShape(n: nat, links: seq<(nat, nat)>)
    requires EdgesWithin(n, links)
    ensures Symmetric(Connect(Lonely(n), links))
    ensures Entries(Connect(Lonely(n), links)) == 2 * |links|
  {
    LonelyEntries(n);
    ConnectSymmetric(Lonely(n), links);
  }

  lemma {:induction false} LonelyEntries(n: nat)
    ensures Entries(Lonely(n)) == 0
  {
    if n > 0 {
      assert Lonely(n)[..n - 1] == Lonely(n - 1);
      LonelyEntries(n - 1);
    }
  }

  // ---------------------------------------------------------------- the seeds

  /** How many agents are infected at start: `min(int(init_infected), population)`. */
  function SeedCount(cfg: Params, n: nat): (k: int)
    ensures k <= n
    ensures cfg.initInfected >= 0.0 ==> 0 <= k
  {
    Min(Trunc(cfg.initInfected), n)
  }

  /** The health states after seeding: the seeds are Latent, everybody else
      Susceptible. */
  function Seeded(n: nat, seeds: seq<nat>): (s: seq<HealthState>)
    ensures |s| == n
    ensures forall i :: 0 <= i < n ==> (s[i] == Latent <==> i in seeds) && (s[i] == Susceptible <==> i !in seeds)
  {
    seq(n, i => if i in seeds then Latent else Susceptible)
  }

  /** The first census after seeding counts exactly the seeds as active and every
      other agent as susceptible. */
  lemma SeededCensus(n: nat, seeds: seq<nat>)
    requires Distinct(seeds) && forall k :: 0 <= k < |seeds| ==> seeds[k] < n
    ensures |seeds| <= n && CensusOf(Seeded(n, seeds)) == Census(n - |seeds|, |seeds|, 0, 0, 0)
  {
    DistinctCard(seeds);
    DistinctBelow(seeds, n);
    SeededCounts(n, seeds, n);
    assert Chosen(seeds, n) == Elements(seeds);
    assert Seeded(n, seeds)[..n] == Seeded(n, seeds);
  }

  /** The seeds below `m`. */
  function Chosen(seeds: seq<nat>, m: nat): set<nat> {
    set x | x in seeds && x < m
  }

  /** Moving the bound up by one adds the agent below it if it is a seed. */
  lemma ChosenStep(seeds: seq<nat>, m: nat)
    requires m > 0
    ensures |Chosen(seeds, m)| == |Chosen(seeds, m - 1)| + (if m - 1 in seeds then 1 else 0)
    ensures |Chosen(seeds, m)| <= m
  {
    if m - 1 in seeds {
      assert Chosen(seeds, m) == Chosen(seeds, m - 1) + {m - 1};
    } else {
      assert Chosen(seeds, m) == Chosen(seeds, m - 1);
    }
    assert Chosen(seeds, m) <= Below(m);
    SubsetCard(Chosen(seeds, m), Below(m));
  }

  /** Among the first `m` agents, the seeded ones are the seeds below `m`. */
  lemma {:induction false} SeededCounts(n: nat, seeds: seq<nat>, m: nat)
    requires m <= n
    ensures var c := |Chosen(seeds, m)|;
            c <= m && CensusOf(Seeded(n, seeds)[..m]) == Census(m - c, c, 0, 0, 0)
  {
    var s := Seeded(n, seeds);
    if m == 0 {
      assert Chosen(seeds, m) == {};
      assert s[..m] == [];
    } else {
      SeededCounts(n, seeds, m - 1);
      ChosenStep(seeds, m);
      CensusStep(s, m - 1);
      var c := |Chosen(seeds, m - 1)|;
      assert CensusOf(s[..m]) == Tally(Census(m - 1 - c, c, 0, 0, 0), s[m - 1]);
    }
  }

  // ---------------------------------------------------------------- the world

  /** Every agent ever infected has an infectious duration of at least two days. */
  ghost predicate PrimedAll(agents: seq<Person>)
    reads agents`state, agents`infDur
  {
    forall i :: 0 <= i < |agents| ==> Primed(agents[i].state, agents[i].infDur)
  }

  /** The world as `init_world` leaves it: every agent founded, the neighbour lists
      those of the social graph, the seeds infected with their own duration samples
      (`onsets`) and every other agent susceptible. */
  ghost predicate Initialised(agents: seq<Person>, hubs: seq<Hub>, l: Layout, ns: seq<Newcomer>,
                              links: seq<(nat, nat)>, seeds: seq<nat>, onsets: seq<(real, real)>)
    reads agents`assignedHub, agents`affiliations, agents`edgeKeys, agents`edges
    reads agents`state, agents`infDur, agents`latentDur, agents`neighbors
  {
    && Founded(agents, hubs, l, ns)
    && PrimedAll(agents)
    && EdgesWithin(|ns|, links) && NeighboursOf(agents) == Connect(Lonely(|ns|), links)
    && StatesOf(agents) == Seeded(|ns|, seeds)
    && |onsets| == |seeds|
    && forall k :: 0 <= k < |seeds| ==>
         seeds[k] < |agents| && agents[seeds[k]].latentDur == MaxR(0.5, onsets[k].0) && agents[seeds[k]].infDur == MaxR(2.0, onsets[k].1)
  }
}
