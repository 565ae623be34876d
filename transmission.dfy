/** Transmission through locations (`process_graph_transmission`, first two loops):
    every shedding agent deposits virus in the hubs it is strongly tied to, and every
    agent found susceptible undergoes one infection trial per hub it is tied to that
    carries virus. */
module Transmission {
  import opened Basics
  import opened Enums
  import opened Config
  import opened Hubs
  import opened Disease

  /** Only edges heavier than this carry virus in either direction. */
  const EDGE_THRESHOLD: real := 0.1

  // ---------------------------------------------------------------- viral load

  /** What one agent shedding `shed` deposits in hub `h` through its edges: its
      shedding times the edge weight, if it sheds and the edge is strong enough. */
  function Deposit(shed: real, edges: map<HubId, real>, h: HubId): (v: real)
    ensures v >= 0.0
    ensures v > 0.0 <==> shed > 0.0 && h in edges && edges[h] > EDGE_THRESHOLD
    ensures shed >= 0.0 && (h in edges ==> edges[h] <= 1.0) ==> v <= shed
  {
    if shed > 0.0 && h in edges && edges[h] > EDGE_THRESHOLD then
      var w := edges[h];
      MulPos(shed, w);
      Bounded(shed, w);
      shed * w
    else 0.0
  }

  lemma MulPos(a: real, b: real)
    requires a > 0.0 && b > 0.0
    ensures a * b > 0.0
  {
  }

  lemma Bounded(a: real, b: real)
    requires a > 0.0
    ensures b <= 1.0 ==> a * b <= a
  {
    if b <= 1.0 {
      calc { a * b; <= a * 1.0; == a; }
    }
  }

  /** The viral load of hub `h` given the shedding and the edges of each agent: the
      sum of the agents' deposits. */
  function Load(sheds: seq<real>, edges: seq<map<HubId, real>>, h: HubId): (v: real)
    requires |sheds| == |edges|
    ensures v >= 0.0
    ensures v > 0.0 <==> exists i :: 0 <= i < |sheds| && Deposit(sheds[i], edges[i], h) > 0.0
    decreases |sheds|
  {
    if sheds == [] then 0.0
    else
      var n := |sheds| - 1;
      var rest := Load(sheds[..n], edges[..n], h);
      assert forall i :: 0 <= i < n ==> sheds[..n][i] == sheds[i] && edges[..n][i] == edges[i];
      rest + Deposit(sheds[n], edges[n], h)
  }

  // ---------------------------------------------------------------- infection trials

  /** The random values one infection trial consumes: the uniform draw and, should it
      succeed, the Gaussian samples of the latent and infectious durations. */
  datatype TrialDraws = TrialDraws(u: real, latent: real, inf: real)

  /** The daily infection hazard an agent faces in hub `hub` carrying `load`, tied to
      it with weight `w`: the load per place of capacity (plus one), scaled by the
      hub's risk, the transmission rate, one half, distancing and the weight. */
  function LocationHazard(load: real, hub: Hub, w: real, cfg: Params): (risk: real)
    requires hub.capacity >= 0
    ensures cfg.beta == 0.0 ==> risk == 0.0
  {
    load / (hub.capacity as real + 1.0) * (hub.riskMult * cfg.beta * 0.5 * Distancing(cfg) * w)
  }

  /** The hubs an agent is exposed to: its edges heavier than the threshold, to hubs
      carrying virus. */
  predicate Exposes(edges: map<HubId, real>, loads: seq<real>, h: HubId) {
    h in edges && edges[h] > EDGE_THRESHOLD && h < |loads| && loads[h] > 0.0
  }

  /** The edge keys name hubs that exist. */
  predicate KeysWithin(keys: seq<HubId>, edges: map<HubId, real>, loads: seq<real>, hubs: seq<Hub>) {
    forall k :: 0 <= k < |keys| ==> keys[k] in edges && keys[k] < |loads| && keys[k] < |hubs|
  }

  /** The location trials of one agent, in edge order, each consuming its own draws.
      The agent's susceptibility to the trial is evaluated afresh at each hub, but the
      agent's state is not re-checked: an agent infected at one hub is tried again at
      the next ones. */
  function Exposed(b: Bio, t: Traits, keys: seq<HubId>, edges: map<HubId, real>, loads: seq<real>,
                   hubs: seq<Hub>, cfg: Params, dt: real, expNeg: NegExp, draws: seq<TrialDraws>): (r: Bio)
    requires Defined(expNeg) && |draws| >= |keys| && KeysWithin(keys, edges, loads, hubs)
    requires forall k :: 0 <= k < |hubs| ==> hubs[k].capacity >= 0
    ensures r.state == b.state || r.state == Latent
    ensures r.immunity == b.immunity && r.inQuarantine == b.inQuarantine && r.aim == b.aim
    ensures r != b ==> exists k :: 0 <= k < |keys| && Exposes(edges, loads, keys[k])
    ensures Primed(b.state, b.infDur) ==> Primed(r.state, r.infDur)
    decreases |keys|
  {
    if keys == [] then b
    else
      var h := keys[0];
      var b' :=
        if edges[h] > EDGE_THRESHOLD && loads[h] > 0.0 then
          var prob := Chance(expNeg, LocationHazard(loads[h], hubs[h], edges[h], cfg), dt);
          Trial(b, t, cfg, prob, draws[0].u, draws[0].latent, draws[0].inf)
        else b;
      var r := Exposed(b', t, keys[1..], edges, loads, hubs, cfg, dt, expNeg, draws[1..]);
      assert r != b' ==> exists k :: 1 <= k < |keys| && Exposes(edges, loads, keys[k]) by {
        if r != b' {
          var k :| 0 <= k < |keys[1..]| && Exposes(edges, loads, keys[1..][k]);
          assert keys[1..][k] == keys[k + 1];
        }
      }
      r
  }

  /** The trial at position `k` of the loop runs (the hub exposes the agent) and
      catches an agent with immunity `immunity`. */
  predicate CaughtAt(immunity: real, t: Traits, keys: seq<HubId>, edges: map<HubId, real>, loads: seq<real>,
                     hubs: seq<Hub>, cfg: Params, dt: real, expNeg: NegExp, draws: seq<TrialDraws>, k: nat)
    requires Defined(expNeg) && k < |keys| && k < |draws| && KeysWithin(keys, edges, loads, hubs)
    requires forall j :: 0 <= j < |hubs| ==> hubs[j].capacity >= 0
  {
    var h := keys[k];
    && Exposes(edges, loads, h)
    && Catches(Chance(expNeg, LocationHazard(loads[h], hubs[h], edges[h], cfg), dt), draws[k].u, Susceptibility(immunity, t, cfg))
  }

  /** The location trials leave the agent Latent exactly when it was Latent already or
      some trial of the loop catches it: every caught trial infects, and later trials
      can only infect it again. */
  lemma {:induction false} ExposedLatent(b: Bio, t: Traits, keys: seq<HubId>, edges: map<HubId, real>,
                                         loads: seq<real>, hubs: seq<Hub>, cfg: Params, dt: real,
                                         expNeg: NegExp, draws: seq<TrialDraws>)
    requires Defined(expNeg) && |draws| >= |keys| && KeysWithin(keys, edges, loads, hubs)
    requires forall j :: 0 <= j < |hubs| ==> hubs[j].capacity >= 0
    ensures Exposed(b, t, keys, edges, loads, hubs, cfg, dt, expNeg, draws).state == Latent
            <==> b.state == Latent || exists k :: 0 <= k < |keys| && CaughtAt(b.immunity, t, keys, edges, loads, hubs, cfg, dt, expNeg, draws, k)
    decreases |keys|
  {
    if keys != [] {
      var h := keys[0];
      var b' :=
        if edges[h] > EDGE_THRESHOLD && loads[h] > 0.0 then
          Trial(b, t, cfg, Chance(expNeg, LocationHazard(loads[h], hubs[h], edges[h], cfg), dt), draws[0].u, draws[0].latent, draws[0].inf)
        else b;
      assert KeysWithin(keys[1..], edges, loads, hubs) by {
        forall j | 0 <= j < |keys[1..]| ensures keys[1..][j] == keys[j + 1] { }
      }
      ExposedLatent(b', t, keys[1..], edges, loads, hubs, cfg, dt, expNeg, draws[1..]);
      assert b'.immunity == b.immunity;
      assert b'.state == Latent <==> b.state == Latent || CaughtAt(b.immunity, t, keys, edges, loads, hubs, cfg, dt, expNeg, draws, 0);
      forall k | 0 <= k < |keys[1..]|
        ensures CaughtAt(b'.immunity, t, keys[1..], edges, loads, hubs, cfg, dt, expNeg, draws[1..], k)
                == CaughtAt(b.immunity, t, keys, edges, loads, hubs, cfg, dt, expNeg, draws, k + 1)
      {
        assert keys[1..][k] == keys[k + 1] && draws[1..][k] == draws[k + 1];
      }
      if exists k :: 0 <= k < |keys| && CaughtAt(b.immunity, t, keys, edges, loads, hubs, cfg, dt, expNeg, draws, k) {
        var k :| 0 <= k < |keys| && CaughtAt(b.immunity, t, keys, edges, loads, hubs, cfg, dt, expNeg, draws, k);
        if k > 0 {
          assert CaughtAt(b'.immunity, t, keys[1..], edges, loads, hubs, cfg, dt, expNeg, draws[1..], k - 1);
        }
      }
    }
  }

  /** Without transmission (zero beta, exp(0) = 1, non-negative draws) the location
      trials never infect anyone. */
  lemma {:induction false} NoExposureWithoutBeta(b: Bio, t: Traits, keys: seq<HubId>, edges: map<HubId, real>,
                                                 loads: seq<real>, hubs: seq<Hub>, cfg: Params, dt: real,
                                                 expNeg: NegExp, draws: seq<TrialDraws>)
    requires Defined(expNeg) && |draws| >= |keys| && KeysWithin(keys, edges, loads, hubs)
    requires forall k :: 0 <= k < |hubs| ==> hubs[k].capacity >= 0
    requires cfg.beta == 0.0 && expNeg[0.0] == 1.0
    requires forall k :: 0 <= k < |draws| ==> draws[k].u >= 0.0
    ensures Exposed(b, t, keys, edges, loads, hubs, cfg, dt, expNeg, draws) == b
    decreases |keys|
  {
    if keys != [] {
      var h := keys[0];
      if edges[h] > EDGE_THRESHOLD && loads[h] > 0.0 {
        assert LocationHazard(loads[h], hubs[h], edges[h], cfg) == 0.0;
        assert Chance(expNeg, LocationHazard(loads[h], hubs[h], edges[h], cfg), dt) == 0.0;
      }
      assert forall k :: 0 <= k < |draws[1..]| ==> draws[1..][k].u >= 0.0 by {
        forall k | 0 <= k < |draws[1..]| ensures draws[1..][k].u >= 0.0 {
          assert draws[1..][k] == draws[k + 1];
        }
      }
      NoExposureWithoutBeta(b, t, keys[1..], edges, loads, hubs, cfg, dt, expNeg, draws[1..]);
    }
  }

  /** The susceptibility check happens once, before the trials: an agent infected at
      its first hub is tried again at a second hub carrying virus, and if that trial
      succeeds it is infected anew, restarting its latent period with the durations
      drawn there. */
  lemma LaterHubReinfects(b: Bio, t: Traits, h1: HubId, h2: HubId, edges: map<HubId, real>, loads: seq<real>,
                          hubs: seq<Hub>, cfg: Params, dt: real, expNeg: NegExp, d1: TrialDraws, d2: TrialDraws)
    requires Defined(expNeg) && h1 < |hubs| && h2 < |hubs|
    requires forall k :: 0 <= k < |hubs| ==> hubs[k].capacity >= 0
    requires Exposes(edges, loads, h1) && Exposes(edges, loads, h2)
    requires Catches(Chance(expNeg, LocationHazard(loads[h1], hubs[h1], edges[h1], cfg), dt), d1.u, Susceptibility(b.immunity, t, cfg))
    requires Catches(Chance(expNeg, LocationHazard(loads[h2], hubs[h2], edges[h2], cfg), dt), d2.u, Susceptibility(b.immunity, t, cfg))
    ensures Exposed(b, t, [h1, h2], edges, loads, hubs, cfg, dt, expNeg, [d1, d2])
         == Infected(b, t.superspreader, cfg, d2.latent, d2.inf)
  {
    var b1 := Infected(b, t.superspreader, cfg, d1.latent, d1.inf);
    assert KeysWithin([h1, h2], edges, loads, hubs);
    assert [h1, h2][1..] == [h2] && [d1, d2][1..] == [d2];
    assert [h2][1..] == [] && [d2][1..] == [];
    assert Infected(b1, t.superspreader, cfg, d2.latent, d2.inf) == Infected(b, t.superspreader, cfg, d2.latent, d2.inf);
  }
}
