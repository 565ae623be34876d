/** An agent of the simulation (`Person`): its fixed traits, its health record, where
    it is headed and where it is, and its structural edges to hubs, whose weights fade
    towards 1 for the hub it stands in and towards 0 for the others. */
module Entities {
  import opened Basics
  import opened Enums
  import opened Config
  import opened Hubs
  import opened Disease

  // ---------------------------------------------------------------- shedding

  /** The shedding curve over the fraction of the infectious period elapsed: a linear
      rise to its peak at 30% and a linear fall to zero at 100%. */
  function Profile(progress: real): (v: real)
    ensures 0.0 <= progress <= 1.0 ==> 0.0 <= v <= 1.0
    ensures progress == 0.3 ==> v == 1.0
    ensures progress == 0.0 || progress == 1.0 ==> v == 0.0
  {
    if progress < 0.3 then progress / 0.3 else 1.0 - (progress - 0.3) / 0.7
  }

  /** The curve rises up to the peak and falls after it. */
  lemma ProfileUnimodal(x: real, y: real)
    requires x <= y
    ensures y <= 0.3 ==> Profile(x) <= Profile(y)
    ensures 0.3 <= x ==> Profile(x) >= Profile(y)
  {
  }

  /** A fraction of a non-negative amount lies between zero and the amount. */
  lemma ScaledWithin(f: real, a: real)
    ensures 0.0 <= f <= 1.0 && a >= 0.0 ==> 0.0 <= f * a <= a && 0.0 <= a * f <= a
  {
    if 0.0 <= f <= 1.0 && a >= 0.0 {
      MulLe(f, 1.0, a);
      MulLe(0.0, f, a);
    }
  }

  /** The shedding of an unmasked agent at the given progress, for a given peak. */
  function Curve(progress: real, peak: real): (amt: real)
    ensures 0.0 <= progress <= 1.0 && peak >= 0.0 ==> 0.0 <= amt <= peak
    ensures progress == 0.3 ==> amt == peak
    ensures progress == 0.0 || progress == 1.0 ==> amt == 0.0
  {
    ScaledWithin(Profile(progress), peak);
    Profile(progress) * peak
  }

  /** A mask cuts the shedding by the mask efficacy. */
  function MaskCut(amt: real, masked: bool, efficacy: real): (r: real)
    ensures !masked ==> r == amt
    ensures masked && efficacy == 1.0 ==> r == 0.0
    ensures amt >= 0.0 && 0.0 <= efficacy <= 1.0 ==> 0.0 <= r <= amt
  {
    ScaledWithin(1.0 - efficacy, amt);
    if masked then amt * (1.0 - efficacy) else amt
  }

  /** Over a positive period, the progress lies in [0, 1] exactly within the period. */
  lemma ProgressRange(days: real, dur: real)
    ensures dur > 0.0 ==> (0.0 <= days / dur <= 1.0 <==> 0.0 <= days <= dur)
  {
    if dur > 0.0 {
      var p := days / dur;
      assert days == p * dur;
      if 0.0 <= p <= 1.0 {
        MulLe(0.0, p, dur);
        MulLe(p, 1.0, dur);
        calc { 0.0; == 0.0 * dur; <= p * dur; == days; }
        calc { days; == p * dur; <= 1.0 * dur; == dur; }
      } else if p < 0.0 {
        MulLt(p, 0.0, dur);
      } else {
        MulLt(1.0, p, dur);
      }
    }
  }

  /** Thirty percent into a positive period is progress 0.3. */
  lemma PeakAt(days: real, dur: real)
    ensures dur > 0.0 && days == 0.3 * dur ==> days / dur == 0.3
  {
  }

  // ---------------------------------------------------------------- edge fading

  /** The weight an edge fades towards: 1 for the hub the agent stands in, 0 for the
      others (and for all of them while it is in transit). */
  function Goal(current: Option<HubId>, h: HubId): (t: real)
    ensures t == 0.0 || t == 1.0
    ensures t == 1.0 <==> current == Some(h)
  {
    if current == Some(h) then 1.0 else 0.0
  }

  /** One fading step of a weight towards its goal by at most `speed`, never past it. */
  function Fade(w: real, goal: real, speed: real): (r: real)
    ensures speed >= 0.0 && w <= goal ==> w <= r <= goal
    ensures speed >= 0.0 && w >= goal ==> goal <= r <= w
    ensures goal - speed <= w <= goal + speed ==> r == goal
    ensures speed >= 0.0 && w < goal - speed ==> r == w + speed
    ensures speed >= 0.0 && w > goal + speed ==> r == w - speed
  {
    if w < goal then MinR(goal, w + speed)
    else if w > goal then MaxR(goal, w - speed)
    else w
  }

  /** `n` consecutive fading steps towards the same goal. */
  function FadeTimes(w: real, goal: real, speed: real, n: nat): real
    decreases n
  {
    if n == 0 then w else FadeTimes(Fade(w, goal, speed), goal, speed, n - 1)
  }

  /** Once the agent has stayed put long enough for `n` steps to cover the distance
      from the old weight to its goal, the weight has reached the goal exactly. */
  lemma {:induction false} FadeReachesGoal(w: real, goal: real, speed: real, n: nat)
    requires speed > 0.0
    requires w - goal <= n as real * speed && goal - w <= n as real * speed
    ensures FadeTimes(w, goal, speed, n) == goal
    decreases n
  {
    if n > 0 {
      var w' := Fade(w, goal, speed);
      assert w' - goal <= (n - 1) as real * speed && goal - w' <= (n - 1) as real * speed;
      FadeReachesGoal(w', goal, speed, n - 1);
    }
  }

  /** The weights of all edges after one fading step (`update_edge_weights`). */
  function FadeAll(edges: map<HubId, real>, current: Option<HubId>, speed: real): (r: map<HubId, real>)
    ensures r.Keys == edges.Keys
    ensures forall h :: h in r ==> r[h] == Fade(edges[h], Goal(current, h), speed)
  {
    map h | h in edges :: Fade(edges[h], Goal(current, h), speed)
  }

  /** Edge weights in [0, 1] stay in [0, 1], and only the edge of the current hub can
      grow. */
  lemma FadeAllKeepsUnit(edges: map<HubId, real>, current: Option<HubId>, speed: real)
    requires speed >= 0.0
    requires forall h :: h in edges ==> 0.0 <= edges[h] <= 1.0
    ensures var r := FadeAll(edges, current, speed);
            forall h :: h in r ==> 0.0 <= r[h] <= 1.0 && (current != Some(h) ==> r[h] <= edges[h])
  {
  }

  // ---------------------------------------------------------------- movement

  /** A square-root table supplied by the caller (distances are Euclidean). */
  type Root = imap<real, real>

  /** The table gives the non-negative square root of every non-negative number. */
  ghost predicate IsRoot(root: Root) {
    forall x :: x >= 0.0 ==> x in root && root[x] >= 0.0 && root[x] * root[x] == x
  }

  /** Euclidean distance between two points. */
  function Dist(root: Root, p: Point, q: Point): (d: real)
    requires IsRoot(root)
    ensures d >= 0.0 && d * d == DistSq(p, q)
  {
    root[DistSq(p, q)]
  }

  /** Comparing a distance with a length is comparing its square with the square of
      a non-negative length: the model's movement needs no square root to decide
      arrival. */
  lemma DistWithin(root: Root, p: Point, q: Point, len: real)
    requires IsRoot(root)
    ensures Dist(root, p, q) <= len <==> len >= 0.0 && DistSq(p, q) <= len * len
  {
    var d := Dist(root, p, q);
    if d <= len {
      MulLe(d, len, d);
      MulLe(d, len, len);
      calc { DistSq(p, q); == d * d; <= d * len; <= len * len; }
    } else if len >= 0.0 {
      MulLt(len, d, d);
      MulLe(len, d, len);
      calc { len * len; <= len * d; < d * d; == DistSq(p, q); }
    }
  }

  /** Multiplying by a non-negative factor keeps an order. */
  lemma MulLe(a: real, b: real, c: real)
    requires a <= b && c >= 0.0
    ensures a * c <= b * c && c * a <= c * b
  {
  }

  /** Multiplying by a positive factor keeps a strict order. */
  lemma MulLt(a: real, b: real, c: real)
    requires a < b && c > 0.0
    ensures a * c < b * c && c * a < c * b
  {
  }

  /** The position `k` of the way from `p` to `q`. */
  function Toward(p: Point, q: Point, k: real): Point {
    Point(p.x + (q.x - p.x) * k, p.y + (q.y - p.y) * k)
  }

  /** Moving `k` of the way covers `k` of the distance and leaves `1 - k` of it. */
  lemma TowardDistances(p: Point, q: Point, k: real)
    ensures DistSq(p, Toward(p, q, k)) == k * k * DistSq(p, q)
    ensures DistSq(Toward(p, q, k), q) == (1.0 - k) * (1.0 - k) * DistSq(p, q)
  {
    var dx, dy := q.x - p.x, q.y - p.y;
    var t := Toward(p, q, k);
    assert p.x - t.x == -(dx * k) && p.y - t.y == -(dy * k);
    assert t.x - q.x == -(dx * (1.0 - k)) && t.y - q.y == -(dy * (1.0 - k));
    calc {
      DistSq(p, t);
      (dx * k) * (dx * k) + (dy * k) * (dy * k);
      k * k * (dx * dx + dy * dy);
    }
    calc {
      DistSq(t, q);
      (dx * (1.0 - k)) * (dx * (1.0 - k)) + (dy * (1.0 - k)) * (dy * (1.0 - k));
      (1.0 - k) * (1.0 - k) * (dx * dx + dy * dy);
    }
  }

  /** Distance an agent covers in one update: speed 500 (100 when dead) for 5 * dt. */
  function StepLength(dead: bool, dt: real): (len: real)
    ensures dt >= 0.0 ==> len >= 0.0
    ensures dead ==> len == 500.0 * dt
    ensures !dead ==> len == 2500.0 * dt
  {
    500.0 * (if dead then 0.2 else 1.0) * dt * 5.0
  }

  /** Where an agent is: its position and the hub it stands in, if any. */
  datatype Place = Place(pos: Point, at: Option<HubId>)

  /** The random values one movement step consumes: the draw that decides whether an
      arriving agent is jittered, and the jitter itself. */
  datatype MoveDraws = MoveDraws(jitterDraw: real, jitter: Point)

  /** `move_spatial` (for an agent not already resting in the cemetery): an agent
      within one step of its target point arrives there, stands in its target hub and,
      if alive, is jittered with probability 0.05; otherwise it leaves any hub and
      moves one step along the straight line towards the point. */
  function Moved(m: Place, dead: bool, aim: Aim, dt: real, root: Root, d: MoveDraws): (r: Place)
    requires IsRoot(root)
    ensures r.at.Some? <==> StepLength(dead, dt) >= 0.0 && DistSq(m.pos, aim.pos) <= StepLength(dead, dt) * StepLength(dead, dt)
    ensures r.at.Some? ==> r.at == Some(aim.hub)
    ensures r.at.Some? && (dead || d.jitterDraw >= 0.05) ==> r.pos == aim.pos
    ensures r.at.Some? && !dead && d.jitterDraw < 0.05 ==> r.pos == aim.pos.Plus(d.jitter)
    ensures r.at.None? && dt >= 0.0 ==>
              DistSq(m.pos, r.pos) == StepLength(dead, dt) * StepLength(dead, dt) &&
              Dist(root, r.pos, aim.pos) == Dist(root, m.pos, aim.pos) - StepLength(dead, dt)
  {
    var dist := Dist(root, m.pos, aim.pos);
    var len := StepLength(dead, dt);
    DistWithin(root, m.pos, aim.pos, len);
    if dist <= len then
      Place(if !dead && d.jitterDraw < 0.05 then aim.pos.Plus(d.jitter) else aim.pos, Some(aim.hub))
    else
      var next := if dist > 0.0 then Toward(m.pos, aim.pos, len / dist) else m.pos;
      if len >= 0.0 then TransitStep(root, m.pos, aim.pos, len); Place(next, None)
      else Place(next, None)
  }

  /** A step of length `len` shorter than the distance to the target lands exactly
      `len` away from the start and `len` closer to the target. */
  lemma TransitStep(root: Root, p: Point, q: Point, len: real)
    requires IsRoot(root)
    requires 0.0 <= len < Dist(root, p, q)
    ensures var t := Toward(p, q, len / Dist(root, p, q));
            DistSq(p, t) == len * len && Dist(root, t, q) == Dist(root, p, q) - len
  {
    var dist := Dist(root, p, q);
    var k := len / dist;
    var t := Toward(p, q, k);
    assert k * dist == len;
    TowardDistances(p, q, k);
    calc {
      DistSq(p, t);
      k * k * DistSq(p, q);
      k * k * (dist * dist);
      (k * dist) * (k * dist);
      len * len;
    }
    var rest := dist - len;
    assert (1.0 - k) * dist == rest;
    calc {
      DistSq(t, q);
      (1.0 - k) * (1.0 - k) * DistSq(p, q);
      (1.0 - k) * (1.0 - k) * (dist * dist);
      ((1.0 - k) * dist) * ((1.0 - k) * dist);
      rest * rest;
    }
    RootUnique(root, DistSq(t, q), rest);
  }

  /** The table's root of `x * x` is `x`, for non-negative `x`. */
  lemma RootUnique(root: Root, sq: real, x: real)
    requires IsRoot(root)
    requires x >= 0.0 && sq == x * x
    ensures root[sq] == x
  {
    MulLe(0.0, x, x);
    var r := root[sq];
    assert r * r == sq;
    if r < x {
      MulLe(r, x, r);
      MulLt(r, x, x);
      calc { sq; == r * r; <= r * x; < x * x; }
    } else if r > x {
      MulLe(x, r, x);
      MulLt(x, r, r);
      calc { sq; == x * x; <= x * r; < r * r; }
    }
  }

  // ---------------------------------------------------------------- the agent

  /** Typical constitution of an age group before the individual jitter. */
  function BaseConstitution(age: AgeGroup): real {
    match age
    case Child => 0.8
    case Adult => 0.6
    case Senior => 0.3
  }

  class Person {
    const id: nat
    const home: HubId
    const age: AgeGroup
    const mobility: Mobility
    const constitution: real
    const isSuperspreader: bool
    const masked: bool

    var state: HealthState
    var vaccinated: bool
    var inQuarantine: bool
    var daysInState: real
    var immunity: real
    var latentDur: real
    var infDur: real
    var peakShedding: real
    var hospitalStayDur: real

    var assignedHub: Option<HubId>
    var target: HubId
    var targetPos: Point
    var simPos: Point
    var currentHub: Option<HubId>

    /** Indices (in the engine's agent list) of the agent's social-graph neighbours. */
    var neighbors: seq<nat>
    /** The home and, if any, the school or workplace. */
    var affiliations: seq<HubId>
    /** The hubs of the structural edges in insertion order, and their weights. */
    var edgeKeys: seq<HubId>
    var edges: map<HubId, real>

    /** The edge dictionary: each hub once, in `edgeKeys`, with a weight. */
    ghost predicate Valid()
      reads this`edgeKeys, this`edges
    {
      Distinct(edgeKeys) && forall h :: h in edges <==> h in edgeKeys
    }

    /** The health record disease progression reads and writes. */
    function Bio(): Bio
      reads this`state, this`daysInState, this`immunity, this`inQuarantine, this`latentDur, this`infDur,
            this`peakShedding, this`target, this`targetPos
    {
      Disease.Bio(state, daysInState, immunity, inQuarantine, latentDur, infDur, peakShedding, Aiming())
    }

    /** The traits disease progression reads but does not write. */
    function Traits(): Traits
      reads this`vaccinated, this`currentHub
    {
      Disease.Traits(age, vaccinated, isSuperspreader, constitution, masked, home, currentHub)
    }

    /** The target hub and the point in it the agent walks to. */
    function Aiming(): Aim
      reads this`target, this`targetPos
    {
      Aim(target, targetPos)
    }

    /** The agent's position and the hub it stands in. */
    function Whereabouts(): Place
      reads this`simPos, this`currentHub
    {
      Place(simPos, currentHub)
    }

    /** A new susceptible, unvaccinated agent standing at `start` in its home, headed
        nowhere else. Its constitution is the age group's base plus `jitter` (drawn in
        [-0.15, 0.15]) clamped to [0.1, 1]; it is a superspreader and wears a mask
        when the respective uniform draws fall below the configured proportions. */
    constructor (uid: nat, home: HubId, age: AgeGroup, mobility: Mobility, cfg: Params,
                 jitter: real, spreaderDraw: real, maskDraw: real, start: Point)
      ensures this.id == uid && this.home == home && this.age == age && this.mobility == mobility
      ensures 0.1 <= constitution <= 1.0
      ensures 0.1 <= BaseConstitution(age) + jitter <= 1.0 ==> constitution == BaseConstitution(age) + jitter
      ensures isSuperspreader <==> spreaderDraw < cfg.superspreaderProb
      ensures masked <==> maskDraw < cfg.maskCompliance
      ensures state == Susceptible && !vaccinated && !inQuarantine
      ensures daysInState == 0.0 && immunity == 0.0 && latentDur == 0.0 && infDur == 0.0
      ensures peakShedding == 0.0 && hospitalStayDur == 0.0
      ensures assignedHub == None && Aiming() == Aim(home, start) && Whereabouts() == Place(start, Some(home))
      ensures neighbors == [] && affiliations == [] && edgeKeys == [] && edges == map[]
      ensures Valid()
    {
      this.id := uid;
      this.home := home;
      this.age := age;
      this.mobility := mobility;
      state := Susceptible;
      vaccinated := false;
      inQuarantine := false;
      daysInState := 0.0;
      constitution := MinR(1.0, MaxR(0.1, BaseConstitution(age) + jitter));
      immunity := 0.0;
      latentDur := 0.0;
      infDur := 0.0;
      peakShedding := 0.0;
      isSuperspreader := spreaderDraw < cfg.superspreaderProb;
      hospitalStayDur := 0.0;
      masked := maskDraw < cfg.maskCompliance;
      assignedHub := None;
      target := home;
      currentHub := Some(home);
      simPos := start;
      targetPos := start;
      neighbors := [];
      edgeKeys := [];
      edges := map[];
      affiliations := [];
    }

    /** `set_target`: head for hub `h`, walking to `spot` inside it, unless `h` is
        already the target. */
    method SetTarget(h: HubId, spot: Point)
      modifies `target, `targetPos
      ensures Aiming() == Retarget(old(Aiming()), h, spot)
    {
      if target == h {
        return;
      }
      target := h;
      targetPos := spot;
    }

    /** Item assignment on the edge dictionary: a new hub joins the end of the
        insertion order, a hub already present keeps its place and takes the new
        weight. */
    method PutEdge(h: HubId, w: real)
      requires Valid()
      modifies `edgeKeys, `edges
      ensures Valid()
      ensures edges == old(edges)[h := w]
      ensures edgeKeys == if h in old(edges) then old(edgeKeys) else old(edgeKeys) + [h]
    {
      if h !in edges {
        edgeKeys := edgeKeys + [h];
      }
      edges := edges[h := w];
    }

    /** `get_shedding`: the virus the agent sheds now, following the shedding curve
        over its infectious period scaled by its peak, and cut by the mask efficacy
        when it wears a mask. Agents that do not shed, or are outside their infectious
        period, shed nothing. */
    function Shedding(maskEfficacy: real): (amt: real)
      reads this`state, this`daysInState, this`infDur, this`peakShedding
      requires state.Shedding() ==> infDur != 0.0
      ensures !state.Shedding() ==> amt == 0.0
      ensures state.Shedding() && infDur > 0.0 && (daysInState < 0.0 || daysInState > infDur) ==> amt == 0.0
      ensures peakShedding >= 0.0 && 0.0 <= maskEfficacy <= 1.0 ==> 0.0 <= amt <= peakShedding
      ensures state.Shedding() && daysInState == 0.3 * infDur && infDur > 0.0 && !masked ==> amt == peakShedding
      ensures masked && maskEfficacy == 1.0 ==> amt == 0.0
      ensures amt > 0.0 ==> state.Shedding()
    {
      if !state.Shedding() then 0.0
      else
        var progress := daysInState / infDur;
        if progress < 0.0 || progress > 1.0 then 0.0
        else
          PeakAt(daysInState, infDur);
          ProgressRange(daysInState, infDur);
          MaskCut(Curve(progress, peakShedding), masked, maskEfficacy)
    }

    /** `update_edge_weights`: every structural edge fades by `5 * dt` towards its
        goal, visiting the edges in insertion order. */
    method UpdateEdgeWeights(dt: real)
      requires Valid()
      modifies `edges
      ensures Valid()
      ensures edges == FadeAll(old(edges), currentHub, 5.0 * dt)
    {
      var speed := 5.0 * dt;
      for i := 0 to |edgeKeys|
        invariant edges.Keys == old(edges).Keys
        invariant forall h :: h in edges ==>
                    edges[h] == if h in edgeKeys[..i] then Fade(old(edges)[h], Goal(currentHub, h), speed) else old(edges)[h]
      {
        var h := edgeKeys[i];
        var w := edges[h];
        var goal := if currentHub == Some(h) then 1.0 else 0.0;
        if w < goal {
          w := MinR(goal, w + speed);
        } else if w > goal {
          w := MaxR(goal, w - speed);
        }
        assert edgeKeys[..i + 1] == edgeKeys[..i] + [h];
        assert h !in edgeKeys[..i];
        edges := edges[h := w];
      }
      assert edgeKeys[..|edgeKeys|] == edgeKeys;
    }

    /** The dead rest once they stand in a cemetery. */
    predicate Resting(hubs: seq<Hub>)
      reads this`state, this`currentHub
    {
      state == Dead && currentHub.Some? && IsKind(hubs, currentHub.value, Cemetery)
    }

    /** `move_spatial`: an agent resting in the cemetery does nothing; any other agent
        makes one movement step towards its target point and then fades its edges
        towards the hub it now stands in (none while in transit). */
    method MoveSpatial(dt: real, hubs: seq<Hub>, root: Root, d: MoveDraws)
      requires Valid() && IsRoot(root)
      modifies `simPos, `currentHub, `edges
      ensures Valid()
      ensures old(Resting(hubs)) ==> Whereabouts() == old(Whereabouts()) && edges == old(edges)
      ensures !old(Resting(hubs)) ==>
                Whereabouts() == Moved(old(Whereabouts()), state == Dead, Aiming(), dt, root, d) &&
                edges == FadeAll(old(edges), currentHub, 5.0 * dt)
    {
      if state == Dead && currentHub.Some? && IsKind(hubs, currentHub.value, Cemetery) {
        return;
      }
      var dest := targetPos;
      var dist := Dist(root, simPos, dest);
      var speed := 500.0 * (if state != Dead then 1.0 else 0.2);
      var stepDist := speed * dt * 5.0;
      if dist <= stepDist {
        simPos := dest;
        currentHub := Some(target);
        if state != Dead && d.jitterDraw < 0.05 {
          simPos := simPos.Plus(d.jitter);
        }
      } else {
        currentHub := None;
        if dist > 0.0 {
          simPos := Toward(simPos, dest, stepDist / dist);
        }
      }
      UpdateEdgeWeights(dt);
    }
  }

  // ---------------------------------------------------------------- snapshots of a population

  function StatesOf(ps: seq<Person>): (s: seq<HealthState>)
    reads ps`state
    ensures |s| == |ps| && forall i :: 0 <= i < |ps| ==> s[i] == ps[i].state
  {
    if ps == [] then [] else StatesOf(ps[..|ps| - 1]) + [ps[|ps| - 1].state]
  }

  function VaxOf(ps: seq<Person>): (s: seq<bool>)
    reads ps`vaccinated
    ensures |s| == |ps| && forall i :: 0 <= i < |ps| ==> s[i] == ps[i].vaccinated
  {
    if ps == [] then [] else VaxOf(ps[..|ps| - 1]) + [ps[|ps| - 1].vaccinated]
  }

  function NeighboursOf(ps: seq<Person>): (s: seq<seq<nat>>)
    reads ps`neighbors
    ensures |s| == |ps| && forall i :: 0 <= i < |ps| ==> s[i] == ps[i].neighbors
  {
    if ps == [] then [] else NeighboursOf(ps[..|ps| - 1]) + [ps[|ps| - 1].neighbors]
  }

  function EdgeMapsOf(ps: seq<Person>): (s: seq<map<HubId, real>>)
    reads ps`edges
    ensures |s| == |ps| && forall i :: 0 <= i < |ps| ==> s[i] == ps[i].edges
  {
    if ps == [] then [] else EdgeMapsOf(ps[..|ps| - 1]) + [ps[|ps| - 1].edges]
  }

  function ShedsOf(ps: seq<Person>, maskEfficacy: real): (s: seq<real>)
    reads ps`state, ps`daysInState
    reads ps`infDur, ps`peakShedding
    requires forall i :: 0 <= i < |ps| ==> (ps[i].state.Shedding() ==> ps[i].infDur != 0.0)
    ensures |s| == |ps| && forall i :: 0 <= i < |ps| ==> s[i] == ps[i].Shedding(maskEfficacy)
  {
    if ps == [] then [] else ShedsOf(ps[..|ps| - 1], maskEfficacy) + [ps[|ps| - 1].Shedding(maskEfficacy)]
  }
}
