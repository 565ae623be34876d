/** The statistics the engine keeps: the population make-up counted at start-up, the
    periodic census of health states, and the chart history, a sliding window over
    the most recent censuses. */
module Census {
  import opened Basics
  import opened Enums
  import opened Config

  // ---------------------------------------------------------------- demographics

  /** Head counts by age group and by mobility. */
  datatype Demographics = Demographics(child: nat, adult: nat, senior: nat, highMob: nat, modMob: nat, lowMob: nat)

  const NoDemographics := Demographics(0, 0, 0, 0, 0, 0)

  /** Counting one more agent of the given age group and mobility. */
  function Enrol(dm: Demographics, age: AgeGroup, mob: Mobility): (r: Demographics)
    ensures r.child + r.adult + r.senior == dm.child + dm.adult + dm.senior + 1
    ensures r.highMob + r.modMob + r.lowMob == dm.highMob + dm.modMob + dm.lowMob + 1
    ensures age == Child <==> r.child == dm.child + 1
    ensures mob == Low <==> r.lowMob == dm.lowMob + 1
  {
    Demographics(
      dm.child + (if age == Child then 1 else 0),
      dm.adult + (if age == Adult then 1 else 0),
      dm.senior + (if age == Senior then 1 else 0),
      dm.highMob + (if mob == High then 1 else 0),
      dm.modMob + (if mob == Moderate then 1 else 0),
      dm.lowMob + (if mob == Low then 1 else 0))
  }

  // ---------------------------------------------------------------- census

  /** One census: susceptible, active (latent, shedding or hospitalized), recovered,
      dead, and, among the active, hospitalized. */
  datatype Census = Census(s: nat, active: nat, r: nat, d: nat, h: nat)

  /** Counting one agent in a census. */
  function Tally(c: Census, st: HealthState): Census {
    match st
    case Susceptible => c.(s := c.s + 1)
    case Latent | InfAsymp | InfSymp => c.(active := c.active + 1)
    case Hospitalized => c.(active := c.active + 1, h := c.h + 1)
    case Recovered => c.(r := c.r + 1)
    case Dead => c.(d := c.d + 1)
  }

  /** The census of a population, counting agents in order. Every agent is counted
      in exactly one of the four main classes, and the hospitalized are counted among
      the active. */
  function CensusOf(states: seq<HealthState>): (c: Census)
    ensures c.s + c.active + c.r + c.d == |states|
    ensures c.h <= c.active
    decreases |states|
  {
    if states == [] then Census(0, 0, 0, 0, 0)
    else Tally(CensusOf(states[..|states| - 1]), states[|states| - 1])
  }

  /** Each class of the census holds exactly the agents in the corresponding states. */
  lemma {:induction false} CensusCounts(states: seq<HealthState>)
    ensures var c, m := CensusOf(states), multiset(states);
            c.s == m[Susceptible] && c.r == m[Recovered] && c.d == m[Dead] && c.h == m[Hospitalized] &&
            c.active == m[Latent] + m[InfAsymp] + m[InfSymp] + m[Hospitalized]
    decreases |states|
  {
    if states != [] {
      var init := states[..|states| - 1];
      CensusCounts(init);
      assert states == init + [states[|states| - 1]];
    }
  }

  /** Counting one more agent, in order. */
  lemma CensusStep(states: seq<HealthState>, i: nat)
    requires i < |states|
    ensures CensusOf(states[..i + 1]) == Tally(CensusOf(states[..i]), states[i])
  {
    assert states[..i + 1][..i] == states[..i];
  }

  // ---------------------------------------------------------------- history

  /** Appending a sample to a series and, when that makes it longer than the chart
      allows, dropping its oldest sample. */
  function Slide(xs: seq<nat>, x: nat): (r: seq<nat>)
    ensures |xs| <= HISTORY_LIMIT ==> |r| == Min(|xs| + 1, HISTORY_LIMIT)
    ensures r != [] && r[|r| - 1] == x
    ensures |xs| + 1 > HISTORY_LIMIT ==> r == xs[1..] + [x]
    ensures |xs| + 1 <= HISTORY_LIMIT ==> r == xs + [x]
  {
    var ys := xs + [x];
    if |ys| > HISTORY_LIMIT then ys[1..] else ys
  }

  /** The series after sliding in several samples in order. */
  function SlideAll(xs: seq<nat>, samples: seq<nat>): seq<nat>
    decreases |samples|
  {
    if samples == [] then xs else SlideAll(Slide(xs, samples[0]), samples[1..])
  }

  /** Starting from at most a full chart, a series holds the most recent samples:
      the whole of the old series and the new samples while they fit, and otherwise
      the last `HISTORY_LIMIT` of them. */
  lemma {:induction false} SlideAllWindow(xs: seq<nat>, samples: seq<nat>)
    requires |xs| <= HISTORY_LIMIT
    ensures var all := xs + samples;
            SlideAll(xs, samples) == all[|all| - Min(|all|, HISTORY_LIMIT)..]
    decreases |samples|
  {
    if samples != [] {
      var ys := Slide(xs, samples[0]);
      SlideAllWindow(ys, samples[1..]);
      var all := xs + samples;
      var all' := ys + samples[1..];
      if |xs| + 1 > HISTORY_LIMIT {
        assert all' == all[1..];
      } else {
        assert all' == all;
      }
    }
  }

  /** The chart history: one series per census class. */
  datatype History = History(s: seq<nat>, active: seq<nat>, r: seq<nat>, d: seq<nat>, h: seq<nat>)

  const EmptyHistory := History([], [], [], [], [])

  /** All series have the same length, at most the chart width. */
  predicate Aligned(hist: History) {
    |hist.active| == |hist.s| && |hist.r| == |hist.s| && |hist.d| == |hist.s| && |hist.h| == |hist.s|
    && |hist.s| <= HISTORY_LIMIT
  }

  /** Recording a census: each series slides in its count. */
  function Record(hist: History, c: Census): (r: History)
    requires Aligned(hist)
    ensures Aligned(r)
    ensures |r.s| == Min(|hist.s| + 1, HISTORY_LIMIT)
    ensures r.s[|r.s| - 1] == c.s && r.active[|r.s| - 1] == c.active && r.r[|r.s| - 1] == c.r
    ensures r.d[|r.s| - 1] == c.d && r.h[|r.s| - 1] == c.h
  {
    History(Slide(hist.s, c.s), Slide(hist.active, c.active), Slide(hist.r, c.r),
            Slide(hist.d, c.d), Slide(hist.h, c.h))
  }
}
