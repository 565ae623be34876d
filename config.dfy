/** Configuration: the fixed constants of the engine and the adjustable parameters. */
module Config {
  import opened Basics

  /** Updates between two ticks of the day clock (at simulation speed 1). */
  const UPDATES_PER_TICK: real := 600.0
  /** Ticks (day phases) per simulated day. */
  const TICKS_PER_DAY: int := 3
  /** Simulated days that elapse in one update at speed 1: 1 / (600 * 3). */
  const DAYS_PER_UPDATE: real := 1.0 / 1800.0
  /** Width of the statistics panel, in pixels. */
  const PANEL_W: int := 450
  /** Longest history kept: one sample per pixel column of the chart. */
  const HISTORY_LIMIT: int := PANEL_W - 40
  /** The history is sampled when the truncated tick counter is a multiple of this. */
  const SAMPLE_PERIOD: int := 40

  /** The adjustable parameters the engine reads every step (the parameters that only
      feed random sampling, such as the duration means, are absent: the samples
      themselves are inputs of the model). */
  datatype Params = Params(
    popSize: real,
    initInfected: real,
    socialEngagement: real,
    beta: real,
    asympProb: real,
    sheddingSymp: real,
    sheddingAsymp: real,
    superspreaderProb: real,
    baseMortality: real,
    hospMortalityMult: real,
    noBedMult: real,
    immunityWaning: real,
    immunityEfficacy: real,
    maskCompliance: real,
    maskEfficacy: real,
    vaccineRate: real,
    vaccineEfficacy: real,
    quarantineRate: real,
    simSpeed: real)

  /** The values the configuration starts with. */
  const DEFAULTS: Params := Params(
    popSize := 500.0, initInfected := 3.0, socialEngagement := 1.0, beta := 40.0,
    asympProb := 0.4, sheddingSymp := 1.0, sheddingAsymp := 0.5, superspreaderProb := 0.05,
    baseMortality := 0.005, hospMortalityMult := 0.5, noBedMult := 5.0,
    immunityWaning := 0.005, immunityEfficacy := 0.9, maskCompliance := 0.0, maskEfficacy := 0.6,
    vaccineRate := 0.0, vaccineEfficacy := 0.8, quarantineRate := 0.5, simSpeed := 1.0)

  /** Simulated days per update at the configured speed. */
  function StepDays(cfg: Params): real {
    DAYS_PER_UPDATE * cfg.simSpeed
  }

  /** Social engagement below 0.4 means lockdown. */
  predicate Lockdown(cfg: Params) {
    cfg.socialEngagement < 0.4
  }

  /** Transmission factor of social distancing: a binary lockdown effect. */
  function Distancing(cfg: Params): (f: real)
    ensures f == 0.2 || f == 1.0
    ensures f < 1.0 <==> Lockdown(cfg)
  {
    if cfg.socialEngagement < 0.4 then 0.2 else 1.0
  }
}
