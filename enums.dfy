/** The closed variant sets of the simulation. */
module Enums {

  /** Health states of an agent. */
  datatype HealthState =
    | Susceptible
    | Latent
    | InfAsymp
    | InfSymp
    | Hospitalized
    | Recovered
    | Dead
  {
    /** The states in which an agent sheds virus. */
    predicate Shedding() {
      this == InfAsymp || this == InfSymp || this == Hospitalized
    }

    /** The states the history counts as "Active". */
    predicate Active() {
      this == Latent || Shedding()
    }
  }

  /** Kinds of location (hub). */
  datatype LocationType =
    | Household | School | Workplace | Market | Cafe | Park | Hospital | Cemetery | Quarantine

  datatype AgeGroup = Child | Adult | Senior

  datatype Mobility = High | Moderate | Low
}
