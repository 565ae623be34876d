/** Locations (hubs) and where an agent is headed. A hub is identified by its index
    in the engine's hub list; its kind, capacity and risk multiplier never change. */
module Hubs {
  import opened Basics
  import opened Enums

  type HubId = nat

  /** The fixed attributes of a location. Positions are not modelled. */
  datatype Hub = Hub(kind: LocationType, capacity: int, riskMult: real)

  /** The hubs the engine refers to by role. */
  datatype Layout = Layout(
    market: HubId,
    schools: seq<HubId>,
    works: seq<HubId>,
    cafe: HubId,
    park: HubId,
    hosp: HubId,
    quar: HubId,
    cemetery: HubId,
    households: seq<HubId>)

  predicate IsKind(hubs: seq<Hub>, h: HubId, k: LocationType) {
    h < |hubs| && hubs[h].kind == k
  }

  predicate AllKind(hubs: seq<Hub>, hs: seq<HubId>, k: LocationType) {
    hs != [] && forall i :: 0 <= i < |hs| ==> IsKind(hubs, hs[i], k)
  }

  /** What the hub set-up guarantees: every role names a hub of the matching kind,
      and there is at least one school, one workplace and one household. */
  predicate WellFormed(hubs: seq<Hub>, l: Layout) {
    && IsKind(hubs, l.market, Market)
    && IsKind(hubs, l.cafe, Cafe)
    && IsKind(hubs, l.park, Park)
    && IsKind(hubs, l.hosp, Hospital)
    && IsKind(hubs, l.quar, Quarantine)
    && IsKind(hubs, l.cemetery, Cemetery)
    && AllKind(hubs, l.schools, School)
    && AllKind(hubs, l.works, Workplace)
    && AllKind(hubs, l.households, Household)
  }

  /** An agent's current target hub and the random point inside it it walks to. */
  datatype Aim = Aim(hub: HubId, pos: Point)

  /** `set_target`: a new hub is adopted together with a fresh random point in it;
      naming the current target again changes nothing. */
  function Retarget(a: Aim, h: HubId, spot: Point): (r: Aim)
    ensures r.hub == h
    ensures a.hub == h ==> r == a
    ensures a.hub != h ==> r.pos == spot
  {
    if a.hub == h then a else Aim(h, spot)
  }

  /** Retargeting twice to the same hub is the same as retargeting once. */
  lemma RetargetIdempotent(a: Aim, h: HubId, s1: Point, s2: Point)
    ensures Retarget(Retarget(a, h, s1), h, s2) == Retarget(a, h, s1)
  {
  }
}
