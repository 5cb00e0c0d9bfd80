/** The dashboard of src/pages/DashboardPage.tsx: the counts it loads, the
    occupancy figures, and which statistic cards each role sees. */
module Dashboard {
  import opened Collections
  import opened Session
  import Bills
  import Charges

  datatype DashboardStats = DashboardStats(
    totalBuildings: nat, totalUnits: nat, occupiedUnits: nat, totalManagers: nat, totalResidents: nat)

  predicate Occupied(u: Bills.Unit)
  {
    u.residentId != ""
  }

  predicate IsManagerProfile(p: Profile) { p.role == "manager" }

  predicate IsResidentProfile(p: Profile) { p.role == "resident" }

  /** `loadStats`: the sizes of the loaded lists, the units with a resident,
      and the managers and residents among the profiles. */
  function LoadStats(buildings: seq<Charges.Building>, units: seq<Bills.Unit>, profiles: seq<Profile>)
    : (s: DashboardStats)
    ensures s.totalBuildings == |buildings| && s.totalUnits == |units|
    ensures s.occupiedUnits <= s.totalUnits
    ensures s.totalManagers + s.totalResidents <= |profiles|
  {
    CountDisjoint(profiles, IsManagerProfile, IsResidentProfile);
    DashboardStats(|buildings|, |units|, Count(units, Occupied),
                   Count(profiles, IsManagerProfile), Count(profiles, IsResidentProfile))
  }

  /** The vacant figure, `totalUnits - occupiedUnits`: between none and all
      units whenever the occupied count does not exceed the unit count. */
  function Vacant(s: DashboardStats): (v: int)
    ensures s.occupiedUnits <= s.totalUnits ==> 0 <= v <= s.totalUnits
  {
    s.totalUnits - s.occupiedUnits
  }

  /** Occupied and vacant units make up all units, and neither is
      negative. */
  lemma VacantIsUnoccupied(buildings: seq<Charges.Building>, units: seq<Bills.Unit>, profiles: seq<Profile>)
    ensures var s := LoadStats(buildings, units, profiles);
      Vacant(s) >= 0 && Vacant(s) == Count(units, IsVacant)
  {
    OccupiedVacantSplit(units);
  }

  predicate IsVacant(u: Bills.Unit)
  {
    u.residentId == ""
  }

  lemma {:induction false} OccupiedVacantSplit(units: seq<Bills.Unit>)
    ensures Count(units, Occupied) + Count(units, IsVacant) == |units|
  {
    if units != [] {
      OccupiedVacantSplit(units[1..]);
    }
  }

  /** The occupancy rate in percent: `Math.round(occupied / total * 100)`,
      or 0 when there are no units. */
  function OccupancyPercent(occupied: nat, total: nat): (p: int)
    ensures total == 0 ==> p == 0
    ensures total > 0 ==> 2 * total * p - total <= 200 * occupied < 2 * total * p + total
    ensures occupied <= total ==> 0 <= p <= 100
  {
    if total > 0 then (200 * occupied + total) / (2 * total) else 0
  }

  /** The percentage is the nearest whole number, halves rounded up: no
      other integer lies as close to the exact ratio. */
  lemma OccupancyIsNearest(occupied: nat, total: nat, q: int)
    requires total > 0
    ensures var p := OccupancyPercent(occupied, total);
      && (q < p ==> 2 * total * q + total <= 200 * occupied)
      && (q > p ==> 200 * occupied < 2 * total * q - total)
  {
    var p := OccupancyPercent(occupied, total);
    if q < p {
      assert 2 * total * q <= 2 * total * (p - 1) by {
        MulMono(2 * total, q, p - 1);
      }
    } else if q > p {
      assert 2 * total * (p + 1) <= 2 * total * q by {
        MulMono(2 * total, p + 1, q);
      }
    }
  }

  lemma MulMono(k: nat, a: int, b: int)
    requires a <= b
    ensures k * a <= k * b
  {
  }

  /** The statistic cards. */
  datatype Card = TotalBuildings | TotalUnits | BuildingManagers | TotalResidents

  /** The roles each card lists. */
  function CardRoles(c: Card): seq<Role>
  {
    match c
    case TotalBuildings => [Admin, Manager]
    case TotalUnits => [Admin, Manager]
    case BuildingManagers => [Admin]
    case TotalResidents => [Admin, Manager]
  }

  const AllCards: seq<Card> := [TotalBuildings, TotalUnits, BuildingManagers, TotalResidents]

  /** `visibleStats`: the cards listing the signed-in user's role; none
      without a user. */
  function VisibleCards(user: Option<User>): (r: seq<Card>)
    ensures forall c :: c in r <==> c in AllCards && user.Some? && user.value.role in CardRoles(c)
  {
    Filter(AllCards, (c: Card) => user.Some? && user.value.role in CardRoles(c))
  }

  /** An admin sees every card. */
  lemma AdminSeesAllCards(u: User)
    requires u.role == Admin
    ensures VisibleCards(Some(u)) == AllCards
  {
    FilterAll(AllCards, (c: Card) => Some(u).Some? && Some(u).value.role in CardRoles(c));
  }

  /** A manager sees every card but the managers count. */
  lemma ManagerCards(u: User)
    requires u.role == Manager
    ensures VisibleCards(Some(u)) == [TotalBuildings, TotalUnits, TotalResidents]
  {
    var p := (c: Card) => Some(u).Some? && Some(u).value.role in CardRoles(c);
    assert AllCards == [TotalBuildings, TotalUnits] + [BuildingManagers] + [TotalResidents];
    FilterConcat([TotalBuildings, TotalUnits] + [BuildingManagers], [TotalResidents], p);
    FilterConcat([TotalBuildings, TotalUnits], [BuildingManagers], p);
    FilterAll([TotalBuildings, TotalUnits], p);
    FilterAll([TotalResidents], p);
    FilterNone([BuildingManagers], p);
  }

  /** No card lists the resident role, so a resident sees none. */
  lemma ResidentSeesNoCards(u: User)
    requires u.role == Resident
    ensures VisibleCards(Some(u)) == []
  {
    FilterNone(AllCards, (c: Card) => Some(u).Some? && Some(u).value.role in CardRoles(c));
  }
}
