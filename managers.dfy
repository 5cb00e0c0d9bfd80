/** Building-manager assignment, src/pages/ManagersPage.tsx: the managers on
    offer, the building search, the assigned / unassigned split, and the
    two field updates that assign and unassign a manager. */
module Managers {
  import opened Collections
  import opened Text
  import opened Session

  /** A building as this page loads it; `managerId` and `managerName` are
      `None` when the record lacks the field. */
  datatype Building = Building(
    id: string, owner: string, name: string, address: string, totalUnits: int,
    managerId: Option<string>, managerName: Option<string>, status: string)

  /** The only fields assign and unassign write, for building `id` owned by
      `owner`. */
  datatype ManagerUpdate = ManagerUpdate(id: string, owner: string, managerId: string, managerName: string)

  /** The loaded profiles whose role is `'manager'`. */
  function ManagersOf(profiles: seq<Profile>): (r: seq<Profile>)
    ensures forall p :: p in r <==> p in profiles && p.role == "manager"
  {
    Filter(profiles, (p: Profile) => p.role == "manager")
  }

  /** The field is present and non-empty, as `b.manager_id` is truthy. */
  predicate Present(f: Option<string>)
  {
    f.Some? && f.value != ""
  }

  /** The search: the lower-cased term occurs in the lower-cased name,
      address or, when there is one, manager name. */
  predicate Matches(b: Building, term: string)
  {
    || Contains(Lower(b.name), Lower(term))
    || Contains(Lower(b.address), Lower(term))
    || (b.managerName.Some? && Contains(Lower(b.managerName.value), Lower(term)))
  }

  /** `filteredBuildings`. */
  function Search(buildings: seq<Building>, term: string): (r: seq<Building>)
    ensures |r| <= |buildings|
    ensures forall b :: b in r <==> b in buildings && Matches(b, term)
  {
    Filter(buildings, (b: Building) => Matches(b, term))
  }

  /** The empty string occurs in every string. */
  lemma ContainsEmpty(hay: string)
    ensures Contains(hay, "")
  {
  }

  /** An empty search shows every building, in order. */
  lemma EmptySearchKeepsAll(buildings: seq<Building>)
    ensures Search(buildings, "") == buildings
  {
    forall b | b in buildings ensures Matches(b, "") {
      ContainsEmpty(Lower(b.name));
    }
    FilterAll(buildings, (b: Building) => Matches(b, ""));
  }

  /** The search ignores ASCII letter case in the term. */
  lemma SearchIgnoresTermCase(buildings: seq<Building>, term: string)
    ensures Search(buildings, Lower(term)) == Search(buildings, term)
  {
    LowerIdempotent(term);
    FilterSame(buildings, (b: Building) => Matches(b, Lower(term)), (b: Building) => Matches(b, term));
  }

  lemma LowerIdempotent(s: string)
    ensures Lower(Lower(s)) == Lower(s)
  {
  }

  /** `assignedBuildings`. */
  function Assigned(filtered: seq<Building>): (r: seq<Building>)
    ensures forall b :: b in r <==> b in filtered && Present(b.managerId)
  {
    Filter(filtered, (b: Building) => Present(b.managerId))
  }

  /** `unassignedBuildings`. */
  function Unassigned(filtered: seq<Building>): (r: seq<Building>)
    ensures forall b :: b in r <==> b in filtered && !Present(b.managerId)
  {
    Filter(filtered, (b: Building) => !Present(b.managerId))
  }

  /** Every listed building sits in exactly one of the two groups. */
  lemma {:induction false} AssignedUnassignedPartition(filtered: seq<Building>)
    ensures |Assigned(filtered)| + |Unassigned(filtered)| == |filtered|
    ensures forall b :: b in filtered <==> b in Assigned(filtered) || b in Unassigned(filtered)
    ensures forall b :: !(b in Assigned(filtered) && b in Unassigned(filtered))
  {
    if filtered != [] {
      AssignedUnassignedPartition(filtered[1..]);
    }
  }

  /** `managers.find(m => m._uid === managerId)?.name || ''`. */
  function ManagerName(managers: seq<Profile>, managerId: string): (name: string)
    ensures name != "" ==> exists m :: m in managers && m.uid == managerId && m.name == name
    ensures (forall m :: m in managers ==> m.uid != managerId) ==> name == ""
    ensures (exists m :: m in managers && m.uid == managerId) ==>
      exists i :: 0 <= i < |managers| && managers[i].uid == managerId && name == managers[i].name
        && forall j :: 0 <= j < i ==> managers[j].uid != managerId
  {
    match Find(managers, (m: Profile) => m.uid == managerId)
    case Some(m) => m.name
    case None => ""
  }

  /** `handleAssignManager`: nothing without a selected building and a
      manager id; otherwise the id and the manager's name. */
  function Assign(selected: Option<Building>, managerId: string, managers: seq<Profile>): (r: Option<ManagerUpdate>)
    ensures r.None? <==> selected.None? || managerId == ""
    ensures r.Some? ==>
      && r.value.id == selected.value.id && r.value.owner == selected.value.owner
      && r.value.managerId == managerId && r.value.managerName == ManagerName(managers, managerId)
  {
    if selected.None? || managerId == "" then None
    else Some(ManagerUpdate(selected.value.id, selected.value.owner, managerId, ManagerName(managers, managerId)))
  }

  /** `handleUnassignManager(building)`: both fields cleared. */
  function Unassign(b: Building): (u: ManagerUpdate)
    ensures u.id == b.id && u.owner == b.owner && u.managerId == "" && u.managerName == ""
  {
    ManagerUpdate(b.id, b.owner, "", "")
  }

  /** The stored building once an update lands: the two manager fields
      replaced, everything else as it was. */
  function ApplyUpdate(b: Building, u: ManagerUpdate): (r: Building)
    ensures r.managerId == Some(u.managerId) && r.managerName == Some(u.managerName)
    ensures r.(managerId := b.managerId, managerName := b.managerName) == b
  {
    b.(managerId := Some(u.managerId), managerName := Some(u.managerName))
  }

  /** An assignment moves the building to the assigned group, and an
      unassignment to the unassigned group. */
  lemma AssignMovesBetweenGroups(b: Building, managerId: string, managers: seq<Profile>)
    requires managerId != ""
    ensures Assigned([ApplyUpdate(b, Assign(Some(b), managerId, managers).value)]) != []
    ensures Unassigned([ApplyUpdate(b, Unassign(b))]) != []
  {
    var withManager := ApplyUpdate(b, Assign(Some(b), managerId, managers).value);
    assert withManager in [withManager];
    var cleared := ApplyUpdate(b, Unassign(b));
    assert cleared in [cleared];
  }

  /** `openAssignDialog(building)`: the selected building and the manager id
      the picker starts at. */
  function OpenAssignDialog(b: Building): (r: (Building, string))
    ensures r.0 == b
    ensures Present(b.managerId) ==> r.1 == b.managerId.value
    ensures !Present(b.managerId) ==> r.1 == ""
  {
    (b, if b.managerId.Some? then b.managerId.value else "")
  }

  /** Confirming the dialog without touching the picker rewrites an assigned
      building's manager with itself; for an unassigned one nothing is
      written. */
  lemma ReconfirmKeepsManager(b: Building, managers: seq<Profile>)
    ensures var (selected, managerId) := OpenAssignDialog(b);
      var r := Assign(Some(selected), managerId, managers);
      && (r.Some? <==> Present(b.managerId))
      && (r.Some? ==> r.value.managerId == b.managerId.value)
  {
  }
}
