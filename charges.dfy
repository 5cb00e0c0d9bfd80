/** The charge catalogue of src/pages/ChargesPage.tsx: the charge form and
    the record it saves, editing a stored charge, the list filter, and the
    monthly-normalised estimate of the active charges. */
module Charges {
  import opened Collections
  import opened Text
  import opened Session
  import Sorting

  /** A stored building charge. `isActive` is the stored string, `'true'` or
      `'false'`; `id` is "" on a charge being added. */
  datatype Charge = Charge(
    id: string, buildingId: string, buildingName: string, chargeType: string, amount: real,
    billingCycle: string, effectiveDate: CalendarDate, description: string, isActive: string)

  datatype Building = Building(id: string, name: string)

  /** The charge dialog. `amount` is `None` while its field is empty. */
  datatype ChargeForm = ChargeForm(
    buildingId: string, chargeType: string, amount: Option<real>, billingCycle: string,
    effectiveDate: CalendarDate, description: string, isActive: bool)

  /** The form state `resetForm` installs, with `today` as the effective
      date, and no charge being edited. */
  function ResetForm(today: CalendarDate): (r: (ChargeForm, Option<Charge>))
    ensures r.0.buildingId == "" && r.0.chargeType == "" && r.0.amount.None?
    ensures r.0.billingCycle == "monthly" && r.0.isActive && r.0.description == ""
    ensures r.0.effectiveDate == today && r.1.None?
  {
    (ChargeForm("", "", None, "monthly", today, "", true), None)
  }

  /** `handleEdit(charge)`: the form filled from a stored charge. */
  function EditForm(c: Charge): (f: ChargeForm)
    ensures f.amount == Some(c.amount)
    ensures f.isActive <==> c.isActive == "true"
  {
    ChargeForm(c.buildingId, c.chargeType, Some(c.amount), c.billingCycle, c.effectiveDate,
               c.description, c.isActive == "true")
  }

  /** The stored form of the form's boolean. */
  function ActiveFlag(b: bool): (s: string)
    ensures s == "true" || s == "false"
  {
    if b then "true" else "false"
  }

  /** The boolean survives being stored and read back by `=== 'true'`. */
  lemma ActiveFlagRoundTrip(b: bool)
    ensures (ActiveFlag(b) == "true") == b
  {
  }

  /** A stored flag read by `=== 'true'` and stored again is unchanged when
      it was `'true'` or `'false'`. */
  lemma ActiveFlagReadBack(s: string)
    requires s == "true" || s == "false"
    ensures ActiveFlag(s == "true") == s
  {
  }

  /** The write `handleSubmit` sends. */
  datatype ChargeWrite =
    | Rejected                           // building, type or amount missing
    | Add(owner: string, data: Charge)   // a new charge
    | Update(owner: string, data: Charge) // the edited charge, `data.id` naming it

  /** `building?.name || ''`. */
  function BuildingName(buildings: seq<Building>, buildingId: string): (name: string)
    ensures name != "" ==> exists b :: b in buildings && b.id == buildingId && b.name == name
    ensures (forall b :: b in buildings ==> b.id != buildingId) ==> name == ""
    ensures (exists b :: b in buildings && b.id == buildingId) ==>
      exists i :: 0 <= i < |buildings| && buildings[i].id == buildingId && name == buildings[i].name
        && forall j :: 0 <= j < i ==> buildings[j].id != buildingId
  {
    match Find(buildings, (b: Building) => b.id == buildingId)
    case Some(b) => b.name
    case None => ""
  }

  /** `handleSubmit`: the form's fields, the building's name and the stored
      flag, as an update of the charge being edited or as a new charge. */
  function Submit(form: ChargeForm, editing: Option<Charge>, buildings: seq<Building>,
                  user: Option<User>): (r: ChargeWrite)
    ensures r.Rejected? <==> form.buildingId == "" || form.chargeType == "" || form.amount.None?
    ensures r.Update? <==> !r.Rejected? && editing.Some?
    ensures !r.Rejected? ==>
      && r.owner == Uid(user)
      && r.data.buildingId == form.buildingId && r.data.chargeType == form.chargeType
      && r.data.amount == form.amount.value && r.data.billingCycle == form.billingCycle
      && r.data.effectiveDate == form.effectiveDate && r.data.description == form.description
      && (r.data.isActive == "true" <==> form.isActive)
      && (r.data.isActive == "true" || r.data.isActive == "false")
      && r.data.buildingName == BuildingName(buildings, form.buildingId)
    ensures r.Update? ==> r.data.id == editing.value.id
    ensures r.Add? ==> r.data.id == ""
  {
    if form.buildingId == "" || form.chargeType == "" || form.amount.None? then Rejected
    else
      var data := Charge(if editing.Some? then editing.value.id else "", form.buildingId,
                         BuildingName(buildings, form.buildingId), form.chargeType, form.amount.value,
                         form.billingCycle, form.effectiveDate, form.description, ActiveFlag(form.isActive));
      if editing.Some? then Update(Uid(user), data) else Add(Uid(user), data)
  }

  /** A freshly reset form cannot be saved. */
  lemma ResetFormIsRejected(today: CalendarDate, buildings: seq<Building>, user: Option<User>)
    ensures Submit(ResetForm(today).0, ResetForm(today).1, buildings, user) == Rejected
  {
  }

  /** Opening a stored charge for editing and saving it unchanged writes the
      charge back as it was, apart from the building name, which is looked
      up again. */
  lemma EditThenSaveRoundTrip(c: Charge, buildings: seq<Building>, user: Option<User>)
    requires c.buildingId != "" && c.chargeType != ""
    requires c.isActive == "true" || c.isActive == "false"
    ensures Submit(EditForm(c), Some(c), buildings, user)
         == Update(Uid(user), c.(buildingName := BuildingName(buildings, c.buildingId)))
  {
    ActiveFlagReadBack(c.isActive);
  }

  // ---------------------------------------------------------------------
  // The list

  /** `filteredCharges`: the building filter (`'all'` lets everything
      through) and the `'active'` / `'inactive'` filter. */
  function Filtered(charges: seq<Charge>, filterBuilding: string, filterActive: string): (r: seq<Charge>)
    ensures |r| <= |charges|
    ensures forall c :: c in r <==>
      && c in charges
      && (filterBuilding == "all" || c.buildingId == filterBuilding)
      && (filterActive == "active" ==> c.isActive == "true")
      && (filterActive == "inactive" ==> c.isActive == "false")
  {
    Filter(charges, (c: Charge) =>
      && (filterBuilding == "all" || c.buildingId == filterBuilding)
      && (filterActive == "active" ==> c.isActive == "true")
      && (filterActive == "inactive" ==> c.isActive == "false"))
  }

  predicate IsActive(c: Charge)
  {
    c.isActive == "true"
  }

  /** `activeCharges`: the active charges of every building, whatever the
      list filters say. */
  function Active(charges: seq<Charge>): (r: seq<Charge>)
    ensures forall c :: c in r <==> c in charges && IsActive(c)
  {
    Filter(charges, IsActive)
  }

  /** The `'active'` and `'inactive'` views of one building split its
      charges when every flag is `'true'` or `'false'`. */
  lemma {:induction false} ActiveInactiveSplit(charges: seq<Charge>, filterBuilding: string)
    requires forall c :: c in charges ==> c.isActive == "true" || c.isActive == "false"
    ensures |Filtered(charges, filterBuilding, "active")| + |Filtered(charges, filterBuilding, "inactive")|
         == |Filtered(charges, filterBuilding, "all")|
  {
    if charges != [] {
      assert forall c :: c in charges[1..] ==> c in charges;
      ActiveInactiveSplit(charges[1..], filterBuilding);
      assert charges[0] in charges;
    }
  }

  /** One charge's share of a month: a quarterly amount over three months,
      an annual one over twelve, anything else at face value. */
  function MonthlyAmount(c: Charge): (m: real)
    ensures c.billingCycle == "quarterly" ==> m * 3.0 == c.amount
    ensures c.billingCycle == "annually" ==> m * 12.0 == c.amount
    ensures c.billingCycle != "quarterly" && c.billingCycle != "annually" ==> m == c.amount
  {
    if c.billingCycle == "annually" then c.amount / 12.0
    else if c.billingCycle == "quarterly" then c.amount / 3.0
    else c.amount
  }

  function FaceAmount(c: Charge): real
  {
    c.amount
  }

  /** `totalActiveAmount`: nothing without an active charge, and the face
      value of the active charges when none of them is billed quarterly or
      annually. */
  function MonthlyEstimate(charges: seq<Charge>): (r: real)
    ensures Active(charges) == [] ==> r == 0.0
    ensures (forall c :: c in Active(charges) ==> c.billingCycle != "quarterly" && c.billingCycle != "annually")
      ==> r == SumOf(Active(charges), FaceAmount)
  {
    assert (forall c :: c in Active(charges) ==> c.billingCycle != "quarterly" && c.billingCycle != "annually")
      ==> SumOf(Active(charges), MonthlyAmount) == SumOf(Active(charges), FaceAmount) by {
      if forall c :: c in Active(charges) ==> c.billingCycle != "quarterly" && c.billingCycle != "annually" {
        MonthlyCyclesAtFaceValue(Active(charges));
      }
    }
    SumOf(Active(charges), MonthlyAmount)
  }

  /** With non-negative amounts the estimate lies between nothing and the
      face value of the active charges. */
  lemma {:induction false} MonthlyEstimateBounds(charges: seq<Charge>)
    requires forall c :: c in charges ==> c.amount >= 0.0
    ensures 0.0 <= MonthlyEstimate(charges) <= SumOf(Active(charges), FaceAmount)
  {
    MonthlyBelowFace(Active(charges));
  }

  lemma {:induction false} MonthlyBelowFace(s: seq<Charge>)
    requires forall c :: c in s ==> c.amount >= 0.0
    ensures 0.0 <= SumOf(s, MonthlyAmount) <= SumOf(s, FaceAmount)
  {
    if s != [] {
      var n := |s| - 1;
      assert forall c :: c in s[..n] ==> c in s;
      MonthlyBelowFace(s[..n]);
      assert s[n] in s;
    }
  }

  /** The estimate of two catalogues together is the sum of their
      estimates. */
  lemma MonthlyEstimateAdditive(a: seq<Charge>, b: seq<Charge>)
    ensures MonthlyEstimate(a + b) == MonthlyEstimate(a) + MonthlyEstimate(b)
  {
    FilterConcat(a, b, IsActive);
    SumOfConcat(Active(a), Active(b), MonthlyAmount);
  }

  /** When every active charge is billed monthly or once, the estimate is
      their face-value total. */
  lemma {:induction false} MonthlyCyclesAtFaceValue(s: seq<Charge>)
    requires forall c :: c in s ==> c.billingCycle != "quarterly" && c.billingCycle != "annually"
    ensures SumOf(s, MonthlyAmount) == SumOf(s, FaceAmount)
  {
    if s != [] {
      var n := |s| - 1;
      assert forall c :: c in s[..n] ==> c in s;
      MonthlyCyclesAtFaceValue(s[..n]);
      assert s[n] in s;
    }
  }

  /** The list comparator on `effective_date`: latest first. */
  predicate LaterEffectiveFirst(a: Charge, b: Charge)
  {
    DateGeq(a.effectiveDate, b.effectiveDate)
  }

  lemma LaterEffectiveFirstIsTotalPreorder()
    ensures Sorting.TotalPreorder(LaterEffectiveFirst)
  {
  }

  /** The order the list is rendered in: the same charges, latest
      effective date first. */
  function DisplayOrder(filtered: seq<Charge>): (r: seq<Charge>)
    ensures multiset(r) == multiset(filtered)
    ensures forall i, j :: 0 <= i < j < |r| ==> DateGeq(r[i].effectiveDate, r[j].effectiveDate)
  {
    LaterEffectiveFirstIsTotalPreorder();
    Sorting.SortBy(filtered, LaterEffectiveFirst)
  }
}
