/** The cost ledger of src/pages/CostsPage.tsx: the cost form and the record
    it saves, the three list filters, the totals above the list, and the
    costs of the current month. The current month and year are
    parameters. */
module Costs {
  import opened Collections
  import opened Text
  import opened Session
  import Sorting
  import Charges

  /** A stored building cost; `id` is "" on a cost being added. */
  datatype Cost = Cost(
    id: string, buildingId: string, buildingName: string, costType: string, description: string,
    amount: real, costDate: CalendarDate, recordedBy: string, recordedByName: string,
    notes: string, status: string)

  /** The cost dialog. `amount` is `None` while its field is empty. */
  datatype CostForm = CostForm(
    buildingId: string, costType: string, description: string, amount: Option<real>,
    costDate: CalendarDate, notes: string, status: string)

  /** The form state `resetForm` installs, with `today` as the cost date,
      and no cost being edited. */
  function ResetForm(today: CalendarDate): (r: (CostForm, Option<Cost>))
    ensures r.0.buildingId == "" && r.0.costType == "" && r.0.description == "" && r.0.amount.None?
    ensures r.0.costDate == today && r.0.notes == "" && r.0.status == "pending"
    ensures r.1.None?
  {
    (CostForm("", "", "", None, today, "", "pending"), None)
  }

  /** `handleEdit(cost)`: the form filled from a stored cost. */
  function EditForm(c: Cost): (f: CostForm)
    ensures f.amount == Some(c.amount)
  {
    CostForm(c.buildingId, c.costType, c.description, Some(c.amount), c.costDate, c.notes, c.status)
  }

  datatype CostWrite =
    | Rejected                          // building, type, description or amount missing
    | Add(owner: string, data: Cost)    // a new cost
    | Update(owner: string, data: Cost) // the edited cost, `data.id` naming it

  /** `handleSubmit`: the form's fields, the building's name, and who
      recorded the cost (the signed-in user's uid and email, or ""). */
  function Submit(form: CostForm, editing: Option<Cost>, buildings: seq<Charges.Building>,
                  user: Option<User>): (r: CostWrite)
    ensures r.Rejected? <==>
      form.buildingId == "" || form.costType == "" || form.description == "" || form.amount.None?
    ensures r.Update? <==> !r.Rejected? && editing.Some?
    ensures !r.Rejected? ==>
      && r.owner == Uid(user)
      && r.data.buildingId == form.buildingId && r.data.costType == form.costType
      && r.data.description == form.description && r.data.amount == form.amount.value
      && r.data.costDate == form.costDate && r.data.notes == form.notes && r.data.status == form.status
      && r.data.buildingName == Charges.BuildingName(buildings, form.buildingId)
      && r.data.recordedBy == Uid(user) && r.data.recordedByName == Email(user)
    ensures r.Update? ==> r.data.id == editing.value.id
    ensures r.Add? ==> r.data.id == ""
  {
    if form.buildingId == "" || form.costType == "" || form.description == "" || form.amount.None? then
      Rejected
    else
      var data := Cost(if editing.Some? then editing.value.id else "", form.buildingId,
                       Charges.BuildingName(buildings, form.buildingId), form.costType, form.description,
                       form.amount.value, form.costDate, Uid(user), Email(user), form.notes, form.status);
      if editing.Some? then Update(Uid(user), data) else Add(Uid(user), data)
  }

  /** A freshly reset form cannot be saved. */
  lemma ResetFormIsRejected(today: CalendarDate, buildings: seq<Charges.Building>, user: Option<User>)
    ensures Submit(ResetForm(today).0, ResetForm(today).1, buildings, user) == Rejected
  {
  }

  /** Re-saving a stored cost unchanged writes it back, except that the
      building name is looked up again and the recorder becomes whoever
      saves it. */
  lemma EditThenSaveRoundTrip(c: Cost, buildings: seq<Charges.Building>, user: Option<User>)
    requires c.buildingId != "" && c.costType != "" && c.description != ""
    ensures Submit(EditForm(c), Some(c), buildings, user)
         == Update(Uid(user), c.(buildingName := Charges.BuildingName(buildings, c.buildingId),
                                 recordedBy := Uid(user), recordedByName := Email(user)))
  {
  }

  // ---------------------------------------------------------------------
  // The list and its totals

  /** `filteredCosts`: building, type and status filters, `'all'` letting
      everything through. */
  function Filtered(costs: seq<Cost>, filterBuilding: string, filterType: string, filterStatus: string)
    : (r: seq<Cost>)
    ensures |r| <= |costs|
    ensures forall c :: c in r <==>
      && c in costs
      && (filterBuilding == "all" || c.buildingId == filterBuilding)
      && (filterType == "all" || c.costType == filterType)
      && (filterStatus == "all" || c.status == filterStatus)
  {
    Filter(costs, (c: Cost) =>
      && (filterBuilding == "all" || c.buildingId == filterBuilding)
      && (filterType == "all" || c.costType == filterType)
      && (filterStatus == "all" || c.status == filterStatus))
  }

  function CostAmount(c: Cost): real
  {
    c.amount
  }

  predicate IsPending(c: Cost)
  {
    c.status == "pending"
  }

  /** `totalCosts`: nothing for an empty list, and never negative when no
      amount is. */
  function TotalCosts(filtered: seq<Cost>): (r: real)
    ensures filtered == [] ==> r == 0.0
    ensures (forall c :: c in filtered ==> c.amount >= 0.0) ==> r >= 0.0
  {
    assert (forall c :: c in filtered ==> c.amount >= 0.0) ==> SumOf(filtered, CostAmount) >= 0.0 by {
      if forall c :: c in filtered ==> c.amount >= 0.0 {
        SumOfNonNegative(filtered, CostAmount);
      }
    }
    SumOf(filtered, CostAmount)
  }

  /** `pendingCosts`. */
  function PendingCosts(filtered: seq<Cost>): (n: nat)
    ensures n <= |filtered|
  {
    Count(filtered, IsPending)
  }

  /** The pending count of the list is the size of its `'pending'` status
      view: filtering by status first and counting everything agree. */
  lemma {:induction false} PendingIsStatusView(costs: seq<Cost>, filterBuilding: string, filterType: string)
    ensures PendingCosts(Filtered(costs, filterBuilding, filterType, "all"))
         == |Filtered(costs, filterBuilding, filterType, "pending")|
  {
    if costs != [] {
      PendingIsStatusView(costs[1..], filterBuilding, filterType);
    }
  }

  /** The cost falls in the given calendar month. */
  predicate InMonth(c: Cost, month: int, year: int)
  {
    c.costDate.month == month && c.costDate.year == year
  }

  /** `InMonth` as the test handed to `filter`. */
  function InMonthOf(month: int, year: int): Cost -> bool
  {
    (c: Cost) => InMonth(c, month, year)
  }

  /** `thisMonthCosts`, for the current `month` and `year`. */
  function ThisMonth(filtered: seq<Cost>, month: int, year: int): (r: seq<Cost>)
    ensures forall c :: c in r <==> c in filtered && InMonth(c, month, year)
  {
    Filter(filtered, InMonthOf(month, year))
  }

  /** `thisMonthTotal`: nothing when no listed cost falls in the month, and
      the whole list's total when every one does. */
  function ThisMonthTotal(filtered: seq<Cost>, month: int, year: int): (r: real)
    ensures (forall c :: c in filtered ==> !InMonth(c, month, year)) ==> r == 0.0
    ensures (forall c :: c in filtered ==> InMonth(c, month, year)) ==> r == TotalCosts(filtered)
  {
    assert (forall c :: c in filtered ==> !InMonth(c, month, year)) ==> ThisMonth(filtered, month, year) == [] by {
      if forall c :: c in filtered ==> !InMonth(c, month, year) {
        FilterNone(filtered, InMonthOf(month, year));
      }
    }
    assert (forall c :: c in filtered ==> InMonth(c, month, year)) ==> ThisMonth(filtered, month, year) == filtered by {
      if forall c :: c in filtered ==> InMonth(c, month, year) {
        FilterAll(filtered, InMonthOf(month, year));
      }
    }
    TotalCosts(ThisMonth(filtered, month, year))
  }

  /** With non-negative amounts, this month's costs never exceed the total
      of the list. */
  lemma ThisMonthWithinTotal(filtered: seq<Cost>, month: int, year: int)
    requires forall c :: c in filtered ==> c.amount >= 0.0
    ensures 0.0 <= ThisMonthTotal(filtered, month, year) <= TotalCosts(filtered)
  {
    SumOfFilterLe(filtered, InMonthOf(month, year), CostAmount);
    SumOfNonNegative(ThisMonth(filtered, month, year), CostAmount);
  }

  /** Totals add up across two lists. */
  lemma TotalCostsAdditive(a: seq<Cost>, b: seq<Cost>)
    ensures TotalCosts(a + b) == TotalCosts(a) + TotalCosts(b)
  {
    SumOfConcat(a, b, CostAmount);
  }

  /** The list comparator on `cost_date`: latest first. */
  predicate LaterCostFirst(a: Cost, b: Cost)
  {
    DateGeq(a.costDate, b.costDate)
  }

  lemma LaterCostFirstIsTotalPreorder()
    ensures Sorting.TotalPreorder(LaterCostFirst)
  {
  }

  /** The order the list is rendered in: the same costs, latest first. */
  function DisplayOrder(filtered: seq<Cost>): (r: seq<Cost>)
    ensures multiset(r) == multiset(filtered)
    ensures forall i, j :: 0 <= i < j < |r| ==> DateGeq(r[i].costDate, r[j].costDate)
  {
    LaterCostFirstIsTotalPreorder();
    Sorting.SortBy(filtered, LaterCostFirst)
  }
}
