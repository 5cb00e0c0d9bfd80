/** Bill generation, payment recording, and the bill list of
    src/pages/BillsPage.tsx. The loaded collections are parameters and the
    store writes are results: generation returns the bills it adds, in the
    order it adds them, and payment recording returns the update it sends. */
module Bills {
  import opened Collections
  import opened Text
  import opened Session
  import Sorting
  import opened Charges

  datatype Unit = Unit(
    id: string, unitNumber: string, buildingId: string, buildingName: string,
    residentId: string, residentName: string)

  /** One entry of a bill's `charges_breakdown`. */
  datatype LineItem = LineItem(chargeType: string, amount: real)

  /** A bill. `id` is assigned by the store and is "" on a bill being
      created; `dueDate` is kept as a day rather than its ISO text. */
  datatype Bill = Bill(
    id: string, unitId: string, unitNumber: string, buildingId: string,
    buildingName: string, residentId: string, residentName: string,
    billingPeriod: string, totalAmount: real, paidAmount: real,
    paymentStatus: string, dueDate: CalendarDate, issueDate: string,
    paymentDate: string, chargesBreakdown: seq<LineItem>, notes: string)

  // ---------------------------------------------------------------------
  // Billing periods and due dates

  /** Reads a "YYYY-MM" period as (year, month); any other text is a period
      for which `new Date(period + '-01')` is an invalid date. */
  function ParsePeriod(p: string): (r: Option<(int, int)>)
    ensures r.Some? ==> 0 <= r.value.0 <= 9999 && 1 <= r.value.1 <= 12
  {
    if |p| == 7 && AllDigits(p[..4]) && p[4] == '-' && AllDigits(p[5..])
       && 1 <= DecimalValue(p[5..]) <= 12
    then
      DecimalValueBound(p[..4]);
      assert Pow10(4) == 10000 by {
        assert Pow10(1) == 10 && Pow10(2) == 100 && Pow10(3) == 1000;
      }
      Some((DecimalValue(p[..4]), DecimalValue(p[5..])))
    else None
  }

  /** The period text the month picker produces for a year and month. */
  function FormatPeriod(year: nat, month: nat): (p: string)
    requires year <= 9999 && 1 <= month <= 12
    ensures |p| == 7
  {
    Decimal(year, 4) + "-" + Decimal(month, 2)
  }

  lemma PeriodRoundTrip(year: nat, month: nat)
    requires year <= 9999 && 1 <= month <= 12
    ensures ParsePeriod(FormatPeriod(year, month)) == Some((year, month))
  {
    var p := FormatPeriod(year, month);
    assert p[..4] == Decimal(year, 4);
    assert p[5..] == Decimal(month, 2);
    assert Pow10(4) == 10000 by {
      assert Pow10(1) == 10 && Pow10(2) == 100 && Pow10(3) == 1000;
    }
    DecimalRoundTrip(year, 4);
    DecimalRoundTrip(month, 2);
  }

  /** The due date of a bill for `period`: the 5th of the following month,
      December rolling over into January of the next year. `None` when the
      period is not a valid month. */
  function DueDate(period: string): (r: Option<CalendarDate>)
    ensures r.Some? <==> ParsePeriod(period).Some?
    ensures r.Some? ==>
      var (year, month) := ParsePeriod(period).value;
      && r.value.day == 5
      && 1 <= r.value.month <= 12
      && MonthIndex(r.value.year, r.value.month) == MonthIndex(year, month) + 1
  {
    match ParsePeriod(period)
    case None => None
    case Some((year, month)) =>
      if month == 12 then Some(CalendarDate(year + 1, 1, 5))
      else Some(CalendarDate(year, month + 1, 5))
  }

  /** The due date is the only day that is a 5th, in a valid month, one
      month after the period. */
  lemma DueDateUnique(period: string, d: CalendarDate)
    requires ParsePeriod(period).Some?
    requires d.day == 5 && 1 <= d.month <= 12
    requires MonthIndex(d.year, d.month) == MonthIndex(ParsePeriod(period).value.0, ParsePeriod(period).value.1) + 1
    ensures DueDate(period) == Some(d)
  {
    var due := DueDate(period).value;
    var k := due.year - d.year;
    assert k * 12 == d.month - due.month;
    assert -12 < k * 12 < 12;
    assert k == 0;
  }

  // ---------------------------------------------------------------------
  // Bill generation

  /** The units of the building that have a resident. */
  function EligibleUnits(units: seq<Unit>, buildingId: string): (r: seq<Unit>)
    ensures forall u :: u in r <==> u in units && u.buildingId == buildingId && u.residentId != ""
  {
    Filter(units, (u: Unit) => u.buildingId == buildingId && u.residentId != "")
  }

  /** The building's charges whose `is_active` is the string "true". */
  function ActiveCharges(charges: seq<Charge>, buildingId: string): (r: seq<Charge>)
    ensures forall c :: c in r <==> c in charges && c.buildingId == buildingId && c.isActive == "true"
  {
    Filter(charges, (c: Charge) => c.buildingId == buildingId && c.isActive == "true")
  }

  /** A loaded bill already covers this unit for this period. */
  predicate AlreadyBilled(bills: seq<Bill>, unitId: string, period: string)
  {
    exists b :: b in bills && b.unitId == unitId && b.billingPeriod == period
  }

  function NeedsBill(bills: seq<Bill>, period: string): Unit -> bool
  {
    (u: Unit) => !AlreadyBilled(bills, u.id, period)
  }

  /** The eligible units that no loaded bill covers for the period. */
  function UnitsToBill(eligible: seq<Unit>, bills: seq<Bill>, period: string): (r: seq<Unit>)
    ensures forall u :: u in r <==> u in eligible && !AlreadyBilled(bills, u.id, period)
  {
    Filter(eligible, NeedsBill(bills, period))
  }

  lemma UnitsToBillSnoc(s: seq<Unit>, u: Unit, bills: seq<Bill>, period: string)
    ensures UnitsToBill(s + [u], bills, period)
         == UnitsToBill(s, bills, period) + (if AlreadyBilled(bills, u.id, period) then [] else [u])
  {
    FilterConcat(s, [u], NeedsBill(bills, period));
    assert [u][1..] == [];
  }

  function ChargeLine(c: Charge): LineItem
  {
    LineItem(c.chargeType, c.amount)
  }

  function ChargeAmount(c: Charge): real
  {
    c.amount
  }

  /** The breakdown of a bill: each charge's type and amount, in order. */
  function Breakdown(charges: seq<Charge>): (r: seq<LineItem>)
    ensures |r| == |charges|
    ensures forall i :: 0 <= i < |charges| ==>
      r[i].chargeType == charges[i].chargeType && r[i].amount == charges[i].amount
  {
    Map(charges, ChargeLine)
  }

  /** The face-value sum of the charges; the billing cycle plays no part.
      Nothing without charges, never negative when no amount is. */
  function ChargesTotal(charges: seq<Charge>): (t: real)
    ensures charges == [] ==> t == 0.0
    ensures (forall c :: c in charges ==> c.amount >= 0.0) ==> t >= 0.0
  {
    assert (forall c :: c in charges ==> c.amount >= 0.0) ==> SumOf(charges, ChargeAmount) >= 0.0 by {
      if forall c :: c in charges ==> c.amount >= 0.0 {
        SumOfNonNegative(charges, ChargeAmount);
      }
    }
    SumOf(charges, ChargeAmount)
  }

  /** The total of a bill equals the sum of its own breakdown. */
  lemma {:induction false} TotalMatchesBreakdown(charges: seq<Charge>)
    ensures ChargesTotal(charges) == SumOf(Breakdown(charges), (l: LineItem) => l.amount)
  {
    if charges != [] {
      var n := |charges| - 1;
      TotalMatchesBreakdown(charges[..n]);
      assert Breakdown(charges)[..n] == Breakdown(charges[..n]);
    }
  }

  /** The bill written for one unit. */
  function NewBill(unit: Unit, buildingName: string, period: string, due: CalendarDate,
                   charges: seq<Charge>, today: string): Bill
  {
    Bill("", unit.id, unit.unitNumber, unit.buildingId, buildingName,
         unit.residentId, unit.residentName, period, ChargesTotal(charges), 0.0,
         "pending", due, today, "", Breakdown(charges), "")
  }

  function NewBills(units: seq<Unit>, buildingName: string, period: string, due: CalendarDate,
                    charges: seq<Charge>, today: string): (r: seq<Bill>)
    ensures |r| == |units|
    ensures forall i :: 0 <= i < |units| ==> r[i] == NewBill(units[i], buildingName, period, due, charges, today)
  {
    seq(|units|, i requires 0 <= i < |units| => NewBill(units[i], buildingName, period, due, charges, today))
  }

  /** What the "Generate Bills" form leads to. */
  datatype GenerateOutcome =
    | MissingSelection                 // no building or no period chosen
    | NoEligibleUnits                  // no unit of the building has a resident
    | NoActiveCharges                  // the building has no active charge
    | InvalidPeriod                    // the due date of the first new bill cannot be computed
    | Generated(created: seq<Bill>)    // the bills added, in order; `generatedCount` is their number

  /** Generation as a whole, in the order the handler checks things. */
  function Generate(buildingId: string, period: string, buildings: seq<Building>,
                    units: seq<Unit>, charges: seq<Charge>, bills: seq<Bill>,
                    today: string): (r: GenerateOutcome)
    ensures r == MissingSelection <==> buildingId == "" || period == ""
    ensures r == NoEligibleUnits <==>
      buildingId != "" && period != "" && EligibleUnits(units, buildingId) == []
    ensures r == NoActiveCharges <==>
      && buildingId != "" && period != "" && EligibleUnits(units, buildingId) != []
      && ActiveCharges(charges, buildingId) == []
    ensures r == InvalidPeriod <==>
      && buildingId != "" && period != "" && EligibleUnits(units, buildingId) != []
      && ActiveCharges(charges, buildingId) != []
      && UnitsToBill(EligibleUnits(units, buildingId), bills, period) != [] && DueDate(period).None?
    ensures r.Generated? ==>
      && EligibleUnits(units, buildingId) != []
      && ActiveCharges(charges, buildingId) != []
      && |r.created| == |UnitsToBill(EligibleUnits(units, buildingId), bills, period)|
    ensures r.Generated? ==> forall nb :: nb in r.created ==>
      && nb.billingPeriod == period && nb.buildingId == buildingId
      && nb.residentId != "" && !AlreadyBilled(bills, nb.unitId, period)
      && nb.totalAmount == ChargesTotal(ActiveCharges(charges, buildingId))
      && nb.chargesBreakdown == Breakdown(ActiveCharges(charges, buildingId))
      && nb.paidAmount == 0.0 && nb.paymentStatus == "pending"
      && nb.paymentDate == "" && nb.notes == "" && nb.issueDate == today
      && DueDate(period) == Some(nb.dueDate)
  {
    if buildingId == "" || period == "" then MissingSelection
    else
      var eligible := EligibleUnits(units, buildingId);
      var active := ActiveCharges(charges, buildingId);
      if eligible == [] then NoEligibleUnits
      else if active == [] then NoActiveCharges
      else
        var toBill := UnitsToBill(eligible, bills, period);
        if toBill == [] then Generated([])
        else match DueDate(period)
          case None => InvalidPeriod
          case Some(due) =>
            var created := NewBills(toBill, BuildingName(buildings, buildingId), period, due, active, today);
            assert forall nb :: nb in created ==> exists i :: 0 <= i < |toBill| && nb == created[i];
            Generated(created)
  }

  /** The inner `forEach` of the generator: the breakdown and the running
      total of the active charges. */
  method PriceCharges(charges: seq<Charge>) returns (breakdown: seq<LineItem>, total: real)
    ensures breakdown == Breakdown(charges)
    ensures total == ChargesTotal(charges)
  {
    breakdown, total := [], 0.0;
    var i := 0;
    while i < |charges|
      invariant 0 <= i <= |charges|
      invariant |breakdown| == i
      invariant forall k :: 0 <= k < i ==> breakdown[k] == ChargeLine(charges[k])
      invariant total == SumOf(charges[..i], ChargeAmount)
    {
      assert charges[..i + 1][..i] == charges[..i];
      breakdown := breakdown + [LineItem(charges[i].chargeType, charges[i].amount)];
      total := total + charges[i].amount;
      i := i + 1;
    }
    assert charges[..i] == charges;
  }

  /** `handleGenerateBills`: one bill per eligible unit not yet billed for
      the period, each written as soon as it is built. */
  method GenerateBills(buildingId: string, period: string, buildings: seq<Building>,
                       units: seq<Unit>, charges: seq<Charge>, bills: seq<Bill>,
                       today: string) returns (r: GenerateOutcome)
    ensures r == Generate(buildingId, period, buildings, units, charges, bills, today)
  {
    if buildingId == "" || period == "" {
      return MissingSelection;
    }
    var buildingUnits := EligibleUnits(units, buildingId);
    if |buildingUnits| == 0 {
      return NoEligibleUnits;
    }
    var buildingCharges := ActiveCharges(charges, buildingId);
    if |buildingCharges| == 0 {
      return NoActiveCharges;
    }
    var name := BuildingName(buildings, buildingId);
    r := BillUnits(buildingUnits, bills, period, name, buildingCharges, today);
    GenerateOnceReady(buildingId, period, buildings, units, charges, bills, today);
  }

  /** The generator's loop over the eligible units: skips each unit a loaded
      bill already covers, and builds and adds the bill of every other one. */
  method BillUnits(buildingUnits: seq<Unit>, bills: seq<Bill>, period: string, name: string,
                   buildingCharges: seq<Charge>, today: string) returns (r: GenerateOutcome)
    ensures var toBill := UnitsToBill(buildingUnits, bills, period);
      r == if toBill == [] then Generated([])
           else if DueDate(period).None? then InvalidPeriod
           else Generated(NewBills(toBill, name, period, DueDate(period).value, buildingCharges, today))
  {
    var created: seq<Bill> := [];
    var i := 0;
    while i < |buildingUnits|
      invariant 0 <= i <= |buildingUnits|
      invariant DueDate(period).None? ==> UnitsToBill(buildingUnits[..i], bills, period) == [] && created == []
      invariant DueDate(period).Some? ==>
        created == NewBills(UnitsToBill(buildingUnits[..i], bills, period), name, period,
                            DueDate(period).value, buildingCharges, today)
    {
      var unit := buildingUnits[i];
      assert buildingUnits[..i + 1] == buildingUnits[..i] + [unit];
      GenerateStep(buildingUnits[..i], unit, bills, period, name, buildingCharges, today);
      var existing := Find(bills, (b: Bill) => b.unitId == unit.id && b.billingPeriod == period);
      if existing.Some? {
        i := i + 1;
        continue;
      }
      var breakdown, totalAmount := PriceCharges(buildingCharges);
      var due := DueDate(period);
      if due.None? {
        return InvalidPeriod;
      }
      var bill := Bill("", unit.id, unit.unitNumber, unit.buildingId, name,
                       unit.residentId, unit.residentName, period, totalAmount, 0.0,
                       "pending", due.value, today, "", breakdown, "");
      created := created + [bill];
      i := i + 1;
    }
    assert buildingUnits[..i] == buildingUnits;
    return Generated(created);
  }

  /** Past the three early exits, generation yields the bills of the units
      still to bill, or an invalid period when there is one to bill. */
  lemma GenerateOnceReady(buildingId: string, period: string, buildings: seq<Building>,
                          units: seq<Unit>, charges: seq<Charge>, bills: seq<Bill>,
                          today: string)
    requires buildingId != "" && period != ""
    requires EligibleUnits(units, buildingId) != [] && ActiveCharges(charges, buildingId) != []
    ensures var toBill := UnitsToBill(EligibleUnits(units, buildingId), bills, period);
      Generate(buildingId, period, buildings, units, charges, bills, today)
      == if toBill == [] then Generated([])
         else if DueDate(period).None? then InvalidPeriod
         else Generated(NewBills(toBill, BuildingName(buildings, buildingId), period,
                                 DueDate(period).value, ActiveCharges(charges, buildingId), today))
  {
  }

  /** One turn of the generator's loop: a unit some loaded bill covers adds
      nothing, any other adds its bill at the end. */
  lemma GenerateStep(prefix: seq<Unit>, u: Unit, bills: seq<Bill>, period: string,
                     name: string, charges: seq<Charge>, today: string)
    ensures Find(bills, (b: Bill) => b.unitId == u.id && b.billingPeriod == period).Some?
        <==> AlreadyBilled(bills, u.id, period)
    ensures AlreadyBilled(bills, u.id, period) ==>
      UnitsToBill(prefix + [u], bills, period) == UnitsToBill(prefix, bills, period)
    ensures !AlreadyBilled(bills, u.id, period) ==>
      UnitsToBill(prefix + [u], bills, period) != [] &&
      forall due :: NewBills(UnitsToBill(prefix + [u], bills, period), name, period, due, charges, today)
        == NewBills(UnitsToBill(prefix, bills, period), name, period, due, charges, today)
         + [Bill("", u.id, u.unitNumber, u.buildingId, name, u.residentId, u.residentName, period,
                 ChargesTotal(charges), 0.0, "pending", due, today, "", Breakdown(charges), "")]
  {
    UnitsToBillSnoc(prefix, u, bills, period);
  }

  /** Generating again for the same building and period, once the store
      holds a bill for each unit just billed, creates nothing. The reloaded
      list may order the bills differently and give them their store ids. */
  lemma GenerateIsIdempotent(buildingId: string, period: string, buildings: seq<Building>,
                             units: seq<Unit>, charges: seq<Charge>, bills: seq<Bill>,
                             today: string, reloaded: seq<Bill>, later: string)
    requires Generate(buildingId, period, buildings, units, charges, bills, today).Generated?
    requires forall b :: b in bills ==> b in reloaded
    requires forall nb :: nb in Generate(buildingId, period, buildings, units, charges, bills, today).created ==>
      AlreadyBilled(reloaded, nb.unitId, nb.billingPeriod)
    ensures Generate(buildingId, period, buildings, units, charges, reloaded, later) == Generated([])
  {
    var eligible := EligibleUnits(units, buildingId);
    var toBill := UnitsToBill(eligible, bills, period);
    var created := Generate(buildingId, period, buildings, units, charges, bills, today).created;
    forall u | u in eligible ensures AlreadyBilled(reloaded, u.id, period) {
      if AlreadyBilled(bills, u.id, period) {
        var b :| b in bills && b.unitId == u.id && b.billingPeriod == period;
        assert b in reloaded;
      } else {
        assert u in toBill;
        var k :| 0 <= k < |toBill| && toBill[k] == u;
        assert created[k] in created;
      }
    }
    FilterNone(eligible, NeedsBill(reloaded, period));
  }

  /** For a period no loaded bill mentions, every unit with a resident gets
      a bill, in the order the units were loaded. */
  lemma FreshPeriodBillsEveryOccupiedUnit(buildingId: string, period: string, buildings: seq<Building>,
                                          units: seq<Unit>, charges: seq<Charge>, bills: seq<Bill>,
                                          today: string)
    requires buildingId != "" && ParsePeriod(period).Some?
    requires ActiveCharges(charges, buildingId) != []
    requires EligibleUnits(units, buildingId) != []
    requires forall b :: b in bills ==> b.billingPeriod != period
    ensures Generate(buildingId, period, buildings, units, charges, bills, today).Generated?
    ensures var created := Generate(buildingId, period, buildings, units, charges, bills, today).created;
      && |created| == |EligibleUnits(units, buildingId)|
      && forall i :: 0 <= i < |created| ==> created[i].unitId == EligibleUnits(units, buildingId)[i].id
  {
    var eligible := EligibleUnits(units, buildingId);
    FilterAll(eligible, NeedsBill(bills, period));
  }

  // ---------------------------------------------------------------------
  // Payment recording

  /** The status a bill takes once `paid` of `total` has been paid. */
  function PaymentStatus(paid: real, total: real): (s: string)
    ensures s == "paid" <==> paid >= total
    ensures s == "partial" <==> 0.0 < paid < total
    ensures s == "pending" <==> paid <= 0.0 && paid < total
  {
    if paid >= total then "paid"
    else if paid > 0.0 then "partial"
    else "pending"
  }

  /** The payment dialog: `amount` is `None` when its field is empty. */
  datatype PaymentForm = PaymentForm(amount: Option<real>, paymentDate: string, notes: string)

  /** The four fields a payment writes, for the bill `id` owned by `owner`. */
  datatype PaymentUpdate = PaymentUpdate(
    id: string, owner: string, paidAmount: real, paymentStatus: string,
    paymentDate: string, notes: string)

  /** `handleRecordPayment`: nothing is written without a selected bill or an
      amount. */
  function RecordPayment(selected: Option<Bill>, form: PaymentForm): (r: Option<PaymentUpdate>)
    ensures r.None? <==> selected.None? || form.amount.None?
    ensures r.Some? ==>
      var bill, u := selected.value, r.value;
      && u.id == bill.id && u.owner == bill.residentId
      && u.paidAmount == bill.paidAmount + form.amount.value
      && u.paymentStatus == PaymentStatus(u.paidAmount, bill.totalAmount)
      && u.paymentDate == (if u.paymentStatus == "paid" then form.paymentDate else bill.paymentDate)
      && u.notes == (if form.notes != "" then form.notes else bill.notes)
  {
    if selected.None? || form.amount.None? then None
    else
      var bill := selected.value;
      var newTotalPaid := bill.paidAmount + form.amount.value;
      var newStatus := PaymentStatus(newTotalPaid, bill.totalAmount);
      Some(PaymentUpdate(bill.id, bill.residentId, newTotalPaid, newStatus,
                         if newStatus == "paid" then form.paymentDate else bill.paymentDate,
                         if form.notes != "" then form.notes else bill.notes))
  }

  /** The stored bill after the store overwrites the fields named in the
      update. */
  function ApplyPayment(b: Bill, u: PaymentUpdate): (r: Bill)
    ensures r.paidAmount == u.paidAmount && r.paymentStatus == u.paymentStatus
    ensures r.paymentDate == u.paymentDate && r.notes == u.notes
    ensures r.(paidAmount := b.paidAmount, paymentStatus := b.paymentStatus,
               paymentDate := b.paymentDate, notes := b.notes) == b
  {
    b.(paidAmount := u.paidAmount, paymentStatus := u.paymentStatus,
       paymentDate := u.paymentDate, notes := u.notes)
  }

  /** One payment dialog submitted against the bill, and the store's copy
      of the bill afterwards. */
  function PayOnce(b: Bill, f: PaymentForm): (r: Bill)
    ensures r.totalAmount == b.totalAmount
    ensures r.paidAmount == b.paidAmount + EnteredAmount(f)
    ensures f.amount.Some? ==> r.paymentStatus == PaymentStatus(r.paidAmount, b.totalAmount)
    ensures f.amount.None? ==> r == b
  {
    match RecordPayment(Some(b), f)
    case Some(u) => ApplyPayment(b, u)
    case None => b
  }

  /** Records each form in turn against the bill as reloaded after the
      previous one. */
  function PayInTurn(b: Bill, forms: seq<PaymentForm>): Bill
    decreases |forms|
  {
    if forms == [] then b else PayInTurn(PayOnce(b, forms[0]), forms[1..])
  }

  function EnteredAmount(f: PaymentForm): real
  {
    if f.amount.Some? then f.amount.value else 0.0
  }

  /** After any number of payments the paid amount is the old one plus every
      amount entered, the total is untouched, and the status is the one that
      paid amount derives, as long as some payment was written. */
  lemma {:induction false} PaymentsAccumulate(b: Bill, forms: seq<PaymentForm>)
    decreases |forms|
    ensures PayInTurn(b, forms).paidAmount == b.paidAmount + SumOf(forms, EnteredAmount)
    ensures PayInTurn(b, forms).totalAmount == b.totalAmount
    ensures (exists f :: f in forms && f.amount.Some?) ==>
      PayInTurn(b, forms).paymentStatus == PaymentStatus(PayInTurn(b, forms).paidAmount, b.totalAmount)
    ensures (forall f :: f in forms ==> f.amount.None?) ==> PayInTurn(b, forms) == b
  {
    if forms != [] {
      var next := PayOnce(b, forms[0]);
      var rest := forms[1..];
      SumOfFront(forms, EnteredAmount);
      PaymentsAccumulate(next, rest);
      assert PayInTurn(b, forms) == PayInTurn(next, rest);
      assert forms == [forms[0]] + rest;
      assert forall f :: f in forms <==> f == forms[0] || f in rest;
    }
  }

  // ---------------------------------------------------------------------
  // The bill list

  /** `filteredBills`: building and status filters ("all" lets everything
      through), and a resident sees only the bills addressed to them. */
  function VisibleBills(bills: seq<Bill>, filterBuilding: string, filterStatus: string,
                        viewer: Option<User>): (r: seq<Bill>)
    ensures |r| <= |bills|
    ensures forall b :: b in r <==>
      && b in bills
      && (filterBuilding == "all" || b.buildingId == filterBuilding)
      && (filterStatus == "all" || b.paymentStatus == filterStatus)
      && (viewer.Some? && viewer.value.role == Resident ==> b.residentId == viewer.value.uid)
  {
    Filter(bills, (b: Bill) =>
      && (filterBuilding == "all" || b.buildingId == filterBuilding)
      && (filterStatus == "all" || b.paymentStatus == filterStatus)
      && (viewer.Some? && viewer.value.role == Resident ==> b.residentId == viewer.value.uid))
  }

  /** The statistics cards above the list. */
  datatype BillStats = BillStats(totalRevenue: real, totalPaid: real, pendingBills: nat)

  /** Pending counts the bills still awaiting money: `pending` and `overdue`. */
  predicate Outstanding(b: Bill)
  {
    b.paymentStatus == "pending" || b.paymentStatus == "overdue"
  }

  function BillTotal(b: Bill): real { b.totalAmount }

  function BillPaid(b: Bill): real { b.paidAmount }

  function Stats(filtered: seq<Bill>): (s: BillStats)
    ensures s.pendingBills <= |filtered|
  {
    BillStats(SumOf(filtered, BillTotal), SumOf(filtered, BillPaid), Count(filtered, Outstanding))
  }

  /** The pending card counts exactly the `pending` and the `overdue` bills. */
  lemma {:induction false} PendingCountsBoth(filtered: seq<Bill>)
    ensures Stats(filtered).pendingBills
         == Count(filtered, (b: Bill) => b.paymentStatus == "pending")
          + Count(filtered, (b: Bill) => b.paymentStatus == "overdue")
  {
    if filtered != [] {
      PendingCountsBoth(filtered[1..]);
    }
  }

  /** When no bill is overpaid, the collected total does not exceed the
      billed total. */
  lemma {:induction false} CollectedAtMostBilled(filtered: seq<Bill>)
    requires forall b :: b in filtered ==> b.paidAmount <= b.totalAmount
    ensures Stats(filtered).totalPaid <= Stats(filtered).totalRevenue
  {
    if filtered != [] {
      var n := |filtered| - 1;
      assert forall b :: b in filtered[..n] ==> b in filtered;
      CollectedAtMostBilled(filtered[..n]);
      assert filtered[n] in filtered;
    }
  }

  /** The list comparator `b.billing_period.localeCompare(a.billing_period)`:
      the latest period first. */
  predicate LaterPeriodFirst(a: Bill, b: Bill)
  {
    StrGeq(a.billingPeriod, b.billingPeriod)
  }

  lemma LaterPeriodFirstIsTotalPreorder()
    ensures Sorting.TotalPreorder(LaterPeriodFirst)
  {
    forall a: Bill, b: Bill ensures LaterPeriodFirst(a, b) || LaterPeriodFirst(b, a) {
      StrGeqTotal(a.billingPeriod, b.billingPeriod);
    }
    forall a: Bill, b: Bill, c: Bill | LaterPeriodFirst(a, b) && LaterPeriodFirst(b, c)
      ensures LaterPeriodFirst(a, c)
    {
      StrGeqTransitive(a.billingPeriod, b.billingPeriod, c.billingPeriod);
    }
  }

  /** The order the list is rendered in: the same bills, latest period first. */
  function DisplayOrder(filtered: seq<Bill>): (r: seq<Bill>)
    ensures multiset(r) == multiset(filtered)
    ensures forall i, j :: 0 <= i < j < |r| ==> StrGeq(r[i].billingPeriod, r[j].billingPeriod)
  {
    LaterPeriodFirstIsTotalPreorder();
    Sorting.SortBy(filtered, LaterPeriodFirst)
  }
}
