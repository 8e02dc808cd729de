/** The billing controller: rate a customer's unbilled usage, issue a Bill and
    its Invoice and mark the consumed usage billed, and project the month. */
module Billing {
  import opened Common
  import opened Records
  import opened Ledger
  import opened Db
  import opened Rating

  /** What the rating of one customer yields: the customer, the plan, the
      rating and the unbilled rows it was computed from. */
  datatype Charged = Charged(customer: Customer, plan: Plan, rating: Rating, unbilledLogs: seq<UsageLog>)

  /** The outcome of rating `customerId` against the store as it stands: 404
      without a customer, 400 without a plan, otherwise the rating of exactly
      the customer's unbilled rows. */
  ghost predicate ChargesOf(customers: map<int, Customer>, plans: map<int, Plan>, usageLogs: map<int, UsageLog>,
                            customerId: int, r: Result<Charged>)
  {
    if customerId !in customers then r == Err(NotFound)
    else if customers[customerId].planId !in plans then r == Err(BadRequest)
    else
      && r.Ok?
      && r.value.customer == customers[customerId]
      && r.value.plan == plans[customers[customerId].planId]
      && multiset(r.value.unbilledLogs) == ValuesOf(usageLogs, UnbilledIds(usageLogs, customerId))
      && r.value.rating == Rate(r.value.plan, r.value.unbilledLogs)
  }

  /** calculateCustomerCharges: reads the customer, its plan and its unbilled rows; writes nothing. */
  method CalculateCustomerCharges(db: Store, customerId: int) returns (r: Result<Charged>)
    ensures ChargesOf(db.customers, db.plans, db.usageLogs, customerId, r)
    ensures r.Err? <==> customerId !in db.customers || db.customers[customerId].planId !in db.plans
  {
    if customerId !in db.customers {
      return Err(NotFound);
    }
    var customer := db.customers[customerId];
    if customer.planId !in db.plans {
      return Err(BadRequest);
    }
    var plan := db.plans[customer.planId];
    var unbilled := Enumerate(db.usageLogs, UnbilledIds(db.usageLogs, customerId));
    r := Ok(Charged(customer, plan, Rate(plan, unbilled), unbilled));
  }

  /** calculateCharges: the current total for a customer. */
  method CalculateCharges(db: Store, customerId: int) returns (r: Result<real>, ghost charged: Result<Charged>)
    ensures ChargesOf(db.customers, db.plans, db.usageLogs, customerId, charged)
    ensures charged.Err? ==> r == Err(charged.error)
    ensures charged.Ok? ==> r == Ok(charged.value.rating.breakdown.total)
    ensures r.Err? <==> customerId !in db.customers || db.customers[customerId].planId !in db.plans
    ensures r.Err? ==> r.error == (if customerId !in db.customers then NotFound else BadRequest)
  {
    var res := CalculateCustomerCharges(db, customerId);
    charged := res;
    if res.Err? {
      return Err(res.error), res;
    }
    r := Ok(res.value.rating.breakdown.total);
  }

  datatype Issued = Issued(bill: Bill, invoice: Invoice, breakdown: Breakdown)

  /** Days between an issued invoice and its due date. */
  const InvoiceGraceDays: int := 30

  /** `INV-${bill.id}-${Date.now()}`. */
  function BillInvoiceNumber(billId: nat, stamp: nat): string {
    "INV-" + Decimal(billId) + "-" + Decimal(stamp)
  }

  /** An issued invoice number names its bill and its moment: equal numbers
      come from the same bill id and the same timestamp. */
  lemma BillInvoiceNumberTraceable(b1: nat, t1: nat, b2: nat, t2: nat)
    requires BillInvoiceNumber(b1, t1) == BillInvoiceNumber(b2, t2)
    ensures b1 == b2 && t1 == t2
  {
    var n1, n2 := BillInvoiceNumber(b1, t1), BillInvoiceNumber(b2, t2);
    assert n1[4..] == Decimal(b1) + "-" + Decimal(t1);
    assert n2[4..] == Decimal(b2) + "-" + Decimal(t2);
    SplitAtDash(Decimal(b1), Decimal(t1), Decimal(b2), Decimal(t2));
    DecimalInjective(b1, b2);
    DecimalInjective(t1, t2);
  }

  /** The Bill row generateBill inserts: the rating's total, the per-type totals,
      the snapshot of exactly the consumed rows, and the default status. */
  function NewBill(c: Charged, customerId: int, billId: int, now: int): (bill: Bill)
    ensures bill.id == billId && bill.customerId == customerId && bill.planId == c.plan.id
    ensures bill.totalAmount == c.rating.breakdown.total
    ensures bill.voiceCallsDuration == c.rating.totals.call
    ensures bill.dataUsage == c.rating.totals.data
    ensures bill.smsCount == c.rating.totals.sms
    ensures bill.usageLogs == Snapshot(c.unbilledLogs)
    ensures |bill.usageLogs| == |c.unbilledLogs|
    ensures forall i :: 0 <= i < |c.unbilledLogs| ==> bill.usageLogs[i].id == c.unbilledLogs[i].id
    ensures bill.paymentStatus == BillStatusDefault && bill.createdAt == now
  {
    Bill(billId, customerId, c.plan.id, Snapshot(c.unbilledLogs),
         c.rating.totals.call, c.rating.totals.data, c.rating.totals.sms,
         c.rating.breakdown.total, BillStatusDefault, now)
  }

  /** The Invoice row generateBill inserts for a bill: pending, due 30 days after issue. */
  function NewInvoice(customerId: int, billId: nat, invoiceId: int, total: real, now: nat): (inv: Invoice)
    ensures inv.billId == Some(billId) && inv.amountDue == total && inv.status == InvoiceStatus.Pending
    ensures inv.dueDate - inv.issueDate == InvoiceGraceDays * DayMs && inv.pdfPath == None
  {
    Invoice(invoiceId, Some(billId), customerId, BillInvoiceNumber(billId, now),
            now, now + InvoiceGraceDays * DayMs, total, None, InvoiceStatus.Pending)
  }

  /** generateBill: rate the customer, insert one Bill snapshotting the rating and
      the consumed rows, insert one pending Invoice due 30 days later, and flip
      exactly the consumed rows to billed. Fails, writing nothing, as the rating does. */
  method GenerateBill(db: Store, customerId: int, now: nat) returns (r: Result<Issued>, ghost charged: Result<Charged>)
    requires db.Valid()
    modifies db
    ensures db.Valid()
    ensures ChargesOf(old(db.customers), old(db.plans), old(db.usageLogs), customerId, charged)
    ensures charged.Err? ==> r == Err(charged.error) && unchanged(db)
    ensures charged.Ok? ==>
      var billId, invoiceId := old(db.nextBillId), old(db.nextInvoiceId);
      var bill := NewBill(charged.value, customerId, billId, now);
      var invoice := NewInvoice(customerId, billId, invoiceId, charged.value.rating.breakdown.total, now);
      && r == Ok(Issued(bill, invoice, charged.value.rating.breakdown))
      && billId !in old(db.bills) && invoiceId !in old(db.invoices)
      && db.bills == old(db.bills)[billId := bill]
      && db.invoices == old(db.invoices)[invoiceId := invoice]
      && db.usageLogs == MarkBilled(old(db.usageLogs), UnbilledIds(old(db.usageLogs), customerId))
      && db.plans == old(db.plans) && db.customers == old(db.customers) && db.payments == old(db.payments)
  {
    var res := CalculateCustomerCharges(db, customerId);
    charged := res;
    if res.Err? {
      return Err(res.error), res;
    }
    var c := res.value;
    EnumeratedIds(db.usageLogs, UnbilledIds(db.usageLogs, customerId), c.unbilledLogs);

    var billId := db.nextBillId;
    var bill := NewBill(c, customerId, billId, now);
    db.InsertBill(bill);
    var invoiceId := db.nextInvoiceId;
    var invoice := NewInvoice(customerId, billId, invoiceId, c.rating.breakdown.total, now);
    db.InsertInvoice(invoice);
    if |c.unbilledLogs| > 0 {
      db.SetUsageLogs(MarkBilled(db.usageLogs, LogIds(c.unbilledLogs)));
    } else {
      assert MarkBilled(db.usageLogs, {}) == db.usageLogs;
    }
    r := Ok(Issued(bill, invoice, c.rating.breakdown));
  }

  /** Issuing flips exactly the customer's unbilled rows: afterwards a row is billed
      iff it was billed before or belongs to the customer, and no other customer's
      row changes. */
  lemma IssuingBillsExactlyTheConsumedRows(logs: map<int, UsageLog>, customerId: int)
    ensures var after := MarkBilled(logs, UnbilledIds(logs, customerId));
      && after.Keys == logs.Keys
      && (forall k :: k in logs ==> (after[k].billed <==> logs[k].billed || logs[k].customerId == customerId))
      && (forall k :: k in logs && logs[k].customerId != customerId ==> after[k] == logs[k])
      && (forall k :: k in logs ==> after[k].(billed := logs[k].billed) == logs[k])
  {
  }

  predicate NonNegativeAllowances(plan: Plan) {
    Allowance(plan.callMinutes) >= 0.0 && Allowance(plan.dataUsage) >= 0.0 && Allowance(plan.smsCount) >= 0.0
  }

  /** An immediate second rating after issuing finds no unbilled rows, so it
      charges only the base price grossed up by the tax: re-running generateBill
      with no new usage bills the base price again. */
  lemma RebillChargesBasePriceOnly(logs: map<int, UsageLog>, customerId: int, plan: Plan, rows: seq<UsageLog>)
    requires NonNegativeAllowances(plan)
    requires var after := MarkBilled(logs, UnbilledIds(logs, customerId));
      multiset(rows) == ValuesOf(after, UnbilledIds(after, customerId))
    ensures rows == []
    ensures Rate(plan, rows).breakdown.usageCharges == 0.0
    ensures Rate(plan, rows).breakdown.total == 1.16 * plan.price
  {
    var after := MarkBilled(logs, UnbilledIds(logs, customerId));
    assert UnbilledIds(after, customerId) == {};
    assert |rows| == |multiset(rows)| == 0;
  }

  datatype Forecast = Forecast(currentUsage: Totals, currentCosts: Breakdown, projection: Projection)

  /** getForecast: the current rating and its linear projection to the end of the
      month; fails as the rating does and writes nothing. */
  method GetForecast(db: Store, customerId: int, daysInMonth: int, currentDay: int)
    returns (r: Result<Forecast>, ghost charged: Result<Charged>)
    requires 1 <= currentDay <= daysInMonth
    ensures ChargesOf(db.customers, db.plans, db.usageLogs, customerId, charged)
    ensures charged.Err? ==> r == Err(charged.error)
    ensures charged.Ok? ==>
      var c := charged.value;
      && r.Ok?
      && r.value.currentUsage == c.rating.totals
      && r.value.currentCosts == c.rating.breakdown
      && r.value.projection == Project(c.plan.price, c.rating.breakdown.usageCharges, daysInMonth, currentDay)
      && (currentDay == daysInMonth ==> r.value.projection.total == c.rating.breakdown.total)
    ensures r.Err? <==> customerId !in db.customers || db.customers[customerId].planId !in db.plans
    ensures r.Err? ==> r.error == (if customerId !in db.customers then NotFound else BadRequest)
    ensures r.Ok? && currentDay == daysInMonth ==> r.value.projection.total == r.value.currentCosts.total
    ensures r.Ok? ==> (r.value.projection.confidence == High <==> currentDay > 15)
  {
    var res := CalculateCustomerCharges(db, customerId);
    charged := res;
    if res.Err? {
      return Err(res.error), res;
    }
    var c := res.value;
    ProjectionOnLastDay(c.plan, c.unbilledLogs, daysInMonth);
    ConfidenceHighLate(c.plan.price, c.rating.breakdown.usageCharges, daysInMonth, currentDay);
    r := Ok(Forecast(c.rating.totals, c.rating.breakdown,
                     Project(c.plan.price, c.rating.breakdown.usageCharges, daysInMonth, currentDay)));
  }
}
