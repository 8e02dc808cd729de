/** The invoice controller: the status-filtered listing, the detail view that
    backs the 16% VAT out of an invoice's amount, status updates, one-off
    invoices raised against a bill, and the PDF path. */
module Invoicing {
  import opened Common
  import opened Records
  import opened Ledger
  import opened Db
  import opened Rating

  /** The ids the listing returns: every invoice without a filter, otherwise the
      invoices whose stored status string equals the filter. */
  function MatchingInvoiceIds(invoices: map<int, Invoice>, status: string): (S: set<int>)
    ensures S <= invoices.Keys
    ensures forall k :: k in S <==> k in invoices && (status == "" || invoices[k].status.Name() == status)
  {
    set k | k in invoices && (status == "" || invoices[k].status.Name() == status)
  }

  /** getInvoices: an empty `status` is no filter. */
  method GetInvoices(db: Store, status: string) returns (rows: seq<Invoice>)
    ensures multiset(rows) == ValuesOf(db.invoices, MatchingInvoiceIds(db.invoices, status))
    ensures forall x :: x in rows ==>
      && (status == "" || x.status.Name() == status)
      && exists k :: k in db.invoices && db.invoices[k] == x
    ensures forall k :: k in db.invoices && (status == "" || db.invoices[k].status.Name() == status) ==>
      db.invoices[k] in rows
  {
    var S := MatchingInvoiceIds(db.invoices, status);
    rows := Enumerate(db.invoices, S);
    forall x | x in rows
      ensures (status == "" || x.status.Name() == status) && exists k :: k in db.invoices && db.invoices[k] == x
    {
      EnumeratedMember(db.invoices, S, rows, x);
    }
    forall k | k in S ensures db.invoices[k] in rows {
      EnumeratedMember(db.invoices, S, rows, db.invoices[k]);
    }
  }

  /** A status filter selects invoices of exactly one status: the four stored names are distinct. */
  lemma StatusFilterSelectsOneStatus(s: InvoiceStatus, t: InvoiceStatus)
    ensures s.Name() == t.Name() <==> s == t
  {
  }

  /** The status filters partition the invoices: an invoice is listed under the
      name of a status exactly when it has that status, and with no filter every
      invoice is listed. */
  lemma StatusListingsPartition(invoices: map<int, Invoice>, k: int, s: InvoiceStatus)
    requires k in invoices
    ensures k in MatchingInvoiceIds(invoices, s.Name()) <==> invoices[k].status == s
    ensures MatchingInvoiceIds(invoices, "") == invoices.Keys
  {
    StatusFilterSelectsOneStatus(invoices[k].status, s);
    assert s.Name() != "";
  }

  datatype InvoiceBreakdown = InvoiceBreakdown(subtotal: real, tax: real, total: real)

  /** The detail view's breakdown, which reads amountDue as VAT-inclusive. */
  function BackOutTax(amountDue: real): (b: InvoiceBreakdown)
    ensures b.total == amountDue
    ensures b.subtotal + b.tax == b.total
    ensures b.tax == TaxRate * b.subtotal
  {
    var subtotal := amountDue / 1.16;
    InvoiceBreakdown(subtotal, subtotal * 0.16, amountDue)
  }

  /** The backed-out subtotal is the only amount that, taxed, gives amountDue. */
  lemma BackedOutSubtotalUnique(amountDue: real, s: real)
    requires s + TaxRate * s == amountDue
    ensures s == BackOutTax(amountDue).subtotal
  {
  }

  /** For an invoice whose amount is a rating's total, as generateBill issues, the
      detail view recovers the rating's own subtotal and tax. */
  lemma BreakdownRecoversRating(plan: Plan, logs: seq<UsageLog>)
    ensures var r := Rate(plan, logs).breakdown;
      BackOutTax(r.total) == InvoiceBreakdown(r.subtotal, r.tax, r.total)
  {
    BreakdownIdentities(plan, logs);
  }

  /** What getInvoiceById returns; the bill-derived fields are absent when the
      invoice has no bill. `billDate` reads a `date` the Bill table does not
      have, so it is always absent. */
  datatype InvoiceDetails = InvoiceDetails(
    invoiceNumber: string,
    billDate: Option<int>,
    amount: real,
    status: InvoiceStatus,
    customer: Option<Customer>,
    plan: Option<Plan>,
    usageLogs: seq<LogSnapshot>,
    breakdown: InvoiceBreakdown)

  /** The bill an invoice belongs to, when it names one that exists. */
  function BillOf(bills: map<int, Bill>, invoice: Invoice): (r: Option<Bill>)
    ensures r.Some? <==> invoice.billId.Some? && invoice.billId.value in bills
    ensures r.Some? ==> r.value == bills[invoice.billId.value]
  {
    if invoice.billId.Some? && invoice.billId.value in bills then Some(bills[invoice.billId.value]) else None
  }

  function Lookup<T>(m: map<int, T>, k: int): (r: Option<T>)
    ensures r.Some? <==> k in m
    ensures r.Some? ==> r.value == m[k]
  {
    if k in m then Some(m[k]) else None
  }

  /** getInvoiceById: 404 without the invoice; otherwise its number, amount and
      status, its bill's customer, plan and usage snapshot (none, and an empty
      snapshot, without a bill), no bill date, and the VAT breakdown of its amount. */
  function GetInvoiceById(db: Store, id: int): (r: Result<InvoiceDetails>)
    reads db
    ensures r.Err? <==> id !in db.invoices
    ensures r.Err? ==> r.error == NotFound
    ensures r.Ok? ==>
      var inv := db.invoices[id];
      var bill := BillOf(db.bills, inv);
      && r.value.invoiceNumber == inv.invoiceNumber
      && r.value.amount == r.value.breakdown.total == inv.amountDue
      && r.value.breakdown == BackOutTax(inv.amountDue)
      && r.value.breakdown.subtotal + r.value.breakdown.tax == inv.amountDue
      && r.value.breakdown.tax == TaxRate * r.value.breakdown.subtotal
      && r.value.status == inv.status
      && r.value.billDate.None?
      && (bill.None? ==> r.value.customer.None? && r.value.plan.None? && r.value.usageLogs == [])
      && (bill.Some? ==> r.value.usageLogs == bill.value.usageLogs
                         && r.value.customer == Lookup(db.customers, bill.value.customerId)
                         && r.value.plan == Lookup(db.plans, bill.value.planId))
  {
    if id !in db.invoices then Err(NotFound)
    else
      var inv := db.invoices[id];
      match BillOf(db.bills, inv)
      case None =>
        Ok(InvoiceDetails(inv.invoiceNumber, None, inv.amountDue, inv.status, None, None, [], BackOutTax(inv.amountDue)))
      case Some(bill) =>
        Ok(InvoiceDetails(inv.invoiceNumber, None, inv.amountDue, inv.status,
                          Lookup(db.customers, bill.customerId), Lookup(db.plans, bill.planId),
                          bill.usageLogs, BackOutTax(inv.amountDue)))
  }

  /** updateInvoiceStatus: 404 without the invoice; otherwise only its status changes. */
  method UpdateInvoiceStatus(db: Store, id: int, status: InvoiceStatus) returns (r: Result<Invoice>)
    requires db.Valid()
    modifies db
    ensures db.Valid()
    ensures id !in old(db.invoices) ==> r == Err(NotFound) && unchanged(db)
    ensures id in old(db.invoices) ==>
      && r == Ok(old(db.invoices)[id].(status := status))
      && db.invoices == old(db.invoices)[id := r.value]
      && db.plans == old(db.plans) && db.customers == old(db.customers) && db.usageLogs == old(db.usageLogs)
      && db.bills == old(db.bills) && db.payments == old(db.payments)
  {
    if id !in db.invoices {
      return Err(NotFound);
    }
    var updated := db.invoices[id].(status := status);
    db.SetInvoices(db.invoices[id := updated]);
    r := Ok(updated);
  }

  /** `/generated/invoices/${invoiceNumber}.pdf` */
  function PdfPath(invoiceNumber: string): string {
    "/generated/invoices/" + invoiceNumber + ".pdf"
  }

  /** A PDF path names its invoice number: distinct numbers get distinct paths. */
  lemma PdfPathNamesInvoice(a: string, b: string)
    requires PdfPath(a) == PdfPath(b)
    ensures a == b
  {
    var pa, pb := PdfPath(a), PdfPath(b);
    assert |a| == |b|;
    assert a == pa[20..20 + |a|];
    assert b == pb[20..20 + |b|];
  }

  /** generatePDF: 404 without the invoice; otherwise only its pdfPath is set. */
  method GeneratePdf(db: Store, id: int) returns (r: Result<string>)
    requires db.Valid()
    modifies db
    ensures db.Valid()
    ensures id !in old(db.invoices) ==> r == Err(NotFound) && unchanged(db)
    ensures id in old(db.invoices) ==>
      && r == Ok(PdfPath(old(db.invoices)[id].invoiceNumber))
      && db.invoices == old(db.invoices)[id := old(db.invoices)[id].(pdfPath := Some(r.value))]
      && db.plans == old(db.plans) && db.customers == old(db.customers) && db.usageLogs == old(db.usageLogs)
      && db.bills == old(db.bills) && db.payments == old(db.payments)
  {
    if id !in db.invoices {
      return Err(NotFound);
    }
    var path := PdfPath(db.invoices[id].invoiceNumber);
    db.SetInvoices(db.invoices[id := db.invoices[id].(pdfPath := Some(path))]);
    r := Ok(path);
  }

  /** The ids of a customer's bills. */
  function CustomerBillIds(bills: map<int, Bill>, customerId: int): (S: set<int>)
    ensures S <= bills.Keys
    ensures forall k :: k in S <==> k in bills && bills[k].customerId == customerId
  {
    set k | k in bills && bills[k].customerId == customerId
  }

  /** Bill.findOne({ where: { customerId }, order: [['createdAt', 'DESC']] }): none exactly
      when the customer has no bill, otherwise one of its bills created no earlier
      than any other (which one among ties is left open). */
  method LatestBill(db: Store, customerId: int) returns (r: Option<Bill>)
    ensures r.None? <==> forall k :: k in db.bills ==> db.bills[k].customerId != customerId
    ensures r.Some? ==>
      && r.value.customerId == customerId
      && (exists k :: k in db.bills && db.bills[k] == r.value)
      && forall k :: k in db.bills && db.bills[k].customerId == customerId ==> db.bills[k].createdAt <= r.value.createdAt
  {
    var S := CustomerBillIds(db.bills, customerId);
    var rows := Enumerate(db.bills, S);
    r := None;
    var i := 0;
    while i < |rows|
      invariant 0 <= i <= |rows|
      invariant r.None? <==> i == 0
      invariant r.Some? ==> r.value in rows && forall j :: 0 <= j < i ==> rows[j].createdAt <= r.value.createdAt
    {
      if r.None? || r.value.createdAt < rows[i].createdAt {
        r := Some(rows[i]);
      }
      i := i + 1;
    }
    forall k | k in S ensures db.bills[k] in rows {
      EnumeratedMember(db.bills, S, rows, db.bills[k]);
    }
    if r.Some? {
      EnumeratedMember(db.bills, S, rows, r.value);
    }
  }

  /** The body of a one-off invoice request; absent fields are None. */
  datatype InvoiceRequest = InvoiceRequest(billId: Option<int>, customerId: Option<int>,
                                           dueDate: Option<int>, amountDue: Option<real>)

  /** Days a one-off invoice is due after issue when the request names no due date. */
  const OneOffGraceDays: int := 14

  /** `INV-${Date.now()}-${Math.floor(Math.random() * 1000)}` */
  function OneOffInvoiceNumber(stamp: nat, draw: nat): string {
    "INV-" + Decimal(stamp) + "-" + Decimal(draw)
  }

  /** The invoice generateInvoice inserts for a selected bill. It needs a truthy
      amount: the fallback `bill.amount` is not a Bill column, so without one
      the row has no amountDue and the database refuses it. A falsy due date
      falls back to 14 days after issue. */
  function OneOffInvoice(id: int, bill: Bill, req: InvoiceRequest, now: nat, draw: nat): (inv: Invoice)
    requires PresentAmount(req.amountDue)
    ensures inv.billId == Some(bill.id) && inv.customerId == bill.customerId
    ensures inv.status == InvoiceStatus.Pending && inv.issueDate == now && inv.pdfPath == None
    ensures !PresentId(req.dueDate) ==> inv.dueDate == now + OneOffGraceDays * DayMs
    ensures PresentId(req.dueDate) ==> inv.dueDate == req.dueDate.value
    ensures inv.amountDue == req.amountDue.value
  {
    Invoice(id, Some(bill.id), bill.customerId, OneOffInvoiceNumber(now, draw), now,
            if PresentId(req.dueDate) then req.dueDate.value else now + OneOffGraceDays * DayMs,
            req.amountDue.value, None, InvoiceStatus.Pending)
  }

  /** Whether generateInvoice finds a bill: the one `billId` names when it is
      truthy, else a bill of the customer when `customerId` is truthy. */
  ghost predicate BillSelected(bills: map<int, Bill>, req: InvoiceRequest) {
    if PresentId(req.billId) then req.billId.value in bills
    else PresentId(req.customerId) && exists k :: k in bills && bills[k].customerId == req.customerId.value
  }

  /** generateInvoice: the bill is the one `billId` names when given (no fallback
      when it names none), else the customer's latest bill when `customerId` is
      given; without a bill, 404. With a bill but no truthy amount, the insert
      fails (500). Either way nothing is written. `draw` is the random suffix of
      the invoice number. */
  method GenerateInvoice(db: Store, req: InvoiceRequest, now: nat, draw: nat) returns (r: Result<Invoice>)
    requires db.Valid()
    modifies db
    ensures db.Valid()
    ensures r.Ok? <==> BillSelected(old(db.bills), req) && PresentAmount(req.amountDue)
    ensures r.Err? ==> r.error == (if BillSelected(old(db.bills), req) then ServerError else NotFound)
    ensures r.Err? ==> unchanged(db)
    ensures r.Ok? ==>
      && r.value.billId.Some? && r.value.billId.value in old(db.bills)
      && var bill := old(db.bills)[r.value.billId.value];
      && r.value == OneOffInvoice(old(db.nextInvoiceId), bill, req, now, draw)
      && (PresentId(req.billId) ==> bill.id == req.billId.value)
      && (!PresentId(req.billId) ==>
            && bill.customerId == req.customerId.value
            && forall k :: k in old(db.bills) && old(db.bills)[k].customerId == bill.customerId ==>
                 old(db.bills)[k].createdAt <= bill.createdAt)
      && db.invoices == old(db.invoices)[r.value.id := r.value] && r.value.id !in old(db.invoices)
      && db.plans == old(db.plans) && db.customers == old(db.customers) && db.usageLogs == old(db.usageLogs)
      && db.bills == old(db.bills) && db.payments == old(db.payments)
  {
    var bill: Option<Bill> := None;
    if PresentId(req.billId) {
      bill := Lookup(db.bills, req.billId.value);
    } else if PresentId(req.customerId) {
      bill := LatestBill(db, req.customerId.value);
    }
    if bill.None? {
      return Err(NotFound);
    }
    if !PresentAmount(req.amountDue) {
      return Err(ServerError);
    }
    var invoice := OneOffInvoice(db.nextInvoiceId, bill.value, req, now, draw);
    db.InsertInvoice(invoice);
    r := Ok(invoice);
  }
}
