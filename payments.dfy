/** The payment controller: record a payment, change its status, delete it, and
    take the M-Pesa callback. A completed payment marks its bill paid; only
    createPayment, which reads the invoice id from the request itself, also marks
    an invoice paid, since the Payment table keeps no invoice id. */
module Payments {
  import opened Common
  import opened Records
  import opened Db

  /** The body of a create request; absent fields are None, an absent string is "". */
  datatype PaymentRequest = PaymentRequest(
    billId: Option<int>,
    customerId: Option<int>,
    amount: Option<real>,
    paymentMethod: string,
    receiptNumber: string,
    status: Option<PaymentStatus>,
    invoiceId: Option<int>)

  /** The required-field check: billId, customerId, amount and method all truthy. */
  predicate Admissible(req: PaymentRequest) {
    PresentId(req.billId) && PresentId(req.customerId) && PresentAmount(req.amount) && req.paymentMethod != ""
  }

  /** The receipt a payment gets when none is supplied: `REC${Date.now()}`. */
  function DefaultReceipt(now: nat): (s: string)
    ensures |s| > 3 && s[..3] == "REC" && AllDigits(s[3..]) && ParseDecimal(s[3..]) == now
  {
    var s := "REC" + Decimal(now);
    assert s[3..] == Decimal(now);
    DecimalRoundTrip(now);
    s
  }

  /** The row createPayment inserts, with its defaults: status pending unless
      given, receipt REC<now> (from which `now` reads back) unless given. */
  function NewPayment(id: int, req: PaymentRequest, now: nat): (p: Payment)
    requires Admissible(req)
    ensures p.amount == req.amount.value && p.paymentDate == now && p.paymentMethod == req.paymentMethod
    ensures p.customerId == req.customerId.value && p.billId == req.billId.value && p.billId != 0
    ensures p.status == (if req.status.Some? then req.status.value else PaymentStatus.Pending)
    ensures req.receiptNumber != "" ==> p.receiptNumber == req.receiptNumber
    ensures req.receiptNumber == "" ==> p.receiptNumber == DefaultReceipt(now)
    ensures p.receiptNumber != ""
  {
    Payment(id, req.amount.value, now, req.paymentMethod,
            if req.receiptNumber != "" then req.receiptNumber else DefaultReceipt(now),
            req.status.GetOr(PaymentStatus.Pending), req.customerId.value, req.billId.value)
  }

  /** Whether a payment in this state settles its bill (and linked invoice). */
  predicate Settles(p: Payment) {
    p.status == PaymentStatus.Completed && p.billId != 0
  }

  /** The bills after `p` is recorded: its bill becomes paid when `p` settles; no other bill changes. */
  function SettledBills(bills: map<int, Bill>, p: Payment): (r: map<int, Bill>)
    ensures r.Keys == bills.Keys
    ensures forall k :: k in bills && !(Settles(p) && k == p.billId) ==> r[k] == bills[k]
    ensures Settles(p) && p.billId in bills ==> r[p.billId] == bills[p.billId].(paymentStatus := BillStatus.Paid)
  {
    if Settles(p) then MarkBillPaid(bills, p.billId) else bills
  }

  /** The invoices after `p` is recorded with the request's `invoiceRef`: that
      invoice becomes paid when `p` settles; no other invoice changes. */
  function SettledInvoices(invoices: map<int, Invoice>, p: Payment, invoiceRef: Option<int>): (r: map<int, Invoice>)
    ensures r.Keys == invoices.Keys
    ensures forall k :: k in invoices && !(Settles(p) && PresentId(invoiceRef) && k == invoiceRef.value) ==> r[k] == invoices[k]
    ensures Settles(p) && PresentId(invoiceRef) && invoiceRef.value in invoices ==>
      r[invoiceRef.value] == invoices[invoiceRef.value].(status := InvoiceStatus.Paid)
  {
    if Settles(p) && PresentId(invoiceRef) then MarkInvoicePaid(invoices, invoiceRef.value) else invoices
  }

  /** Settlement is idempotent: recording the same completed payment twice leaves
      the bills and invoices as recording it once. */
  lemma SettlementIdempotent(bills: map<int, Bill>, invoices: map<int, Invoice>, p: Payment, invoiceRef: Option<int>)
    ensures SettledBills(SettledBills(bills, p), p) == SettledBills(bills, p)
    ensures SettledInvoices(SettledInvoices(invoices, p, invoiceRef), p, invoiceRef) == SettledInvoices(invoices, p, invoiceRef)
  {
    if Settles(p) && p.billId in bills {
      assert SettledBills(bills, p)[p.billId].(paymentStatus := BillStatus.Paid) == SettledBills(bills, p)[p.billId];
    }
    if Settles(p) && PresentId(invoiceRef) && invoiceRef.value in invoices {
      var i := invoiceRef.value;
      assert SettledInvoices(invoices, p, invoiceRef)[i].(status := InvoiceStatus.Paid) == SettledInvoices(invoices, p, invoiceRef)[i];
    }
  }

  /** Settlement only ever moves a bill towards paid: a paid bill stays paid. */
  lemma SettlementKeepsPaid(bills: map<int, Bill>, p: Payment, k: int)
    requires k in bills && bills[k].paymentStatus == BillStatus.Paid
    ensures SettledBills(bills, p)[k].paymentStatus == BillStatus.Paid
  {
  }

  /** createPayment: 400 and nothing written unless the required fields are
      present; otherwise one new payment row with its defaults, and, when it is
      completed, its bill and the invoice the request names (if any) marked paid. */
  method CreatePayment(db: Store, req: PaymentRequest, now: nat) returns (r: Result<Payment>)
    requires db.Valid()
    modifies db
    ensures db.Valid()
    ensures !Admissible(req) ==> r == Err(BadRequest) && unchanged(db)
    ensures Admissible(req) ==>
      && r == Ok(NewPayment(old(db.nextPaymentId), req, now))
      && r.value.id !in old(db.payments)
      && db.payments == old(db.payments)[r.value.id := r.value]
      && db.bills == SettledBills(old(db.bills), r.value)
      && db.invoices == SettledInvoices(old(db.invoices), r.value, req.invoiceId)
      && db.plans == old(db.plans) && db.customers == old(db.customers) && db.usageLogs == old(db.usageLogs)
  {
    if !Admissible(req) {
      return Err(BadRequest);
    }
    var p := NewPayment(db.nextPaymentId, req, now);
    db.InsertPayment(p);
    db.SetBills(SettledBills(db.bills, p));
    db.SetInvoices(SettledInvoices(db.invoices, p, req.invoiceId));
    r := Ok(p);
  }

  /** updatePaymentStatus: 404 and nothing written without the payment;
      otherwise the payment takes the new status whatever its old one (no
      transition is refused), and a move to completed marks its bill paid.
      The stored payment has no invoice id, so no invoice is ever marked;
      moving away from completed leaves the bill paid. */
  method UpdatePaymentStatus(db: Store, id: int, status: PaymentStatus) returns (r: Result<Payment>)
    requires db.Valid()
    modifies db
    ensures db.Valid()
    ensures id !in old(db.payments) ==> r == Err(NotFound) && unchanged(db)
    ensures id in old(db.payments) ==>
      && r == Ok(old(db.payments)[id].(status := status))
      && db.payments == old(db.payments)[id := r.value]
      && db.bills == SettledBills(old(db.bills), r.value)
      && db.invoices == old(db.invoices)
      && db.plans == old(db.plans) && db.customers == old(db.customers) && db.usageLogs == old(db.usageLogs)
  {
    if id !in db.payments {
      return Err(NotFound);
    }
    var p := db.payments[id].(status := status);
    db.SetPayments(db.payments[id := p]);
    db.SetBills(SettledBills(db.bills, p));
    r := Ok(p);
  }

  /** deletePayment: removes exactly the payment with that id, or 404 when there is none. */
  method DeletePayment(db: Store, id: int) returns (r: Outcome)
    requires db.Valid()
    modifies db
    ensures db.Valid()
    ensures id !in old(db.payments) ==> r == Fail(NotFound) && unchanged(db)
    ensures id in old(db.payments) ==>
      && r == Done
      && db.payments == old(db.payments) - {id}
      && db.plans == old(db.plans) && db.customers == old(db.customers) && db.usageLogs == old(db.usageLogs)
      && db.bills == old(db.bills) && db.invoices == old(db.invoices)
  {
    if id !in db.payments {
      return Fail(NotFound);
    }
    db.SetPayments(db.payments - {id});
    r := Done;
  }

  /** The row the M-Pesa callback records for a bill. */
  function MpesaPayment(id: int, bill: Bill, receipt: string, amount: real, now: int): (p: Payment)
    ensures p.paymentMethod == "mpesa" && p.status == PaymentStatus.Completed && p.receiptNumber == receipt
    ensures p.billId == bill.id && p.customerId == bill.customerId
    ensures p.amount == amount && p.paymentDate == now
  {
    Payment(id, amount, now, "mpesa", receipt, PaymentStatus.Completed, bill.customerId, bill.id)
  }

  /** mpesaCallback: 404 and nothing written when the reference names no bill or
      the bill's customer is missing; otherwise one completed M-Pesa payment for
      the bill, the bill marked paid, and no invoice touched. The receipt is not
      checked against earlier payments. `billRef` is None when the reference
      does not parse as an integer. */
  method MpesaCallback(db: Store, receipt: string, amount: real, billRef: Option<int>, now: nat)
    returns (r: Result<Payment>)
    requires db.Valid()
    modifies db
    ensures db.Valid()
    ensures billRef.None? || billRef.value !in old(db.bills) ==> r == Err(NotFound) && unchanged(db)
    ensures billRef.Some? && billRef.value in old(db.bills) && old(db.bills)[billRef.value].customerId !in old(db.customers) ==>
      r == Err(NotFound) && unchanged(db)
    ensures r.Ok? <==> billRef.Some? && billRef.value in old(db.bills) && old(db.bills)[billRef.value].customerId in old(db.customers)
    ensures r.Ok? ==>
      var bill := old(db.bills)[billRef.value];
      && r.value == MpesaPayment(old(db.nextPaymentId), bill, receipt, amount, now)
      && r.value.id !in old(db.payments)
      && db.payments == old(db.payments)[r.value.id := r.value]
      && db.bills == MarkBillPaid(old(db.bills), bill.id)
      && db.invoices == old(db.invoices)
      && db.plans == old(db.plans) && db.customers == old(db.customers) && db.usageLogs == old(db.usageLogs)
  {
    if billRef.None? || billRef.value !in db.bills {
      return Err(NotFound);
    }
    var bill := db.bills[billRef.value];
    if bill.customerId !in db.customers {
      return Err(NotFound);
    }
    var customer := db.customers[bill.customerId];
    var p := MpesaPayment(db.nextPaymentId, bill, receipt, amount, now);
    assert p.customerId == customer.id;
    db.InsertPayment(p);
    db.SetBills(MarkBillPaid(db.bills, bill.id));
    r := Ok(p);
  }
}
