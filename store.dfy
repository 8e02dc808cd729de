/** The relational store the controllers share, as one object holding a map
    from id to row per table, with the autoincrement counters new rows take
    their ids from. The functions below are the bulk UPDATE statements the
    controllers issue, written as map transformations. */
module Db {
  import opened Common
  import opened Records

  class Store {
    var plans: map<int, Plan>
    var customers: map<int, Customer>
    var usageLogs: map<int, UsageLog>
    var bills: map<int, Bill>
    var invoices: map<int, Invoice>
    var payments: map<int, Payment>
    var nextBillId: nat
    var nextInvoiceId: nat
    var nextPaymentId: nat

    /** Every row is stored under its own id; created ids are positive and below their counter. */
    ghost predicate Valid()
      reads this
    {
      && 1 <= nextBillId && 1 <= nextInvoiceId && 1 <= nextPaymentId
      && (forall k :: k in plans ==> plans[k].id == k)
      && (forall k :: k in customers ==> customers[k].id == k)
      && (forall k :: k in usageLogs ==> usageLogs[k].id == k)
      && (forall k :: k in bills ==> bills[k].id == k && 1 <= k < nextBillId)
      && (forall k :: k in invoices ==> invoices[k].id == k && 1 <= k < nextInvoiceId)
      && (forall k :: k in payments ==> payments[k].id == k && 1 <= k < nextPaymentId)
    }

    /** A store holding the catalogue, the customers and the metered usage, with no bills yet. */
    constructor (plans: map<int, Plan>, customers: map<int, Customer>, usageLogs: map<int, UsageLog>)
      requires forall k :: k in plans ==> plans[k].id == k
      requires forall k :: k in customers ==> customers[k].id == k
      requires forall k :: k in usageLogs ==> usageLogs[k].id == k
      ensures Valid()
      ensures this.plans == plans && this.customers == customers && this.usageLogs == usageLogs
      ensures bills == map[] && invoices == map[] && payments == map[]
    {
      this.plans := plans;
      this.customers := customers;
      this.usageLogs := usageLogs;
      bills, invoices, payments := map[], map[], map[];
      nextBillId, nextInvoiceId, nextPaymentId := 1, 1, 1;
    }

    /** INSERT INTO Bills: the new row takes the next id. */
    method InsertBill(bill: Bill)
      requires Valid() && bill.id == nextBillId
      modifies this
      ensures Valid()
      ensures bills == old(bills)[bill.id := bill] && bill.id !in old(bills) && nextBillId == bill.id + 1
      ensures plans == old(plans) && customers == old(customers) && usageLogs == old(usageLogs)
      ensures invoices == old(invoices) && payments == old(payments)
      ensures nextInvoiceId == old(nextInvoiceId) && nextPaymentId == old(nextPaymentId)
    {
      bills := bills[bill.id := bill];
      nextBillId := nextBillId + 1;
    }

    /** INSERT INTO Invoices: the new row takes the next id. */
    method InsertInvoice(invoice: Invoice)
      requires Valid() && invoice.id == nextInvoiceId
      modifies this
      ensures Valid()
      ensures invoices == old(invoices)[invoice.id := invoice] && invoice.id !in old(invoices)
      ensures nextInvoiceId == invoice.id + 1
      ensures plans == old(plans) && customers == old(customers) && usageLogs == old(usageLogs)
      ensures bills == old(bills) && payments == old(payments)
      ensures nextBillId == old(nextBillId) && nextPaymentId == old(nextPaymentId)
    {
      invoices := invoices[invoice.id := invoice];
      nextInvoiceId := nextInvoiceId + 1;
    }

    /** INSERT INTO Payments: the new row takes the next id. */
    method InsertPayment(payment: Payment)
      requires Valid() && payment.id == nextPaymentId
      modifies this
      ensures Valid()
      ensures payments == old(payments)[payment.id := payment] && payment.id !in old(payments)
      ensures nextPaymentId == payment.id + 1
      ensures plans == old(plans) && customers == old(customers) && usageLogs == old(usageLogs)
      ensures bills == old(bills) && invoices == old(invoices)
      ensures nextBillId == old(nextBillId) && nextInvoiceId == old(nextInvoiceId)
    {
      payments := payments[payment.id := payment];
      nextPaymentId := nextPaymentId + 1;
    }

    /** An UPDATE of the usage table: same rows, each still under its own id. */
    method SetUsageLogs(logs: map<int, UsageLog>)
      requires Valid() && logs.Keys == usageLogs.Keys && forall k :: k in logs ==> logs[k].id == k
      modifies this
      ensures Valid()
      ensures usageLogs == logs
      ensures plans == old(plans) && customers == old(customers) && bills == old(bills)
      ensures invoices == old(invoices) && payments == old(payments)
      ensures nextBillId == old(nextBillId) && nextInvoiceId == old(nextInvoiceId) && nextPaymentId == old(nextPaymentId)
    {
      usageLogs := logs;
    }

    /** An UPDATE of the bills table: same rows, each still under its own id. */
    method SetBills(rows: map<int, Bill>)
      requires Valid() && rows.Keys == bills.Keys && forall k :: k in rows ==> rows[k].id == k
      modifies this
      ensures Valid()
      ensures bills == rows
      ensures plans == old(plans) && customers == old(customers) && usageLogs == old(usageLogs)
      ensures invoices == old(invoices) && payments == old(payments)
      ensures nextBillId == old(nextBillId) && nextInvoiceId == old(nextInvoiceId) && nextPaymentId == old(nextPaymentId)
    {
      bills := rows;
    }

    /** An UPDATE of the invoices table: same rows, each still under its own id. */
    method SetInvoices(rows: map<int, Invoice>)
      requires Valid() && rows.Keys == invoices.Keys && forall k :: k in rows ==> rows[k].id == k
      modifies this
      ensures Valid()
      ensures invoices == rows
      ensures plans == old(plans) && customers == old(customers) && usageLogs == old(usageLogs)
      ensures bills == old(bills) && payments == old(payments)
      ensures nextBillId == old(nextBillId) && nextInvoiceId == old(nextInvoiceId) && nextPaymentId == old(nextPaymentId)
    {
      invoices := rows;
    }

    /** An UPDATE or DELETE on the payments table: no new ids, each row still under its own id. */
    method SetPayments(rows: map<int, Payment>)
      requires Valid() && rows.Keys <= payments.Keys && forall k :: k in rows ==> rows[k].id == k
      modifies this
      ensures Valid()
      ensures payments == rows
      ensures plans == old(plans) && customers == old(customers) && usageLogs == old(usageLogs)
      ensures bills == old(bills) && invoices == old(invoices)
      ensures nextBillId == old(nextBillId) && nextInvoiceId == old(nextInvoiceId) && nextPaymentId == old(nextPaymentId)
    {
      payments := rows;
    }
  }

  /** The ids of a customer's usage rows not yet billed. */
  function UnbilledIds(logs: map<int, UsageLog>, customerId: int): (S: set<int>)
    ensures S <= logs.Keys
    ensures forall k :: k in S <==> k in logs && logs[k].customerId == customerId && !logs[k].billed
  {
    set k | k in logs && logs[k].customerId == customerId && !logs[k].billed
  }

  /** UPDATE UsageLogs SET billed = true WHERE id IN ids. */
  function MarkBilled(logs: map<int, UsageLog>, ids: set<int>): (r: map<int, UsageLog>)
    ensures r.Keys == logs.Keys
    ensures forall k :: k in logs && k !in ids ==> r[k] == logs[k]
    ensures forall k :: k in logs && k in ids ==> r[k] == logs[k].(billed := true)
  {
    map k | k in logs :: if k in ids then logs[k].(billed := true) else logs[k]
  }

  /** Marking a customer's unbilled rows leaves that customer nothing unbilled,
      leaves every other customer's unbilled rows as they were, and marking the
      same rows again changes nothing. */
  lemma {:induction false} MarkBilledConsumesUnbilled(logs: map<int, UsageLog>, customerId: int, other: int)
    ensures var after := MarkBilled(logs, UnbilledIds(logs, customerId));
      && UnbilledIds(after, customerId) == {}
      && (other != customerId ==> UnbilledIds(after, other) == UnbilledIds(logs, other))
      && MarkBilled(after, UnbilledIds(logs, customerId)) == after
  {
    var ids := UnbilledIds(logs, customerId);
    var after := MarkBilled(logs, ids);
    forall k | k in after ensures k !in UnbilledIds(after, customerId) {
      if k in ids {
        assert after[k].billed;
      }
    }
    if other != customerId {
      forall k ensures k in UnbilledIds(after, other) <==> k in UnbilledIds(logs, other) {
        if k in logs && logs[k].customerId == other {
          assert k !in ids;
        }
      }
    }
    var again := MarkBilled(after, ids);
    assert again.Keys == after.Keys;
    forall k | k in after ensures again[k] == after[k] {
      if k in ids {
        assert after[k].billed;
      }
    }
  }

  /** UPDATE Bills SET paymentStatus = 'paid' WHERE id = billId (no row when none matches). */
  function MarkBillPaid(bills: map<int, Bill>, billId: int): (r: map<int, Bill>)
    ensures r.Keys == bills.Keys
    ensures billId in bills ==> r == bills[billId := bills[billId].(paymentStatus := BillStatus.Paid)]
    ensures billId !in bills ==> r == bills
  {
    if billId in bills then bills[billId := bills[billId].(paymentStatus := BillStatus.Paid)] else bills
  }

  /** UPDATE Invoices SET status = 'paid' WHERE id = invoiceId (no row when none matches). */
  function MarkInvoicePaid(invoices: map<int, Invoice>, invoiceId: int): (r: map<int, Invoice>)
    ensures r.Keys == invoices.Keys
    ensures invoiceId in invoices ==> r == invoices[invoiceId := invoices[invoiceId].(status := InvoiceStatus.Paid)]
    ensures invoiceId !in invoices ==> r == invoices
  {
    if invoiceId in invoices then invoices[invoiceId := invoices[invoiceId].(status := InvoiceStatus.Paid)] else invoices
  }
}
