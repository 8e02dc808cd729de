/** Sequences of controller calls that show how the operations behave together:
    a completed payment moved back to pending leaves its bill paid, a repeated
    M-Pesa callback records two payments, and billing twice without new usage
    charges the base price again. */
module Scenarios {
  import opened Common
  import opened Records
  import opened Db
  import opened Rating
  import opened Billing
  import opened Payments

  /** createPayment with status completed, then updatePaymentStatus back to
      pending: both succeed, the payment ends pending and its bill stays paid. */
  method CompletedPaymentReverted(db: Store, req: PaymentRequest, now: nat) returns (p: Payment)
    requires db.Valid() && Admissible(req) && req.status == Some(PaymentStatus.Completed)
    requires req.billId.value in db.bills
    modifies db
    ensures db.Valid()
    ensures p.id in db.payments && db.payments[p.id] == p
    ensures p.status == PaymentStatus.Pending && p.billId == req.billId.value
    ensures p.billId in db.bills && db.bills[p.billId].paymentStatus == BillStatus.Paid
  {
    var created := CreatePayment(db, req, now);
    var updated := UpdatePaymentStatus(db, created.value.id, PaymentStatus.Pending);
    p := updated.value;
  }

  /** The same M-Pesa callback delivered twice: both succeed and the store holds
      two distinct payments with the same receipt for the same bill. */
  method CallbackDeliveredTwice(db: Store, receipt: string, amount: real, billId: int, now: nat)
    returns (first: Payment, second: Payment)
    requires db.Valid() && billId in db.bills && db.bills[billId].customerId in db.customers
    modifies db
    ensures db.Valid()
    ensures first.id != second.id
    ensures first.id in db.payments && second.id in db.payments
    ensures db.payments[first.id] == first && db.payments[second.id] == second
    ensures first.receiptNumber == second.receiptNumber == receipt
    ensures first.billId == second.billId == billId
    ensures first.status == second.status == PaymentStatus.Completed
  {
    var r1 := MpesaCallback(db, receipt, amount, Some(billId), now);
    var r2 := MpesaCallback(db, receipt, amount, Some(billId), now);
    first, second := r1.value, r2.value;
  }

  /** generateBill twice with no usage in between: both succeed, and the second
      bill charges the plan's base price plus tax and consumes no rows. */
  method BilledTwice(db: Store, customerId: int, now: nat, later: nat) returns (first: Bill, second: Bill)
    requires db.Valid() && customerId in db.customers
    requires db.customers[customerId].planId in db.plans
    requires NonNegativeAllowances(db.plans[db.customers[customerId].planId])
    modifies db
    ensures db.Valid()
    ensures first.id != second.id && first.id in db.bills && second.id in db.bills
    ensures db.bills[first.id] == first && db.bills[second.id] == second
    ensures second.usageLogs == []
    ensures second.totalAmount == 1.16 * old(db.plans[db.customers[customerId].planId]).price
  {
    var r1, c1 := GenerateBill(db, customerId, now);
    var r2, c2 := GenerateBill(db, customerId, later);
    RebillChargesBasePriceOnly(old(db.usageLogs), customerId, c2.value.plan, c2.value.unbilledLogs);
    first, second := r1.value.bill, r2.value.bill;
  }
}
