/** The rows the billing core reads and writes: Plan, Customer, UsageLog, Bill,
    Invoice and Payment, with the fields and status values their model files
    declare. Times are integer milliseconds since the epoch; money, durations
    and rates are exact reals. */
module Records {
  import opened Common

  /** Milliseconds in a day. */
  const DayMs: int := 86400000

  /** The UTC calendar day a timestamp falls on (what `toISOString().split('T')[0]` names). */
  function DateOf(t: int): int {
    t / DayMs
  }

  lemma DateOfMonotone(s: int, t: int)
    requires s <= t
    ensures DateOf(s) <= DateOf(t)
  {
  }

  datatype Plan = Plan(
    id: int,
    name: string,
    callMinutes: Option<int>,   // included call minutes, nullable
    smsCount: Option<int>,      // included SMS, nullable
    dataUsage: Option<int>,     // included data units, nullable
    callRate: Option<real>,     // per minute over the allowance, nullable
    dataRate: Option<real>,
    smsRate: Option<real>,
    price: real,                // monthly base price
    active: bool)

  datatype Customer = Customer(id: int, name: string, planId: int)

  /** A usage row's type is a free string; only call, data and sms are priced. */
  datatype UsageType = Call | Data | Sms | OtherUsage(name: string)

  datatype UsageLog = UsageLog(
    id: int,
    customerId: int,
    planId: int,
    usageType: UsageType,
    duration: real,   // minutes, messages or data units
    timestamp: int,
    billed: bool)

  /** The part of a usage row a bill keeps as its historical snapshot. */
  datatype LogSnapshot = LogSnapshot(id: int, usageType: UsageType, duration: real, timestamp: int)

  function SnapshotOf(log: UsageLog): LogSnapshot {
    LogSnapshot(log.id, log.usageType, log.duration, log.timestamp)
  }

  /** A bill's snapshot: one entry per consumed row, in order, keeping that row's
      id, type, quantity and time. */
  function Snapshot(logs: seq<UsageLog>): (r: seq<LogSnapshot>)
    ensures |r| == |logs|
    ensures forall i :: 0 <= i < |logs| ==>
      r[i].id == logs[i].id && r[i].usageType == logs[i].usageType &&
      r[i].duration == logs[i].duration && r[i].timestamp == logs[i].timestamp
  {
    seq(|logs|, i requires 0 <= i < |logs| => SnapshotOf(logs[i]))
  }

  /** The paymentStatus values Bill.js declares, as written: the first carries a
      leading space, so the declared default is none of them. */
  const DeclaredBillStatusNames: seq<string> := [" unpaid", "paid", "pending"]
  const DeclaredBillStatusDefault: string := "unpaid"

  lemma DeclaredDefaultIsUndeclared()
    ensures DeclaredBillStatusDefault !in DeclaredBillStatusNames
  {
    assert DeclaredBillStatusNames[0][0] == ' ' != DeclaredBillStatusDefault[0];
    assert |DeclaredBillStatusNames[1]| == 4 && |DeclaredBillStatusNames[2]| == 7 && |DeclaredBillStatusDefault| == 6;
  }

  /** A bill's payment status, with the value set Bill.js evidently intends. */
  datatype BillStatus = Unpaid | Pending | Paid {
    function Name(): string {
      match this
      case Unpaid => "unpaid"
      case Pending => "pending"
      case Paid => "paid"
    }
  }

  /** What a bill row gets when no status is written. */
  const BillStatusDefault: BillStatus := BillStatus.Unpaid

  /** In the corrected value set the declared default is a value, and names are distinct. */
  lemma BillStatusDefaultDeclared()
    ensures BillStatusDefault.Name() == DeclaredBillStatusDefault
    ensures forall s: BillStatus, t: BillStatus :: s.Name() == t.Name() ==> s == t
  {
  }

  /** A Bill row, with the columns Bill.js declares; the `amount` and `date` that
      generateBill also passes are not columns, so they are not stored. */
  datatype Bill = Bill(
    id: int,
    customerId: int,
    planId: int,
    usageLogs: seq<LogSnapshot>,
    voiceCallsDuration: real,
    dataUsage: real,
    smsCount: real,
    totalAmount: real,
    paymentStatus: BillStatus,
    createdAt: int)

  datatype InvoiceStatus = Pending | Paid | Overdue | Cancelled {
    /** The stored string, which a status filter is compared with. */
    function Name(): string {
      match this
      case Pending => "pending"
      case Paid => "paid"
      case Overdue => "overdue"
      case Cancelled => "cancelled"
    }
  }

  /** An Invoice row. `customerId` is not declared in Invoice.js although the
      controllers write it and the outstanding report filters on it; the model
      keeps it, as the corrected table (see Reports.OutstandingFiltersOnUndeclaredColumn). */
  datatype Invoice = Invoice(
    id: int,
    billId: Option<int>,
    customerId: int,
    invoiceNumber: string,
    issueDate: int,
    dueDate: int,
    amountDue: real,
    pdfPath: Option<string>,
    status: InvoiceStatus)

  datatype PaymentStatus = Pending | Completed | Failed

  /** A Payment row, with the columns Payment.js declares: there is no `invoiceId`
      column, so an invoice id given with a payment is not stored. */
  datatype Payment = Payment(
    id: int,
    amount: real,
    paymentDate: int,
    paymentMethod: string,
    receiptNumber: string,
    status: PaymentStatus,
    customerId: int,
    billId: int)
}
