/** The report helpers: a customer's usage over the last 30 days, the
    outstanding amount on a customer's invoices, and the usage trend that
    buckets durations by calendar day. */
module Reports {
  import opened Common
  import opened Records
  import opened Ledger
  import opened Db

  /** Days the monthly usage window reaches back. */
  const WindowDays: int := 30

  /** The ids of a customer's usage rows stamped no earlier than 30 days before `now`. */
  function RecentIds(logs: map<int, UsageLog>, customerId: int, now: int): (S: set<int>)
    ensures S <= logs.Keys
    ensures forall k :: k in S <==>
      k in logs && logs[k].customerId == customerId && logs[k].timestamp >= now - WindowDays * DayMs
  {
    set k | k in logs && logs[k].customerId == customerId && logs[k].timestamp >= now - WindowDays * DayMs
  }

  /** The running sum of the `reduce`: durations added front to back. */
  method SumDurations(rows: seq<UsageLog>) returns (total: real)
    ensures total == DurationSum(rows, All)
  {
    total := 0.0;
    var i := 0;
    while i < |rows|
      invariant 0 <= i <= |rows|
      invariant total == DurationSum(rows[..i], All)
    {
      assert rows[..i + 1] == rows[..i] + [rows[i]];
      DurationSumAppend(rows[..i], [rows[i]], All);
      assert [rows[i]][1..] == [];
      total := total + rows[i].duration;
      i := i + 1;
    }
    assert rows[..|rows|] == rows;
  }

  /** calculateMonthlyUsage: the sum of the durations of the customer's rows in
      the window, whichever order they come in; 0 when there are none. */
  method MonthlyUsage(db: Store, customerId: int, now: int) returns (total: real, ghost rows: seq<UsageLog>)
    ensures multiset(rows) == ValuesOf(db.usageLogs, RecentIds(db.usageLogs, customerId, now))
    ensures total == DurationSum(rows, All)
    ensures RecentIds(db.usageLogs, customerId, now) == {} ==> total == 0.0
    ensures (forall k :: k in db.usageLogs ==> db.usageLogs[k].duration >= 0.0) ==> total >= 0.0
  {
    var found := Enumerate(db.usageLogs, RecentIds(db.usageLogs, customerId, now));
    rows := found;
    total := SumDurations(found);
    if RecentIds(db.usageLogs, customerId, now) == {} {
      assert |found| == |multiset(found)| == 0;
    }
    if forall k :: k in db.usageLogs ==> db.usageLogs[k].duration >= 0.0 {
      forall i | 0 <= i < |found| ensures found[i].duration >= 0.0 {
        EnumeratedMember(db.usageLogs, RecentIds(db.usageLogs, customerId, now), found, found[i]);
      }
      DurationSumNonNegative(found, All);
    }
  }

  /** The window sum is a function of the store: any two enumerations of the same rows agree. */
  lemma MonthlyUsageOrderFree(db: Store, customerId: int, now: int, a: seq<UsageLog>, b: seq<UsageLog>)
    requires multiset(a) == ValuesOf(db.usageLogs, RecentIds(db.usageLogs, customerId, now))
    requires multiset(b) == ValuesOf(db.usageLogs, RecentIds(db.usageLogs, customerId, now))
    ensures DurationSum(a, All) == DurationSum(b, All)
  {
    DurationSumPermutation(a, b, All);
  }

  /** The columns Invoice.js declares. */
  const InvoiceColumns: set<string> :=
    {"id", "billId", "invoiceNumber", "issueDate", "dueDate", "amountDue", "pdfPath", "status", "createdAt", "updatedAt"}

  /** The columns the outstanding sum of getAllCustomers filters on. */
  const OutstandingFilterColumns: set<string> := {"customerId", "status"}

  /** As written, the outstanding sum filters on `customerId`, which the Invoice
      table does not have, so the database refuses the query and the report
      fails as soon as there is one customer. */
  lemma OutstandingFiltersOnUndeclaredColumn()
    ensures "customerId" in OutstandingFilterColumns && "customerId" !in InvoiceColumns
    ensures !(OutstandingFilterColumns <= InvoiceColumns)
  {
    assert "customerId" in OutstandingFilterColumns;
  }

  /** The ids of a customer's pending or overdue invoices. */
  function OutstandingIds(invoices: map<int, Invoice>, customerId: int): (S: set<int>)
    ensures S <= invoices.Keys
    ensures forall k :: k in S <==>
      (k in invoices && invoices[k].customerId == customerId
       && invoices[k].status in {InvoiceStatus.Pending, InvoiceStatus.Overdue})
  {
    set k | k in invoices && invoices[k].customerId == customerId
      && invoices[k].status in {InvoiceStatus.Pending, InvoiceStatus.Overdue}
  }

  /** The `Invoice.sum('amountDue', …) || 0` of getAllCustomers over the corrected
      table with a `customerId` column: the sum over the customer's pending and
      overdue invoices, 0 when there are none. */
  method OutstandingInvoices(db: Store, customerId: int) returns (total: real, ghost rows: seq<Invoice>)
    ensures multiset(rows) == ValuesOf(db.invoices, OutstandingIds(db.invoices, customerId))
    ensures total == AmountDueSum(rows)
    ensures OutstandingIds(db.invoices, customerId) == {} ==> total == 0.0
  {
    var found := Enumerate(db.invoices, OutstandingIds(db.invoices, customerId));
    rows := found;
    total := 0.0;
    var i := |found|;
    while i > 0
      invariant 0 <= i <= |found|
      invariant total == AmountDueSum(found[i..])
    {
      i := i - 1;
      assert found[i..][1..] == found[i + 1..];
      total := found[i].amountDue + total;
    }
    if OutstandingIds(db.invoices, customerId) == {} {
      assert |found| == |multiset(found)| == 0;
    }
  }

  /** The outstanding sum is a function of the store: any two enumerations agree. */
  lemma OutstandingOrderFree(db: Store, customerId: int, a: seq<Invoice>, b: seq<Invoice>)
    requires multiset(a) == ValuesOf(db.invoices, OutstandingIds(db.invoices, customerId))
    requires multiset(b) == ValuesOf(db.invoices, OutstandingIds(db.invoices, customerId))
    ensures AmountDueSum(a) == AmountDueSum(b)
  {
    AmountDueSumPermutation(a, b);
  }

  // ---------------------------------------------------------------------------
  // Usage trend

  /** The `trendData` dictionary: the day keys in insertion order (the order
      `Object.keys` gives for non-numeric keys) and the sum per day. */
  datatype Trend = Trend(dates: seq<int>, value: map<int, real>)

  datatype TrendPoint = TrendPoint(date: int, value: real)

  /** One `forEach` step: open the row's day at 0 if it is new, then add the duration. */
  function AddToTrend(t: Trend, log: UsageLog): Trend {
    var d := DateOf(log.timestamp);
    if d in t.value then Trend(t.dates, t.value[d := t.value[d] + log.duration])
    else Trend(t.dates + [d], t.value[d := 0.0 + log.duration])
  }

  /** The dictionary after the `forEach` over `logs`. */
  function TrendOf(logs: seq<UsageLog>): Trend {
    if logs == [] then Trend([], map[])
    else AddToTrend(TrendOf(logs[..|logs| - 1]), logs[|logs| - 1])
  }

  predicate Distinct(s: seq<int>) {
    forall i, j :: 0 <= i < j < |s| ==> s[i] != s[j]
  }

  /** The days the rows fall on. */
  function Days(logs: seq<UsageLog>): set<int> {
    set i | 0 <= i < |logs| :: DateOf(logs[i].timestamp)
  }

  /** The dictionary keeps each day once, exactly the days the rows fall on, in first-appearance order. */
  lemma {:induction false} TrendWellFormed(logs: seq<UsageLog>)
    ensures Distinct(TrendOf(logs).dates)
    ensures forall d :: d in TrendOf(logs).dates <==> d in TrendOf(logs).value
    ensures TrendOf(logs).value.Keys == Days(logs)
  {
    if logs != [] {
      var init, x := logs[..|logs| - 1], logs[|logs| - 1];
      TrendWellFormed(init);
      assert logs == init + [x];
      assert Days(logs) == Days(init) + {DateOf(x.timestamp)} by {
        forall d | d in Days(logs) ensures d in Days(init) + {DateOf(x.timestamp)} {
          var i :| 0 <= i < |logs| && DateOf(logs[i].timestamp) == d;
          if i < |init| {
            assert init[i] == logs[i];
          }
        }
        forall d | d in Days(init) ensures d in Days(logs) {
          var i :| 0 <= i < |init| && DateOf(init[i].timestamp) == d;
          assert logs[i] == init[i];
        }
      }
    }
  }

  /** Each day's value is the sum of the durations of the rows on that day. */
  lemma {:induction false} TrendValueIsDaySum(logs: seq<UsageLog>, d: int)
    requires d in TrendOf(logs).value
    ensures TrendOf(logs).value[d] == DurationSum(logs, OnDate(d))
  {
    var init, x := logs[..|logs| - 1], logs[|logs| - 1];
    assert logs == init + [x];
    DurationSumAppend(init, [x], OnDate(d));
    assert DurationSum([x], OnDate(d)) == Weight(OnDate(d), x);
    TrendWellFormed(init);
    if d in TrendOf(init).value {
      TrendValueIsDaySum(init, d);
    } else {
      assert d == DateOf(x.timestamp);
      forall i | 0 <= i < |init| ensures !Kept(OnDate(d), init[i]) {
        assert DateOf(init[i].timestamp) in Days(init);
      }
      DurationSumNoneKept(init, OnDate(d));
    }
  }

  predicate TrendWellKeyed(t: Trend) {
    forall i :: 0 <= i < |t.dates| ==> t.dates[i] in t.value
  }

  lemma TrendKeyed(logs: seq<UsageLog>)
    ensures TrendWellKeyed(TrendOf(logs))
  {
    TrendWellFormed(logs);
    var t := TrendOf(logs);
    forall i | 0 <= i < |t.dates| ensures t.dates[i] in t.value {
      assert t.dates[i] in t.dates;
    }
  }

  /** The sum of the values of `dates`, in order. */
  function ValueSum(dates: seq<int>, value: map<int, real>): real
    requires forall i :: 0 <= i < |dates| ==> dates[i] in value
  {
    if dates == [] then 0.0 else ValueSum(dates[..|dates| - 1], value) + value[dates[|dates| - 1]]
  }

  /** Raising the value of one listed day by `delta` raises the sum by `delta`. */
  lemma {:induction false} ValueSumRaise(dates: seq<int>, value: map<int, real>, d: int, delta: real)
    requires Distinct(dates) && d in dates
    requires forall i :: 0 <= i < |dates| ==> dates[i] in value
    ensures ValueSum(dates, value[d := value[d] + delta]) == ValueSum(dates, value) + delta
  {
    var init, last := dates[..|dates| - 1], dates[|dates| - 1];
    if last == d {
      assert d !in init;
      ValueSumUnlisted(init, value, d, value[d] + delta);
    } else {
      assert d in init;
      ValueSumRaise(init, value, d, delta);
    }
  }

  /** Changing the value of a day not listed leaves the sum alone. */
  lemma {:induction false} ValueSumUnlisted(dates: seq<int>, value: map<int, real>, d: int, v: real)
    requires d !in dates
    requires forall i :: 0 <= i < |dates| ==> dates[i] in value
    ensures ValueSum(dates, value[d := v]) == ValueSum(dates, value)
  {
    if dates != [] {
      ValueSumUnlisted(dates[..|dates| - 1], value, d, v);
    }
  }

  /** One step adds the row's duration to the sum of the values. */
  lemma ValueSumStep(t: Trend, x: UsageLog)
    requires Distinct(t.dates) && TrendWellKeyed(t) && forall d :: d in t.dates <==> d in t.value
    ensures TrendWellKeyed(AddToTrend(t, x))
    ensures ValueSum(AddToTrend(t, x).dates, AddToTrend(t, x).value) == ValueSum(t.dates, t.value) + x.duration
  {
    var d := DateOf(x.timestamp);
    if d in t.value {
      ValueSumRaise(t.dates, t.value, d, x.duration);
    } else {
      ValueSumUnlisted(t.dates, t.value, d, 0.0 + x.duration);
      var dates' := t.dates + [d];
      assert dates'[..|dates'| - 1] == t.dates;
    }
  }

  /** Nothing is lost or counted twice: the values add up to the total duration. */
  lemma {:induction false} TrendPreservesTotal(logs: seq<UsageLog>)
    ensures TrendWellKeyed(TrendOf(logs))
    ensures ValueSum(TrendOf(logs).dates, TrendOf(logs).value) == DurationSum(logs, All)
  {
    if logs != [] {
      var init, x := logs[..|logs| - 1], logs[|logs| - 1];
      assert logs == init + [x];
      TrendPreservesTotal(init);
      TrendWellFormed(init);
      DurationSumAppend(init, [x], All);
      assert DurationSum([x], All) == x.duration;
      ValueSumStep(TrendOf(init), x);
    }
  }

  predicate Ascending(s: seq<int>) {
    forall i, j :: 0 <= i < j < |s| ==> s[i] < s[j]
  }

  lemma AscendingAppend(s: seq<int>, d: int)
    requires Ascending(s) && (s == [] || s[|s| - 1] < d)
    ensures Ascending(s + [d])
  {
  }

  lemma AscendingLastIsMax(s: seq<int>, d: int)
    requires Ascending(s) && d in s
    ensures d <= s[|s| - 1]
  {
  }

  /** Over rows in timestamp order, the days come out strictly ascending. */
  lemma {:induction false} TrendDatesAscending(logs: seq<UsageLog>)
    requires SortedByTime(logs)
    ensures Ascending(TrendOf(logs).dates)
    ensures logs != [] ==>
      (|TrendOf(logs).dates| > 0 && TrendOf(logs).dates[|TrendOf(logs).dates| - 1] == DateOf(logs[|logs| - 1].timestamp))
  {
    if logs != [] {
      var init, x := logs[..|logs| - 1], logs[|logs| - 1];
      TrendDatesAscending(init);
      TrendWellFormed(init);
      var t, d := TrendOf(init), DateOf(x.timestamp);
      if init != [] {
        DateOfMonotone(init[|init| - 1].timestamp, x.timestamp);
        if d in t.value {
          AscendingLastIsMax(t.dates, d);
        } else {
          AscendingAppend(t.dates, d);
        }
      }
    }
  }

  /** `Object.keys(trendData).map(date => ({ date, value: trendData[date] }))` */
  function Points(t: Trend): (ps: seq<TrendPoint>)
    requires forall i :: 0 <= i < |t.dates| ==> t.dates[i] in t.value
    ensures |ps| == |t.dates|
    ensures forall i :: 0 <= i < |ps| ==> ps[i] == TrendPoint(t.dates[i], t.value[t.dates[i]])
  {
    seq(|t.dates|, i requires 0 <= i < |t.dates| => TrendPoint(t.dates[i], t.value[t.dates[i]]))
  }

  /** The `forEach` over the rows followed by the key listing. */
  method UsageTrend(logs: seq<UsageLog>) returns (points: seq<TrendPoint>)
    ensures TrendWellKeyed(TrendOf(logs)) && points == Points(TrendOf(logs))
  {
    var dates: seq<int> := [];
    var trend: map<int, real> := map[];
    var i := 0;
    while i < |logs|
      invariant 0 <= i <= |logs|
      invariant Trend(dates, trend) == TrendOf(logs[..i])
    {
      var d := DateOf(logs[i].timestamp);
      if d !in trend {
        trend := trend[d := 0.0];
        dates := dates + [d];
      }
      trend := trend[d := trend[d] + logs[i].duration];
      i := i + 1;
      assert logs[..i][..i - 1] == logs[..i - 1];
    }
    assert logs[..|logs|] == logs;
    TrendWellFormed(logs);
    var t := TrendOf(logs);
    assert dates == t.dates && trend == t.value;
    TrendKeyed(logs);
    var all := Points(Trend(dates, trend));
    points := [];
    var j := 0;
    while j < |dates|
      invariant 0 <= j <= |dates|
      invariant points == all[..j]
    {
      points := points + [TrendPoint(dates[j], trend[dates[j]])];
      j := j + 1;
    }
    assert all[..|dates|] == all;
  }

  /** The sum of the values of a point list. */
  function PointSum(ps: seq<TrendPoint>): real {
    if ps == [] then 0.0 else PointSum(ps[..|ps| - 1]) + ps[|ps| - 1].value
  }

  lemma {:induction false} PointSumIsValueSum(t: Trend)
    requires TrendWellKeyed(t)
    ensures PointSum(Points(t)) == ValueSum(t.dates, t.value)
    decreases |t.dates|
  {
    if t.dates != [] {
      var t' := Trend(t.dates[..|t.dates| - 1], t.value);
      PointSumIsValueSum(t');
      assert Points(t)[..|Points(t)| - 1] == Points(t');
    }
  }

  /** The usage rows a trend covers: one customer's when an id is given, all otherwise. */
  function TrendIds(logs: map<int, UsageLog>, customerId: Option<int>): (S: set<int>)
    ensures S <= logs.Keys
    ensures forall k :: k in S <==> k in logs && (PresentId(customerId) ==> logs[k].customerId == customerId.value)
  {
    set k | k in logs && (PresentId(customerId) ==> logs[k].customerId == customerId.value)
  }

  /** A truthy customer id narrows the trend to that customer's rows, which
      include the rows of its 30-day usage; a missing or 0 id selects every row. */
  lemma TrendSelection(logs: map<int, UsageLog>, customerId: int, now: int)
    ensures customerId != 0 ==> RecentIds(logs, customerId, now) <= TrendIds(logs, Some(customerId))
    ensures TrendIds(logs, None) == logs.Keys && TrendIds(logs, Some(0)) == logs.Keys
  {
  }

  /** The trend of rows in timestamp order: each day once, ascending. */
  lemma PointsAscending(logs: seq<UsageLog>)
    requires SortedByTime(logs)
    ensures TrendWellKeyed(TrendOf(logs))
    ensures var ps := Points(TrendOf(logs));
      forall i, j :: 0 <= i < j < |ps| ==> ps[i].date < ps[j].date
  {
    TrendPreservesTotal(logs);
    TrendDatesAscending(logs);
  }

  /** Each point carries its day's duration sum. */
  lemma PointsAreDaySums(logs: seq<UsageLog>)
    ensures TrendWellKeyed(TrendOf(logs))
    ensures var ps := Points(TrendOf(logs));
      forall i :: 0 <= i < |ps| ==> ps[i].value == DurationSum(logs, OnDate(ps[i].date))
  {
    TrendPreservesTotal(logs);
    var t := TrendOf(logs);
    var ps := Points(t);
    forall i | 0 <= i < |ps| ensures ps[i].value == DurationSum(logs, OnDate(ps[i].date)) {
      TrendValueIsDaySum(logs, t.dates[i]);
    }
  }

  /** The points name exactly the days the rows fall on. */
  lemma PointsCoverDays(logs: seq<UsageLog>)
    ensures TrendWellKeyed(TrendOf(logs))
    ensures var ps := Points(TrendOf(logs));
      (set i | 0 <= i < |ps| :: ps[i].date) == Days(logs)
  {
    TrendPreservesTotal(logs);
    TrendWellFormed(logs);
    PointDatesAreKeys(TrendOf(logs));
  }

  /** When every key is listed, the points' dates are exactly the keys. */
  lemma PointDatesAreKeys(t: Trend)
    requires TrendWellKeyed(t)
    requires forall d :: d in t.dates <==> d in t.value
    ensures var ps := Points(t);
      (set i | 0 <= i < |ps| :: ps[i].date) == t.value.Keys
  {
    var ps := Points(t);
    var named := set i | 0 <= i < |ps| :: ps[i].date;
    forall d | d in named ensures d in t.value {
      var i :| 0 <= i < |ps| && ps[i].date == d;
      assert t.dates[i] == d;
    }
    forall d | d in t.value ensures d in named {
      assert d in t.dates;
      var i :| 0 <= i < |t.dates| && t.dates[i] == d;
      assert ps[i].date == d;
    }
  }

  /** The point values add up to the total duration of the rows. */
  lemma PointsPreserveTotal(logs: seq<UsageLog>)
    ensures TrendWellKeyed(TrendOf(logs))
    ensures PointSum(Points(TrendOf(logs))) == DurationSum(logs, All)
  {
    TrendPreservesTotal(logs);
    PointSumIsValueSum(TrendOf(logs));
  }

  /** getUsageTrendData: the rows in timestamp order, bucketed by day. Each day
      appears once, ascending; each value is that day's duration sum; the values
      add up to the total duration of the rows. */
  method UsageTrendData(db: Store, customerId: Option<int>) returns (points: seq<TrendPoint>, ghost rows: seq<UsageLog>)
    ensures multiset(rows) == ValuesOf(db.usageLogs, TrendIds(db.usageLogs, customerId)) && SortedByTime(rows)
    ensures forall i, j :: 0 <= i < j < |points| ==> points[i].date < points[j].date
    ensures forall i :: 0 <= i < |points| ==> points[i].value == DurationSum(rows, OnDate(points[i].date))
    ensures (set i | 0 <= i < |points| :: points[i].date) == Days(rows)
    ensures PointSum(points) == DurationSum(rows, All)
  {
    var found := Enumerate(db.usageLogs, TrendIds(db.usageLogs, customerId));
    var ordered := SortByTime(found);
    rows := ordered;
    points := UsageTrend(ordered);
    PointsAscending(ordered);
    PointsAreDaySums(ordered);
    PointsCoverDays(ordered);
    PointsPreserveTotal(ordered);
  }
}
