/** The rating engine: aggregate a customer's unbilled usage per type, charge
    the usage beyond each plan allowance at the plan's rate, add the base price
    and a flat 16% tax; and the linear month-end projection built on it. */
module Rating {
  import opened Common
  import opened Records
  import opened Ledger

  const TaxRate: real := 0.16

  datatype Totals = Totals(call: real, data: real, sms: real)
  datatype Overages = Overages(call: real, data: real, sms: real)
  datatype Breakdown = Breakdown(basePrice: real, usageCharges: real, subtotal: real, tax: real, total: real)
  datatype Rating = Rating(totals: Totals, overages: Overages, breakdown: Breakdown)

  /** One step of the `reduce` that sums durations per usage type. A row of
      another type opens a key of its own in the source's totals object; the
      model does not keep those keys, which no charge reads. */
  function AddUsage(acc: Totals, log: UsageLog): Totals {
    match log.usageType
    case Call => acc.(call := acc.call + log.duration)
    case Data => acc.(data := acc.data + log.duration)
    case Sms => acc.(sms := acc.sms + log.duration)
    case OtherUsage(_) => acc
  }

  /** The `reduce` over the rows, starting from { call: 0, data: 0, sms: 0 }. */
  function Aggregate(logs: seq<UsageLog>): Totals {
    if logs == [] then Totals(0.0, 0.0, 0.0)
    else AddUsage(Aggregate(logs[..|logs| - 1]), logs[|logs| - 1])
  }

  /** `plan.call_minutes || 0`: a null allowance reads as 0. */
  function Allowance(o: Option<int>): real {
    if o.Some? then o.value as real else 0.0
  }

  /** `plan.callRate || 0`: a null rate reads as 0. */
  function UnitRate(o: Option<real>): real {
    if o.Some? then o.value else 0.0
  }

  /** Math.max(0, total - allowance). */
  function Overage(total: real, allowance: real): real {
    if total - allowance > 0.0 then total - allowance else 0.0
  }

  function Charges(plan: Plan, totals: Totals): Rating {
    var callOverage := Overage(totals.call, Allowance(plan.callMinutes));
    var dataOverage := Overage(totals.data, Allowance(plan.dataUsage));
    var smsOverage := Overage(totals.sms, Allowance(plan.smsCount));
    var usageCharges := callOverage * UnitRate(plan.callRate)
                        + dataOverage * UnitRate(plan.dataRate)
                        + smsOverage * UnitRate(plan.smsRate);
    var subtotal := plan.price + usageCharges;
    var tax := subtotal * TaxRate;
    Rating(Totals(totals.call, totals.data, totals.sms),
           Overages(callOverage, dataOverage, smsOverage),
           Breakdown(plan.price, usageCharges, subtotal, tax, subtotal + tax))
  }

  /** The charges for a plan and the rows found unbilled. */
  function Rate(plan: Plan, logs: seq<UsageLog>): Rating {
    Charges(plan, Aggregate(logs))
  }

  /** The per-type totals are the durations of the rows of that type, summed. */
  lemma {:induction false} AggregateIsTypeSums(logs: seq<UsageLog>)
    ensures Aggregate(logs) == Totals(DurationSum(logs, OfType(Call)),
                                      DurationSum(logs, OfType(Data)),
                                      DurationSum(logs, OfType(Sms)))
  {
    if logs != [] {
      var init, last := logs[..|logs| - 1], logs[|logs| - 1];
      assert logs == init + [last];
      AggregateIsTypeSums(init);
      DurationSumAppend(init, [last], OfType(Call));
      DurationSumAppend(init, [last], OfType(Data));
      DurationSumAppend(init, [last], OfType(Sms));
      assert [last][1..] == [];
    }
  }

  /** The rating does not depend on the order the store returns the rows in. */
  lemma RateIgnoresOrder(plan: Plan, a: seq<UsageLog>, b: seq<UsageLog>)
    requires multiset(a) == multiset(b)
    ensures Rate(plan, a) == Rate(plan, b)
  {
    AggregateIsTypeSums(a);
    AggregateIsTypeSums(b);
    DurationSumPermutation(a, b, OfType(Call));
    DurationSumPermutation(a, b, OfType(Data));
    DurationSumPermutation(a, b, OfType(Sms));
  }

  /** A type with no rows totals 0. */
  lemma AbsentTypeTotalsZero(logs: seq<UsageLog>, t: UsageType)
    requires forall i :: 0 <= i < |logs| ==> logs[i].usageType != t
    ensures t == Call ==> Aggregate(logs).call == 0.0
    ensures t == Data ==> Aggregate(logs).data == 0.0
    ensures t == Sms ==> Aggregate(logs).sms == 0.0
  {
    AggregateIsTypeSums(logs);
    DurationSumNoneKept(logs, OfType(t));
  }

  /** A row of any type other than call, data and sms changes nothing in the rating. */
  lemma OtherUsageIgnored(plan: Plan, a: seq<UsageLog>, x: UsageLog, b: seq<UsageLog>)
    requires x.usageType.OtherUsage?
    ensures Rate(plan, a + [x] + b) == Rate(plan, a + b)
  {
    AggregateIsTypeSums(a + [x] + b);
    AggregateIsTypeSums(a + b);
    forall t | t in {Call, Data, Sms}
      ensures DurationSum(a + [x] + b, OfType(t)) == DurationSum(a + b, OfType(t))
    {
      DurationSumAppend(a + [x], b, OfType(t));
      DurationSumAppend(a, [x], OfType(t));
      DurationSumAppend(a, b, OfType(t));
      assert [x][1..] == [];
    }
  }

  /** Overage is the usage beyond the allowance, and none at or below it. */
  lemma OverageIsExcess(total: real, allowance: real)
    ensures Overage(total, allowance) >= 0.0
    ensures Overage(total, allowance) == 0.0 <==> total <= allowance
    ensures total > allowance ==> Overage(total, allowance) == total - allowance
  {
  }

  /** Usage at or below every allowance adds nothing: the bill is the grossed-up base price. */
  lemma WithinAllowanceChargesBaseOnly(plan: Plan, logs: seq<UsageLog>)
    requires Aggregate(logs).call <= Allowance(plan.callMinutes)
    requires Aggregate(logs).data <= Allowance(plan.dataUsage)
    requires Aggregate(logs).sms <= Allowance(plan.smsCount)
    ensures Rate(plan, logs).overages == Overages(0.0, 0.0, 0.0)
    ensures Rate(plan, logs).breakdown.usageCharges == 0.0
    ensures Rate(plan, logs).breakdown.total == 1.16 * plan.price
  {
  }

  /** The total identities of a breakdown. */
  lemma BreakdownIdentities(plan: Plan, logs: seq<UsageLog>)
    ensures var b := Rate(plan, logs).breakdown;
      && b.basePrice == plan.price
      && b.subtotal == b.basePrice + b.usageCharges
      && b.tax == TaxRate * b.subtotal
      && b.total == b.subtotal + b.tax
      && b.total == 1.16 * b.subtotal
  {
  }

  /** A plan whose base price and rates are non-negative. */
  predicate NonNegativePlan(plan: Plan) {
    && plan.price >= 0.0
    && UnitRate(plan.callRate) >= 0.0
    && UnitRate(plan.dataRate) >= 0.0
    && UnitRate(plan.smsRate) >= 0.0
  }

  predicate NonNegativeUsage(logs: seq<UsageLog>) {
    forall i :: 0 <= i < |logs| ==> logs[i].duration >= 0.0
  }

  /** With a non-negative plan and non-negative usage, every charge is non-negative
      and the total is at least the base price. */
  lemma ChargesNonNegative(plan: Plan, logs: seq<UsageLog>)
    requires NonNegativePlan(plan) && NonNegativeUsage(logs)
    ensures var r := Rate(plan, logs);
      && r.totals.call >= 0.0 && r.totals.data >= 0.0 && r.totals.sms >= 0.0
      && r.overages.call >= 0.0 && r.overages.data >= 0.0 && r.overages.sms >= 0.0
      && r.breakdown.usageCharges >= 0.0
      && r.breakdown.subtotal >= 0.0 && r.breakdown.tax >= 0.0
      && r.breakdown.total >= plan.price
  {
    AggregateIsTypeSums(logs);
    DurationSumNonNegative(logs, OfType(Call));
    DurationSumNonNegative(logs, OfType(Data));
    DurationSumNonNegative(logs, OfType(Sms));
    ChargesOfNonNegativeTotals(plan, Aggregate(logs));
  }

  lemma ChargesOfNonNegativeTotals(plan: Plan, t: Totals)
    requires NonNegativePlan(plan)
    requires t.call >= 0.0 && t.data >= 0.0 && t.sms >= 0.0
    ensures var r := Charges(plan, t);
      && r.totals == t
      && r.overages.call >= 0.0 && r.overages.data >= 0.0 && r.overages.sms >= 0.0
      && r.breakdown.usageCharges >= 0.0
      && r.breakdown.subtotal >= 0.0 && r.breakdown.tax >= 0.0
      && r.breakdown.total >= plan.price
  {
    var r := Charges(plan, t);
    ProductNonNegative(r.overages.call, UnitRate(plan.callRate));
    ProductNonNegative(r.overages.data, UnitRate(plan.dataRate));
    ProductNonNegative(r.overages.sms, UnitRate(plan.smsRate));
    assert r.breakdown.usageCharges >= 0.0;
    assert r.breakdown.subtotal >= plan.price;
  }

  lemma ProductNonNegative(x: real, y: real)
    requires x >= 0.0 && y >= 0.0
    ensures x * y >= 0.0
  {
  }

  lemma ProductMonotone(x: real, x': real, y: real)
    requires x <= x' && y >= 0.0
    ensures x * y <= x' * y
  {
  }

  /** Charges grow with the per-type totals when rates are non-negative. */
  lemma ChargesMonotone(plan: Plan, t: Totals, t': Totals)
    requires NonNegativePlan(plan)
    requires t.call <= t'.call && t.data <= t'.data && t.sms <= t'.sms
    ensures Charges(plan, t).breakdown.total <= Charges(plan, t').breakdown.total
  {
    var b, b' := Charges(plan, t).breakdown, Charges(plan, t').breakdown;
    UsageChargesMonotone(plan, t, t');
    assert b.subtotal <= b'.subtotal;
    TaxedMonotone(b.subtotal, b'.subtotal);
    assert b.total == b.subtotal + b.subtotal * TaxRate;
    assert b'.total == b'.subtotal + b'.subtotal * TaxRate;
  }

  lemma UsageChargesMonotone(plan: Plan, t: Totals, t': Totals)
    requires NonNegativePlan(plan)
    requires t.call <= t'.call && t.data <= t'.data && t.sms <= t'.sms
    ensures Charges(plan, t).breakdown.usageCharges <= Charges(plan, t').breakdown.usageCharges
  {
    OverageMonotone(t.call, t'.call, Allowance(plan.callMinutes));
    OverageMonotone(t.data, t'.data, Allowance(plan.dataUsage));
    OverageMonotone(t.sms, t'.sms, Allowance(plan.smsCount));
    WeightedSumMonotone(
      Overage(t.call, Allowance(plan.callMinutes)), Overage(t'.call, Allowance(plan.callMinutes)),
      Overage(t.data, Allowance(plan.dataUsage)), Overage(t'.data, Allowance(plan.dataUsage)),
      Overage(t.sms, Allowance(plan.smsCount)), Overage(t'.sms, Allowance(plan.smsCount)),
      UnitRate(plan.callRate), UnitRate(plan.dataRate), UnitRate(plan.smsRate));
  }

  lemma WeightedSumMonotone(a: real, a': real, b: real, b': real, c: real, c': real, x: real, y: real, z: real)
    requires a <= a' && b <= b' && c <= c' && x >= 0.0 && y >= 0.0 && z >= 0.0
    ensures a * x + b * y + c * z <= a' * x + b' * y + c' * z
  {
    ProductMonotone(a, a', x);
    ProductMonotone(b, b', y);
    ProductMonotone(c, c', z);
  }

  lemma OverageMonotone(total: real, total': real, allowance: real)
    requires total <= total'
    ensures Overage(total, allowance) <= Overage(total', allowance)
  {
  }

  lemma TaxedMonotone(s: real, s': real)
    requires s <= s'
    ensures s + s * TaxRate <= s' + s' * TaxRate
  {
  }

  /** More usage never lowers the bill when rates are non-negative. */
  lemma RateMonotone(plan: Plan, logs: seq<UsageLog>, x: UsageLog)
    requires NonNegativePlan(plan) && x.duration >= 0.0
    ensures Rate(plan, logs + [x]).breakdown.total >= Rate(plan, logs).breakdown.total
  {
    assert (logs + [x])[..|logs + [x]| - 1] == logs;
    assert Aggregate(logs + [x]) == AddUsage(Aggregate(logs), x);
    ChargesMonotone(plan, Aggregate(logs), Aggregate(logs + [x]));
  }

  /** The worked example: base 10, 100 call minutes included at 0.1 per extra
      minute, 150 minutes used: overage 50, charge 5, subtotal 15, tax 2.4, total 17.4. */
  lemma WorkedExample(log: UsageLog)
    requires log.usageType == Call && log.duration == 150.0
    ensures var plan := Plan(1, "Basic", Some(100), None, None, Some(0.1), None, None, 10.0, true);
      Rate(plan, [log]) == Rating(Totals(150.0, 0.0, 0.0), Overages(50.0, 0.0, 0.0),
                                  Breakdown(10.0, 5.0, 15.0, 2.4, 17.4))
  {
    assert [log][..0] == [];
    assert Aggregate([log]) == Totals(150.0, 0.0, 0.0);
    assert Overage(150.0, 100.0) == 50.0;
  }

  // --- forecast ---

  datatype Confidence = High | Medium

  datatype Projection = Projection(total: real, tax: real, confidence: Confidence)

  /** Linear projection of the month: usage charges scaled by daysInMonth / currentDay,
      plus the base price, grossed up by the tax. */
  function Project(price: real, usageCharges: real, daysInMonth: int, currentDay: int): Projection
    requires 1 <= currentDay
  {
    var factor := daysInMonth as real / currentDay as real;
    var projectedTotal := price + usageCharges * factor;
    var projectedTax := projectedTotal * TaxRate;
    Projection(projectedTotal + projectedTax, projectedTax, if currentDay > 15 then High else Medium)
  }

  /** On the last day of the month the projection is the current total. */
  lemma ProjectionOnLastDay(plan: Plan, logs: seq<UsageLog>, day: int)
    requires 1 <= day
    ensures Project(plan.price, Rate(plan, logs).breakdown.usageCharges, day, day).total
            == Rate(plan, logs).breakdown.total
  {
    assert day as real / day as real == 1.0;
  }

  /** Earlier in the month the projection is never below the current total
      when usage charges are non-negative. */
  lemma ProjectionNotBelowCurrent(plan: Plan, logs: seq<UsageLog>, daysInMonth: int, currentDay: int)
    requires 1 <= currentDay <= daysInMonth
    requires Rate(plan, logs).breakdown.usageCharges >= 0.0
    ensures Project(plan.price, Rate(plan, logs).breakdown.usageCharges, daysInMonth, currentDay).total
            >= Rate(plan, logs).breakdown.total
  {
    var b := Rate(plan, logs).breakdown;
    var f := daysInMonth as real / currentDay as real;
    FactorAtLeastOne(daysInMonth, currentDay);
    ScaledNotBelow(plan.price, b.usageCharges, f);
    assert b.total == (plan.price + b.usageCharges) + (plan.price + b.usageCharges) * TaxRate;
    assert Project(plan.price, b.usageCharges, daysInMonth, currentDay).total
           == (plan.price + b.usageCharges * f) + (plan.price + b.usageCharges * f) * TaxRate;
  }

  lemma ScaledNotBelow(price: real, u: real, f: real)
    requires u >= 0.0 && f >= 1.0
    ensures (price + u * f) + (price + u * f) * TaxRate >= (price + u) + (price + u) * TaxRate
  {
    ProductMonotone(1.0, f, u);
    TaxedMonotone(price + u, price + u * f);
  }

  lemma FactorAtLeastOne(daysInMonth: int, currentDay: int)
    requires 1 <= currentDay <= daysInMonth
    ensures daysInMonth as real / currentDay as real >= 1.0
  {
  }

  /** The confidence is high exactly in the second half of the month. */
  lemma ConfidenceHighLate(price: real, usageCharges: real, daysInMonth: int, currentDay: int)
    requires 1 <= currentDay
    ensures Project(price, usageCharges, daysInMonth, currentDay).confidence == High <==> currentDay > 15
  {
  }
}
