/**
 * The salary metrics engine: seasonal adjustment of monthly amounts,
 * aggregation into a metrics record with a tax threshold, and the
 * GREEN/ORANGE/RED classification of an average.
 *
 * Every monetary quantity is an exact `real`; results are quantized to two
 * decimal places with `Round2` (round half up) only at the very end.
 */
module ProcessStatus {
  import opened Decimals

  /** One salary record: a calendar month and the amount paid for it. */
  type MonthAmount = (int, real)

  /** The metrics record the engine returns. */
  datatype Metrics = Metrics(
    count: nat,
    sum: real,
    sumAfterTax: real,
    average: real,
    highest: real)

  /** The status label derived from an average. */
  datatype Status = Green | Orange | Red

  /** December pays a 10% bonus. */
  const DecemberFactor: real := 1.10
  /** June, July and August pay 5% less. */
  const SummerFactor: real := 0.95
  /** A total strictly above this is taxed. */
  const TaxThreshold: real := 10000.0
  /** What remains of a taxed total: a 7% deduction. */
  const AfterTaxFactor: real := 0.93
  /** The average that separates RED from GREEN; exactly this is ORANGE. */
  const StatusThreshold: real := 2000.0

  predicate IsSummer(month: int) {
    month == 6 || month == 7 || month == 8
  }

  /**
   * Seasonal scaling of one monthly amount. Any month other than December
   * and the three summer months (including out-of-range months) is left as is.
   */
  function AdjustByMonth(month: int, amount: real): (r: real)
    ensures month == 12 ==> r == amount * DecemberFactor
    ensures IsSummer(month) ==> r == amount * SummerFactor
    ensures month != 12 && !IsSummer(month) ==> r == amount
    ensures amount > 0.0 ==> (r > amount <==> month == 12) && (r < amount <==> IsSummer(month))
    ensures amount >= 0.0 ==> SummerFactor * amount <= r <= DecemberFactor * amount
  {
    if month == 12 then amount * DecemberFactor
    else if IsSummer(month) then amount * SummerFactor
    else amount
  }

  /** The adjusted amounts, in input order. */
  function Adjusted(pairs: seq<MonthAmount>): (r: seq<real>)
    ensures |r| == |pairs|
    ensures forall i :: 0 <= i < |pairs| ==> r[i] == AdjustByMonth(pairs[i].0, pairs[i].1)
  {
    if pairs == [] then []
    else [AdjustByMonth(pairs[0].0, pairs[0].1)] + Adjusted(pairs[1..])
  }

  /**
   * The exact sum of a sequence. Exact addition is associative, so the order
   * of the fold does not matter.
   */
  function Sum(s: seq<real>): (r: real)
    ensures (forall i :: 0 <= i < |s| ==> s[i] >= 0.0) ==> r >= 0.0
  {
    if s == [] then 0.0 else s[0] + Sum(s[1..])
  }

  /** The largest element of a non-empty sequence (the first one, on ties). */
  function Max(s: seq<real>): (r: real)
    requires |s| > 0
    ensures r in s
    ensures forall i :: 0 <= i < |s| ==> s[i] <= r
  {
    if |s| == 1 then s[0]
    else
      var m := Max(s[1..]);
      if s[0] >= m then s[0] else m
  }

  /** The exact, unrounded total of the adjusted amounts. */
  function Total(pairs: seq<MonthAmount>): real {
    Sum(Adjusted(pairs))
  }

  /** The total after the 7% deduction, which applies only strictly above the threshold. */
  function AfterTax(total: real): (r: real)
    ensures total > TaxThreshold ==> r == total * AfterTaxFactor && r < total
    ensures total <= TaxThreshold ==> r == total
    ensures r <= total
  {
    if total > TaxThreshold then total * AfterTaxFactor else total
  }

  /**
   * The metrics of a list of (month, amount) records. The average is taken
   * over the after-tax total; every output is quantized to two decimals.
   * An empty list yields all zeros.
   */
  function ComputeMetrics(pairs: seq<MonthAmount>): (r: Metrics)
    ensures r.count == |pairs|
    ensures pairs == [] ==> r == Metrics(0, 0.0, 0.0, 0.0, 0.0)
    ensures IsCents(r.sum) && IsCents(r.sumAfterTax) && IsCents(r.average) && IsCents(r.highest)
    ensures r.sumAfterTax <= r.sum
    ensures pairs != [] ==>
      r.sum == Round2(Total(pairs)) &&
      r.sumAfterTax == Round2(AfterTax(Total(pairs))) &&
      r.average == Round2(AfterTax(Total(pairs)) / (|pairs| as real))
  {
    var adjusted := Adjusted(pairs);
    if |adjusted| == 0 then
      assert IsCents(0.0);
      Metrics(0, 0.0, 0.0, 0.0, 0.0)
    else
      var total := Sum(adjusted);
      var totalAfterTax := AfterTax(total);
      Round2Monotone(totalAfterTax, total);
      Metrics(
        |adjusted|,
        Round2(total),
        Round2(totalAfterTax),
        Round2(totalAfterTax / (|adjusted| as real)),
        Round2(Max(adjusted)))
  }

  /** Classify an average: above 2000 is GREEN, exactly 2000 ORANGE, below RED. */
  function StatusFromAverage(avg: real): (s: Status)
    ensures s == Green <==> avg > StatusThreshold
    ensures s == Orange <==> avg == StatusThreshold
    ensures s == Red <==> avg < StatusThreshold
  {
    if avg > StatusThreshold then Green
    else if avg == StatusThreshold then Orange
    else Red
  }

  /** The order RED < ORANGE < GREEN. */
  function Rank(s: Status): nat {
    match s
    case Red => 0
    case Orange => 1
    case Green => 2
  }

  // ---------------------------------------------------------------------
  // Properties of the engine
  // ---------------------------------------------------------------------

  /** The tax fires exactly when the unrounded total is strictly above 10000. */
  lemma TaxRule(pairs: seq<MonthAmount>)
    requires pairs != []
    ensures Total(pairs) > TaxThreshold ==>
      ComputeMetrics(pairs).sumAfterTax == Round2(Total(pairs) * AfterTaxFactor)
    ensures Total(pairs) <= TaxThreshold ==>
      ComputeMetrics(pairs).sumAfterTax == ComputeMetrics(pairs).sum
  {
  }

  /** A taxed sum keeps between 92% and 94% of the rounded sum, despite rounding. */
  lemma TaxBand(pairs: seq<MonthAmount>)
    requires Total(pairs) > TaxThreshold
    ensures var m := ComputeMetrics(pairs);
      m.sum > TaxThreshold - 0.005 &&
      0.92 * m.sum < m.sumAfterTax < 0.94 * m.sum
  {
  }

  /**
   * `sum` rounds the exact total once, and `average` rounds the exact
   * after-tax total divided by the count: no rounded intermediate is reused,
   * so the average is within half a cent of the exact after-tax mean.
   */
  lemma AverageOfAfterTaxTotal(pairs: seq<MonthAmount>)
    requires pairs != []
    ensures var m := ComputeMetrics(pairs); var mean := AfterTax(Total(pairs)) / (|pairs| as real);
      m.sum == Round2(Total(pairs)) &&
      m.average == Round2(mean) &&
      mean - 0.005 <= m.average <= mean + 0.005
  {
  }

  /**
   * `highest` is the rounded value of one adjusted amount that is at least
   * every adjusted amount, and so it is at least every rounded adjusted amount.
   */
  lemma HighestIsAdjustedMaximum(pairs: seq<MonthAmount>)
    requires pairs != []
    ensures var m := ComputeMetrics(pairs);
      exists i :: 0 <= i < |pairs| && m.highest == Round2(AdjustByMonth(pairs[i].0, pairs[i].1)) &&
        forall j :: 0 <= j < |pairs| ==> AdjustByMonth(pairs[j].0, pairs[j].1) <= AdjustByMonth(pairs[i].0, pairs[i].1)
    ensures var m := ComputeMetrics(pairs);
      forall j :: 0 <= j < |pairs| ==> Round2(AdjustByMonth(pairs[j].0, pairs[j].1)) <= m.highest
  {
    var adjusted := Adjusted(pairs);
    var top := Max(adjusted);
    var i :| 0 <= i < |adjusted| && adjusted[i] == top;
    forall j | 0 <= j < |pairs|
      ensures Round2(AdjustByMonth(pairs[j].0, pairs[j].1)) <= ComputeMetrics(pairs).highest
    {
      Round2Monotone(adjusted[j], top);
    }
  }

  /** Every output of a list of non-negative amounts is non-negative. */
  lemma NonNegativeMetrics(pairs: seq<MonthAmount>)
    requires forall i :: 0 <= i < |pairs| ==> pairs[i].1 >= 0.0
    ensures var m := ComputeMetrics(pairs);
      m.sum >= 0.0 && m.sumAfterTax >= 0.0 && m.average >= 0.0 && m.highest >= 0.0
  {
    if pairs != [] {
      var adjusted := Adjusted(pairs);
      assert forall i :: 0 <= i < |adjusted| ==> adjusted[i] >= 0.0;
      NonNegativeAggregates(adjusted);
    }
  }

  /** The unrounded aggregates of non-negative amounts are non-negative. */
  lemma NonNegativeAggregates(s: seq<real>)
    requires s != []
    requires forall i :: 0 <= i < |s| ==> s[i] >= 0.0
    ensures AfterTax(Sum(s)) >= 0.0 && AfterTax(Sum(s)) / (|s| as real) >= 0.0 && Max(s) >= 0.0
  {
    assert s[0] <= Max(s);
    DivideNonNegative(AfterTax(Sum(s)), |s| as real);
  }

  /** Helper of `NonNegativeAggregates`: division keeps the sign of a non-negative total. */
  lemma DivideNonNegative(a: real, n: real)
    requires a >= 0.0 && n > 0.0
    ensures a / n >= 0.0
  {
  }

  /**
   * `k` copies of `x` added up: `k * x`, written so that no product is exposed.
   * `Repeat`, `RepeatIsProduct`, `MeanAtMostBound` and `DivideBound` are
   * arithmetic helpers of `AverageAtMostHighest`; they model no line of the engine.
   */
  function Repeat(k: nat, x: real): real {
    if k == 0 then 0.0 else x + Repeat(k - 1, x)
  }

  /** Helper of `AverageAtMostHighest`: repeated addition is multiplication. */
  lemma {:induction false} RepeatIsProduct(k: nat, x: real)
    ensures Repeat(k, x) == k as real * x
  {
    if k > 0 {
      RepeatIsProduct(k - 1, x);
      assert k as real * x == (k - 1) as real * x + x;
    }
  }

  /** A sum is at most its length times any upper bound of its elements. */
  lemma {:induction false} SumAtMostRepeatedBound(s: seq<real>, bound: real)
    requires forall i :: 0 <= i < |s| ==> s[i] <= bound
    ensures Sum(s) <= Repeat(|s|, bound)
  {
    if s != [] {
      SumAtMostRepeatedBound(s[1..], bound);
    }
  }

  /** Helper of `AverageAtMostHighest`: a total at most `n` times a bound has a mean at most that bound. */
  lemma MeanAtMostBound(total: real, n: nat, bound: real)
    requires n > 0 && total <= Repeat(n, bound)
    ensures total / (n as real) <= bound
  {
    RepeatIsProduct(n, bound);
    DivideBound(total, n as real, bound);
  }

  lemma DivideBound(total: real, n: real, bound: real)
    requires n > 0.0 && total <= n * bound
    ensures total / n <= bound
  {
    assert (n * bound) / n == bound;
  }

  /** The average never exceeds the highest adjusted amount. */
  lemma AverageAtMostHighest(pairs: seq<MonthAmount>)
    requires pairs != []
    ensures ComputeMetrics(pairs).average <= ComputeMetrics(pairs).highest
  {
    var adjusted := Adjusted(pairs);
    var top := Max(adjusted);
    SumAtMostRepeatedBound(adjusted, top);
    MeanAtMostBound(AfterTax(Sum(adjusted)), |adjusted|, top);
    Round2Monotone(AfterTax(Sum(adjusted)) / (|adjusted| as real), top);
  }

  // Order independence

  lemma {:induction false} SumConcat(a: seq<real>, b: seq<real>)
    ensures Sum(a + b) == Sum(a) + Sum(b)
  {
    if a == [] {
      assert a + b == b;
    } else {
      assert (a + b)[1..] == a[1..] + b;
      SumConcat(a[1..], b);
    }
  }

  /** The sum depends only on the multiset of elements. */
  lemma {:induction false} SumPermutation(s: seq<real>, t: seq<real>)
    requires multiset(s) == multiset(t)
    ensures Sum(s) == Sum(t)
    decreases |s|
  {
    if s == [] {
      assert |t| == |multiset(t)| == 0;
    } else {
      assert s[0] in multiset(t);
      var j :| 0 <= j < |t| && t[j] == s[0];
      var rest := t[..j] + t[j + 1..];
      assert t == t[..j] + [t[j]] + t[j + 1..];
      assert s == [s[0]] + s[1..];
      assert multiset(t) == multiset(t[..j]) + multiset{t[j]} + multiset(t[j + 1..]);
      assert multiset(rest) == multiset(t[..j]) + multiset(t[j + 1..]);
      assert multiset(s) == multiset{s[0]} + multiset(s[1..]);
      assert multiset(s[1..]) == multiset(s) - multiset{s[0]};
      assert multiset(rest) == multiset(t) - multiset{t[j]};
      SumPermutation(s[1..], rest);
      SumConcat(t[..j] + [t[j]], t[j + 1..]);
      SumConcat(t[..j], [t[j]]);
      SumConcat(t[..j], t[j + 1..]);
      assert Sum([t[j]]) == t[j] + Sum([]);
    }
  }

  /** The maximum depends only on the multiset of elements. */
  lemma MaxPermutation(s: seq<real>, t: seq<real>)
    requires |s| > 0
    requires multiset(s) == multiset(t)
    ensures |t| > 0 && Max(s) == Max(t)
  {
    assert |t| == |multiset(t)| == |s|;
    assert Max(s) in multiset(t);
    assert Max(t) in multiset(s);
  }

  lemma AdjustedConcat(a: seq<MonthAmount>, b: seq<MonthAmount>)
    ensures Adjusted(a + b) == Adjusted(a) + Adjusted(b)
  {
    var l, r := Adjusted(a + b), Adjusted(a) + Adjusted(b);
    forall i | 0 <= i < |l| ensures l[i] == r[i] {
      if i < |a| {
        assert (a + b)[i] == a[i];
      } else {
        assert (a + b)[i] == b[i - |a|];
      }
    }
  }

  /** Permuting the records permutes the adjusted amounts. */
  lemma {:induction false} AdjustedPermutation(p: seq<MonthAmount>, q: seq<MonthAmount>)
    requires multiset(p) == multiset(q)
    ensures multiset(Adjusted(p)) == multiset(Adjusted(q))
    decreases |p|
  {
    if p == [] {
      assert |q| == |multiset(q)| == 0;
    } else {
      assert p[0] in multiset(q);
      var j :| 0 <= j < |q| && q[j] == p[0];
      var rest := q[..j] + q[j + 1..];
      assert q == q[..j] + [q[j]] + q[j + 1..];
      assert p == [p[0]] + p[1..];
      assert multiset(q) == multiset(q[..j]) + multiset{q[j]} + multiset(q[j + 1..]);
      assert multiset(rest) == multiset(q[..j]) + multiset(q[j + 1..]);
      assert multiset(p) == multiset{p[0]} + multiset(p[1..]);
      assert multiset(p[1..]) == multiset(p) - multiset{p[0]};
      assert multiset(rest) == multiset(q) - multiset{q[j]};
      AdjustedPermutation(p[1..], rest);
      AdjustedConcat(q[..j] + [q[j]], q[j + 1..]);
      AdjustedConcat(q[..j], [q[j]]);
      AdjustedConcat(q[..j], q[j + 1..]);
      AdjustedConcat([p[0]], p[1..]);
    }
  }

  /** The engine's result does not depend on the order of the records. */
  lemma ComputeMetricsPermutation(p: seq<MonthAmount>, q: seq<MonthAmount>)
    requires multiset(p) == multiset(q)
    ensures ComputeMetrics(p) == ComputeMetrics(q)
  {
    assert |p| == |multiset(p)| == |q|;
    AdjustedPermutation(p, q);
    SumPermutation(Adjusted(p), Adjusted(q));
    if p != [] {
      MaxPermutation(Adjusted(p), Adjusted(q));
    }
  }

  // Classification

  /** A larger average never gets a worse status. */
  lemma StatusMonotone(a: real, b: real)
    requires a <= b
    ensures Rank(StatusFromAverage(a)) <= Rank(StatusFromAverage(b))
  {
  }

  // Worked examples (months 1-3 carry no seasonal adjustment)

  /** Three records of 1500 average 1500: RED. */
  lemma ExampleRed()
    ensures var m := ComputeMetrics([(1, 1500.0), (2, 1500.0), (3, 1500.0)]);
      m == Metrics(3, 4500.0, 4500.0, 1500.0, 1500.0) && StatusFromAverage(m.average) == Red
  {
    Round2OfCents(4500.0);
    Round2OfCents(1500.0);
  }

  /** Three records of 2000 average exactly 2000: ORANGE. */
  lemma ExampleOrange()
    ensures var m := ComputeMetrics([(1, 2000.0), (2, 2000.0), (3, 2000.0)]);
      m == Metrics(3, 6000.0, 6000.0, 2000.0, 2000.0) && StatusFromAverage(m.average) == Orange
  {
    Round2OfCents(6000.0);
    Round2OfCents(2000.0);
  }

  /** Three records of 2100 average 2100: GREEN. */
  lemma ExampleGreen()
    ensures var m := ComputeMetrics([(1, 2100.0), (2, 2100.0), (3, 2100.0)]);
      m == Metrics(3, 6300.0, 6300.0, 2100.0, 2100.0) && StatusFromAverage(m.average) == Green
  {
    Round2OfCents(6300.0);
    Round2OfCents(2100.0);
  }

  /**
   * December, June and January records of 5000: adjusted to 5500, 4750 and
   * 5000, a taxed total of 15250 and an after-tax average of 4727.50.
   */
  lemma ExampleSeasonalTaxed()
    ensures var m := ComputeMetrics([(12, 5000.0), (6, 5000.0), (1, 5000.0)]);
      m == Metrics(3, 15250.0, 14182.5, 4727.5, 5500.0) && StatusFromAverage(m.average) == Green
  {
    var pairs := [(12, 5000.0), (6, 5000.0), (1, 5000.0)];
    assert Adjusted(pairs) == [5500.0, 4750.0, 5000.0];
    Round2OfCents(15250.0);
    Round2OfCents(14182.5);
    Round2OfCents(4727.5);
    Round2OfCents(5500.0);
  }
}
