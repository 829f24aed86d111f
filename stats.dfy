/** `Statistics.calculate`: the summary of a collection of loan amounts. */
module Stats {
  import opened Wrappers
  import opened Finance

  /** The immutable result object: count, sum, avg, max and min. */
  datatype Statistics = Statistics(count: nat, sum: real, avg: real, max: real, min: real)

  /** The builder call of `calculate`: the collector's fields copied out, with its average. */
  function Report(s: Summary): Statistics {
    Statistics(s.count, s.sum, Avg(s), s.max, s.min)
  }

  /**
   * Collects the amounts with the summary-statistics collector and copies
   * its fields out. Count and sum are the number and the total of the amounts,
   * min and max are the least and greatest amount, and all of them are zero
   * when there are no amounts.
   */
  function Calculate(amounts: seq<real>): (r: Statistics)
    ensures r.count == |amounts| && r.sum == Total(amounts)
    ensures |amounts| == 0 ==> r == Statistics(0, 0.0, 0.0, 0.0, 0.0)
    ensures |amounts| > 0 ==> r.min in amounts && r.max in amounts
    ensures forall i | 0 <= i < |amounts| :: r.min <= amounts[i] <= r.max
    ensures r.count < 2 ==> r.avg == r.sum
    ensures r.count >= 2 ==> r.avg * (r.count as real) == r.sum
  {
    var s := Accumulate(amounts);
    AccumulateCountSum(amounts);
    var r := Report(s);
    if |amounts| > 0 then AccumulateBounds(amounts); r else r
  }

  /**
   * `calculate` on a list that may hold null, as `getStatistics` builds it:
   * None is the NullPointerException the collector throws at the first null.
   */
  function CalculateNullable(amounts: seq<Option<real>>): (r: Option<Statistics>)
    ensures r.None? <==> exists i | 0 <= i < |amounts| :: amounts[i].None?
    ensures r.Some? ==> r.value == Calculate(Present(amounts))
  {
    AcceptAllNull(amounts);
    match AcceptAll(amounts)
    case None => None
    case Some(s) => Some(Report(s))
  }

  /** A single amount is its own count-one summary, average included. */
  lemma CalculateSingle(x: real)
    ensures Calculate([x]) == Statistics(1, x, x, x, x)
  {
  }

  /** The result does not depend on the order in which the amounts are streamed. */
  lemma CalculatePermutation(xs: seq<real>, ys: seq<real>)
    requires multiset(xs) == multiset(ys)
    ensures Calculate(xs) == Calculate(ys)
  {
    AccumulatePermutation(xs, ys);
  }

  /** A parallel stream that merges the partials of xs and ys gets the same result as one pass over xs + ys. */
  lemma CalculateSplit(xs: seq<real>, ys: seq<real>)
    ensures var m := MergeValue(Accumulate(xs), Accumulate(ys));
            Calculate(xs + ys) == Statistics(m.count, m.sum, Avg(m), m.max, m.min)
  {
    AccumulateConcat(xs, ys);
  }

  /** The two concurrent producers' surviving amounts. */
  lemma CalculateTwoProducers()
    ensures Calculate([123.01, 1023.55]) == Statistics(2, 1146.56, 573.28, 1023.55, 123.01)
  {
  }

  /** The three amounts inside the one-minute window. */
  lemma CalculateThreeInWindow()
    ensures Calculate([111.01, 121.01, 131.01]) == Statistics(3, 363.03, 121.01, 131.01, 111.01)
  {
    var xs := [111.01, 121.01, 131.01];
    assert xs[..2] == [111.01, 121.01];
    assert [111.01, 121.01][..1] == [111.01];
    assert Accumulate([111.01]) == Summary(1, 111.01, 111.01, 111.01);
    assert Accumulate([111.01, 121.01]) == Summary(2, 232.02, 111.01, 121.01);
    assert Accumulate(xs) == Summary(3, 363.03, 111.01, 131.01);
  }
}
