/**
 * The mergeable decimal accumulator `BigDecimalSummaryStatistics`.
 * Decimal amounts are modelled as `real`; the accumulator's four fields are
 * viewed together as a `Summary` value, and the in-place `accept` and `merge`
 * are specified by the pure functions AcceptValue and MergeValue.
 */
module Finance {
  import opened Wrappers

  /** The four fields `count`, `sum`, `min` and `max`, as one value. */
  datatype Summary = Summary(count: nat, sum: real, min: real, max: real)

  /** A fresh accumulator: every field starts at zero. */
  const Empty := Summary(0, 0.0, 0.0, 0.0)

  /** The shape every reachable accumulator has: an empty one is all zeros. */
  predicate WellFormed(s: Summary) {
    s.count == 0 ==> s == Empty
  }

  /** What `accept(t)` does to the four fields. */
  function AcceptValue(s: Summary, t: real): Summary {
    if s.count == 0 then Summary(1, t, t, t)
    else Summary(s.count + 1, s.sum + t,
                 if s.min > t then t else s.min,
                 if s.max < t then t else s.max)
  }

  /** What `merge(o)` does to the receiver's four fields. */
  function MergeValue(s: Summary, o: Summary): Summary {
    if o.count > 0 then
      if s.count == 0 then o
      else Summary(s.count + o.count, s.sum + o.sum,
                   if s.min > o.min then o.min else s.min,
                   if s.max < o.max then o.max else s.max)
    else s
  }

  /** `getAvg`: the sum itself below two values, otherwise the exact quotient. */
  function Avg(s: Summary): real {
    if s.count < 2 then s.sum else s.sum / (s.count as real)
  }

  /** The accumulator a sequential stream leaves after accepting xs in order. */
  function Accumulate(xs: seq<real>): Summary {
    if |xs| == 0 then Empty else AcceptValue(Accumulate(xs[..|xs| - 1]), xs[|xs| - 1])
  }

  /** Reference definition of the total of a sequence of amounts. */
  function Total(xs: seq<real>): real {
    if |xs| == 0 then 0.0 else Total(xs[..|xs| - 1]) + xs[|xs| - 1]
  }

  lemma {:induction false} AccumulateWellFormed(xs: seq<real>)
    ensures WellFormed(Accumulate(xs))
    ensures |xs| > 0 ==> Accumulate(xs).count > 0
  {
    if |xs| > 0 {
      AccumulateWellFormed(xs[..|xs| - 1]);
    }
  }

  /** After accepting xs, count is |xs| and sum is the total of xs. */
  lemma {:induction false} AccumulateCountSum(xs: seq<real>)
    ensures Accumulate(xs).count == |xs|
    ensures Accumulate(xs).sum == Total(xs)
  {
    if |xs| > 0 {
      AccumulateCountSum(xs[..|xs| - 1]);
    }
  }

  /** After at least one accept, min and max are accepted values bounding all of them. */
  lemma {:induction false} AccumulateBounds(xs: seq<real>)
    requires |xs| > 0
    ensures Accumulate(xs).min in xs && Accumulate(xs).max in xs
    ensures forall i | 0 <= i < |xs| :: Accumulate(xs).min <= xs[i] <= Accumulate(xs).max
  {
    var init := xs[..|xs| - 1];
    if |init| > 0 {
      AccumulateBounds(init);
      AccumulateWellFormed(init);
      assert forall i | 0 <= i < |init| :: xs[i] == init[i];
    }
  }

  /** Merging into an empty receiver copies the argument; merging an empty argument changes nothing. */
  lemma MergeIdentity(s: Summary)
    requires WellFormed(s)
    ensures MergeValue(s, Empty) == s
    ensures MergeValue(Empty, s) == s
  {
  }

  /** Accepting after a merge is the same as merging after accepting into the argument. */
  lemma AcceptAfterMerge(a: Summary, b: Summary, y: real)
    requires WellFormed(a) && WellFormed(b)
    ensures AcceptValue(MergeValue(a, b), y) == MergeValue(a, AcceptValue(b, y))
  {
  }

  /** The combiner is a homomorphism: merging partials equals accumulating the concatenation. */
  lemma {:induction false} AccumulateConcat(xs: seq<real>, ys: seq<real>)
    ensures Accumulate(xs + ys) == MergeValue(Accumulate(xs), Accumulate(ys))
  {
    AccumulateWellFormed(xs);
    if |ys| == 0 {
      assert xs + ys == xs;
      MergeIdentity(Accumulate(xs));
    } else {
      var init := ys[..|ys| - 1];
      var y := ys[|ys| - 1];
      assert (xs + ys)[..|xs + ys| - 1] == xs + init;
      AccumulateConcat(xs, init);
      AccumulateWellFormed(init);
      AcceptAfterMerge(Accumulate(xs), Accumulate(init), y);
    }
  }

  lemma MergeCommutative(a: Summary, b: Summary)
    requires WellFormed(a) && WellFormed(b)
    ensures MergeValue(a, b) == MergeValue(b, a)
  {
  }

  lemma MergeAssociative(a: Summary, b: Summary, c: Summary)
    requires WellFormed(a) && WellFormed(b) && WellFormed(c)
    ensures MergeValue(MergeValue(a, b), c) == MergeValue(a, MergeValue(b, c))
  {
  }

  /** The accumulated count, sum, min and max do not depend on the order of the values. */
  lemma {:induction false} AccumulatePermutation(xs: seq<real>, ys: seq<real>)
    requires multiset(xs) == multiset(ys)
    ensures Accumulate(xs) == Accumulate(ys)
    decreases |xs|
  {
    if |xs| > 0 {
      var x := xs[0];
      assert x in multiset(ys);
      var j :| 0 <= j < |ys| && ys[j] == x;
      var rest := ys[..j] + ys[j + 1..];
      assert ys == ys[..j] + [x] + ys[j + 1..];
      assert xs == [x] + xs[1..];
      assert multiset(ys) == multiset(ys[..j]) + multiset{x} + multiset(ys[j + 1..]);
      assert multiset(xs) == multiset{x} + multiset(xs[1..]);
      assert multiset(rest) == multiset(ys[..j]) + multiset(ys[j + 1..]);
      assert multiset(rest) == multiset(ys) - multiset{x};
      assert multiset(xs[1..]) == multiset(xs) - multiset{x};
      AccumulatePermutation(xs[1..], rest);
      var p, q := Accumulate(ys[..j]), Accumulate(ys[j + 1..]);
      var one := Accumulate([x]);
      AccumulateWellFormed(ys[..j]);
      AccumulateWellFormed(ys[j + 1..]);
      AccumulateWellFormed([x]);
      AccumulateConcat(ys[..j] + [x], ys[j + 1..]);
      AccumulateConcat(ys[..j], [x]);
      AccumulateConcat(ys[..j], ys[j + 1..]);
      AccumulateConcat([x], xs[1..]);
      MergeCommutative(p, one);
      MergeAssociative(one, p, q);
    }
  }

  /** The non-null elements of a list that may hold null, in order. */
  function Present(xs: seq<Option<real>>): seq<real> {
    if |xs| == 0 then []
    else Present(xs[..|xs| - 1]) + (if xs[|xs| - 1].Some? then [xs[|xs| - 1].value] else [])
  }

  /**
   * A sequential stream of a list that may hold null, fed to `accept` in
   * order. `accept(null)` throws NullPointerException, at `requireNonNull`
   * when it is the first value and at `sum.add` otherwise; None is that throw.
   */
  function AcceptAll(xs: seq<Option<real>>): Option<Summary> {
    if |xs| == 0 then Some(Empty)
    else
      var prior := AcceptAll(xs[..|xs| - 1]);
      if prior.None? || xs[|xs| - 1].None? then None
      else Some(AcceptValue(prior.value, xs[|xs| - 1].value))
  }

  /** Without a null, the non-null elements are the whole list. */
  lemma {:induction false} PresentAll(xs: seq<Option<real>>)
    requires forall i | 0 <= i < |xs| :: xs[i].Some?
    ensures |Present(xs)| == |xs|
    ensures forall i | 0 <= i < |xs| :: Present(xs)[i] == xs[i].value
  {
    if |xs| > 0 {
      var init := xs[..|xs| - 1];
      PresentAll(init);
      assert forall i | 0 <= i < |init| :: init[i] == xs[i];
    }
  }

  /**
   * The stream throws exactly when some element is null; otherwise it leaves
   * the accumulator of the non-null values.
   */
  lemma {:induction false} AcceptAllNull(xs: seq<Option<real>>)
    ensures AcceptAll(xs).None? <==> exists i | 0 <= i < |xs| :: xs[i].None?
    ensures AcceptAll(xs).Some? ==> AcceptAll(xs).value == Accumulate(Present(xs))
  {
    if |xs| > 0 {
      var init, last := xs[..|xs| - 1], xs[|xs| - 1];
      AcceptAllNull(init);
      if exists i | 0 <= i < |init| :: init[i].None? {
        var i :| 0 <= i < |init| && init[i].None?;
        assert xs[i] == init[i];
      }
      if exists i | 0 <= i < |xs| :: xs[i].None? {
        var i :| 0 <= i < |xs| && xs[i].None?;
        if i < |init| { assert init[i] == xs[i]; }
      }
      if AcceptAll(xs).Some? {
        var p := Present(init) + [last.value];
        assert Present(xs) == p && p[..|p| - 1] == Present(init);
      }
    }
  }

  /**
   * The accumulator object. A fresh one and every one reached through
   * `Accept` and `Merge` satisfies Valid().
   */
  class BigDecimalSummaryStatistics {
    var sum: real
    var min: real
    var max: real
    var count: nat

    ghost predicate Valid()
      reads this
    {
      WellFormed(Value())
    }

    /** The object's fields as a Summary value. */
    function Value(): Summary
      reads this
    {
      Summary(count, sum, min, max)
    }

    constructor ()
      ensures Valid()
      ensures count == 0 && sum == 0.0 && min == 0.0 && max == 0.0
    {
      sum, min, max, count := 0.0, 0.0, 0.0, 0;
    }

    method Accept(t: real)
      requires Valid()
      modifies this
      ensures Valid()
      ensures Value() == AcceptValue(old(Value()), t)
      ensures old(count) == 0 ==> count == 1 && sum == t && min == t && max == t
    {
      if count == 0 {
        count := 1;
        sum := t;
        min := t;
        max := t;
      } else {
        sum := sum + t;
        if min > t { min := t; }
        if max < t { max := t; }
        count := count + 1;
      }
    }

    method Merge(s: BigDecimalSummaryStatistics) returns (r: BigDecimalSummaryStatistics)
      requires Valid() && s.Valid()
      modifies this
      ensures r == this
      ensures Valid()
      ensures Value() == MergeValue(old(Value()), old(s.Value()))
    {
      if s.count > 0 {
        if count == 0 {
          count := s.count;
          sum := s.sum;
          min := s.min;
          max := s.max;
        } else {
          sum := sum + s.sum;
          if min > s.min { min := s.min; }
          if max < s.max { max := s.max; }
          count := count + s.count;
        }
      }
      r := this;
    }

    function GetAvg(): (r: real)
      reads this
      ensures count == 0 ==> r == sum
      ensures count == 1 ==> r == sum
      ensures count >= 2 ==> r * (count as real) == sum
    {
      Avg(Value())
    }
  }

  /**
   * The `statistics()` collector on a sequential stream: a fresh accumulator
   * (the supplier) fed every value in order (the accumulator function).
   */
  method Collect(xs: seq<real>) returns (acc: BigDecimalSummaryStatistics)
    ensures fresh(acc) && acc.Valid()
    ensures acc.Value() == Accumulate(xs)
  {
    acc := new BigDecimalSummaryStatistics();
    for i := 0 to |xs|
      invariant acc.Valid()
      invariant acc.Value() == Accumulate(xs[..i])
    {
      assert xs[..i + 1][..i] == xs[..i];
      acc.Accept(xs[i]);
    }
    assert xs[..|xs|] == xs;
  }
}
