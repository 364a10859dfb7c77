/**
 * The part shared by both aggregators of main.py: keep the usable estimates
 * of a list of listings, count them, and take the truncated mean.
 *
 * `Collect` is the specification of the `salaries` list that each
 * aggregator builds in its loop; `Summarise` is what each does with that list
 * afterwards. Both sources plug in their own per-listing estimate.
 */
module Aggregation {
  import opened Wrappers
  import opened Estimator

  /** The statistics one aggregator returns for one language. */
  datatype LanguageStats = LanguageStats(
    vacanciesFound: int,
    vacanciesProcessed: nat,
    averageSalary: int)

  /**
   * The usable estimates of `vacancies`, in listing order: the list the
   * aggregator loop appends to.
   */
  function Collect<T>(vacancies: seq<T>, estimate: T -> Option<real>): (r: seq<real>)
    ensures |r| <= |vacancies|
    ensures forall k :: 0 <= k < |r| ==> r[k] != 0.0
  {
    if vacancies == [] then []
    else
      var n := |vacancies| - 1;
      var e := estimate(vacancies[n]);
      Collect(vacancies[..n], estimate) + (if Usable(e) then [e.value] else [])
  }

  /** The listings, by position, whose estimate is usable. */
  ghost function UsableIndices<T>(vacancies: seq<T>, estimate: T -> Option<real>): set<nat>
  {
    set i: nat | i < |vacancies| && Usable(estimate(vacancies[i]))
  }

  /** No estimate in the list is negative. */
  predicate AllNonNegative(xs: seq<real>)
  {
    forall k :: 0 <= k < |xs| ==> xs[k] >= 0.0
  }

  /** The sum of the estimates, added left to right as Python's `sum` does. */
  function Sum(xs: seq<real>): (r: real)
    ensures AllNonNegative(xs) ==> r >= 0.0
  {
    if xs == [] then 0.0 else Sum(xs[..|xs| - 1]) + xs[|xs| - 1]
  }

  /** Python's `int(x)` on a float: drop the fractional part, toward zero. */
  function TruncToZero(x: real): (r: int)
    ensures 0.0 <= x ==> 0 <= r && r as real <= x < r as real + 1.0
    ensures x < 0.0 ==> r <= 0 && r as real - 1.0 < x <= r as real
  {
    if x >= 0.0 then x.Floor else -((-x).Floor)
  }

  /**
   * `int(sum(salaries)/n) if n else 0`: the mean of the estimates truncated
   * toward zero, or 0 when there are none.
   */
  function AverageSalary(salaries: seq<real>): (r: int)
    ensures salaries == [] ==> r == 0
    ensures salaries != [] && Sum(salaries) >= 0.0 ==>
      0 <= r && r as real <= Sum(salaries) / |salaries| as real < r as real + 1.0
    ensures salaries != [] && Sum(salaries) < 0.0 ==>
      r as real - 1.0 < Sum(salaries) / |salaries| as real <= r as real
  {
    if |salaries| > 0 then TruncToZero(Sum(salaries) / |salaries| as real) else 0
  }

  /** The result dictionary built from the `salaries` list and the found count. */
  function Summarise(salaries: seq<real>, vacanciesCount: int): (r: LanguageStats)
    ensures r.vacanciesFound == vacanciesCount
    ensures r.vacanciesProcessed == |salaries|
    ensures r.vacanciesProcessed == 0 ==> r.averageSalary == 0
  {
    LanguageStats(vacanciesCount, |salaries|, AverageSalary(salaries))
  }

  // ---------------------------------------------------------------------------
  // Lemmas about Collect

  lemma {:induction false} CollectAppend<T>(xs: seq<T>, ys: seq<T>, estimate: T -> Option<real>)
    ensures Collect(xs + ys, estimate) == Collect(xs, estimate) + Collect(ys, estimate)
  {
    if ys == [] {
      assert xs + ys == xs;
    } else {
      var n := |ys| - 1;
      assert (xs + ys)[..|xs + ys| - 1] == xs + ys[..n];
      assert (xs + ys)[|xs + ys| - 1] == ys[n];
      CollectAppend(xs, ys[..n], estimate);
    }
  }

  /** The number of processed vacancies is the number of listings with a usable estimate. */
  lemma {:induction false} ProcessedCountsUsable<T>(vacancies: seq<T>, estimate: T -> Option<real>)
    ensures |Collect(vacancies, estimate)| == |UsableIndices(vacancies, estimate)|
  {
    if vacancies == [] {
      assert UsableIndices(vacancies, estimate) == {};
    } else {
      var n := |vacancies| - 1;
      var prefix := vacancies[..n];
      ProcessedCountsUsable(prefix, estimate);
      var before := UsableIndices(prefix, estimate);
      var after := UsableIndices(vacancies, estimate);
      assert n !in before;
      if Usable(estimate(vacancies[n])) {
        assert after == before + {n};
      } else {
        assert after == before;
      }
    }
  }

  /** Every listing contributes when every estimate is usable. */
  lemma {:induction false} CollectAllUsable<T>(vacancies: seq<T>, estimate: T -> Option<real>)
    requires forall i :: 0 <= i < |vacancies| ==> Usable(estimate(vacancies[i]))
    ensures |Collect(vacancies, estimate)| == |vacancies|
  {
    if vacancies != [] {
      CollectAllUsable(vacancies[..|vacancies| - 1], estimate);
    }
  }

  /** A listing whose estimate is not usable does not change the collected list, wherever it stands. */
  lemma CollectSkipsUnusable<T>(xs: seq<T>, v: T, ys: seq<T>, estimate: T -> Option<real>)
    requires !Usable(estimate(v))
    ensures Collect(xs + [v] + ys, estimate) == Collect(xs + ys, estimate)
  {
    CollectAppend(xs + [v], ys, estimate);
    CollectAppend(xs, [v], estimate);
    CollectAppend(xs, ys, estimate);
    assert [v][..0] == [];
  }

  /** The collected estimates of a permutation of the listings are a permutation. */
  lemma {:induction false} CollectPermutation<T>(xs: seq<T>, ys: seq<T>, estimate: T -> Option<real>)
    requires multiset(xs) == multiset(ys)
    ensures multiset(Collect(xs, estimate)) == multiset(Collect(ys, estimate))
  {
    if xs == [] {
      assert ys == [];
    } else {
      var n := |xs| - 1;
      var x := xs[n];
      assert xs == xs[..n] + [x];
      assert x in multiset(ys);
      var j :| 0 <= j < |ys| && ys[j] == x;
      assert ys == ys[..j] + [x] + ys[j + 1..];
      var rest := ys[..j] + ys[j + 1..];
      MultisetRemoveLast(xs, ys, j);
      CollectPermutation(xs[..n], rest, estimate);
      CollectAppend(xs[..n], [x], estimate);
      CollectAppend(ys[..j] + [x], ys[j + 1..], estimate);
      CollectAppend(ys[..j], [x], estimate);
      CollectAppend(ys[..j], ys[j + 1..], estimate);
    }
  }

  /** With estimates all at least `low`, so is every collected one. */
  lemma {:induction false} CollectAtLeast<T>(vacancies: seq<T>, estimate: T -> Option<real>, low: real)
    requires forall i :: 0 <= i < |vacancies| && estimate(vacancies[i]).Some? ==>
      estimate(vacancies[i]).value >= low
    ensures forall k :: 0 <= k < |Collect(vacancies, estimate)| ==> Collect(vacancies, estimate)[k] >= low
  {
    if vacancies != [] {
      CollectAtLeast(vacancies[..|vacancies| - 1], estimate, low);
    }
  }

  /** Cutting the element at `j` out of a sequence removes one copy of it from its multiset. */
  lemma MultisetCutOut<T>(s: seq<T>, j: nat)
    requires j < |s|
    ensures multiset(s[..j] + s[j + 1..]) == multiset(s) - multiset{s[j]}
  {
    assert s == s[..j] + [s[j]] + s[j + 1..];
    assert multiset(s) == multiset(s[..j]) + multiset{s[j]} + multiset(s[j + 1..]);
  }

  /** Taking the last element of `xs` out of `xs`, and one equal element out of `ys`, keeps them permutations. */
  lemma MultisetRemoveLast<T>(xs: seq<T>, ys: seq<T>, j: nat)
    requires multiset(xs) == multiset(ys)
    requires xs != [] && j < |ys| && ys[j] == xs[|xs| - 1]
    ensures multiset(xs[..|xs| - 1]) == multiset(ys[..j] + ys[j + 1..])
  {
    var n := |xs| - 1;
    MultisetCutOut(xs, n);
    assert xs[..n] + xs[n + 1..] == xs[..n];
    MultisetCutOut(ys, j);
  }

  // ---------------------------------------------------------------------------
  // Lemmas about Sum and the average

  lemma {:induction false} SumAppend(xs: seq<real>, ys: seq<real>)
    ensures Sum(xs + ys) == Sum(xs) + Sum(ys)
  {
    if ys == [] {
      assert xs + ys == xs;
    } else {
      var n := |ys| - 1;
      assert (xs + ys)[..|xs + ys| - 1] == xs + ys[..n];
      SumAppend(xs, ys[..n]);
    }
  }

  /** Under exact arithmetic the sum does not depend on the order of the estimates. */
  lemma {:induction false} SumPermutation(xs: seq<real>, ys: seq<real>)
    requires multiset(xs) == multiset(ys)
    ensures Sum(xs) == Sum(ys)
  {
    if xs == [] {
      assert ys == [];
    } else {
      var n := |xs| - 1;
      var x := xs[n];
      assert xs == xs[..n] + [x];
      assert x in multiset(ys);
      var j :| 0 <= j < |ys| && ys[j] == x;
      assert ys == ys[..j] + [x] + ys[j + 1..];
      var rest := ys[..j] + ys[j + 1..];
      MultisetRemoveLast(xs, ys, j);
      SumPermutation(xs[..n], rest);
      SumAppend(ys[..j] + [x], ys[j + 1..]);
      SumAppend(ys[..j], [x]);
      SumAppend(ys[..j], ys[j + 1..]);
    }
  }

  /** The inductive step of `SumAtLeast`: one more summand of at least `low`. */
  lemma AddAtLeast(total: real, x: real, m: real, low: real)
    requires total >= m * low && x >= low
    ensures total + x >= (m + 1.0) * low
  {
    assert (m + 1.0) * low == m * low + low;
  }

  /** The inductive step of `SumAtMost`: one more summand of at most `high`. */
  lemma AddAtMost(total: real, x: real, m: real, high: real)
    requires total <= m * high && x <= high
    ensures total + x <= (m + 1.0) * high
  {
    assert (m + 1.0) * high == m * high + high;
  }

  /** Dividing a sum of at least `n` times `low` by `n` gives at least `low`. */
  lemma DivAtLeast(total: real, n: real, low: real)
    requires n > 0.0 && total >= n * low
    ensures total / n >= low
  {
    assert total / n - low == (total - n * low) / n;
  }

  /** Dividing a sum of at most `n` times `high` by `n` gives at most `high`. */
  lemma DivAtMost(total: real, n: real, high: real)
    requires n > 0.0 && total <= n * high
    ensures total / n <= high
  {
    assert high - total / n == (n * high - total) / n;
  }

  lemma {:induction false} SumAtLeast(xs: seq<real>, low: real)
    requires forall k :: 0 <= k < |xs| ==> xs[k] >= low
    ensures Sum(xs) >= |xs| as real * low
  {
    if xs != [] {
      var init := xs[..|xs| - 1];
      assert forall k :: 0 <= k < |init| ==> init[k] == xs[k];
      SumAtLeast(init, low);
      assert Sum(xs) == Sum(init) + xs[|xs| - 1];
      AddAtLeast(Sum(init), xs[|xs| - 1], |init| as real, low);
      assert |xs| as real == |init| as real + 1.0;
    }
  }

  lemma {:induction false} SumAtMost(xs: seq<real>, high: real)
    requires forall k :: 0 <= k < |xs| ==> xs[k] <= high
    ensures Sum(xs) <= |xs| as real * high
  {
    if xs != [] {
      var init := xs[..|xs| - 1];
      assert forall k :: 0 <= k < |init| ==> init[k] == xs[k];
      SumAtMost(init, high);
      assert Sum(xs) == Sum(init) + xs[|xs| - 1];
      AddAtMost(Sum(init), xs[|xs| - 1], |init| as real, high);
      assert |xs| as real == |init| as real + 1.0;
    }
  }

  /** With every estimate at least a whole `low`, so is the average. */
  lemma AverageAtLeast(salaries: seq<real>, low: int)
    requires salaries != []
    requires forall k :: 0 <= k < |salaries| ==> low as real <= salaries[k]
    ensures low <= AverageSalary(salaries)
  {
    SumAtLeast(salaries, low as real);
    DivAtLeast(Sum(salaries), |salaries| as real, low as real);
  }

  /** With every estimate non-negative and at most `high`, so is the average. */
  lemma AverageAtMost(salaries: seq<real>, high: real)
    requires salaries != []
    requires forall k :: 0 <= k < |salaries| ==> 0.0 <= salaries[k] <= high
    ensures AverageSalary(salaries) as real <= high
  {
    SumAtLeast(salaries, 0.0);
    SumAtMost(salaries, high);
    DivAtMost(Sum(salaries), |salaries| as real, high);
  }

  /** The average does not depend on the order of the estimates. */
  lemma SummariseOrderIndependent(xs: seq<real>, ys: seq<real>, vacanciesCount: int)
    requires multiset(xs) == multiset(ys)
    ensures Summarise(xs, vacanciesCount) == Summarise(ys, vacanciesCount)
  {
    SumPermutation(xs, ys);
    assert |xs| == |multiset(xs)| == |ys|;
  }
}
