/**
 * The SuperJob aggregator of main.py (`process_superjob_vacancies`). A
 * listing carries its payment bounds directly and no currency: every
 * listing is estimated.
 */
module SuperJob {
  import opened Wrappers
  import opened Estimator
  import opened Aggregation

  /** A listing, reduced to the two fields the aggregator reads (missing keys are `None`). */
  datatype SjVacancy = SjVacancy(paymentFrom: Option<int>, paymentTo: Option<int>)

  /** The listing's estimate; there is no currency filter. */
  function SjEstimate(job: SjVacancy): (r: Option<real>)
    ensures r.Some? <==> Present(job.paymentFrom) || Present(job.paymentTo)
  {
    CalculateSalary(job.paymentFrom, job.paymentTo)
  }

  /** The statistics `process_superjob_vacancies` returns, as a function of its arguments. */
  function SjStats(vacancies: seq<SjVacancy>, vacanciesCount: int): (r: LanguageStats)
    ensures r.vacanciesFound == vacanciesCount
    ensures r.vacanciesProcessed <= |vacancies|
  {
    Summarise(Collect(vacancies, SjEstimate), vacanciesCount)
  }

  /**
   * The loop of `process_superjob_vacancies`: it appends every usable
   * estimate to `salaries`, then counts them and averages them.
   */
  method ProcessSuperjobVacancies(vacancies: seq<SjVacancy>, vacanciesCount: int) returns (stats: LanguageStats)
    ensures stats == SjStats(vacancies, vacanciesCount)
    ensures stats.vacanciesProcessed == |UsableIndices(vacancies, SjEstimate)|
  {
    var salaries: seq<real> := [];
    for i := 0 to |vacancies|
      invariant salaries == Collect(vacancies[..i], SjEstimate)
    {
      var job := vacancies[i];
      var expectedSalary := CalculateSalary(job.paymentFrom, job.paymentTo);
      if Usable(expectedSalary) {
        salaries := salaries + [expectedSalary.value];
      }
      assert vacancies[..i + 1][..i] == vacancies[..i];
    }
    assert vacancies[..|vacancies|] == vacancies;
    ProcessedCountsUsable(vacancies, SjEstimate);
    stats := Summarise(salaries, vacanciesCount);
  }

  /** A listing with neither bound given is never processed. */
  lemma SjNoBoundsIgnored(before: seq<SjVacancy>, job: SjVacancy, after: seq<SjVacancy>, vacanciesCount: int)
    requires !Present(job.paymentFrom) && !Present(job.paymentTo)
    ensures SjStats(before + [job] + after, vacanciesCount) == SjStats(before + after, vacanciesCount)
  {
    CollectSkipsUnusable(before, job, after, SjEstimate);
  }

  /** Reordering the listings changes neither the processed count nor the average. */
  lemma SjOrderIndependent(xs: seq<SjVacancy>, ys: seq<SjVacancy>, vacanciesCount: int)
    requires multiset(xs) == multiset(ys)
    ensures SjStats(xs, vacanciesCount) == SjStats(ys, vacanciesCount)
  {
    CollectPermutation(xs, ys, SjEstimate);
    SummariseOrderIndependent(Collect(xs, SjEstimate), Collect(ys, SjEstimate), vacanciesCount);
  }

  /** No payment bound in the listings is negative. */
  predicate SjNonNegative(vacancies: seq<SjVacancy>)
  {
    forall i :: 0 <= i < |vacancies| ==>
      NonNegative(vacancies[i].paymentFrom) && NonNegative(vacancies[i].paymentTo)
  }

  /**
   * With non-negative bounds the average is positive exactly when something
   * was processed.
   */
  lemma SjAverageZeroIffNoneProcessed(vacancies: seq<SjVacancy>, vacanciesCount: int)
    requires SjNonNegative(vacancies)
    ensures SjStats(vacancies, vacanciesCount).averageSalary >= 0
    ensures SjStats(vacancies, vacanciesCount).averageSalary == 0 <==>
      SjStats(vacancies, vacanciesCount).vacanciesProcessed == 0
  {
    forall i | 0 <= i < |vacancies| && SjEstimate(vacancies[i]).Some?
      ensures SjEstimate(vacancies[i]).value >= 1.0
    {
      EstimateOfNonNegativeBounds(vacancies[i].paymentFrom, vacancies[i].paymentTo);
    }
    var salaries := Collect(vacancies, SjEstimate);
    CollectAtLeast(vacancies, SjEstimate, 1.0);
    if salaries != [] {
      AverageAtLeast(salaries, 1);
    }
  }

  /** With non-negative bounds, when every listing gives a bound, every listing is processed. */
  lemma SjAllBoundedAllProcessed(vacancies: seq<SjVacancy>, vacanciesCount: int)
    requires SjNonNegative(vacancies)
    requires forall i :: 0 <= i < |vacancies| ==> Present(vacancies[i].paymentFrom) || Present(vacancies[i].paymentTo)
    ensures SjStats(vacancies, vacanciesCount).vacanciesProcessed == |vacancies|
  {
    forall i | 0 <= i < |vacancies| ensures Usable(SjEstimate(vacancies[i])) {
      EstimateOfNonNegativeBounds(vacancies[i].paymentFrom, vacancies[i].paymentTo);
    }
    CollectAllUsable(vacancies, SjEstimate);
  }

  /** Payments 1000..2000 and none at all: one processed, average 1500. */
  lemma SjExample(vacanciesCount: int)
    ensures SjStats([SjVacancy(Some(1000), Some(2000)), SjVacancy(None, None)], vacanciesCount)
      == LanguageStats(vacanciesCount, 1, 1500)
  {
    var a := SjVacancy(Some(1000), Some(2000));
    var b := SjVacancy(None, None);
    assert SjEstimate(a) == Some(1500.0);
    assert [a, b][..1] == [a];
    assert [a][..0] == [];
    assert Collect([a, b], SjEstimate) == [1500.0];
    assert [1500.0][..0] == [];
  }
}
