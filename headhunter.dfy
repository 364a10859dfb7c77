/**
 * The HeadHunter aggregator of main.py (`process_hh_vacancies`). A listing
 * carries an optional salary block with a lower bound, an upper bound and a
 * currency code; only blocks in roubles are estimated.
 */
module HeadHunter {
  import opened Wrappers
  import opened Estimator
  import opened Aggregation

  /** The one currency whose salaries are averaged. */
  const Rouble: string := "RUR"

  /** A salary block; the keys are always there, their bounds may be null. */
  datatype HhSalary = HhSalary(paymentFrom: Option<int>, paymentTo: Option<int>, currency: string)

  /** A listing, reduced to the one field the aggregator reads. */
  datatype HhVacancy = HhVacancy(salary: Option<HhSalary>)

  /** The listing's estimate: nothing without a salary block or outside roubles. */
  function HhEstimate(vacancy: HhVacancy): (r: Option<real>)
    ensures r.Some? <==>
      && vacancy.salary.Some?
      && vacancy.salary.value.currency == Rouble
      && (Present(vacancy.salary.value.paymentFrom) || Present(vacancy.salary.value.paymentTo))
  {
    match vacancy.salary
    case None => None
    case Some(salary) =>
      if salary.currency == Rouble then CalculateSalary(salary.paymentFrom, salary.paymentTo) else None
  }

  /** The statistics `process_hh_vacancies` returns, as a function of its arguments. */
  function HhStats(vacancies: seq<HhVacancy>, vacanciesCount: int): (r: LanguageStats)
    ensures r.vacanciesFound == vacanciesCount
    ensures r.vacanciesProcessed <= |vacancies|
  {
    Summarise(Collect(vacancies, HhEstimate), vacanciesCount)
  }

  /**
   * The loop of `process_hh_vacancies`: it appends every usable rouble
   * estimate to `salaries`, then counts them and averages them.
   */
  method ProcessHhVacancies(vacancies: seq<HhVacancy>, vacanciesCount: int) returns (stats: LanguageStats)
    ensures stats == HhStats(vacancies, vacanciesCount)
    ensures stats.vacanciesProcessed == |UsableIndices(vacancies, HhEstimate)|
  {
    var salaries: seq<real> := [];
    for i := 0 to |vacancies|
      invariant salaries == Collect(vacancies[..i], HhEstimate)
    {
      var salary := vacancies[i].salary;
      if salary.Some? && salary.value.currency == Rouble {
        var expectedSalary := CalculateSalary(salary.value.paymentFrom, salary.value.paymentTo);
        if Usable(expectedSalary) {
          salaries := salaries + [expectedSalary.value];
        }
      }
      assert vacancies[..i + 1][..i] == vacancies[..i];
    }
    assert vacancies[..|vacancies|] == vacancies;
    ProcessedCountsUsable(vacancies, HhEstimate);
    stats := Summarise(salaries, vacanciesCount);
  }

  /** A listing with no salary block, or one outside roubles, is never processed. */
  lemma HhOtherCurrencyIgnored(before: seq<HhVacancy>, vacancy: HhVacancy, after: seq<HhVacancy>, vacanciesCount: int)
    requires vacancy.salary.None? || vacancy.salary.value.currency != Rouble
    ensures HhStats(before + [vacancy] + after, vacanciesCount) == HhStats(before + after, vacanciesCount)
  {
    CollectSkipsUnusable(before, vacancy, after, HhEstimate);
  }

  /** Reordering the listings changes neither the processed count nor the average. */
  lemma HhOrderIndependent(xs: seq<HhVacancy>, ys: seq<HhVacancy>, vacanciesCount: int)
    requires multiset(xs) == multiset(ys)
    ensures HhStats(xs, vacanciesCount) == HhStats(ys, vacanciesCount)
  {
    CollectPermutation(xs, ys, HhEstimate);
    SummariseOrderIndependent(Collect(xs, HhEstimate), Collect(ys, HhEstimate), vacanciesCount);
  }

  /** No salary bound of a rouble listing is negative; other currencies are unconstrained. */
  predicate HhNonNegative(vacancies: seq<HhVacancy>)
  {
    forall i :: 0 <= i < |vacancies| && vacancies[i].salary.Some? && vacancies[i].salary.value.currency == Rouble ==>
      NonNegative(vacancies[i].salary.value.paymentFrom) && NonNegative(vacancies[i].salary.value.paymentTo)
  }

  /**
   * With non-negative bounds the average is positive exactly when something
   * was processed.
   */
  lemma HhAverageZeroIffNoneProcessed(vacancies: seq<HhVacancy>, vacanciesCount: int)
    requires HhNonNegative(vacancies)
    ensures HhStats(vacancies, vacanciesCount).averageSalary >= 0
    ensures HhStats(vacancies, vacanciesCount).averageSalary == 0 <==>
      HhStats(vacancies, vacanciesCount).vacanciesProcessed == 0
  {
    forall i | 0 <= i < |vacancies| && HhEstimate(vacancies[i]).Some?
      ensures HhEstimate(vacancies[i]).value >= 1.0
    {
      var s := vacancies[i].salary.value;
      EstimateOfNonNegativeBounds(s.paymentFrom, s.paymentTo);
    }
    var salaries := Collect(vacancies, HhEstimate);
    CollectAtLeast(vacancies, HhEstimate, 1.0);
    if salaries != [] {
      AverageAtLeast(salaries, 1);
    }
  }

  /** An empty listing gives the found count, nothing processed, average 0. */
  lemma HhEmpty(vacanciesCount: int)
    ensures HhStats([], vacanciesCount) == LanguageStats(vacanciesCount, 0, 0)
  {
  }

  /**
   * Roubles 100..200 and ..50 are processed (estimates 150 and 50), the
   * dollar listing is not: two processed, average 100, ten found.
   */
  lemma HhExample()
    ensures HhStats([
      HhVacancy(Some(HhSalary(Some(100), Some(200), "RUR"))),
      HhVacancy(Some(HhSalary(None, Some(50), "RUR"))),
      HhVacancy(Some(HhSalary(Some(300), None, "USD")))], 10) == LanguageStats(10, 2, 100)
  {
    var a := HhVacancy(Some(HhSalary(Some(100), Some(200), "RUR")));
    var b := HhVacancy(Some(HhSalary(None, Some(50), "RUR")));
    var c := HhVacancy(Some(HhSalary(Some(300), None, "USD")));
    assert Collect([a, b, c], HhEstimate) == [150.0, 50.0] by {
      assert HhEstimate(a) == Some(150.0);
      assert HhEstimate(b) == Some(50.0);
      assert HhEstimate(c) == None;
      assert [a, b, c][..2] == [a, b];
      assert [a, b][..1] == [a];
      assert [a][..0] == [];
    }
    assert Sum([150.0, 50.0]) == 200.0 by {
      assert [150.0, 50.0][..1] == [150.0];
      assert [150.0][..0] == [];
    }
  }
}
