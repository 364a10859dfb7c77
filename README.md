# language_salary: salary estimation and aggregation

A Dafny model of the rule set at the heart of `main.py`: the script
fetches vacancy listings per programming language from HeadHunter and
SuperJob, estimates one salary per listing and reports, per language and
source, how many vacancies were found, how many yielded a salary, and
their average salary.

- `Estimator` (estimator.dfy): `calculate_salary`. Payment bounds are
  `Option<int>`; a bound counts as given only when Python would find it
  truthy (present and non-zero). The estimate is exact (`real`): the
  midpoint of two given bounds, the single given bound, or nothing.
- `Aggregation` (aggregation.dfy): what both aggregators share. `Collect`
  is the list of usable (truthy) estimates in listing order, `Sum` is
  Python's `sum`, `TruncToZero` is Python's `int(...)` on a float, and
  `Summarise` builds the result record. It holds the general lemmas:
  the processed count equals the number of listings with a usable
  estimate, unusable listings change nothing, and the result does not
  depend on the order of the listings.
- `HeadHunter` (headhunter.dfy): `process_hh_vacancies`. Only listings
  with a salary block in `RUR` are estimated. `ProcessHhVacancies` is the
  source's loop over the listings, proved equal to the function `HhStats`.
- `SuperJob` (superjob.dfy): `process_superjob_vacancies`, the same fold
  with no currency filter. `ProcessSuperjobVacancies` is its loop, proved
  equal to `SjStats`.
- `Wrappers` (wrappers.dfy): the `Option` type for nullable JSON fields.

Arithmetic is exact. The source divides in floating point. Bounds may be
any integers. The lemmas that need the recruitment sites' non-negative
bounds (the average is 0 exactly when nothing was processed) take that as
a precondition. With negative bounds a midpoint can be 0 (bounds -5 and 5),
and such a listing is skipped like one without bounds, as the source's
truthiness test does.

## Model

| member | source | states |
|---|---|---|
| `Estimator.Present` | main.py:88-92 | definition, no contract: Python truthiness of an int-or-null bound, falsy exactly for null and 0, as `if payment_from:` tests it |
| `Estimator.Usable` | main.py:75 | definition, no contract: Python truthiness of an estimate, falsy exactly for None and 0, as `if expected_salary:` tests it (also main.py:103) |
| `Estimator.CalculateSalary` | main.py:87-94 | an estimate exists iff at least one bound is truthy; with both it is equidistant from them (their exact midpoint); with only one it is that bound |
| `Estimator.EstimateOfNonNegativeBounds` | main.py:87-94 | with non-negative bounds an estimate is at least 1, hence truthy, and lies between the two given bounds |
| `Aggregation.Collect` | main.py:68-76 | the collected salaries are never more than the listings and none of them is 0 |
| `Aggregation.Sum` | main.py:78 | `sum(salaries)`, added left to right exactly; non-negative for non-negative salaries (order-independent by `SumPermutation`) |
| `Aggregation.TruncToZero` | main.py:78 | `int(x)`: the integer part of x, rounded toward zero for either sign |
| `Aggregation.AverageSalary` | main.py:78 | 0 for no salaries; otherwise the mean of the salaries truncated toward zero |
| `Aggregation.ProcessedCountsUsable` | main.py:69-77 | the processed count equals the number of listing positions whose estimate is truthy |
| `Aggregation.CollectAllUsable` | main.py:69-77 | when every listing's estimate is truthy, every listing is processed |
| `Aggregation.CollectSkipsUnusable` | main.py:75-76 | a listing whose estimate is not truthy leaves the collected salaries unchanged wherever it stands |
| `Aggregation.CollectPermutation` | main.py:69-76 | permuting the listings permutes the collected salaries |
| `Aggregation.CollectAtLeast` | main.py:69-76 | a lower bound on every estimate is a lower bound on every collected salary |
| `Aggregation.SumPermutation` | main.py:78 | the exact sum of the salaries does not depend on their order |
| `Aggregation.AverageAtLeast` | main.py:78 | salaries all at least a whole bound (of either sign) give an average at least that bound |
| `Aggregation.AverageAtMost` | main.py:78 | non-negative salaries all at most a bound give an average at most that bound |
| `Aggregation.Summarise` | main.py:77-83 | the returned record: found count passed through, processed count `len(salaries)`, average 0 when nothing was processed |
| `Aggregation.SummariseOrderIndependent` | main.py:77-82 | permuted salary lists give the same result record |
| `HeadHunter.HhEstimate` | main.py:70-74 | a listing has an estimate iff it has a salary block in RUR with a truthy bound |
| `HeadHunter.HhStats` | main.py:67-83 | the found count is passed through unchanged and the processed count is at most the number of listings |
| `HeadHunter.ProcessHhVacancies` | main.py:67-83 | the loop's result equals `HhStats`, and its processed count is the number of listings with a truthy RUR estimate |
| `HeadHunter.HhOtherCurrencyIgnored` | main.py:70-71 | a listing without a salary block or outside RUR changes nothing in the result |
| `HeadHunter.HhOrderIndependent` | main.py:69-78 | permuting the listings leaves the result unchanged |
| `HeadHunter.HhAverageZeroIffNoneProcessed` | main.py:77-78 | with non-negative bounds on the RUR listings (other currencies unconstrained) the average is non-negative and is 0 exactly when nothing was processed |
| `HeadHunter.HhEmpty` | main.py:77-82 | no listings: the found count, 0 processed, average 0 |
| `HeadHunter.HhExample` | main.py:67-83 | RUR 100..200, RUR ..50 and USD 300.. with 10 found give 10 found, 2 processed, average 100 |
| `SuperJob.SjEstimate` | main.py:100-102 | a listing has an estimate iff one of its payment bounds is truthy |
| `SuperJob.SjStats` | main.py:97-111 | the found count is passed through unchanged and the processed count is at most the number of listings |
| `SuperJob.ProcessSuperjobVacancies` | main.py:97-111 | the loop's result equals `SjStats`, and its processed count is the number of listings with a truthy estimate |
| `SuperJob.SjNoBoundsIgnored` | main.py:100-104 | a listing with neither bound truthy changes nothing in the result |
| `SuperJob.SjOrderIndependent` | main.py:99-106 | permuting the listings leaves the result unchanged |
| `SuperJob.SjAverageZeroIffNoneProcessed` | main.py:105-106 | with non-negative bounds the average is non-negative and is 0 exactly when nothing was processed |
| `SuperJob.SjAllBoundedAllProcessed` | main.py:99-105 | with non-negative bounds, listings that all give a bound are all processed |
| `SuperJob.SjExample` | main.py:97-111 | payments 1000..2000 and none give 1 processed and average 1500 |

## Left out

- `get_hh_vacancies` and `get_superjob_vacancies` (main.py:9-64): HTTP paging, `time.sleep` and the current date. They are network I/O. The aggregators take their listings and found count as parameters.
- `print_salary_table` (main.py:114-119) and the `__main__` driver (main.py:121-137): table output, environment loading and the fixed language list.
- Floating-point behaviour of `/ 2` and `sum(...)/n` (main.py:89, main.py:78, main.py:106): the model computes exactly, with `real`. So it has neither the rounding nor the `OverflowError` Python raises when an integer operand is too large for a float. The rounding does happen for ordinary salaries: a total of 200 over 3 listings gives 66.66666666666667. Every midpoint and every partial sum is an exact multiple of 0.5. Each is exact as a float while it stays below 2^52 in magnitude. So the truncated average agrees with the model's exact truncation while every bound, every salary and every partial sum stays below 2^52 in magnitude. For non-negative salaries that means while the total does. With very large bounds of mixed sign the two can differ: SuperJob bounds 2^61..5 and -2^60 give 0 in Python, but the model's exact total is 2.5, so it gives 1.
- Bounds that are JSON floats rather than integers: bounds are modelled as integers.
- The `KeyError` raised when a salary block lacks `from`, `to` or `currency`: a salary block always has these keys in the model, with possibly null bounds.
- A null `currency`: it is represented by any string other than `RUR`, which the source treats the same way.
