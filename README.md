# Investment projection engine, in Dafny

A model of the projection engine of the investment calculator: the class
`InvestmentCalculator` in `js/calculator.js`. It takes seven raw inputs:

- initial investment;
- expected growth rate;
- annual deposits;
- contribution growth rate;
- yearly expenses;
- inflation rate;
- number of years.

It clamps each input into a fixed interval. It then runs a year-by-year loop
that deposits, grows and withdraws. It reports the series of balances, the
series of inflation-adjusted expenses, a per-year breakdown, and whether (and
when) the portfolio ran dry. Results are memoised in a cache keyed by the raw
inputs.

Files:

- `options.dfy`: `Option`, used for raw fields that are missing or NaN and for
  the depletion year that starts out `null`.
- `validation.dfy`: the raw and validated input records and `ValidateInputs`,
  the clamp of `validateInputs` (lines 8-18).
- `projection.dfy`: the pure reference definitions and the proofs. `Balance` is
  the recurrence for one balance. `Expense` is the compounded expense. `Run` is the
  fold that builds the result one loop iteration at a time, exactly as the loop
  does, flag and all. The lemmas tie every entry of `Run`'s result to `Balance`
  and `Expense`, and characterise the sustainability verdict and the depletion year.
- `calculator.dfy`: the imperative part. `ComputeProjection` is the loop of
  `calculateProjection` (lines 28-92) as a `while` loop over local sequences,
  proved equal to the reference fold. The class `InvestmentCalculator` holds the
  cache as a `map` field. Its methods are `CalculateProjection` (lookup, compute,
  store) and `ClearCache`.
- `scenarios.dfy`: worked inputs carried through validation and projection, and
  two callers of the cache.

Arithmetic is exact over `real`. `Pow` is a recursive power that stands in for
`Math.pow`. A raw field is the value `parseFloat` (or `parseInt`, for `years`)
would produce: `Some(x)` for a number, `None` for NaN. The cache key is the raw
record itself, so record equality plays the part of equality of the
`JSON.stringify` strings.

Behaviours of the code a reader may not expect:

- A portfolio that starts at 0 is never marked depleted. The loop only enters the
  branch that can set the flag when the previous balance is positive (lines 61,
  74-80). Such a portfolio is reported sustainable with no depletion year
  (`ZeroStartNeverDepletes`, `ScenarioEmptyPortfolio`).
- "Sustainable" therefore does not mean "the balance never reaches 0". It means
  "the starting balance is 0, or every balance is positive" (`SustainableIff`).
- A `years` of 0 becomes 30, not 1, because `|| 30` is applied before the clamp
  (line 16).
- Cache keys are not normalised (line 22). Inputs that validate alike but differ
  in their raw form occupy separate entries (`CacheKeysAreRaw`).

## Model

| member | source | states |
|---|---|---|
| `Validation.ValidateInputs` | js/calculator.js:8-18 | every validated field lies in its interval (money ≥ 0, growth in [-100, 100], contribution growth in [0, 20], inflation in [-5, 20], years an integer in [1, 150]); a missing/NaN field gives 0, a missing/NaN/zero `years` gives 30, a negative `years` gives 1, one above 150 gives 150, one in [1, 150] is kept |
| `Validation.FloatOr` | js/calculator.js:10-15 | definition of the falsy-value fallback on a parsed float: NaN and 0 give the fallback 0; its facts are stated by `Validation.ValidateInputs` |
| `Validation.IntOr` | js/calculator.js:16 | definition of the falsy-value fallback on a parsed integer: NaN and 0 give the fallback 30; its facts are stated by `Validation.ValidateInputs` |
| `Validation.ValidateKeepsInBoundsValues` | js/calculator.js:10-15 | a raw money or rate value already inside its interval passes through unchanged |
| `Validation.ValidateClampsOutOfBoundsValues` | js/calculator.js:10-15 | a raw value below or above its interval is moved to the nearest end of it |
| `Projection.Pow` | js/calculator.js:58 | the power used for compounding is positive for a positive base and 1 for base 1 |
| `Projection.Expense` | js/calculator.js:58 | a year's expense is never negative for inputs in bounds, and year 0's is the unadjusted expense |
| `Projection.Deposit` | js/calculator.js:63 | definition of the year's deposit, annualDeposits · (1 + contributionGrowthRate/100)^(year-1); its facts are stated by `Projection.ProjectionBalanceStep` |
| `Projection.Growth` | js/calculator.js:69 | definition of the growth factor 1 + expectedGrowthRate/100; its facts are stated by `Projection.ProjectionBalanceStep` |
| `Projection.Closing` | js/calculator.js:66-72 | definition of a positive year's closing balance: deposit added, growth applied, expense withdrawn, floored at 0; its facts are stated by `Projection.ProjectionBalanceStep` |
| `Projection.NextBalance` | js/calculator.js:61-80 | a year's closing balance is never negative, and is 0 when the opening balance is not positive |
| `Projection.Balance` | js/calculator.js:38 | every balance of the recurrence is non-negative (year 0 for inputs in bounds) |
| `Projection.Depleted` | js/calculator.js:61-74 | definition of a depleting year: one that opens on a positive balance and closes at 0; its facts are stated by `Projection.RunDepletion` and `Projection.DepletedUnique` |
| `Projection.Start` | js/calculator.js:38-54 | definition of the result before the loop; its facts are stated by `Projection.ProjectionStart` |
| `Projection.StepYear` | js/calculator.js:56-88 | definition of one loop iteration, including the first-crossing flag test of line 74; its facts are stated by `Projection.RunNominalAt`, `Projection.RunExpensesAt`, `Projection.RunBreakdownAt`, `Projection.RunDepletion` and `Calculator.ComputeProjection` |
| `Projection.Run` | js/calculator.js:43-89 | after n loop iterations the three series each have n+1 entries |
| `Projection.Project` | js/calculator.js:43-89 | the result has `years`+1 entries in `nominal`, `expenses` and `yearlyBreakdown` |
| `Projection.RunNominalAt` | js/calculator.js:61-82 | entry i of `nominal` is the balance the recurrence gives for year i |
| `Projection.RunExpensesAt` | js/calculator.js:58-59 | entry i of `expenses` is the expense compounded for year i |
| `Projection.RunBreakdownAt` | js/calculator.js:48-53 | breakdown entry i is {i, nominal[i], expenses[i], nominal[i] > 0}, and entry 0 is marked sustainable whatever the balance |
| `Projection.RunSeries` | js/calculator.js:43-88 | the three per-index facts for every index of the result |
| `Projection.ProjectionStart` | js/calculator.js:38-54 | nominal[0] = initialInvestment + annualDeposits, expenses[0] = yearlyExpenses, breakdown[0] = {0, nominal[0], expenses[0], true} |
| `Projection.ExpensesIndependentOfBalance` | js/calculator.js:58-59 | the expense series depends only on the base expense and the inflation rate, not on the balance |
| `Projection.ProjectionBalanceStep` | js/calculator.js:56-82 | for every year y of the result: when nominal[y-1] > 0, nominal[y] = max(0, (nominal[y-1] + annualDeposits · (1 + contributionGrowthRate/100)^(y-1)) · (1 + expectedGrowthRate/100) − expenses[y]); when nominal[y-1] ≤ 0, nominal[y] = 0 |
| `Projection.RunStepEntries` | js/calculator.js:56-82 | entry y of `nominal` is the next balance computed from entry y-1, and entry y of `expenses` is the expense of year y |
| `Projection.BalancePinned` | js/calculator.js:78-80 | once the balance is 0 it stays 0 in every later year |
| `Projection.DepletedUnique` | js/calculator.js:74-77 | at most one year turns a positive balance into 0 |
| `Projection.ProjectionNonNegativeAndPinned` | js/calculator.js:61-82 | every entry of `nominal` is ≥ 0, and after an entry of 0 every later entry is 0 |
| `Projection.RunDepletion` | js/calculator.js:40-41 | the flag is false exactly when a depletion year is recorded; that year lies in [1, years], turned a positive balance into 0, and no earlier year did so; with no depletion year, no year did so |
| `Projection.ProjectionDepletionShape` | js/calculator.js:74-80 | with depletion year d, nominal[0..d-1] are positive and nominal[d..years] are 0 |
| `Projection.FlagStillSetWhilePositive` | js/calculator.js:74 | while the balance is positive the flag is still true, so the flag test of the depletion check never decides the outcome |
| `Projection.NoDepletionStaysPositive` | js/calculator.js:61-77 | from a positive start, a horizon with no depletion year keeps every balance positive |
| `Projection.SustainableIff` | js/calculator.js:91-92 | the portfolio is reported sustainable iff its starting balance is 0 or every balance of the horizon is positive |
| `Projection.ZeroStartNeverDepletes` | js/calculator.js:78-80 | a portfolio that starts at 0 stays at 0, is reported sustainable, and has no depletion year |
| `Projection.IdleBalance` | js/calculator.js:61-72 | with no growth, deposits or expenses the balance stays the initial investment in every year |
| `Calculator.ComputeProjection` | js/calculator.js:28-92 | the loop over years 1..years builds exactly the reference result for the validated inputs |
| `Calculator.InvestmentCalculator.constructor` | js/calculator.js:2-6 | a new calculator has an empty cache |
| `Calculator.InvestmentCalculator.CalculateProjection` | js/calculator.js:20-26 | the result is the projection of the validated inputs; afterwards the cache maps the raw inputs to it; a hit returns the stored result and leaves the cache unchanged; a miss adds that one entry and changes no other; every cached result stays the projection of its key |
| `Calculator.InvestmentCalculator.ClearCache` | js/calculator.js:103-105 | the cache is left empty |
| `Scenarios.ScenarioIdle` | js/calculator.js:56-89 | 1000 invested with no growth, deposits or expenses over 5 years: six balances of 1000, sustainable, no depletion year |
| `Scenarios.ScenarioEmptyPortfolio` | js/calculator.js:78-80 | nothing invested, 100 of expenses a year, 3 years: balances all 0, expenses all 100, reported sustainable with no depletion year |
| `Scenarios.ScenarioDepleted` | js/calculator.js:72-77 | 100 invested, 100 of expenses a year, 3 years: balances 100, 0, 0, 0; unsustainable; depletion year 1 |
| `Scenarios.ScenarioOneYear` | js/calculator.js:58-72 | 10000 at 7%, deposits 1000 at 2%, expenses 500 at 3%, 1 year: year-1 balance 12325, year-1 expense 515 |
| `Scenarios.ScenarioOutOfRange` | js/calculator.js:11-16 | 200 years validate to 150 and a growth rate of 150 to 100 |
| `Scenarios.RepeatedCallHitsCache` | js/calculator.js:22-26 | two calls with the same inputs return the same result, and the cache gains only that one entry |
| `Scenarios.ZeroYearsValidateAsMissing` | js/calculator.js:16 | whatever the other fields, a `years` of 0 validates exactly as a missing `years` |
| `Scenarios.CacheKeysAreRaw` | js/calculator.js:22 | a missing `years` and a `years` of 0 validate alike but take two cache entries |

## Left out

- `debounce` and the `debounceTimeout` field (lines 98-101): timer scheduling through the host event loop.
- The `console.log` calls: they print and change no state.
- Floating-point rounding: `Math.pow`, `*` and `-` are exact real arithmetic here. Infinity, which `parseFloat` can return and `Math.max` passes through, is not representable.
- String parsing by `parseFloat`/`parseInt`: raw fields arrive already parsed, with NaN as `None`.
- `JSON.stringify` of the key: the key is the parsed raw record, so it merges keys that the string keeps apart. A string `"30"` and a number `30`, the same fields in a different property order, an object with extra properties, and a NaN field (written `null`) against a missing one are distinct keys in the source but one key here; the model's cache therefore hits in some cases where the source's misses. Key differences that survive parsing, such as a missing `years` against a `years` of 0, are kept.
- The reverse case of the key: `JSON.stringify` writes both Infinity and NaN as `null`, so the source can answer a later NaN input with the result cached for an Infinity input. Infinity is not representable here, so this is not modelled.
- Aliasing of cached results: the source returns the stored object itself, and a caller that changed it would change the cache. Results here are immutable values.
- The UI: `main.js`, `js/main.js`, `chart.js` and `js/chart.js` (DOM access, input formatting, chart rendering).
