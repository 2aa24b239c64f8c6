/** Input validation of the investment calculator: seven raw, possibly missing
    or unparseable values are clamped into fixed intervals.

    A raw field is the value `parseFloat` (or, for `years`, `parseInt`) produced:
    `None` stands for NaN, which is also what a missing field parses to. */
module Validation {

  import opened Options

  /** The raw inputs as the form hands them over; this record is also the cache key. */
  datatype RawInputs = RawInputs(
    initialInvestment: Option<real>,
    expectedGrowthRate: Option<real>,
    annualDeposits: Option<real>,
    contributionGrowthRate: Option<real>,
    yearlyExpenses: Option<real>,
    inflationRate: Option<real>,
    years: Option<int>)

  /** The validated inputs the projection runs on. Rates are percentages. */
  datatype Inputs = Inputs(
    initialInvestment: real,
    expectedGrowthRate: real,
    annualDeposits: real,
    contributionGrowthRate: real,
    yearlyExpenses: real,
    inflationRate: real,
    years: int)

  /** The interval every validated field lies in. */
  predicate InBounds(v: Inputs) {
    && v.initialInvestment >= 0.0
    && -100.0 <= v.expectedGrowthRate <= 100.0
    && v.annualDeposits >= 0.0
    && 0.0 <= v.contributionGrowthRate <= 20.0
    && v.yearlyExpenses >= 0.0
    && -5.0 <= v.inflationRate <= 20.0
    && 1 <= v.years <= 150
  }

  function Max(a: real, b: real): real { if a >= b then a else b }

  function Min(a: real, b: real): real { if a <= b then a else b }

  function MaxInt(a: int, b: int): int { if a >= b then a else b }

  function MinInt(a: int, b: int): int { if a <= b then a else b }

  /** `parsed || fallback` on a parsed float: NaN and 0 are falsy and give the fallback. */
  function FloatOr(parsed: Option<real>, fallback: real): real {
    if parsed == None || parsed == Some(0.0) then fallback else parsed.value
  }

  /** `parsed || fallback` on a parsed integer: NaN and 0 are falsy and give the fallback. */
  function IntOr(parsed: Option<int>, fallback: int): int {
    if parsed == None || parsed == Some(0) then fallback else parsed.value
  }

  /** Clamps every raw field into its interval; missing and NaN fields take the
      default (0 for money and rates, 30 for years), and so does a zero `years`. */
  function ValidateInputs(raw: RawInputs): (v: Inputs)
    ensures InBounds(v)
    ensures raw.years == None || raw.years == Some(0) ==> v.years == 30
    ensures raw.years.Some? && raw.years.value < 0 ==> v.years == 1
    ensures raw.years.Some? && raw.years.value > 150 ==> v.years == 150
    ensures raw.years.Some? && 1 <= raw.years.value <= 150 ==> v.years == raw.years.value
    ensures raw.initialInvestment == None ==> v.initialInvestment == 0.0
    ensures raw.expectedGrowthRate == None ==> v.expectedGrowthRate == 0.0
    ensures raw.annualDeposits == None ==> v.annualDeposits == 0.0
    ensures raw.contributionGrowthRate == None ==> v.contributionGrowthRate == 0.0
    ensures raw.yearlyExpenses == None ==> v.yearlyExpenses == 0.0
    ensures raw.inflationRate == None ==> v.inflationRate == 0.0
  {
    Inputs(
      Max(0.0, FloatOr(raw.initialInvestment, 0.0)),
      Max(-100.0, Min(100.0, FloatOr(raw.expectedGrowthRate, 0.0))),
      Max(0.0, FloatOr(raw.annualDeposits, 0.0)),
      Max(0.0, Min(20.0, FloatOr(raw.contributionGrowthRate, 0.0))),
      Max(0.0, FloatOr(raw.yearlyExpenses, 0.0)),
      Max(-5.0, Min(20.0, FloatOr(raw.inflationRate, 0.0))),
      MaxInt(1, MinInt(150, IntOr(raw.years, 30))))
  }

  /** A raw value already inside its interval passes through validation unchanged. */
  lemma ValidateKeepsInBoundsValues(raw: RawInputs, x: real)
    ensures raw.initialInvestment == Some(x) && x >= 0.0 ==> ValidateInputs(raw).initialInvestment == x
    ensures raw.expectedGrowthRate == Some(x) && -100.0 <= x <= 100.0 ==> ValidateInputs(raw).expectedGrowthRate == x
    ensures raw.annualDeposits == Some(x) && x >= 0.0 ==> ValidateInputs(raw).annualDeposits == x
    ensures raw.contributionGrowthRate == Some(x) && 0.0 <= x <= 20.0 ==> ValidateInputs(raw).contributionGrowthRate == x
    ensures raw.yearlyExpenses == Some(x) && x >= 0.0 ==> ValidateInputs(raw).yearlyExpenses == x
    ensures raw.inflationRate == Some(x) && -5.0 <= x <= 20.0 ==> ValidateInputs(raw).inflationRate == x
  {
  }

  /** A raw value outside its interval is moved to the nearest end of it. */
  lemma ValidateClampsOutOfBoundsValues(raw: RawInputs, x: real)
    ensures raw.initialInvestment == Some(x) && x < 0.0 ==> ValidateInputs(raw).initialInvestment == 0.0
    ensures raw.expectedGrowthRate == Some(x) && x < -100.0 ==> ValidateInputs(raw).expectedGrowthRate == -100.0
    ensures raw.expectedGrowthRate == Some(x) && x > 100.0 ==> ValidateInputs(raw).expectedGrowthRate == 100.0
    ensures raw.annualDeposits == Some(x) && x < 0.0 ==> ValidateInputs(raw).annualDeposits == 0.0
    ensures raw.contributionGrowthRate == Some(x) && x < 0.0 ==> ValidateInputs(raw).contributionGrowthRate == 0.0
    ensures raw.contributionGrowthRate == Some(x) && x > 20.0 ==> ValidateInputs(raw).contributionGrowthRate == 20.0
    ensures raw.yearlyExpenses == Some(x) && x < 0.0 ==> ValidateInputs(raw).yearlyExpenses == 0.0
    ensures raw.inflationRate == Some(x) && x < -5.0 ==> ValidateInputs(raw).inflationRate == -5.0
    ensures raw.inflationRate == Some(x) && x > 20.0 ==> ValidateInputs(raw).inflationRate == 20.0
  {
  }
}
