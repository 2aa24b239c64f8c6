/** Worked inputs, carried from the raw record through validation to the projection,
    and two uses of the cache seen from a caller. */
module Scenarios {

  import opened Options
  import opened Validation
  import opened Projection
  import opened Calculator

  /** 1000 invested, nothing else, over 5 years: the balance never moves. */
  lemma ScenarioIdle()
    ensures var r := Project(ValidateInputs(RawInputs(Some(1000.0), Some(0.0), Some(0.0), Some(0.0), Some(0.0), Some(0.0), Some(5))));
      && r.nominal == [1000.0, 1000.0, 1000.0, 1000.0, 1000.0, 1000.0]
      && r.isPortfolioSustainable && r.depletionYear == None
  {
    var v := ValidateInputs(RawInputs(Some(1000.0), Some(0.0), Some(0.0), Some(0.0), Some(0.0), Some(0.0), Some(5)));
    assert v == Inputs(1000.0, 0.0, 0.0, 0.0, 0.0, 0.0, 5);
    RunSeries(v, 5);
    forall i | 0 <= i <= 5
      ensures Balance(v, i) == 1000.0
    {
      IdleBalance(v, i);
    }
    SustainableIff(v, 5);
    RunDepletion(v, 5);
  }

  /** Nothing invested and 100 of expenses a year over 3 years: the balance is 0
      throughout, yet, because it never was positive, no depletion year is recorded
      and the portfolio is reported sustainable. */
  lemma ScenarioEmptyPortfolio()
    ensures var r := Project(ValidateInputs(RawInputs(Some(0.0), Some(0.0), Some(0.0), Some(0.0), Some(100.0), Some(0.0), Some(3))));
      && r.nominal == [0.0, 0.0, 0.0, 0.0]
      && r.expenses == [100.0, 100.0, 100.0, 100.0]
      && r.isPortfolioSustainable && r.depletionYear == None
  {
    var v := ValidateInputs(RawInputs(Some(0.0), Some(0.0), Some(0.0), Some(0.0), Some(100.0), Some(0.0), Some(3)));
    assert v == Inputs(0.0, 0.0, 0.0, 0.0, 100.0, 0.0, 3);
    ZeroStartNeverDepletes(v, 3);
    RunSeries(v, 3);
  }

  /** 100 invested and 100 of expenses a year over 3 years: the first year uses the
      balance up, and year 1 is recorded as the depletion year. */
  lemma ScenarioDepleted()
    ensures var r := Project(ValidateInputs(RawInputs(Some(100.0), None, None, None, Some(100.0), None, Some(3))));
      && r.nominal == [100.0, 0.0, 0.0, 0.0]
      && !r.isPortfolioSustainable && r.depletionYear == Some(1)
  {
    var v := ValidateInputs(RawInputs(Some(100.0), None, None, None, Some(100.0), None, Some(3)));
    assert v == Inputs(100.0, 0.0, 0.0, 0.0, 100.0, 0.0, 3);
    DepletedRun(v);
  }

  /** The depleting scenario on the validated inputs. */
  lemma DepletedRun(v: Inputs)
    requires v.initialInvestment == 100.0 && v.annualDeposits == 0.0 && v.yearlyExpenses == 100.0
    requires v.expectedGrowthRate == 0.0 && v.contributionGrowthRate == 0.0 && v.inflationRate == 0.0
    requires v.years == 3
    ensures Run(v, 3).nominal == [100.0, 0.0, 0.0, 0.0]
    ensures !Run(v, 3).isPortfolioSustainable && Run(v, 3).depletionYear == Some(1)
  {
    DepletedInFirstYear(v);
    RunDepletion(v, 3);
    DepletedUnique(v, 1, Run(v, 3).depletionYear.value);
    ProjectionDepletionShape(v, 3);
    ProjectionStart(v, 3);
    var r := Run(v, 3);
    assert r.nominal[0] == 100.0 && r.nominal[1] == 0.0 && r.nominal[2] == 0.0 && r.nominal[3] == 0.0;
  }

  /** With those inputs the first year ends at 0. */
  lemma DepletedInFirstYear(v: Inputs)
    requires v.initialInvestment == 100.0 && v.annualDeposits == 0.0 && v.yearlyExpenses == 100.0
    requires v.expectedGrowthRate == 0.0 && v.contributionGrowthRate == 0.0 && v.inflationRate == 0.0
    ensures Depleted(v, 1)
  {
    BalanceStep(v, 1);
  }

  /** 10000 invested at 7% growth, 1000 deposited at 2% growth, 500 of expenses at 3%
      inflation, over 1 year: the year-1 balance is (10000 + 1000 + 1000) * 1.07 - 515. */
  lemma ScenarioOneYear()
    ensures var r := Project(ValidateInputs(RawInputs(Some(10000.0), Some(7.0), Some(1000.0), Some(2.0), Some(500.0), Some(3.0), Some(1))));
      && r.nominal == [11000.0, 12325.0]
      && r.expenses == [500.0, 515.0]
      && r.isPortfolioSustainable && r.depletionYear == None
  {
    var v := ValidateInputs(RawInputs(Some(10000.0), Some(7.0), Some(1000.0), Some(2.0), Some(500.0), Some(3.0), Some(1)));
    assert v == Inputs(10000.0, 7.0, 1000.0, 2.0, 500.0, 3.0, 1);
    BalanceStep(v, 1);
    assert Deposit(v, 1) == 1000.0;
    assert Expense(v, 1) == 515.0;
    assert Balance(v, 1) == 12325.0;
    RunSeries(v, 1);
    SustainableIff(v, 1);
    RunDepletion(v, 1);
  }

  /** 200 years and a 150% growth rate are clamped to 150 years and 100%. */
  lemma ScenarioOutOfRange()
    ensures var v := ValidateInputs(RawInputs(None, Some(150.0), None, None, None, None, Some(200)));
      v.years == 150 && v.expectedGrowthRate == 100.0
  {
  }

  /** Asking twice for the same inputs serves the second answer from the cache:
      the same result, and the cache holds one new entry for those inputs only. */
  method RepeatedCallHitsCache(engine: InvestmentCalculator, inputs: RawInputs) returns (first: Result, second: Result)
    requires engine.Valid()
    modifies engine
    ensures engine.Valid()
    ensures engine.cache == old(engine.cache)[inputs := first]
    ensures first == second && second == engine.cache[inputs]
  {
    first := engine.CalculateProjection(inputs);
    second := engine.CalculateProjection(inputs);
  }

  /** Cache keys are the raw inputs, not the validated ones: whatever the other
      fields, a missing `years` and a `years` of 0 both validate to 30 years, yet
      they occupy two cache entries of a fresh calculator. */
  method CacheKeysAreRaw(inputs: RawInputs) returns (entries: nat)
    ensures entries == 2
  {
    var engine := new InvestmentCalculator();
    var missing := inputs.(years := None);
    var zero := inputs.(years := Some(0));
    ZeroYearsValidateAsMissing(inputs);
    var a := engine.CalculateProjection(missing);
    var b := engine.CalculateProjection(zero);
    assert engine.cache.Keys == {missing, zero};
    entries := |engine.cache.Keys|;
  }

  /** A `years` of 0 validates exactly as a missing one. */
  lemma ZeroYearsValidateAsMissing(inputs: RawInputs)
    ensures ValidateInputs(inputs.(years := None)) == ValidateInputs(inputs.(years := Some(0)))
  {
  }
}
