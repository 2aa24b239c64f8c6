/** The stateful side of `InvestmentCalculator`: the projection loop, and the memo
    cache that maps raw inputs to the result computed for them. */
module Calculator {

  import opened Options
  import opened Validation
  import opened Projection

  /** Validates the raw inputs, then runs the year loop, appending to the three
      series and tracking the first year the balance runs dry. */
  method ComputeProjection(inputs: RawInputs) returns (data: Result)
    ensures data == Project(ValidateInputs(inputs))
  {
    var v := ValidateInputs(inputs);
    var portfolioValue := v.initialInvestment + v.annualDeposits;
    var yearlyExpensesAdjusted := v.yearlyExpenses;
    var isPortfolioSustainable := true;
    var depletionYear: Option<nat> := None;
    var nominal := [portfolioValue];
    var expenses := [yearlyExpensesAdjusted];
    var yearlyBreakdown := [YearRecord(0, portfolioValue, yearlyExpensesAdjusted, true)];

    var year: nat := 1;
    while year <= v.years
      invariant 1 <= year <= v.years + 1
      invariant Run(v, year - 1) == Result(nominal, expenses, isPortfolioSustainable, depletionYear, yearlyBreakdown)
      invariant portfolioValue == nominal[year - 1]
    {
      ghost var previous := portfolioValue;
      yearlyExpensesAdjusted := Expense(v, year);
      expenses := expenses + [yearlyExpensesAdjusted];

      if portfolioValue > 0.0 {
        var adjustedDeposits := Deposit(v, year);
        portfolioValue := portfolioValue + adjustedDeposits;
        ghost var funded := portfolioValue;
        portfolioValue := portfolioValue * Growth(v);
        NextBalanceInSteps(v, year, previous, funded, portfolioValue);
        portfolioValue := Max(0.0, portfolioValue - yearlyExpensesAdjusted);
        if portfolioValue == 0.0 && isPortfolioSustainable {
          isPortfolioSustainable := false;
          depletionYear := Some(year);
        }
      } else {
        portfolioValue := 0.0;
      }

      nominal := nominal + [portfolioValue];
      yearlyBreakdown := yearlyBreakdown + [YearRecord(year, portfolioValue, yearlyExpensesAdjusted, portfolioValue > 0.0)];
      RunUnfold(v, year);
      year := year + 1;
    }

    data := Result(nominal, expenses, isPortfolioSustainable, depletionYear, yearlyBreakdown);
  }

  /** The calculator object; its only state the engine uses is the memo cache. */
  class InvestmentCalculator {

    /** Results keyed by the raw inputs they were computed from, unnormalised. */
    var cache: map<RawInputs, Result>

    /** Every cached result is the projection of its own key. */
    ghost predicate Valid()
      reads this
    {
      forall k :: k in cache ==> cache[k] == Project(ValidateInputs(k))
    }

    constructor ()
      ensures Valid() && cache == map[]
    {
      cache := map[];
    }

    /** Returns the cached result for `inputs` when there is one; otherwise computes
        the projection, stores it under `inputs` and returns it. */
    method CalculateProjection(inputs: RawInputs) returns (data: Result)
      requires Valid()
      modifies this
      ensures Valid()
      ensures data == Project(ValidateInputs(inputs))
      ensures inputs in cache && cache[inputs] == data
      ensures inputs in old(cache) ==> data == old(cache)[inputs] && cache == old(cache)
      ensures inputs !in old(cache) ==> cache == old(cache)[inputs := data]
    {
      if inputs in cache {
        return cache[inputs];
      }
      data := ComputeProjection(inputs);
      cache := cache[inputs := data];
    }

    /** Discards every cached result. */
    method ClearCache()
      modifies this
      ensures Valid() && cache == map[]
    {
      cache := map[];
    }
  }
}
