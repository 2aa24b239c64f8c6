/** The year-by-year projection as pure functions: the recurrence for a single
    year's balance, the fold that assembles the result exactly as the loop of
    `calculateProjection` does, and what is proved about that result.
    Arithmetic is exact over `real`; `Pow` stands in for `Math.pow`. */
module Projection {

  import opened Options
  import opened Validation

  /** `b` raised to the natural power `n`. */
  function Pow(b: real, n: nat): (r: real)
    ensures b > 0.0 ==> r > 0.0
    ensures b == 1.0 ==> r == 1.0
  {
    if n == 0 then 1.0 else b * Pow(b, n - 1)
  }

  /** One entry of `yearlyBreakdown`. */
  datatype YearRecord = YearRecord(year: nat, nominal: real, expenses: real, sustainable: bool)

  /** The object `calculateProjection` returns. */
  datatype Result = Result(
    nominal: seq<real>,
    expenses: seq<real>,
    isPortfolioSustainable: bool,
    depletionYear: Option<nat>,
    yearlyBreakdown: seq<YearRecord>)

  /** The inflation-adjusted expense of `year`, compounded from the absolute year index. */
  function Expense(v: Inputs, year: nat): (r: real)
    ensures InBounds(v) ==> r >= 0.0
    ensures year == 0 ==> r == v.yearlyExpenses
  {
    v.yearlyExpenses * Pow(1.0 + v.inflationRate / 100.0, year)
  }

  /** The deposit made at the start of `year` (the first deposit, year 1, is unadjusted). */
  function Deposit(v: Inputs, year: nat): real
    requires year >= 1
  {
    v.annualDeposits * Pow(1.0 + v.contributionGrowthRate / 100.0, year - 1)
  }

  /** The yearly growth factor. */
  function Growth(v: Inputs): real {
    1.0 + v.expectedGrowthRate / 100.0
  }

  /** The closing balance of a year that opens on `prev`: the deposit is added, the
      sum grows by the factor `growth`, and the expense is withdrawn, floored at 0. */
  function Closing(prev: real, deposit: real, growth: real, expense: real): real {
    Max(0.0, (prev + deposit) * growth - expense)
  }

  /** The balance at the end of `year` given the balance `prev` at the end of the
      year before: deposit, then growth, then withdrawal floored at 0; a balance
      that is not positive stays pinned at 0. */
  function NextBalance(v: Inputs, year: nat, prev: real): (r: real)
    requires year >= 1
    ensures r >= 0.0
    ensures prev <= 0.0 ==> r == 0.0
  {
    if prev > 0.0 then Closing(prev, Deposit(v, year), Growth(v), Expense(v, year)) else 0.0
  }

  /** The balance at the end of `year`, by the recurrence alone. */
  function Balance(v: Inputs, year: nat): (r: real)
    ensures year >= 1 || InBounds(v) ==> r >= 0.0
  {
    if year == 0 then v.initialInvestment + v.annualDeposits else NextBalance(v, year, Balance(v, year - 1))
  }

  /** `year` is a year that turned a positive balance into 0. */
  predicate Depleted(v: Inputs, year: nat) {
    year >= 1 && Balance(v, year - 1) > 0.0 && Balance(v, year) == 0.0
  }

  /** The result before the loop: the year-0 entries, marked sustainable by construction. */
  function Start(v: Inputs): Result {
    var balance := v.initialInvestment + v.annualDeposits;
    Result([balance], [v.yearlyExpenses], true, None, [YearRecord(0, balance, v.yearlyExpenses, true)])
  }

  /** One iteration of the loop: append `year`'s entries; the first year that turns a
      positive balance into 0 clears the sustainability flag and records itself. */
  function StepYear(v: Inputs, year: nat, d: Result): Result
    requires year >= 1 && |d.nominal| >= 1
  {
    var prev := d.nominal[|d.nominal| - 1];
    var expense := Expense(v, year);
    var balance := NextBalance(v, year, prev);
    var depletes := prev > 0.0 && balance == 0.0 && d.isPortfolioSustainable;
    Result(
      d.nominal + [balance],
      d.expenses + [expense],
      d.isPortfolioSustainable && !depletes,
      if depletes then Some(year) else d.depletionYear,
      d.yearlyBreakdown + [YearRecord(year, balance, expense, balance > 0.0)])
  }

  /** The result after the first `n` years of the loop. */
  function Run(v: Inputs, n: nat): (r: Result)
    ensures |r.nominal| == n + 1 && |r.expenses| == n + 1 && |r.yearlyBreakdown| == n + 1
  {
    if n == 0 then Start(v) else StepYear(v, n, Run(v, n - 1))
  }

  /** One unfolding of `Run`: the result after `n` years is one loop step past the
      result after `n - 1`. */
  lemma RunUnfold(v: Inputs, n: nat)
    requires n >= 1
    ensures Run(v, n) == StepYear(v, n, Run(v, n - 1))
  {
  }

  /** The projection over the whole horizon. */
  function Project(v: Inputs): (r: Result)
    requires v.years >= 0
    ensures |r.nominal| == v.years + 1 && |r.expenses| == v.years + 1 && |r.yearlyBreakdown| == v.years + 1
  {
    Run(v, v.years)
  }

  /** Entry `i` of `nominal` after `n` years is the balance of the recurrence at `i`. */
  lemma {:induction false} RunNominalAt(v: Inputs, n: nat, i: nat)
    requires i <= n
    ensures Run(v, n).nominal[i] == Balance(v, i)
  {
    if n > 0 {
      assert Run(v, n) == StepYear(v, n, Run(v, n - 1));
      if i < n {
        RunNominalAt(v, n - 1, i);
      } else {
        RunNominalAt(v, n - 1, n - 1);
      }
    }
  }

  /** Entry `i` of `expenses` after `n` years is the compounded expense of year `i`. */
  lemma {:induction false} RunExpensesAt(v: Inputs, n: nat, i: nat)
    requires i <= n
    ensures Run(v, n).expenses[i] == Expense(v, i)
  {
    if n > 0 {
      assert Run(v, n) == StepYear(v, n, Run(v, n - 1));
      if i < n {
        RunExpensesAt(v, n - 1, i);
      }
    }
  }

  /** Entry `i` of `yearlyBreakdown` after `n` years repeats the balance and the
      expense of year `i`; it is marked sustainable when that balance is positive,
      and year 0 always is. */
  lemma {:induction false} RunBreakdownAt(v: Inputs, n: nat, i: nat)
    requires i <= n
    ensures Run(v, n).yearlyBreakdown[i] == YearRecord(i, Balance(v, i), Expense(v, i), i == 0 || Balance(v, i) > 0.0)
  {
    if n > 0 {
      assert Run(v, n) == StepYear(v, n, Run(v, n - 1));
      if i < n {
        RunBreakdownAt(v, n - 1, i);
      } else {
        RunNominalAt(v, n - 1, n - 1);
      }
    }
  }

  /** The three per-index facts for every index at once. */
  lemma RunSeries(v: Inputs, n: nat)
    ensures forall i :: 0 <= i <= n ==> Run(v, n).nominal[i] == Balance(v, i)
    ensures forall i :: 0 <= i <= n ==> Run(v, n).expenses[i] == Expense(v, i)
    ensures forall i :: 0 <= i <= n ==>
      Run(v, n).yearlyBreakdown[i] == YearRecord(i, Balance(v, i), Expense(v, i), i == 0 || Balance(v, i) > 0.0)
  {
    forall i | 0 <= i <= n
      ensures Run(v, n).nominal[i] == Balance(v, i)
      ensures Run(v, n).expenses[i] == Expense(v, i)
      ensures Run(v, n).yearlyBreakdown[i] == YearRecord(i, Balance(v, i), Expense(v, i), i == 0 || Balance(v, i) > 0.0)
    {
      RunNominalAt(v, n, i);
      RunExpensesAt(v, n, i);
      RunBreakdownAt(v, n, i);
    }
  }

  /** The year-0 entries: the starting balance, the unadjusted expense, sustainable. */
  lemma ProjectionStart(v: Inputs, n: nat)
    ensures Run(v, n).nominal[0] == v.initialInvestment + v.annualDeposits
    ensures Run(v, n).expenses[0] == v.yearlyExpenses
    ensures Run(v, n).yearlyBreakdown[0] == YearRecord(0, v.initialInvestment + v.annualDeposits, v.yearlyExpenses, true)
  {
    RunSeries(v, n);
  }

  /** The expense series depends on the base expense and the inflation rate only,
      not on the balance or any other input. */
  lemma ExpensesIndependentOfBalance(v: Inputs, w: Inputs, n: nat)
    requires v.yearlyExpenses == w.yearlyExpenses && v.inflationRate == w.inflationRate
    ensures Run(v, n).expenses == Run(w, n).expenses
  {
    forall i | 0 <= i <= n
      ensures Run(v, n).expenses[i] == Run(w, n).expenses[i]
    {
      RunExpensesAt(v, n, i);
      RunExpensesAt(w, n, i);
      ExpenseAgrees(v, w, i);
    }
  }

  /** Two inputs with the same expense fields give the same expense in every year. */
  lemma ExpenseAgrees(v: Inputs, w: Inputs, year: nat)
    requires v.yearlyExpenses == w.yearlyExpenses && v.inflationRate == w.inflationRate
    ensures Expense(v, year) == Expense(w, year)
  {
  }

  /** A year that starts from a positive balance adds that year's grown deposit,
      applies growth to the sum, then subtracts that year's expense, floored at 0;
      a year that starts from a balance that is not positive ends at 0. */
  lemma BalanceStep(v: Inputs, y: nat)
    requires y >= 1
    ensures Balance(v, y - 1) > 0.0 ==>
      Balance(v, y) == Closing(Balance(v, y - 1), Deposit(v, y), Growth(v), Expense(v, y))
    ensures Balance(v, y - 1) <= 0.0 ==> Balance(v, y) == 0.0
  {
    BalanceUnfold(v, y);
    NextBalanceCloses(v, y, Balance(v, y - 1));
  }

  /** From a positive balance, `NextBalance` is the `Closing` formula. */
  lemma NextBalanceCloses(v: Inputs, y: nat, prev: real)
    requires y >= 1
    ensures prev > 0.0 ==> NextBalance(v, y, prev) == Closing(prev, Deposit(v, y), Growth(v), Expense(v, y))
  {
  }

  /** The step between consecutive entries of the result: a year that opens on a
      positive balance adds that year's grown deposit, applies growth to the sum and
      subtracts the year's entry of `expenses`, floored at 0; a year that opens on a
      balance that is not positive closes at 0. */
  lemma ProjectionBalanceStep(v: Inputs, n: nat, y: nat)
    requires 1 <= y <= n
    ensures Run(v, n).nominal[y - 1] > 0.0 ==>
      Run(v, n).nominal[y] == Closing(Run(v, n).nominal[y - 1], Deposit(v, y), Growth(v), Run(v, n).expenses[y])
    ensures Run(v, n).nominal[y - 1] <= 0.0 ==> Run(v, n).nominal[y] == 0.0
  {
    RunStepEntries(v, n, y);
    SeriesStep(v, Run(v, n), y);
  }

  /** Entry `y` of `nominal` is the next balance after entry `y - 1`, and entry `y`
      of `expenses` is the expense of year `y`. */
  lemma RunStepEntries(v: Inputs, n: nat, y: nat)
    requires 1 <= y <= n
    ensures Run(v, n).nominal[y] == NextBalance(v, y, Run(v, n).nominal[y - 1])
    ensures Run(v, n).expenses[y] == Expense(v, y)
  {
    RunNominalAt(v, n, y - 1);
    RunNominalAt(v, n, y);
    RunExpensesAt(v, n, y);
    BalanceUnfold(v, y);
  }

  /** The step formula on any pair of series whose entries at `y` follow the
      recurrence from the entry at `y - 1`. */
  lemma SeriesStep(v: Inputs, r: Result, y: nat)
    requires 1 <= y < |r.nominal| && y < |r.expenses|
    requires r.nominal[y] == NextBalance(v, y, r.nominal[y - 1]) && r.expenses[y] == Expense(v, y)
    ensures r.nominal[y - 1] > 0.0 ==> r.nominal[y] == Closing(r.nominal[y - 1], Deposit(v, y), Growth(v), r.expenses[y])
    ensures r.nominal[y - 1] <= 0.0 ==> r.nominal[y] == 0.0
  {
  }

  /** One unfolding of `Balance`. */
  lemma BalanceUnfold(v: Inputs, y: nat)
    requires y >= 1
    ensures Balance(v, y) == NextBalance(v, y, Balance(v, y - 1))
  {
  }

  /** The three statements of a year that starts positive, one intermediate value at a time. */
  lemma NextBalanceInSteps(v: Inputs, y: nat, prev: real, funded: real, grown: real)
    requires y >= 1 && prev > 0.0
    requires funded == prev + Deposit(v, y) && grown == funded * Growth(v)
    ensures NextBalance(v, y, prev) == Max(0.0, grown - Expense(v, y))
  {
  }

  /** Once the balance is 0 it stays 0. */
  lemma {:induction false} BalancePinned(v: Inputs, y: nat, z: nat)
    requires y <= z && Balance(v, y) == 0.0
    ensures Balance(v, z) == 0.0
  {
    if y < z {
      BalancePinned(v, y, z - 1);
    }
  }

  /** At most one year turns a positive balance into 0. */
  lemma DepletedUnique(v: Inputs, d: nat, y: nat)
    requires Depleted(v, d) && Depleted(v, y)
    ensures d == y
  {
    if d < y {
      BalancePinned(v, d, y - 1);
    } else if y < d {
      BalancePinned(v, y, d - 1);
    }
  }

  /** Every balance in the result is non-negative, and once a balance is 0 every
      later one is 0. */
  lemma ProjectionNonNegativeAndPinned(v: Inputs, n: nat, y: nat, z: nat)
    requires InBounds(v) && y <= z <= n
    ensures Run(v, n).nominal[y] >= 0.0
    ensures Run(v, n).nominal[y] == 0.0 ==> Run(v, n).nominal[z] == 0.0
  {
    RunSeries(v, n);
    if Balance(v, y) == 0.0 {
      BalancePinned(v, y, z);
    }
  }

  /** The sustainability flag and the depletion year of the result: the flag is
      cleared exactly when a depletion year is recorded, and that year is the first
      (indeed the only) year in the horizon that turned a positive balance into 0. */
  lemma {:induction false} RunDepletion(v: Inputs, n: nat)
    ensures Run(v, n).isPortfolioSustainable <==> Run(v, n).depletionYear == None
    ensures Run(v, n).depletionYear == None ==> forall y :: 1 <= y <= n ==> !Depleted(v, y)
    ensures Run(v, n).depletionYear.Some? ==>
      var d := Run(v, n).depletionYear.value;
      1 <= d <= n && Depleted(v, d) && forall y :: 1 <= y < d ==> !Depleted(v, y)
  {
    if n > 0 {
      RunDepletion(v, n - 1);
      RunNominalAt(v, n - 1, n - 1);
      BalanceUnfold(v, n);
      RunUnfold(v, n);
    }
  }

  /** When the portfolio depletes in year `d`, every balance before `d` is positive
      and every balance from `d` to the horizon is 0. */
  lemma ProjectionDepletionShape(v: Inputs, n: nat)
    requires InBounds(v) && Run(v, n).depletionYear.Some?
    ensures var d := Run(v, n).depletionYear.value;
      && 1 <= d <= n
      && (forall i :: 0 <= i < d ==> Run(v, n).nominal[i] > 0.0)
      && (forall i :: d <= i <= n ==> Run(v, n).nominal[i] == 0.0)
  {
    RunDepletion(v, n);
    RunSeries(v, n);
    var d := Run(v, n).depletionYear.value;
    forall i | 0 <= i < d
      ensures Balance(v, i) > 0.0
    {
      if Balance(v, i) == 0.0 {
        BalancePinned(v, i, d - 1);
      }
    }
    forall i | d <= i <= n
      ensures Balance(v, i) == 0.0
    {
      BalancePinned(v, d, i);
    }
  }

  /** The flag test in the depletion check never decides anything: whenever a year
      starts from a positive balance, the years before it have not depleted. */
  lemma FlagStillSetWhilePositive(v: Inputs, y: nat)
    requires InBounds(v) && Run(v, y).nominal[y] > 0.0
    ensures Run(v, y).isPortfolioSustainable
  {
    RunDepletion(v, y);
    if Run(v, y).depletionYear.Some? {
      ProjectionDepletionShape(v, y);
    }
  }

  /** With a positive starting balance, a horizon without any depletion year keeps
      every balance positive. */
  lemma {:induction false} NoDepletionStaysPositive(v: Inputs, n: nat)
    requires Balance(v, 0) > 0.0
    requires forall y :: 1 <= y <= n ==> !Depleted(v, y)
    ensures forall i :: 0 <= i <= n ==> Balance(v, i) > 0.0
  {
    if n > 0 {
      NoDepletionStaysPositive(v, n - 1);
      assert !Depleted(v, n);
    }
  }

  /** The verdict as the code computes it: the portfolio is reported sustainable
      exactly when it starts at 0 or every balance of the horizon is positive.
      A starting balance of 0 is therefore never reported as depleted. */
  lemma SustainableIff(v: Inputs, n: nat)
    requires InBounds(v)
    ensures Run(v, n).isPortfolioSustainable
      <==> (Run(v, n).nominal[0] == 0.0 || forall i :: 0 <= i <= n ==> Run(v, n).nominal[i] > 0.0)
  {
    RunDepletion(v, n);
    RunSeries(v, n);
    if Run(v, n).isPortfolioSustainable && Balance(v, 0) != 0.0 {
      NoDepletionStaysPositive(v, n);
    }
    if Balance(v, 0) == 0.0 && Run(v, n).depletionYear.Some? {
      BalancePinned(v, 0, Run(v, n).depletionYear.value - 1);
    }
  }

  /** A portfolio that starts at 0 stays at 0, is reported sustainable and has no
      depletion year. */
  lemma ZeroStartNeverDepletes(v: Inputs, n: nat)
    requires v.initialInvestment + v.annualDeposits == 0.0
    ensures Run(v, n).isPortfolioSustainable && Run(v, n).depletionYear == None
    ensures forall i :: 0 <= i <= n ==> Run(v, n).nominal[i] == 0.0
  {
    RunDepletion(v, n);
    RunSeries(v, n);
    forall i | 0 <= i <= n
      ensures Balance(v, i) == 0.0
    {
      BalancePinned(v, 0, i);
    }
  }

  /** With no growth, no deposits and no expenses the balance never changes. */
  lemma {:induction false} IdleBalance(v: Inputs, y: nat)
    requires v.initialInvestment >= 0.0 && v.expectedGrowthRate == 0.0
    requires v.annualDeposits == 0.0 && v.yearlyExpenses == 0.0
    ensures Balance(v, y) == v.initialInvestment
  {
    if y > 0 {
      IdleBalance(v, y - 1);
    }
  }
}
