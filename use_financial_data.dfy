/** The derived-metrics hook: folds the loaded budgets and debts into the four
    summary figures shown on the dashboard's progress cards. */
module UseFinancialData {
  import opened Common
  import opened UseBudgets
  import opened UseDebts

  function Allocations(budgets: seq<Budget>): seq<real> {
    seq(|budgets|, i requires 0 <= i < |budgets| => budgets[i].allocatedAmount)
  }

  function SpentAmounts(budgets: seq<Budget>): seq<real> {
    seq(|budgets|, i requires 0 <= i < |budgets| => budgets[i].spentAmount)
  }

  function Balances(debts: seq<Debt>): seq<real> {
    seq(|debts|, i requires 0 <= i < |debts| => debts[i].balance)
  }

  /** The per-debt terms of the estimated original debt, `debt.balance * 1.5`. */
  function EstimatedBalances(debts: seq<Debt>): seq<real> {
    seq(|debts|, i requires 0 <= i < |debts| => debts[i].balance * 1.5)
  }

  function TotalBudget(budgets: seq<Budget>): real {
    Sum(Allocations(budgets))
  }

  function TotalSpent(budgets: seq<Budget>): real {
    Sum(SpentAmounts(budgets))
  }

  function TotalDebt(debts: seq<Debt>): real {
    Sum(Balances(debts))
  }

  /** The totals add up over concatenated lists, and empty lists give 0. */
  lemma TotalsAdditive(b1: seq<Budget>, b2: seq<Budget>, d1: seq<Debt>, d2: seq<Debt>)
    ensures TotalBudget([]) == 0.0 && TotalSpent([]) == 0.0 && TotalDebt([]) == 0.0
    ensures TotalBudget(b1 + b2) == TotalBudget(b1) + TotalBudget(b2)
    ensures TotalSpent(b1 + b2) == TotalSpent(b1) + TotalSpent(b2)
    ensures TotalDebt(d1 + d2) == TotalDebt(d1) + TotalDebt(d2)
  {
    assert Allocations(b1 + b2) == Allocations(b1) + Allocations(b2);
    assert SpentAmounts(b1 + b2) == SpentAmounts(b1) + SpentAmounts(b2);
    assert Balances(d1 + d2) == Balances(d1) + Balances(d2);
    SumAppend(Allocations(b1), Allocations(b2));
    SumAppend(SpentAmounts(b1), SpentAmounts(b2));
    SumAppend(Balances(d1), Balances(d2));
  }

  /** Three months of the budgeted expenses. */
  function EmergencyFundTarget(budgets: seq<Budget>): (r: real)
    ensures (forall i :: 0 <= i < |budgets| ==> budgets[i].allocatedAmount >= 0.0) ==> r >= 0.0
  {
    TotalBudget(budgets) * 3.0
  }

  /** `Math.max(0, totalBudget - totalSpent) * 2`: twice the unspent budget, never negative. */
  function EmergencyFundCurrent(budgets: seq<Budget>): (r: real)
    ensures r >= 0.0
    ensures TotalSpent(budgets) <= TotalBudget(budgets) ==> r == (TotalBudget(budgets) - TotalSpent(budgets)) * 2.0
    ensures TotalSpent(budgets) >= TotalBudget(budgets) ==> r == 0.0
  {
    Max(0.0, TotalBudget(budgets) - TotalSpent(budgets)) * 2.0
  }

  /** `debts.reduce((sum, debt) => sum + debt.balance * 1.5, 0)` */
  function EstimatedOriginalDebt(debts: seq<Debt>): (r: real)
    ensures (forall i :: 0 <= i < |debts| ==> debts[i].balance >= 0.0) ==> r >= TotalDebt(debts)
  {
    SumOfMultiples(Balances(debts), EstimatedBalances(debts), 1.5);
    Sum(EstimatedBalances(debts))
  }

  /** `estimatedOriginalDebt - totalDebt`: never negative and never above the
      estimate while every balance is non-negative. */
  function DebtPaidOff(debts: seq<Debt>): (r: real)
    ensures (forall i :: 0 <= i < |debts| ==> debts[i].balance >= 0.0) ==>
      0.0 <= r <= EstimatedOriginalDebt(debts)
  {
    EstimatedOriginalDebt(debts) - TotalDebt(debts)
  }

  /** The estimate is one and a half times the current total, so the amount
      "paid off" is always half the current total. */
  lemma PaidOffIsHalfTheDebt(debts: seq<Debt>)
    ensures EstimatedOriginalDebt(debts) == TotalDebt(debts) * 1.5
    ensures DebtPaidOff(debts) == TotalDebt(debts) / 2.0
  {
    SumOfMultiples(Balances(debts), EstimatedBalances(debts), 1.5);
  }

  /** `totalBudget > 0 ? Math.max(0, 100 - (totalSpent / totalBudget) * 100) : 0` */
  function BudgetScore(totalBudget: real, totalSpent: real): (r: real)
    ensures r >= 0.0
    ensures totalBudget <= 0.0 ==> r == 0.0
    ensures totalSpent >= 0.0 ==> r <= 100.0
    ensures totalBudget > 0.0 && totalSpent <= 0.0 ==> r >= 100.0
    ensures totalBudget > 0.0 && totalSpent >= totalBudget ==> r == 0.0
  {
    if totalBudget > 0.0 then
      var ratio := totalSpent / totalBudget;
      assert ratio * totalBudget == totalSpent;
      assert totalSpent >= totalBudget ==> ratio >= 1.0;
      Max(0.0, 100.0 - ratio * 100.0)
    else 0.0
  }

  /** `estimatedOriginalDebt > 0 ? (debtPaidOff / estimatedOriginalDebt) * 100 : 100` */
  function DebtScore(estimated: real, paidOff: real): (r: real)
    ensures estimated <= 0.0 ==> r == 100.0
    ensures estimated > 0.0 && 0.0 <= paidOff <= estimated ==> 0.0 <= r <= 100.0
  {
    if estimated > 0.0 then paidOff / estimated * 100.0 else 100.0
  }

  /** Because of the 1.5 estimate, the debt score cannot move: it is 100/3
      whenever there is any debt, and 100 otherwise. */
  lemma DebtScoreIsConstant(debts: seq<Debt>)
    ensures DebtScore(EstimatedOriginalDebt(debts), DebtPaidOff(debts))
         == if TotalDebt(debts) > 0.0 then 100.0 / 3.0 else 100.0
  {
    PaidOffIsHalfTheDebt(debts);
    var t := TotalDebt(debts);
    if t > 0.0 {
      assert (t / 2.0) / (t * 1.5) == 1.0 / 3.0;
    }
  }

  /** `Math.round((budgetScore + debtScore) / 2)`. Since the debt score is
      pinned at 100/3 or 100, the score is never below 17 (round(50/3)); it is
      at most 100 while total spending is non-negative, and without a positive
      budget it is 17 with debt and 50 without. */
  function FinancialScore(budgets: seq<Budget>, debts: seq<Debt>): (r: int)
    ensures 17 <= r
    ensures TotalSpent(budgets) >= 0.0 ==> r <= 100
    ensures TotalBudget(budgets) <= 0.0 ==> r == if TotalDebt(debts) > 0.0 then 17 else 50
  {
    DebtScoreIsConstant(debts);
    var budgetScore := BudgetScore(TotalBudget(budgets), TotalSpent(budgets));
    var debtScore := DebtScore(EstimatedOriginalDebt(debts), DebtPaidOff(debts));
    Round((budgetScore + debtScore) / 2.0)
  }

  /** With non-negative spending the score lies between 17 (no budget, some
      debt: round(50/3)) and 100. */
  lemma FinancialScoreRange(budgets: seq<Budget>, debts: seq<Debt>)
    requires forall i :: 0 <= i < |budgets| ==> budgets[i].spentAmount >= 0.0
    ensures 17 <= FinancialScore(budgets, debts) <= 100
  {
    assert TotalSpent(budgets) >= 0.0;
  }

  /** A figure shown on a progress card: how far `current` is towards `target`. */
  datatype Metric = Metric(current: real, target: real)

  datatype FinancialData = FinancialData(
    monthlyBudget: Metric,
    emergencyFund: Metric,
    debtPayoff: Metric,
    financialScore: Metric)

  /** What the hook returns. */
  function Summary(budgets: seq<Budget>, debts: seq<Debt>): (r: FinancialData)
    ensures r.monthlyBudget.current == TotalSpent(budgets) && r.monthlyBudget.target == TotalBudget(budgets)
    ensures r.emergencyFund.current == EmergencyFundCurrent(budgets) && r.emergencyFund.current >= 0.0
    ensures r.emergencyFund.target == TotalBudget(budgets) * 3.0
    ensures r.debtPayoff.current == TotalDebt(debts) / 2.0 && r.debtPayoff.target == TotalDebt(debts) * 1.5
    ensures r.financialScore.current == FinancialScore(budgets, debts) as real
    ensures 17.0 <= r.financialScore.current
    ensures (forall i :: 0 <= i < |budgets| ==> budgets[i].spentAmount >= 0.0) ==> r.financialScore.current <= 100.0
    ensures r.financialScore.target == 100.0
  {
    PaidOffIsHalfTheDebt(debts);
    FinancialData(
      Metric(TotalSpent(budgets), TotalBudget(budgets)),
      Metric(EmergencyFundCurrent(budgets), EmergencyFundTarget(budgets)),
      Metric(DebtPaidOff(debts), EstimatedOriginalDebt(debts)),
      Metric(FinancialScore(budgets, debts) as real, 100.0))
  }
}
