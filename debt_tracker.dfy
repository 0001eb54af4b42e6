/** The debt elimination tracker: a fixed table of four debts with their
    original amounts, the totals and progress derived from it, and the colour
    classifiers for debt types and interest rates. */
module DebtTracker {
  import opened Common

  /** A tracked debt (its icon is presentation and is not modelled); `kind`
      is the `type` field. */
  datatype TrackedDebt = TrackedDebt(
    id: string, name: string, balance: real, originalAmount: real,
    interestRate: real, minPayment: real, kind: string)

  const FixedDebts: seq<TrackedDebt> := [
    TrackedDebt("credit-1", "Chase Freedom", 3200.0, 5000.0, 18.99, 85.0, "credit-card"),
    TrackedDebt("credit-2", "Capital One", 1800.0, 3000.0, 22.49, 55.0, "credit-card"),
    TrackedDebt("car-loan", "Auto Loan", 12500.0, 18000.0, 5.99, 320.0, "loan"),
    TrackedDebt("student-loan", "Student Loan", 8500.0, 15000.0, 4.5, 180.0, "student")
  ]

  function BalanceValues(debts: seq<TrackedDebt>): seq<real> {
    seq(|debts|, i requires 0 <= i < |debts| => debts[i].balance)
  }

  function OriginalValues(debts: seq<TrackedDebt>): seq<real> {
    seq(|debts|, i requires 0 <= i < |debts| => debts[i].originalAmount)
  }

  function MinPaymentValues(debts: seq<TrackedDebt>): seq<real> {
    seq(|debts|, i requires 0 <= i < |debts| => debts[i].minPayment)
  }

  function TotalDebt(debts: seq<TrackedDebt>): real {
    Sum(BalanceValues(debts))
  }

  function TotalOriginal(debts: seq<TrackedDebt>): real {
    Sum(OriginalValues(debts))
  }

  function TotalMinPayments(debts: seq<TrackedDebt>): real {
    Sum(MinPaymentValues(debts))
  }

  /** `totalOriginal - totalDebt`: non-negative while no balance exceeds its
      original amount, and at most the original total while balances are
      non-negative. */
  function TotalPaidOff(debts: seq<TrackedDebt>): (r: real)
    ensures (forall i :: 0 <= i < |debts| ==> debts[i].balance <= debts[i].originalAmount) ==> r >= 0.0
    ensures (forall i :: 0 <= i < |debts| ==> debts[i].balance >= 0.0) ==> r <= TotalOriginal(debts)
  {
    SumOfDifferences(OriginalValues(debts), BalanceValues(debts),
      seq(|debts|, i requires 0 <= i < |debts| => debts[i].originalAmount - debts[i].balance));
    TotalOriginal(debts) - TotalDebt(debts)
  }

  /** `(totalPaidOff / totalOriginal) * 100` */
  function ProgressPercentage(debts: seq<TrackedDebt>): (p: real)
    requires TotalOriginal(debts) > 0.0
    ensures TotalDebt(debts) <= TotalOriginal(debts) ==> p >= 0.0
    ensures TotalDebt(debts) >= 0.0 ==> p <= 100.0
  {
    TotalPaidOff(debts) / TotalOriginal(debts) * 100.0
  }

  /** `debt.originalAmount - debt.balance` */
  function PaidOff(d: TrackedDebt): (r: real)
    ensures r >= 0.0 <==> d.balance <= d.originalAmount
    ensures d.balance >= 0.0 ==> r <= d.originalAmount
  {
    d.originalAmount - d.balance
  }

  /** The overall amount paid off is the sum of what was paid off on each debt. */
  lemma TotalPaidOffIsSumOfPaidOff(debts: seq<TrackedDebt>)
    ensures TotalPaidOff(debts) == Sum(seq(|debts|, i requires 0 <= i < |debts| => PaidOff(debts[i])))
  {
    SumOfDifferences(OriginalValues(debts), BalanceValues(debts),
      seq(|debts|, i requires 0 <= i < |debts| => PaidOff(debts[i])));
  }

  /** `(paidOffAmount / debt.originalAmount) * 100` */
  function DebtProgress(d: TrackedDebt): (p: real)
    requires d.originalAmount > 0.0
    ensures 0.0 <= d.balance <= d.originalAmount ==> 0.0 <= p <= 100.0
    ensures d.balance == d.originalAmount ==> p == 0.0
    ensures d.balance == 0.0 ==> p == 100.0
  {
    PaidOff(d) / d.originalAmount * 100.0
  }

  /** The figures of the fixed table: 26000 owed of 41000 borrowed, 640 a month
      in minimum payments, 15000 paid off, shown as 37% progress. */
  lemma FixedTableFigures()
    ensures TotalDebt(FixedDebts) == 26000.0
    ensures TotalOriginal(FixedDebts) == 41000.0
    ensures TotalMinPayments(FixedDebts) == 640.0
    ensures TotalPaidOff(FixedDebts) == 15000.0
    ensures Round(ProgressPercentage(FixedDebts)) == 37
  {
    assert BalanceValues(FixedDebts) == [3200.0, 1800.0, 12500.0, 8500.0];
    assert OriginalValues(FixedDebts) == [5000.0, 3000.0, 18000.0, 15000.0];
    assert MinPaymentValues(FixedDebts) == [85.0, 55.0, 320.0, 180.0];
    SumOfFour(3200.0, 1800.0, 12500.0, 8500.0);
    SumOfFour(5000.0, 3000.0, 18000.0, 15000.0);
    SumOfFour(85.0, 55.0, 320.0, 180.0);
    assert ProgressPercentage(FixedDebts) == 15000.0 / 41000.0 * 100.0;
  }

  lemma SumOfFour(a: real, b: real, c: real, d: real)
    ensures Sum([a, b, c, d]) == a + b + c + d
  {
    assert [a][..0] == [];
    assert Sum([a]) == a;
    assert [a, b][..1] == [a];
    assert Sum([a, b]) == a + b;
    assert [a, b, c][..2] == [a, b];
    assert Sum([a, b, c]) == a + b + c;
    assert [a, b, c, d][..3] == [a, b, c];
  }

  /** `getInterestRateColor`: destructive from 20%, default from 10%, secondary below. */
  function InterestRateColor(rate: real): (v: Variant)
    ensures v == Destructive <==> rate >= 20.0
    ensures v == Default <==> 10.0 <= rate < 20.0
    ensures v == Secondary <==> rate < 10.0
  {
    if rate >= 20.0 then Destructive
    else if rate >= 10.0 then Default
    else Secondary
  }

  /** A higher rate never gets a less alarming badge. */
  lemma InterestRateColorMonotone(rate1: real, rate2: real)
    requires rate1 <= rate2
    ensures Severity(InterestRateColor(rate1)) <= Severity(InterestRateColor(rate2))
  {
  }

  const KnownKinds: set<string> := {"credit-card", "loan", "student", "mortgage"}

  /** `getDebtTypeColor`: one colour per known type, grey for anything else. */
  function TypeColor(kind: string): (color: string)
    ensures kind !in KnownKinds <==> color == "bg-gray-500"
  {
    match kind
    case "credit-card" => "bg-red-500"
    case "loan" => "bg-blue-500"
    case "student" => "bg-green-500"
    case "mortgage" => "bg-purple-500"
    case _ => "bg-gray-500"
  }

  /** Distinct known types get distinct colours. */
  lemma TypeColorDistinct(k1: string, k2: string)
    requires k1 in KnownKinds && k2 in KnownKinds && k1 != k2
    ensures TypeColor(k1) != TypeColor(k2)
  {
  }
}
