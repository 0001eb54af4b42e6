/** The monthly budget tracker: six fixed categories, each filled in from the
    first loaded budget row whose category (lower-cased) is the category's id,
    with totals, per-category clamps and a status badge. */
module BudgetTracker {
  import opened Common
  import opened UseBudgets

  /** A tracked category (its icon is presentation and is not modelled). */
  datatype Category = Category(id: string, name: string, spent: real, budget: real, color: string)

  const DefaultCategories: seq<Category> := [
    Category("housing", "Housing", 0.0, 0.0, "bg-blue-500"),
    Category("food", "Food & Dining", 0.0, 0.0, "bg-green-500"),
    Category("transportation", "Transportation", 0.0, 0.0, "bg-yellow-500"),
    Category("shopping", "Shopping", 0.0, 0.0, "bg-purple-500"),
    Category("entertainment", "Entertainment", 0.0, 0.0, "bg-pink-500"),
    Category("healthcare", "Healthcare", 0.0, 0.0, "bg-red-500")
  ]

  predicate UniqueIds(cats: seq<Category>) {
    forall i, j :: 0 <= i < j < |cats| ==> cats[i].id != cats[j].id
  }

  lemma DefaultCategoriesFacts()
    ensures |DefaultCategories| == 6
    ensures UniqueIds(DefaultCategories)
  {
  }

  /** `toLowerCase` on ASCII letters. */
  function LowerChar(c: char): char {
    if 'A' <= c <= 'Z' then (c as int + 32) as char else c
  }

  /** `toLowerCase` on ASCII: every capital becomes its small letter (32 code
      points on), every other character is kept, and no capital is left. */
  function ToLower(s: string): (r: string)
    ensures |r| == |s|
    ensures forall i :: 0 <= i < |s| ==> !('A' <= r[i] <= 'Z')
    ensures forall i :: 0 <= i < |s| ==>
      r[i] as int == (if 'A' <= s[i] <= 'Z' then s[i] as int + 32 else s[i] as int)
  {
    seq(|s|, i requires 0 <= i < |s| => LowerChar(s[i]))
  }

  /** `b.category.toLowerCase() === id` */
  predicate Matches(b: Budget, id: string) {
    ToLower(b.category) == id
  }

  /** Where `budgets.find(b => b.category.toLowerCase() === id)` stops: the
      index of the first matching row, or None. */
  function FirstMatch(budgets: seq<Budget>, id: string): (r: Option<nat>)
    ensures r.Some? ==> r.value < |budgets| && Matches(budgets[r.value], id)
    ensures r.Some? ==> forall j :: 0 <= j < r.value ==> !Matches(budgets[j], id)
    ensures r.None? <==> forall j :: 0 <= j < |budgets| ==> !Matches(budgets[j], id)
  {
    if budgets == [] then None
    else if Matches(budgets[0], id) then Some(0)
    else match FirstMatch(budgets[1..], id)
      case None => None
      case Some(k) => Some(k + 1)
  }

  /** One default category filled from the loaded rows: `spent_amount || 0`
      and `allocated_amount || 0` of the first match, both 0 without one. */
  function MergeOne(cat: Category, budgets: seq<Budget>): (c: Category)
    ensures c.id == cat.id && c.name == cat.name && c.color == cat.color
    ensures FirstMatch(budgets, cat.id).None? ==> c.spent == 0.0 && c.budget == 0.0
    ensures FirstMatch(budgets, cat.id).Some? ==>
      var b := budgets[FirstMatch(budgets, cat.id).value];
      c.spent == b.spentAmount && c.budget == b.allocatedAmount
  {
    match FirstMatch(budgets, cat.id)
    case None => cat.(spent := 0.0, budget := 0.0)
    case Some(k) => cat.(spent := budgets[k].spentAmount, budget := budgets[k].allocatedAmount)
  }

  /** `defaultCategories.map(...)`: one entry per default category, same order. */
  function Merge(defaults: seq<Category>, budgets: seq<Budget>): (r: seq<Category>)
    ensures |r| == |defaults|
    ensures forall i :: 0 <= i < |defaults| ==> r[i].id == defaults[i].id && r[i].name == defaults[i].name
    ensures forall i :: 0 <= i < |defaults| ==> r[i] == MergeOne(defaults[i], budgets)
  {
    seq(|defaults|, i requires 0 <= i < |defaults| => MergeOne(defaults[i], budgets))
  }

  /** A row matching no category id does not change where the first match is found. */
  lemma {:induction false} FirstMatchSkipsUnmatched(pre: seq<Budget>, b: Budget, post: seq<Budget>, id: string)
    requires !Matches(b, id)
    ensures var with, without := FirstMatch(pre + [b] + post, id), FirstMatch(pre + post, id);
      && with.Some? == without.Some?
      && (with.Some? ==> (pre + [b] + post)[with.value] == (pre + post)[without.value])
  {
    if pre == [] {
      assert pre + [b] + post == [b] + post;
      assert ([b] + post)[1..] == post;
      assert pre + post == post;
    } else {
      assert (pre + [b] + post)[0] == pre[0] && (pre + post)[0] == pre[0];
      assert (pre + [b] + post)[1..] == pre[1..] + [b] + post;
      assert (pre + post)[1..] == pre[1..] + post;
      FirstMatchSkipsUnmatched(pre[1..], b, post, id);
    }
  }

  /** Loaded rows whose category is none of the default ids contribute nothing. */
  lemma MergeIgnoresUnknownCategory(defaults: seq<Category>, pre: seq<Budget>, b: Budget, post: seq<Budget>)
    requires forall i :: 0 <= i < |defaults| ==> !Matches(b, defaults[i].id)
    ensures Merge(defaults, pre + [b] + post) == Merge(defaults, pre + post)
  {
    forall i | 0 <= i < |defaults|
      ensures MergeOne(defaults[i], pre + [b] + post) == MergeOne(defaults[i], pre + post)
    {
      FirstMatchSkipsUnmatched(pre, b, post, defaults[i].id);
    }
  }

  function SpentValues(cats: seq<Category>): seq<real> {
    seq(|cats|, i requires 0 <= i < |cats| => cats[i].spent)
  }

  function BudgetValues(cats: seq<Category>): seq<real> {
    seq(|cats|, i requires 0 <= i < |cats| => cats[i].budget)
  }

  function TotalSpent(cats: seq<Category>): real {
    Sum(SpentValues(cats))
  }

  function TotalBudget(cats: seq<Category>): real {
    Sum(BudgetValues(cats))
  }

  /** `totalBudget - totalSpent`: non-negative while no category is
      overspent, and at most the total budget while spending is non-negative. */
  function RemainingBudget(cats: seq<Category>): (r: real)
    ensures (forall i :: 0 <= i < |cats| ==> cats[i].spent <= cats[i].budget) ==> r >= 0.0
    ensures (forall i :: 0 <= i < |cats| ==> cats[i].spent >= 0.0) ==> r <= TotalBudget(cats)
  {
    SumOfDifferences(BudgetValues(cats), SpentValues(cats),
      seq(|cats|, i requires 0 <= i < |cats| => cats[i].budget - cats[i].spent));
    TotalBudget(cats) - TotalSpent(cats)
  }

  /** The remaining budget is the sum of what each category has left
      (unclamped: overspending counts against it). */
  lemma RemainingIsSumOfCategoryBalances(cats: seq<Category>)
    ensures RemainingBudget(cats) == Sum(seq(|cats|, i requires 0 <= i < |cats| => cats[i].budget - cats[i].spent))
  {
    SumOfDifferences(BudgetValues(cats), SpentValues(cats),
      seq(|cats|, i requires 0 <= i < |cats| => cats[i].budget - cats[i].spent));
  }

  /** The progress bar value of a category. A zero budget (the default) gives
      NaN in JavaScript and is excluded. */
  function CategoryPercentage(c: Category): (p: real)
    requires c.budget > 0.0
    ensures p <= 100.0
    ensures c.spent >= 0.0 ==> p >= 0.0
    ensures c.spent >= c.budget ==> p == 100.0
    ensures Round(p) <= 100
  {
    ClampedPercentage(c.spent, c.budget)
  }

  /** `Math.max(category.budget - category.spent, 0)` */
  function CategoryRemaining(c: Category): (r: real)
    ensures r >= 0.0
    ensures c.spent <= c.budget ==> r == c.budget - c.spent
    ensures c.spent >= c.budget ==> r == 0.0
  {
    Max(c.budget - c.spent, 0.0)
  }

  /** The badge variant of a category: destructive from 80% (the separate 100%
      branch is destructive too), default from 60%, secondary below. */
  function StatusColor(spent: real, budget: real): (v: Variant)
    requires budget > 0.0
    ensures v == Destructive <==> spent * 5.0 >= budget * 4.0
    ensures v == Default <==> budget * 3.0 <= spent * 5.0 < budget * 4.0
    ensures v == Secondary <==> spent * 5.0 < budget * 3.0
  {
    var percentage := spent / budget * 100.0;
    if percentage >= 100.0 then Destructive
    else if percentage >= 80.0 then Destructive
    else if percentage >= 60.0 then Default
    else Secondary
  }

  /** Spending more never makes the badge less alarming. */
  lemma StatusColorMonotone(spent1: real, spent2: real, budget: real)
    requires budget > 0.0
    requires spent1 <= spent2
    ensures Severity(StatusColor(spent1, budget)) <= Severity(StatusColor(spent2, budget))
  {
  }
}
