/** The education hub: a fixed table of six learning modules, the counts and
    average progress derived from it, the category buttons, and the per-module
    badge, progress bar and action button. */
module EducationHub {
  import opened Common

  /** A learning module (its icon is presentation and is not modelled). */
  datatype EducationModule = EducationModule(
    id: string, title: string, description: string, duration: string,
    difficulty: string, completed: bool, progress: real, category: string)

  const Modules: seq<EducationModule> := [
    EducationModule("budgeting-basics", "Budgeting Fundamentals", "Learn the 50/30/20 rule and create your first budget",
      "15 min", "Beginner", true, 100.0, "Budgeting"),
    EducationModule("emergency-fund", "Building Emergency Funds", "Why you need 3-6 months of expenses saved",
      "12 min", "Beginner", true, 100.0, "Saving"),
    EducationModule("debt-strategies", "Debt Elimination Strategies", "Avalanche vs Snowball methods explained",
      "18 min", "Intermediate", false, 65.0, "Debt Management"),
    EducationModule("investing-101", "Investment Basics", "Stocks, bonds, and index funds for beginners",
      "25 min", "Intermediate", false, 0.0, "Investing"),
    EducationModule("retirement-planning", "Retirement Planning", "401k, IRA, and compound interest explained",
      "20 min", "Intermediate", false, 0.0, "Retirement"),
    EducationModule("tax-optimization", "Tax Optimization", "Legal ways to reduce your tax burden",
      "22 min", "Advanced", false, 0.0, "Taxes")
  ]

  /** `modules.filter(m => m.completed).length` */
  function CompletedModules(ms: seq<EducationModule>): (n: nat)
    ensures n <= |ms|
    ensures n == 0 <==> forall i :: 0 <= i < |ms| ==> !ms[i].completed
  {
    if ms == [] then 0
    else (if ms[0].completed then 1 else 0) + CompletedModules(ms[1..])
  }

  /** The "In Progress" figure, `modules.length - completedModules`. */
  function InProgressModules(ms: seq<EducationModule>): (n: nat)
    ensures n + CompletedModules(ms) == |ms|
  {
    |ms| - CompletedModules(ms)
  }

  /** `completedModules * 25` */
  function ExperiencePoints(ms: seq<EducationModule>): (xp: nat)
    ensures xp % 25 == 0 && xp <= 25 * |ms|
  {
    CompletedModules(ms) * 25
  }

  function ProgressValues(ms: seq<EducationModule>): seq<real> {
    seq(|ms|, i requires 0 <= i < |ms| => ms[i].progress)
  }

  /** The mean progress, `modules.reduce((sum, m) => sum + m.progress, 0) / modules.length`. */
  function TotalProgress(ms: seq<EducationModule>): (r: real)
    requires |ms| > 0
    ensures r * |ms| as real == Sum(ProgressValues(ms))
    ensures (forall i :: 0 <= i < |ms| ==> ms[i].progress >= 0.0) ==> r >= 0.0
  {
    Sum(ProgressValues(ms)) / |ms| as real
  }

  /** With every module's progress a percentage, so is the average. */
  lemma TotalProgressIsPercentage(ms: seq<EducationModule>)
    requires |ms| > 0
    requires forall i :: 0 <= i < |ms| ==> 0.0 <= ms[i].progress <= 100.0
    ensures 0.0 <= TotalProgress(ms) <= 100.0
  {
    SumAtMost(ProgressValues(ms), 100.0);
  }

  /** The header figures of the fixed table: 2 completed, 4 in progress,
      50 XP, an average of 265/6, shown as 44%. */
  lemma FixedTableFigures()
    ensures CompletedModules(Modules) == 2
    ensures InProgressModules(Modules) == 4
    ensures ExperiencePoints(Modules) == 50
    ensures TotalProgress(Modules) == 265.0 / 6.0
    ensures Round(TotalProgress(Modules)) == 44
  {
    var xs := ProgressValues(Modules);
    assert xs == [100.0, 100.0, 65.0, 0.0, 0.0, 0.0];
    assert [100.0][..0] == [];
    assert Sum([100.0]) == 100.0;
    assert [100.0, 100.0][..1] == [100.0];
    assert Sum([100.0, 100.0]) == 200.0;
    assert [100.0, 100.0, 65.0][..2] == [100.0, 100.0];
    assert Sum([100.0, 100.0, 65.0]) == 265.0;
    assert [100.0, 100.0, 65.0, 0.0][..3] == [100.0, 100.0, 65.0];
    assert Sum([100.0, 100.0, 65.0, 0.0]) == 265.0;
    assert [100.0, 100.0, 65.0, 0.0, 0.0][..4] == [100.0, 100.0, 65.0, 0.0];
    assert Sum([100.0, 100.0, 65.0, 0.0, 0.0]) == 265.0;
    assert xs[..5] == [100.0, 100.0, 65.0, 0.0, 0.0];
  }

  /** Whether `s` holds no value twice. */
  predicate Distinct(s: seq<string>) {
    forall i, j :: 0 <= i < j < |s| ==> s[i] != s[j]
  }

  /** The index of the first occurrence of `x` in `s`. */
  function FirstIndex(s: seq<string>, x: string): (k: nat)
    requires x in s
    ensures k < |s| && s[k] == x
    ensures forall j :: 0 <= j < k ==> s[j] != x
  {
    if s[0] == x then 0 else 1 + FirstIndex(s[1..], x)
  }

  /** `[...new Set(values)]`: the values without repeats, in order of first
      occurrence. */
  function Dedup(s: seq<string>): (r: seq<string>)
    ensures Distinct(r)
    ensures forall x :: x in r <==> x in s
    ensures |r| <= |s|
  {
    if s == [] then []
    else
      var init := Dedup(s[..|s| - 1]);
      var last := s[|s| - 1];
      assert forall x :: x in s <==> x in s[..|s| - 1] || x == last;
      if last in init then init else init + [last]
  }

  /** The order of the result is the order of first occurrence in the input. */
  lemma {:induction false} DedupKeepsFirstOccurrenceOrder(s: seq<string>, i: nat, j: nat)
    requires i < j < |Dedup(s)|
    ensures FirstIndex(s, Dedup(s)[i]) < FirstIndex(s, Dedup(s)[j])
  {
    var n := |s| - 1;
    var init := Dedup(s[..n]);
    var last := s[n];
    var r := Dedup(s);
    assert r == if last in init then init else init + [last];
    assert r[i] == init[i];
    FirstIndexOfPrefix(s, n, init[i]);
    if j < |init| {
      assert r[j] == init[j];
      DedupKeepsFirstOccurrenceOrder(s[..n], i, j);
      FirstIndexOfPrefix(s, n, init[j]);
    } else {
      // r[j] is `last`, appended because it does not occur in s[..n]
      assert r[j] == last && last !in s[..n];
    }
  }

  lemma FirstIndexOfPrefix(s: seq<string>, n: nat, x: string)
    requires n <= |s| && x in s[..n]
    ensures FirstIndex(s, x) == FirstIndex(s[..n], x)
  {
  }

  /** `[...new Set(modules.map(m => m.category))]`: one button per category. */
  function Categories(ms: seq<EducationModule>): (r: seq<string>)
    ensures Distinct(r)
    ensures forall i :: 0 <= i < |ms| ==> ms[i].category in r
    ensures forall c :: c in r ==> exists i :: 0 <= i < |ms| && ms[i].category == c
  {
    var cs := seq(|ms|, i requires 0 <= i < |ms| => ms[i].category);
    assert forall i :: 0 <= i < |ms| ==> cs[i] == ms[i].category;
    Dedup(cs)
  }

  /** `getDifficultyColor` */
  function DifficultyColor(difficulty: string): (v: Variant)
    ensures v == Destructive <==> difficulty == "Advanced"
    ensures v == Default <==> difficulty == "Intermediate"
    ensures v == Secondary <==> difficulty != "Advanced" && difficulty != "Intermediate"
  {
    match difficulty
    case "Beginner" => Secondary
    case "Intermediate" => Default
    case "Advanced" => Destructive
    case _ => Secondary
  }

  /** The label of a module's action button. */
  datatype Action = Review | Continue | Start

  function ActionFor(m: EducationModule): (a: Action)
    ensures a == Review <==> m.completed
    ensures a == Continue <==> !m.completed && m.progress > 0.0
    ensures a == Start <==> !m.completed && m.progress <= 0.0
  {
    if m.completed then Review
    else if m.progress > 0.0 then Continue
    else Start
  }

  /** `!module.completed && module.progress > 0`: the module's own progress bar. */
  predicate ShowsProgressBar(m: EducationModule) {
    !m.completed && m.progress > 0.0
  }

  /** The progress bar is shown exactly for the modules whose button says Continue. */
  lemma ProgressBarIffContinue(m: EducationModule)
    ensures ShowsProgressBar(m) <==> ActionFor(m) == Continue
  {
  }
}
