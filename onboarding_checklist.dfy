/** The onboarding checklist: six fixed steps the user ticks off. Toggling a
    step flips its `completed` flag; the completion count, the percentage and
    the congratulations panel are derived from the flags on every render. */
module OnboardingChecklist {

  /** A checklist entry (its icon is presentation and is not modelled). */
  datatype Item = Item(id: string, title: string, description: string, completed: bool)

  const InitialItems: seq<Item> := [
    Item("budget", "Set Up Your Budget", "Create categories and set spending limits for each month", false),
    Item("emergency", "Build Emergency Fund", "Start saving for 3-6 months of living expenses", false),
    Item("debt", "List All Debts", "Track credit cards, loans, and create payoff strategy", false),
    Item("goals", "Set Financial Goals", "Define short and long-term financial objectives", false),
    Item("savings", "Automate Savings", "Set up automatic transfers to your savings account", false),
    Item("education", "Learn Financial Basics", "Complete basic financial literacy modules", false)
  ]

  predicate UniqueIds(items: seq<Item>) {
    forall i, j :: 0 <= i < j < |items| ==> items[i].id != items[j].id
  }

  /** `items.map(item => item.id === id ? { ...item, completed: !item.completed } : item)` */
  function Toggle(items: seq<Item>, id: string): (r: seq<Item>)
    ensures |r| == |items|
    ensures forall i :: 0 <= i < |items| ==>
      && r[i].id == items[i].id
      && r[i].title == items[i].title
      && r[i].description == items[i].description
      && (r[i].completed != items[i].completed <==> items[i].id == id)
  {
    if items == [] then []
    else [if items[0].id == id then items[0].(completed := !items[0].completed) else items[0]]
         + Toggle(items[1..], id)
  }

  /** Toggling the same step twice restores the list. */
  lemma ToggleTwice(items: seq<Item>, id: string)
    ensures Toggle(Toggle(items, id), id) == items
  {
  }

  /** Toggling an id no step carries changes nothing. */
  lemma ToggleAbsent(items: seq<Item>, id: string)
    requires forall i :: 0 <= i < |items| ==> items[i].id != id
    ensures Toggle(items, id) == items
  {
  }

  /** `items.filter(item => item.completed).length` */
  function CompletedCount(items: seq<Item>): (n: nat)
    ensures n <= |items|
  {
    if items == [] then 0
    else (if items[0].completed then 1 else 0) + CompletedCount(items[1..])
  }

  predicate AllComplete(items: seq<Item>) {
    forall i :: 0 <= i < |items| ==> items[i].completed
  }

  /** Every step is done exactly when the count reaches the number of steps. */
  lemma {:induction false} CountIsLengthIffAllComplete(items: seq<Item>)
    ensures CompletedCount(items) == |items| <==> AllComplete(items)
  {
    if items != [] {
      CountIsLengthIffAllComplete(items[1..]);
      assert AllComplete(items) <==> items[0].completed && AllComplete(items[1..]);
    }
  }

  /** `(completedCount / items.length) * 100`; the list is never empty (there
      are six steps and toggling keeps them). */
  function CompletionPercentage(items: seq<Item>): (p: real)
    requires |items| > 0
    ensures 0.0 <= p <= 100.0
    ensures p == 100.0 <==> CompletedCount(items) == |items|
    ensures p == 0.0 <==> CompletedCount(items) == 0
  {
    CompletedCount(items) as real / |items| as real * 100.0
  }

  /** `completedCount === items.length`: the congratulations panel is shown. */
  predicate ShowsCongratulations(items: seq<Item>) {
    CompletedCount(items) == |items|
  }

  /** The panel shows exactly when every step is done (on any list, the empty
      one included), which on a non-empty list is exactly when the percentage
      is 100. */
  lemma CongratulationsIffComplete(items: seq<Item>)
    ensures ShowsCongratulations(items) <==> AllComplete(items)
    ensures |items| > 0 ==> (ShowsCongratulations(items) <==> CompletionPercentage(items) == 100.0)
  {
    CountIsLengthIffAllComplete(items);
  }

  /** With unique ids, toggling the step at `k` moves the count by exactly one:
      up when it was open, down when it was done. */
  lemma {:induction false} ToggleMovesCountByOne(items: seq<Item>, k: nat)
    requires UniqueIds(items)
    requires k < |items|
    ensures CompletedCount(Toggle(items, items[k].id))
         == CompletedCount(items) + (if items[k].completed then -1 else 1)
  {
    var id := items[k].id;
    var r := Toggle(items, id);
    assert r[1..] == Toggle(items[1..], id);
    if k == 0 {
      ToggleAbsent(items[1..], id);
    } else {
      assert items[0].id != id;
      ToggleMovesCountByOne(items[1..], k - 1);
    }
  }

  /** The initial list: six steps with distinct ids, none done. */
  lemma InitialItemsFacts()
    ensures |InitialItems| == 6
    ensures UniqueIds(InitialItems)
    ensures CompletedCount(InitialItems) == 0
    ensures CompletionPercentage(InitialItems) == 0.0
  {
  }

  /** The checklist component's state. */
  class ChecklistState {
    var items: seq<Item>

    /** The steps keep the initial ids, titles and descriptions, in order. */
    ghost predicate Valid()
      reads this
    {
      && |items| == |InitialItems|
      && forall i :: 0 <= i < |items| ==>
        && items[i].id == InitialItems[i].id
        && items[i].title == InitialItems[i].title
        && items[i].description == InitialItems[i].description
    }

    /** A valid state has the six steps with their distinct ids, so the
        percentage is defined and the toggle lemmas apply to it. */
    lemma ValidFacts()
      requires Valid()
      ensures |items| == 6
      ensures UniqueIds(items)
    {
      InitialItemsFacts();
    }

    constructor ()
      ensures Valid()
      ensures items == InitialItems
    {
      items := InitialItems;
    }

    /** toggleItem: replaces the items by their toggled copy; toggling a step
        of the list moves the completed count by exactly one. */
    method ToggleItem(id: string)
      requires Valid()
      modifies this
      ensures Valid()
      ensures items == Toggle(old(items), id)
      ensures forall k :: 0 <= k < |old(items)| && old(items)[k].id == id ==>
        CompletedCount(items) == CompletedCount(old(items)) + (if old(items)[k].completed then -1 else 1)
    {
      ValidFacts();
      ghost var before := items;
      items := Toggle(items, id);
      forall k | 0 <= k < |before| && before[k].id == id
        ensures CompletedCount(items) == CompletedCount(before) + (if before[k].completed then -1 else 1)
      {
        ToggleMovesCountByOne(before, k);
      }
    }
  }
}
