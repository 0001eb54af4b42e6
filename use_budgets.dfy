/** The budgets hook: the signed-in user's budget rows for the current month,
    a loading flag, and the operations that change them. The current time
    (`new Date().toISOString()`) and each request's outcome are parameters. */
module UseBudgets {
  import opened Common

  /** A row of the `budgets` table as the client holds it. */
  datatype Budget = Budget(id: string, category: string, allocatedAmount: real, spentAmount: real, monthYear: string)

  /** The record `updateBudget` sends to the `upsert` request. */
  datatype BudgetUpsert = BudgetUpsert(userId: string, category: string, allocatedAmount: real, spentAmount: real, monthYear: string)

  /** The filter and new value `updateSpentAmount` sends to the `update` request. */
  datatype SpentUpdate = SpentUpdate(userId: string, category: string, monthYear: string, spentAmount: real)

  predicate IsDigit(c: char) {
    '0' <= c <= '9'
  }

  /** The shape of `Date.prototype.toISOString()` for a four-digit year:
      `YYYY-MM-DDTHH:mm:ss.sssZ`. */
  predicate IsIsoTimestamp(s: string) {
    && |s| == 24
    && s[4] == '-' && s[7] == '-' && s[10] == 'T' && s[13] == ':' && s[16] == ':' && s[19] == '.' && s[23] == 'Z'
    && forall i :: 0 <= i < 23 && i !in {4, 7, 10, 13, 16, 19} ==> IsDigit(s[i])
  }

  /** A month key `YYYY-MM`. */
  predicate IsYearMonth(k: string) {
    |k| == 7 && k[4] == '-' && forall i :: 0 <= i < 7 && i != 4 ==> IsDigit(k[i])
  }

  /** `iso.slice(0, 7)`: the first seven characters, or the whole string when
      it is shorter. */
  function MonthKey(iso: string): (k: string)
    ensures |k| == if |iso| < 7 then |iso| else 7
    ensures k <= iso
  {
    if |iso| <= 7 then iso else iso[..7]
  }

  /** The month key of a timestamp is its year and month, `YYYY-MM`. */
  lemma MonthKeyOfTimestamp(iso: string)
    requires IsIsoTimestamp(iso)
    ensures IsYearMonth(MonthKey(iso))
    ensures MonthKey(iso) == iso[..4] + "-" + iso[5..7]
  {
  }

  /** `prev.find(b => b.category === category)` found something. */
  predicate HasCategory(budgets: seq<Budget>, category: string) {
    exists i :: 0 <= i < |budgets| && budgets[i].category == category
  }

  /** `prev.map(b => b.category === category ? data : b)`: every entry of the
      category becomes the returned row; nothing is added. */
  function ReplaceByCategory(budgets: seq<Budget>, category: string, row: Budget): (r: seq<Budget>)
    ensures |r| == |budgets|
    ensures forall i :: 0 <= i < |budgets| && budgets[i].category == category ==> r[i] == row
    ensures forall i :: 0 <= i < |budgets| && budgets[i].category != category ==> r[i] == budgets[i]
    ensures !HasCategory(budgets, category) ==> r == budgets
  {
    if budgets == [] then []
    else [if budgets[0].category == category then row else budgets[0]]
         + ReplaceByCategory(budgets[1..], category, row)
  }

  /** The reducer of a successful `updateBudget`: replace the category's
      entries if there are any, append the returned row otherwise. */
  function Upsert(budgets: seq<Budget>, category: string, row: Budget): (r: seq<Budget>)
    ensures HasCategory(budgets, category) ==> |r| == |budgets|
    ensures !HasCategory(budgets, category) ==> r == budgets + [row]
    ensures forall i :: 0 <= i < |budgets| && budgets[i].category == category ==> r[i] == row
    ensures forall i :: 0 <= i < |budgets| && budgets[i].category != category ==> r[i] == budgets[i]
    ensures row in r
  {
    if HasCategory(budgets, category) then ReplaceByCategory(budgets, category, row)
    else budgets + [row]
  }

  /** The record `updateBudget` upserts: `spent_amount ?? 0`, stamped with the month. */
  function UpsertRecord(userId: string, category: string, allocation: real, spent: Option<real>, iso: string): (u: BudgetUpsert)
    ensures spent.None? ==> u.spentAmount == 0.0
    ensures spent.Some? ==> u.spentAmount == spent.value
    ensures u.userId == userId && u.category == category && u.allocatedAmount == allocation
    ensures u.monthYear == MonthKey(iso)
  {
    BudgetUpsert(userId, category, allocation, if spent.Some? then spent.value else 0.0, MonthKey(iso))
  }

  /** The state a `useBudgets` instance holds for the signed-in user (or nobody). */
  class BudgetsState {
    /** The signed-in user's id; None when nobody is signed in. */
    const user: Option<string>
    var budgets: seq<Budget>
    var loading: bool

    constructor (user: Option<string>)
      ensures this.user == user
      ensures budgets == [] && loading
    {
      this.user := user;
      budgets := [];
      loading := true;
    }

    /** fetchBudgets: a `select` of the user's rows for the current month,
        returned as `month`; `data || []` turns a null result into the empty
        list. Loading ends whatever the outcome (the `finally` block). */
    method FetchBudgets(iso: string, reply: Reply<Option<seq<Budget>>>) returns (month: Option<string>)
      modifies this
      ensures user.None? ==> month.None? && budgets == old(budgets) && loading == old(loading)
      ensures user.Some? ==> month == Some(MonthKey(iso)) && !loading
      ensures user.Some? && reply.Ok? ==>
        budgets == (if reply.value.Some? then reply.value.value else [])
      ensures reply.Failed? ==> budgets == old(budgets)
    {
      if user.None? {
        return None;
      }
      month := Some(MonthKey(iso));
      match reply {
        case Ok(data) =>
          budgets := if data.Some? then data.value else [];
        case Failed =>
      }
      loading := false;
    }

    /** updateBudget: upserts the category's allocation for the current month
        and, on success, folds the returned row into the list. */
    method UpdateBudget(category: string, allocation: real, spent: Option<real>, iso: string, reply: Reply<Budget>)
      returns (sent: Option<BudgetUpsert>)
      modifies this
      ensures loading == old(loading)
      ensures user.None? ==> sent.None?
      ensures user.Some? ==> sent == Some(UpsertRecord(user.value, category, allocation, spent, iso))
      ensures user.Some? && reply.Ok? ==> budgets == Upsert(old(budgets), category, reply.value)
      ensures user.None? || reply.Failed? ==> budgets == old(budgets)
    {
      if user.None? {
        return None;
      }
      sent := Some(UpsertRecord(user.value, category, allocation, spent, iso));
      if reply.Ok? {
        budgets := Upsert(budgets, category, reply.value);
      }
    }

    /** updateSpentAmount: updates the spent amount of the category's row for
        the current month and, on success, replaces the category's entries by
        the returned row. It never appends. */
    method UpdateSpentAmount(category: string, spent: real, iso: string, reply: Reply<Budget>)
      returns (sent: Option<SpentUpdate>)
      modifies this
      ensures loading == old(loading)
      ensures user.None? ==> sent.None?
      ensures user.Some? ==> sent == Some(SpentUpdate(user.value, category, MonthKey(iso), spent))
      ensures user.Some? && reply.Ok? ==> budgets == ReplaceByCategory(old(budgets), category, reply.value)
      ensures user.None? || reply.Failed? ==> budgets == old(budgets)
    {
      if user.None? {
        return None;
      }
      sent := Some(SpentUpdate(user.value, category, MonthKey(iso), spent));
      if reply.Ok? {
        budgets := ReplaceByCategory(budgets, category, reply.value);
      }
    }
  }
}
