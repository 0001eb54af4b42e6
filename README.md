# Personal-finance dashboard: a Dafny model of its state updates and derived metrics

The dashboard shows a user's monthly budgets, tracked debts, an onboarding
checklist and learning modules. All storage is a hosted database, so the
client's own logic is small. It has three parts, and this project models and
proves each of them:

- **The two data hooks** (`useDebts`, `useBudgets`). Each holds a list of table
  rows and a `loading` flag. After a request succeeds, the hook updates the
  list locally. `UseDebts.DebtsState` and `UseBudgets.BudgetsState` are classes
  with those fields. Each request's outcome (`Ok(row)` or `Failed`) and the
  current ISO timestamp are method parameters. The list transforms (append,
  replace by id, remove by id, upsert by category, replace by category, and the
  `YYYY-MM` month key) are functions proved against their properties.
- **The onboarding checklist**. Toggling a step flips its `completed` flag.
  The completion count, the percentage and the congratulations panel are
  derived from the flags. `OnboardingChecklist.ChecklistState` holds the items.
- **Derived metrics**. These cover the totals, scores and emergency-fund
  figures of `useFinancialData`; the category merge, totals, clamps and status
  badge of the budget tracker; the fixed debt table and its classifiers; the
  fixed learning-module table with its counts, average, category
  de-duplication and labels; and the progress card's clamped percentage and
  value format.

Money and percentages are `real`. `Math.round(x)` is `(x + 0.5).Floor`, and
`reduce` with `+` is the left fold `Common.Sum`. Divisions carry a `> 0`
precondition on the divisor.

## Model

| member | source | states |
|---|---|---|
| `Common.Round` | src/components/ProgressCard.tsx:47 | `Math.round` lands within one half of its argument, with a half rounded up |
| `Common.Sum` | src/hooks/useFinancialData.tsx:9-11 | a `reduce` sum starting from 0 is non-negative when every term is |
| `Common.SumAppend` | src/hooks/useFinancialData.tsx:9-11 | a sum over a concatenation is the sum of the two sums |
| `Common.SumAtMost` | src/components/EducationHub.tsx:100 | a sum of n terms, each at most c, is at most n·c |
| `Common.ClampedPercentage` | src/components/ProgressCard.tsx:13 | `min(part/whole·100, 100)` is never above 100; it is the plain ratio when part ≤ whole, exactly 100 when part ≥ whole, and non-negative when part is |
| `UseDebts.ReplaceById` | src/hooks/useDebts.tsx:87 | the length is kept; every entry with the id becomes the returned row; every other entry is unchanged |
| `UseDebts.ReplaceAbsentId` | src/hooks/useDebts.tsx:87 | updating an id no entry carries leaves the list unchanged |
| `UseDebts.RemoveById` | src/hooks/useDebts.tsx:114 | the list never grows; an entry survives iff it was there and has a different id; deleting an absent id is a no-op |
| `UseDebts.RemoveByIdDistributes` | src/hooks/useDebts.tsx:114 | deleting from a concatenation deletes from each part, so survivors keep their relative order |
| `UseDebts.DebtsState.constructor` | src/hooks/useDebts.tsx:15-17 | the list starts empty and `loading` starts true |
| `UseDebts.DebtsState.FetchDebts` | src/hooks/useDebts.tsx:20-41 | with no user nothing changes; with a user `loading` ends false; on success the list becomes the returned rows, or empty for null data; on failure the list is unchanged |
| `UseDebts.DebtsState.AddDebt` | src/hooks/useDebts.tsx:43-71 | on success with a user the returned row is appended and all earlier entries are kept; otherwise the list is unchanged; `loading` is never touched |
| `UseDebts.DebtsState.UpdateDebt` | src/hooks/useDebts.tsx:73-100 | on success with a user the list becomes `ReplaceById` of the old list; otherwise it is unchanged; `loading` is never touched |
| `UseDebts.DebtsState.DeleteDebt` | src/hooks/useDebts.tsx:102-127 | on success with a user the list becomes `RemoveById` of the old list; otherwise it is unchanged; `loading` is never touched |
| `UseBudgets.MonthKey` | src/hooks/useBudgets.tsx:24 | `slice(0, 7)` is a prefix of the timestamp, seven characters long or the whole string when it is shorter |
| `UseBudgets.MonthKeyOfTimestamp` | src/hooks/useBudgets.tsx:24 | for a `toISOString` timestamp the key is `YYYY-MM`: the year, a dash and the month |
| `UseBudgets.ReplaceByCategory` | src/hooks/useBudgets.tsx:102 | the length is kept (it never appends); entries of the category become the returned row; others are unchanged; an absent category leaves the list unchanged |
| `UseBudgets.Upsert` | src/hooks/useBudgets.tsx:64-70 | a present category keeps the length and replaces every entry of that category; an absent one appends the row; other categories are unchanged; the returned row is in the list |
| `UseBudgets.UpsertRecord` | src/hooks/useBudgets.tsx:50-58 | the upserted record carries `spent_amount` 0 when none is given, the given amount otherwise, and the month key of the timestamp |
| `UseBudgets.BudgetsState.constructor` | src/hooks/useBudgets.tsx:15-17 | the list starts empty and `loading` starts true |
| `UseBudgets.BudgetsState.FetchBudgets` | src/hooks/useBudgets.tsx:20-43 | with no user nothing changes and no query is sent; with a user the query uses the month key and `loading` ends false; on success the list becomes the returned rows, or empty for null data; on failure it is unchanged |
| `UseBudgets.BudgetsState.UpdateBudget` | src/hooks/useBudgets.tsx:45-84 | with a user the record sent is `UpsertRecord`; on success the list becomes `Upsert` of the old list; with no user or on failure it is unchanged |
| `UseBudgets.BudgetsState.UpdateSpentAmount` | src/hooks/useBudgets.tsx:86-111 | with a user the update is filtered by user, category and month key; on success the list becomes `ReplaceByCategory` of the old list; with no user or on failure it is unchanged |
| `OnboardingChecklist.Toggle` | src/components/OnboardingChecklist.tsx:61-65 | length, order, ids, titles and descriptions are kept; an item's `completed` flag flips iff its id matches |
| `OnboardingChecklist.ToggleTwice` | src/components/OnboardingChecklist.tsx:62-64 | toggling the same id twice restores the list |
| `OnboardingChecklist.ToggleAbsent` | src/components/OnboardingChecklist.tsx:62-64 | toggling an id no item carries changes nothing |
| `OnboardingChecklist.CompletedCount` | src/components/OnboardingChecklist.tsx:67 | the completed count is at most the number of items |
| `OnboardingChecklist.CountIsLengthIffAllComplete` | src/components/OnboardingChecklist.tsx:67 | the count equals the number of items iff every item is completed |
| `OnboardingChecklist.CompletionPercentage` | src/components/OnboardingChecklist.tsx:68 | the percentage lies in [0,100]; it is 100 iff all items are counted and 0 iff none are |
| `OnboardingChecklist.CongratulationsIffComplete` | src/components/OnboardingChecklist.tsx:136 | on every list, the empty one included, the congratulations panel shows iff every item is completed; on a non-empty list, iff the percentage is 100 |
| `OnboardingChecklist.ToggleMovesCountByOne` | src/components/OnboardingChecklist.tsx:61-67 | with unique ids, toggling a present id moves the count by exactly one: down if the item was completed, up otherwise |
| `OnboardingChecklist.InitialItemsFacts` | src/components/OnboardingChecklist.tsx:16-59 | the initial list has six items with distinct ids, none completed, so the count and the percentage are 0 |
| `OnboardingChecklist.ChecklistState.constructor` | src/components/OnboardingChecklist.tsx:16-59 | the state starts as the initial list |
| `OnboardingChecklist.ChecklistState.ToggleItem` | src/components/OnboardingChecklist.tsx:61-65 | the items become `Toggle` of the old items; the six ids, titles and descriptions stay as initialised; toggling an id of the list moves the completed count by exactly one |
| `OnboardingChecklist.ChecklistState.ValidFacts` | src/components/OnboardingChecklist.tsx:16-65 | a valid checklist state has six items with distinct ids, so the percentage and the toggle-count lemmas apply to it |
| `UseFinancialData.TotalsAdditive` | src/hooks/useFinancialData.tsx:9-11 | the budget, spent and debt totals are 0 for empty lists and add up over concatenated lists |
| `UseFinancialData.EmergencyFundTarget` | src/hooks/useFinancialData.tsx:14 | the emergency-fund target is non-negative when every allocation is (its value, 3 × the total budget, is stated by `UseFinancialData.Summary`) |
| `UseFinancialData.EmergencyFundCurrent` | src/hooks/useFinancialData.tsx:15 | never negative; twice the unspent budget when spending is within budget, 0 otherwise |
| `UseFinancialData.EstimatedOriginalDebt` | src/hooks/useFinancialData.tsx:18 | with non-negative balances the 1.5 × estimate is at least the current total debt |
| `UseFinancialData.DebtPaidOff` | src/hooks/useFinancialData.tsx:19 | with non-negative balances the amount paid off lies between 0 and the estimated original debt |
| `UseFinancialData.PaidOffIsHalfTheDebt` | src/hooks/useFinancialData.tsx:18-19 | the estimated original debt is 1.5 × the total debt, so the amount paid off is half the total debt |
| `UseFinancialData.BudgetScore` | src/hooks/useFinancialData.tsx:22 | never negative; 0 without a positive budget; at most 100 when spending is non-negative; at least 100 with nothing spent; 0 once spending reaches the budget |
| `UseFinancialData.DebtScore` | src/hooks/useFinancialData.tsx:23 | 100 when the estimate is not positive; within [0,100] when the amount paid off is within the estimate |
| `UseFinancialData.DebtScoreIsConstant` | src/hooks/useFinancialData.tsx:18-23 | for any debts the debt score is 100/3 when the total debt is positive and 100 otherwise |
| `UseFinancialData.FinancialScore` | src/hooks/useFinancialData.tsx:22-24 | the score is never below 17; it is at most 100 while total spending is non-negative; without a positive budget it is 17 with debt and 50 without (pinned down with `DebtScoreIsConstant` and `FinancialScoreRange`) |
| `UseFinancialData.FinancialScoreRange` | src/hooks/useFinancialData.tsx:22-24 | with non-negative spending the rounded financial score lies between 17 and 100 |
| `UseFinancialData.Summary` | src/hooks/useFinancialData.tsx:26-43 | the monthly-budget card is spent against allocated; the emergency fund is `EmergencyFundCurrent` (non-negative) against 3 × budget; debt paid off is half the total debt against 1.5 × the total debt; the score card shows `FinancialScore`, at least 17 and at most 100 under non-negative spending, against a target of 100 |
| `BudgetTracker.DefaultCategoriesFacts` | src/components/BudgetTracker.tsx:18-67 | there are six default categories with distinct ids |
| `BudgetTracker.ToLower` | src/components/BudgetTracker.tsx:73 | `toLowerCase` keeps the length, moves each capital to its small letter, keeps every other character and leaves no capital |
| `BudgetTracker.FirstMatch` | src/components/BudgetTracker.tsx:73 | `find` stops at the first row whose lower-cased category is the id, or finds none iff no row matches |
| `BudgetTracker.MergeOne` | src/components/BudgetTracker.tsx:72-79 | a merged category keeps its id, name and colour, and takes spent and allocated from the first match, or 0 without one |
| `BudgetTracker.Merge` | src/components/BudgetTracker.tsx:72-79 | exactly one merged entry per default category, with the same ids and names in the same order |
| `BudgetTracker.MergeIgnoresUnknownCategory` | src/components/BudgetTracker.tsx:72-79 | inserting a loaded row whose category matches no default id leaves the merged list, and hence its totals, unchanged |
| `BudgetTracker.RemainingBudget` | src/components/BudgetTracker.tsx:93 | the remaining budget is non-negative while no category is overspent, and at most the total budget while spending is non-negative |
| `BudgetTracker.RemainingIsSumOfCategoryBalances` | src/components/BudgetTracker.tsx:91-93 | the remaining budget equals the sum over categories of budget minus spent |
| `BudgetTracker.CategoryPercentage` | src/components/BudgetTracker.tsx:132 | the per-category percentage and its rounded label are never above 100; it is 100 once spending reaches the budget |
| `BudgetTracker.CategoryRemaining` | src/components/BudgetTracker.tsx:133 | never below 0; budget minus spent while within budget, 0 otherwise |
| `BudgetTracker.StatusColor` | src/components/BudgetTracker.tsx:95-101 | destructive iff spent ≥ 80% of budget (the 100% branch included); default iff 60% ≤ spent < 80%; secondary below 60% |
| `BudgetTracker.StatusColorMonotone` | src/components/BudgetTracker.tsx:95-101 | spending more never yields a less severe badge |
| `DebtTracker.TotalPaidOff` | src/components/DebtTracker.tsx:65 | the total paid off is non-negative while no balance exceeds its original amount, and at most the original total while balances are non-negative |
| `DebtTracker.ProgressPercentage` | src/components/DebtTracker.tsx:66 | overall progress is non-negative while balances do not exceed originals, and at most 100 while balances are non-negative |
| `DebtTracker.PaidOff` | src/components/DebtTracker.tsx:130 | a debt's paid-off amount is non-negative iff its balance is within the original amount, and at most the original amount while the balance is non-negative |
| `DebtTracker.TotalPaidOffIsSumOfPaidOff` | src/components/DebtTracker.tsx:62-65 | total paid off (original minus debt) equals the sum of each debt's paid-off amount |
| `DebtTracker.DebtProgress` | src/components/DebtTracker.tsx:130-131 | per-debt progress lies in [0,100] when 0 ≤ balance ≤ original; it is 0 when nothing is paid and 100 when the balance is 0 |
| `DebtTracker.FixedTableFigures` | src/components/DebtTracker.tsx:19-113 | for the fixed table: total debt 26000, original 41000, minimum payments 640, paid off 15000, and overall progress shown as 37% |
| `DebtTracker.SumOfFour` | src/components/DebtTracker.tsx:62-64 | a four-entry `reduce` sum is the sum of its entries |
| `DebtTracker.InterestRateColor` | src/components/DebtTracker.tsx:78-82 | destructive iff rate ≥ 20, default iff 10 ≤ rate < 20, secondary iff rate < 10 |
| `DebtTracker.InterestRateColorMonotone` | src/components/DebtTracker.tsx:78-82 | a higher rate never yields a less severe badge |
| `DebtTracker.TypeColor` | src/components/DebtTracker.tsx:68-76 | the colour is grey iff the type is not one of the four known types |
| `DebtTracker.TypeColorDistinct` | src/components/DebtTracker.tsx:68-76 | distinct known types get distinct colours |
| `EducationHub.CompletedModules` | src/components/EducationHub.tsx:99 | the completed count is at most the number of modules, and 0 iff no module is completed |
| `EducationHub.InProgressModules` | src/components/EducationHub.tsx:130 | "In Progress" plus completed is the number of modules, and it is never negative |
| `EducationHub.ExperiencePoints` | src/components/EducationHub.tsx:148 | XP is a multiple of 25, at most 25 per module |
| `EducationHub.TotalProgress` | src/components/EducationHub.tsx:100 | the mean progress times the number of modules is the summed progress, and it is non-negative when every module's progress is |
| `EducationHub.TotalProgressIsPercentage` | src/components/EducationHub.tsx:100 | when each module's progress is in [0,100], so is their mean |
| `EducationHub.FixedTableFigures` | src/components/EducationHub.tsx:30-148 | for the fixed table: 2 completed, 4 in progress, 50 XP, and mean progress 265/6, shown as 44% |
| `EducationHub.FirstIndex` | src/components/EducationHub.tsx:111 | the first position of a value holds it, and no earlier position does |
| `EducationHub.Dedup` | src/components/EducationHub.tsx:111 | `[...new Set(s)]` has no repeats, holds exactly the values of `s`, and is no longer than `s` |
| `EducationHub.DedupKeepsFirstOccurrenceOrder` | src/components/EducationHub.tsx:111 | the de-duplicated values appear in the order of their first occurrence |
| `EducationHub.FirstIndexOfPrefix` | src/components/EducationHub.tsx:111 | a value's first occurrence in a prefix is its first occurrence in the whole sequence |
| `EducationHub.Categories` | src/components/EducationHub.tsx:111 | the category buttons are distinct, cover every module's category, and show no other value |
| `EducationHub.DifficultyColor` | src/components/EducationHub.tsx:102-109 | destructive iff Advanced, default iff Intermediate, secondary for Beginner and anything else |
| `EducationHub.ActionFor` | src/components/EducationHub.tsx:231-243 | Review iff completed; Continue iff not completed with progress > 0; Start otherwise |
| `EducationHub.ProgressBarIffContinue` | src/components/EducationHub.tsx:216 | the module's own progress bar shows exactly when its button says Continue |
| `ProgressCard.PercentLabel` | src/components/ProgressCard.tsx:47 | the rounded label is never above 100, is non-negative for non-negative values, and is 100 once the target is reached |
| `ProgressCard.FormatValue` | src/components/ProgressCard.tsx:15-24 | currency text is `$` followed by the localised value; percentage text is the value followed by `%`; number text is the localised value |

## Left out

- Requests to the hosted database, authentication, toasts and `console.error` are calls into code outside this model. Each request's outcome is a method parameter, and the signed-in user is a constructor parameter.
- The payloads of the debt insert and update requests are not modelled. They only go to the server, and the local list takes the row the server returns.
- Overlapping asynchronous requests, and the re-fetch that runs when the user changes (the `useEffect` hooks), are not modelled. Each method runs to completion.
- Each component that calls a hook gets its own copy of the hook's state. The model treats each state object on its own.
- Rendering is not modelled: markup, CSS classes, icons, dialogs, tabs, the loading spinner and the authentication redirect of the index page.
- The form dialogs (`AddDebtDialog`, `EditDebtDialog`, `EditBudgetDialog`) are not modelled. Their only logic is JavaScript float parsing (`parseFloat(x) || 0`) and resetting the form.
- IEEE-754 behaviour is not modelled. Dividing by a zero budget or target gives NaN or Infinity in JavaScript; this does happen with the default zero budgets. It is excluded by `> 0` preconditions. Rounding error in sums is also not modelled, since values are exact reals.
- `toLocaleString` and the `${value}` conversion are parameters of `ProgressCard.FormatValue`; number formatting itself is not modelled.
- `new Date().toISOString()` is a parameter. `UseBudgets.MonthKeyOfTimestamp` covers four-digit years only. For years outside 0000–9999, `toISOString` writes an extended signed year, and the first seven characters are then not `YYYY-MM`.
- `toLowerCase` is modelled for ASCII letters only.
- `OnboardingChecklist.CompletionPercentage` and `EducationHub.TotalProgress` require a non-empty list; both fixed lists have six entries, and toggling keeps the length.
