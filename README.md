# Expense manager: data layer model

This project models the in-memory data layer of a browser-based personal
finance tracker (`script.js`). Users sign up and sign in locally. Each user
records income and expense transactions, sets one budget per category and
tracks savings goals. The dashboard, the budgets page, the goals page and two
charts show figures computed from those lists.

The model has two halves.

- **State.** `App.AppState` is a class holding the stored user list, the
  session's user, the session user's three collections (transactions,
  budgets, goals) and the per-user stored collections. Its methods are the
  handlers: sign-up, sign-in, sign-out, saving the currency setting, adding
  and deleting a transaction, setting a budget and adding a goal. Each method
  states its whole new state. `Valid()` is kept by every handler. It says that
  emails are unique, that the session's user is a stored user, and that no
  list holds two budgets for one category.
- **Aggregates.** These are pure functions and read-only methods. They give
  the dashboard totals, the category map and date series behind the charts,
  budget progress with its colour class, and goal progress.

Modules: `Records` (the entities), `StorageKey` (the per-user key),
`Collections` (user lookup, transaction removal, budget replacement),
`StringOrder` (the order `sort()` gives dates), `Aggregates`, `Progress`
and `App`.

Modelling choices:

- Amounts stay text, as the source stores them. `parseFloat` is the
  parameter `parse: string -> real`, which gives exact real arithmetic.
  Emptiness checks on form fields are therefore exact string checks.
- The password encoding and decoding are the parameters `encrypt` and
  `decrypt`. The source's fallbacks (return the input when the library throws)
  are part of those functions.
- Ids (`Date.now()`) and the answer of the delete confirmation dialog are
  parameters.
- Local storage is modelled as `users` (the stored user list) and three maps
  from storage key to list. The session's user (`currentUser`) stands for both
  the variable and its stored copy, because the source always writes the two
  together.
- Sign-in and sign-up end by loading the user's data, as the source's page
  switch does. Loading is skipped when the key is missing or empty, since the
  source tests the key for truthiness.

In these places the model follows the code where a reader might expect otherwise:

- The storage key *replaces* every character outside `[A-Za-z0-9]` with `_`.
  It does not strip them (script.js:103).
- Sign-out clears the session and the transactions only. Budgets and goals
  stay in memory (script.js:72-77).
- The goal percentage is rounded first and then capped at 100
  (script.js:373). `Progress.CapThenRoundAgrees` proves that capping first
  gives the same number.
- The category map is not claimed to keep insertion order. JavaScript lists
  integer-like keys first.

## Model

| member | source | states |
|---|---|---|
| StorageKey.Sanitize | script.js:103 | the key has the email's length; each letter or digit stays in place and every other character becomes `_` |
| StorageKey.UserKey | script.js:101-104 | no key without a session; otherwise the sanitized email of the session's user |
| StorageKey.Usable | script.js:108 | a key lets data be loaded or saved exactly when it is present and not the empty string (a definition, used by every load and store) |
| StorageKey.SanitizeAlphabet | script.js:103 | a key holds only letters, digits and underscores |
| StorageKey.SanitizeKeepsAlphaNum | script.js:103 | an all-alphanumeric email is its own key |
| StorageKey.SanitizeIdempotent | script.js:103 | sanitizing a key again leaves it unchanged |
| StorageKey.SameKeyIff | script.js:103 | two emails of equal length share a key iff they agree wherever either has a letter or digit |
| StorageKey.SharedPartition | script.js:103 | the distinct emails "a.b" and "a-b" get the same key, so they share stored data |
| StringOrder.Less | script.js:305 | the order `sort()` puts strings in: by the first differing character, a proper prefix first (a definition; its properties are the three lemmas below) |
| StringOrder.LessIrreflexive | script.js:305 | no date string sorts before itself |
| StringOrder.LessTransitive | script.js:305 | the string order used by `sort()` is transitive |
| StringOrder.LessTotal | script.js:305 | any two distinct strings are ordered one way or the other |
| StringOrder.StrictlySortedDistinct | script.js:305 | a strictly ascending list of keys has no repeats |
| StringOrder.Insert | script.js:305 | inserting into an ascending list keeps it ascending and adds exactly the new key |
| Aggregates.Total | script.js:155-162 | the sum of the parsed amounts of the transactions a selector picks (a definition; `TotalAppend`, `TotalNonNegative` and `ComputeTotals` state its properties) |
| Aggregates.TotalAppend | script.js:155-162 | the sum over two lists joined is the sum of the two sums |
| Aggregates.TotalNonNegative | script.js:155-162 | non-negative amounts give a non-negative sum |
| Aggregates.ComputeTotals | script.js:152-165 | income is the sum over type "income", expense over type "expense"; balance is income minus expense; savings is the larger of balance and zero |
| Aggregates.OtherKindIgnored | script.js:158-162 | a transaction of any other type changes neither income nor expense |
| Aggregates.GroupTotals | script.js:250-253 | the grouped map built from the end of the list (a definition; `GroupTotalsMeaning` and `GroupTotalsSum` state what it holds) |
| Aggregates.GroupTotalsMeaning | script.js:250-253 | the map's keys are exactly the keys that occur, and each value is the sum for its key |
| Aggregates.GroupTotalsSum | script.js:299-302 | the map's values add up to the total of the transactions counted: expenses for the category map, all amounts for the date map |
| Aggregates.Tally | script.js:250-253 | the accumulation loop builds the grouped map one transaction at a time |
| Aggregates.CategoryBreakdown | script.js:249-256 | keys are exactly the categories of expense transactions; each value is that category's expense sum; the values add up to total expense |
| Aggregates.SortKeys | script.js:305 | the keys come out strictly ascending, each exactly once |
| Aggregates.Table | script.js:304-308 | the table starts with the `['Date','Total']` header and has one point per key, in the given order |
| Aggregates.DateSeries | script.js:299-308 | after the header, one row per distinct date, strictly ascending; each row holds the sum of all transactions on that date, whatever their type |
| Aggregates.SameDateScenario | script.js:299-302 | amounts 20 and 30 on one date give that date the total 50 |
| Progress.Min | script.js:343 | `Math.min`: the result is at most both arguments and is one of them |
| Progress.BudgetPercent | script.js:343 | at most 100; at least 0 when nothing negative is spent; the exact share while within budget; 100 once spent reaches the amount |
| Progress.ColorClass | script.js:344 | `danger` iff above 90, `warning` iff above 70 and at most 90, empty iff at most 70 |
| Progress.BarColor | script.js:345 | red iff above 90, amber iff above 70 and at most 90, purple iff at most 70 |
| Progress.BarColorFollowsClass | script.js:344-345 | the bar colour is red, amber or purple exactly when the class is `danger`, `warning` or empty |
| Progress.BudgetLineOf | script.js:338-345 | spent is the sum of the expenses in the budget's category, and equals the category chart's value for it, or zero; the percent is `BudgetPercent` of spent against the amount; the class and the bar colour are `ColorClass` and `BarColor` of the percent |
| Progress.SpentGrows | script.js:339-341 | adding an expense in the budget's category raises spent by its amount |
| Progress.Round | script.js:373 | the nearest integer, halves rounded up |
| Progress.GoalPercent | script.js:373 | at most 100; at least 0 for a non-negative current amount; 100 once the target is reached; below the target, within a half of the exact percentage |
| Progress.CapThenRoundAgrees | script.js:373 | capping at 100 before rounding gives the same percentage |
| Progress.GoalPercentOf | script.js:372-373 | a goal's percentage is at most 100, 100 once its current amount reaches the target, and below the target within a half of the exact percentage |
| Progress.BudgetScenario | script.js:338-345 | an expense of 50 against a budget of 100 in the same category: spent 50, percent 50, no warning class |
| Collections.FindByEmail | script.js:437 | the position of the first user with exactly that email; none iff no user has it |
| Collections.FindByEmailDistinct | script.js:506 | with distinct emails, the lookup finds the one user holding the email |
| Collections.AppendNewEmail | script.js:466-475 | appending a user whose email is new keeps emails distinct |
| Collections.WithoutId | script.js:595 | the result is no longer than the list, and holds only transactions of the list whose id differs |
| Collections.WithoutIdContents | script.js:595 | every transaction with another id keeps its multiplicity; none with the id remains |
| Collections.WithoutIdAppend | script.js:595 | removal acts element by element, so the remaining transactions keep their order |
| Collections.WithoutIdAbsent | script.js:595 | deleting an id nobody has changes nothing |
| Collections.WithoutIdIdempotent | script.js:595 | deleting the same id twice equals deleting it once |
| Collections.WithoutCategory | script.js:607 | the result is no longer than the list, and holds only budgets of the list of another category |
| Collections.WithoutCategoryContents | script.js:607 | exactly the budgets of other categories remain |
| Collections.WithoutCategoryAppend | script.js:607 | the filter acts element by element, so the kept budgets keep their order |
| Collections.WithoutCategoryKeepsUnique | script.js:607 | filtering keeps at most one budget per category |
| Collections.WithoutCategoryAbsent | script.js:607 | filtering out a category no budget has changes nothing |
| Collections.Upsert | script.js:607-608 | the new budget is last, no other budget has its category, and every budget of another category is kept |
| Collections.UpsertKeepsOthers | script.js:607-608 | the budgets of the other categories are the same list, in the same order, before and after |
| Collections.UpsertKeepsUnique | script.js:607-608 | saving a budget keeps at most one budget per category |
| App.Stored | script.js:109-111 | the list stored under a key, or the empty list when nothing is stored there |
| App.PersistThenStored | script.js:108-128 | reading back a list saved under a usable key gives that list: save then load is the identity |
| App.Persist | script.js:114-129 | with a usable key, the key maps to the new list and every other key keeps its list; with no usable key nothing is written |
| App.AppState.constructor | script.js:19-22 | an empty store with no session |
| App.AppState.LoadUserData | script.js:106-112 | with a usable key, the three lists are the stored ones, or empty when nothing is stored; otherwise they stay as they were |
| App.AppState.CreateAccount | script.js:456-481 | refused on mismatched confirmation or a taken email, changing nothing; otherwise appends one user with the encoded password and currency USD, makes it the session and loads its data; emails stay distinct |
| App.AppState.SignIn | script.js:429-454 | succeeds iff the first user with that exact email has a stored password that decodes to the input or equals it; then that user is the session and its data is loaded; otherwise nothing changes |
| App.AppState.SaveSettings | script.js:495-513 | without a session nothing changes; otherwise the currency is set on the session user and on the first stored user with that email |
| App.AppState.SignOut | script.js:72-77 | no session and no transactions afterwards; budgets and goals are unchanged |
| App.AppState.SaveTransaction | script.js:571-591 | with any required field empty nothing changes; otherwise exactly one transaction is appended and the list is stored under the user's key |
| App.AppState.DeleteTransaction | script.js:593-598 | if not confirmed nothing changes; otherwise the list loses exactly the transactions with that id and is stored |
| App.AppState.SaveBudget | script.js:600-613 | with an empty category or amount nothing changes; otherwise the budget replaces that category's budget, goes last, and the list is stored |
| App.AppState.SaveGoal | script.js:615-632 | with an empty name or target nothing changes; otherwise one goal is appended and the list is stored |
| App.AppState.Dashboard | script.js:152-165 | nothing without a session; otherwise the totals of the session's transactions, savings being the larger of balance and zero |
| App.AppState.BudgetList | script.js:328-345 | one entry per budget, in order, each being `BudgetLineOf` that budget: its category's expense sum, the capped percent, and the class and bar colour that follow from it |
| App.AppState.GoalList | script.js:362-373 | one percentage per goal, in order, each at most 100 |
| App.SignUpThenSignIn | script.js:429-481 | sign-up, sign-out, then sign-in with the same password succeeds with currency USD |
| App.DuplicateSignUp | script.js:466 | a second sign-up with the same email is refused and the store keeps one user |

## Left out

- DOM rendering is not modelled: tables, the recent list, toasts, modals, navigation, form resets and the empty-state placeholders. None of it has a contract to state.
- Theme handling is not modelled: `applyTheme`, `matchMedia`, and the theme part of `saveSettings` with its stored mode.
- Chart drawing is not modelled: Chart.js and Google Charts instances, `destroy`, `draw`, and the `isGoogleChartsLoaded` guard. Only the data given to the charts is modelled.
- `encryptPassword` / `decryptPassword`: the AES library is foreign code, so these are the parameters `encrypt` and `decrypt`.
- `formatCurrency` and `getCurrentCurrency` are not modelled: locale formatting comes from a library.
- `loadCurrentUser` is not modelled: restoring the session on page load is I/O. So is its backfill of a missing `settings` field, because every modelled user record has settings.
- JSON parsing is not modelled. A malformed stored user list (read as empty) and a malformed per-user list (which throws in `loadUserData`) do not arise, because the stored lists are values.
- The reset button (`localStorage.clear()` and reload) is not modelled.
- The transactions table's date-descending sort and its five-item recent list are not modelled. They only order the display.
- The form readers' `trim()` is not modelled: emails and names arrive already trimmed.
- Floating point is not modelled: `parse` is exact. `NaN` from non-numeric or empty text (an empty goal `current` amount, for one) is out of scope. So are the `Infinity` and `NaN` that a zero budget amount or goal target produces (see below).
- Progress.BudgetPercent: requires a positive budget amount, and so do Progress.BudgetLineOf and App.AppState.BudgetList. A zero amount is left out. There, anything spent makes the quotient `Infinity`, which `Math.min` caps to 100 (class `danger`, red bar); nothing spent gives `NaN` (no class, purple bar). A negative amount, which the form accepts, is left out too: it gives a negative percentage.
- Progress.GoalPercent: requires a positive target, and so do Progress.GoalPercentOf and App.AppState.GoalList. A zero target is left out. There, a positive current amount gives `Infinity`, which `Math.round` keeps and `Math.min` caps to 100; a current amount of zero gives `NaN`. A negative target gives a negative percentage and is left out as well.
- Progress.BudgetLineOf, App.AppState.BudgetList: require a positive amount for every budget they cover, for the reason given for Progress.BudgetPercent.
- Progress.GoalPercentOf, App.AppState.GoalList: require a positive target for every goal they cover, for the reason given for Progress.GoalPercent.
- StorageKey.Sanitize: works on characters. The source's regular expression works on UTF-16 code units, so a character outside the Basic Multilingual Plane becomes two underscores there and one here.
- StringOrder.Less: compares characters by code point, while JavaScript's `sort()` compares UTF-16 code units. The two agree on the ASCII date strings the application stores.
- Aggregates.SortKeys: models `Object.keys(...).sort()` by inserting each key into a sorted list. It states the result, not the library's algorithm.
- Aggregates.CategoryBreakdown: category names (and dates) that are `Object.prototype` property names are not modelled. The source fills a plain `{}`, so for a category such as `toString` the inherited method is read in place of zero and the value becomes a string, and an assignment to `__proto__` is ignored, so that key never reaches `Object.keys`. The model gives such names their numeric sum and key, as for any other name, and so the budgets page's spent figure (a plain sum) agrees with the chart's value here but not in the source for these names.
- Aggregates.Tally: the same `Object.prototype` names are left out, for the same reason.
- Aggregates.DateSeries: the same `Object.prototype` names are left out for dates, for the same reason.
- Progress.BudgetLineOf: its clause that spent equals the category chart's value holds in the source only for category names that are not `Object.prototype` property names.
- Aggregates.CategoryBreakdown: returns a map, so it says nothing about the order of the chart's labels.
