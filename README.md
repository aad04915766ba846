# Personal finance tracker: budget, ledger and overview logic in Dafny

This project models the logic of a personal finance tracker. The tracker is an Express/Mongo REST API with a React client. The model covers:

- **Budgets.** `setBudget` validates a request. It then updates the amount of the first stored Budget of the caller that overlaps the requested period, or it creates a new Budget. Each User document also keeps its own copy of its budgets. `checkBudget` reads that embedded copy, sums the caller's transactions over the range, and says whether the budget is under control or exceeded.
- **Ledger.** Transactions can be added, listed, listed by date range, updated and deleted.
- **The Budget schema.** Every amount must be at least 0, and the end date must come strictly after the start date.
- **The client reducers.** The finance reducer and the authentication reducer, plus the request flows that dispatch into the authentication reducer.
- **The spending breakdown.** The wealth-overview chart groups transactions by description in a `Map`, lists them in first-occurrence order, and adds up a total.

Files:

- `common.dfy`: `Option` and the identifier types.
- `budget_schema.dfy`: the Budget document, its schema rules (`Violations`) and the record invariant `Valid`.
- `documents.dfy`: the Transaction and User documents, and the embedded budget copy.
- `controller_queries.dfy`: the parts of the controller that are pure expressions. These are the inclusive overlap test, the first-match lookups, the store queries, the summing `reduce` and the `map` over the embedded copies. Lemmas about them live here too.
- `user_controller.dfy`: the class `Store`, which holds the users, the Budget collection, the Transaction collection and the next fresh id. Each handler is a method of `Store`. Methods that change the store state their whole new state, and `Valid()` is the store invariant that they preserve. Every Budget satisfies the schema, every embedded copy holds values the schema accepts, and transaction ids are fresh and distinct.
- `controller_scenarios.dfy`: concrete request sequences against a `Store`.
- `finance_context.dfy`, `auth_context.dfy`: the reducers as total functions.
- `wealth_overview.dfy`, `wealth_overview2.dfy`: the aggregation as imperative methods. The JavaScript `Map` is modelled by its keys in insertion order plus a Dafny `map` of running sums.

Conventions:

- Dates are integer timestamps and amounts are integers.
- A request field that is absent, `null` or an empty string is `None`. updateTransaction is the exception: it tells a field that is left out (`Edit.Omitted`) from one sent as `""` or `null` (`Edit.Emptied`), because Mongoose treats them differently.
- A budget amount is falsy when it is absent or `0`. A date that is present is truthy.
- Where the handler reads `req.user.id`, the caller's id is a plain parameter.
- Mongoose behaviour that the handlers depend on is written out:
  - a `save()` runs the schema validators, and a validation failure ends in a 500 with nothing written;
  - `required` rejects an empty string;
  - validators other than `required` skip missing values;
  - `findByIdAndUpdate` leaves alone any field that is missing from the request;
  - `findByIdAndUpdate` casts a Date or Number field sent as `""` to `null`, and with `runValidators` the `required` rule then fails it.

Behaviour worth knowing:

- **The budget copies can diverge.** When a new period overlaps a stored Budget without matching its dates, the Budget collection gets the new amount. The embedded copy changes only when its dates match the request exactly (userController.js:129-134). `checkBudget` reads the embedded copy, so it keeps reporting the old amount. `ControllerScenarios.CopiesDiverge` shows this.
- **No ownership checks.** updateTransaction and deleteTransaction act on any id, and their routes carry no authentication (userRoutes.js:13-14). So `UpdateTransaction` and `DeleteTransaction` take no caller.
- **A negative budget is a 500, not a 400.** A negative amount passes the controller's checks (userController.js:107-112) and then fails `min: 0` (Budget.js:12) when the Budget is saved. The result is a 500 and nothing is written.

## Model

| member | source | states |
|---|---|---|
| `BudgetSchema.Violations` | backend/models/Budget.js:3-27 | Each rule fails exactly in its own case. The required fields fail when missing. `min: 0` fails when the amount is below 0. The end-date validator fails when the end date is not after the start date, including when the start date is missing. |
| `BudgetSchema.AcceptedIffComplete` | backend/models/Budget.js:4-27 | A document is accepted exactly when all four fields are present, the amount is at least 0 and the end date is after the start date. |
| `BudgetSchema.SaveAcceptsIffValid` | backend/models/Budget.js:9-27 | Saving a complete record succeeds exactly when it satisfies the record invariant `Valid`. |
| `ControllerQueries.FirstOverlappingBudget` | backend/controllers/userController.js:119-123 | Returns the first Budget of the user that overlaps with inclusive bounds (`startDate <= end && endDate >= start`). No earlier Budget matches. `None` exactly when no Budget matches. |
| `ControllerQueries.FirstOverlappingEntry` | backend/controllers/userController.js:178-181 | Returns the first embedded copy that overlaps the range with inclusive bounds. No earlier copy overlaps. `None` exactly when no copy overlaps. |
| `ControllerQueries.IndexOfTransaction` | backend/controllers/userController.js:219-223 | Returns the position of the transaction with the given id. `None` exactly when no transaction has that id. |
| `ControllerQueries.OwnedBy` | backend/controllers/userController.js:68 | Keeps exactly the caller's transactions, each as many times as the store holds it. |
| `ControllerQueries.OwnedInRange` | backend/controllers/userController.js:86-92 | A transaction is kept exactly when it is the caller's and `start <= date <= end`. |
| `ControllerQueries.OwnedInRangeCounts` | backend/controllers/userController.js:187-190 | The range query keeps each matching transaction as many times as the store holds it, and nothing else. |
| `ControllerQueries.OwnedInRangeConcat` | backend/controllers/userController.js:86-92 | The range query keeps store order: querying a concatenation gives the concatenation of the two queries. |
| `ControllerQueries.UpdateExactPeriod` | backend/controllers/userController.js:129-134 | Every embedded copy keeps its dates. A copy changes exactly when its start and end equal the request's and its amount differs. A copy with matching dates gets the new amount. |
| `ControllerQueries.NoExactPeriodNoChange` | backend/controllers/userController.js:129-134 | When no copy has exactly the requested dates, the update path leaves every copy as it was, even when a Budget overlaps. |
| `ControllerQueries.UpdateExactPeriodKeepsValid` | backend/controllers/userController.js:129-134 | Writing a non-negative amount keeps every embedded copy acceptable to the Budget schema. |
| `ControllerQueries.Total` | backend/controllers/userController.js:192 | The summing `reduce`: non-negative amounts give a non-negative sum, and non-positive amounts a non-positive one. |
| `ControllerQueries.TotalConcat` | backend/controllers/userController.js:192 | The summing `reduce` of a concatenation is the sum of the two totals. |
| `ControllerQueries.TotalPermutation` | backend/controllers/userController.js:192 | The summing `reduce` gives the same total for any reordering of the transactions. |
| `ControllerQueries.SpentIsOrderIndependent` | backend/controllers/userController.js:187-192 | The spend that checkBudget computes does not depend on the order in which the store returns transactions. |
| `ControllerQueries.SpentAfterAppend` | backend/controllers/userController.js:187-192 | Adding a transaction raises a range's spend by its amount exactly when it is the user's and dated inside the range. Otherwise the spend is unchanged. |
| `UserController.Store.Valid` | backend/models/Budget.js:9-27 | The store invariant that every handler keeps. Every stored Budget passes all the schema rules (no `Violations`) and belongs to a known user. Every embedded copy holds values the schema accepts. Transaction ids are fresh and distinct. |
| `UserController.Store.SetBudget` | backend/controllers/userController.js:102-162 | Returns 400 with nothing written when amount (including 0), start or end is falsy, or when start is not before end. Returns 404 for an unknown user. Returns 500 with nothing written for a negative amount. Otherwise, if a Budget overlaps, only its amount changes, no Budget is added and the embedded copies change through `UpdateExactPeriod`. If none overlaps, exactly one Budget `{caller, amount, start, end}` and one embedded copy are appended. Transactions are untouched. `Valid()` is preserved. |
| `UserController.Store.CheckBudget` | backend/controllers/userController.js:164-212 | Returns 400 exactly when a date is missing. Returns 404 exactly when the user is unknown or no embedded copy overlaps, so the budget never defaults to 0. On success, the budget is the first overlapping copy's amount, the spend is the sum over the caller's transactions in the inclusive range, and the verdict is "under control" exactly when spend <= budget. |
| `UserController.Store.AddTransaction` | backend/controllers/userController.js:45-63 | Returns 404 with nothing written for an unknown user. Returns 500 with nothing written when a required field is missing. Otherwise it appends one transaction tagged with the caller and a fresh id, appends that id once to the caller's `transactions`, and changes nothing else. |
| `UserController.Store.AllTransactions` | backend/controllers/userController.js:65-74 | Returns exactly the caller's transactions, in store order. |
| `UserController.Store.DateTransactions` | backend/controllers/userController.js:76-100 | Returns 400 exactly when a bound is missing. Otherwise returns exactly the caller's transactions dated inside the inclusive range, in store order. |
| `UserController.Store.UpdateTransaction` | backend/controllers/userController.js:214-233 | A date, description or amount sent empty fails the `required` rules with a 500, even for an unknown id. An unknown id returns 404. Both leave the store unchanged. Otherwise only that transaction changes: it takes the fields that were sent and keeps its id and owner. |
| `UserController.Store.DeleteTransaction` | backend/controllers/userController.js:235-249 | An unknown id returns 404 with the store unchanged. Otherwise exactly the transaction with that id is removed. The id stays in the owner's `transactions`. |
| `UserController.Store.UpdateProfile` | backend/controllers/userController.js:14-43 | Returns 404 for an unknown user. A truthy password returns 500 with nothing saved, because `bcrypt` is not imported. Otherwise a truthy name or email replaces the stored one, and the reply echoes the result. |
| `UserController.Store.UserImage` | backend/controllers/userController.js:251-274 | Returns 400 for a missing picture, before the user is looked up. Returns 404 for an unknown user. Otherwise only the caller's `profilePicture` changes. |
| `ControllerScenarios.SpendUnderBudget` | backend/controllers/userController.js:187-205 | Against a budget of 200 over days 1..10, spending 100 on day 2 and 50 on day 5 is under control at 150. |
| `ControllerScenarios.SpendOverBudget` | backend/controllers/userController.js:187-205 | Adding 100 on day 6 takes the spend to 250, which exceeds the budget. |
| `ControllerScenarios.CopiesDiverge` | backend/controllers/userController.js:119-134 | Setting 500 over days 1..31 and then 700 over days 15..45 gives a stored Budget of 700. The embedded copy stays at 500, and checkBudget reports 500. |
| `ControllerScenarios.ZeroBudgetRejected` | backend/controllers/userController.js:107-109 | An amount sent as the JSON number 0 is rejected with 400 and no Budget is stored. |
| `FinanceContext.InitialState` | frontend/finance/src/context/FinanceContext.jsx:3-7 | No transactions, a budget of 0, and no total spent. |
| `FinanceContext.Reduce` | frontend/finance/src/context/FinanceContext.jsx:9-34 | ADD_TRANSACTION puts the payload first and grows the list by one. SET_BUDGET, SET_TRANSACTIONS and UPDATE_TOTAL_AMOUNT_SPENT each replace only their own field. Every other type throws "Unhandled action type". |
| `FinanceContext.AddsPrependNewestFirst` | frontend/finance/src/context/FinanceContext.jsx:11-15 | Dispatching ADD_TRANSACTION for each record puts them newest first in front of the old list. The budget and total are unchanged. |
| `FinanceContext.SetTransactionsOverridesAdds` | frontend/finance/src/context/FinanceContext.jsx:11-25 | A SET_TRANSACTIONS after any number of additions leaves exactly the fetched list. |
| `AuthContext.InitialState` | frontend/finance/src/context/AuthContext.jsx:5-9 | No user, not loading, and no error. |
| `AuthContext.Reduce` | frontend/finance/src/context/AuthContext.jsx:11-24 | REQUEST sets loading, clears the error and keeps the user. SUCCESS sets the user, stops loading and keeps the error. ERROR sets the error, stops loading and keeps the user. LOGOUT clears the user and keeps loading and the error. Other types leave the state unchanged. |
| `AuthContext.RequestFlow` | frontend/finance/src/context/AuthContext.jsx:29-111 | The signup, login, getProfile and updateUserProfile flows (logout excluded) always end not loading. On success it holds the user with no error. On failure it holds the message and keeps the user. |
| `AuthContext.LogoutFlow` | frontend/finance/src/context/AuthContext.jsx:63-75 | A successful logout clears the user but leaves loading true. A failed one records the message and stops loading. |
| `AuthContext.LoginThenLogoutStaysLoading` | frontend/finance/src/context/AuthContext.jsx:46-75 | A successful login followed by a successful logout ends with no user, no error and loading still true. |
| `WealthOverview.Descriptions` | frontend/finance/src/components/WealthOverview.jsx:37-51 | Lists each description that occurs in the input exactly once, and nothing else. |
| `WealthOverview.DescriptionsGrowByAppending` | frontend/finance/src/components/WealthOverview.jsx:36-51 | The descriptions of a prefix of the input are a prefix of the descriptions of the whole input, which is the order of first occurrence. |
| `WealthOverview.GroupedTotal` | frontend/finance/src/components/WealthOverview.jsx:54-59 | Summing the per-description amounts gives the sum of all input amounts. |
| `WealthOverview.SliceTotal` | frontend/finance/src/components/WealthOverview.jsx:54-57 | The `reduce` over the slices: non-negative amounts give a non-negative total, and non-positive amounts a non-positive one. |
| `WealthOverview.SliceTotalOfGroups` | frontend/finance/src/components/WealthOverview.jsx:54-57 | The `reduce` over the aggregated list equals the sum of the grouped amounts. |
| `WealthOverview.KeyedTotalAppend` | frontend/finance/src/components/WealthOverview.jsx:38-46 | Over distinct descriptions, one more transaction raises the grouped sum by its amount exactly when its description is among them. |
| `WealthOverview.GroupByDescription` | frontend/finance/src/components/WealthOverview.jsx:37-47 | The `Map` ends up with the distinct descriptions as keys, in first-occurrence order, each holding the sum of its amounts. |
| `WealthOverview.AggregateByDescription` | frontend/finance/src/components/WealthOverview.jsx:34-59 | The result has one slice per distinct description, in first-occurrence order and with no repeats, and each input description appears. Each slice carries the sum of its description's amounts. The total equals the sum of all input amounts. Empty input gives no slices and a total of 0. |
| `WealthOverview.ChartLabels` | frontend/finance/src/components/WealthOverview.jsx:71 | There is one label per slice, and no label is empty. |
| `WealthOverview.ChartLabel` | frontend/finance/src/components/WealthOverview2.jsx:69 | A non-empty description is its own label. An empty one is labelled "Miscellaneous". |
| `WealthOverview2.Refresh` | frontend/finance/src/components/WealthOverview2.jsx:14-66 | An overview is produced exactly when both dates are set. Each description then appears once with the sum of its amounts, and the total equals the sum of all input amounts. |

## Left out

- `getUserProfile` (userController.js:5-12) is a plain lookup with no logic to state.
- **Password hashing.** `updateProfile` calls `bcrypt.hash` (userController.js:28), but `bcrypt` is never imported. The model keeps only the resulting failure, not hashing.
- **Email uniqueness.** The User schema is not part of this model, so the model does not enforce unique emails.
- **Store and server failures.** Store I/O failures, the `catch` blocks they lead to, and Mongo cast errors on malformed ids are not modelled. The store never fails, and ids are naturals.
- **Field types and validation.**
  - Dates are integers, so `new Date(string)` parsing and the `NaN` of a malformed date are not modelled.
  - Amounts are integers, so JavaScript floating-point arithmetic is not modelled.
  - A request field of the wrong type is not modelled.
- `ControllerScenarios.ZeroBudgetRejected` covers only an amount sent as the JSON number 0. The project's own client sends the amount as a string (SetBudget.jsx:11, 26). `"0"` is truthy, so it passes the check at userController.js:107 and a budget of 0 is stored. The model does not capture that case, because amounts are integers.
- **No atomicity.** The two writes of setBudget (Budget, then User) and of userTransaction (Transaction, then User) run one after the other with nothing in between. Concurrent requests and a crash between the two writes are not modelled.
- **Out of scope.**
  - `createdAt` (Budget.js:28-31) is a clock read.
  - Routing and JWT/cookie authentication are not modelled.
  - The client's `fetch` calls, the provider functions that wrap them, the loading flags of the overview components, all rendering and charts, CheckBudget.jsx's progress colour and the image upload are not modelled.
- `UserController.Store.UpdateTransaction`: a date sent as a non-empty string that is not a date fails Mongoose's cast with a 500. The model does not capture this, because dates are integers.
- `AuthContext.RequestFlow`: the caller chooses the fetch outcome. getProfile and updateUserProfile test `!response`, not `!response.ok`, so an error status can still dispatch SUCCESS. The model covers that only when the caller passes that outcome.
- `FinanceContext.Reduce`: payloads are typed (a number for SET_BUDGET and UPDATE_TOTAL_AMOUNT_SPENT, a list for SET_TRANSACTIONS). A payload of another JavaScript type is not modelled.
