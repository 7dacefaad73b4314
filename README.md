# Finance tracker client: a Dafny model of its logic

This project models the decision and computation logic of a React Native
personal-finance client: the budget store, the analytics panels, the
transaction services and the query layer over them, the HTTP client's
interceptors and error handling, the toast and error-message helpers, the
transaction form, the filter panel, the theme provider and the side drawer.
Rendering, storage, networking, timers and navigation are inputs or
recorded events, as described under "## Left out".

One module per source file:

| module | file | form |
|---|---|---|
| `JsValue` | (shared) | dynamic JavaScript values (`Json`), truthiness, `typeof`, property reads, the string helpers the code relies on |
| `ArrayOps` | (shared) | `filter` and the stable `sort` of arrays, sums over sequences |
| `Transactions` | types/transaction.ts | calendar dates and instants, transactions, filter options |
| `BudgetStore` | store/useBudgetStore.ts | class with sequence fields and mutating actions |
| `BudgetAnalytics` | app/components/budget/BudgetAnalytics.tsx | functions and lemmas |
| `DashboardAnalytics` | app/components/budget/DashboardAnalytics.tsx | functions and lemmas |
| `TransactionAnalytics` | app/components/index/TransactionAnalytics.tsx | methods with loops, proved against functions |
| `MockTransactionService` | services/transactionService.ts | a method reassigning the filtered list step by step |
| `TransactionService` | services/transaction/service.ts | a method appending query parameters; functions for normalisation |
| `TransactionQuery` | services/transaction/query.ts | functions and lemmas |
| `ApiClient` | services/apiClient.ts | functions for the decisions; a class for the refresh slot and the retry loop |
| `Toast` | utils/toast.ts | functions; a method reassigning `message`/`title` |
| `HandleResponse` | hooks/useHandleResponse.ts | a function and lemmas |
| `TransactionForm` | app/components/transaction/TransactionForm.tsx | class for the form state |
| `TransactionFilter` | app/components/index/TransactionList/TransactionFilter.tsx | class for the panel state |
| `Theme` | contexts/ThemeContext.tsx | class for the provider state |
| `Drawer` | app/components/common/Drawer/DrawerProvider.tsx | class for the drawer state |

Amounts are mathematical reals. A percentage computed without a zero guard
is the datatype `Percent` (`Finite(value)` or `NonFinite`), so a zero
divisor is a visible case rather than a precondition. `parseFloat`,
`Number` on strings and the formatting of non-string dates are function
parameters whose `None` stands for NaN.

The HTTP client is modelled in two readings, chosen by `ApiClient.Variant`.
`AsWritten` is the code: after the late checks every error goes through
`handleError`, which ends the session on any 401 (also on the '/auth/'
URLs the interceptor exempts), and the wrappers' catch runs `handleError` a
second time. `Intended` is the corrected reading of the two defects listed
under "## Findings": `handleError` exempts authentication URLs and the
catch rethrows what the interceptor determined; besides, no token refresh
starts for an authentication URL, the refresh request included, as the
design requires. `ApiClient.Request`,
`ApiClient.Call`, `ApiClient.AuthPost` and the class `ApiClient.Client`
take the reading as a parameter; rows marked "intended" below hold of the
corrected reading only, rows marked "as written" of the code.

## Where the code and the design description differ

The model follows the code in each of these cases (for the HTTP client, its
`AsWritten` reading).

- The category percentages of the budget panels carry no guard for a zero total. A zero total makes every share non-finite (`BudgetAnalytics.SharesFiniteIffTotalNonZero`) instead of 0.
- Savings progress is not clamped to [0, 100]. `BudgetAnalytics.ProgressCanExceed100` shows 150.
- An expired-token error that arrives with status 401 ends the session before any refresh is tried. The refresh-and-retry applies only to a `TOKEN_EXPIRED` code on another status (`ApiClient.Unauthorized401EndsSession`).
- A token-expiry code starts the refresh on every URL (services/apiClient.ts:222 has no URL test), authentication URLs and the refresh request itself included, while the design exempts authentication requests from expiry handling. A token-expiry reply to the refresh request makes the refresh wait on its own pending result: the request never settles and the slot stays taken (`ApiClient.RefreshWaitsOnItself`, `ApiClient.PendingRefreshHangs`); see "## Findings".
- A failed refresh does not force a logout, as the design says it does. `refreshToken()` gives `null`, and the request falls through to the late checks, which end the session only for a 401 (`ApiClient.NullRefreshFallsThrough`, `ApiClient.RefreshRetriesUnavailable`). A 401 to the refresh request itself does end the session, through `handleError`, while the original request fails with its own error (`ApiClient.RefreshUnauthorizedEndsSession`).
- Through the wrappers an error is not surfaced as the one normalised `{message, code}` pair the interceptor produced. The second normalisation turns an unreachable server into `UNKNOWN_ERROR` (`ApiClient.SecondPassLosesCode`) and drops the status of a server error (`ApiClient.UnavailableUnknownAsWritten`); see "## Findings".

## Model

| member | source | states |
|---|---|---|
| Transactions.MomentKeyOrders | services/transactionService.ts:158-160 | instants on different days are ordered by their day; on the same day by the time of day |
| Transactions.DateKeyOrders | services/transactionService.ts:118-131 | the day number orders valid dates lexicographically by year, month and day |
| Transactions.IsoDate | services/transaction/service.ts:38 | the date part of `toISOString()` is ten characters for years 0 to 9999 |
| ArrayOps.Keep | store/useBudgetStore.ts:123 | `filter` keeps exactly the elements that pass, in order |
| ArrayOps.KeepIsSubsequence | store/useBudgetStore.ts:123 | the filtered list is a subsequence of the original |
| ArrayOps.SortDescBy | app/components/budget/BudgetAnalytics.tsx:22 | the sort by `b.amount - a.amount` is a permutation, ordered highest first |
| ArrayOps.SortIsStable | app/components/budget/BudgetAnalytics.tsx:22 | entries with equal keys keep their original relative order |
| ArrayOps.SortPreservesSum | app/components/budget/BudgetAnalytics.tsx:22 | sorting does not change the sum of any measure |
| ArrayOps.TopAreLargest | app/components/index/TransactionAnalytics.tsx:97-100 | in a descending list every entry of a prefix is at least every later entry |
| BudgetStore.NewItem | store/useBudgetStore.ts:93-103 | the new item has the given id and the argument's fields, and its difference follows its side's sign convention |
| BudgetStore.NewGoal | store/useBudgetStore.ts:161-171 | the new goal has the given id and fields, and `remaining` is target − saved |
| BudgetStore.UpdatedItem | store/useBudgetStore.ts:109-113 | the merge takes every given field; the difference is recomputed exactly when `actual` or `budgeted` is given, otherwise it is the given or the old one |
| BudgetStore.UpdatedGoal | store/useBudgetStore.ts:175-183 | the same merge for goals, `remaining` recomputed exactly when `target` or `saved` is given |
| BudgetStore.UpdateItems | store/useBudgetStore.ts:105-119 | same length and order; items with another id unchanged; every item with the id merged |
| BudgetStore.UpdateGoals | store/useBudgetStore.ts:173-187 | same length and order; goals with another id unchanged; every goal with the id merged |
| BudgetStore.DeleteItems | store/useBudgetStore.ts:121-125 | no item with the id is left; every other item keeps its count; the rest keep their order |
| BudgetStore.DeleteGoals | store/useBudgetStore.ts:189-193 | no goal with the id is left; every other goal keeps its count; the rest keep their order |
| BudgetStore.UpdatePreservesConvention | store/useBudgetStore.ts:105-119 | an update keeps a conforming list conforming when it gives an amount or no difference |
| BudgetStore.UpdatePreservesGoalConvention | store/useBudgetStore.ts:173-187 | the same for goals and `remaining` |
| BudgetStore.UpdateRestoresConvention | store/useBudgetStore.ts:111-112 | an updated item conforms again once the update gives `actual` or `budgeted` |
| BudgetStore.DifferenceCanBeOverwritten | store/useBudgetStore.ts:109-113 | a difference given without an amount is stored as given and breaks the convention |
| BudgetStore.DeletePreservesConvention | store/useBudgetStore.ts:121-125 | deleting keeps a conforming list conforming |
| BudgetStore.DeleteAbsentId | store/useBudgetStore.ts:121-125 | deleting an id that no item carries changes nothing |
| BudgetStore.SampleDataConforms | store/useBudgetStore.ts:42-62 | the sample income, expenses and goals follow their conventions |
| BudgetStore.BudgetStore.constructor | store/useBudgetStore.ts:64-69 | the store starts empty, not loading, without error |
| BudgetStore.BudgetStore.BeginFetch | store/useBudgetStore.ts:72 | loading starts and the error is cleared; the lists are unchanged |
| BudgetStore.BudgetStore.CompleteFetch | store/useBudgetStore.ts:79-84 | the lists become the sample data and loading ends |
| BudgetStore.BudgetStore.AddIncomeItem | store/useBudgetStore.ts:93-103 | exactly one new income item at the end; everything else unchanged; conventions kept |
| BudgetStore.BudgetStore.UpdateIncomeItem | store/useBudgetStore.ts:105-119 | the income list is updated by id; everything else unchanged |
| BudgetStore.BudgetStore.DeleteIncomeItem | store/useBudgetStore.ts:121-125 | the income list loses the id; everything else unchanged |
| BudgetStore.BudgetStore.AddExpenseItem | store/useBudgetStore.ts:127-137 | exactly one new expense item at the end with difference budgeted − actual |
| BudgetStore.BudgetStore.UpdateExpenseItem | store/useBudgetStore.ts:139-153 | the expense list is updated by id; everything else unchanged |
| BudgetStore.BudgetStore.DeleteExpenseItem | store/useBudgetStore.ts:155-159 | the expense list loses the id; everything else unchanged |
| BudgetStore.BudgetStore.AddSavingsGoal | store/useBudgetStore.ts:161-171 | exactly one new goal at the end with remaining target − saved |
| BudgetStore.BudgetStore.UpdateSavingsGoal | store/useBudgetStore.ts:173-187 | the goal list is updated by id; everything else unchanged |
| BudgetStore.BudgetStore.DeleteSavingsGoal | store/useBudgetStore.ts:189-193 | the goal list loses the id; everything else unchanged |
| BudgetAnalytics.Entries | app/components/budget/BudgetAnalytics.tsx:15-19 | one entry per expense item, in order, with its category ('' when missing), actual amount and share |
| BudgetAnalytics.ExpenseCategories | app/components/budget/BudgetAnalytics.tsx:13-22 | the entries, permuted and ordered by amount highest first |
| BudgetAnalytics.EntryPerItem | app/components/budget/BudgetAnalytics.tsx:15-19 | every listed entry comes from an expense item |
| BudgetAnalytics.SharesFiniteIffTotalNonZero | app/components/budget/BudgetAnalytics.tsx:18 | a share is finite exactly when the total of actual amounts is non-zero |
| BudgetAnalytics.PercentagesSumTo100 | app/components/budget/BudgetAnalytics.tsx:13-22 | with a non-zero total the percentages add up to 100 |
| BudgetAnalytics.CategoryAmountsSumToTotal | app/components/budget/BudgetAnalytics.tsx:13-22 | the listed amounts add up to the total expenses |
| BudgetAnalytics.SavedWithinTarget | app/components/budget/BudgetAnalytics.tsx:25-26 | when every goal has 0 ≤ saved ≤ target, the total saved lies between 0 and the total target |
| BudgetAnalytics.SavingsProgress | app/components/budget/BudgetAnalytics.tsx:25-27 | 0 without a positive target; otherwise the percentage of the target that is saved |
| BudgetAnalytics.ProgressBounded | app/components/budget/BudgetAnalytics.tsx:25-27 | in that case the progress lies between 0 and 100 |
| BudgetAnalytics.ProgressCanExceed100 | app/components/budget/BudgetAnalytics.tsx:27 | the progress is not clamped: 1500 saved of 1000 reports 150 |
| BudgetAnalytics.ProgressWithoutTarget | app/components/budget/BudgetAnalytics.tsx:27 | without a positive total target the progress is 0 |
| BudgetAnalytics.ProgressOfTwoGoals | app/components/budget/BudgetAnalytics.tsx:25-27 | two goals 1500/5000 and 800/2000 report 230/7 % |
| BudgetAnalytics.BarColor | app/components/budget/BudgetAnalytics.tsx:105-113 | bar `i` takes colour `i mod 6` of the palette |
| BudgetAnalytics.BarColorsRepeat | app/components/budget/BudgetAnalytics.tsx:105-113 | the colours repeat every six bars |
| DashboardAnalytics.DisplayCategories | app/components/budget/DashboardAnalytics.tsx:28 | all entries outside compact mode; the first min(3, n) in compact mode |
| DashboardAnalytics.Dashboard | app/components/budget/DashboardAnalytics.tsx:18-63 | the bars shown, the "+ k more" count exactly in compact mode with more than three categories (shown + k = n), and the progress exactly outside compact mode |
| DashboardAnalytics.FullDisplay | app/components/budget/DashboardAnalytics.tsx:18-28 | outside compact mode every sorted category is shown |
| DashboardAnalytics.CompactDisplay | app/components/budget/DashboardAnalytics.tsx:28 | in compact mode the first min(3, n) sorted categories are shown |
| DashboardAnalytics.CompactShowsLargest | app/components/budget/DashboardAnalytics.tsx:27-28 | every shown bar is at least as large as any category |
| DashboardAnalytics.MoreCount | app/components/budget/DashboardAnalytics.tsx:61-63 | "+ k more" appears exactly when compact with more than 3 categories, and shown + k = n |
| DashboardAnalytics.SavingsSection | app/components/budget/DashboardAnalytics.tsx:31-33 | the savings section exists exactly outside compact mode, with the guarded progress |
| DashboardAnalytics.SameAsBudgetAnalytics | app/components/budget/DashboardAnalytics.tsx:18-27 | the entries, shares and order are those of the budget analytics panel |
| TransactionAnalytics.CategoryName | app/components/index/TransactionAnalytics.tsx:27-31 | 'Uncategorized' for a missing or empty category, the string itself, or the object's non-empty name |
| TransactionAnalytics.GetMonthlyData | app/components/index/TransactionAnalytics.tsx:42-72 | the loop from i = 5 down to 0 builds exactly the buckets of `MonthlyData` |
| TransactionAnalytics.MonthlyData | app/components/index/TransactionAnalytics.tsx:42-72 | exactly six buckets |
| TransactionAnalytics.MonthlyDataBuckets | app/components/index/TransactionAnalytics.tsx:45-67 | exactly six buckets, oldest first, bucket k being the month today − 5 + k with that month's totals |
| TransactionAnalytics.MonthTotalIsFilteredSum | app/components/index/TransactionAnalytics.tsx:50-61 | each bucket total is the sum of the amounts of the month's transactions of that type |
| TransactionAnalytics.MonthIndexRoundTrip | app/components/index/TransactionAnalytics.tsx:47 | the month index of a valid date gives back its year and month |
| TransactionAnalytics.LastBucketIsThisMonth | app/components/index/TransactionAnalytics.tsx:46-48 | the last bucket is named after the current month |
| TransactionAnalytics.EmptyMonth | app/components/index/TransactionAnalytics.tsx:51-62 | a month without transactions reports income 0 and expense 0 |
| TransactionAnalytics.BucketAccountsForMonth | app/components/index/TransactionAnalytics.tsx:51-62 | income plus expense is the sum of all amounts dated in that month |
| TransactionAnalytics.Accumulate | app/components/index/TransactionAnalytics.tsx:86-91 | one `forEach` step adds its category name once, if it was missing |
| TransactionAnalytics.AccumulateLookup | app/components/index/TransactionAnalytics.tsx:88-91 | one step adds the amount to its category and leaves the others unchanged |
| TransactionAnalytics.AccumulateAllFacts | app/components/index/TransactionAnalytics.tsx:83-92 | the loop keeps names distinct, per-name totals and the overall sum |
| TransactionAnalytics.CategoryTotalsMeaning | app/components/index/TransactionAnalytics.tsx:81-92 | the names are exactly the expenses' categories, each once, with the sum of its expenses; the totals add up to all expenses |
| TransactionAnalytics.AccumulateAllNames | app/components/index/TransactionAnalytics.tsx:83-92 | the loop adds exactly the names of the expenses' categories |
| TransactionAnalytics.CategoryTotals | app/components/index/TransactionAnalytics.tsx:81-92 | distinct names, totalling all expenses |
| TransactionAnalytics.AccumulateAsWritten | app/components/index/TransactionAnalytics.tsx:86-91 | as written on a plain `{}`: '__proto__' is ignored; any other name is added once, if it was missing |
| TransactionAnalytics.AccumulateAsWrittenAgrees | app/components/index/TransactionAnalytics.tsx:86-91 | for a name not inherited from `Object.prototype`, a step on the plain object is the numeric step |
| TransactionAnalytics.AccumulateAllAsWrittenAgrees | app/components/index/TransactionAnalytics.tsx:81-92 | without inherited names, the plain `{}` holds exactly the numeric dictionary |
| TransactionAnalytics.InheritedNamesGarbled | app/components/index/TransactionAnalytics.tsx:81-96 | an expense in category 'toString' gets an entry whose amount is NaN, and one in '__proto__' gets none, where the numeric dictionary records the amount |
| TransactionAnalytics.ObjectEntries | app/components/index/TransactionAnalytics.tsx:95-97 | `Object.entries` lists the same entries, reordered |
| TransactionAnalytics.ObjectEntriesOrder | app/components/index/TransactionAnalytics.tsx:95-97 | array-index names come first, in ascending numeric order, then the other names |
| TransactionAnalytics.ObjectEntriesWithoutIndexNames | app/components/index/TransactionAnalytics.tsx:95-97 | without array-index names the insertion order is kept |
| TransactionAnalytics.IndexNameListedFirst | app/components/index/TransactionAnalytics.tsx:95-97 | an index name added after another name is listed before it, which changes the tie order of the stable sort |
| TransactionAnalytics.SampleNames | app/components/index/TransactionAnalytics.tsx:95-97 | '7' is an array index and 'Food' is not |
| TransactionAnalytics.ObjectEntriesSum | app/components/index/TransactionAnalytics.tsx:95-97 | the reordering keeps the total |
| TransactionAnalytics.TopFiveAndOther | app/components/index/TransactionAnalytics.tsx:100-109 | up to five entries unchanged; otherwise the first five and 'Other' with the sum of the rest |
| TransactionAnalytics.TopFiveAndOtherFacts | app/components/index/TransactionAnalytics.tsx:100-109 | at most six entries, six exactly when there were more than five, and the same total |
| TransactionAnalytics.PieSlicesFrom | app/components/index/TransactionAnalytics.tsx:112-118 | one slice per entry, in order |
| TransactionAnalytics.PieSliceColours | app/components/index/TransactionAnalytics.tsx:112-116 | slice i shows entry i in colour i mod 6 |
| TransactionAnalytics.PieSlicesSum | app/components/index/TransactionAnalytics.tsx:112-118 | the slices carry the entries' total |
| TransactionAnalytics.CategoryBreakdownFacts | app/components/index/TransactionAnalytics.tsx:80-119 | at most six slices, and together they are the total spending |
| TransactionAnalytics.CategoryBreakdown | app/components/index/TransactionAnalytics.tsx:80-119 | at most six slices |
| TransactionAnalytics.CollectByCategory | app/components/index/TransactionAnalytics.tsx:81-92 | the `forEach` loop yields the dictionary that adding the expenses one by one gives |
| TransactionAnalytics.FormatBreakdown | app/components/index/TransactionAnalytics.tsx:94-118 | `Object.entries`, sorting, keeping five entries plus 'Other' and colouring give the slices of the dictionary's entries, sorted and grouped |
| TransactionAnalytics.GroupTopFive | app/components/index/TransactionAnalytics.tsx:99-109 | `slice(0, 5)` and the pushed 'Other' entry compute the grouping of `TopFiveAndOther` |
| TransactionAnalytics.GetCategoryBreakdown | app/components/index/TransactionAnalytics.tsx:80-119 | the dictionary loop, sort, truncation and formatting compute the breakdown |
| TransactionAnalytics.TopSlicesLargestFirst | app/components/index/TransactionAnalytics.tsx:95-100 | each of the first five slices is at least as large as any later category |
| TransactionAnalytics.SavingsRate | app/components/index/TransactionAnalytics.tsx:143-144 | 0 without income; otherwise the percentage of income that the balance is |
| TransactionAnalytics.SavingsRateMeaning | app/components/index/TransactionAnalytics.tsx:143-144 | 0 without income; otherwise the balance's sign, at most 100 for non-negative spending, 100 exactly without spending |
| MockTransactionService.GetTransactions | services/transactionService.ts:103-168 | the result holds each mock transaction that matches every active criterion, as often as the source does, and nothing else, ordered by the chosen key and direction |
| MockTransactionService.FilterByType | services/transactionService.ts:111-115 | the type step keeps exactly the transactions of the requested type |
| MockTransactionService.FilterByDates | services/transactionService.ts:118-131 | the date steps keep exactly those within both bounds |
| MockTransactionService.FilterByAmounts | services/transactionService.ts:134-150 | the amount steps keep exactly those within both active bounds |
| MockTransactionService.SortTransactions | services/transactionService.ts:153-165 | the sort is a permutation ordered by the key, ascending for 'asc' and descending otherwise |
| MockTransactionService.MatchingIsKept | services/transactionService.ts:111-150 | a transaction that satisfies every active criterion is never dropped |
| MockTransactionService.TypeFilterMeaning | services/transactionService.ts:111-115 | 'all' or no type keeps every type; otherwise only the requested one |
| MockTransactionService.FromDateBound | services/transactionService.ts:118-122 | the lower bound is inclusive at the instant it names |
| MockTransactionService.ToDateBound | services/transactionService.ts:125-131 | the upper bound covers the whole of its day |
| MockTransactionService.IgnoredAmountBounds | services/transactionService.ts:134-150 | a blank or unparseable amount text imposes no bound |
| MockTransactionService.NoFiltersKeepAll | services/transactionService.ts:103-154 | without options nothing is dropped and the order is date descending |
| MockTransactionService.MockListInDefaultOrder | services/transactionService.ts:4-94 | the mock list is already date descending |
| TransactionService.PageAndPageSize | services/transaction/service.ts:20-21 | page and page size are always the first two parameters |
| TransactionService.NoFilterPairs | services/transaction/service.ts:24 | without filters nothing follows page and page size |
| TransactionService.QueryParamsMeaning | services/transaction/service.ts:17-56 | the names come in fixed order, each at most once, each with its expected value, and none for 'all' or falsy fields |
| TransactionService.BuildQueryParams | services/transaction/service.ts:17-56 | the `append` sequence builds exactly those parameters |
| TransactionService.DateField | services/transaction/service.ts:111-175 | 'No date' for a falsy date; a string (or any value that is neither a number nor an object, such as `true`) kept as it is; numbers and objects formatted |
| TransactionService.CategoryField | services/transaction/service.ts:181-183 | a category object is replaced by its name; other values pass through |
| TransactionService.AmountField | services/transaction/service.ts:185-187 | a string amount is parsed (NaN when it does not parse); other values pass through |
| TransactionService.Normalise | services/transaction/service.ts:191-196 | the date, category and amount fields are normalised; every other field is copied |
| TransactionService.NormaliseAll | services/transaction/service.ts:102-196 | one normalised element per entry, in order |
| TransactionService.ProcessList | services/transaction/service.ts:102-197 | corrected: the falsy entries (null included) are dropped and the others normalised, in order |
| TransactionService.ProcessListAsWritten | services/transaction/service.ts:102-197 | as written: a nullish first entry throws; a list that does not throw is the corrected list |
| TransactionService.NullEntryThrows | services/transaction/service.ts:103-106 | as written, a list with a nullish entry throws |
| TransactionService.NullEntryExample | services/transaction/service.ts:103-106 | `[null]` throws as written and gives `[]` as intended |
| TransactionService.ProcessListAgrees | services/transaction/service.ts:102-197 | without nullish entries the code as written gives the intended list |
| TransactionService.IndexFieldsMeaning | services/transaction/service.ts:191-196 | the spread of a string or array has one field per index, named '0', '1', ..., holding that element |
| TransactionService.SpreadFields | services/transaction/service.ts:191-196 | the fields of an object; the index fields of a string or array; none for a number or boolean |
| TransactionService.SpreadStringExample | services/transaction/service.ts:191-196 | spreading 'ab' gives '0': 'a' and '1': 'b' |
| TransactionService.ExtractList | services/transaction/service.ts:76-95 | the array data, the array inside object data, object data as one element, or nothing |
| TransactionService.QueryParams | services/transaction/service.ts:17-56 | the pairs are built in the fixed order of the ten parameters, each by its rule |
| TransactionService.Pagination | services/transaction/service.ts:205-212 | page and page size fall back to the request, the count to 0, and `hasMore` is the numeric-count test |
| TransactionService.ProcessTransactionsResponse | services/transaction/service.ts:74-225 | the branch-by-branch reassignment computes the response the service returns |
| TransactionService.TransactionsOutcome | services/transaction/service.ts:61-229 | a nullish response throws; an unsuccessful one is handed back; a successful one yields the processed list and pagination, or throws when its list has a nullish entry |
| TransactionService.UnsuccessfulUnchanged | services/transaction/service.ts:221-225 | an unsuccessful response is handed back unchanged |
| TransactionService.ArrayDataIsTheList | services/transaction/service.ts:79-83 | array data is the list (a nullish entry makes the call throw) |
| TransactionService.NestedDataIsTheList | services/transaction/service.ts:84-89 | object data with an array `data` field supplies that list (a nullish entry makes the call throw) |
| TransactionService.OtherObjectIsOneElement | services/transaction/service.ts:90-94 | any other object data is a one-element list |
| TransactionService.MissingDataIsEmpty | services/transaction/service.ts:76-95 | missing data gives the empty list |
| TransactionService.PaginationMeaning | services/transaction/service.ts:205-212 | `hasMore` holds exactly for a numeric count above page × pageSize; the fallbacks apply to falsy values |
| TransactionService.TransactionOutcome | services/transaction/service.ts:232-334 | a successful response with data gets its data normalised; any other response is handed back |
| TransactionService.CreatePayload | services/transaction/service.ts:339-345 | exactly the five fields, whatever their values |
| TransactionService.UpdatePayload | services/transaction/service.ts:357-363 | exactly the fields with a truthy value |
| TransactionService.UpdateDropsZeroAmount | services/transaction/service.ts:339-363 | an amount of 0 is sent on create and dropped on update |
| TransactionQuery.FailureMessage | services/transaction/query.ts:24 | the server's message when truthy, otherwise the fallback |
| TransactionQuery.Guarded | services/transaction/query.ts:23-27 | a thrown error passes through; an unsuccessful or empty response throws; otherwise the data is returned |
| TransactionQuery.ListFailureMessage | services/transaction/query.ts:23-25 | an unsuccessful list response throws with the server's message or 'Failed to fetch transactions' |
| TransactionQuery.ItemFailureMessage | services/transaction/query.ts:34-36 | the same for one transaction with 'Failed to fetch transaction' |
| TransactionQuery.GetTransactions | services/transaction/query.ts:21-27 | the data is returned exactly for a successful response with data; otherwise the error carries the server's message or 'Failed to fetch transactions' |
| TransactionQuery.GetTransaction | services/transaction/query.ts:32-38 | the same for one transaction with 'Failed to fetch transaction' |
| TransactionQuery.ServiceResultReturned | services/transaction/query.ts:21-27 | a successful service result reaches the caller as its list and pagination, or as the TypeError when the list has a nullish entry |
| TransactionQuery.PlusOne | services/transaction/query.ts:74 | JavaScript `+ 1`: numbers add, strings concatenate |
| TransactionQuery.NextPageParam | services/transaction/query.ts:72-77 | page + 1 when `hasMore` is truthy, otherwise no further page; a missing pagination throws |
| TransactionQuery.NextPageFromService | services/transaction/query.ts:70-77 | over a service page, the next page is page + 1 exactly when more items remain |
| TransactionQuery.NoCountStops | services/transaction/query.ts:72-77 | a page whose metadata has no numeric count ends the paging |
| TransactionQuery.LastPage | services/transaction/query.ts:71-77 | paging from page p stops at the first page that covers the count |
| ApiClient.IsAuthError | services/apiClient.ts:117-129 | auth exactly for code '401' or 401 or a message mentioning the three phrases; a message that is not a string throws |
| ApiClient.BaseUrl | services/apiClient.ts:82-86 | '/auth/' URLs go to the authentication API, all others to the main API |
| ApiClient.Authorization | services/apiClient.ts:89-92 | a bearer header exactly when a token is stored |
| ApiClient.RequestInterceptor | services/apiClient.ts:70-105 | a native device that is offline rejects; otherwise the request gets its base URL and header |
| ApiClient.AuthRoutedUrlsAreExempt | services/apiClient.ts:84-169 | every URL routed to the authentication API is exempt from session ends |
| ApiClient.AuthPostUrl | services/apiClient.ts:592 | '/auth' is prefixed exactly when the URL does not start with '/auth/' |
| ApiClient.AuthPostRoutesToAuthApi | services/apiClient.ts:589-598 | for a path starting with '/', `authPost` reaches the authentication API and is exempt |
| ApiClient.AxiosError | services/apiClient.ts:150-164 | an HTTP error carries the reply and axios' status message and code; a failure without reply carries its own message and code |
| ApiClient.StatusErrorIsNotNetworkError | services/apiClient.ts:328-333 | an HTTP error reply is never taken for a network error |
| ApiClient.FulfilledCheck | services/apiClient.ts:109-149 | a resolved body ends the session exactly when it reports an auth error on a non-exempt URL, and throws when its message is not a string |
| ApiClient.CheckForAuthError | services/apiClient.ts:494-519 | ends the session exactly for an auth error on a non-'/auth/' URL; throws exactly when the message is not a string there |
| ApiClient.CheckForAuthErrorIsInert | services/apiClient.ts:494-519 | on the bodies that reach the wrappers, `checkForAuthError` never ends the session |
| ApiClient.NormaliseError | services/apiClient.ts:328-385 | the branches after 401 in priority order, each result with a message and no response |
| ApiClient.NetworkFailure | services/apiClient.ts:328-337 | a network error is `MOBILE_NETWORK_ERROR` on a device, `NETWORK_ERROR` on the web |
| ApiClient.ResponseFailure | services/apiClient.ts:343-362 | a server reply keeps its body's code (or its own), and its status |
| ApiClient.NoResponseFailure | services/apiClient.ts:363-378 | a request without a reply is `MOBILE_REQUEST_FAILED` on a device, `NETWORK_ERROR` on the web |
| ApiClient.HandleErrorAsWritten | services/apiClient.ts:307-386 | as written: any 401 ends the session with the auth failure; otherwise the normalised error |
| ApiClient.HandleError | services/apiClient.ts:307-386 | corrected: a 401 ends the session exactly on a non-exempt URL; every result has a message |
| ApiClient.FailedLoginEndsSessionAsWritten | services/apiClient.ts:312-325 | as written, a failed login at '/auth/login' ends the session |
| ApiClient.FailedLoginKeepsSession | services/apiClient.ts:312-325 | corrected: with the exemption, a failed login keeps the session and reports the server's error |
| ApiClient.EarlyRejection | services/apiClient.ts:165-213 | a 401 on a non-exempt URL ends the session first; a network error is classified next; otherwise nothing yet |
| ApiClient.NetworkRejection | services/apiClient.ts:186-213 | a disconnected device gives `NETWORK_DISCONNECTED`, anything else `SERVER_UNREACHABLE` |
| ApiClient.LateDecision | services/apiClient.ts:244-262 | corrected: a retry exactly for rate limiting or 5xx below five retries, waiting the next table delay; otherwise the corrected `handleError` |
| ApiClient.LateDecisionAsWritten | services/apiClient.ts:244-262 | as written: the same retries, waiting the next table delay; otherwise `handleError` as written |
| ApiClient.EndSession | services/apiClient.ts:522-586 | both tokens removed and one more session end counted; the refresh slot untouched |
| ApiClient.RefreshUrlIsExempt | services/apiClient.ts:275-276 | the refresh request's path is an authentication URL |
| ApiClient.RefreshedToken | services/apiClient.ts:284-298 | a token exactly when the resolved body reports success and carries data with a token; `null` otherwise |
| ApiClient.AfterRefresh | services/apiClient.ts:284-294 | the new token is stored, and the new refresh token when there is one; without a token nothing changes |
| ApiClient.Later | services/apiClient.ts:244-262 | the request ends the session at most once, and then with the auth failure as result; as written a refresh it started may end it once more, whatever the result; no rejection carries a response; a request that never settles leaves the slot taken, any other leaves it as it was; intended, an authentication URL never ends the session, and with the slot empty the request settles |
| ApiClient.Rejection | services/apiClient.ts:150-262 | the same for the rejected side, which waits on a pending refresh or starts one |
| ApiClient.Refreshing | services/apiClient.ts:222-237 | the same once a refresh starts, with one more refresh counted; intended, it always settles |
| ApiClient.Refresh | services/apiClient.ts:267-305 | without a refresh token `null` at once; otherwise the refresh request runs through the chain and gives a token (then stored) or `null`, emptying the slot, or, as written only, never settles with the slot taken; as written it may end the session once, intended never |
| ApiClient.Pipeline | services/apiClient.ts:70-262 | the same as `Later` for one run of the chain from any retry state |
| ApiClient.Request | services/apiClient.ts:70-262 | the same for a request; intended, a request with the slot empty always settles |
| ApiClient.PipelineBounds | services/apiClient.ts:222-262 | from any retry state: at most one refresh, at most `Budget` + 1 further runs of the transport (the refresh's included), the request's delays a prefix of the table |
| ApiClient.RejectionBounds | services/apiClient.ts:150-263 | the same bounds for the rejected side |
| ApiClient.RefreshingBounds | services/apiClient.ts:222-237 | the same bounds once a refresh starts |
| ApiClient.LaterBounds | services/apiClient.ts:244-262 | the same bounds after the refresh check |
| ApiClient.RefreshBounds | services/apiClient.ts:267-305 | the refresh request runs the chain at most six times and waits a prefix of the table |
| ApiClient.RequestBounds | services/apiClient.ts:150-305 | a request runs the chain at most thirteen times (one try, five retries, one retry after a refresh, six runs of the refresh request), starts at most one refresh, and waits a prefix of the delay table |
| ApiClient.Unauthorized401EndsSession | services/apiClient.ts:165-183 | in either reading, a 401 from a non-exempt URL ends the session at once, without refresh or retry |
| ApiClient.Unauthorized401EndsSessionAsWritten | services/apiClient.ts:165-325 | as written, a 401 without a refresh or rate-limit code ends the session on every URL, '/auth/' ones included |
| ApiClient.AuthUrl401KeepsSession | services/apiClient.ts:165-325 | intended: the same reply to an authentication URL keeps the session and rejects with the server's error |
| ApiClient.NullRefreshFallsThrough | services/apiClient.ts:222-262 | after a refresh that gave `null`, a 403 token-expiry reply falls through to the late checks and fails normalised, the storage as the refresh left it |
| ApiClient.RefreshUnauthorized | services/apiClient.ts:267-300 | a 401 to the refresh request gives `null`; as written `handleError` has ended the session, intended not |
| ApiClient.RefreshUnauthorizedEndsSession | services/apiClient.ts:222-325 | as written, a 401 to the refresh ends the session, yet the request fails with its own 403 and not with the auth failure |
| ApiClient.RefreshUnauthorizedKeepsSession | services/apiClient.ts:222-325 | intended: the same replies keep the session and the request fails with its 403 |
| ApiClient.RefreshWaitsOnItself | services/apiClient.ts:222-304 | as written, a token-expiry reply to the refresh request makes the refresh wait on its own pending result: the request never settles and the slot stays taken |
| ApiClient.RefreshExemptSettles | services/apiClient.ts:222-304 | intended: the refresh request starts no refresh, so the same replies settle; the request fails with its 403 and the session is kept |
| ApiClient.PendingRefreshHangs | services/apiClient.ts:222-304 | while the slot is taken, a request that needs a refresh never settles, so after a self-wait every later one hangs too |
| ApiClient.UnavailableFrom | services/apiClient.ts:254-262 | in either reading, a server that keeps answering 503 is retried up to the fifth retry and then normalised |
| ApiClient.AlwaysUnavailable | services/apiClient.ts:254-262 | in either reading, such a request runs six times, waits the whole delay table and ends with the normalised 503 error |
| ApiClient.RefreshRetriesUnavailable | services/apiClient.ts:254-300 | the refresh request retries on its own: against a server that keeps answering 503 it runs six times, waits the whole table, and gives `null` with the storage unchanged |
| ApiClient.CatchAsWritten | services/apiClient.ts:399-411 | as written: a handled 401 becomes the envelope; anything else goes through `handleError` again |
| ApiClient.SecondPassLosesCode | services/apiClient.ts:399-411 | as written, `SERVER_UNREACHABLE` comes out as `UNKNOWN_ERROR` |
| ApiClient.Catch | services/apiClient.ts:399-411 | corrected: a handled 401 becomes the envelope; anything else is rethrown unchanged |
| ApiClient.Call | services/apiClient.ts:389-413 | the request's outcome: a resolved body is returned, the auth failure becomes the 401 envelope, a request that never settles never returns; as written a thrown error has no status and no response; intended it is the interceptor's rejection, and the session ends only with the 401 envelope |
| ApiClient.Unauthorized401Envelope | services/apiClient.ts:399-409 | in either reading, on a non-exempt URL a 401 reaches the caller as `{ success: false, error: { code: '401' } }` |
| ApiClient.UnavailableReachesCaller | services/apiClient.ts:399-411 | intended: the server's unavailability reaches the caller as a thrown error with status 503 |
| ApiClient.UnavailableUnknownAsWritten | services/apiClient.ts:389-411 | as written, the same request reaches the caller through `get` as `UNKNOWN_ERROR` with the message only and no status |
| ApiClient.SecondPassUnknown | services/apiClient.ts:379-384 | as written, the second `handleError` makes a plain object without response or request an `UNKNOWN_ERROR` with its message |
| ApiClient.AuthPostCatchAsWritten | services/apiClient.ts:595-597 | as written, `authPost` runs `handleError` again on every rejection |
| ApiClient.FailedLoginUnknownAsWritten | services/apiClient.ts:595-597 | as written, a rejected login comes out as `UNKNOWN_ERROR` |
| ApiClient.AuthPost | services/apiClient.ts:589-598 | `authPost` throws exactly on a rejection and never returns exactly when the request never settles; as written the auth failure is thrown as `UNKNOWN_ERROR` and no thrown error has a status; intended it rethrows the interceptor's rejection and ends the session only with the auth failure |
| ApiClient.FailedLoginAsWritten | services/apiClient.ts:589-598 | as written, a 401 login reply ends the session and reaches the caller as `UNKNOWN_ERROR` |
| ApiClient.FailedLoginIntended | services/apiClient.ts:589-598 | intended, it keeps the session and reaches the caller as the server's error with status 401 |
| ApiClient.AuthPostKeepsSession | services/apiClient.ts:589-598 | intended: `authPost` neither ends the session nor hangs for a path starting with '/' |
| ApiClient.Client.constructor | services/apiClient.ts:34-37 | the client starts in the given reading, with the stored tokens, no session end and an empty refresh slot |
| ApiClient.Client.BeginRefresh | services/apiClient.ts:267-304 | a pending refresh hands every caller the same handle; otherwise a new one fills the slot; the storage is unchanged |
| ApiClient.Client.SettleRefresh | services/apiClient.ts:271-301 | with a resolved body the tokens are stored as `AfterRefresh` says and its token returned, otherwise `null`; the slot is emptied on every outcome |
| ApiClient.Client.EndCurrentSession | services/apiClient.ts:522-586 | the stored state becomes the ended session; the slot is unchanged |
| ApiClient.Client.RunRefresh | services/apiClient.ts:267-305 | the refresh, its request sent through the client's own loop, ends as `Refresh` in the client's reading |
| ApiClient.Client.Decide | services/apiClient.ts:244-262 | a retry advances the counter and the delays; otherwise the run ends as `Later` in the client's reading |
| ApiClient.Client.Reject | services/apiClient.ts:150-263 | the run ends as `Rejection` in the client's reading (waiting on the pending refresh, or running a new one through `RunRefresh`), or the retry state advances with the slot as it was and the measure decreases |
| ApiClient.Client.Send | services/apiClient.ts:70-263 | the loop of dispatches from the given run of the transport ends as `Pipeline` from a fresh retry state in the client's reading (the code for `AsWritten`) |
| Toast.DefaultTitle | utils/toast.ts:24-32 | 'Success', 'Error' or 'Information' by type |
| Toast.TitleOr | utils/toast.ts:24-32 | a missing or empty title falls back to the type's default |
| Toast.VisibilityTime | utils/toast.ts:35 | a truthy duration is used; otherwise 4000 ms for errors and 3000 ms for the rest |
| Toast.ShowToast | utils/toast.ts:17-37 | type info and position bottom by default; the title fallback and the visibility rule |
| Toast.ShowSuccess | utils/toast.ts:44-52 | a success toast at the bottom for 3000 ms, with the title or 'Success' |
| Toast.ShowError | utils/toast.ts:55-63 | an error toast at the bottom for 4000 ms, with the title or 'Error' |
| Toast.ShowInfo | utils/toast.ts:66-76 | an info toast at the bottom for 3000 ms, with the title or 'Information' |
| Toast.WrapperDefaults | utils/toast.ts:44-76 | each wrapper shows its own type with the default duration and position |
| Toast.WrapperTitles | utils/toast.ts:44-76 | each wrapper keeps a given title and otherwise uses its type's default |
| Toast.StatusContent | utils/toast.ts:107-123 | 401, 403, 404 and 500 map to fixed texts; other statuses keep the defaults |
| Toast.HandleApiError | utils/toast.ts:82-134 | the step-by-step reassignments show the derived title and message as an error for 4000 ms |
| Toast.ApiErrorContent | utils/toast.ts:82-126 | the title and message derived from the payload, the status or the error's message |
| Toast.ObjectPayload | utils/toast.ts:90-101 | an object payload supplies its string message and title, with ' (code)' for a string or numeric code |
| Toast.ObjectPayloadDefaults | utils/toast.ts:90-101 | an object payload without strings keeps the default texts |
| Toast.StringPayload | utils/toast.ts:102-103 | a string payload becomes the message |
| Toast.ArrayPayloadKeepsDefaults | utils/toast.ts:90-105 | an array payload takes the object branch, so the join is never reached |
| Toast.StatusTexts | utils/toast.ts:107-123 | without a payload, the four statuses give their fixed title and message |
| Toast.OwnMessage | utils/toast.ts:124-126 | otherwise the error's own message is used |
| Toast.ShownTitle | utils/toast.ts:128-133 | the toast's title is the derived one, or 'Error' when that is empty |
| HandleResponse.ExtractErrorMessage | hooks/useHandleResponse.ts:26-40 | a list joined by ', ', a string as it is, an object's `message`, and 'Network Error' otherwise |
| HandleResponse.JoinedList | hooks/useHandleResponse.ts:27-29 | a list of messages is shown joined by ', ' in order |
| HandleResponse.ShortLists | hooks/useHandleResponse.ts:27-29 | a one-element list shows its element; an empty one shows '' |
| HandleResponse.ResultIsText | hooks/useHandleResponse.ts:26-40 | the result is a string unless it is an object's own `message` |
| HandleResponse.FallbackCases | hooks/useHandleResponse.ts:35-39 | `null`, `undefined`, booleans, numbers and objects without `message` give 'Network Error' |
| TransactionForm.InitialForm | app/components/transaction/TransactionForm.tsx:28-35 | every property of the initial data overrides its default; the other defaults remain |
| TransactionForm.FormErrors | app/components/transaction/TransactionForm.tsx:105-126 | each field has its error exactly when its check fails, with its own text, and no other key |
| TransactionForm.ValidIff | app/components/transaction/TransactionForm.tsx:105-126 | valid exactly when the amount is positive and category, description and date are present |
| TransactionForm.DefaultsInvalid | app/components/transaction/TransactionForm.tsx:108-118 | the defaults fail on amount, category and description |
| TransactionForm.AmountFromText | app/components/transaction/TransactionForm.tsx:188 | unparseable text becomes 0; parsed text keeps its value |
| TransactionForm.UnparseableAmountFails | app/components/transaction/TransactionForm.tsx:108-188 | unparseable amount text later fails with the amount message |
| TransactionForm.Form.constructor | app/components/transaction/TransactionForm.tsx:28-35 | the form starts with the merged initial data and no errors |
| TransactionForm.Form.HandleChange | app/components/transaction/TransactionForm.tsx:59-72 | sets only that field and blanks only that field's error, only if it had one |
| TransactionForm.Form.HandleAmountText | app/components/transaction/TransactionForm.tsx:188 | stores the parsed amount through `handleChange` |
| TransactionForm.Form.HandleDateChange | app/components/transaction/TransactionForm.tsx:75-81 | the picker closes; a chosen date is stored as its ISO date |
| TransactionForm.Form.ValidateForm | app/components/transaction/TransactionForm.tsx:105-126 | the rebuilt error map replaces the old one; valid exactly when it is empty |
| TransactionForm.Form.HandleSubmit | app/components/transaction/TransactionForm.tsx:129-133 | the form data is submitted exactly when it validates |
| TransactionFilter.ActiveCount | app/components/index/TransactionList/TransactionFilter.tsx:31-39 | the count is at most 5 and is 0 exactly when no criterion is active |
| TransactionFilter.SortAndCategoryNotCounted | app/components/index/TransactionList/TransactionFilter.tsx:33-37 | sorting and the category never count |
| TransactionFilter.BlankAmountNotCounted | app/components/index/TransactionList/TransactionFilter.tsx:36-37 | a white-space amount bound does not count |
| TransactionFilter.ResetCountsNothing | app/components/index/TransactionList/TransactionFilter.tsx:42-53 | the reset options count no active filter |
| TransactionFilter.FilterPanel.constructor | app/components/index/TransactionList/TransactionFilter.tsx:24-39 | the draft is the first prop, the pickers and modal are hidden, and the badge is counted |
| TransactionFilter.FilterPanel.CountActiveFilters | app/components/index/TransactionList/TransactionFilter.tsx:31-39 | the badge is the count of the applied options; nothing else changes |
| TransactionFilter.FilterPanel.ReceiveOptions | app/components/index/TransactionList/TransactionFilter.tsx:24-39 | a new prop is recounted while the draft stays |
| TransactionFilter.FilterPanel.OpenModal | app/components/index/TransactionList/TransactionFilter.tsx:81 | the modal opens; nothing else changes |
| TransactionFilter.FilterPanel.CloseModal | app/components/index/TransactionList/TransactionFilter.tsx:83-86 | the modal closes; nothing else changes |
| TransactionFilter.FilterPanel.ClearFilters | app/components/index/TransactionList/TransactionFilter.tsx:42-53 | only the draft is reset; the parent is not told |
| TransactionFilter.FilterPanel.ApplyFilters | app/components/index/TransactionList/TransactionFilter.tsx:56-60 | the draft goes to the parent, the modal closes, then `onApply` runs |
| TransactionFilter.FilterPanel.FromDateChange | app/components/index/TransactionList/TransactionFilter.tsx:63-68 | the picker closes; a chosen date replaces only the lower bound |
| TransactionFilter.FilterPanel.ToDateChange | app/components/index/TransactionList/TransactionFilter.tsx:70-75 | the picker closes; a chosen date replaces only the upper bound |
| TransactionFilter.ClearThenApply | app/components/index/TransactionList/TransactionFilter.tsx:42-60 | clearing then applying hands the parent the reset options, which count nothing |
| Theme.DeviceTheme | contexts/ThemeContext.tsx:29 | the device scheme, or 'light' when unknown |
| Theme.CurrentTheme | contexts/ThemeContext.tsx:61 | the device theme for 'system', the mode itself otherwise |
| Theme.Toggled | contexts/ThemeContext.tsx:67-73 | the toggle gives light or dark, the opposite of the applied theme |
| Theme.ToggleFlips | contexts/ThemeContext.tsx:61-73 | the toggle never selects 'system' and always changes the applied theme |
| Theme.ToggleTwice | contexts/ThemeContext.tsx:67-73 | two toggles restore an explicit mode; from 'system' they settle on the device theme |
| Theme.ThemeProvider.constructor | contexts/ThemeContext.tsx:29-31 | the mode starts as 'system', loading, with nothing saved |
| Theme.ThemeProvider.LoadTheme | contexts/ThemeContext.tsx:34-49 | a non-empty saved value becomes the mode, loading ends, and the mode is saved |
| Theme.ThemeProvider.SaveEffect | contexts/ThemeContext.tsx:52-58 | the mode is saved after loading, exactly when the mode or the loading flag changed |
| Theme.ThemeProvider.SetTheme | contexts/ThemeContext.tsx:63-65 | the mode is set and saved when loading is over and it changed |
| Theme.ThemeProvider.ToggleTheme | contexts/ThemeContext.tsx:67-73 | the applied theme flips and the mode becomes explicit |
| Drawer.DrawerState.constructor | app/components/common/Drawer/DrawerProvider.tsx:27 | the drawer starts closed |
| Drawer.DrawerState.OpenDrawer | app/components/common/Drawer/DrawerProvider.tsx:34-37 | the drawer is open, whatever it was |
| Drawer.DrawerState.CloseDrawer | app/components/common/Drawer/DrawerProvider.tsx:39-42 | the drawer is closed, whatever it was |
| Drawer.DrawerState.ToggleDrawer | app/components/common/Drawer/DrawerProvider.tsx:44-47 | the state flips |
| Drawer.DrawerState.BackPress | app/components/common/Drawer/DrawerProvider.tsx:50-63 | consumed, closing the drawer, exactly when open on a native device; otherwise nothing changes |
| Drawer.ToggleTwiceThenBack | app/components/common/Drawer/DrawerProvider.tsx:44-63 | two toggles restore the state, and a second back press is never consumed |

## Left out

- Networking, storage and navigation: axios, NetInfo, AsyncStorage and `localStorage`, the router and `window.location`, and `Toast.show`. The transport is the input `server`, connectivity and the platform are inputs, storage is a record, and a session end is one more count of session ends.
- Timers: the retry waits, the delays of `logoutAndRedirect`, `fetchBudgetData` and the mock service. Only the values of the delay table are kept.
- Concurrency of the token refresh. Interleaved callers are not modelled; the refresh slot is set and cleared in sequence.
- Floating point: NaN and the infinities appear only as `JNaN` and `Percent.NonFinite`; rounding, `toFixed` and locale formatting are not modelled.
- JsValue.NumberText: the text of a non-integral number is not modelled (only the integer part is written out).
- JsValue.Lower: lower-cases ASCII letters only.
- Dates and time zones: `new Date`, `getMonth` and `setHours` become calendar dates and milliseconds of the day; a date-only string is midnight of its day.
- The numeric, `Date` and date-like-object branches of the date formatting in services/transaction/service.ts:120-175 are the parameter `formatDate`.
- `parseFloat` and `Number` on strings are parameters, and their `None` stands for NaN.
- Id generation: `Date.now()` ids in the budget store are a parameter.
- The catch branch that stores an error message in `fetchBudgetData` (store/useBudgetStore.ts:85-89) is not modelled; the simulated fetch cannot fail.
- BudgetAnalytics.ExpenseCategories: the in-place sort of the freshly mapped array is modelled on values (a stable insertion sort over a sequence); that the input items are not reordered follows because the model never changes them.
- The dashboard's in-place sort (app/components/budget/DashboardAnalytics.tsx:27) is modelled on values in the same way.
- Objects are maps, so the order of their keys is not modelled, except for `Object.entries` of the category dictionary (`TransactionAnalytics.ObjectEntries`), where it decides ties in the sort.
- Statuses given as numeric strings are not modelled; a status is a number or absent.
- The axios error codes are assumed to follow axios' rules (`ECONNABORTED` for a timeout, no `response` for a network error).
- The header of the retried request after a refresh (services/apiClient.ts:231) is not kept apart from the one the request interceptor sets (91); both carry the stored token.
- The refresh request's own base URL and 10-second timeout (services/apiClient.ts:277-281) are not modelled; it runs through the same chain as any request, on the next runs of the transport.
- The production build is assumed. With `__DEV__` set on a device, `validateStatus` accepts every status (services/apiClient.ts:52-57), so every reply resolves and only the fulfilled-side checks apply; that configuration is not modelled.
- The order a sort gives when its comparator returns NaN is not modelled; the NaN entries of `TransactionAnalytics.AccumulateAsWritten` stop at the dictionary.
- TransactionAnalytics.Accumulate: models the dictionary as holding own keys only; for a category name inherited from `Object.prototype` the code does what `TransactionAnalytics.AccumulateAsWritten` says (see "## Findings"), and the two agree when no name is inherited (`TransactionAnalytics.AccumulateAllAsWrittenAgrees`).
- TransactionAnalytics.AccumulateLookup: the same assumption of own keys only.
- TransactionAnalytics.AccumulateAllFacts: the same assumption of own keys only.
- TransactionAnalytics.AccumulateAllNames: the same assumption of own keys only.
- TransactionAnalytics.CategoryTotals: the same assumption of own keys only.
- TransactionAnalytics.CategoryTotalsMeaning: the same assumption of own keys only.
- TransactionAnalytics.CollectByCategory: the same assumption of own keys only.
- TransactionAnalytics.CategoryBreakdown: the same assumption of own keys only.
- TransactionAnalytics.CategoryBreakdownFacts: the same assumption of own keys only; with an inherited name the total would be NaN or miss that expense.
- TransactionAnalytics.GetCategoryBreakdown: the same assumption of own keys only.
- TransactionAnalytics.TopSlicesLargestFirst: the same assumption of own keys only; with a NaN amount the sort order is not specified.
- MockTransactionService.GetTransactions: does not state that transactions with equal sort keys keep their order from the list, although the sort is stable (`ArrayOps.SortIsStable`), because the filter steps are specified by multisets only.
- HTTP verbs and bodies are not distinguished, and the query string is a list of pairs, not its URL encoding.
- React hooks, React Query caching, keys and invalidation, and rendering.
- `isCustomError` (it relies on `instanceof AxiosError`) and the logger.
- TransactionForm: the `selectedDate` state that parses the stored date for the picker is not modelled.
- TransactionFilter.ClearThenApply: assumes the parent hands the applied options back as the new prop.
- ApiClient.UnavailableReachesCaller: requires that the 503 body carries no code '401'; with such a code the wrapper returns the 401 envelope instead.
- ApiClient.UnavailableUnknownAsWritten: requires, besides that, a body whose code is not 'ECONNABORTED' and whose message is not 'Network Error'; the second `handleError` would classify such a body as a timeout or a network error.

## Findings

| source | as written | input that shows it | evidently intended | confidence | as-written member | corrected member |
|---|---|---|---|---|---|---|
| services/apiClient.ts:312-325 | `handleError` ends the session on every 401 reply, including for '/auth/' URLs that the interceptor exempts at line 169 | a 401 reply to '/auth/login' (wrong password) | a failed login keeps the session and reports the server's error | not executed | ApiClient.Unauthorized401EndsSessionAsWritten | ApiClient.AuthUrl401KeepsSession |
| services/apiClient.ts:399-411 | the catch of `get`/`post`/`put`/`delete` runs `handleError` again on an error the interceptor already normalised | a request while the server is unreachable (`SERVER_UNREACHABLE`), or a server that keeps answering 503 | the caller receives the interceptor's code and status | not executed | ApiClient.UnavailableUnknownAsWritten | ApiClient.UnavailableReachesCaller |
| services/apiClient.ts:595-597 | `authPost` runs `handleError` again on every rejection | a rejected login, already turned into the auth failure | the caller receives the interceptor's error | not executed | ApiClient.FailedLoginAsWritten | ApiClient.AuthPost |
| services/apiClient.ts:222-304 | the token-expiry check has no URL test, so a token-expiry reply to the refresh request calls `refreshToken()` again, which returns the pending promise the refresh itself is waiting in | a 403 reply with code `TOKEN_EXPIRED` to the request and then to the refresh | the refresh request is exempt from expiry handling and the request fails with its error | not executed | ApiClient.RefreshWaitsOnItself | ApiClient.RefreshExemptSettles |
| app/components/index/TransactionAnalytics.tsx:81-96 | `expensesByCategory` is a plain `{}`, so a category name inherited from `Object.prototype` reads as a function at line 88 | an expense in category 'toString' (its amount becomes NaN) or '__proto__' (its amount disappears) | a dictionary of own keys only | not executed | TransactionAnalytics.InheritedNamesGarbled | TransactionAnalytics.CategoryTotalsMeaning |
| services/transaction/service.ts:103-106 | the `map` callback reads `transaction.id` before the null guard, so a null entry throws and `.filter(Boolean)` never drops it | a list response whose data is `[null]` | null entries are dropped | not executed | TransactionService.NullEntryExample | TransactionService.ProcessList |
