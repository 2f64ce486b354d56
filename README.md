# Expense tracker: a verified model of its core

This project models the core of a small personal expense tracker.

The server side is an Express/MongoDB application with two controllers:
- **Authentication:** register, login, request a one-time code by e-mail, verify the code, and reset the password.
- **Expenses:** create, list newest first, update, delete, and per-category totals. Each is scoped to the signed-in user.

The client side is a React application:
- the expense store held in a context provider;
- the expense list page, with search, category and date filters and column sorting;
- the dashboard, with its summary cards and its five most recent expenses;
- the expense form, with its validation;
- the one-time-code page, with its six digit boxes;
- the two charts: monthly totals of the current year, and totals per category.

Mutable things are classes whose methods change their fields:
- the server's user, code and expense collections;
- the context's list;
- the state of each page.

Each handler is a method of its class, and its `ensures` give the reply and the whole new state. Where the source loops (the dashboard's sums and the charts' accumulations), the method carries loop invariants that tie it to a recursive function. The form's validation is straight-line code, a sequence of tests as in the source, proved against a predicate that states the messages it must store. Queries that only compute (filters, sorts, sums, the pie chart's labels) are functions. The properties the application relies on are lemmas about those functions, or small methods that run several handlers in a row and state the outcome.

Modules, one per source file, plus three shared ones:
- `Text`: the string operations the code relies on (`trim`, `toLowerCase`, `includes`, digit strings, comparison of strings).
- `Records`: the expense record, calendar dates, and sums and filters over lists of expenses.
- `Sorting`: the comparators of the list and the dashboard, and a stable sort proved sorted and a permutation.
- `AuthController`, `ExpenseController`: the two server controllers.
- `ExpenseContext`, `ExpenseList`, `Dashboard`, `ExpenseForm`, `OtpVerification`, `BarChart`, `PieChart`: the client files.

Inputs from outside the code become parameters:
- the server's reply to each client request;
- the random draw of the one-time code;
- the salt of the password hash;
- the current time and date.

Three facts about the one-time codes, modelled as the code has them:
- **Code range.** Codes are drawn from 100000 to 999999, so a code never starts with 0 (`backend/controllers/authController.js:74`). `AuthController.OtpCode` states the range.
- **Expiry instant.** A code is rejected only when its expiry time is strictly before now, so it is still accepted at the exact instant it expires (`backend/controllers/authController.js:111`). `AuthController.CodeLifetime` shows this.
- **Reset check.** `resetPassword` looks at no code at all: given an address and a new password, it resets the password of any registered account, although the client sends the code along (`backend/controllers/authController.js:123-142`). `AuthController.AuthService.ResetPassword` models exactly that.

## Model

| member | source | states |
|---|---|---|
| Text.NormalizeEmail | backend/controllers/authController.js:17 | the normalised address is trimmed, has no upper-case letter and is no longer than the input |
| Text.NormalizeIdempotent | backend/controllers/authController.js:17 | normalising an address twice gives the same as once, so a stored address is its own key |
| Text.NormalizeIgnoresCaseAndPadding | backend/controllers/authController.js:17 | addresses that differ only in letter case and surrounding white space map to the same key |
| Text.ToLower | backend/controllers/authController.js:17 | the result has the input's length, no upper-case letter, each character the lower-case form of the input's, and non-capitals kept |
| Text.Trim | frontend/src/components/ExpenseForm.jsx:46 | the result is no longer than the input, starts and ends with a non-space when not empty, and holds only characters of the input |
| Text.TrimIgnoresPadding | frontend/src/components/ExpenseForm.jsx:46 | `trim` removes white space at both ends and nothing else, whatever the padding |
| Text.Includes | frontend/src/pages/ExpenseList.jsx:30-33 | `includes` is true exactly when the term occurs at some position of the text |
| Text.ParseNatToString | backend/controllers/authController.js:74 | the decimal digits of a number read back as that number |
| Text.NatToStringLength | backend/controllers/authController.js:74 | a number with k digits prints as k characters with no leading zero |
| Records.TakeSplits | frontend/src/pages/Dashboard.jsx:88 | `slice(0, n)` is a front part of the list that the rest follows, drawn from the list's elements, unchanged by taking again, exactly n long while n is below the length, and the whole list once n reaches it |
| Records.FilterCount | frontend/src/pages/ExpenseList.jsx:27-45 | `filter` keeps each element that passes with its full multiplicity, and drops every other element |
| Sorting.Compare | frontend/src/pages/ExpenseList.jsx:47-59 | the comparator answers -1, 0 or 1, and 0 exactly when the two keys are equal |
| Sorting.CompareMeaning | frontend/src/pages/ExpenseList.jsx:47-59 | the list's comparator is zero exactly on equal keys, antisymmetric, and negative exactly when the first key comes first in the chosen direction |
| Sorting.CompareTransitive | frontend/src/pages/ExpenseList.jsx:47-59 | the comparator is transitive, so it is a consistent order for `sort` |
| Sorting.KeyLessTrichotomy | frontend/src/pages/ExpenseList.jsx:50-57 | for title, amount and date, exactly one of less, greater or same key holds |
| Sorting.SortBy | frontend/src/pages/ExpenseList.jsx:47 | the sort rearranges its input: same length, each element as often as before |
| Sorting.SortByCorrect | frontend/src/pages/ExpenseList.jsx:47-59 | sorting gives an ordering under the comparator that is a permutation of the input |
| Sorting.SortByStable | frontend/src/pages/ExpenseList.jsx:47-59 | the sort is stable: for every key, the expenses sharing that key come out in the order they went in |
| AuthController.Significant | backend/controllers/authController.js:24 | bcrypt reads at most the first 72 bytes of a password: a prefix of it, the whole password when it is shorter |
| AuthController.HashVerifies | backend/controllers/authController.js:46-47 | a password hash verifies against the password it was made from, and against another exactly when the two agree on their first 72 bytes; for passwords of at most 72 bytes, only against the same password |
| AuthController.SignedTokenResolves | backend/controllers/authController.js:27 | a session token carries the user's id for seven days after issue and is rejected afterwards |
| AuthController.OtpCode | backend/controllers/authController.js:74 | the code is six decimal digits with no leading zero, its value is 100000 plus the draw, so different draws give different codes |
| AuthController.AuthService.constructor | backend/controllers/authController.js:3-4 | the user and code collections start empty, and the table invariant holds: each user is stored under its own address, with an id below the next one and used by no other user |
| AuthController.AuthService.Register | backend/controllers/authController.js:10-35 | a missing field gives 400 and stores nothing; a taken address gives 400 "Email already exists"; otherwise exactly one user is added under the normalised address with a fresh id and a hash of the password, and a seven-day token and the password-free view are returned |
| AuthController.AuthService.Login | backend/controllers/authController.js:38-57 | an absent address gives 500, as the throwing `toLowerCase` does; an unknown address gives 400 "User not found"; for a known user an absent password gives 500 and a wrong one gives 400 "Incorrect password"; otherwise the token and view of exactly the stored user; nothing changes |
| AuthController.AuthService.RequestOtp | backend/controllers/authController.js:60-94 | a missing address gives 400; an unknown one gives 404; otherwise the code for the address is replaced by a fresh six-digit code valid for ten minutes, and nothing else changes |
| AuthController.AuthService.VerifyOtp | backend/controllers/authController.js:97-120 | missing fields give 400; no stored code gives 400 "OTP not found"; a different code, or an expiry strictly before now, gives 400 "Invalid or expired OTP"; otherwise 200; the code is not consumed |
| AuthController.AuthService.ResetPassword | backend/controllers/authController.js:123-142 | missing fields give 400 and change nothing; otherwise success is reported whether or not a user matched: the matching user's password hash, and nothing else about it, is replaced, and the address's code is deleted, with no code checked |
| AuthController.DuplicateRegistration | backend/controllers/authController.js:17-22 | registering a second time under an address that normalises the same is refused, and only one user is added |
| AuthController.RegisterThenLogin | backend/controllers/authController.js:10-57 | after a successful registration, logging in with the same password succeeds for the same user, and the token resolves to that user's id |
| AuthController.CodeLifetime | backend/controllers/authController.js:106-113 | a fresh code is accepted up to and including its expiry instant, rejected one millisecond later, and a mistyped code is rejected |
| AuthController.SecondRequestReplacesCode | backend/controllers/authController.js:77-81 | after a second request, the second code verifies while it is fresh, and the first code verifies only when the two draws coincide |
| AuthController.ResetThenLogin | backend/controllers/authController.js:130-137 | after a reset, the old password logs in exactly when it shares its first 72 bytes with the new one and is refused otherwise, and the new one logs in; the reset deleted the code, so verifying it finds none |
| ExpenseController.PatchLaws | backend/controllers/expenseController.js:46-48 | an update with no fields keeps the expense, applying the same update twice equals once, and an update supplying every field keeps only the id and owner of the old expense |
| ExpenseController.FindOwned | backend/controllers/expenseController.js:47 | finds an expense with that id and that owner, or reports that none exists |
| ExpenseController.CategoryTotals | backend/controllers/expenseController.js:92-104 | every category that occurs gets a total |
| ExpenseController.CategoryTotalsCorrect | backend/controllers/expenseController.js:92-104 | there is one total per category that occurs, and it is the sum of the amounts in that category |
| ExpenseController.ExpenseStore.constructor | backend/controllers/expenseController.js:2 | the expense collection starts empty, with distinct ids |
| ExpenseController.ExpenseStore.AddExpense | backend/controllers/expenseController.js:4-27 | a missing required field gives 400 and stores nothing; otherwise exactly one expense is appended, owned by the caller, with a fresh id, and returned with 201 |
| ExpenseController.ExpenseStore.GetExpenses | backend/controllers/expenseController.js:30-38 | exactly the caller's expenses, each with its multiplicity, newest date first |
| ExpenseController.ExpenseStore.UpdateExpense | backend/controllers/expenseController.js:41-61 | a malformed id gives 500; an id the caller does not own gives 404; otherwise only that expense is patched and returned; every other expense is unchanged |
| ExpenseController.ExpenseStore.DeleteExpense | backend/controllers/expenseController.js:64-87 | a malformed id gives 400; an id the caller does not own gives 404; otherwise only that expense is removed |
| ExpenseController.RemoveAtKeeps | backend/controllers/expenseController.js:73-76 | removing one expense keeps the ids distinct and below the next id, keeps every other expense, and adds none |
| ExpenseController.ExpenseStore.GetSummary | backend/controllers/expenseController.js:90-111 | one total per category among the caller's expenses, each the sum of the caller's amounts in it |
| ExpenseContext.ReplaceById | frontend/src/context/ExpenseContext.jsx:41-43 | the list keeps its length and order; every entry with the id becomes the returned expense and the others stay |
| ExpenseContext.RemoveById | frontend/src/context/ExpenseContext.jsx:54 | every entry with the id goes, and every other entry stays with its multiplicity |
| ExpenseContext.RemoveByIdConcat | frontend/src/context/ExpenseContext.jsx:54 | removal works part by part, so the order of the remaining entries is kept |
| ExpenseContext.FirstIndexOf | frontend/src/context/ExpenseContext.jsx:63 | finds the first entry with the id, or reports that none exists |
| ExpenseContext.ExpenseProvider.constructor | frontend/src/context/ExpenseContext.jsx:7-8 | starts with an empty list, loading |
| ExpenseContext.ExpenseProvider.FetchExpenses | frontend/src/context/ExpenseContext.jsx:10-19 | a reply replaces the list, a failure keeps it as it was; loading ends either way |
| ExpenseContext.ExpenseProvider.AddExpense | frontend/src/context/ExpenseContext.jsx:25-35 | on success the returned expense is appended and returned; on failure "Failed to add expense" is thrown and the list is unchanged |
| ExpenseContext.ExpenseProvider.UpdateExpense | frontend/src/context/ExpenseContext.jsx:37-49 | on success the entries with the id are replaced by the returned expense; on failure "Failed to update expense" is thrown and the list is unchanged |
| ExpenseContext.ExpenseProvider.DeleteExpense | frontend/src/context/ExpenseContext.jsx:51-60 | on success the entries with the id are dropped and success is returned; on failure "Failed to delete expense" is thrown and the list is unchanged |
| ExpenseContext.ExpenseProvider.GetExpense | frontend/src/context/ExpenseContext.jsx:62-64 | the first entry with the id, or nothing exactly when no entry has it |
| ExpenseContext.UpdateThenGet | frontend/src/context/ExpenseContext.jsx:37-64 | after an update of an id that is present, looking the id up finds the returned expense |
| ExpenseContext.DeleteThenGet | frontend/src/context/ExpenseContext.jsx:51-64 | after a delete, looking the id up finds nothing |
| ExpenseList.NextSortAlternates | frontend/src/pages/ExpenseList.jsx:64-67 | clicking the same column twice always flips the direction |
| ExpenseList.MatchesSearch | frontend/src/pages/ExpenseList.jsx:27-33 | the lower-cased term occurs (`Text.Includes`) in the lower-cased title or description; its contract states the consequence that an empty term matches every expense |
| ExpenseList.SearchIgnoresCase | frontend/src/pages/ExpenseList.jsx:30-33 | the search is case-insensitive: a term matches exactly when its lower-cased form does, and lower-casing the title changes no match |
| ExpenseList.Passes | frontend/src/pages/ExpenseList.jsx:27-45 | with no filter set every expense passes; a passing expense has the selected category when one is set |
| ExpenseList.NarrowSelection | frontend/src/pages/ExpenseList.jsx:27-45 | each filter step narrows an exact selection by one more condition |
| ExpenseList.ExpenseListPage.constructor | frontend/src/pages/ExpenseList.jsx:11-16 | the page starts with no filters, filters hidden, sorted by date with the newest first |
| ExpenseList.ExpenseListPage.FilterExpenses | frontend/src/pages/ExpenseList.jsx:24-62 | the shown list is the stable sort of the passing expenses in list order, so it holds exactly the expenses that pass every filter that is set, each with its multiplicity, sorted, with ties in list order |
| ExpenseList.ExpenseListPage.Narrow | frontend/src/pages/ExpenseList.jsx:25-45 | the filters that are set, applied in turn, keep exactly the expenses that pass all of them, in list order |
| ExpenseList.ExpenseListPage.HandleSort | frontend/src/pages/ExpenseList.jsx:64-67 | the sort setting becomes the next one for the clicked column |
| ExpenseList.ExpenseListPage.ResetFilters | frontend/src/pages/ExpenseList.jsx:80-86 | all filters are cleared and hidden, and the sort is kept; the stored list is sorted by that sort and holds exactly the expenses passing the filters from before the reset, which the call still sees, as the stable sort of that selection |
| ExpenseList.ExpenseListPage.Refresh | frontend/src/pages/ExpenseList.jsx:18-22 | once loading is over the list is again the stable sort of the passing expenses; while loading it is untouched |
| ExpenseList.EmptyCriteriaPassAll | frontend/src/pages/ExpenseList.jsx:27-45 | with every filter empty, no expense is filtered out |
| ExpenseList.EmptyTermMatches | frontend/src/pages/ExpenseList.jsx:27-33 | an empty search term matches every expense |
| ExpenseList.SearchIgnoresTermCase | frontend/src/pages/ExpenseList.jsx:28-33 | search terms that differ only in letter case select the same expenses |
| ExpenseList.RangeInclusive | frontend/src/pages/ExpenseList.jsx:40-45 | both ends of the date range are inclusive |
| ExpenseList.ResetThenRefresh | frontend/src/pages/ExpenseList.jsx:18-22 | after a reset and the effect that follows it, the list is the whole loaded list under the stable sort of the kept order |
| Dashboard.PreviousMonth | frontend/src/pages/Dashboard.jsx:40-41 | the previous month is one month back, with January wrapping to December of the year before |
| Dashboard.PreviousMonthUnique | frontend/src/pages/Dashboard.jsx:40-41 | it is the only month one step back |
| Dashboard.PercentChange | frontend/src/pages/Dashboard.jsx:63-66 | 100 when last month is zero; otherwise the difference relative to last month, times 100 |
| Dashboard.PercentChangeSign | frontend/src/pages/Dashboard.jsx:63-66 | with last month positive, the change is positive exactly when this month is higher, and zero exactly when the two are equal |
| Dashboard.ComputeSummary | frontend/src/pages/Dashboard.jsx:43-61 | the loop gives the sum of all amounts, the sum for the current month of the current year, the sum for the month before, and their percent change |
| Dashboard.MonthsDisjoint | frontend/src/pages/Dashboard.jsx:55-60 | no expense counts for both months, so the two month sums add up to the sum over both months |
| Dashboard.MonthSumBounded | frontend/src/pages/Dashboard.jsx:53-57 | with positive amounts, a month's sum lies between zero and the total |
| Dashboard.RecentExpenses | frontend/src/pages/Dashboard.jsx:86-88 | five expenses, or all of them when there are fewer, drawn from the list |
| Dashboard.RecentExpensesCorrect | frontend/src/pages/Dashboard.jsx:86-88 | the recent list has five expenses, or all of them when there are fewer; they are newest first and drawn from the list; no expense left out is newer than one shown |
| Dashboard.DashboardPage.constructor | frontend/src/pages/Dashboard.jsx:14-19 | the summary starts at all zeros |
| Dashboard.DashboardPage.CalculateSummary | frontend/src/pages/Dashboard.jsx:36-84 | the summary becomes the one for these expenses and this day; state is set exactly when some figure differs |
| Dashboard.DashboardPage.OnExpensesChanged | frontend/src/pages/Dashboard.jsx:29-34 | the summary is computed only once loading is over and the list is not empty; otherwise it is kept |
| Dashboard.RecalculateIsStable | frontend/src/pages/Dashboard.jsx:76-83 | computing again on the same data sets nothing new |
| Dashboard.ZeroUntilLoaded | frontend/src/pages/Dashboard.jsx:29-34 | the summary stays all zeros while loading, and when there are no expenses |
| ExpenseForm.ParseFloat | frontend/src/components/ExpenseForm.jsx:51 | a negative number can only come from a leading minus sign after the white space |
| ExpenseForm.ParseFloatOfNat | frontend/src/components/ExpenseForm.jsx:51 | the digits of a whole number, followed by text that does not start with a digit, a point or an exponent mark, parse to that number |
| ExpenseForm.ParseFloatOfParts | frontend/src/components/ExpenseForm.jsx:51 | a decimal `ip.fp` followed by text that does not start with a digit or an exponent mark parses to the magnitude of the two digit strings, which is the integer part plus `fp` over ten to the number of fraction digits |
| ExpenseForm.ParseFloatSkipsSpace | frontend/src/components/ExpenseForm.jsx:51 | leading white space does not change the number |
| ExpenseForm.ParseFloatMinus | frontend/src/components/ExpenseForm.jsx:51-52 | an amount with a minus sign is never accepted as positive |
| ExpenseForm.DefaultsNotValid | frontend/src/components/ExpenseForm.jsx:9-16 | the starting values never pass validation, nor do they with initial data that supplies no amount |
| ExpenseForm.ValidationErrors | frontend/src/components/ExpenseForm.jsx:44-59 | throws exactly when there is no title; otherwise gives one message per failing field, with the right message for each, and no messages exactly when the form is valid |
| ExpenseForm.ExpenseFormState.constructor | frontend/src/components/ExpenseForm.jsx:9-17 | each supplied initial value wins over the default, and there are no messages |
| ExpenseForm.ExpenseFormState.SyncInitialData | frontend/src/components/ExpenseForm.jsx:18-26 | non-empty initial data replaces the fields, with the amount as text or empty; empty data changes nothing |
| ExpenseForm.ExpenseFormState.HandleChange | frontend/src/components/ExpenseForm.jsx:27-43 | sets the one field, and clears that field's message only if it shows one |
| ExpenseForm.ExpenseFormState.Validate | frontend/src/components/ExpenseForm.jsx:44-62 | passes exactly when the form is valid; the stored messages are exactly one per failing field with that field's text ("Amount is required" or "Amount must be a positive number" for the amount), empty exactly on a pass; with no title it throws and stores nothing |
| ExpenseForm.ExpenseFormState.HandleSubmit | frontend/src/components/ExpenseForm.jsx:63-71 | submits exactly when validation passes, with every field as entered and the amount as its positive number; the stored messages are those validation gives, and unchanged when it throws |
| ExpenseForm.ChangeKeepsOthers | frontend/src/components/ExpenseForm.jsx:27-43 | a change to one field leaves every other field and message as it was |
| ExpenseForm.FreshFormRejects | frontend/src/components/ExpenseForm.jsx:9-71 | a fresh form with no initial data never submits |
| OtpVerification.FirstCharLaws | frontend/src/pages/OtpVerification.jsx:28-29 | cutting the input keeps a valid box value, is empty only for empty input, cutting twice is cutting once, and the cut input is accepted exactly when it is empty or starts with a digit |
| OtpVerification.JoinFull | frontend/src/pages/OtpVerification.jsx:50-51 | the joined code has as many characters as there are boxes exactly when every box is filled |
| OtpVerification.JoinDigits | frontend/src/pages/OtpVerification.jsx:29-33 | boxes that each hold nothing or one digit join to a string of digits |
| OtpVerification.TypedCodeJoins | frontend/src/pages/OtpVerification.jsx:50 | a code typed one character per box joins back to that code |
| OtpVerification.OtpPage.constructor | frontend/src/pages/OtpVerification.jsx:8-18 | six empty boxes, no passwords, not verified, not loading |
| OtpVerification.OtpPage.HandleOtpChange | frontend/src/pages/OtpVerification.jsx:27-39 | anything but one digit or nothing is ignored; otherwise only that box is written; focus moves on after a digit in any box but the last |
| OtpVerification.TypeThenBackspace | frontend/src/pages/OtpVerification.jsx:27-46 | a digit typed into a box moves focus forward, and Backspace in the empty box reached moves it back to the same box without changing any box |
| OtpVerification.OtpPage.HandleVerifyOtp | frontend/src/pages/OtpVerification.jsx:48-66 | sends the address and the joined code only when six characters are entered; marks the code verified only on acceptance |
| OtpVerification.OtpPage.HandleResetPassword | frontend/src/pages/OtpVerification.jsx:68-95 | refuses a new password shorter than six characters or unlike its confirmation; otherwise sends the address, the code and the password, and moves on only on acceptance |
| OtpVerification.SentOnlyWhenFull | frontend/src/pages/OtpVerification.jsx:48-58 | a verification is sent exactly when all six boxes are filled, and what it carries is six digits |
| OtpVerification.TypeCode | frontend/src/pages/OtpVerification.jsx:27-39 | typing six digits into the boxes in turn gives exactly that code |
| BarChart.MonthlyBuckets | frontend/src/components/Charts/ExpenseBarChart.jsx:13-24 | there are always twelve buckets, one per month label |
| BarChart.BucketIsMonthSum | frontend/src/components/Charts/ExpenseBarChart.jsx:18-24 | each bucket is the sum of the amounts of that month in the given year |
| BarChart.BucketsSumToYear | frontend/src/components/Charts/ExpenseBarChart.jsx:18-24 | the twelve buckets add up to the year's total |
| BarChart.MonthlyTotals | frontend/src/components/Charts/ExpenseBarChart.jsx:10-24 | nothing for an empty list; otherwise twelve totals, each the month's sum in the current year, together the year's sum |
| BarChart.OtherYearIgnored | frontend/src/components/Charts/ExpenseBarChart.jsx:20 | an expense of another year changes no bucket |
| PieChart.Slice | frontend/src/components/Charts/ExpensePieChart.jsx:20-25 | a known category is its own slice; any other goes to "Other" |
| PieChart.Dedup | frontend/src/components/Charts/ExpensePieChart.jsx:13-16 | the object's keys are the categories, each once |
| PieChart.ChartKeys | frontend/src/components/Charts/ExpensePieChart.jsx:13-26 | the keys are the known categories, plus "Other" exactly when some expense has an unknown category, each once |
| PieChart.SliceTotalsStep | frontend/src/components/Charts/ExpensePieChart.jsx:19-26 | one more expense adds its amount to the slice totals exactly once |
| PieChart.SliceTotalsCoverAll | frontend/src/components/Charts/ExpensePieChart.jsx:19-26 | when every expense falls in some slice, the slices add up to the total |
| PieChart.ChartTotalsSumToAll | frontend/src/components/Charts/ExpensePieChart.jsx:19-26 | every expense is counted in exactly one slice, so the chart's slices add up to the total |
| PieChart.UnusedCategoryIsZero | frontend/src/components/Charts/ExpensePieChart.jsx:13-16 | a category nobody used keeps its zero total |
| PieChart.Slices | frontend/src/components/Charts/ExpensePieChart.jsx:29-30 | the shown labels are exactly the keys with a positive total; the data holds those totals in parallel |
| PieChart.SlicesInKeyOrder | frontend/src/components/Charts/ExpensePieChart.jsx:29-30 | the labels keep the chart keys' order, as `filter` does: labels of an earlier run of keys precede those of a later run |
| PieChart.FilterDistinct | frontend/src/components/Charts/ExpensePieChart.jsx:29 | filtering distinct labels keeps them distinct |
| PieChart.InitialTotals | frontend/src/components/Charts/ExpensePieChart.jsx:13-16 | each category gets a zero total, and nothing else is a key |
| PieChart.CategoryTotals | frontend/src/components/Charts/ExpensePieChart.jsx:19-26 | the loop's keys are the chart's keys, and each total is the sum of its slice |
| PieChart.AddKnown | frontend/src/components/Charts/ExpensePieChart.jsx:20-21 | adding an expense of a known category to its total keeps the totals right |
| PieChart.OpenOther | frontend/src/components/Charts/ExpensePieChart.jsx:22-23 | the first expense of an unknown category creates "Other" at the end of the keys, holding its amount, and the totals stay right |
| PieChart.GrowOther | frontend/src/components/Charts/ExpensePieChart.jsx:22-23 | a later expense of an unknown category adds its amount to "Other", the keys stay as they are, and the totals stay right |
| PieChart.AddExpense | frontend/src/components/Charts/ExpensePieChart.jsx:19-24 | one turn of the loop takes the totals for a prefix of the expenses to the totals for that prefix and one more expense |
| PieChart.PieData | frontend/src/components/Charts/ExpensePieChart.jsx:10-30 | nothing for an empty list; otherwise the labels are the chart keys whose slice sum is positive, in the keys' order, each once, with the sums in parallel |

## Left out

- Amounts are integers. JavaScript numbers are binary floating point, so rounding in sums and in the percent change calculation is not modelled. The percent change and the form's parsed amount are exact rationals.
- ExpenseForm.ParseFloat: only decimal notation is modelled. Exponents (`1e3`), `Infinity` and the full set of white space `parseFloat` skips are not.
- Text.ToLower: only ASCII letters are lower-cased. Unicode case mapping, UTF-16 code units (string lengths, `slice`) and the code-unit order of string comparison are modelled on plain characters.
- Text.Trim: white space is the eight characters `Text.IsSpace` lists (space, tab, line feed, carriage return, vertical tab, form feed, no-break space and byte order mark). JavaScript's `trim` also strips U+1680, U+2000 to U+200A, U+2028, U+2029, U+202F, U+205F and U+3000; Text.NormalizeEmail inherits the same gap.
- ExpenseController.ExpenseStore.UpdateExpense: an absent field keeps its stored value, which is what Mongoose 6 and later do with `undefined` in an update. Earlier versions without `omitUndefined` write such a field as null; that is not modelled.
- Form fields, request bodies and the form's `initialData` are modelled as strings. In the source, the edit page passes a stored expense whose `amount` is a number, and a JSON body may carry non-strings; then `toLowerCase` or `trim` throws and the server answers 500. Neither is modelled.
- Dates are calendar days (year, month, day). The time of day, time zones (`new Date` and `toISOString` in UTC versus local `getMonth`) and invalid dates are left out. The server's newest-first sort and the list's date comparison both use this order.
- Sorting.SortBy: the in-place `Array.prototype.sort` of a copy is modelled on values by an insertion sort. Like the engine's sort, which ECMAScript 2019 requires to be stable, it keeps expenses with equal keys in their input order (Sorting.SortByStable). The order MongoDB's `sort` in `getExpenses` gives to expenses with the same date is not specified; the model keeps them in insertion order, and that is a choice of the model.
- ExpenseController.ExpenseStore.GetSummary: the aggregation's array of `{ _id, total }` is modelled as a map from category to total. The order of the groups is not modelled.
- The pie chart's `in` test on a plain object also finds inherited keys such as `toString`. Object key order puts integer-like keys first. Neither is modelled: keys are distinct strings in insertion order.
- The list of known categories (`frontend/src/utils/constants.js`) is not part of this model. It is a parameter of the pie chart.
- MongoDB's ObjectId casting is modelled as a well-formed or malformed id. The text of the cast error in the update's 500 reply is not modelled.
- Database failures, which answer 500 from each controller's `catch`, are not modelled. The exception is login without an address or a password, where the controller's own string and hash calls throw.
- The schemas in `backend/models` are not part of this model. Uniqueness of e-mail addresses is stated as a class invariant instead.
- bcrypt and JWT are symbolic. A hash is its salt and the first 72 characters of the password, and a token is the id and its expiry. Cryptographic strength is out of scope.
- AuthController.Significant: bcryptjs keeps the first 72 UTF-8 bytes of a password; the model keeps the first 72 characters, which is the same for ASCII passwords only.
- The random draw of the one-time code, the hash salt and the clock are parameters.
- Sending the e-mail with the code (`backend/utils/mailer.js`), and its failure, is left out.
- React scheduling is left out: effects, batching of state updates, asynchronous ordering and concurrent requests. Each handler runs to completion on the state it reads. Toasts, navigation and rendering (Chart.js, colours, tooltips) are also left out.
- DOM focus calls on the code page are returned as the index of the box that would get focus.
- The dashboard's effect on the current user (`frontend/src/pages/Dashboard.jsx:22-26`) has an empty body and is not modelled.
- The code page's redirect when no address was passed (`frontend/src/pages/OtpVerification.jsx:20-25`) is navigation and is left out.
