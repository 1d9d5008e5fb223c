# Personal finance app: a Dafny model of its list logic

This project models the logic of a small personal-finance web app. It leaves
out the JSX and keeps the list work that every page does over in-memory
records: filter, map, reduce, sort, slice and replace-by-key.

- **Bills.** The bills page turns the recurring transactions into bills, with
  an id, an ordinal "Monthly - 21st" label, the absolute amount and a paid
  flag. It then searches them, sorts them and adds up the totals. Two other
  components classify bills by their own rules, and the model keeps the three
  rules apart because they disagree: the summary goes by day of the month, and
  the recurring-bills card goes by the sign of the amount.
- **Pots.** The pots page is a store of savings pots. It adds, edits by
  original name, deletes by name, deposits, and withdraws with a clamp at 0.
  Four modals guard it: their schemas, previews and submit guards are
  modelled, and so is the progress percentage of a pot card. Together they
  keep every pot's total non-negative.
- **Budgets.** The budgets page computes each budget's spending and the donut
  of maxima (the same `acc` loop as the overview card), plus each card's
  figures and its latest three transactions. It adds with replace-or-append,
  edits by category and deletes by category.
- **Transactions.** The transactions page searches, narrows to a category,
  sorts, and shows pages of ten behind a bounded page cursor.
- **Images.** `normalizeImageSrc` rewrites image paths.

State that the source keeps in React `useState` and replaces from handlers is
modelled as classes with `seq` fields:

- `PotsPage.PotsStore`
- `BudgetsPage.BudgetsStore`
- `TransactionsPage.Cursor`

Each method's postcondition ties the new state to a pure function of the old
one, and the lemmas are stated about those functions. The pages call
`Array.prototype.sort` in place on a working copy. The model does the same with
`ArraySort.SortInPlace`, an insertion sort on an `array`, which is proved to
leave exactly `Sorting.SortBy` of the old contents. `SortBy` is the stable
sorted permutation. The donut's `acc` loop is the method `Donut.Stops`, with
loop invariants.

Representation:

- **Money** is `real`.
- **Dates** arrive parsed, as `Date(day, time)`: the UTC day of the month
  (1 to 31) and the timestamp, which the source gets from `getUTCDate()` and
  `getTime()`.
- **Today's day of the month** is a parameter; the source reads it from the
  clock.
- **Number inputs** are `NumberField = Number(value) | NotANumber`, so that the
  NaN guards of the modals can be stated.
- **Comparators** are "may precede" relations: `le(a, b)` means
  `compare(a, b) <= 0`. The six sort orders are proved to be total preorders.
  Under such a relation the engine's stable sort has one possible result, and
  `Sorting.SortByIsTheStableSort` proves that it is `SortBy`.

## Model

| member | source | states |
|---|---|---|
| ImageSrc.NormalizeImageSrc | lib/utils.ts:8-16 | null or empty input gives ''; non-empty input gives non-empty output; an http(s) URL (any case) or a path starting with '/' is returned unchanged |
| ImageSrc.NormalizeRelative | lib/utils.ts:15 | for other input, a leading '.' followed by one or more '/' becomes a single '/' before the rest; anything else is returned unchanged |
| ImageSrc.NormalizeIdempotent | lib/utils.ts:8-16 | normalising twice is normalising once |
| ImageSrc.LeadingSlashes | lib/utils.ts:15 | counts exactly the run of '/' that `\/+` matches at the start |
| Seqs.Filter | app/bills/page.tsx:35 | `filter` keeps exactly the elements satisfying the predicate and never lengthens the list; order is Seqs.FilterIsSubsequence, multiplicity Seqs.FilterMultiplicity |
| Seqs.FilterIsSubsequence | app/bills/page.tsx:35 | `filter` keeps its elements in their input order: the result is a subsequence of the input |
| Seqs.FilterMultiplicity | app/transactions/page.tsx:56-60 | each element occurs in a filtered list as often as in the input when it passes, and never otherwise |
| Seqs.SumOfSplit | app/bills/page.tsx:95-104 | the sum over a list is the sum over the elements passing a predicate plus the sum over the rest |
| Seqs.SumOfPermutation | app/bills/page.tsx:95-103 | a `reduce` sum does not depend on the order of the list |
| Seqs.ThreeWayPartition | components/bills/BillsSummaryDetails.tsx:20-35 | when every element satisfies exactly one of three predicates, the three filters' lengths and sums add up to the whole list's |
| Seqs.Slice | app/transactions/page.tsx:97-100 | `slice` with clamped bounds: at most `end - start` elements, exactly `s[start..end]` when in range, empty when `end <= start` |
| Sorting.SortByCorrect | app/transactions/page.tsx:63-91 | the sort of a list by a consistent comparator is a permutation, is sorted, and keeps tied elements in input order |
| Sorting.SortByIsTheStableSort | app/bills/page.tsx:72-90 | any sorted, tie-preserving permutation of the input is `SortBy` of it, so the engine's stable sort and the model agree |
| Sorting.StableSortUnique | app/bills/page.tsx:72-90 | two sorted permutations that order every tie class alike are equal |
| ArraySort.SortInPlace | app/bills/page.tsx:65-90 | sorting a working copy in place leaves in the array exactly the stable sort of its old contents |
| ArraySort.InsertInPlace | app/transactions/page.tsx:63-91 | one insertion step moves the element right past those it may not precede and leaves the prefix alone |
| ArraySort.InsertAt | app/transactions/page.tsx:63-91 | inserting into a sorted run places the element after exactly the elements it may not precede |
| SortOptions.ByKeysTotalPreorder | app/transactions/page.tsx:63-91 | each of the six comparators (latest, oldest, az, za, highest, lowest) is total and transitive |
| SortOptions.KeyLe | app/transactions/page.tsx:63-91 | `compare(a, b) <= 0` for each of the six comparators, on timestamp, name and amount; SortOptions.ByKeysTotalPreorder proves each total and transitive |
| Text.Trim | app/transactions/page.tsx:54 | `trim()` is empty exactly when the string is all white space, and otherwise starts and ends with a non-space |
| Text.ToLower | app/transactions/page.tsx:55-56 | `toLowerCase()` keeps the length and lowers each character |
| Text.ContainsIffOccurs | app/bills/page.tsx:69 | `includes(q)` holds exactly when `q` occurs at some position |
| Text.NatToStringRoundTrip | app/bills/page.tsx:47 | the decimal rendering of an index reads back as that index |
| Text.NatToStringInjective | app/bills/page.tsx:47 | different indices render differently |
| Text.ReplaceSpaceRuns | app/bills/page.tsx:47 | `replace(/\s+/g, '-')` leaves no white space |
| Text.LexLeTotal | app/bills/page.tsx:83-85 | the name order used for az/za compares every pair |
| Text.LexLeTransitive | app/bills/page.tsx:83-85 | the name order is transitive |
| Text.Contains | app/transactions/page.tsx:56 | `includes`: specified by Text.ContainsIffOccurs, which says it holds exactly when the query occurs at some position |
| Text.NatToString | app/bills/page.tsx:47 | the decimal rendering of the index in a bill id; specified by Text.NatToStringRoundTrip and Text.NatToStringInjective |
| Text.LexLe | app/bills/page.tsx:83-85 | code-point lexicographic order, standing in for `a.localeCompare(b) <= 0`; specified by Text.LexLeTotal and Text.LexLeTransitive |
| JsMath.Round | components/RecurringBillsCard.tsx:20 | `Math.round(x)` is the integer within half of `x`, halves rounding up |
| BillsPage.DeriveFrom | app/bills/page.tsx:36-55 | the map gives one bill per recurring transaction, built from it and its index |
| BillsPage.InitialBillsSpec | app/bills/page.tsx:33-56 | the bills are the recurring transactions in order, one each; amount is the absolute value (>= 0); paid exactly when the raw amount > 0; label from the day; ids pairwise distinct |
| BillsPage.SuffixRule | app/bills/page.tsx:38-43 | "st" iff d%10 = 1 and d != 11, "nd" iff d%10 = 2 and d != 12, "rd" iff d%10 = 3 and d != 13, "th" otherwise |
| BillsPage.DueLabelExamples | app/bills/page.tsx:44 | "Monthly - 1st", "2nd", "3rd", "4th", "11th", "12th", "13th", "21st", "22nd", "23rd", "30th", "31st" |
| BillsPage.BillIdInjective | app/bills/page.tsx:47 | equal ids imply equal indices |
| BillsPage.SlugHasNoSpace | app/bills/page.tsx:47 | the name part of an id holds no white space |
| BillsPage.SearchedSpec | app/bills/page.tsx:67-70 | a blank query keeps every bill; otherwise exactly the bills whose lowered title contains the lowered query, in order |
| BillsPage.VisibleBills | app/bills/page.tsx:64-93 | the copy searched and sorted in place is `Visible`, the stable sort of the search result |
| BillsPage.VisibleSpec | app/bills/page.tsx:64-93 | `visible` is a permutation of the search result, sorted and stable; highest/lowest give non-increasing/non-decreasing amounts, latest/oldest non-increasing/non-decreasing timestamps |
| BillsPage.SortedMeans | app/bills/page.tsx:72-90 | what each comparator's sortedness means for amounts and timestamps |
| BillsPage.TotalsSpec | app/bills/page.tsx:95-108 | totalBills = paid + upcoming; upcoming is the sum over unpaid bills; dueSoonCount <= visible count; all non-negative with non-negative amounts |
| BillsPage.TotalsIgnoreSort | app/bills/page.tsx:95-108 | the totals do not depend on the sort order |
| BillsPage.PageTotalsNonNegative | app/bills/page.tsx:95-108 | on the derived bills the paid and upcoming totals are non-negative |
| BillsPage.DueLabel | app/bills/page.tsx:37-44 | `Monthly - ${day}${suffix(day)}`; specified by BillsPage.SuffixRule and BillsPage.DueLabelExamples |
| BillsPage.Slug | app/bills/page.tsx:47 | `name.replace(/\s+/g, '-').toLowerCase()`; specified by BillsPage.SlugHasNoSpace |
| BillsPage.BillId | app/bills/page.tsx:47 | `${i}-${slug}`; specified by BillsPage.BillIdInjective |
| BillsPage.ToBill | app/bills/page.tsx:46-54 | the bill built from one recurring transaction and its index; its fields are stated by BillsPage.InitialBillsSpec |
| BillsPage.InitialBills | app/bills/page.tsx:33-56 | `initialBills`; specified by BillsPage.InitialBillsSpec |
| BillsPage.Searched | app/bills/page.tsx:67-70 | the search step of `visible`; specified by BillsPage.SearchedSpec |
| BillsPage.Visible | app/bills/page.tsx:64-93 | `visible`; specified by BillsPage.VisibleSpec, and computed in place by BillsPage.VisibleBills |
| BillsPage.Totals | app/bills/page.tsx:95-108 | `totalBills`, `paidBillsTotal`, `upcomingTotal` and `dueSoonCount`; specified by BillsPage.TotalsSpec and BillsPage.TotalsIgnoreSort |
| BillsSummary.BucketsPartition | components/bills/BillsSummaryDetails.tsx:20-35 | every bill is in exactly one of paid, due soon and upcoming; the counts add to the total; paid + due-soon sum + upcoming = sum of all |
| BillsSummary.DueSoonMeans | components/bills/BillsSummaryDetails.tsx:23-26 | due soon iff the day is today+1 or today+2, and such a bill is in neither total |
| BillsSummary.NothingUpcomingLate | components/bills/BillsSummaryDetails.tsx:27-29 | from the 29th on the upcoming bucket is empty: no month wrap |
| BillsSummary.IgnoresPaidFlag | components/bills/BillsSummaryDetails.tsx:20-29 | only day and amount matter: the stored paid flag is ignored |
| BillsSummary.TotalsBounded | components/bills/BillsSummaryDetails.tsx:31-35 | with non-negative amounts both totals are >= 0 and together at most the sum; the due-soon count is at most the number of bills |
| BillsSummary.DueTomorrowExample | components/bills/BillsSummaryDetails.tsx:23-26 | a bill on the 3rd seen on the 2nd is due soon and in neither total |
| BillsSummary.SummaryOf | components/bills/BillsSummaryDetails.tsx:16-36 | `summary`; specified by BillsSummary.BucketsPartition, BillsSummary.DueSoonMeans and BillsSummary.TotalsBounded |
| RecurringCard.CardSpec | components/RecurringBillsCard.tsx:10-20 | paid and upcoming are >= 0; dueSoon lies within half a cent of 30% of upcoming |
| RecurringCard.IgnoredTransaction | components/RecurringBillsCard.tsx:10-18 | a non-recurring or zero-amount transaction changes no figure |
| RecurringCard.AgreesWithBillsPage | components/RecurringBillsCard.tsx:12-18 | the card's paid and upcoming equal the bills page's paid and upcoming totals over the same transactions |
| RecurringCard.UnpaidAgrees | components/RecurringBillsCard.tsx:16-18 | the sum of magnitudes of negative recurring amounts equals the sum over unpaid derived bills |
| RecurringCard.PaidAgrees | components/RecurringBillsCard.tsx:12-14 | the sum of positive recurring amounts equals the sum over paid derived bills |
| RecurringCard.Paid | components/RecurringBillsCard.tsx:10-14 | `paid`; specified by RecurringCard.CardSpec and RecurringCard.PaidAgrees |
| RecurringCard.Upcoming | components/RecurringBillsCard.tsx:16-18 | `upcoming`; specified by RecurringCard.CardSpec and RecurringCard.UnpaidAgrees |
| RecurringCard.DueSoon | components/RecurringBillsCard.tsx:20 | `dueSoon`; specified by RecurringCard.CardSpec |
| RecurringCard.Card | components/RecurringBillsCard.tsx:10-20 | the card's three figures; specified by RecurringCard.CardSpec, RecurringCard.IgnoredTransaction and RecurringCard.AgreesWithBillsPage |
| PotCard.Pct | components/PotCard.tsx:33-35 | 0 for a zero target; never above 100; total/target*100 when that is at most 100; >= 0 for total >= 0 and target > 0 |
| PotCard.PctReachesTarget | components/PotCard.tsx:33-35 | with a positive target the bar is full exactly when the total reaches the target |
| AddMoneyModal.Submit | components/modals/AddMoneyModal.tsx:20-22 | only amounts >= 0.01 pass, and the entered amount is forwarded unchanged (components/modals/AddMoneyModal.tsx:61-65) |
| AddMoneyModal.PreviewSpec | components/modals/AddMoneyModal.tsx:51-59 | added = max(0, amount), total >= current; widths sum to 100 when current + added != 0; when it is 0, the fallback total 1 and widths summing to 0, both widths 0 when current >= 0; each width in [0, 100] when current >= 0 |
| AddMoneyModal.AddSchema | components/modals/AddMoneyModal.tsx:20-22 | `addSchema`: a number of at least 0.01; the guard of AddMoneyModal.Submit |
| AddMoneyModal.PreviewOf | components/modals/AddMoneyModal.tsx:51-59 | the live preview; specified by AddMoneyModal.PreviewSpec |
| WithdrawMoneyModal.PreviewOf | components/modals/WithdrawMoneyModal.tsx:56-67 | NaN previews as 0; remaining >= 0 and <= current; target falls back to 1 for 0; emptyFill >= 0 |
| WithdrawMoneyModal.Submit | components/modals/WithdrawMoneyModal.tsx:69-81 | invalid iff the schema (0.01 to 1000000, a number) fails; overdrawn iff the amount exceeds the current total; otherwise confirms that amount |
| WithdrawMoneyModal.ConfirmNeedsFunds | components/modals/WithdrawMoneyModal.tsx:70-78 | a withdrawal is confirmed only from a pot holding at least 0.01: nothing can leave an empty pot |
| WithdrawMoneyModal.WithdrawSchema | components/modals/WithdrawMoneyModal.tsx:18-26 | `withdrawSchema`: a number from 0.01 to 1000000; the guard of WithdrawMoneyModal.Submit |
| WithdrawMoneyModal.WatchedAmount | components/modals/WithdrawMoneyModal.tsx:56-58 | the watched amount, NaN read as 0; stated by WithdrawMoneyModal.PreviewOf |
| WithdrawMoneyModal.TargetOf | components/modals/WithdrawMoneyModal.tsx:63 | `pot?.target \|\| 1`; WithdrawMoneyModal.PreviewOf states that it is never 0 |
| AddPotModal.Submit | components/modals/AddPotModal.tsx:26-30 | accepted iff name non-empty, target >= 0.01, theme non-empty; fields copied and total 0, so 0 = total < target (components/modals/AddPotModal.tsx:66-72) |
| AddPotModal.DefaultFormRejected | components/modals/AddPotModal.tsx:63 | the default form (target 0) is rejected |
| AddPotModal.PotSchema | components/modals/AddPotModal.tsx:26-30 | the add-pot schema; the guard of AddPotModal.Submit, which AddPotModal.DefaultFormRejected shows the default form fails |
| EditPotModal.Reset | components/modals/EditPotModal.tsx:68-77 | a pot refills the form from its fields, a missing theme as ''; no pot leaves the form alone |
| EditPotModal.Submit | components/modals/EditPotModal.tsx:79-90 | accepted iff name, target >= 0.01, total >= 0 and theme pass (components/modals/EditPotModal.tsx:27-32); fields copied; the pot's original name forwarded |
| EditPotModal.UnchangedRoundTrip | components/modals/EditPotModal.tsx:68-90 | submitting the reset form untouched gives back the pot |
| EditPotModal.RenameKeepsKey | components/modals/EditPotModal.tsx:87 | a rename is forwarded under the old name |
| EditPotModal.EditSchema | components/modals/EditPotModal.tsx:27-32 | the edit-pot schema; the guard of EditPotModal.Submit |
| PotsPage.AddSpec | app/pots/page.tsx:40-42 | add appends last, keeps the earlier pots, and raises totalSaved by the pot's total |
| PotsPage.EditedSpec | app/pots/page.tsx:44-50 | edit replaces exactly the pots named `originalName ?? updated.name`; length and the other pots unchanged |
| PotsPage.DeletedSpec | app/pots/page.tsx:52-54 | delete removes exactly the pots with the name and keeps the others in order |
| PotsPage.DepositedTotal | app/pots/page.tsx:35-38 | a deposit raises totalSaved by the amount once per pot with the active name (app/pots/page.tsx:56-65) |
| PotsPage.DepositIntoOne | app/pots/page.tsx:56-65 | with exactly one matching pot, totalSaved rises by the amount |
| PotsPage.TimesIsProduct | app/pots/page.tsx:58-63 | repeated addition of the amount is the product |
| PotsPage.WithdrawnSpec | app/pots/page.tsx:67-76 | a matched pot's total becomes max(0, total - amount) >= 0; other pots unchanged |
| PotsPage.WithdrawnTotal | app/pots/page.tsx:67-76 | when no matched pot holds less than the amount, totalSaved falls by the amount per matched pot |
| PotsPage.AddKeeps | app/pots/page.tsx:40-42 | adding a pot with a non-negative total keeps every total >= 0 |
| PotsPage.EditKeeps | app/pots/page.tsx:44-50 | an edit with a non-negative total keeps every total >= 0 |
| PotsPage.DeleteKeeps | app/pots/page.tsx:52-54 | a delete keeps every total >= 0 |
| PotsPage.DepositKeeps | app/pots/page.tsx:56-65 | a non-negative deposit keeps every total >= 0 |
| PotsPage.WithdrawKeeps | app/pots/page.tsx:67-76 | any withdrawal keeps every total >= 0 |
| PotsPage.AddDialogKeeps | app/pots/page.tsx:120 | a pot from the add dialog keeps every total >= 0 |
| PotsPage.EditDialogKeeps | app/pots/page.tsx:129 | an edit from the edit dialog keeps every total >= 0 |
| PotsPage.RenameReplaces | app/pots/page.tsx:129 | renaming through the edit dialog replaces the old entry; no pot keeps the old name unless it is the new one |
| PotsPage.AddMoneyDialogKeeps | app/pots/page.tsx:153-154 | a deposit the add-money dialog confirms keeps every total >= 0 |
| PotsPage.WithdrawDialogExact | app/pots/page.tsx:164-165 | a confirmed withdrawal from a uniquely named pot takes exactly the amount: the clamp never acts |
| PotsPage.OnlyOneNamed | app/pots/page.tsx:60 | with one pot of a name, every pot of that name is that pot |
| PotsPage.PotsStore.constructor | app/pots/page.tsx:33 | the store starts from the initial pots with no active pot |
| PotsPage.PotsStore.Select | app/pots/page.tsx:98-113 | a card's button makes that pot active and leaves the list alone |
| PotsPage.PotsStore.CloseDialog | app/pots/page.tsx:124-126 | closing a dialog clears the active pot |
| PotsPage.PotsStore.HandleAdd | app/pots/page.tsx:40-42 | the list becomes the old list plus the pot |
| PotsPage.PotsStore.HandleEdit | app/pots/page.tsx:44-50 | the list becomes `Edited` of the old list |
| PotsPage.PotsStore.HandleDelete | app/pots/page.tsx:52-54 | the list becomes `Deleted` of the old list |
| PotsPage.PotsStore.ConfirmDelete | app/pots/page.tsx:138-144 | with an active pot, its name is deleted and it is cleared; otherwise nothing changes |
| PotsPage.PotsStore.HandleConfirmAddMoney | app/pots/page.tsx:56-65 | with no active pot nothing changes; otherwise the list becomes `Deposited` under the active name |
| PotsPage.PotsStore.HandleConfirmWithdraw | app/pots/page.tsx:67-76 | with no active pot nothing changes; otherwise the list becomes `Withdrawn` under the active name |
| PotsPage.TotalSaved | app/pots/page.tsx:35-38 | `totalSaved`; specified by PotsPage.AddSpec, PotsPage.DepositedTotal and PotsPage.WithdrawnTotal |
| PotsPage.Edited | app/pots/page.tsx:44-50 | the list after `handleEdit`; specified by PotsPage.EditedSpec |
| PotsPage.Deleted | app/pots/page.tsx:52-54 | the list after `handleDelete`; specified by PotsPage.DeletedSpec |
| PotsPage.Deposited | app/pots/page.tsx:56-65 | the list after `handleConfirmAddMoney`; specified by PotsPage.DepositedTotal and PotsPage.DepositKeeps |
| PotsPage.Withdrawn | app/pots/page.tsx:67-76 | the list after `handleConfirmWithdraw`; specified by PotsPage.WithdrawnSpec and PotsPage.WithdrawnTotal |
| Donut.Stops | app/budgets/page.tsx:107-114 | the `acc` loop gives one arc per budget, first starting at 0, each starting where the last ended, as wide as its share, coloured by its theme or the fallback, ending at the running sum of shares |
| Donut.StopsExtend | app/budgets/page.tsx:108-112 | one more turn of the loop appends the next arc, from `acc` to `acc` plus its share, and keeps every property of the stops, `acc` staying the running sum |
| Donut.ShareSum | app/budgets/page.tsx:109 | the shares add up to the sum of the maxima over totalMax, times 100 |
| Donut.LastEnd | components/BudgetsCard.tsx:44-52 | the last arc ends at Σmax / totalMax · 100 |
| BudgetsPage.FromForm | app/budgets/page.tsx:140-146 | an accepted form gives the budget with its category, maximum (>= 1) and theme |
| BudgetsPage.EditFormFor | app/budgets/page.tsx:177-185 | the edit form is refilled from the active budget, a missing theme as '' |
| BudgetsPage.EditFormRoundTrip | app/budgets/page.tsx:177-200 | submitting the refilled form untouched gives back the budget, when it passes the schema |
| BudgetsPage.EditFormNeedsTheme | app/budgets/page.tsx:59-63 | a budget without a theme cannot be saved untouched (app/budgets/page.tsx:182) |
| BudgetsPage.SpentNonNegative | app/budgets/page.tsx:94-101 | spending in a category is >= 0 |
| BudgetsPage.SpentAppend | app/budgets/page.tsx:96-98 | a transaction changes a category's spending only if it is negative and in that category, and then by its magnitude; positive amounts are ignored |
| BudgetsPage.BudgetsWithSpentSpec | app/budgets/page.tsx:94-101 | each budget keeps its place and gets its category's spending; totalSpent >= 0 (app/budgets/page.tsx:119-122) |
| BudgetsPage.TotalMax | app/budgets/page.tsx:103-106 | totalMax >= 1 and >= Σmax, equal to Σmax when that is at least 1 |
| BudgetsPage.DonutStops | app/budgets/page.tsx:107-114 | contiguous stops from 0, '#ddd' for no theme, the last ending at Σmax/totalMax·100, which is 100 when Σmax >= 1 |
| BudgetsPage.CardFigures | app/budgets/page.tsx:289-292 | remaining >= 0, 0 iff the maximum is spent, at most the maximum; pct 0 for a zero maximum, else within 0.5 of spent/max·100; the bar min(100, pct) is <= 100 (app/budgets/page.tsx:355) |
| BudgetsPage.LatestForSpec | app/budgets/page.tsx:213-222 | at most 3 transactions, min(3, available), all of the category, newest first, and none left out is newer than one shown |
| BudgetsPage.UpsertSpec | app/budgets/page.tsx:140-159 | an existing category is replaced in place (length kept), a new one appended; the new budget is present, other categories untouched, unique categories stay unique |
| BudgetsPage.EditedSpec | app/budgets/page.tsx:187-200 | edit replaces exactly the budgets of the active category; with no active budget nothing changes |
| BudgetsPage.EditKeepsUnique | app/budgets/page.tsx:187-200 | an edit that keeps its category or takes an unused one keeps categories unique |
| BudgetsPage.DeleteConfirmedSpec | app/budgets/page.tsx:203-210 | no active budget: unchanged; otherwise exactly the other categories remain, in order |
| BudgetsPage.BudgetsStore.constructor | app/budgets/page.tsx:78-91 | the store starts from the initial budgets with nothing active or selected and no dialog open |
| BudgetsPage.BudgetsStore.OnAdd | app/budgets/page.tsx:140-159 | the list becomes `Upsert` of the old list and the form's budget |
| BudgetsPage.BudgetsStore.OpenEditMenu | app/budgets/page.tsx:328-331 | the Edit entry sets the active budget and opens the edit dialog |
| BudgetsPage.BudgetsStore.CloseEdit | app/budgets/page.tsx:558-560 | closing the edit dialog clears the active budget |
| BudgetsPage.BudgetsStore.OnEdit | app/budgets/page.tsx:187-200 | the list becomes `EditedBudgets` under the old active budget; dialog closed, active cleared |
| BudgetsPage.BudgetsStore.OpenDeleteMenu | app/budgets/page.tsx:337-340 | the Delete entry sets `selectedBudget` (not the active budget) and opens the delete dialog |
| BudgetsPage.BudgetsStore.CloseDelete | app/budgets/page.tsx:680-683 | closing the delete dialog (or "No, Go Back", app/budgets/page.tsx:703-704) clears the active budget |
| BudgetsPage.BudgetsStore.OnDeleteConfirm | app/budgets/page.tsx:203-210 | as written: with no active budget nothing changes, so with the edit dialog closed a confirmed delete is a no-op |
| BudgetsPage.DeleteFromMenuAsWritten | app/budgets/page.tsx:203-210 | on any page, picking a budget from its Delete menu (app/budgets/page.tsx:337-340) and confirming leaves the list exactly as it was, so the picked budget survives |
| BudgetsPage.DeleteFromMenuSelected | app/budgets/page.tsx:688 | the same steps with the corrected delete remove the picked budget and exactly its category, and shorten the list |
| BudgetsPage.BudgetsStore.OnDeleteConfirmSelected | app/budgets/page.tsx:688 | the corrected delete removes the category of the budget the dialog names |
| BudgetsPage.DeleteSelectedRemoves | app/budgets/page.tsx:688 | after the corrected delete the selected budget and its whole category are gone and the list is shorter |
| BudgetsPage.BudgetSchema | app/budgets/page.tsx:59-63 | `budgetSchema`; the precondition of BudgetsPage.FromForm, and the subject of BudgetsPage.EditFormRoundTrip and BudgetsPage.EditFormNeedsTheme |
| BudgetsPage.Spent | app/budgets/page.tsx:96-98 | a category's spending; specified by BudgetsPage.SpentNonNegative and BudgetsPage.SpentAppend |
| BudgetsPage.BudgetsWithSpent | app/budgets/page.tsx:94-101 | `budgetsWithSpent`; specified by BudgetsPage.BudgetsWithSpentSpec |
| BudgetsPage.TotalSpent | app/budgets/page.tsx:119-122 | `totalSpent`; BudgetsPage.BudgetsWithSpentSpec proves it >= 0 |
| BudgetsPage.Pct | app/budgets/page.tsx:289-291 | a card's `pct`; specified by BudgetsPage.CardFigures |
| BudgetsPage.Remaining | app/budgets/page.tsx:292 | a card's `remaining`; specified by BudgetsPage.CardFigures |
| BudgetsPage.BarWidth | app/budgets/page.tsx:355 | the bar width `Math.min(100, pct)`; specified by BudgetsPage.CardFigures |
| BudgetsPage.LatestFor | app/budgets/page.tsx:213-222 | `latestTransactionsFor`; specified by BudgetsPage.LatestForSpec |
| BudgetsPage.Upsert | app/budgets/page.tsx:140-159 | the list after `onAdd`; specified by BudgetsPage.UpsertSpec |
| BudgetsPage.EditedBudgets | app/budgets/page.tsx:187-200 | the list after `onEdit`; specified by BudgetsPage.EditedSpec and BudgetsPage.EditKeepsUnique |
| BudgetsPage.DeleteConfirmed | app/budgets/page.tsx:203-210 | the list after `onDeleteConfirm`; specified by BudgetsPage.DeleteConfirmedSpec |
| BudgetsPage.BudgetsStore.Valid | app/budgets/page.tsx:328-331 | only the Edit entry sets `activeBudget`, and it opens the edit dialog as it does; every store method keeps this |
| BudgetsCard.TotalMax | components/BudgetsCard.tsx:37-38 | Σmax unless it is 0, then 1; never 0 |
| BudgetsCard.GradientStops | components/BudgetsCard.tsx:44-52 | contiguous stops from 0, '#7dd3fc' for no theme, the last ending at 100 when Σmax != 0 |
| BudgetsCard.AgreesWithPage | components/BudgetsCard.tsx:37-38 | with every maximum >= 1 the card's total equals the page's max(1, Σ) |
| BudgetsCard.DiffersBelowOne | components/BudgetsCard.tsx:37-38 | `\|\| 1` and `max(1, …)` differ: one budget of 0.5 gives 0.5 on the card and 1 on the page |
| TransactionsPage.FilterTransactions | app/transactions/page.tsx:51-94 | the copy reassigned through the filters and sorted in place is `Filtered` |
| TransactionsPage.FilteredSpec | app/transactions/page.tsx:51-94 | exactly the transactions passing the (blank-skipped, case-insensitive, untrimmed) search and the category ('all' keeps all), each as often as in the data, sorted and stable by the chosen key |
| TransactionsPage.KeptIsFiltered | app/transactions/page.tsx:54-61 | the two filter steps keep exactly the transactions both conditions accept, in order |
| TransactionsPage.SearchIgnoresCase | app/transactions/page.tsx:55-56 | two queries with the same lower-case form show the same table |
| TransactionsPage.TotalPages | app/transactions/page.tsx:96 | totalPages = ⌈n/10⌉: enough pages for n, no empty last page, 0 only for n = 0 |
| TransactionsPage.PaginatedSpec | app/transactions/page.tsx:97-100 | a page holds at most 10 items, those at its positions; pages past the last are empty; pages before the last are full |
| TransactionsPage.EveryItemOnItsPage | app/transactions/page.tsx:97-100 | item i is on page i/10 + 1, which exists |
| TransactionsPage.PagesConcatenate | app/transactions/page.tsx:96-100 | pages 1..totalPages put together are the whole filtered list |
| TransactionsPage.PagesUpToPrefix | app/transactions/page.tsx:97-100 | the first k pages are the first 10k items |
| TransactionsPage.NonEmptyPage | app/transactions/page.tsx:97-100 | with the cursor in range the page shows something exactly when some transaction matches |
| TransactionsPage.Cursor.constructor | app/transactions/page.tsx:45-48 | empty search, latest first, all categories, page 1 |
| TransactionsPage.Cursor.SetSearch | app/transactions/page.tsx:109-112 | the search changes and the page goes back to 1 |
| TransactionsPage.Cursor.SetSort | app/transactions/page.tsx:117-120 | the sort changes and the page goes back to 1 |
| TransactionsPage.Cursor.SetCategory | app/transactions/page.tsx:136-139 | the category changes and the page goes back to 1 |
| TransactionsPage.Cursor.Previous | app/transactions/page.tsx:208 | moves back only when page > 1; the page stays in [1, max(1, totalPages)] |
| TransactionsPage.Cursor.Next | app/transactions/page.tsx:225 | moves on only when page < totalPages; the page stays in range |
| TransactionsPage.Cursor.GoTo | app/transactions/page.tsx:216 | a page button sets the page to its number, which is in range |
| TransactionsPage.Searched | app/transactions/page.tsx:54-57 | the search step; specified by TransactionsPage.KeptIsFiltered and TransactionsPage.FilteredSpec |
| TransactionsPage.InCategoryStep | app/transactions/page.tsx:59-61 | the category step; specified by TransactionsPage.KeptIsFiltered and TransactionsPage.FilteredSpec |
| TransactionsPage.Filtered | app/transactions/page.tsx:51-94 | `filteredTransactions`; specified by TransactionsPage.FilteredSpec, and computed in place by TransactionsPage.FilterTransactions |
| TransactionsPage.Paginated | app/transactions/page.tsx:97-100 | `paginated`; specified by TransactionsPage.PaginatedSpec, TransactionsPage.EveryItemOnItsPage and TransactionsPage.PagesConcatenate |
| TransactionsPage.Cursor.Current | app/transactions/page.tsx:51-94 | `filteredTransactions` for the cursor's search, sort and category |
| TransactionsPage.Cursor.Visible | app/transactions/page.tsx:97-100 | the page the table shows; TransactionsPage.NonEmptyPage says when it is non-empty |

## Left out

- JSX, styling, dialogs as widgets, avatars and the pagination widgets. They
  are UI. Only the state the handlers set is modelled.
- react-hook-form and zod. Only the schema bounds are kept, as predicates, and
  a handler runs only on values its schema accepts.
- JavaScript numbers. Money is an exact `real`, so the model has no floating
  point rounding, `Infinity` or `toFixed` formatting. `Math.round` is modelled
  exactly as `floor(x + 0.5)`. NaN appears only as `NotANumber` in the number
  fields of the modals.
- Date parsing and formatting (`new Date(...)`, `toLocaleDateString`). A date
  is its day of the month and its timestamp, taken as independent inputs.
- The clock (`new Date()` in the bills summary). Today's day is a parameter.
- Locale collation. `localeCompare` is modelled as code-point lexicographic
  order, and `toLowerCase` lowers only A-Z.
- The strings of the conic gradients. The model stops at the stop values:
  colour, start and end.
- Optional transaction fields on the budgets page ("a missing date counts as
  0"). The model uses the record shapes of `types.ts`, where date and
  category are required.
- The sort in the transactions page with a value outside the six options. It
  is unreachable: the select offers only those six.
- `cn`, the data.json loader, and the components that only forward callbacks
  or render.
- AddMoneyModal.PreviewOf: the preview is stated for a number amount only.
  A NaN amount would make the preview NaN in the source.
- Donut.Stops: requires a non-zero total. Both callers guarantee one: the page
  uses `max(1, …)` and the card uses `|| 1`.
- ArraySort.SortInPlace: it is one fixed insertion sort. The engine's own sort
  algorithm is not modelled. Only its result is, which stability makes unique.

## Findings

| source | as written | input that shows it | evidently intended | confidence | as-written member | corrected member |
|---|---|---|---|---|---|---|
| app/budgets/page.tsx:203-210 | `onDeleteConfirm` removes the category of `activeBudget`. The Delete menu entry (app/budgets/page.tsx:337-340) sets only `selectedBudget`, and only the Edit entry sets `activeBudget`. | One budget "Bills". Choose Delete from its menu, with the edit dialog closed, then confirm. `activeBudget` is null, so the list is unchanged. | Delete the budget the dialog names, `selectedBudget` (app/budgets/page.tsx:688) | not executed | BudgetsPage.BudgetsStore.OnDeleteConfirm | BudgetsPage.BudgetsStore.OnDeleteConfirmSelected |
