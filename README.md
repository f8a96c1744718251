# Walo pod ledger, modelled in Dafny

Walo is a personal-budgeting Android app. A user keeps money in spending *pods*. Each
pod has a `balance` and a `startingBalance`; the starting balance is the baseline for the
"percent remaining" bar. The user records income or expenses against a pod. Every event
runs as one store transaction:

- read the pod's two numbers, an absent field reading as 0;
- add the amount for income, subtract it for an expense;
- refuse if the balance would go negative;
- otherwise raise `startingBalance` by the amount for income only;
- commit the pod update together with a new ledger entry (`Transaction`), which copies
  the pod's id and name.

The AddTransaction screen and the Dashboard each carry their own copy of this update. The
first writes both numbers in one `update`. The second queues `startingBalance` (income
only) and then `balance` as separate updates.

The model is split into these modules:

- `Data` (data.dfy): the `Pod` and `Transaction` records. Store documents are `PodDoc`,
  whose two numbers may be absent. Amounts are whole cents (`int`).
- `Ledger` (ledger.dfy): the transaction body's decision (`Decide`), the queued field
  writes of the two variants, and lemmas about their effect and their agreement.
- `Budget` (budget.dfy): the total-budget sum the screens display, and the per-pod
  ledger sums that the pod numbers are reconciled with.
- `PodStore` (store.dfy): class `LedgerStore`, which holds a map from pod id to
  document and the ledger sequence. Methods cover pod creation, pod deletion and the two
  record variants. Each method is all-or-nothing. Each keeps every balance non-negative,
  every ledger amount positive and every pod reconciled with its ledger entries.
- `PodProgress` (progress.dfy): the progress percentage and colour buckets of the pod
  list and of the reports chart, plus the pod list's diff callbacks.
- `Reports` (reports.dfy): sorting pods by name and building the bar chart's parallel
  lists. Names are compared as Kotlin compares strings, by UTF-16 code units, so a
  character above U+FFFF sorts before one in U+E000..U+FFFF.
- `Text` (text.dfy): Kotlin's `trim()`, as the dialogs use it.
- `Screens` (screens.dfy): the dialogs' guards. They check for a positive amount, a
  cached balance that covers an expense, and a non-blank pod name, and then hand the
  request to the store.

Notes on what the code does:

- An absent pod document reads as 0, like an absent field. An expense against a deleted
  pod is therefore refused as insufficient funds before any write is attempted. Only
  income reaches the write, and there the commit fails because the document does not
  exist (`PodNotFound`).
- The ledger entry's `category` and `podName` come from the `Pod` object the screen
  passes in, not from the document read inside the transaction.
- The two update variants leave the same readable pod state. They store different
  documents in exactly one case: an expense against a document without a
  `startingBalance` field. The combined update writes 0 there; the queued one leaves the
  field absent (`Ledger.VariantsAgree`).

## Model

| member | source | states |
|---|---|---|
| `Data.ReadOrZero` | app/src/main/java/com/dianadimla/walo/ui/fragments/AddTransactionFragment.kt:314-315 | an absent numeric field reads as 0; a present one reads as its value |
| `Ledger.Decide` | app/src/main/java/com/dianadimla/walo/ui/fragments/AddTransactionFragment.kt:313-335 | commits exactly when the pod exists and its balance plus the signed amount is not negative; refuses for insufficient funds exactly when that sum (with an absent pod read as 0) is negative |
| `Ledger.CombinedUpdateEffect` | app/src/main/java/com/dianadimla/walo/ui/fragments/AddTransactionFragment.kt:317-334 | income adds the amount to both balance and startingBalance; an expense subtracts it from balance and keeps startingBalance; both fields are written and nothing else in the document changes |
| `Ledger.QueuedUpdateEffect` | app/src/main/java/com/dianadimla/walo/ui/fragments/DashboardFragment.kt:222-237 | the same effect on the two numbers for the Dashboard's queued writes; for an expense, startingBalance is never written |
| `Ledger.VariantsAgree` | app/src/main/java/com/dianadimla/walo/ui/fragments/DashboardFragment.kt:222-238 | both variants give the same pod as read back; the stored documents are equal except for an expense against a document with no startingBalance field |
| `Ledger.CombinedWrites` | app/src/main/java/com/dianadimla/walo/ui/fragments/AddTransactionFragment.kt:317-334 | the AddTransaction screen's single update of both numbers; its effect is stated by `Ledger.CombinedUpdateEffect` |
| `Ledger.QueuedWrites` | app/src/main/java/com/dianadimla/walo/ui/fragments/DashboardFragment.kt:222-237 | the Dashboard's queued updates, startingBalance for income only and then balance; their effect is stated by `Ledger.QueuedUpdateEffect` |
| `Budget.PodsOf` | app/src/main/java/com/dianadimla/walo/ui/fragments/AddTransactionFragment.kt:115-117 | one pod per snapshot document, in order, keyed by the document id, with absent numbers read as 0 |
| `Data.ToPod` | app/src/main/java/com/dianadimla/walo/ui/fragments/AddTransactionFragment.kt:116 | the pod a document maps to, keyed by the document id with absent numbers read as 0; stated through `Budget.PodsOf` |
| `Budget.SumBalances` | app/src/main/java/com/dianadimla/walo/ui/fragments/AddTransactionFragment.kt:124 | the AddTransaction screen's total over the mapped pods; equal to the store total by `Budget.TotalsAgree` and `Budget.SnapshotTotal` |
| `Budget.SumDocBalances` | app/src/main/java/com/dianadimla/walo/ui/fragments/DashboardFragment.kt:105-107 | the Dashboard's total over raw documents; equal to the other screen's by `Budget.TotalsAgree` |
| `Budget.TotalsAgree` | app/src/main/java/com/dianadimla/walo/ui/fragments/DashboardFragment.kt:105-107 | the Dashboard's sum over raw documents (absent balance as 0) equals the AddTransaction screen's sum over the mapped pods |
| `Budget.SnapshotTotal` | app/src/main/java/com/dianadimla/walo/ui/fragments/AddTransactionFragment.kt:124 | the displayed total of any snapshot listing each pod once is the store's sum of pod balances |
| `Budget.TotalUpdate` | app/src/main/java/com/dianadimla/walo/ui/fragments/AddTransactionFragment.kt:318-319 | replacing one pod document moves the store total by exactly the change in that pod's balance |
| `Budget.TotalDelete` | app/src/main/java/com/dianadimla/walo/ui/fragments/AddTransactionFragment.kt:211-217 | deleting a pod takes exactly its balance out of the total |
| `Budget.DisplayedTotalAfterRecord` | app/src/main/java/com/dianadimla/walo/ui/fragments/AddTransactionFragment.kt:124 | after a committed event the displayed total is the previous one plus the amount for income, minus it for an expense |
| `Budget.LedgerAppend` | app/src/main/java/com/dianadimla/walo/ui/fragments/AddTransactionFragment.kt:335 | a new ledger entry moves the ledger sums of its own pod only, by its signed amount (and its amount, for income) |
| `Budget.UnreferencedSumsAreZero` | app/src/main/java/com/dianadimla/walo/ui/fragments/AddTransactionFragment.kt:165-170 | a pod id that no ledger entry refers to has zero ledger sums |
| `Budget.LedgerBalanceAtMostIncome` | app/src/main/java/com/dianadimla/walo/ui/fragments/AddTransactionFragment.kt:318-334 | when every entry's amount is positive, a pod's signed ledger sum never exceeds its income sum |
| `Budget.RecordKeepsReconciled` | app/src/main/java/com/dianadimla/walo/ui/fragments/AddTransactionFragment.kt:318-335 | recording an entry while moving its pod's numbers by the entry's amounts keeps every pod equal to the sums of its ledger entries |
| `Budget.CreateKeepsReconciled` | app/src/main/java/com/dianadimla/walo/ui/fragments/AddTransactionFragment.kt:170 | a new pod with zero numbers and a fresh id keeps the store reconciled |
| `PodStore.LedgerStore.CreatePod` | app/src/main/java/com/dianadimla/walo/ui/fragments/AddTransactionFragment.kt:165-176 | adds exactly one document, with both numbers 0; the ledger and the total are unchanged; non-negativity and reconciliation are kept |
| `PodStore.LedgerStore.DeletePod` | app/src/main/java/com/dianadimla/walo/ui/fragments/AddTransactionFragment.kt:211-217 | removes only that pod's document; ledger entries stay; the total drops by its balance |
| `PodStore.LedgerStore.RecordCombined` | app/src/main/java/com/dianadimla/walo/ui/fragments/AddTransactionFragment.kt:294-343 | when the transaction refuses, nothing is written and the error is returned, and when it commits, only the pod document changes by the combined update and one entry carrying the amount, note, timestamp and the cached pod id and name is appended, with balances kept non-negative, starting balances never lowered, the total moved by the signed amount and reconciliation kept |
| `PodStore.LedgerStore.RecordQueued` | app/src/main/java/com/dianadimla/walo/ui/fragments/DashboardFragment.kt:212-246 | the same guarantees for the Dashboard's queued writes |
| `PodStore.LedgerStore.Apply` | app/src/main/java/com/dianadimla/walo/ui/fragments/AddTransactionFragment.kt:334-335 | the pod write and the ledger entry are committed together and keep the store's invariants |
| `PodStore.LedgerStore.StoredPodInRange` | app/src/main/java/com/dianadimla/walo/adapters/PodAdapter.kt:44-47 | in a valid, reconciled store every pod's balance lies between 0 and its starting balance, so its progress bar shows a value from 0 to 100 |
| `PodProgress.TruncDiv` | app/src/main/java/com/dianadimla/walo/adapters/PodAdapter.kt:46 | the quotient truncated toward zero: bounded by the exact quotient from below for non-negative and from above for negative dividends |
| `PodProgress.Saturate` | app/src/main/java/com/dianadimla/walo/adapters/PodAdapter.kt:46 | the conversion to Int stays in the 32-bit range, keeps in-range values and clamps the rest to the nearer end |
| `PodProgress.ColourFor` | app/src/main/java/com/dianadimla/walo/ui/fragments/ReportsFragment.kt:126-131 | green exactly above 50, yellow exactly in 26..50, red exactly at 25 or below, so the three buckets partition the integers |
| `PodProgress.Progress` | app/src/main/java/com/dianadimla/walo/adapters/PodAdapter.kt:46 | the truncated, clamped percentage; its range is stated by `PodProgress.ProgressBounds` and its colour buckets by `PodProgress.ColourThresholds` |
| `PodProgress.ColourMonotonic` | app/src/main/java/com/dianadimla/walo/adapters/PodAdapter.kt:51-55 | more progress never gives a worse colour |
| `PodProgress.ProgressBounds` | app/src/main/java/com/dianadimla/walo/adapters/PodAdapter.kt:46-47 | with 0 <= balance <= startingBalance the progress lies in 0..100, is 100 for an untouched pod and 0 for an empty one |
| `PodProgress.ColourThresholds` | app/src/main/java/com/dianadimla/walo/adapters/PodAdapter.kt:46-55 | green exactly when 100·balance >= 51·startingBalance, red exactly when 100·balance < 26·startingBalance, for any balance and through the 32-bit clamp |
| `PodProgress.PodProgressBar` | app/src/main/java/com/dianadimla/walo/adapters/PodAdapter.kt:44-62 | the bar is visible exactly when startingBalance > 0, then with the truncated percentage and its colour |
| `PodProgress.ReportProgress` | app/src/main/java/com/dianadimla/walo/ui/fragments/ReportsFragment.kt:84-88 | progress is 0 when startingBalance <= 0, otherwise the same truncated percentage as the pod list |
| `PodProgress.ChartColourMatchesList` | app/src/main/java/com/dianadimla/walo/ui/fragments/ReportsFragment.kt:84-89 | a chart bar has its pod's list colour; a pod whose list bar is hidden is red in the chart |
| `PodProgress.DiffCallbackConsistent` | app/src/main/java/com/dianadimla/walo/adapters/PodAdapter.kt:67-76 | same contents implies same item; sameness of items is reflexive and symmetric; a balance change is a content change of the same item |
| `PodProgress.AreItemsTheSame` | app/src/main/java/com/dianadimla/walo/adapters/PodAdapter.kt:69-71 | same item when the ids match; properties stated by `PodProgress.DiffCallbackConsistent` |
| `PodProgress.AreContentsTheSame` | app/src/main/java/com/dianadimla/walo/adapters/PodAdapter.kt:74-76 | same contents when the records are equal; properties stated by `PodProgress.DiffCallbackConsistent` |
| `Reports.Units` | app/src/main/java/com/dianadimla/walo/ui/fragments/ReportsFragment.kt:77 | a character below 0x10000 is one UTF-16 code unit, any other a high surrogate followed by a low surrogate from which the character is recovered as 0x10000 + (high - 0xD800) * 0x400 + (low - 0xDC00) |
| `Reports.Utf16` | app/src/main/java/com/dianadimla/walo/ui/fragments/ReportsFragment.kt:77 | the UTF-16 code units Kotlin stores for a string; the name order is proved to compare exactly these units by `Reports.NameLeIsUtf16Order` |
| `Reports.UnitsLe` | app/src/main/java/com/dianadimla/walo/ui/fragments/ReportsFragment.kt:77 | `String.compareTo(other) <= 0` on UTF-16 code units, a proper prefix first; `Reports.NameLe` is proved equal to it by `Reports.NameLeIsUtf16Order` |
| `Reports.Utf16Key` | app/src/main/java/com/dianadimla/walo/ui/fragments/ReportsFragment.kt:77 | a rank per character that orders characters as their UTF-16 units do; its agreement with the units is stated by `Reports.UnitsOrderMatchesKey` |
| `Reports.NameLe` | app/src/main/java/com/dianadimla/walo/ui/fragments/ReportsFragment.kt:77 | the name order used for sorting, character by character through `Reports.Utf16Key`; equal to the code-unit order by `Reports.NameLeIsUtf16Order` |
| `Reports.UnitsOrderMatchesKey` | app/src/main/java/com/dianadimla/walo/ui/fragments/ReportsFragment.kt:77 | for two different characters, comparing their code units, whatever follows them, agrees with comparing their ranks |
| `Reports.NameLeIsUtf16Order` | app/src/main/java/com/dianadimla/walo/ui/fragments/ReportsFragment.kt:77 | for any two names, the name order holds exactly when the UTF-16 code units of the first are at most those of the second |
| `Reports.NameLeTotal` | app/src/main/java/com/dianadimla/walo/ui/fragments/ReportsFragment.kt:77 | any two names are comparable under string order |
| `Reports.NameLeTransitive` | app/src/main/java/com/dianadimla/walo/ui/fragments/ReportsFragment.kt:77 | string order is transitive |
| `Reports.SurrogatesSortBeforeHighBmp` | app/src/main/java/com/dianadimla/walo/ui/fragments/ReportsFragment.kt:77 | a name made of U+1F600 sorts before one made of U+FF04, although its code point is larger, because its high surrogate 0xD83D is below 0xFF04 |
| `Reports.InsertByName` | app/src/main/java/com/dianadimla/walo/ui/fragments/ReportsFragment.kt:77 | inserting adds exactly that pod (multiset) and one to the length |
| `Reports.InsertKeepsLowerBound` | app/src/main/java/com/dianadimla/walo/ui/fragments/ReportsFragment.kt:77 | inserting a pod not below a bound keeps every name at or above the bound |
| `Reports.InsertKeepsSorted` | app/src/main/java/com/dianadimla/walo/ui/fragments/ReportsFragment.kt:77 | inserting into a name-ordered list keeps it ordered |
| `Reports.SortByName` | app/src/main/java/com/dianadimla/walo/ui/fragments/ReportsFragment.kt:77 | the result is ordered by name ascending, in UTF-16 code-unit order, and is a permutation of the input |
| `Reports.SetupBarChart` | app/src/main/java/com/dianadimla/walo/ui/fragments/ReportsFragment.kt:71-91 | the three lists satisfy `Reports.ChartOf`: one entry, label and colour per pod, entry i at x = i with the i-th sorted pod's balance, label i its name and colour i its progress colour |
| `Reports.OnPodUpdates` | app/src/main/java/com/dianadimla/walo/ui/fragments/ReportsFragment.kt:53-67 | an absent or empty snapshot clears the chart, and any other snapshot gives the chart that `Reports.ChartOf` describes for its pods: entry i at x = i with the balance of the i-th pod in name order, label i its name and colour i its progress colour |
| `Text.TrimStart` | app/src/main/java/com/dianadimla/walo/ui/fragments/AddTransactionFragment.kt:153 | the result is a suffix not starting with whitespace, and only whitespace was dropped |
| `Text.TrimEnd` | app/src/main/java/com/dianadimla/walo/ui/fragments/AddTransactionFragment.kt:153 | the result is a prefix not ending with whitespace, and only whitespace was dropped |
| `Text.Trim` | app/src/main/java/com/dianadimla/walo/ui/fragments/AddTransactionFragment.kt:153 | `trim()`, both ends; stated by `Text.TrimIsSlice` and `Text.TrimEmptyIffBlank` |
| `Text.TrimIsSlice` | app/src/main/java/com/dianadimla/walo/ui/fragments/AddTransactionFragment.kt:275 | the trimmed text is a slice of the input with only whitespace around it and none at its ends |
| `Text.TrimEmptyIffBlank` | app/src/main/java/com/dianadimla/walo/ui/fragments/AddTransactionFragment.kt:154 | a text trims to nothing exactly when it is all whitespace |
| `Screens.DialogsSubmitOnlyValidRequests` | app/src/main/java/com/dianadimla/walo/ui/fragments/AddTransactionFragment.kt:239-290 | income is submitted exactly for a positive amount with pods present, noted "Income"; an expense exactly when, in addition, the cached balance covers it, with the trimmed description as its note and no note exactly when the description is blank |
| `Screens.IncomeRequest` | app/src/main/java/com/dianadimla/walo/ui/fragments/AddTransactionFragment.kt:220-250 | the income dialog's decision; stated by `Screens.DialogsSubmitOnlyValidRequests` |
| `Screens.ExpenseNote` | app/src/main/java/com/dianadimla/walo/ui/fragments/AddTransactionFragment.kt:275-281 | the trimmed description, or no note when it is empty; `Screens.DialogsSubmitOnlyValidRequests` states that a submitted expense's note is `Trim(description)` and is absent exactly for a blank description |
| `Screens.ExpenseRequest` | app/src/main/java/com/dianadimla/walo/ui/fragments/AddTransactionFragment.kt:253-287 | the expense dialog's decision, including the cached funds check and the trimmed note; stated by `Screens.DialogsSubmitOnlyValidRequests` |
| `Screens.FreshCacheExpenseCommits` | app/src/main/java/com/dianadimla/walo/ui/fragments/DashboardFragment.kt:195-228 | when the cached balance is current, an expense the dialog lets through also passes the check inside the transaction |
| `Screens.StaleCacheCaughtInTransaction` | app/src/main/java/com/dianadimla/walo/ui/fragments/AddTransactionFragment.kt:280-324 | two expenses of 60 against a pod holding 100 both pass the cached check, but the second is refused in the transaction |
| `Screens.Save` | app/src/main/java/com/dianadimla/walo/ui/fragments/DashboardFragment.kt:159-164 | only submitted requests reach the store; the outcome follows the transaction's decision; on commit the pod document gets the Dashboard's queued writes when `dashboard` is set and the combined update otherwise, one entry is appended, reconciliation is kept and the total moves by the signed amount |
| `Screens.OnCreatePod` | app/src/main/java/com/dianadimla/walo/ui/fragments/AddTransactionFragment.kt:152-158 | a pod is created exactly when the name has a non-whitespace character, under the trimmed name, with zero numbers |
| `Screens.PodNameFromInput` | app/src/main/java/com/dianadimla/walo/ui/fragments/AddTransactionFragment.kt:153-154 | the trimmed name, or nothing when it is empty; stated through `Screens.OnCreatePod` |
| `Screens.OnDeletePod` | app/src/main/java/com/dianadimla/walo/ui/fragments/AddTransactionFragment.kt:179-205 | with no pods nothing happens; otherwise exactly the selected pod's document is removed and the ledger is kept |

## Left out

- Firestore itself: transaction retries, snapshot listeners, `orderBy`/`limit` queries and document references. Each store method is one serialised transaction on an in-memory value.
- Concurrency between racing transactions. The store's serialisation is a guarantee of the database, not code in this app. `Screens.StaleCacheCaughtInTransaction` shows the sequential consequence.
- Transport failures of the commit. The failure callback only shows a message.
- Generated document ids and `Date()`. They are parameters; a new pod id is required to be unused by pods and ledger entries.
- `Double` arithmetic and rounding. Amounts are `int` cents, and `toFloat()` on the bar height is the identity.
- Input parsing (`toDoubleOrNull`). Amounts arrive already parsed, as `Option<int>`.
- The signed-in user check (`currentUser?.uid ?: return`). The model is one user's data.
- Toasts, dialogs, animations, chart styling and currency formatting.
- The transaction-history listener. It orders by timestamp, and timestamps are opaque here.
- The greeting text, login, signup, profile, navigation, the emoji picker and the legacy `project_walo` package.
- The fragments' `podList` is cleared and refilled on each snapshot. This is modelled as replacing the list with `Budget.PodsOf` of the snapshot; the adapter's `submitList` is not modelled.
- Kotlin's `isWhitespace` is part of its standard library, not of this app. `Text.IsWhitespace` lists its characters.
- The spinner position is required to be in range while the cached list is non-empty. The dialogs read the emptiness check and the selected pod from one snapshot of `podList`. The app checks emptiness when the dialog opens and indexes the listener-refilled list only on Save, so a list that empties while a dialog is open crashes there instead of giving `NoPods`.
- The transactions collection is an append-only sequence. Generated transaction ids are assumed never to collide; `set` on an existing id would overwrite that entry instead of adding one.
- Reports.SortByName: does not state that pods with equal names keep their input order, although `sortedBy` is stable. Sortedness plus permutation already fix the label order.
