# GestionJM — a verified model of the monthly balance engine

GestionJM is a shared-expense tracker for two separated parents, Mariano and
Gabriela, and their son Juan Martín. Each expense records who paid it, who it
is charged to (`imputeTo`: both parents half each, or one of them) and whether
Juan Martín asked to be paid back. Transfers between the parents, or from a
parent to Juan Martín, settle what is owed. For each month the application
works out:

- what each parent paid and owes, and their net balance;
- which parent owes the other, and how much;
- what each parent still owes Juan Martín;
- the month's total spending.

This project models that core in Dafny and proves what it guarantees. The
modules are:

- `Common` (common.dfy): Option, `Math.max` and `Math.abs`, and the `Array`
  operations used: `filter`, a sum (`reduce`) and `findIndex`, each with its
  laws.
- `Records` (records.dfy): users, expenses and transfers. User ids are the
  three known accounts plus `OtherUser(name)`, which keeps any other
  non-empty id string, so two different unknown ids stay different. The `imputeTo`
  values are a closed datatype with one extra case for any unrecognised
  string, so that the code paths for such values stay representable.
- `Store` (store.dfy): the record store of storageService.js. A class
  `RecordStore` holds the users, expenses and transfers as sequences. Its
  methods append, patch and delete records and change a PIN in place. The
  month queries and deletion filters are functions.
- `Balances` (balances.dfy): calculateMonthlyBalances, given twice. It is a
  method whose loops update the accumulators as the source does, with one
  callback method per `forEach` body. It is also a set of functions
  (`ExpenseFold`, `TransferFold`, `Summarize`) that the method is proved to
  compute exactly.
- `BalanceLaws` (balance_laws.dfy): the engine's properties, proved against
  independent closed forms. These are each running total as a sum of
  per-record shares, then conservation, the reimbursement floor, order
  independence, symmetry between the parents, month isolation, settlement of
  the reported debt, and worked examples.
- `CategoryTotals` (category_totals.dfy): getExpensesByCategory, a method
  building the map in a loop, proved to be a partition of the month whose
  totals and counts add up.
- `Permissions` (permissions.dfy): canEditExpense and canDeleteExpense.
- `ExpenseForm` (expense_form.dfy): the form's initial state, the
  auto-selection of 'both', the reimbursement preview (proved to agree with
  the engine), `validate` (with `String.prototype.trim`), and what saving
  writes.
- `Settings` (settings.dfy): the transfer form (allowed pairs, recipients
  offered, recipient reset, checks, saving), the PIN change with its order of
  checks, and the transfer list grouped by month, latest month first.

Amounts are `real`. The tolerance 0.01 is an exact constant. Months are
zero-based, as JavaScript's `getMonth()`.

## Model

Paths are relative to the repository root.

| member | source | states |
|---|---|---|
| Store.VerifyPinIffSamePin | frontend/src/services/storageService.js:14-21 | verifyPin accepts a PIN against the stored hash of another exactly when the two PINs are equal |
| Store.Categories | frontend/src/services/storageService.js:191-198 | the category list has six entries with pairwise distinct ids, 'otros' among them |
| Store.ExpensesByMonth | frontend/src/services/storageService.js:149-155 | an expense is in the result iff it is stored and dated in that year and month; the result keeps stored order (a subsequence) |
| Store.TransfersByMonth | frontend/src/services/storageService.js:182-188 | a transfer is in the result iff it is stored and dated in that year and month; stored order kept |
| Store.FilterCounts | frontend/src/services/storageService.js:149-155 | `filter` keeps every copy of an element that passes the test and no copy of one that fails |
| Store.ExpensesByMonthCounts | frontend/src/services/storageService.js:149-155 | each expense of that month occurs in the result as many times as it is stored; any other expense not at all |
| Store.TransfersByMonthCounts | frontend/src/services/storageService.js:182-188 | each transfer of that month occurs in the result as many times as it is stored; any other transfer not at all |
| Store.ExpensesByMonthIgnoresOtherMonths | frontend/src/services/storageService.js:149-155 | expenses of other months, wherever they stand in the stored list, do not change a month's query: adding, deleting or editing them in place leaves it as it was |
| Store.TransfersByMonthIgnoresOtherMonths | frontend/src/services/storageService.js:182-188 | transfers of other months, wherever they stand in the stored list, do not change a month's query: adding, deleting or editing them in place leaves it as it was |
| Store.ExpensesWithout | frontend/src/services/storageService.js:142-147 | after deleting an id, exactly the expenses with another id remain, in their order |
| Store.TransfersWithout | frontend/src/services/storageService.js:175-180 | after deleting an id, exactly the transfers with another id remain, in their order |
| Store.ExpensesWithoutCounts | frontend/src/services/storageService.js:142-147 | deletion keeps every copy of an expense with another id and removes every copy with the deleted id |
| Store.TransfersWithoutCounts | frontend/src/services/storageService.js:175-180 | deletion keeps every copy of a transfer with another id and removes every copy with the deleted id |
| Store.DeleteExpenseIdempotent | frontend/src/services/storageService.js:142-147 | deleting an expense id twice is deleting it once; deleting an absent id changes nothing |
| Store.DeleteTransferIdempotent | frontend/src/services/storageService.js:175-180 | deleting a transfer id twice is deleting it once; deleting an absent id changes nothing |
| Store.DeleteExpenseKeepsOrder | frontend/src/services/storageService.js:142-147 | deletion distributes over concatenation, so the survivors keep their relative order |
| Store.ExpenseIndex | frontend/src/services/storageService.js:129 | findIndex on expense id: -1 iff no expense has the id, else the first position that has it |
| Store.UserIndex | frontend/src/services/storageService.js:77 | findIndex on user id: -1 iff no user has the id, else the first position that has it |
| Store.PatchExtremes | frontend/src/services/storageService.js:131-135 | spreading a patch that carries every field replaces them all; an empty patch replaces none |
| Store.RecordStore.constructor | frontend/src/services/storageService.js:52-62 | the store starts with the three default users and no expenses or transfers |
| Store.RecordStore.UserById | frontend/src/services/storageService.js:70-73 | a user is found iff some stored user has the id, and it is the first such user |
| Store.RecordStore.AuthenticateUser | frontend/src/services/storageService.js:86-92 | returns the user iff the id exists and the PIN verifies against that user's stored hash, else none |
| Store.RecordStore.UpdateUserPin | frontend/src/services/storageService.js:75-84 | returns true iff the id exists; only the first such user's pinHash changes; afterwards the new PIN authenticates that user |
| Store.RecordStore.AddExpense | frontend/src/services/storageService.js:114-125 | appends exactly one expense with the given fields, id and timestamps; earlier expenses unchanged |
| Store.RecordStore.UpdateExpense | frontend/src/services/storageService.js:127-140 | with a matching id, only the first match changes, to its fields patched plus the new update time, and is returned; otherwise none is returned and nothing changes |
| Store.RecordStore.DeleteExpense | frontend/src/services/storageService.js:142-147 | always true; the expenses become those with another id |
| Store.RecordStore.AddTransfer | frontend/src/services/storageService.js:163-173 | appends exactly one transfer with the given fields, id and creation time; earlier transfers unchanged |
| Store.RecordStore.DeleteTransfer | frontend/src/services/storageService.js:175-180 | always true; the transfers become those with another id |
| Balances.SummarizeIsConsistent | frontend/src/services/calculationService.js:87-127 | balance = paid − owes; pending = sum of both debts to Juan Martín; debt iff the difference exceeds 0.01 and balanced iff it is below; the debt runs from the lower balance to the higher, for half the difference, and paying it meets at the midpoint |
| Balances.ExactlyAtTolerance | frontend/src/services/calculationService.js:96-126 | at a difference of exactly 0.01 neither a debt nor balanced; otherwise exactly one of the two |
| Balances.AccumulateExpenses | frontend/src/services/calculationService.js:26-60 | the expense loop ends with the fold of all the month's expenses in order |
| Balances.ProcessExpense | frontend/src/services/calculationService.js:27-59 | one expense callback performs exactly one fold step: pay, then charge |
| Balances.AccumulateTransfers | frontend/src/services/calculationService.js:63-85 | the transfer loop ends with the fold of all the month's transfers in order |
| Balances.ProcessTransfer | frontend/src/services/calculationService.js:64-84 | one transfer callback performs exactly one fold step |
| Balances.CalculateMonthlyBalances | frontend/src/services/calculationService.js:8-128 | the result is the report of the records selected for that month, whose properties are the lemmas of BalanceLaws |
| BalanceLaws.ExpenseStepAddsShares | frontend/src/services/calculationService.js:32-59 | one expense adds its amount to the payer's paid; each parent's share by the imputeTo table (half each for both or missing, all for the named parent, none otherwise) to owes; and the same share to that parent's debt to Juan Martín iff he paid and asked to be paid back |
| BalanceLaws.ExpenseFoldClosedForm | frontend/src/services/calculationService.js:26-60 | after the expenses, every running total is the sum over the expenses of that total's per-expense share |
| BalanceLaws.SharesCoverTheAmount | frontend/src/services/calculationService.js:37-59 | the two parents' shares plus the unassigned part sum to the expenses' total |
| BalanceLaws.TransferFoldPaid | frontend/src/services/calculationService.js:68-75 | each parent's paid moves by what they sent the other minus what they received; owes and Juan Martín's paid are untouched |
| BalanceLaws.ParentPaymentsConserved | frontend/src/services/calculationService.js:68-75 | transfers never change mariano.paid + gabriela.paid |
| BalanceLaws.TransfersKeepReimbursementsNonNegative | frontend/src/services/calculationService.js:77-84 | debts to Juan Martín that start non-negative stay non-negative through any transfers |
| BalanceLaws.TransferFoldReimbursements | frontend/src/services/calculationService.js:77-84 | with non-negative amounts, each parent's debt to Juan Martín ends at max(0, debt − what that parent sent him) |
| BalanceLaws.TransferFoldIsTransferTotals | frontend/src/services/calculationService.js:63-85 | with non-negative amounts the transfer loop equals its closed form |
| BalanceLaws.SharedCostConservation | frontend/src/services/calculationService.js:37-119 | mariano.owes + gabriela.owes + the unassigned part = totalExpenses; when every expense is shared, owes add up to the total |
| BalanceLaws.ReimbursementsNonNegative | frontend/src/services/calculationService.js:77-90 | with non-negative expense amounts, both reported debts to Juan Martín and the pending total are ≥ 0 |
| BalanceLaws.ReportClosedForm | frontend/src/services/calculationService.js:8-128 | every figure of the report is a sum over the month's records, the reimbursements floored at zero |
| BalanceLaws.FinalLedgerClosedForm | frontend/src/services/calculationService.js:26-85 | the accumulators after both loops, in closed form |
| BalanceLaws.OrderIrrelevant | frontend/src/services/calculationService.js:26-85 | with non-negative amounts, reordering the expenses and the transfers does not change the report |
| BalanceLaws.ExpenseFoldPermute | frontend/src/services/calculationService.js:26-60 | the expense totals do not depend on the order of the expenses |
| BalanceLaws.TransferFoldPermute | frontend/src/services/calculationService.js:63-85 | with non-negative amounts the transfer totals do not depend on the order of the transfers |
| BalanceLaws.ExpenseFoldOwesJuanNonNegative | frontend/src/services/calculationService.js:44-58 | non-negative expenses leave non-negative debts to Juan Martín |
| BalanceLaws.NegativeTransferMakesOrderMatter | frontend/src/services/calculationService.js:80 | with a negative transfer, two orders of the same transfers give different debts (0 and 50), because the floor applies after each one |
| BalanceLaws.SettlingTheDebtBalances | frontend/src/services/calculationService.js:93-126 | one more transfer of the reported debt, in the reported direction, leaves the parents exactly even: balanced and no debt |
| BalanceLaws.MonthIsolation | frontend/src/services/calculationService.js:9-10 | records dated in other months, wherever they stand in the stored lists, do not change a month's report: adding, deleting or editing them in place leaves it as it was |
| BalanceLaws.MirrorExpenseFold | frontend/src/services/calculationService.js:26-60 | exchanging the parents in every expense exchanges them in the expense totals |
| BalanceLaws.MirrorTransferFold | frontend/src/services/calculationService.js:63-85 | exchanging the parents in every transfer exchanges them in the transfer totals |
| BalanceLaws.MirrorSummarize | frontend/src/services/calculationService.js:87-127 | exchanging the parents in the totals exchanges balances and reimbursements and reverses the debt, keeping its amount |
| BalanceLaws.MirrorSymmetry | frontend/src/services/calculationService.js:8-128 | exchanging Mariano and Gabriela throughout the month exchanges them throughout the report |
| BalanceLaws.EmptyMonth | frontend/src/services/calculationService.js:8-127 | a month without records totals 0, both parents have paid, owe and balance 0, nothing is pending for Juan Martín, no debt is reported and the month is balanced |
| BalanceLaws.SharedExpensePaidByMariano | frontend/src/services/calculationService.js:32-116 | Mariano pays 1000 for both: he is +500, Gabriela −500, and she owes him 500 |
| BalanceLaws.ReimbursedExpenseSplitsInHalf | frontend/src/services/calculationService.js:38-48 | Juan Martín pays 600 for both with reimbursement: each parent owes him 300 and the parents are balanced |
| BalanceLaws.PaymentClearsOneShare | frontend/src/services/calculationService.js:78-82 | after that, Mariano sending him 300 clears Mariano's part only |
| BalanceLaws.OverpaymentIsDropped | frontend/src/services/calculationService.js:81-82 | paying 1000 against a debt of 100 leaves 0, not −900 |
| CategoryTotals.ExpensesByCategory | frontend/src/services/calculationService.js:131-150 | one group per category present in the month; each holds exactly that category's expenses in order, their count (positive, the list's length) and their total |
| CategoryTotals.GroupByCategory | frontend/src/services/calculationService.js:135-147 | the forEach builds exactly the breakdown of its input |
| CategoryTotals.AddToGroupStep | frontend/src/services/calculationService.js:136-146 | one forEach step turns the breakdown of a list into that of the list plus one expense |
| CategoryTotals.EachExpenseInOneGroup | frontend/src/services/calculationService.js:136 | every expense lies in exactly one group, its own category's |
| CategoryTotals.MissingCategoryIsOtros | frontend/src/services/calculationService.js:136 | an expense without a category is in the 'otros' group |
| CategoryTotals.GroupSumsAddUp | frontend/src/services/calculationService.js:144-146 | any per-expense quantity summed group by group gives its sum over the month |
| CategoryTotals.GroupTotalsAddUp | frontend/src/services/calculationService.js:144 | the group totals add up to the month's total |
| CategoryTotals.GroupCountsAddUp | frontend/src/services/calculationService.js:145 | the group counts add up to the number of the month's expenses |
| Permissions.DefaultAccountPermissions | frontend/src/services/calculationService.js:161-170 | the parents may edit and delete every expense, Juan Martín exactly the ones he created, nobody when logged out; delete equals edit |
| Permissions.CreatorCanEdit | frontend/src/services/calculationService.js:164 | the creator may always edit and delete |
| Permissions.UnknownIdsStayApart | frontend/src/services/calculationService.js:161-170 | a user with an unknown id and no canEditAll may neither edit nor delete an expense created under a different unknown id |
| Permissions.EditableByCollaborator | frontend/src/services/calculationService.js:161-165 | without canEditAll, the expenses a user may edit are exactly the ones they created |
| ExpenseForm.InitialForm | frontend/src/components/ExpenseForm.js:11-19 | editing: every field is the expense's own (amount, description, category, payer, date, reimbursement flag), and imputeTo is the expense's or 'both' when it has none; new: empty boxes, the session user as payer (none when logged out), today, 'both', no reimbursement |
| ExpenseForm.AutoSelectImpute | frontend/src/components/ExpenseForm.js:30-36 | only imputeTo may change; it becomes 'both' exactly when Juan Martín pays with reimbursement and the choice is unrecognised, and otherwise stays as it was |
| ExpenseForm.ReimbursementPreview | frontend/src/components/ExpenseForm.js:98-115 | shown iff Juan Martín pays, asks to be paid back, an amount is typed and imputeTo is recognised; the two parts sum to the amount and are ≥ 0 for a non-negative amount; 'both' splits it in equal halves, 'mariano' puts all of it on Mariano and 'gabriela' all of it on Gabriela |
| ExpenseForm.AutoSelectShowsPreview | frontend/src/components/ExpenseForm.js:30-115 | after the effect, Juan Martín paying with reimbursement and an amount always shows a preview; running the effect twice is running it once |
| ExpenseForm.PreviewMatchesBalance | frontend/src/components/ExpenseForm.js:98-115 | the preview equals what saving the expense adds to each parent's debt to Juan Martín in the monthly balance; no preview means nothing is added |
| ExpenseForm.TrimEmptyIffBlank | frontend/src/components/ExpenseForm.js:43 | a description trims to nothing exactly when it is all whitespace |
| ExpenseForm.Validate | frontend/src/components/ExpenseForm.js:38-57 | a field is reported iff its check fails |
| ExpenseForm.ValidateChecks | frontend/src/components/ExpenseForm.js:38-57 | amount reported iff empty or ≤ 0; description iff blank; category, payer, date iff empty |
| ExpenseForm.SubmittedData | frontend/src/components/ExpenseForm.js:59-66 | saved fields have a positive amount, a non-blank description, a category, the chosen imputeTo, and createdBy kept when editing or the session user's when new |
| ExpenseForm.SavingKeepsEditRights | frontend/src/components/ExpenseForm.js:65 | the author of a new expense may edit it; saving an edit never changes who may edit |
| ExpenseForm.EditRoundTrip | frontend/src/components/ExpenseForm.js:11-66 | opening a valid expense and saving it unchanged passes validation and stores the same fields; an expense without imputeTo is stored back with 'both' |
| ExpenseForm.SaveThenReopen | frontend/src/components/ExpenseForm.js:11-66 | the saved record carries the form's own amount, description, category, payer, date, impute choice and reimbursement flag: reopening it gives back exactly the submitted form |
| ExpenseForm.SubmitExpense | frontend/src/components/ExpenseForm.js:59-76 | saves iff validation passes: a full patch of the edited expense, or one new record; nothing otherwise |
| Settings.AvailableTo | frontend/src/components/SettingsTab.js:247-250 | a recipient is offered iff a sender is chosen and the pair is allowed |
| Settings.AllowedPairsShape | frontend/src/components/SettingsTab.js:240-245 | only a parent sends, nobody sends to themselves, Juan Martín only receives, and no unknown id is ever a recipient |
| Settings.AvailableRecipients | frontend/src/components/SettingsTab.js:240-250 | Mariano is offered [Gabriela, Juan Martín], Gabriela [Mariano, Juan Martín]; Juan Martín, every unknown id and no sender are offered nothing |
| Settings.NewTransferForm | frontend/src/components/SettingsTab.js:228-233 | the form opens empty with today's date |
| Settings.SelectFrom | frontend/src/components/SettingsTab.js:298 | choosing a sender clears the recipient and keeps amount and date |
| Settings.SelectTo | frontend/src/components/SettingsTab.js:323-327 | choosing an offered recipient keeps the form consistent |
| Settings.EditingKeepsConsistent | frontend/src/components/SettingsTab.js:347-360 | typing an amount or a date keeps the chosen pair allowed |
| Settings.ValidateTransfer | frontend/src/components/SettingsTab.js:252-260 | sender, recipient, date reported iff empty; amount iff empty or ≤ 0 |
| Settings.SubmittedTransfer | frontend/src/components/SettingsTab.js:262-267 | a saved transfer has a positive amount |
| Settings.SavedTransferIsTheForm | frontend/src/components/SettingsTab.js:262-267 | the saved transfer's sender, recipient, amount and date are exactly the form's |
| Settings.SubmittedTransferIsAllowed | frontend/src/components/SettingsTab.js:240-267 | a transfer saved from the form goes in an allowed direction, never from Juan Martín or to oneself |
| Settings.SubmitTransfer | frontend/src/components/SettingsTab.js:262-270 | saves iff validation passes, appending one transfer; nothing otherwise |
| Settings.HandleChangePin | frontend/src/components/SettingsTab.js:391-423 | checks format, then confirmation, then the current PIN, and the first failure decides with nothing stored; on success the user list is the old one with only the pinHash of that user's record replaced by the new PIN's hash, the new PIN authenticates and the boxes clear; the update-failure message is unreachable |
| Settings.AddToMonthStep | frontend/src/components/SettingsTab.js:23-35 | one reduce step turns the grouping of a list into that of the list plus one transfer |
| Settings.GroupTransfersByMonth | frontend/src/components/SettingsTab.js:23-35 | one group per month with transfers, holding exactly that month's transfers in list order; each month listed once |
| Settings.EachTransferInOneGroup | frontend/src/components/SettingsTab.js:23-35 | every transfer lies in exactly one group, its own month's |
| Settings.SortGroups | frontend/src/components/SettingsTab.js:37-40 | sorting keeps the length and the set of groups |
| Settings.SortGroupsPermutes | frontend/src/components/SettingsTab.js:37-40 | sorting keeps every group as many times as it occurs: the result is a permutation of the input |
| Settings.SortGroupsSorted | frontend/src/components/SettingsTab.js:37-40 | groups of distinct months come out latest first, by year then month |
| Settings.SortedIsUnique | frontend/src/components/SettingsTab.js:37-40 | two latest-first lists of the same groups are equal, so the order the groups were opened in does not matter |
| Settings.GroupsInOrderDistinct | frontend/src/components/SettingsTab.js:23-40 | Object.values of the grouping lists one group per month, each for a month that has a transfer |
| Settings.SortedMonthGroups | frontend/src/components/SettingsTab.js:23-40 | the list shows the month groups latest first, one per month that has a transfer |

## Left out

- Browser storage, JSON encoding, the session functions and import/export are not modelled. The store is three in-memory sequences.
- Store.HashPin keeps the salting but not the base64 encoding. Both steps are deterministic and injective, which is all the model uses.
- Ids and timestamps (`Date.now`, `Math.random`, `toISOString`) are parameters. Fresh ids are not enforced.
- Dates are (year, month, day) records. JavaScript's date parsing is not modelled. Neither are time zones, which can move a record dated on the 1st into the previous month.
- Amounts are exact reals. IEEE-754 rounding, `parseFloat` of non-numeric text (`NaN`, and the preview's `|| 0`) and amounts stored as strings are not modelled.
- Store.ApplyPatch cannot remove `imputeTo`. The form always sends it.
- ExpenseForm.SubmittedData: `createdBy` is always present on a stored expense, so the fall-back to the session user when editing an expense without one is not modelled.
- Settings.SelectTo takes the recipient dropdown's list as a precondition. The dropdown shows only offered recipients.
- Records.UserId: two id strings the source gives a special reading are, in the model, ordinary unknown ids. The empty string is one: the source reads `''` as "no user", so the payer and creator fall back to the session user and the payer and sender checks report the field. The names 'mariano', 'gabriela' and 'juanmartin' are the other: the type does not forbid `OtherUser("mariano")`, which the source would read as Mariano. No modelled path produces either kind of value, since stored records and sessions get their ids from the three accounts and the dropdowns. Such an id could come only from an imported file, and import is not modelled. Lemmas quantified over every unknown name, such as Settings.AvailableRecipients, therefore also cover names the source can never reach.
- Settings.HandleChangePin takes the session user's id as a parameter. React state and rendering are not modelled.
- loadTransfers' sort of the whole list by date is not modelled. The grouping and its result hold for any input order.
- Settings.SortGroups is an insertion sort. Settings.SortedIsUnique shows that any sort with the same comparator gives the same list.
- BalanceLaws.OrderIrrelevant, BalanceLaws.TransferFoldPermute and BalanceLaws.ReportClosedForm assume non-negative amounts. With a negative transfer the order matters, as BalanceLaws.NegativeTransferMakesOrderMatter shows.
- formatCurrency (Intl.NumberFormat), getMonthName, getRecentExpenses and display names are not modelled.
- The other screens, the service worker and the React hooks are not modelled.
