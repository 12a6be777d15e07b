# Buddi view-models in Dafny

A model of the view-model layer of Buddi, a personal finance and budgeting
application, with proofs of what each view-model promises. The modelled parts are:

- the two budget view-models (Swing and JavaFX), which remember the last
  date shown for each budget period type and compute the budgeted net income;
- the transaction register of one account: editor validation, loading a
  transaction into the editor, saving it back, delete and clear;
- the account list queries and selection helpers;
- the text of a budget table amount cell;
- the scheduled transaction list;
- the report page's HTML rewriting, which inlines images as data URIs.

The ledger itself is not among the modelled files. The document, budget
categories, period types, transactions and formatters are only called by this
code, so they are parameters here:

- `startOf` is a period type's start-of-period function.
- `BudgetBook` gives the categories of a period type and their budgeted amounts.
- The currency formatters, `isRed` and the base64 image encoder are functions.
- `now` stands for `new Date()`.
- A dialog's answer is an `Option`.
- A document call that may throw is a boolean saying whether it throws.

Dates are millisecond instants (`int`). Mutable transaction objects are
identities (`TxId`) with their fields in a map. Calls made on the document
are recorded in a log.

Each view-model is a class whose methods change its fields as the Java code
does. Each method's postcondition ties the new state to a function of the old
one, e.g. `FxSetType`, `AfterSetType`, `SavedData`, `Processed` or `CellText`.
The properties are proved as lemmas about those functions.

Files:

- `wrappers.dfy`: `Option`.
- `java_lists.dfy`: `List.indexOf`, `List.remove(Object)`, `List.set` and the filter loops.
- `java_text.dfy`: `String.trim`, `String.replace`, and `replaceAll("<[^>]+>", "")`.
- `entities.dfy`: the model values.
- `budget_periods.dfy`: the period key and net income shared by both budget view-models.
- One file per view-model.

Where the two budget view-models differ:

- **Swing** saves the outgoing type's date on every type switch. It also stores
  the fallback date for a type with no remembered date. So switching from A to
  B and back always restores A's date.
- **JavaFX** writes its period memory only in the date property's change
  listener, which runs only when the date really changes. A switch to a type
  with no remembered date, where that type's period start equals the date
  already shown, therefore remembers nothing for that type.
  - `FxBudget.SwitchAndBackRestoresDate` proves the restore property from a
    state where the shown date is the remembered one.
  - `FxBudget.UnchangedDateIsNotRemembered` and
    `FxBudget.ForgetsDateShownUnderNewType` show how that state is lost. In the
    second, a later return to that type shows another period.
  - A design that saves the outgoing date on every switch, as the Swing
    view-model does, would always restore. The JavaFX model follows the code.

## Model

| member | source | states |
|---|---|---|
| JavaLists.IndexOf | src/org/homeunix/thecave/buddi/view/mvvm/transaction/TransactionViewModel.java:269 | the index is -1 exactly when the element is absent; otherwise it holds the element and no earlier index does |
| JavaLists.RemoveFirstCount | src/org/homeunix/thecave/buddi/view/mvvm/scheduled/ScheduledTransactionsViewModel.java:44 | `List.remove(Object)` of a present element drops exactly one copy (length one less, multiset minus one); of an absent element changes nothing |
| JavaLists.RemoveFirstAppended | src/org/homeunix/thecave/buddi/view/mvvm/scheduled/ScheduledTransactionsViewModel.java:57 | removing an element just appended, when it was not already listed, gives back the original list |
| JavaLists.ReplaceFirst | src/org/homeunix/thecave/buddi/view/mvvm/scheduled/ScheduledTransactionsViewModel.java:71-74 | `set(indexOf(t), u)` keeps the length and every other position, puts `u` at `t`'s first index, and leaves a list without `t` unchanged |
| JavaLists.CollectMembers | src/org/homeunix/thecave/buddi/viewmodel/MyAccountsViewModel.java:159-164 | a value is collected exactly when some row is that value of the wanted kind |
| JavaLists.CollectAppend | src/org/homeunix/thecave/buddi/viewmodel/MyAccountsViewModel.java:159-164 | collecting distributes over concatenation, so the selection order is kept |
| JavaLists.FilterMembers | src/org/homeunix/thecave/buddi/view/mvvm/transaction/TransactionViewModel.java:93-95 | a stream filter keeps an element exactly when it is in the input and passes the test |
| JavaLists.FilterAppend | src/org/homeunix/thecave/buddi/view/mvvm/transaction/TransactionViewModel.java:93-95 | filtering distributes over concatenation, so input order is kept |
| JavaLists.RemoveFirst | src/org/homeunix/thecave/buddi/view/mvvm/scheduled/ScheduledTransactionsViewModel.java:44 | `List.remove(Object)`: the first copy of the element is dropped (its properties are stated by RemoveFirstCount and RemoveFirstAppended) |
| JavaLists.Collect | src/org/homeunix/thecave/buddi/viewmodel/MyAccountsViewModel.java:159-164 | the `instanceof` loop: the rows of the wanted kind, in row order (CollectMembers, CollectAppend) |
| JavaLists.Filter | src/org/homeunix/thecave/buddi/view/mvvm/transaction/TransactionViewModel.java:93-95 | a stream filter: the elements passing the test, in input order (FilterMembers, FilterAppend) |
| JavaText.TrimEmptyIff | src/org/homeunix/thecave/buddi/view/mvvm/transaction/TransactionViewModel.java:180 | `trim().isEmpty()` holds exactly when every character is at or below U+0020 |
| JavaText.Trim | src/org/homeunix/thecave/buddi/view/mvvm/transaction/TransactionViewModel.java:180 | `String.trim`: characters at or below U+0020 are dropped from both ends (TrimEmptyIff) |
| JavaText.ReplaceAll | src/org/homeunix/thecave/buddi/view/mvvm/reports/ReportsViewModel.java:90-91 | `String.replace`: every non-overlapping occurrence, left to right, becomes the replacement (ReplaceAllAbsent, ReplaceAllRewritesFirst) |
| JavaText.ReplaceAllAbsent | src/org/homeunix/thecave/buddi/view/mvvm/reports/ReportsViewModel.java:90-91 | `String.replace` leaves text without the pattern unchanged |
| JavaText.ReplaceAllRewritesFirst | src/org/homeunix/thecave/buddi/view/mvvm/reports/ReportsViewModel.java:90 | the first occurrence of the pattern becomes the replacement and scanning resumes after it |
| JavaText.FirstGt | src/org/homeunix/thecave/buddi/view/mvvm/mybudget/MyBudgetViewModel.java:106 | the tag scanner finds the first '>' at or after a position, or the end |
| JavaText.StripTagsChars | src/org/homeunix/thecave/buddi/view/mvvm/mybudget/MyBudgetViewModel.java:106 | stripping tags only deletes characters |
| JavaText.StripTagsLeavesNoTag | src/org/homeunix/thecave/buddi/view/mvvm/mybudget/MyBudgetViewModel.java:106 | after `replaceAll("<[^>]+>", "")` no tag is left |
| JavaText.StripTagsNoTagIdentity | src/org/homeunix/thecave/buddi/view/mvvm/mybudget/MyBudgetViewModel.java:106 | text without a tag is left unchanged |
| JavaText.StripTagsIdempotent | src/org/homeunix/thecave/buddi/view/mvvm/mybudget/MyBudgetViewModel.java:106 | stripping twice is stripping once |
| JavaText.StripTagsPlainText | src/org/homeunix/thecave/buddi/view/mvvm/mybudget/MyBudgetViewModel.java:106 | text without '<' is left unchanged |
| JavaText.StripTags | src/org/homeunix/thecave/buddi/view/mvvm/mybudget/MyBudgetViewModel.java:106 | `replaceAll("<[^>]+>", "")`: every `<`, at least one character, and the first `>` after them is deleted (the StripTags lemmas) |
| BudgetPeriods.PeriodKeysShareSlot | src/org/homeunix/thecave/buddi/viewmodel/MyBudgetViewModel.java:192-194 | two period types share one remembered-date slot exactly when their names are equal |
| BudgetPeriods.NetIncomeAppend | src/org/homeunix/thecave/buddi/viewmodel/MyBudgetViewModel.java:185-188 | the accumulated net income adds up piece by piece over the category list |
| BudgetPeriods.NetIncomeIsIncomeLessExpense | src/org/homeunix/thecave/buddi/viewmodel/MyBudgetViewModel.java:175-190 | net income equals the income categories' budget total less the expense categories' total |
| BudgetPeriods.NetIncomePermutation | src/org/homeunix/thecave/buddi/viewmodel/MyBudgetViewModel.java:183-188 | any rearrangement of the same categories (equal multisets) gives the same net income |
| BudgetPeriods.NetIncome | src/org/homeunix/thecave/buddi/viewmodel/MyBudgetViewModel.java:183-188 | the loop's signed sum: income categories add their budget, expense categories subtract it (NetIncomeIsIncomeLessExpense) |
| BudgetPeriods.BudgetedNetIncome | src/org/homeunix/thecave/buddi/viewmodel/MyBudgetViewModel.java:175-190 | 0 without a type or a date, else the net income of that type's categories at that date; both view-models' loops are proved equal to it |
| SwingBudget.SetDateIsConsistent | src/org/homeunix/thecave/buddi/viewmodel/MyBudgetViewModel.java:73-87 | after setting a date, the shown date is its period start, remembered under the selected type's name; other types' dates are kept |
| SwingBudget.AfterSetDate | src/org/homeunix/thecave/buddi/viewmodel/MyBudgetViewModel.java:73-87 | the memory after `setSelectedDate` (SetDateIsConsistent, DatePersistsAcrossPeriodTypes) |
| SwingBudget.AfterSetType | src/org/homeunix/thecave/buddi/viewmodel/MyBudgetViewModel.java:95-126 | the memory after `setSelectedBudgetPeriodType`: the outgoing date is saved, then the remembered or fallback date shown (SetTypeIsConsistent, SwitchAndBackRestoresDate) |
| SwingBudget.SetTypeIsConsistent | src/org/homeunix/thecave/buddi/viewmodel/MyBudgetViewModel.java:105-120 | a switch to another type makes the shown date the remembered one from any state, the first switch included, and a switch to the current type keeps that; a remembered date wins, otherwise the current date's period start |
| SwingBudget.SwitchAndBackRestoresDate | src/org/homeunix/thecave/buddi/viewmodel/MyBudgetViewModel.java:105-115 | switching from A to B and back, with no date change, returns to A's date |
| SwingBudget.DatePersistsAcrossPeriodTypes | junit/org/homeunix/thecave/buddi/test/viewmodel/MyBudgetViewModelTest.java:58-74 | a date picked under A survives switching to B and picking another date there |
| SwingBudget.EqualNamesShareOneSlot | src/org/homeunix/thecave/buddi/viewmodel/MyBudgetViewModel.java:192-194 | types with equal names share one remembered date |
| SwingBudget.SelectedCategoriesExactly | src/org/homeunix/thecave/buddi/viewmodel/MyBudgetViewModel.java:134-145 | the selection helper keeps exactly the budget category rows |
| SwingBudget.MyBudgetViewModel.constructor | src/org/homeunix/thecave/buddi/viewmodel/MyBudgetViewModel.java:40-55 | starts with an empty memory and a computed net income text, announcing tree and text |
| SwingBudget.MyBudgetViewModel.CalculateBudgetedNetIncome | src/org/homeunix/thecave/buddi/viewmodel/MyBudgetViewModel.java:175-190 | the loop total is the budgeted net income: 0 without type or date, else the signed sum over the type's categories |
| SwingBudget.MyBudgetViewModel.UpdateNetIncomeText | src/org/homeunix/thecave/buddi/viewmodel/MyBudgetViewModel.java:165-173 | the text becomes the formatted net income, announced only when it changed |
| SwingBudget.MyBudgetViewModel.NotifyTreeStructureChanged | src/org/homeunix/thecave/buddi/viewmodel/MyBudgetViewModel.java:160-163 | one tree-structure event is appended |
| SwingBudget.MyBudgetViewModel.Refresh | src/org/homeunix/thecave/buddi/viewmodel/MyBudgetViewModel.java:155-158 | tree event, then the recomputed net income text |
| SwingBudget.MyBudgetViewModel.SetSelectedDate | src/org/homeunix/thecave/buddi/viewmodel/MyBudgetViewModel.java:73-93 | null changes nothing; otherwise the memory becomes `AfterSetDate`, and a date event fires only if the normalised date differs, followed by the tree event and the text update |
| SwingBudget.MyBudgetViewModel.SetSelectedBudgetPeriodType | src/org/homeunix/thecave/buddi/viewmodel/MyBudgetViewModel.java:95-126 | null or the current type changes nothing; otherwise the memory becomes `AfterSetType`, followed by the type event, the date event (if changed), the tree event and the text update |
| SwingBudget.MyBudgetViewModel.GetSelectedBudgetCategories | src/org/homeunix/thecave/buddi/viewmodel/MyBudgetViewModel.java:134-145 | empty for a null selection, else exactly the category rows in order |
| FxBudget.SetDateRemembers | src/org/homeunix/thecave/buddi/view/mvvm/mybudget/MyBudgetViewModel.java:50-56 | from any state, a new non-null date under a selected type is written to that type's slot and every other slot is kept; the date already shown changes nothing; a null date never touches the memory |
| FxBudget.FxSetDate | src/org/homeunix/thecave/buddi/view/mvvm/mybudget/MyBudgetViewModel.java:50-56 | the date property set with its listener, which runs only on a real change (SetDateRemembers) |
| FxBudget.TargetDate | src/org/homeunix/thecave/buddi/view/mvvm/mybudget/MyBudgetViewModel.java:84-95 | the remembered date of the type, else the start of the period holding the current date or `now` (SetTypeShowsTarget) |
| FxBudget.FxSetType | src/org/homeunix/thecave/buddi/view/mvvm/mybudget/MyBudgetViewModel.java:42-48 | the type property set with its listener, which moves the date to TargetDate through FxSetDate (SetTypeShowsTarget, SwitchAndBackRestoresDate, UnchangedDateIsNotRemembered) |
| FxBudget.SetTypeShowsTarget | src/org/homeunix/thecave/buddi/view/mvvm/mybudget/MyBudgetViewModel.java:84-94 | a selected type shows its remembered date, else the start of the current date's period (of `now` without one); a null type only clears the selection |
| FxBudget.SwitchAndBackRestoresDate | src/org/homeunix/thecave/buddi/view/mvvm/mybudget/MyBudgetViewModel.java:42-56 | from a state where the shown date is the remembered one, switching from A to B and back restores A's date |
| FxBudget.UnchangedDateIsNotRemembered | src/org/homeunix/thecave/buddi/view/mvvm/mybudget/MyBudgetViewModel.java:50-52 | a switch whose target date is already shown fires no date change, so the new type's date is not remembered |
| FxBudget.ForgetsDateShownUnderNewType | src/org/homeunix/thecave/buddi/view/mvvm/mybudget/MyBudgetViewModel.java:84-94 | consequence of the above: returning later to that type can show another period than the one it showed |
| FxBudget.MyBudgetViewModel.constructor | src/org/homeunix/thecave/buddi/view/mvvm/mybudget/MyBudgetViewModel.java:33-57 | no type, no date, empty memory, no text |
| FxBudget.MyBudgetViewModel.CalculateBudgetedNetIncome | src/org/homeunix/thecave/buddi/view/mvvm/mybudget/MyBudgetViewModel.java:110-127 | the loop total is the budgeted net income: 0 without type or date, else the signed sum over the type's categories |
| FxBudget.MyBudgetViewModel.UpdateNetIncome | src/org/homeunix/thecave/buddi/view/mvvm/mybudget/MyBudgetViewModel.java:97-108 | the text is "Net Income: " and the formatted net income with its tags stripped |
| FxBudget.MyBudgetViewModel.SetSelectedDate | src/org/homeunix/thecave/buddi/view/mvvm/mybudget/MyBudgetViewModel.java:50-56 | the memory becomes `FxSetDate`; a real change to a non-null date under a selected type updates the text and fires one tree event |
| FxBudget.MyBudgetViewModel.UpdateDateForPeriodType | src/org/homeunix/thecave/buddi/view/mvvm/mybudget/MyBudgetViewModel.java:84-95 | the date moves to the type's remembered date or the fallback period start |
| FxBudget.MyBudgetViewModel.SetSelectedPeriodType | src/org/homeunix/thecave/buddi/view/mvvm/mybudget/MyBudgetViewModel.java:42-48 | the memory becomes `FxSetType`; a change to a non-null type updates the text and fires one or two tree events |
| FxBudget.MyBudgetViewModel.SetBudgetAmount | src/org/homeunix/thecave/buddi/view/mvvm/mybudget/MyBudgetViewModel.java:133-145 | no category, no date or a rejected amount changes nothing; otherwise the budget takes the amount and the text is recomputed |
| FxBudget.MyBudgetViewModel.GetBudgetCategoryTypes | src/org/homeunix/thecave/buddi/view/mvvm/mybudget/MyBudgetViewModel.java:75-82 | one period type per enumeration key, in key order |
| TransactionEditing.ValidateAcceptsExactly | src/org/homeunix/thecave/buddi/view/mvvm/transaction/TransactionViewModel.java:179-216 | `validate` returns null exactly when the description is not blank, date, from and to are set, and every split side's splits add up to the amount |
| TransactionEditing.ValidateReportsFirstFailure | src/org/homeunix/thecave/buddi/view/mvvm/transaction/TransactionViewModel.java:179-213 | each error is reported exactly when its check fails and all earlier ones pass; a split mismatch carries the split total and the amount |
| TransactionEditing.Validate | src/org/homeunix/thecave/buddi/view/mvvm/transaction/TransactionViewModel.java:179-216 | the five checks of `validate`, in source order (ValidateAcceptsExactly, ValidateReportsFirstFailure) |
| TransactionEditing.ClearedEditorIsRejected | src/org/homeunix/thecave/buddi/view/mvvm/transaction/TransactionViewModel.java:145-158 | a cleared editor never validates (its description is empty) |
| TransactionEditing.SaveWritesTheSideLoadReads | src/org/homeunix/thecave/buddi/view/mvvm/transaction/TransactionViewModel.java:257-263 | save writes cleared/reconciled to the side load reads them from, and leaves the other side's flags alone |
| TransactionEditing.LoadThenSaveIsIdentity | src/org/homeunix/thecave/buddi/view/mvvm/transaction/TransactionViewModel.java:110-143 | saving an unedited editor back into its transaction changes nothing |
| TransactionEditing.SaveThenLoadIsIdentity | src/org/homeunix/thecave/buddi/view/mvvm/transaction/TransactionViewModel.java:230-263 | loading what save wrote gives the editor back (when no split list is kept for an unsplit side) |
| TransactionEditing.ClearedEditor | src/org/homeunix/thecave/buddi/view/mvvm/transaction/TransactionViewModel.java:145-158 | the editor `clearEditor` leaves (ClearedEditorIsRejected) |
| TransactionEditing.LoadedEditor | src/org/homeunix/thecave/buddi/view/mvvm/transaction/TransactionViewModel.java:110-143 | the editor `loadTransaction` fills from a transaction (LoadThenSaveIsIdentity, SaveThenLoadIsIdentity) |
| TransactionEditing.SavedData | src/org/homeunix/thecave/buddi/view/mvvm/transaction/TransactionViewModel.java:230-263 | the fields `save` writes into a transaction (SaveWritesTheSideLoadReads and the two round trips) |
| TransactionEditing.AccountTransactionsExactly | src/org/homeunix/thecave/buddi/view/mvvm/transaction/TransactionViewModel.java:90-98 | the list holds exactly the document's transactions with the account at either end, in document order |
| TransactionEditing.AccountTransactions | src/org/homeunix/thecave/buddi/view/mvvm/transaction/TransactionViewModel.java:90-98 | the register's list: transactions with the account at either end (AccountTransactionsExactly) |
| TransactionEditing.TransactionViewModel.constructor | src/org/homeunix/thecave/buddi/view/mvvm/transaction/TransactionViewModel.java:47-52 | the list is loaded from the document, nothing is selected and the editor is cleared |
| TransactionEditing.TransactionViewModel.LoadTransactions | src/org/homeunix/thecave/buddi/view/mvvm/transaction/TransactionViewModel.java:90-98 | the list is the account's transactions |
| TransactionEditing.TransactionViewModel.ClearEditor | src/org/homeunix/thecave/buddi/view/mvvm/transaction/TransactionViewModel.java:145-158 | every editor field is reset and nothing is selected |
| TransactionEditing.TransactionViewModel.Select | src/org/homeunix/thecave/buddi/view/mvvm/transaction/TransactionViewModel.java:55-61 | a new selection loads that transaction; a null selection clears the editor; the same selection changes nothing |
| TransactionEditing.TransactionViewModel.CreateNewTransaction | src/org/homeunix/thecave/buddi/view/mvvm/transaction/TransactionViewModel.java:160-163 | a cleared editor paying from the register's account |
| TransactionEditing.TransactionViewModel.Delete | src/org/homeunix/thecave/buddi/view/mvvm/transaction/TransactionViewModel.java:165-177 | without a selection, or if the document refuses, nothing changes; otherwise the transaction is removed from document and list, the editor cleared and the balance updated |
| TransactionEditing.TransactionViewModel.Save | src/org/homeunix/thecave/buddi/view/mvvm/transaction/TransactionViewModel.java:218-285 | an invalid editor changes nothing; a new transaction is created, appended, selected and reloaded; an existing one is overwritten in place and keeps its position |
| MyAccounts.OfTypeExactly | src/org/homeunix/thecave/buddi/viewmodel/MyAccountsViewModel.java:127-135 | the accounts of a type are exactly those whose type is it, deleted ones included, in document order |
| MyAccounts.SelectedRowsExactly | src/org/homeunix/thecave/buddi/viewmodel/MyAccountsViewModel.java:154-185 | the helpers keep exactly the account rows, respectively the account type rows |
| MyAccounts.OfType | src/org/homeunix/thecave/buddi/viewmodel/MyAccountsViewModel.java:127-135 | the accounts of one type, in document order (OfTypeExactly) |
| MyAccounts.MyAccountsViewModel.constructor | src/org/homeunix/thecave/buddi/viewmodel/MyAccountsViewModel.java:51-66 | holds the document's accounts, account types and expanded flags; `getAccountTypes` (lines 120-122) hands back that type list as it is |
| MyAccounts.MyAccountsViewModel.GetAccounts | src/org/homeunix/thecave/buddi/viewmodel/MyAccountsViewModel.java:127-135 | the loop result is the document's accounts of that type, in order |
| MyAccounts.MyAccountsViewModel.SetAccountTypeExpanded | src/org/homeunix/thecave/buddi/viewmodel/MyAccountsViewModel.java:143-145 | only that type's expanded flag changes, to the given value |
| MyAccounts.MyAccountsViewModel.GetSelectedAccounts | src/org/homeunix/thecave/buddi/viewmodel/MyAccountsViewModel.java:154-165 | empty for a null selection, else exactly the account rows in order |
| MyAccounts.MyAccountsViewModel.GetSelectedAccountTypes | src/org/homeunix/thecave/buddi/viewmodel/MyAccountsViewModel.java:174-185 | empty for a null selection, else exactly the account type rows in order |
| BudgetAmountCell.IndentLength | src/org/homeunix/thecave/buddi/view/swing/MyBudgetTableAmountCellRenderer.java:90-92 | each depth step adds sixteen characters; a non-positive depth adds none |
| BudgetAmountCell.DepthOnlyIndents | src/org/homeunix/thecave/buddi/view/swing/MyBudgetTableAmountCellRenderer.java:90-96 | the depth changes only the indentation between `<html>` and the body |
| BudgetAmountCell.EmptyCellShowsDashes | src/org/homeunix/thecave/buddi/view/swing/MyBudgetTableAmountCellRenderer.java:38-57 | no budget, and no actual amount or the preference on, gives "---" |
| BudgetAmountCell.ActualOnlyCell | src/org/homeunix/thecave/buddi/view/swing/MyBudgetTableAmountCellRenderer.java:42-52 | no budget with an actual amount and the preference off shows the actual, with the subtotal in brackets only when it differs |
| BudgetAmountCell.BudgetCellOpensWithBudget | src/org/homeunix/thecave/buddi/view/swing/MyBudgetTableAmountCellRenderer.java:58-61 | with a budget the body starts with the budget amount, whatever the preference |
| BudgetAmountCell.BudgetCellBracketsChildTotal | src/org/homeunix/thecave/buddi/view/swing/MyBudgetTableAmountCellRenderer.java:58-72 | with a budget and the preference off, the child total follows the budget in brackets exactly when it is non-zero and differs from it; otherwise the budget stands alone |
| BudgetAmountCell.PreferenceAppendsActuals | src/org/homeunix/thecave/buddi/view/swing/MyBudgetTableAmountCellRenderer.java:74-88 | with a budget, the preference appends " / " and the actuals after an unchanged prefix; with it off the actual values do not matter |
| BudgetAmountCell.CellText | src/org/homeunix/thecave/buddi/view/swing/MyBudgetTableAmountCellRenderer.java:25-97 | the label text: `<html>`, the indentation, the body, `</html>` (DepthOnlyIndents, EmptyCellShowsDashes, PreferenceAppendsActuals) |
| BudgetAmountCell.MainPart | src/org/homeunix/thecave/buddi/view/swing/MyBudgetTableAmountCellRenderer.java:38-72 | the budget or actual part of the body (EmptyCellShowsDashes, ActualOnlyCell, BudgetCellOpensWithBudget, BudgetCellBracketsChildTotal) |
| BudgetAmountCell.ActualPart | src/org/homeunix/thecave/buddi/view/swing/MyBudgetTableAmountCellRenderer.java:74-88 | " / ", the actual or "---", then the differing subtotal (PreferenceAppendsActuals) |
| BudgetAmountCell.AmountCellRenderer.Render | src/org/homeunix/thecave/buddi/view/swing/MyBudgetTableAmountCellRenderer.java:25-97 | for a value array the buffer is reset and the text is `<html>`, the indentation, the body and `</html>`; other values leave the text alone |
| BudgetAmountCell.AmountCellRenderer.AppendMainPart | src/org/homeunix/thecave/buddi/view/swing/MyBudgetTableAmountCellRenderer.java:38-72 | appends the budget or actual part of the body |
| BudgetAmountCell.AmountCellRenderer.AppendActualPart | src/org/homeunix/thecave/buddi/view/swing/MyBudgetTableAmountCellRenderer.java:74-88 | appends " / ", the actual (or "---") and the differing subtotal |
| BudgetAmountCell.AmountCellRenderer.AppendBracketed | src/org/homeunix/thecave/buddi/view/swing/MyBudgetTableAmountCellRenderer.java:47-50 | appends a bracketed amount |
| BudgetAmountCell.AmountCellRenderer.InsertIndent | src/org/homeunix/thecave/buddi/view/swing/MyBudgetTableAmountCellRenderer.java:90-92 | `depth` insertions at the front give the indentation before the old buffer |
| ScheduledList.ScheduledTransactionsViewModel.constructor | src/org/homeunix/thecave/buddi/view/mvvm/scheduled/ScheduledTransactionsViewModel.java:20-29 | the list is the document's scheduled transactions, in order |
| ScheduledList.ScheduledTransactionsViewModel.Select | src/org/homeunix/thecave/buddi/view/mvvm/scheduled/ScheduledTransactionsViewModel.java:35-37 | the selection property takes the value |
| ScheduledList.ScheduledTransactionsViewModel.DeleteSelected | src/org/homeunix/thecave/buddi/view/mvvm/scheduled/ScheduledTransactionsViewModel.java:39-50 | without a selection or if the document refuses, nothing changes; otherwise the first copy is removed and the selection cleared |
| ScheduledList.ScheduledTransactionsViewModel.CreateNew | src/org/homeunix/thecave/buddi/view/mvvm/scheduled/ScheduledTransactionsViewModel.java:52-63 | a cancelled dialog or a refused add changes nothing; otherwise the result is appended and selected |
| ScheduledList.ScheduledTransactionsViewModel.EditSelected | src/org/homeunix/thecave/buddi/view/mvvm/scheduled/ScheduledTransactionsViewModel.java:65-77 | without a selection or answer nothing changes; otherwise the entry at the selected one's index becomes the answer |
| Reports.UnreferencedImagesChangeNothing | src/org/homeunix/thecave/buddi/view/mvvm/reports/ReportsViewModel.java:77-94 | images the HTML never refers to (in particular an empty map) leave it unchanged |
| Reports.DoubleQuotedReferenceInlined | src/org/homeunix/thecave/buddi/view/mvvm/reports/ReportsViewModel.java:90-91 | a lone `src="name"` becomes `src="data:image/png;base64,<code>"` |
| Reports.SingleQuotedReferenceInlined | src/org/homeunix/thecave/buddi/view/mvvm/reports/ReportsViewModel.java:90-91 | a lone `src='name'` becomes `src='data:image/png;base64,<code>'` |
| Reports.ErrorPageEmbedsMessage | src/org/homeunix/thecave/buddi/view/mvvm/reports/ReportsViewModel.java:65-69 | the error page holds the exception message whole ("null" for none) between its fixed parts |
| Reports.ReplaceImage | src/org/homeunix/thecave/buddi/view/mvvm/reports/ReportsViewModel.java:90-91 | both quoted `src` forms of one image name become its data URI (DoubleQuotedReferenceInlined, SingleQuotedReferenceInlined) |
| Reports.Processed | src/org/homeunix/thecave/buddi/view/mvvm/reports/ReportsViewModel.java:73-95 | ReplaceImage for every image, in map order (UnreferencedImagesChangeNothing) |
| Reports.ErrorPage | src/org/homeunix/thecave/buddi/view/mvvm/reports/ReportsViewModel.java:65-69 | the page shown when generation throws (ErrorPageEmbedsMessage) |
| Reports.ReportsViewModel.constructor | src/org/homeunix/thecave/buddi/view/mvvm/reports/ReportsViewModel.java:37-40 | the plugins are listed and the first one selected |
| Reports.ReportsViewModel.LoadReports | src/org/homeunix/thecave/buddi/view/mvvm/reports/ReportsViewModel.java:43-50 | the list is the plugins; the first becomes the selection when there is one |
| Reports.ReportsViewModel.SelectReport | src/org/homeunix/thecave/buddi/view/mvvm/reports/ReportsViewModel.java:111-113 | the selection property takes the value |
| Reports.ReportsViewModel.ProcessHtml | src/org/homeunix/thecave/buddi/view/mvvm/reports/ReportsViewModel.java:73-95 | the loop result is every image inlined in map order; a null or empty map gives the HTML unchanged |
| Reports.ReportsViewModel.GenerateReport | src/org/homeunix/thecave/buddi/view/mvvm/reports/ReportsViewModel.java:52-71 | without a report or document nothing changes; a page is processed; a failure shows the error page |

## Left out

- 64-bit `long` wrap-around is not modelled. Net income, split totals and amounts are unbounded integers.
- `parseAmount` and the currency text of the amount field are floating-point, locale-dependent parsing. The editor's amount is the parsed amount in cents, and an empty text stands for 0.
- The from/to listeners of the transaction editor open the split dialog and reset the amount from the split total. This includes when a split transaction is loaded. They are dialog plumbing.
- `loadSources`, the transaction editor's source chooser contents, is widget feeding.
- TransactionEditing.TransactionViewModel.Save: only `Document.addTransaction` failing is modelled. Exceptions from the transaction setters are not.
- TransactionEditing.TransactionViewModel.Save: `setFromSplits`/`setToSplits` hand the editor's own list to the transaction. This aliasing is not modelled: the transaction gets a copy.
- TransactionEditing.TransactionViewModel.Save: the fresh split object is the single `Split` value.
- A null document in the transaction and scheduled view-models is not modelled. The report view-model's null document is modelled.
- SwingBudget.MyBudgetViewModel.SetSelectedDate requires a selected type, because the source dereferences it.
- SwingBudget.MyBudgetViewModel.SetSelectedBudgetPeriodType requires a remembered or current date to fall back on. Otherwise the source passes null to `getStartOfBudgetPeriod`, which is not part of this model.
- Swing `setBudgetCategoryExpanded`, the document listener and `dispose` are not modelled. The first writes a flag of the budget category object, which is not part of this model.
- JavaFX `createNewCategory`, `editCategory`, `deleteCategory` and `getBudgetCategories` are not modelled. They are dialogs and pass-through calls to the document.
- The time stamps carried by tree-changed events are left out. Events are a log (Swing) or a count (JavaFX).
- JavaFX string property notifications are left out. Only the final net income text is modelled.
- `MyAccountsViewModel.refresh` is left out: the net worth text, `Platform.runLater`, `getNetWorthValue` and `getDocument`. Net worth is computed by the document, which is not part of this model.
- An account type's expanded flag is keyed by the account type value.
- The report date range is not modelled. The `LocalDate` to `Date` conversion and the plugin run are one parameter, `getReport`.
- Image encoding is a parameter. The image map's iteration order is the order of the entry sequence.
- Renderer: for a non-array value the Swing superclass sets the text from `toString`. The model leaves the text unchanged.
- Renderer: the focus and edit handling in lines 99-104 is not modelled.
- Renderer: casts of an ill-typed value array are not modelled.
