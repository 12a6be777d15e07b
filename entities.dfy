/**
 * The model objects the view-models handle.  The ledger classes themselves
 * (Document, BudgetCategory, Transaction, FilteredLists, ModelFactory) are not
 * part of this model: only the values the view-models read from them appear
 * here, and their behaviour enters as function parameters.
 */
module Entities {
  import opened Wrappers

  /** A `java.util.Date`: an instant in milliseconds; two dates are equal
      when they denote the same instant. */
  type Date = int

  /** A budget period type (week, month, ...).  Distinct types may share a
      name; the period memory is keyed by the name. */
  datatype PeriodType = PeriodType(name: string, ordinal: nat)

  /** A budget category as the view-models see it: an identity and its
      income/expense flag. */
  datatype Category = Category(uid: string, isIncome: bool)

  /** An account type (its expanded flag lives with the account list). */
  datatype AccountType = AccountType(name: string, isCredit: bool)

  /** An account: identity, type and soft-deletion flag. */
  datatype Account = Account(uid: string, accountType: AccountType, deleted: bool)

  /** A transaction end point.  `Split` is the model's split marker (a side
      broken into splits); `SplitPlaceholder` is the editor's own "Split"
      entry in the source chooser. */
  datatype Source =
    | AccountSource(account: Account)
    | CategorySource(category: Category)
    | Split
    | SplitPlaceholder

  /** A `TransactionSplit`: a real source and an amount in cents. */
  datatype TransactionSplit = TransactionSplit(source: Source, amount: int)

  /** One selected row of a tree table: any object the tree shows; `OtherRow`
      covers everything else, `null` included. */
  datatype RowValue =
    | AccountRow(account: Account)
    | AccountTypeRow(accountType: AccountType)
    | CategoryRow(category: Category)
    | OtherRow

  /** What the budget view-models read from the document:
      `ofType` is `FilteredLists.BudgetCategoryListFilteredByPeriodType`,
      `amountAt` is `BudgetCategory.getAmount(Date)`. */
  datatype BudgetBook = BudgetBook(
    ofType: PeriodType -> seq<Category>,
    amountAt: (Category, Date) -> int)

  /** `Collect` pickers for the `instanceof` tests of the selection helpers. */
  function AsAccount(v: RowValue): Option<Account> {
    if v.AccountRow? then Some(v.account) else None
  }

  function AsAccountType(v: RowValue): Option<AccountType> {
    if v.AccountTypeRow? then Some(v.accountType) else None
  }

  function AsCategory(v: RowValue): Option<Category> {
    if v.CategoryRow? then Some(v.category) else None
  }
}
