/**
 * The JavaFX transaction register of one account
 * (`mvvm/transaction/TransactionViewModel`): the list of the account's
 * transactions, the selected one, and an editor whose fields are validated
 * and written back on save.
 */
module TransactionEditing {
  import opened Wrappers
  import opened Entities
  import opened JavaText
  import opened JavaLists

  /** The identity of a `Transaction` object. */
  type TxId = nat

  /** The fields of a `Transaction` object the register reads and writes. */
  datatype TxData = TxData(
    date: Date, description: string, amount: int,
    from: Source, to: Source, memo: string, number: string,
    fromSplits: seq<TransactionSplit>, toSplits: seq<TransactionSplit>,
    clearedFrom: bool, reconciledFrom: bool, clearedTo: bool, reconciledTo: bool)

  /** The editor properties.  `amount` is the amount in cents that the
      amount text stands for (an empty text stands for 0). */
  datatype Editor = Editor(
    date: Option<Date>, description: Option<string>, amount: int,
    from: Option<Source>, to: Option<Source>, memo: string, number: string,
    cleared: bool, reconciled: bool,
    fromSplits: seq<TransactionSplit>, toSplits: seq<TransactionSplit>)

  /** The calls the register makes on the document and the account. */
  datatype LedgerCall = AddTransaction(id: TxId) | RemoveTransaction(id: TxId) | UpdateBalance

  /* ----- validation ----- */

  datatype ValidationError =
    | BlankDescription
    | MissingDate
    | MissingFrom
    | MissingTo
    | FromSplitMismatch(splitTotal: int, amount: int)
    | ToSplitMismatch(splitTotal: int, amount: int)

  /** The message `validate` returns for an error. */
  function Message(e: ValidationError, formatCurrency: int -> string): string {
    match e
    case BlankDescription => "Description cannot be empty."
    case MissingDate => "Date cannot be empty."
    case MissingFrom => "Source (From) cannot be empty."
    case MissingTo => "Destination (To) cannot be empty."
    case FromSplitMismatch(total, amount) =>
      "From splits total (" + formatCurrency(total) + ") does not match transaction amount ("
      + formatCurrency(amount) + ")."
    case ToSplitMismatch(total, amount) =>
      "To splits total (" + formatCurrency(total) + ") does not match transaction amount ("
      + formatCurrency(amount) + ")."
  }

  /** The sum of the split amounts. */
  function SplitTotal(splits: seq<TransactionSplit>): int {
    if splits == [] then 0 else splits[0].amount + SplitTotal(splits[1..])
  }

  /** `validate`: the first failing check, or `None` when the editor is valid. */
  function Validate(e: Editor): Option<ValidationError> {
    if e.description.None? || Trim(e.description.value) == [] then Some(BlankDescription)
    else if e.date.None? then Some(MissingDate)
    else if e.from.None? then Some(MissingFrom)
    else if e.to.None? then Some(MissingTo)
    else if e.from == Some(SplitPlaceholder) && SplitTotal(e.fromSplits) != e.amount then
      Some(FromSplitMismatch(SplitTotal(e.fromSplits), e.amount))
    else if e.to == Some(SplitPlaceholder) && SplitTotal(e.toSplits) != e.amount then
      Some(ToSplitMismatch(SplitTotal(e.toSplits), e.amount))
    else None
  }

  predicate BlankText(s: Option<string>) {
    s.None? || AllBlank(s.value)
  }

  /** A split side balances: its splits add up to the amount. */
  predicate SideBalances(side: Option<Source>, splits: seq<TransactionSplit>, amount: int) {
    side == Some(SplitPlaceholder) ==> SplitTotal(splits) == amount
  }

  /** What a savable editor is, stated without the order of the checks. */
  predicate Acceptable(e: Editor) {
    !BlankText(e.description) && e.date.Some? && e.from.Some? && e.to.Some?
    && SideBalances(e.from, e.fromSplits, e.amount) && SideBalances(e.to, e.toSplits, e.amount)
  }

  /** `validate` returns null exactly for acceptable editors. */
  lemma ValidateAcceptsExactly(e: Editor)
    ensures Validate(e).None? <==> Acceptable(e)
  {
    if e.description.Some? {
      TrimEmptyIff(e.description.value);
    }
  }

  /** Each error is reported exactly when its check fails and every earlier
      check passes. */
  lemma ValidateReportsFirstFailure(e: Editor)
    ensures Validate(e) == Some(BlankDescription) <==> BlankText(e.description)
    ensures Validate(e) == Some(MissingDate) <==> !BlankText(e.description) && e.date.None?
    ensures Validate(e) == Some(MissingFrom) <==>
      !BlankText(e.description) && e.date.Some? && e.from.None?
    ensures Validate(e) == Some(MissingTo) <==>
      !BlankText(e.description) && e.date.Some? && e.from.Some? && e.to.None?
    ensures (Validate(e).Some? && Validate(e).value.FromSplitMismatch?) <==>
      !BlankText(e.description) && e.date.Some? && e.from.Some? && e.to.Some?
      && !SideBalances(e.from, e.fromSplits, e.amount)
    ensures (Validate(e).Some? && Validate(e).value.ToSplitMismatch?) <==>
      !BlankText(e.description) && e.date.Some? && e.from.Some? && e.to.Some?
      && SideBalances(e.from, e.fromSplits, e.amount) && !SideBalances(e.to, e.toSplits, e.amount)
    ensures Validate(e).Some? && Validate(e).value.FromSplitMismatch? ==>
      Validate(e).value == FromSplitMismatch(SplitTotal(e.fromSplits), e.amount)
    ensures Validate(e).Some? && Validate(e).value.ToSplitMismatch? ==>
      Validate(e).value == ToSplitMismatch(SplitTotal(e.toSplits), e.amount)
  {
    if e.description.Some? {
      TrimEmptyIff(e.description.value);
    }
  }

  /* ----- loading and saving the editor ----- */

  /** `clearEditor`'s field values; `now` stands for `new Date()`. */
  function ClearedEditor(now: Date): Editor {
    Editor(Some(now), Some(""), 0, None, None, "", "", false, false, [], [])
  }

  /** A cleared editor never validates: its description is empty. */
  lemma ClearedEditorIsRejected(now: Date)
    ensures Validate(ClearedEditor(now)) == Some(BlankDescription)
  {
    TrimEmptyIff("");
  }

  /** The side of a transaction whose cleared/reconciled flags the register
      of `account` shows: the from side when the account is the source. */
  predicate ReadsFromSide(from: Source, account: Account) {
    from == AccountSource(account)
  }

  /** `loadTransactionIntoEditor`: a split side shows the placeholder and its
      splits; the flags come from the account's side. */
  function LoadedEditor(t: TxData, account: Account): Editor {
    Editor(
      Some(t.date), Some(t.description), t.amount,
      Some(if t.from == Split then SplitPlaceholder else t.from),
      Some(if t.to == Split then SplitPlaceholder else t.to),
      t.memo, t.number,
      if ReadsFromSide(t.from, account) then t.clearedFrom else t.clearedTo,
      if ReadsFromSide(t.from, account) then t.reconciledFrom else t.reconciledTo,
      if t.from == Split then t.fromSplits else [],
      if t.to == Split then t.toSplits else [])
  }

  /** The source stored for a chosen one: the placeholder becomes a new split. */
  function ActualSource(s: Source): Source {
    if s == SplitPlaceholder then Split else s
  }

  /** The editor holds everything a save writes. */
  predicate Complete(e: Editor) {
    e.date.Some? && e.description.Some? && e.from.Some? && e.to.Some?
  }

  /** The fields of `base` after `save` writes the editor into it. */
  function SavedData(e: Editor, base: TxData, account: Account): TxData
    requires Complete(e)
  {
    var from := ActualSource(e.from.value);
    var to := ActualSource(e.to.value);
    var fromSide := ReadsFromSide(from, account);
    base.(date := e.date.value, description := e.description.value, amount := e.amount,
          from := from, to := to, memo := e.memo, number := e.number,
          fromSplits := if from == Split then e.fromSplits else base.fromSplits,
          toSplits := if to == Split then e.toSplits else base.toSplits,
          clearedFrom := if fromSide then e.cleared else base.clearedFrom,
          reconciledFrom := if fromSide then e.reconciled else base.reconciledFrom,
          clearedTo := if fromSide then base.clearedTo else e.cleared,
          reconciledTo := if fromSide then base.reconciledTo else e.reconciled)
  }

  /** Save writes the flags to the side load reads them from, and leaves the
      other side's flags alone. */
  lemma SaveWritesTheSideLoadReads(e: Editor, base: TxData, account: Account)
    requires Complete(e)
    ensures var t := SavedData(e, base, account);
      LoadedEditor(t, account).cleared == e.cleared
      && LoadedEditor(t, account).reconciled == e.reconciled
    ensures var t := SavedData(e, base, account);
      if e.from == Some(AccountSource(account))
      then t.clearedTo == base.clearedTo && t.reconciledTo == base.reconciledTo
      else t.clearedFrom == base.clearedFrom && t.reconciledFrom == base.reconciledFrom
  {
  }

  /** Saving an unedited editor back into the transaction it was loaded from
      changes nothing (a stored transaction never holds the editor's own
      placeholder). */
  lemma LoadThenSaveIsIdentity(t: TxData, account: Account)
    requires t.from != SplitPlaceholder && t.to != SplitPlaceholder
    ensures Complete(LoadedEditor(t, account))
    ensures SavedData(LoadedEditor(t, account), t, account) == t
  {
  }

  /** Loading what a save wrote gives the editor back, when no split list is
      kept for a side that is not split. */
  lemma SaveThenLoadIsIdentity(e: Editor, base: TxData, account: Account)
    requires Complete(e)
    requires e.from != Some(Split) && e.to != Some(Split)
    requires e.from != Some(SplitPlaceholder) ==> e.fromSplits == []
    requires e.to != Some(SplitPlaceholder) ==> e.toSplits == []
    ensures LoadedEditor(SavedData(e, base, account), account) == e
  {
  }

  /* ----- the transaction list ----- */

  /** The transaction has the account at either end. */
  predicate Involves(t: TxData, account: Account) {
    t.from == AccountSource(account) || t.to == AccountSource(account)
  }

  /** `loadTransactions`: the document's transactions that involve the
      account, in document order. */
  function AccountTransactions(ids: seq<TxId>, store: map<TxId, TxData>, account: Account): seq<TxId> {
    Filter(ids, id => id in store && Involves(store[id], account))
  }

  /** The list holds exactly the involving transactions, and loading a
      longer document appends to the list. */
  lemma AccountTransactionsExactly(ids: seq<TxId>, more: seq<TxId>, store: map<TxId, TxData>,
                                   account: Account, id: TxId)
    requires forall i :: i in ids ==> i in store
    ensures id in AccountTransactions(ids, store, account) <==> id in ids && Involves(store[id], account)
    ensures AccountTransactions(ids + more, store, account)
      == AccountTransactions(ids, store, account) + AccountTransactions(more, store, account)
  {
    FilterMembers(ids, id => id in store && Involves(store[id], account), id);
    FilterAppend(ids, more, id => id in store && Involves(store[id], account));
  }

  /** Every listed transaction has its fields in the store. */
  lemma AccountTransactionsStored(ids: seq<TxId>, store: map<TxId, TxData>, account: Account)
    ensures forall id :: id in AccountTransactions(ids, store, account) ==> id in store
  {
    forall id | id in AccountTransactions(ids, store, account)
      ensures id in store
    {
      FilterMembers(ids, id => id in store && Involves(store[id], account), id);
    }
  }

  /** The view-model.  `store` holds the fields of every transaction object;
      the document's own list is not part of this model, only the calls made
      on it (`calls`). */
  class TransactionViewModel {
    const account: Account
    /** `ModelFactory.createTransaction`. */
    const createTransaction: (Date, string, int, Source, Source) -> TxData

    var store: map<TxId, TxData>
    var transactions: seq<TxId>
    var selected: Option<TxId>
    var editor: Editor
    var calls: seq<LedgerCall>

    predicate Valid()
      reads this
    {
      (forall id :: id in transactions ==> id in store)
      && (selected.Some? ==> selected.value in store)
    }

    constructor (documentTransactions: seq<TxId>, store: map<TxId, TxData>, account: Account,
                 createTransaction: (Date, string, int, Source, Source) -> TxData, now: Date)
      ensures Valid()
      ensures this.account == account && this.createTransaction == createTransaction
      ensures this.store == store
      ensures transactions == AccountTransactions(documentTransactions, store, account)
      ensures selected == None && editor == ClearedEditor(now) && calls == []
    {
      this.account := account;
      this.createTransaction := createTransaction;
      this.store := store;
      selected := None;
      editor := ClearedEditor(now);
      calls := [];
      new;
      LoadTransactions(documentTransactions);
    }

    method LoadTransactions(documentTransactions: seq<TxId>)
      modifies this`transactions
      ensures transactions == AccountTransactions(documentTransactions, store, account)
      ensures forall id :: id in transactions ==> id in store
    {
      transactions := AccountTransactions(documentTransactions, store, account);
      AccountTransactionsStored(documentTransactions, store, account);
    }

    /** `clearEditor`, together with the selection listener it triggers. */
    method ClearEditor(now: Date)
      modifies this`editor, this`selected
      ensures editor == ClearedEditor(now) && selected == None
    {
      editor := ClearedEditor(now);
      selected := None;
    }

    /** `selectedTransaction.set(t)` and its listener: a new selection loads
        that transaction, no selection clears the editor. */
    method Select(t: Option<TxId>, now: Date)
      requires Valid()
      requires t.Some? ==> t.value in store
      modifies this`editor, this`selected
      ensures Valid() && selected == t
      ensures t == old(selected) ==> editor == old(editor)
      ensures t != old(selected) && t.Some? ==> editor == LoadedEditor(store[t.value], account)
      ensures t != old(selected) && t.None? ==> editor == ClearedEditor(now)
    {
      if t == selected {
        return;
      }
      selected := t;
      if t.Some? {
        editor := LoadedEditor(store[t.value], account);
      } else {
        ClearEditor(now);
      }
    }

    /** `createNewTransaction`: a cleared editor paying from this account. */
    method CreateNewTransaction(now: Date)
      modifies this`editor, this`selected
      ensures editor == ClearedEditor(now).(from := Some(AccountSource(account)))
      ensures selected == None
    {
      ClearEditor(now);
      editor := editor.(from := Some(AccountSource(account)));
    }

    /** `delete`: removes the selected transaction from the document and the
        list, clears the editor and updates the balance.  `removeFails` says
        that `Document.removeTransaction` throws, which leaves everything as
        it was. */
    method Delete(removeFails: bool, now: Date)
      requires Valid()
      modifies this`editor, this`selected, this`transactions, this`calls
      ensures Valid()
      ensures old(selected).None? || removeFails ==>
        editor == old(editor) && selected == old(selected)
        && transactions == old(transactions) && calls == old(calls)
      ensures old(selected).Some? && !removeFails ==>
        transactions == RemoveFirst(old(transactions), old(selected).value)
        && calls == old(calls) + [RemoveTransaction(old(selected).value), UpdateBalance]
        && editor == ClearedEditor(now) && selected == None
    {
      if selected.None? || removeFails {
        return;
      }
      var t := selected.value;
      calls := calls + [RemoveTransaction(t)];
      RemoveFirstCount(transactions, t);
      ghost var before := transactions;
      transactions := RemoveFirst(transactions, t);
      assert forall id :: id in transactions ==> id in before by {
        forall id | id in transactions
          ensures id in before
        {
          assert id in multiset(transactions);
        }
      }
      ClearEditor(now);
      calls := calls + [UpdateBalance];
    }

    /** `save`: nothing happens unless the editor validates.  A new
        transaction (nothing selected) is created as `freshId`, added to the
        document, appended to the list and selected; an existing one is
        overwritten in place and keeps its list position.  `addFails` says
        that `Document.addTransaction` throws. */
    method Save(freshId: TxId, addFails: bool) returns (ok: bool)
      requires Valid()
      requires freshId !in store
      modifies this`store, this`transactions, this`selected, this`editor, this`calls
      ensures Valid()
      ensures Validate(old(editor)).Some? ==> !ok
      ensures !ok ==>
        store == old(store) && transactions == old(transactions) && selected == old(selected)
        && editor == old(editor) && calls == old(calls)
      ensures ok <==> Validate(old(editor)).None? && (old(selected).Some? || !addFails)
      ensures ok && old(selected).None? ==>
        var e := old(editor);
        var created := createTransaction(e.date.value, e.description.value, e.amount,
                                         ActualSource(e.from.value), ActualSource(e.to.value));
        store == old(store)[freshId := SavedData(e, created, account)]
        && transactions == old(transactions) + [freshId]
        && selected == Some(freshId)
        && editor == LoadedEditor(store[freshId], account)
        && calls == old(calls) + [AddTransaction(freshId), UpdateBalance]
      ensures ok && old(selected).Some? ==>
        var id := old(selected).value;
        store == old(store)[id := SavedData(old(editor), old(store)[id], account)]
        && transactions == old(transactions) && selected == old(selected)
        && editor == old(editor)
        && calls == old(calls) + [UpdateBalance]
    {
      if Validate(editor).Some? {
        return false;
      }
      var actualFrom := ActualSource(editor.from.value);
      var actualTo := ActualSource(editor.to.value);
      if selected.None? {
        var created := createTransaction(editor.date.value, editor.description.value, editor.amount,
                                         actualFrom, actualTo);
        if addFails {
          return false;
        }
        calls := calls + [AddTransaction(freshId)];
        store := store[freshId := SavedData(editor, created, account)];
        transactions := transactions + [freshId];
        selected := Some(freshId);
        editor := LoadedEditor(store[freshId], account);
      } else {
        var id := selected.value;
        store := store[id := SavedData(editor, store[id], account)];
        var index := IndexOf(transactions, id);
        if index >= 0 {
          transactions := transactions[index := id];
        }
      }
      calls := calls + [UpdateBalance];
      return true;
    }
  }
}
