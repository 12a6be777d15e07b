/**
 * The account list view-model (`viewmodel/MyAccountsViewModel`): the
 * queries the account tree is built from and the selection helpers.
 */
module MyAccounts {
  import opened Wrappers
  import opened Entities
  import opened JavaLists

  /** The accounts of one type. */
  function OfType(accounts: seq<Account>, t: AccountType): seq<Account> {
    Filter(accounts, (a: Account) => a.accountType == t)
  }

  /** `getAccounts(type)` lists exactly the accounts of that type, deleted
      ones included, and keeps document order (it distributes over
      concatenation). */
  lemma OfTypeExactly(accounts: seq<Account>, more: seq<Account>, t: AccountType, a: Account)
    ensures a in OfType(accounts, t) <==> a in accounts && a.accountType == t
    ensures OfType(accounts + more, t) == OfType(accounts, t) + OfType(more, t)
  {
    FilterMembers(accounts, (a: Account) => a.accountType == t, a);
    FilterAppend(accounts, more, (a: Account) => a.accountType == t);
  }

  /** The selection helpers keep exactly the rows of the wanted kind. */
  lemma SelectedRowsExactly(rows: seq<RowValue>, a: Account, t: AccountType)
    ensures a in Collect(rows, AsAccount) <==> AccountRow(a) in rows
    ensures t in Collect(rows, AsAccountType) <==> AccountTypeRow(t) in rows
  {
    CollectMembers(rows, AsAccount, a);
    CollectMembers(rows, AsAccountType, t);
    if AccountRow(a) in rows {
      var i :| 0 <= i < |rows| && rows[i] == AccountRow(a);
      assert AsAccount(rows[i]) == Some(a);
    }
    if AccountTypeRow(t) in rows {
      var i :| 0 <= i < |rows| && rows[i] == AccountTypeRow(t);
      assert AsAccountType(rows[i]) == Some(t);
    }
  }

  /** The view-model over the document's account and account type lists;
      `expanded` holds each account type's expanded flag. */
  class MyAccountsViewModel {
    const accounts: seq<Account>
    const accountTypes: seq<AccountType>
    var expanded: map<AccountType, bool>

    constructor (accounts: seq<Account>, accountTypes: seq<AccountType>, expanded: map<AccountType, bool>)
      ensures this.accounts == accounts && this.accountTypes == accountTypes
      ensures this.expanded == expanded
    {
      this.accounts := accounts;
      this.accountTypes := accountTypes;
      this.expanded := expanded;
    }

    /** `getAccountTypes`: the document's own list. */
    method GetAccountTypes() returns (types: seq<AccountType>)
      ensures types == accountTypes
    {
      types := accountTypes;
    }

    /** `getAccounts(type)`. */
    method GetAccounts(t: AccountType) returns (r: seq<Account>)
      ensures r == OfType(accounts, t)
    {
      r := [];
      var i := 0;
      while i < |accounts|
        invariant 0 <= i <= |accounts|
        invariant r == OfType(accounts[..i], t)
      {
        FilterAppend(accounts[..i], [accounts[i]], (a: Account) => a.accountType == t);
        assert accounts[..i + 1] == accounts[..i] + [accounts[i]];
        if accounts[i].accountType == t {
          r := r + [accounts[i]];
        }
        i := i + 1;
      }
      assert accounts[..i] == accounts;
    }

    /** `setAccountTypeExpanded`: only that type's flag changes. */
    method SetAccountTypeExpanded(t: AccountType, value: bool)
      modifies this`expanded
      ensures expanded == old(expanded)[t := value]
    {
      expanded := expanded[t := value];
    }

    /** `getSelectedAccounts`: the accounts among the selected rows, in
        order; none for a null selection. */
    method GetSelectedAccounts(rowValues: Option<seq<RowValue>>) returns (r: seq<Account>)
      ensures rowValues.None? ==> r == []
      ensures rowValues.Some? ==> r == Collect(rowValues.value, AsAccount)
    {
      r := [];
      if rowValues.None? {
        return;
      }
      var values := rowValues.value;
      for i := 0 to |values|
        invariant r == Collect(values[..i], AsAccount)
      {
        CollectAppend(values[..i], [values[i]], AsAccount);
        assert values[..i + 1] == values[..i] + [values[i]];
        if values[i].AccountRow? {
          r := r + [values[i].account];
        }
      }
      assert values[..|values|] == values;
    }

    /** `getSelectedAccountTypes`: the account types among the selected
        rows, in order; none for a null selection. */
    method GetSelectedAccountTypes(rowValues: Option<seq<RowValue>>) returns (r: seq<AccountType>)
      ensures rowValues.None? ==> r == []
      ensures rowValues.Some? ==> r == Collect(rowValues.value, AsAccountType)
    {
      r := [];
      if rowValues.None? {
        return;
      }
      var values := rowValues.value;
      for i := 0 to |values|
        invariant r == Collect(values[..i], AsAccountType)
      {
        CollectAppend(values[..i], [values[i]], AsAccountType);
        assert values[..i + 1] == values[..i] + [values[i]];
        if values[i].AccountTypeRow? {
          r := r + [values[i].accountType];
        }
      }
      assert values[..|values|] == values;
    }
  }
}
