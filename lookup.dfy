/** Resolving a human-readable name or code to an id (`Model.find*Id`):
    a linear scan of a listing that returns the id of the first row whose
    name or code equals the argument, and throws when none does. */
module Lookup {

  import opened Wrappers
  import opened Sql
  import opened Records
  import opened Listing

  /** `getCurrencyTypes`: every row of `currency_types`. */
  const CurrencyTypesQuery: Statement := Statement("SELECT id, name FROM currency_types", [])

  /** `getAccountTypes`: every row of `account_types`. */
  const AccountTypesQuery: Statement := Statement("SELECT id, name FROM account_types", [])

  /** The scan stops at a row whose key field is `field`: there
      `field.equals(key)` either throws (the field is null) or holds. Note
      that `equals(null)` is false, so a null key matches no row. */
  predicate Stops(field: Option<string>, key: Option<string>)
  {
    field.None? || field == key
  }

  /** The index of the first row at which the scan stops, or `|rows|`. */
  function FirstStop<T>(rows: seq<T>, field: T -> Option<string>, key: Option<string>): (k: nat)
    ensures k <= |rows|
    ensures k < |rows| ==> Stops(field(rows[k]), key)
    ensures forall j :: 0 <= j < k ==> !Stops(field(rows[j]), key)
  {
    if rows == [] then 0
    else if Stops(field(rows[0]), key) then 0
    else 1 + FirstStop(rows[1..], field, key)
  }

  /** The outcome of a find method over `rows`: the id of the first row
      whose key field equals `key`, a `NullPointerException` when a row
      with a null key field comes first, or the not-found exception. */
  function Scan<T>(rows: seq<T>, field: T -> Option<string>, id: T -> int, key: Option<string>, notFound: string): Result<int>
  {
    var k := FirstStop(rows, field, key);
    if k == |rows| then Failure(Exception(notFound))
    else if field(rows[k]).None? then Failure(NullPointerException)
    else Success(id(rows[k]))
  }

  /** Over rows whose key fields are all set, the scan succeeds exactly when
      some row's key equals `key`, and then with the id of the first such
      row; otherwise it throws the not-found exception. */
  lemma ScanFindsFirstMatch<T>(rows: seq<T>, field: T -> Option<string>, id: T -> int, key: Option<string>, notFound: string)
    requires forall j :: 0 <= j < |rows| ==> field(rows[j]).Some?
    ensures Scan(rows, field, id, key, notFound).Success? <==>
              exists i :: 0 <= i < |rows| && field(rows[i]) == key
    ensures Scan(rows, field, id, key, notFound).Success? ==>
              exists i :: 0 <= i < |rows| && field(rows[i]) == key
                && Scan(rows, field, id, key, notFound).value == id(rows[i])
                && forall j :: 0 <= j < i ==> field(rows[j]) != key
    ensures Scan(rows, field, id, key, notFound).Failure? ==>
              Scan(rows, field, id, key, notFound).error == Exception(notFound)
  {
    var k := FirstStop(rows, field, key);
    if k < |rows| {
      assert field(rows[k]) == key;
    }
  }

  function CurrencyTypeIdOf(store: Store, typeName: Option<string>): Result<int>
  {
    Scan(store.currencyTypeRows(CurrencyTypesQuery), (ct: CurrencyType) => ct.name,
         (ct: CurrencyType) => ct.id, typeName, "Currency type not found.")
  }

  function AccountTypeIdOf(store: Store, typeName: Option<string>): Result<int>
  {
    Scan(store.accountTypeRows(AccountTypesQuery), (at: AccountType) => at.name,
         (at: AccountType) => at.id, typeName, "Account type not found.")
  }

  function CurrencyIdOf(store: Store, userId: int, code: Option<string>): Result<int>
  {
    Scan(store.currencyRows(CurrencyListing(BlankCurrency, userId)), (c: Currency) => c.code,
         (c: Currency) => c.id, code, "Currency code not found.")
  }

  function AccountIdOf(store: Store, userId: int, name: Option<string>): Result<int>
  {
    Scan(store.accountRows(AccountListing(BlankAccount, userId)), (a: Account) => a.name,
         (a: Account) => a.id, name, "Account id not found.")
  }

  /** `findCurrencyTypeId`. */
  method FindCurrencyTypeId(typeName: Option<string>, store: Store) returns (r: Result<int>)
    ensures r == CurrencyTypeIdOf(store, typeName)
  {
    var cts := store.currencyTypeRows(CurrencyTypesQuery);
    ghost var field := (ct: CurrencyType) => ct.name;
    for i := 0 to |cts|
      invariant forall j :: 0 <= j < i ==> !Stops(cts[j].name, typeName)
    {
      var ct := cts[i];
      if ct.name.None? {
        assert FirstStop(cts, field, typeName) == i;
        return Failure(NullPointerException);
      }
      if ct.name == typeName {
        assert FirstStop(cts, field, typeName) == i;
        return Success(ct.id);
      }
    }
    assert FirstStop(cts, field, typeName) == |cts|;
    return Failure(Exception("Currency type not found."));
  }

  /** `findAccountTypeId`. */
  method FindAccountTypeId(typeName: Option<string>, store: Store) returns (r: Result<int>)
    ensures r == AccountTypeIdOf(store, typeName)
  {
    var ats := store.accountTypeRows(AccountTypesQuery);
    ghost var field := (at: AccountType) => at.name;
    for i := 0 to |ats|
      invariant forall j :: 0 <= j < i ==> !Stops(ats[j].name, typeName)
    {
      var at := ats[i];
      if at.name.None? {
        assert FirstStop(ats, field, typeName) == i;
        return Failure(NullPointerException);
      }
      if at.name == typeName {
        assert FirstStop(ats, field, typeName) == i;
        return Success(at.id);
      }
    }
    assert FirstStop(ats, field, typeName) == |ats|;
    return Failure(Exception("Account type not found."));
  }

  /** `findCurrencyId`: scans every currency of the user, listed with a
      blank filter. */
  method FindCurrencyId(code: Option<string>, userId: int, store: Store) returns (r: Result<int>)
    ensures r == CurrencyIdOf(store, userId, code)
  {
    var _, currencies := GetCurrencies(BlankCurrency, userId, store);
    ghost var field := (c: Currency) => c.code;
    for i := 0 to |currencies|
      invariant forall j :: 0 <= j < i ==> !Stops(currencies[j].code, code)
    {
      var c := currencies[i];
      if c.code.None? {
        assert FirstStop(currencies, field, code) == i;
        return Failure(NullPointerException);
      }
      if c.code == code {
        assert FirstStop(currencies, field, code) == i;
        return Success(c.id);
      }
    }
    assert FirstStop(currencies, field, code) == |currencies|;
    return Failure(Exception("Currency code not found."));
  }

  /** `findAccountId`: scans every account of the user, listed with a blank
      filter. */
  method FindAccountId(name: Option<string>, userId: int, store: Store) returns (r: Result<int>)
    ensures r == AccountIdOf(store, userId, name)
  {
    var _, accounts := GetAccounts(BlankAccount, userId, store);
    ghost var field := (a: Account) => a.name;
    for i := 0 to |accounts|
      invariant forall j :: 0 <= j < i ==> !Stops(accounts[j].name, name)
    {
      var a := accounts[i];
      if a.name.None? {
        assert FirstStop(accounts, field, name) == i;
        return Failure(NullPointerException);
      }
      if a.name == name {
        assert FirstStop(accounts, field, name) == i;
        return Success(a.id);
      }
    }
    assert FirstStop(accounts, field, name) == |accounts|;
    return Failure(Exception("Account id not found."));
  }
}
