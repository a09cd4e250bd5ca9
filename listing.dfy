/** The listings of a user's currencies and accounts, each narrowed to one
    type name when the filter names one (`Model.getCurrencies`,
    `Model.getAccounts`). */
module Listing {

  import opened Wrappers
  import opened Sql
  import opened Records

  /** The currency listing up to its `WHERE` clause. */
  const CurrencyFrom: string :=
    "SELECT currencies.id, code, "
    + "currencies.name, "
    + "currency_types.name "
    + "FROM currencies "
    + "JOIN currency_types "
    + "ON currencies.type = "
    + "currency_types.id "

  /** The currency listing up to and including the owner's placeholder. */
  const CurrencySelect: string := CurrencyFrom + "WHERE user_id = ?"

  /** The account listing up to its `WHERE` clause. */
  const AccountFrom: string :=
    "SELECT accounts.id, "
    + "account_types.name, "
    + "accounts.name "
    + "FROM accounts "
    + "JOIN account_types "
    + "ON accounts.type = "
    + "account_types.id "

  /** The account listing up to and including the owner's placeholder. */
  const AccountSelect: string := AccountFrom + "WHERE accounts.user_id = ?"

  const CurrencyTypeCondition: string := " AND currency_types.name = ?"
  const AccountTypeCondition: string := " AND account_types.name = ?"

  /** The statement listing the currencies of `userId`, of type
      `filter.typeName` when that is set. */
  function CurrencyListing(filter: Currency, userId: int): Statement
  {
    if filter.typeName.Some?
    then Statement(CurrencySelect + CurrencyTypeCondition, [PInt(userId), PStr(filter.typeName.value)])
    else Statement(CurrencySelect, [PInt(userId)])
  }

  /** The statement listing the accounts of `userId`, of type
      `filter.typeName` when that is set. */
  function AccountListing(filter: Account, userId: int): Statement
  {
    if filter.typeName.Some?
    then Statement(AccountSelect + AccountTypeCondition, [PInt(userId), PStr(filter.typeName.value)])
    else Statement(AccountSelect, [PInt(userId)])
  }

  lemma CurrencyFromHasNoMarks()
    ensures '?' !in CurrencyFrom
  {
    CurrencyFromPiece1();
    CurrencyFromPiece2();
    CurrencyFromPiece3();
    CurrencyFromPiece4();
    CurrencyFromPiece5();
    CurrencyFromPiece6();
    CurrencyFromPiece7();
  }

  lemma CurrencyFromPiece1() ensures '?' !in "SELECT currencies.id, code, " {}

  lemma CurrencyFromPiece2() ensures '?' !in "currencies.name, " {}

  lemma CurrencyFromPiece3() ensures '?' !in "currency_types.name " {}

  lemma CurrencyFromPiece4() ensures '?' !in "FROM currencies " {}

  lemma CurrencyFromPiece5() ensures '?' !in "JOIN currency_types " {}

  lemma CurrencyFromPiece6() ensures '?' !in "ON currencies.type = " {}

  lemma CurrencyFromPiece7() ensures '?' !in "currency_types.id " {}

  lemma CurrencySelectHasOneMark()
    ensures Placeholders(CurrencySelect) == 1
  {
    CurrencyFromHasNoMarks();
    NoMarks(CurrencyFrom);
    assert "WHERE user_id = ?" == "WHERE user_id = " + "?";
    SingleMarkClause("WHERE user_id = ", PInt(0));
    PlaceholdersAdditive(CurrencyFrom, "WHERE user_id = ?");
  }

  lemma AccountFromHasNoMarks()
    ensures '?' !in AccountFrom
  {
    AccountFromPiece1();
    AccountFromPiece2();
    AccountFromPiece3();
    AccountFromPiece4();
    AccountFromPiece5();
    AccountFromPiece6();
    AccountFromPiece7();
  }

  lemma AccountFromPiece1() ensures '?' !in "SELECT accounts.id, " {}

  lemma AccountFromPiece2() ensures '?' !in "account_types.name, " {}

  lemma AccountFromPiece3() ensures '?' !in "accounts.name " {}

  lemma AccountFromPiece4() ensures '?' !in "FROM accounts " {}

  lemma AccountFromPiece5() ensures '?' !in "JOIN account_types " {}

  lemma AccountFromPiece6() ensures '?' !in "ON accounts.type = " {}

  lemma AccountFromPiece7() ensures '?' !in "account_types.id " {}

  lemma AccountSelectHasOneMark()
    ensures Placeholders(AccountSelect) == 1
  {
    AccountFromHasNoMarks();
    NoMarks(AccountFrom);
    assert "WHERE accounts.user_id = ?" == "WHERE accounts.user_id = " + "?";
    SingleMarkClause("WHERE accounts.user_id = ", PInt(0));
    PlaceholdersAdditive(AccountFrom, "WHERE accounts.user_id = ?");
  }

  /** Every currency listing binds one value per placeholder: the owner, then
      the type name exactly when the filter has one. */
  lemma CurrencyListingBalanced(filter: Currency, userId: int)
    ensures Balanced(CurrencyListing(filter, userId))
    ensures |CurrencyListing(filter, userId).params| == if filter.typeName.Some? then 2 else 1
  {
    CurrencySelectHasOneMark();
    assert CurrencyTypeCondition == " AND currency_types.name = " + "?";
    SingleMarkClause(" AND currency_types.name = ", PInt(0));
    PlaceholdersAdditive(CurrencySelect, CurrencyTypeCondition);
  }

  /** Every account listing binds one value per placeholder: the owner, then
      the type name exactly when the filter has one. */
  lemma AccountListingBalanced(filter: Account, userId: int)
    ensures Balanced(AccountListing(filter, userId))
    ensures |AccountListing(filter, userId).params| == if filter.typeName.Some? then 2 else 1
  {
    AccountSelectHasOneMark();
    assert AccountTypeCondition == " AND account_types.name = " + "?";
    SingleMarkClause(" AND account_types.name = ", PInt(0));
    PlaceholdersAdditive(AccountSelect, AccountTypeCondition);
  }

  /** `getCurrencies`: the optional type condition is appended to the query
      and its value bound second; the rows are whatever the store returns. */
  method GetCurrencies(filter: Currency, userId: int, store: Store)
    returns (issued: Statement, currencies: seq<Currency>)
    ensures issued == CurrencyListing(filter, userId)
    ensures Balanced(issued)
    ensures currencies == store.currencyRows(issued)
  {
    var query := CurrencySelect;
    if filter.typeName.Some? {
      query := query + CurrencyTypeCondition;
    }
    var values := [PInt(userId)];
    if filter.typeName.Some? {
      values := values + [PStr(filter.typeName.value)];
    }
    issued := Statement(query, values);
    CurrencyListingBalanced(filter, userId);
    currencies := store.currencyRows(issued);
  }

  /** `getAccounts`: the optional type condition is appended to the query
      and its value bound second; the rows are whatever the store returns. */
  method GetAccounts(filter: Account, userId: int, store: Store)
    returns (issued: Statement, accounts: seq<Account>)
    ensures issued == AccountListing(filter, userId)
    ensures Balanced(issued)
    ensures accounts == store.accountRows(issued)
  {
    var query := AccountSelect;
    if filter.typeName.Some? {
      query := query + AccountTypeCondition;
    }
    var values := [PInt(userId)];
    if filter.typeName.Some? {
      values := values + [PStr(filter.typeName.value)];
    }
    issued := Statement(query, values);
    AccountListingBalanced(filter, userId);
    accounts := store.accountRows(issued);
  }
}
