/** The records the data-access layer passes around. Every Java `String`
    field may be `null` and is an `Option<string>`; `int` fields are `int`;
    amounts are opaque decimals. The same record serves as a row read back
    from the store, as a filter and as a patch, as in the source. */
module Records {

  import opened Wrappers
  import opened Sql

  /** A row of `currency_types`. */
  datatype CurrencyType = CurrencyType(id: int, name: Option<string>)

  /** A row of `account_types`. */
  datatype AccountType = AccountType(id: int, name: Option<string>)

  datatype Currency = Currency(
    id: int,
    code: Option<string>,
    name: Option<string>,
    typeName: Option<string>)

  datatype Account = Account(id: int, typeName: Option<string>, name: Option<string>)

  /** The filter of a transaction listing; every field is optional. */
  datatype TxFilter = TxFilter(
    minDate: Option<string>,
    maxDate: Option<string>,
    minAmount: Option<Decimal>,
    maxAmount: Option<Decimal>,
    currency: Option<string>,
    debit: Option<string>,
    credit: Option<string>,
    account: Option<string>,
    commentHas: Option<string>)

  /** A transaction; `currency` is a currency code and `debit` and `credit`
      are account names. */
  datatype Transaction = Transaction(
    id: int,
    date: Option<string>,
    amount: Option<Decimal>,
    currency: Option<string>,
    debit: Option<string>,
    credit: Option<string>,
    comment: Option<string>)

  /** `new Currency()`: id 0, every string field null. */
  const BlankCurrency: Currency := Currency(0, None, None, None)

  /** `new Account()`: id 0, every string field null. */
  const BlankAccount: Account := Account(0, None, None)

  /** The database, seen only through the answers it gives to statements.
      Each field answers one kind of call: the rows of a query, the first
      column of the row an `UPDATE ... RETURNING` gives back (`None` when no
      row matched or the column is null), the key or id an
      `INSERT ... RETURNING` gives back, and the count `executeUpdate`
      reports. */
  datatype Store = Store(
    currencyTypeRows: Statement -> seq<CurrencyType>,
    accountTypeRows: Statement -> seq<AccountType>,
    currencyRows: Statement -> seq<Currency>,
    accountRows: Statement -> seq<Account>,
    transactionRows: Statement -> seq<Transaction>,
    updatedKey: Statement -> Option<string>,
    insertedKey: Statement -> Option<string>,
    insertedId: Statement -> int,
    affectedRows: Statement -> int)

  /** What a write did: the `UPDATE` or `INSERT` it issued, if it got that
      far, and what it returned or threw. The listing `SELECT`s its lookups
      issue first are not recorded here. */
  datatype Outcome<+T> = Outcome(issued: Option<Statement>, result: Result<T>)
}
