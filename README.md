# debo: a verified model of the ledger's data-access core

debo is a small double-entry bookkeeping service. A user keeps currencies,
accounts and transactions, and each transaction moves an amount of one
currency from a debit account to a credit account. This project models the
data-access layer (`Model`) that reads and writes these records through
prepared SQL statements. It also models the argument checks in `Logic`
that run before that layer is called, and the `DeboException` error
report.

## What is modelled

- **Statements** (`Sql`): a query text with `?` placeholders and the
  values bound to them. The property proved about every statement the
  model issues is `Balanced`: the text has exactly as many placeholders as
  values are bound.
- **The database** (`Records.Store`): an oracle. It is a set of total
  functions from a statement to the rows a query returns, the key an
  `UPDATE … RETURNING` gives back, the id an `INSERT … RETURNING` gives
  back, or the count `executeUpdate` reports. Each operation is proved to
  issue one exact listing, `UPDATE`, `DELETE` or `INSERT` and to turn the
  oracle's answer into its result. The name lookups an update or insert
  makes first each issue their own listing `SELECT` (`Lookup`).
- **Nulls and exceptions.** Java `null` is `Option`. A thrown exception is
  a `Result` failure carrying `Thrown`, which is a plain `Exception` with
  its message, a `NullPointerException`, or a `NumberFormatException`.
  For a write, `Outcome` records the `UPDATE` or `INSERT` it issued, if it
  got that far past its lookups, and what it returned or threw.
- **Listings** (`Listing`, `TransactionListing`): the currency and account
  listings, with an optional type condition. The transaction listing
  builds its filter one block at a time: conditions joined by `" AND "`,
  in a fixed field order, one for each filter field that is set.
- **Lookups** (`Lookup`): the four `find*Id` loops. Each returns the id of
  the first row whose name or code equals the argument. It throws a
  not-found exception when no row matches, and a `NullPointerException`
  when it reaches a row whose key is null first.
- **Updates** (`Patch`): `SET` lists built from the fields a patch
  carries, separated by `", "`. Referenced names are resolved to ids. The
  not-found checks follow: on the returned key for currencies and
  accounts, and on the affected-row count for transactions.
- **Deletions** (`Removal`) and **transaction insertion** (`Insert`). The
  insert has a column list that depends on the optional date and comment.
  Its values are bound at positions shifted by an offset.
- **Guards** (`Guards`): the checks `Logic` makes before it calls `Model`,
  and `Integer.valueOf`.
- **Errors** (`Errors`): the status and message tables, the two
  constructors, and `toMap`.

Some behaviour of the code worth knowing:
- The date and amount filters are strict (`>`, `<`).
- Patching a transaction with no field set is not rejected. It builds
  `UPDATE transactions SET  WHERE …` (`Patch.EmptyUpdate`), which the
  database rejects as a syntax error when it is executed. That failure is
  not modelled (see "Left out").
- Failures are exceptions carrying messages.
- `Logic.deleteAccount` and `Logic.patchAccount` take a numeric id, while
  `Model.deleteAccount` and `Model.patchAccount` key accounts by name.

## Model

| member | source | states |
|---|---|---|
| Sql.JoinBalanced | src/main/java/com/github/emi_silva/debo/Model.java:398-483 | Joining conditions that each bind one value per placeholder, with a separator free of placeholders, gives a text with exactly as many placeholders as the conditions bind values |
| Sql.AppendClause | src/main/java/com/github/emi_silva/debo/Model.java:405-413 | Appending one more clause, preceded by the separator unless it is the first, extends the join of the clauses by that clause |
| Listing.CurrencyListingBalanced | src/main/java/com/github/emi_silva/debo/Model.java:314-327 | The currency listing binds one value per placeholder: the owner, plus the type name exactly when the filter names a type |
| Listing.GetCurrencies | src/main/java/com/github/emi_silva/debo/Model.java:312-344 | Issues the currency listing for the owner, narrowed to the filter's type when set; the statement is balanced and the result is the rows the store returns for it |
| Listing.AccountListingBalanced | src/main/java/com/github/emi_silva/debo/Model.java:351-363 | The account listing binds the owner, plus the type name exactly when the filter names a type, one value per placeholder |
| Listing.GetAccounts | src/main/java/com/github/emi_silva/debo/Model.java:349-379 | Issues the account listing for the owner, narrowed to the filter's type when set; the statement is balanced and the result is the rows the store returns for it |
| Lookup.FirstStop | src/main/java/com/github/emi_silva/debo/Model.java:175-179 | The scan stops at the first row whose key is null or equal to the argument, and at no earlier row |
| Lookup.ScanFindsFirstMatch | src/main/java/com/github/emi_silva/debo/Model.java:174-220 | Over rows whose keys are all set, a lookup succeeds exactly when some row's key equals the argument, and then with the id of the first such row; otherwise it throws its not-found exception |
| Lookup.FindCurrencyTypeId | src/main/java/com/github/emi_silva/debo/Model.java:174-181 | The loop over the currency types returns the id of the first type with that name, or throws "Currency type not found." (or a null-pointer exception at a nameless row) |
| Lookup.FindCurrencyId | src/main/java/com/github/emi_silva/debo/Model.java:186-194 | The loop over the owner's unfiltered currency listing returns the id of the first currency with that code, or throws "Currency code not found." |
| Lookup.FindAccountTypeId | src/main/java/com/github/emi_silva/debo/Model.java:199-207 | The loop over the account types returns the id of the first type with that name, or throws "Account type not found." |
| Lookup.FindAccountId | src/main/java/com/github/emi_silva/debo/Model.java:212-220 | The loop over the owner's unfiltered account listing returns the id of the first account with that name, or throws "Account id not found." |
| TransactionListing.ReplaceSpaces | src/main/java/com/github/emi_silva/debo/Model.java:477 | The comment pattern contains no space |
| TransactionListing.ReplaceSpacesLength | src/main/java/com/github/emi_silva/debo/Model.java:477 | Each space becomes the two characters `.*`, so the pattern is one character longer per space, and equals the input when there is none |
| TransactionListing.ReplaceSpacesAppend | src/main/java/com/github/emi_silva/debo/Model.java:477 | Replacing spaces distributes over concatenation |
| TransactionListing.Pattern | src/main/java/com/github/emi_silva/debo/Model.java:476-482 | A pattern is bound exactly when `commentHas` is set, and it is `commentHas` with every space replaced |
| TransactionListing.ConditionsInOrder | src/main/java/com/github/emi_silva/debo/Model.java:400-483 | A condition appears in the listing exactly when its filter field is set, and the conditions appear in the fixed field order, each at most once |
| TransactionListing.NoConditionsIffEmpty | src/main/java/com/github/emi_silva/debo/Model.java:395-397 | The "any field set" test holds exactly when at least one condition is appended |
| TransactionListing.EmptyFilterIsBase | src/main/java/com/github/emi_silva/debo/Model.java:387-397 | An empty filter lists all the owner's transactions, binding only the owner; any set field binds more |
| TransactionListing.EitherAccountBindsNameTwice | src/main/java/com/github/emi_silva/debo/Model.java:465-475 | The account condition matches either leg: two placeholders, both bound to the account name |
| TransactionListing.ClauseBalanced | src/main/java/com/github/emi_silva/debo/Model.java:400-483 | Every condition binds one value per placeholder: two for the account condition, one for every other |
| TransactionListing.ParamsCount | src/main/java/com/github/emi_silva/debo/Model.java:394-483 | The conditions bind one value each, plus one more when the account condition is among them |
| TransactionListing.TransactionStatementBalanced | src/main/java/com/github/emi_silva/debo/Model.java:384-489 | The listing is balanced and binds 1 + (number of set fields) + (1 if the account is set) values |
| TransactionListing.AppendIfSet | src/main/java/com/github/emi_silva/debo/Model.java:405-414 | One filter block appends its condition exactly when its field is set, preceded by `" AND "` unless it is the first, and binds its values after those already bound |
| TransactionListing.AppendConditions | src/main/java/com/github/emi_silva/debo/Model.java:398-483 | The filter blocks extend the query by the `" AND "`-join of the set fields' conditions in field order, and the values by theirs |
| TransactionListing.GetTransactions | src/main/java/com/github/emi_silva/debo/Model.java:384-509 | Issues exactly the filtered listing (base query, then `" AND "` and the joined conditions when any field is set); it is balanced and the result is the store's rows for it |
| Patch.NewKey | src/main/java/com/github/emi_silva/debo/Model.java:651-661 | An update succeeds exactly when `RETURNING` gave back a non-null key, and returns that key; otherwise it throws the not-found exception |
| Patch.RowsAffected | src/main/java/com/github/emi_silva/debo/Model.java:774-778 | An update or delete fails exactly when it affected no row, with the not-found message |
| Patch.SingleMarksCount | src/main/java/com/github/emi_silva/debo/Model.java:617-642 | A `SET` list of one-placeholder assignments binds one value per assignment |
| Patch.UpdateBalanced | src/main/java/com/github/emi_silva/debo/Model.java:643-649 | An `UPDATE` of one-placeholder assignments followed by the owner-and-key tail is balanced and binds the assignments' values plus two |
| Patch.EmptyUpdate | src/main/java/com/github/emi_silva/debo/Model.java:616-643 | With no field to set, the head is followed directly by the `WHERE` tail, bound to the owner and key only |
| Patch.AppendAssignment | src/main/java/com/github/emi_silva/debo/Model.java:625-634 | One `SET` block appends its assignment exactly when the field is present, preceded by `", "` unless it is the first, and binds its value after those already bound |
| Patch.UpdateReturning | src/main/java/com/github/emi_silva/debo/Model.java:643-661 | Issues the `UPDATE … RETURNING` of the `SET` list built so far, then turns the returned key into the result or the not-found exception |
| Patch.UpdateCounting | src/main/java/com/github/emi_silva/debo/Model.java:767-778 | Issues the `UPDATE` of the `SET` list built so far, then fails exactly when no row was updated |
| Patch.PatchCurrencyOutcome | src/main/java/com/github/emi_silva/debo/Model.java:616-662 | No `UPDATE` is issued exactly when a type is given and not found, and then the lookup's exception is thrown; otherwise the new code is returned when the owner's currency existed, else "Currency code not found." |
| Patch.CurrencyUpdateBalanced | src/main/java/com/github/emi_silva/debo/Model.java:618-649 | The currency update binds one value per set field, then the owner and the old code, one per placeholder |
| Patch.EmptyCurrencyPatch | src/main/java/com/github/emi_silva/debo/Model.java:616-645 | A currency patch with no field set issues `UPDATE currencies SET ` directly followed by the `WHERE` tail |
| Patch.CurrencySetList | src/main/java/com/github/emi_silva/debo/Model.java:617-642 | Builds the text and values of the `SET` list of exactly the currency fields that are set: code, name, type |
| Patch.PatchCurrency | src/main/java/com/github/emi_silva/debo/Model.java:616-662 | Behaves as `PatchCurrencyOutcome`, and any `UPDATE` it issues is balanced |
| Patch.PatchAccountOutcome | src/main/java/com/github/emi_silva/debo/Model.java:667-703 | No `UPDATE` is issued exactly when a type is given and not found, and then the lookup's exception is thrown; otherwise the new name is returned when the owner's account existed, else "Account name not found." |
| Patch.AccountUpdateBalanced | src/main/java/com/github/emi_silva/debo/Model.java:669-690 | The account update binds one value per set field, then the owner and the old name, one per placeholder |
| Patch.AccountSetList | src/main/java/com/github/emi_silva/debo/Model.java:668-683 | Builds the text and values of the `SET` list of exactly the account fields that are set: type, name |
| Patch.PatchAccount | src/main/java/com/github/emi_silva/debo/Model.java:667-703 | Behaves as `PatchAccountOutcome`, and any `UPDATE` it issues is balanced |
| Patch.PatchTransactionOutcome | src/main/java/com/github/emi_silva/debo/Model.java:708-779 | No `UPDATE` is issued exactly when a given currency, debit or credit name is not found, and then the first failing lookup's exception is thrown, in the order currency, debit, credit; otherwise the call fails exactly when no row was updated, with "Transaction id not found." |
| Patch.TransactionUpdateBalanced | src/main/java/com/github/emi_silva/debo/Model.java:710-773 | The transaction update binds one value per set field, then the owner and the id, one per placeholder |
| Patch.TransactionSetList | src/main/java/com/github/emi_silva/debo/Model.java:709-766 | Builds the text and values of the `SET` list of exactly the transaction fields that are set, in the order date, amount, currency, debit, credit, comment |
| Patch.PatchTransaction | src/main/java/com/github/emi_silva/debo/Model.java:708-779 | Behaves as `PatchTransactionOutcome`, and any `UPDATE` it issues is balanced |
| Removal.DeleteCurrency | src/main/java/com/github/emi_silva/debo/Model.java:784-794 | Issues the owner-scoped `DELETE` by code, balanced; fails exactly when no row was deleted, with "Currency code not found." |
| Removal.DeleteAccount | src/main/java/com/github/emi_silva/debo/Model.java:799-809 | Issues the owner-scoped `DELETE` by name, balanced; fails exactly when no row was deleted, with "Account name not found." |
| Removal.DeleteTransaction | src/main/java/com/github/emi_silva/debo/Model.java:814-823 | Issues the owner-scoped `DELETE` by id, balanced; fails exactly when no row was deleted, with "Transaction id not found." |
| Insert.InsertColumns | src/main/java/com/github/emi_silva/debo/Model.java:271-280 | The insert names five columns plus one per optional field, with `date` exactly when a date is given and `comment` exactly when a comment is given |
| Insert.RepeatMarks | src/main/java/com/github/emi_silva/debo/Model.java:282-284 | The loop's n extra `", ?"` add exactly n placeholders |
| Insert.InsertBalanced | src/main/java/com/github/emi_silva/debo/Model.java:270-299 | The insert has one placeholder per named column (5 + optional fields) and binds one value per placeholder |
| Insert.InsertText | src/main/java/com/github/emi_silva/debo/Model.java:270-286 | The query-building code, including its loop, produces the insert text and counts the optional fields |
| Insert.ColumnPositions | src/main/java/com/github/emi_silva/debo/Model.java:287-299 | The column at each position: user id first, then the date when given, and the others shifted by that offset |
| Insert.BindInsert | src/main/java/com/github/emi_silva/debo/Model.java:287-299 | The offset-shifted `set*` calls bind exactly positions 1 through the number of columns, each to the value of the column named at that position |
| Insert.Positional | src/main/java/com/github/emi_silva/debo/Model.java:286-300 | Values bound by position 1..n become the statement's value list in position order |
| Insert.PostTransactionOutcome | src/main/java/com/github/emi_silva/debo/Model.java:266-307 | No `INSERT` is issued exactly when the currency, debit or credit lookup fails, and then the first failing lookup's exception is thrown, in the order currency, debit, credit (lookups of null names included); otherwise the id the insert returns is the result |
| Insert.NullCurrencyIsNotFound | src/main/java/com/github/emi_silva/debo/Model.java:186-194 | A transaction without a currency code is still looked up, and a null code equals no code: over currencies that all have codes it is refused with "Currency code not found." and nothing is inserted |
| Insert.PostTransactions | src/main/java/com/github/emi_silva/debo/Model.java:266-307 | Behaves as `PostTransactionOutcome`, and the insert it issues is balanced |
| Guards.ParseInt | src/main/java/com/github/emi_silva/debo/Logic.java:47 | `Integer.valueOf` succeeds only with a value in the `int` range; otherwise it throws a number-format exception for that input |
| Guards.DigitsRoundTrip | src/main/java/com/github/emi_silva/debo/Logic.java:47 | The decimal digits of a natural number are non-empty digits whose value is that number |
| Guards.ParseIntRoundTrip | src/main/java/com/github/emi_silva/debo/Logic.java:47 | Parsing the decimal text of any `int` gives back that `int` |
| Guards.MatchesLetters | src/main/java/com/github/emi_silva/debo/Logic.java:40 | The `[a-zA-Z]*` match holds exactly when every character is an ASCII letter |
| Guards.GetCurrencyGuard | src/main/java/com/github/emi_silva/debo/Logic.java:39-44 | A null code throws; the lookup happens exactly for codes of three ASCII letters, and any other code gives null |
| Guards.GetAccountGuard | src/main/java/com/github/emi_silva/debo/Logic.java:46-52 | A non-integer id throws; the lookup happens exactly for ids from 0 up, so the `MAX_INT` test is never decisive; a negative id gives null |
| Guards.PatchCurrencyGuard | src/main/java/com/github/emi_silva/debo/Logic.java:54-59 | The patch is rejected exactly when code, name and type are all null, with "Please specify at least one field to patch."; otherwise it is passed on unchanged |
| Guards.PatchAccountGuard | src/main/java/com/github/emi_silva/debo/Logic.java:60-69 | The id is checked first: a non-integer id throws a number-format exception and a negative one "Invalid account id.", whatever the fields; an id from 0 up with neither type nor name set throws "Please specify at least one field to patch."; the update happens exactly for ids from 0 up with a type or name set |
| Guards.DeleteAccountGuard | src/main/java/com/github/emi_silva/debo/Logic.java:74-80 | A non-integer id throws a number-format exception and a negative one "Invalid account id."; the deletion happens exactly for ids from 0 up |
| Errors.Get | src/main/java/com/github/emi_silva/debo/DeboException.java:34 | A table lookup gives the entry of a known code and null for any other |
| Errors.TablesAgree | src/main/java/com/github/emi_silva/debo/DeboException.java:9-22 | The status and message tables cover the same codes: 400, 401, 404, 412 and 500 |
| Errors.DeboException.constructor | src/main/java/com/github/emi_silva/debo/DeboException.java:27-30 | Keeps the given code and message |
| Errors.DeboException.WithDefaultMessage | src/main/java/com/github/emi_silva/debo/DeboException.java:32-35 | Keeps the code and takes its default message from the table, null for an unknown code |
| Errors.DeboException.ToMap | src/main/java/com/github/emi_silva/debo/DeboException.java:37-43 | The report has exactly the keys `code`, `status` and `error`, holding the code, its reason phrase (null when unknown) and the message |
| Errors.Report | src/main/java/com/github/emi_silva/debo/DeboException.java:32-43 | An exception built from a known code reports that code's reason phrase and default message; one built from any other code reports both as null |

## Left out

- An `SQLException` thrown out of a write is not modelled. In the source,
  `prepareStatement`, `execute` and `executeUpdate` may throw one out of
  `patchCurrency`, `patchAccount`, `patchTransaction`, the three deletes
  and `postTransactions` (Model.java lines 646-650, 687-691, 770-774,
  786-789, 801-804, 816-819 and 286-300). Examples are the empty `SET `
  list, which the database rejects as a syntax error, and deleting a
  currency or account that a transaction still references. The store
  oracle always answers, so for these statements the model returns what
  the oracle answers (for the empty transaction patch,
  `RowsAffected(store.affectedRows(st))`) where the program throws.
- The statements' effect on the database is not modelled. The store is an
  oracle that answers each statement. A `SQLException` that a listing
  catches and prints (leaving an empty or partial list) is covered only
  insofar as the oracle may return any rows.
- `BigDecimal` amounts are opaque `Decimal` values. They are bound but
  never computed with.
- Insert.PostTransactions: the source calls `rs.next()` without checking
  it, and reads the returned id. The model assumes the insert returns a
  row; when it returns none, the source throws an `SQLException` that is
  not modelled.
- Patch.PatchCurrency, Patch.PatchAccount and Patch.PatchTransaction
  resolve referenced names before building the `SET` list. The source
  resolves them in the middle of it. No `UPDATE` is issued before a lookup can
  throw, so the outcome is the same.
- `Model.postCurrencies` and `Model.postAccounts` are not modelled. Each
  is a single type lookup followed by a fixed four- or three-value
  `INSERT … RETURNING`, with the same shape as the transaction insert.
- `Model.getCurrency`, `Model.getAccount` and `Model.getTransaction` (the
  single-row reads) are not modelled. They are one owner-scoped `SELECT`
  by key each, and differ from the listings only in their `WHERE` clause.
- The `Model` constructor, `readProps`, `newUser`, `getSessionToken` and
  `authenticate` are not modelled. They cover configuration and sessions,
  not ledger data.
- The controller, the OAuth sign-in flow and the test suite are not
  modelled.
- The `Logic` methods that only delegate to `Model` are not modelled, and
  neither are the calls the guarded methods make once their checks pass.
  `Logic` calls `Model` with signatures `Model.java` does not declare:
  no user id, and an account id where `Model` takes a name.
- Guards.PatchAccountGuard: the source also tests `a.currency`, a field
  the account record does not have. The model checks only type and name.
- Guards.ParseInt: accepts only ASCII digits. `Integer.valueOf` also
  accepts the other Unicode decimal digits.
- A null id string, or a null patch record passed to a guard, is not
  modelled. The source throws in both cases; the model's parameters are
  never null.
- The `toString` methods of the records and the exception are not
  modelled, since they only produce debugging text.
- The static initializer that fills the two tables is modelled by the
  finished tables. Their insertion order cannot be observed.
