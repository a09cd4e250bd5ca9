/** Recording a transaction (`Model.postTransactions`): the currency code
    and the two account names are resolved to ids, then one `INSERT` names
    the columns that are given (`date` and `comment` are optional), has one
    placeholder per column, and binds each column's value at its position. */
module Insert {

  import opened Wrappers
  import opened Sql
  import opened Records
  import opened Listing
  import opened Lookup

  /** The columns of `transactions` an insert can name. */
  datatype Column = UserId | Date | Amount | CurrencyRef | DebitRef | CreditRef | Comment

  /** The columns an insert of `t` names, in the order of its column list:
      the owner, the date when given, amount, currency, debit and credit,
      and the comment when given. */
  function InsertColumns(t: Transaction): (cols: seq<Column>)
    ensures |cols| == 5 + OptionalFields(t)
    ensures Date in cols <==> t.date.Some?
    ensures Comment in cols <==> t.comment.Some?
  {
    [UserId] + (if t.date.Some? then [Date] else [])
    + [Amount, CurrencyRef, DebitRef, CreditRef]
    + (if t.comment.Some? then [Comment] else [])
  }

  /** The value an insert binds for a column: the references by id. */
  function ColumnValue(col: Column, t: Transaction, userId: int, currencyId: int, debitId: int, creditId: int): Param
  {
    match col
    case UserId => PInt(userId)
    case Date => StrParam(t.date)
    case Amount => DecParam(t.amount)
    case CurrencyRef => PInt(currencyId)
    case DebitRef => PInt(debitId)
    case CreditRef => PInt(creditId)
    case Comment => StrParam(t.comment)
  }

  /** The values of an insert: each column's value, in column order. */
  function InsertValues(t: Transaction, userId: int, currencyId: int, debitId: int, creditId: int): seq<Param>
  {
    var cols := InsertColumns(t);
    seq(|cols|, i requires 0 <= i < |cols| => ColumnValue(cols[i], t, userId, currencyId, debitId, creditId))
  }

  /** How many of the optional columns `date` and `comment` are given. */
  function OptionalFields(t: Transaction): nat
  {
    (if t.date.Some? then 1 else 0) + (if t.comment.Some? then 1 else 0)
  }

  const InsertInto: string := "INSERT INTO transactions " + "(user_id, "
  const DateColumn: string := "date, "
  const RequiredColumns: string := "amount, currency, " + "debit, credit"
  const CommentColumn: string := ", comment"
  const Mark: string := ", " + "?"
  const ValuesOpen: string := ") VALUES (" + "?" + Mark + Mark + Mark + Mark
  const Returning: string := ") RETURNING id"

  /** `s` written `n` times. */
  function Repeat(s: string, n: nat): string
  {
    if n == 0 then "" else Repeat(s, n - 1) + s
  }

  /** The insert up to its five fixed placeholders. */
  function InsertPrelude(t: Transaction): string
  {
    InsertInto + (if t.date.Some? then DateColumn else "") + RequiredColumns
    + (if t.comment.Some? then CommentColumn else "") + ValuesOpen
  }

  /** The text of the insert: one more placeholder per optional column. */
  function InsertQuery(t: Transaction): string
  {
    InsertPrelude(t) + Repeat(Mark, OptionalFields(t)) + Returning
  }

  function InsertStatement(t: Transaction, userId: int, currencyId: int, debitId: int, creditId: int): Statement
  {
    Statement(InsertQuery(t), InsertValues(t, userId, currencyId, debitId, creditId))
  }

  /** What `postTransactions` does: it resolves the currency code, the debit
      and the credit account names, in that order and whether or not they
      are given, and issues no `INSERT` when one of them throws, throwing the
      first lookup's exception; otherwise it
      inserts the transaction and returns the id the store assigns. */
  function PostTransactionOutcome(t: Transaction, userId: int, store: Store): (o: Outcome<int>)
    ensures o.issued.None? <==>
              CurrencyIdOf(store, userId, t.currency).Failure?
              || AccountIdOf(store, userId, t.debit).Failure?
              || AccountIdOf(store, userId, t.credit).Failure?
    ensures o.issued.None? ==>
              o.result == Failure(
                if CurrencyIdOf(store, userId, t.currency).Failure? then CurrencyIdOf(store, userId, t.currency).error
                else if AccountIdOf(store, userId, t.debit).Failure? then AccountIdOf(store, userId, t.debit).error
                else AccountIdOf(store, userId, t.credit).error)
    ensures o.issued.Some? ==> o.result == Success(store.insertedId(o.issued.value))
  {
    var currencyId := CurrencyIdOf(store, userId, t.currency);
    var debitId := AccountIdOf(store, userId, t.debit);
    var creditId := AccountIdOf(store, userId, t.credit);
    if currencyId.Failure? then Outcome(None, Failure(currencyId.error))
    else if debitId.Failure? then Outcome(None, Failure(debitId.error))
    else if creditId.Failure? then Outcome(None, Failure(creditId.error))
    else
      var st := InsertStatement(t, userId, currencyId.value, debitId.value, creditId.value);
      Outcome(Some(st), Success(store.insertedId(st)))
  }

  /** The currency code is looked up even when the transaction has none,
      and a null code equals no code: over a listing whose currencies all
      have a code, a transaction without one is refused with "Currency code
      not found." and nothing is inserted. */
  lemma NullCurrencyIsNotFound(t: Transaction, userId: int, store: Store)
    requires t.currency.None?
    requires forall c :: c in store.currencyRows(CurrencyListing(BlankCurrency, userId)) ==> c.code.Some?
    ensures PostTransactionOutcome(t, userId, store) == Outcome(None, Failure(Exception("Currency code not found.")))
  {
    var rows := store.currencyRows(CurrencyListing(BlankCurrency, userId));
    assert forall j :: 0 <= j < |rows| ==> rows[j] in rows;
  }

  // ---------------------------------------------------------------------
  // Placeholder counts

  lemma MarkHasOneMark()
    ensures Placeholders(Mark) == 1
  {
    NoMarks(", ");
    OneMark();
    PlaceholdersAdditive(", ", "?");
  }

  lemma {:induction false} RepeatMarks(n: nat)
    ensures Placeholders(Repeat(Mark, n)) == n
  {
    if n > 0 {
      RepeatMarks(n - 1);
      MarkHasOneMark();
      PlaceholdersAdditive(Repeat(Mark, n - 1), Mark);
    }
  }

  lemma ValuesOpenHasFiveMarks()
    ensures Placeholders(ValuesOpen) == 5
  {
    var open := ") VALUES (";
    NoMarks(open);
    OneMark();
    MarkHasOneMark();
    PlaceholdersAdditive(open, "?");
    PlaceholdersAdditive(open + "?", Mark);
    PlaceholdersAdditive(open + "?" + Mark, Mark);
    PlaceholdersAdditive(open + "?" + Mark + Mark, Mark);
    PlaceholdersAdditive(open + "?" + Mark + Mark + Mark, Mark);
  }

  lemma InsertIntoPiece1() ensures '?' !in "INSERT INTO transactions " {}
  lemma InsertIntoPiece2() ensures '?' !in "(user_id, " {}
  lemma RequiredColumnsPiece1() ensures '?' !in "amount, currency, " {}
  lemma RequiredColumnsPiece2() ensures '?' !in "debit, credit" {}
  lemma DateColumnPiece() ensures '?' !in DateColumn {}
  lemma CommentColumnPiece() ensures '?' !in CommentColumn {}
  lemma ReturningPiece() ensures '?' !in Returning {}

  lemma ColumnsHaveNoMarks()
    ensures Placeholders(InsertInto) == 0
    ensures Placeholders(DateColumn) == 0
    ensures Placeholders(RequiredColumns) == 0
    ensures Placeholders(CommentColumn) == 0
    ensures Placeholders(Returning) == 0
  {
    InsertIntoPiece1();
    InsertIntoPiece2();
    RequiredColumnsPiece1();
    RequiredColumnsPiece2();
    DateColumnPiece();
    CommentColumnPiece();
    ReturningPiece();
    NoMarks(InsertInto);
    NoMarks(DateColumn);
    NoMarks(RequiredColumns);
    NoMarks(CommentColumn);
    NoMarks(Returning);
  }

  lemma PreludeHasFiveMarks(t: Transaction)
    ensures Placeholders(InsertPrelude(t)) == 5
  {
    var date := if t.date.Some? then DateColumn else "";
    var comment := if t.comment.Some? then CommentColumn else "";
    ColumnsHaveNoMarks();
    NoMarks("");
    ValuesOpenHasFiveMarks();
    PlaceholdersAdditive(InsertInto, date);
    PlaceholdersAdditive(InsertInto + date, RequiredColumns);
    PlaceholdersAdditive(InsertInto + date + RequiredColumns, comment);
    PlaceholdersAdditive(InsertInto + date + RequiredColumns + comment, ValuesOpen);
  }

  /** The insert has one placeholder per column it names, and binds one
      value per placeholder: five, plus one per optional column given. */
  lemma InsertBalanced(t: Transaction, userId: int, currencyId: int, debitId: int, creditId: int)
    ensures Placeholders(InsertQuery(t)) == |InsertColumns(t)| == 5 + OptionalFields(t)
    ensures Balanced(InsertStatement(t, userId, currencyId, debitId, creditId))
  {
    PreludeHasFiveMarks(t);
    RepeatMarks(OptionalFields(t));
    ColumnsHaveNoMarks();
    PlaceholdersAdditive(InsertPrelude(t), Repeat(Mark, OptionalFields(t)));
    PlaceholdersAdditive(InsertPrelude(t) + Repeat(Mark, OptionalFields(t)), Returning);
  }

  // ---------------------------------------------------------------------
  // Building the insert

  lemma AppendNothing(s: string)
    ensures s + "" == s
  {
  }

  /** The text of `postTransactions`: the column list grows with the
      optional columns, and a loop adds one `", ?"` per optional column
      after the five fixed placeholders. */
  method InsertText(t: Transaction) returns (query: string, optionalFields: nat)
    ensures query == InsertQuery(t)
    ensures optionalFields == OptionalFields(t)
  {
    optionalFields := 0;
    query := InsertInto;
    if t.date.Some? {
      query := query + DateColumn;
      optionalFields := optionalFields + 1;
    } else {
      AppendNothing(query);
    }
    query := query + RequiredColumns;
    if t.comment.Some? {
      query := query + CommentColumn;
      optionalFields := optionalFields + 1;
    } else {
      AppendNothing(query);
    }
    query := query + ValuesOpen;
    for i := 0 to optionalFields
      invariant query == InsertPrelude(t) + Repeat(Mark, i)
    {
      query := query + Mark;
    }
    query := query + Returning;
  }

  /** Where each column sits: the owner first, the date second when
      given, then amount, currency, debit and credit shifted by one exactly
      when the date is given, and the comment last when given. */
  lemma ColumnPositions(t: Transaction)
    ensures InsertColumns(t)[0] == UserId
    ensures t.date.Some? ==> InsertColumns(t)[1] == Date
    ensures var offset := if t.date.Some? then 1 else 0;
            && InsertColumns(t)[1 + offset] == Amount
            && InsertColumns(t)[2 + offset] == CurrencyRef
            && InsertColumns(t)[3 + offset] == DebitRef
            && InsertColumns(t)[4 + offset] == CreditRef
            && (t.comment.Some? ==> InsertColumns(t)[5 + offset] == Comment)
  {
    var offset := if t.date.Some? then 1 else 0;
    var head := [UserId] + (if t.date.Some? then [Date] else []);
    var fixed := [Amount, CurrencyRef, DebitRef, CreditRef];
    assert |head| == 1 + offset;
    assert InsertColumns(t) == head + fixed + (if t.comment.Some? then [Comment] else []);
  }

  /** The bindings of `postTransactions`, by 1-based index: the owner
      first, the date at 2 when given, then amount, currency, debit and
      credit shifted by that offset, and the comment last when given.
      Every index from 1 to the number of columns is bound, each to the
      value of the column at that position. */
  method BindInsert(t: Transaction, userId: int, currencyId: int, debitId: int, creditId: int)
    returns (bound: map<int, Param>)
    ensures forall i :: i in bound <==> 1 <= i <= |InsertColumns(t)|
    ensures forall i :: 1 <= i <= |InsertColumns(t)| ==>
              bound[i] == ColumnValue(InsertColumns(t)[i - 1], t, userId, currencyId, debitId, creditId)
  {
    ColumnPositions(t);
    bound := map[];
    var offset := 0;
    bound := bound[1 := PInt(userId)];
    if t.date.Some? {
      bound := bound[2 := PStr(t.date.value)];
      offset := 1;
    }
    bound := bound[2 + offset := DecParam(t.amount)];
    bound := bound[3 + offset := PInt(currencyId)];
    bound := bound[4 + offset := PInt(debitId)];
    bound := bound[5 + offset := PInt(creditId)];
    if t.comment.Some? {
      bound := bound[6 + offset := PStr(t.comment.value)];
    }
  }

  /** The values a prepared statement sends: the value bound at each index
      from 1 to `n`, in index order. */
  function Positional(bound: map<int, Param>, n: nat): (values: seq<Param>)
    requires forall i :: 1 <= i <= n ==> i in bound
    ensures |values| == n
    ensures forall i :: 1 <= i <= n ==> values[i - 1] == bound[i]
  {
    seq(n, k requires 0 <= k < n => bound[k + 1])
  }

  /** `postTransactions`. */
  method PostTransactions(t: Transaction, userId: int, store: Store)
    returns (issued: Option<Statement>, r: Result<int>)
    ensures Outcome(issued, r) == PostTransactionOutcome(t, userId, store)
    ensures issued.Some? ==> Balanced(issued.value)
  {
    var currencyId := FindCurrencyId(t.currency, userId, store);
    if currencyId.Failure? {
      return None, Failure(currencyId.error);
    }
    var debitId := FindAccountId(t.debit, userId, store);
    if debitId.Failure? {
      return None, Failure(debitId.error);
    }
    var creditId := FindAccountId(t.credit, userId, store);
    if creditId.Failure? {
      return None, Failure(creditId.error);
    }
    var query, optionalFields := InsertText(t);
    var bound := BindInsert(t, userId, currencyId.value, debitId.value, creditId.value);
    var values := Positional(bound, 5 + optionalFields);
    assert values == InsertValues(t, userId, currencyId.value, debitId.value, creditId.value);
    issued := Some(Statement(query, values));
    InsertBalanced(t, userId, currencyId.value, debitId.value, creditId.value);
    r := Success(store.insertedId(issued.value));
  }
}
