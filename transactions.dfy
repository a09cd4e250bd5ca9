/** The filtered listing of a user's transactions (`Model.getTransactions`):
    the base query bound to the owner, followed by one condition per filter
    field that is set, in a fixed order, each preceded by `" AND "`. */
module TransactionListing {

  import opened Wrappers
  import opened Sql
  import opened Records

  /** The conditions a transaction filter can contribute, one per field. */
  datatype Condition =
    | MinDate | MaxDate | MinAmount | MaxAmount
    | CurrencyCode | DebitName | CreditName | EitherAccount | CommentMatch

  /** The order in which the conditions are appended. */
  const ConditionOrder: seq<Condition> :=
    [MinDate, MaxDate, MinAmount, MaxAmount, CurrencyCode, DebitName, CreditName, EitherAccount, CommentMatch]

  /** The position of a condition in `ConditionOrder`. */
  function Rank(c: Condition): (k: nat)
    ensures k < |ConditionOrder| && ConditionOrder[k] == c
  {
    match c
    case MinDate => 0
    case MaxDate => 1
    case MinAmount => 2
    case MaxAmount => 3
    case CurrencyCode => 4
    case DebitName => 5
    case CreditName => 6
    case EitherAccount => 7
    case CommentMatch => 8
  }

  /** Whether the filter field behind `c` is non-null. */
  predicate IsSet(f: TxFilter, c: Condition)
  {
    match c
    case MinDate => f.minDate.Some?
    case MaxDate => f.maxDate.Some?
    case MinAmount => f.minAmount.Some?
    case MaxAmount => f.maxAmount.Some?
    case CurrencyCode => f.currency.Some?
    case DebitName => f.debit.Some?
    case CreditName => f.credit.Some?
    case EitherAccount => f.account.Some?
    case CommentMatch => f.commentHas.Some?
  }

  /** A filter with every field null. */
  predicate NoConditions(f: TxFilter)
  {
    f.minDate.None? && f.maxDate.None? && f.minAmount.None? && f.maxAmount.None?
    && f.currency.None? && f.debit.None? && f.credit.None? && f.account.None? && f.commentHas.None?
  }

  /** `String.replace(" ", ".*")`: every space becomes `.*`. */
  function ReplaceSpaces(s: string): (r: string)
    ensures ' ' !in r
  {
    if s == [] then []
    else (if s[0] == ' ' then ".*" else [s[0]]) + ReplaceSpaces(s[1..])
  }

  /** The number of spaces in `s`. */
  function Spaces(s: string): nat
  {
    if s == [] then 0 else (if s[0] == ' ' then 1 else 0) + Spaces(s[1..])
  }

  /** The pattern is the comment fragment with every space widened to `.*`:
      one character longer per space, and unchanged when there is none. */
  lemma {:induction false} ReplaceSpacesLength(s: string)
    ensures |ReplaceSpaces(s)| == |s| + Spaces(s)
    ensures Spaces(s) == 0 ==> ReplaceSpaces(s) == s
  {
    if s != [] {
      ReplaceSpacesLength(s[1..]);
      if Spaces(s) == 0 {
        assert s == [s[0]] + s[1..];
      }
    }
  }

  /** The replacement works character by character, so it distributes over
      concatenation. */
  lemma {:induction false} ReplaceSpacesAppend(a: string, b: string)
    ensures ReplaceSpaces(a + b) == ReplaceSpaces(a) + ReplaceSpaces(b)
  {
    if a == [] {
      assert a + b == b;
    } else {
      var head := if a[0] == ' ' then ".*" else [a[0]];
      assert (a + b)[0] == a[0];
      assert (a + b)[1..] == a[1..] + b;
      ReplaceSpacesAppend(a[1..], b);
      calc {
        ReplaceSpaces(a + b);
        head + ReplaceSpaces(a[1..] + b);
        head + (ReplaceSpaces(a[1..]) + ReplaceSpaces(b));
        (head + ReplaceSpaces(a[1..])) + ReplaceSpaces(b);
        ReplaceSpaces(a) + ReplaceSpaces(b);
      }
    }
  }

  /** The comment pattern, when the filter has a comment fragment. */
  function Pattern(commentHas: Option<string>): (p: Option<string>)
    ensures p.Some? <==> commentHas.Some?
    ensures p.Some? ==> p.value == ReplaceSpaces(commentHas.value)
  {
    match commentHas
    case Some(s) => Some(ReplaceSpaces(s))
    case None => None
  }

  /** The text of a condition: `<column> <operator> ?`, with strict
      comparisons for the bounds, and two alternatives for an account. */
  function ConditionText(c: Condition): string
  {
    match c
    case MinDate => "date > ?"
    case MaxDate => "date < ?"
    case MinAmount => "amount > ?"
    case MaxAmount => "amount < ?"
    case CurrencyCode => "c.code = ?"
    case DebitName => "a_debit.name = ?"
    case CreditName => "a_credit.name = ?"
    case EitherAccount => "(a_debit.name = " + "?" + " OR a_credit.name = " + "?" + ")"
    case CommentMatch => "comment ~* ?"
  }

  /** The values a condition binds: the field's value, the account name
      twice, and the comment fragment as a pattern. It is only ever
      appended when the field is set, so no `PNull` is bound. */
  function ConditionValues(f: TxFilter, c: Condition): seq<Param>
  {
    match c
    case MinDate => [StrParam(f.minDate)]
    case MaxDate => [StrParam(f.maxDate)]
    case MinAmount => [DecParam(f.minAmount)]
    case MaxAmount => [DecParam(f.maxAmount)]
    case CurrencyCode => [StrParam(f.currency)]
    case DebitName => [StrParam(f.debit)]
    case CreditName => [StrParam(f.credit)]
    case EitherAccount => [StrParam(f.account), StrParam(f.account)]
    case CommentMatch => [StrParam(Pattern(f.commentHas))]
  }

  function ClauseOf(f: TxFilter, c: Condition): Clause
  {
    Clause(ConditionText(c), ConditionValues(f, c))
  }

  /** The conditions among `cs` that `f` sets, in the same order. */
  function SetAmong(f: TxFilter, cs: seq<Condition>): seq<Condition>
  {
    if cs == [] then []
    else SetAmong(f, cs[..|cs| - 1]) + (if IsSet(f, cs[|cs| - 1]) then [cs[|cs| - 1]] else [])
  }

  /** The conditions a filter contributes, in the order they are appended. */
  function TxConditions(f: TxFilter): seq<Condition>
  {
    SetAmong(f, ConditionOrder)
  }

  /** The clauses of the given conditions, in the same order. */
  function ClausesFor(f: TxFilter, cs: seq<Condition>): (r: seq<Clause>)
    ensures |r| == |cs|
  {
    if cs == [] then [] else ClausesFor(f, cs[..|cs| - 1]) + [ClauseOf(f, cs[|cs| - 1])]
  }

  lemma {:induction false} ClausesForIndex(f: TxFilter, cs: seq<Condition>)
    ensures forall i :: 0 <= i < |cs| ==> ClausesFor(f, cs)[i] == ClauseOf(f, cs[i])
  {
    if cs != [] {
      ClausesForIndex(f, cs[..|cs| - 1]);
    }
  }

  /** The transaction listing up to its `WHERE` clause. */
  const TxFrom: string :=
    "SELECT t.id, t.date, "
    + "t.amount, c.code, "
    + "a_debit.name, "
    + "a_credit.name, "
    + "t.comment "
    + "FROM transactions t "
    + "JOIN accounts a_debit "
    + "ON t.debit = a_debit.id "
    + "JOIN accounts a_credit "
    + "ON t.credit = a_credit.id "
    + "JOIN currencies c "
    + "ON t.currency = c.id "

  /** The unfiltered transaction listing of one owner. */
  const TxBase: string := TxFrom + "WHERE t.user_id = ?"

  const And: string := " AND "

  /** `[c]` when the filter sets `c`, nothing otherwise. */
  function Pick(f: TxFilter, c: Condition): seq<Condition>
  {
    if IsSet(f, c) then [c] else []
  }

  /** Keeping the set conditions works element by element. */
  lemma SetAmongSnoc(f: TxFilter, cs: seq<Condition>, c: Condition)
    ensures SetAmong(f, cs + [c]) == SetAmong(f, cs) + Pick(f, c)
  {
    assert (cs + [c])[..|cs|] == cs;
  }

  /** The conditions of a filter, field by field in the order they are
      tested. */
  lemma TxConditionsPicked(f: TxFilter)
    ensures TxConditions(f)
            == Pick(f, MinDate) + Pick(f, MaxDate) + Pick(f, MinAmount) + Pick(f, MaxAmount)
               + Pick(f, CurrencyCode) + Pick(f, DebitName) + Pick(f, CreditName)
               + Pick(f, EitherAccount) + Pick(f, CommentMatch)
  {
    var o := ConditionOrder;
    assert o[..0] == [];
    SetAmongSnoc(f, o[..0], o[0]);
    assert o[..1] == o[..0] + [o[0]];
    SetAmongSnoc(f, o[..1], o[1]);
    assert o[..2] == o[..1] + [o[1]];
    SetAmongSnoc(f, o[..2], o[2]);
    assert o[..3] == o[..2] + [o[2]];
    SetAmongSnoc(f, o[..3], o[3]);
    assert o[..4] == o[..3] + [o[3]];
    SetAmongSnoc(f, o[..4], o[4]);
    assert o[..5] == o[..4] + [o[4]];
    SetAmongSnoc(f, o[..5], o[5]);
    assert o[..6] == o[..5] + [o[5]];
    SetAmongSnoc(f, o[..6], o[6]);
    assert o[..7] == o[..6] + [o[6]];
    SetAmongSnoc(f, o[..7], o[7]);
    assert o[..8] == o[..7] + [o[7]];
    SetAmongSnoc(f, o[..8], o[8]);
    assert o == o[..8] + [o[8]];
  }

  /** Ranks strictly increase along `cs`. */
  predicate Ascending(cs: seq<Condition>)
  {
    forall i, j :: 0 <= i < j < |cs| ==> Rank(cs[i]) < Rank(cs[j])
  }

  /** Keeping the set conditions of an ascending sequence keeps exactly
      those, still ascending. */
  lemma {:induction false} SetAmongOrdered(f: TxFilter, cs: seq<Condition>)
    requires Ascending(cs)
    ensures forall c :: c in SetAmong(f, cs) <==> c in cs && IsSet(f, c)
    ensures Ascending(SetAmong(f, cs))
  {
    if cs != [] {
      var init := cs[..|cs| - 1];
      var last := cs[|cs| - 1];
      SetAmongOrdered(f, init);
      assert cs == init + [last];
      forall c | c in SetAmong(f, init)
        ensures Rank(c) < Rank(last)
      {
        var i :| 0 <= i < |init| && init[i] == c;
      }
    }
  }

  lemma ConditionOrderAscending()
    ensures Ascending(ConditionOrder)
  {
    forall i | 0 <= i < |ConditionOrder|
      ensures Rank(ConditionOrder[i]) == i
    {
    }
  }

  /** A filter contributes exactly its set fields, each once, in the order
      `minDate, maxDate, minAmount, maxAmount, currency, debit, credit,
      account, commentHas`. */
  lemma ConditionsInOrder(f: TxFilter)
    ensures forall c :: c in TxConditions(f) <==> IsSet(f, c)
    ensures Ascending(TxConditions(f))
  {
    ConditionOrderAscending();
    SetAmongOrdered(f, ConditionOrder);
    forall c
      ensures c in ConditionOrder
    {
      assert ConditionOrder[Rank(c)] == c;
    }
  }

  /** The clauses of a filter. */
  function TxClauses(f: TxFilter): seq<Clause>
  {
    ClausesFor(f, TxConditions(f))
  }

  /** The statement `getTransactions` prepares. */
  function TransactionStatement(f: TxFilter, userId: int): Statement
  {
    Statement(TxBase + Prefixed(And, Texts(TxClauses(f))), [PInt(userId)] + ParamsOf(TxClauses(f)))
  }

  /** A filter contributes no condition exactly when every field is null. */
  lemma NoConditionsIffEmpty(f: TxFilter)
    ensures NoConditions(f) <==> TxConditions(f) == []
  {
    ConditionsInOrder(f);
    if TxConditions(f) != [] {
      assert IsSet(f, TxConditions(f)[0]);
    }
    if !NoConditions(f) {
      var c :| IsSet(f, c);
      assert c in TxConditions(f);
    }
  }

  /** With no filter field set the listing is the base query bound to the
      owner alone; with any field set it binds more than the owner. */
  lemma EmptyFilterIsBase(f: TxFilter, userId: int)
    ensures NoConditions(f) ==> TransactionStatement(f, userId) == Statement(TxBase, [PInt(userId)])
    ensures !NoConditions(f) ==> |TransactionStatement(f, userId).params| > 1
  {
    NoConditionsIffEmpty(f);
    if NoConditions(f) {
      assert Texts(TxClauses(f)) == [];
    } else {
      TransactionStatementBalanced(f, userId);
    }
  }

  lemma TxFromPiece1() ensures '?' !in "SELECT t.id, t.date, " {}
  lemma TxFromPiece2() ensures '?' !in "t.amount, c.code, " {}
  lemma TxFromPiece3() ensures '?' !in "a_debit.name, " {}
  lemma TxFromPiece4() ensures '?' !in "a_credit.name, " {}
  lemma TxFromPiece5() ensures '?' !in "t.comment " {}
  lemma TxFromPiece6() ensures '?' !in "FROM transactions t " {}
  lemma TxFromPiece7() ensures '?' !in "JOIN accounts a_debit " {}
  lemma TxFromPiece8() ensures '?' !in "ON t.debit = a_debit.id " {}
  lemma TxFromPiece9() ensures '?' !in "JOIN accounts a_credit " {}
  lemma TxFromPiece10() ensures '?' !in "ON t.credit = a_credit.id " {}
  lemma TxFromPiece11() ensures '?' !in "JOIN currencies c " {}
  lemma TxFromPiece12() ensures '?' !in "ON t.currency = c.id " {}

  lemma TxFromHasNoMarks()
    ensures '?' !in TxFrom
  {
    TxFromPiece1(); TxFromPiece2(); TxFromPiece3(); TxFromPiece4();
    TxFromPiece5(); TxFromPiece6(); TxFromPiece7(); TxFromPiece8();
    TxFromPiece9(); TxFromPiece10(); TxFromPiece11(); TxFromPiece12();
  }

  lemma TxBaseHasOneMark()
    ensures Placeholders(TxBase) == 1
  {
    TxFromHasNoMarks();
    NoMarks(TxFrom);
    assert "WHERE t.user_id = ?" == "WHERE t.user_id = " + "?";
    SingleMarkClause("WHERE t.user_id = ", PInt(0));
    PlaceholdersAdditive(TxFrom, "WHERE t.user_id = ?");
  }

  /** The account condition matches either side of the transaction, so it
      has two placeholders and binds the account name to both. */
  lemma EitherAccountBindsNameTwice(f: TxFilter)
    ensures Placeholders(ClauseOf(f, EitherAccount).text) == 2
    ensures ClauseOf(f, EitherAccount).params == [StrParam(f.account), StrParam(f.account)]
  {
    NoMarks("(a_debit.name = ");
    NoMarks(" OR a_credit.name = ");
    NoMarks(")");
    TwoMarks("(a_debit.name = ", " OR a_credit.name = ", ")");
  }

  /** Two placeholders between texts that have none. */
  lemma TwoMarks(lhs: string, mid: string, rhs: string)
    requires Placeholders(lhs) == 0 && Placeholders(mid) == 0 && Placeholders(rhs) == 0
    ensures Placeholders(lhs + "?" + mid + "?" + rhs) == 2
  {
    OneMark();
    PlaceholdersAdditive(lhs, "?");
    PlaceholdersAdditive(lhs + "?", mid);
    PlaceholdersAdditive(lhs + "?" + mid, "?");
    PlaceholdersAdditive(lhs + "?" + mid + "?", rhs);
  }

  /** Every condition binds exactly as many values as it has placeholders:
      two for the account condition, one for every other. */
  lemma ClauseBalanced(f: TxFilter, c: Condition)
    ensures BalancedClause(ClauseOf(f, c))
    ensures |ClauseOf(f, c).params| == if c == EitherAccount then 2 else 1
  {
    match c
    case MinDate =>
      assert "date > ?" == "date > " + "?";
      SingleMarkClause("date > ", PNull);
    case MaxDate =>
      assert "date < ?" == "date < " + "?";
      SingleMarkClause("date < ", PNull);
    case MinAmount =>
      assert "amount > ?" == "amount > " + "?";
      SingleMarkClause("amount > ", PNull);
    case MaxAmount =>
      assert "amount < ?" == "amount < " + "?";
      SingleMarkClause("amount < ", PNull);
    case CurrencyCode =>
      assert "c.code = ?" == "c.code = " + "?";
      SingleMarkClause("c.code = ", PNull);
    case DebitName =>
      assert "a_debit.name = ?" == "a_debit.name = " + "?";
      SingleMarkClause("a_debit.name = ", PNull);
    case CreditName =>
      assert "a_credit.name = ?" == "a_credit.name = " + "?";
      SingleMarkClause("a_credit.name = ", PNull);
    case EitherAccount =>
      EitherAccountBindsNameTwice(f);
    case CommentMatch =>
      assert "comment ~* ?" == "comment ~* " + "?";
      SingleMarkClause("comment ~* ", PNull);
  }

  /** Each condition contributes one value, the account condition two. */
  lemma {:induction false} ParamsCount(f: TxFilter, cs: seq<Condition>)
    requires Ascending(cs)
    ensures |ParamsOf(ClausesFor(f, cs))| == |cs| + (if EitherAccount in cs then 1 else 0)
  {
    if cs != [] {
      var init := cs[..|cs| - 1];
      var last := cs[|cs| - 1];
      ParamsCount(f, init);
      ClauseBalanced(f, last);
      assert cs == init + [last];
      if last == EitherAccount {
        assert EitherAccount !in init by {
          forall i | 0 <= i < |init|
            ensures init[i] != EitherAccount
          {
            assert Rank(cs[i]) < Rank(cs[|cs| - 1]);
          }
        }
      }
    }
  }

  /** The transaction listing binds one value per placeholder: the owner,
      then one per set field, and the account name a second time. */
  lemma TransactionStatementBalanced(f: TxFilter, userId: int)
    ensures Balanced(TransactionStatement(f, userId))
    ensures |TransactionStatement(f, userId).params|
            == 1 + |TxConditions(f)| + (if f.account.Some? then 1 else 0)
  {
    var cs := TxClauses(f);
    TxClausesBalanced(f);
    NoMarks(And);
    TxBaseHasOneMark();
    AppendedBalanced(TxBase, And, cs);
    ConditionsInOrder(f);
    assert EitherAccount in TxConditions(f) <==> f.account.Some?;
    ParamsCount(f, TxConditions(f));
  }

  lemma TxClausesBalanced(f: TxFilter)
    ensures forall i :: 0 <= i < |TxClauses(f)| ==> BalancedClause(TxClauses(f)[i])
  {
    ClausesForIndex(f, TxConditions(f));
    forall i | 0 <= i < |TxClauses(f)|
      ensures BalancedClause(TxClauses(f)[i])
    {
      ClauseBalanced(f, TxConditions(f)[i]);
    }
  }

  /** What the filter blocks have built once they have appended the
      conditions `cs` to `head` and bound their values after `start`. */
  ghost predicate Built(head: string, start: seq<Param>, f: TxFilter, cs: seq<Condition>, query: string, values: seq<Param>)
  {
    query == head + JoinWith(And, Texts(ClausesFor(f, cs)))
    && values == start + ParamsOf(ClausesFor(f, cs))
  }

  /** Appending one more condition, preceded by `" AND "` unless it is the
      first. */
  lemma Step(head: string, start: seq<Param>, f: TxFilter, cs: seq<Condition>, c: Condition,
             query: string, values: seq<Param>, first: bool)
    requires Built(head, start, f, cs, query, values)
    requires first == (cs == [])
    ensures Built(head, start, f, cs + [c], (if first then query else query + And) + ClauseOf(f, c).text,
                  values + ClauseOf(f, c).params)
  {
    var done := ClausesFor(f, cs);
    var clause := ClauseOf(f, c);
    ClausesForSnoc(f, cs, c);
    AppendClause(head, And, done, clause, query, first);
    JoinSnoc(And, done, clause);
    ParamsRegroup(start, ParamsOf(done), clause.params);
  }

  lemma ParamsRegroup(a: seq<Param>, b: seq<Param>, c: seq<Param>)
    ensures a + b + c == a + (b + c)
  {
  }

  lemma ClausesForSnoc(f: TxFilter, cs: seq<Condition>, c: Condition)
    ensures ClausesFor(f, cs + [c]) == ClausesFor(f, cs) + [ClauseOf(f, c)]
  {
    assert (cs + [c])[..|cs|] == cs;
  }

  /** One filter block of `getTransactions`: when the filter sets the
      field behind `c`, `" AND "` unless this is the first condition, then
      the condition's text, and its values bound after those already
      collected. */
  method AppendIfSet(ghost head: string, ghost start: seq<Param>, f: TxFilter, ghost cs: seq<Condition>, c: Condition,
                     query: string, values: seq<Param>, firstCondition: bool)
    returns (query': string, values': seq<Param>, firstCondition': bool, ghost cs': seq<Condition>)
    requires Built(head, start, f, cs, query, values)
    requires firstCondition == (cs == [])
    ensures cs' == cs + Pick(f, c)
    ensures Built(head, start, f, cs', query', values')
    ensures firstCondition' == (cs' == [])
  {
    query', values', firstCondition', cs' := query, values, firstCondition, cs + Pick(f, c);
    if IsSet(f, c) {
      Step(head, start, f, cs, c, query, values, firstCondition);
      if !firstCondition' {
        query' := query' + And;
      } else {
        firstCondition' := false;
      }
      query' := query' + ClauseOf(f, c).text;
      values' := values' + ClauseOf(f, c).params;
    } else {
      assert cs + Pick(f, c) == cs;
    }
  }

  /** The filter blocks of `getTransactions`, run once the base query and an
      opening `" AND "` are in place: the conditions of the set fields are
      appended in the field order, separated by `" AND "`, and their values
      bound after those already collected. */
  method AppendConditions(f: TxFilter, query: string, values: seq<Param>)
    returns (query': string, values': seq<Param>)
    ensures query' == query + JoinWith(And, Texts(TxClauses(f)))
    ensures values' == values + ParamsOf(TxClauses(f))
  {
    ghost var cs: seq<Condition> := [];
    var firstCondition := true;
    query', values' := query, values;
    assert Built(query, values, f, cs, query', values') by {
      assert Texts(ClausesFor(f, cs)) == [];
    }
    query', values', firstCondition, cs := AppendIfSet(query, values, f, cs, MinDate, query', values', firstCondition);
    query', values', firstCondition, cs := AppendIfSet(query, values, f, cs, MaxDate, query', values', firstCondition);
    query', values', firstCondition, cs := AppendIfSet(query, values, f, cs, MinAmount, query', values', firstCondition);
    query', values', firstCondition, cs := AppendIfSet(query, values, f, cs, MaxAmount, query', values', firstCondition);
    query', values', firstCondition, cs := AppendIfSet(query, values, f, cs, CurrencyCode, query', values', firstCondition);
    query', values', firstCondition, cs := AppendIfSet(query, values, f, cs, DebitName, query', values', firstCondition);
    query', values', firstCondition, cs := AppendIfSet(query, values, f, cs, CreditName, query', values', firstCondition);
    query', values', firstCondition, cs := AppendIfSet(query, values, f, cs, EitherAccount, query', values', firstCondition);
    query', values', firstCondition, cs := AppendIfSet(query, values, f, cs, CommentMatch, query', values', firstCondition);
    TxConditionsPicked(f);
    assert cs == TxConditions(f) by {
      assert [] + Pick(f, MinDate) == Pick(f, MinDate);
    }
  }

  /** `getTransactions`: one `AND`-separated condition per set field, in the
      field order, the account name bound twice and the comment fragment as
      a pattern; the rows are whatever the store returns. */
  method GetTransactions(f: TxFilter, userId: int, store: Store)
    returns (issued: Statement, transactions: seq<Transaction>)
    ensures issued == TransactionStatement(f, userId)
    ensures Balanced(issued)
    ensures transactions == store.transactionRows(issued)
  {
    var values := [PInt(userId)];
    var query := TxBase;
    if f.minDate.Some? || f.maxDate.Some? || f.minAmount.Some? || f.maxAmount.Some?
       || f.currency.Some? || f.debit.Some? || f.credit.Some? || f.account.Some?
       || f.commentHas.Some? {
      query := query + And;
      query, values := AppendConditions(f, query, values);
      NoConditionsIffEmpty(f);
      SeparatorThenJoin(TxBase, And, TxClauses(f), query);
    } else {
      EmptyFilterIsBase(f, userId);
    }
    issued := Statement(query, values);
    TransactionStatementBalanced(f, userId);
    transactions := store.transactionRows(issued);
  }
}
