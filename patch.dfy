/** Partial updates (`Model.patchCurrency`, `Model.patchAccount`,
    `Model.patchTransaction`): an `UPDATE ... SET` whose assignments are the
    non-null fields of the patch, in a fixed order and separated by `", "`,
    followed by a `WHERE` tail that binds the owner and the old key; a
    reference by name or code is resolved to an id first. */
module Patch {

  import opened Wrappers
  import opened Sql
  import opened Records
  import opened Lookup

  const Comma: string := ", "

  /** The assignment `<column> = ?`, binding `value`. */
  function Assign(column: string, value: Param): Clause
  {
    Clause(column + " = " + "?", [value])
  }

  /** `[a]` when the patch field behind it is non-null, nothing otherwise. */
  function Optional(present: bool, a: Clause): seq<Clause>
  {
    if present then [a] else []
  }

  /** `" WHERE user_id = ? AND <column> = ?"`. */
  function WhereOwnerAnd(column: string): string
  {
    " WHERE user_id = " + "?" + " AND " + column + " = " + "?"
  }

  /** An update: the head, the assignments joined with `", "`, the tail; the
      values of the assignments, then the owner and the old key. */
  function Update(head: string, sets: seq<Clause>, tail: string, userId: int, key: Param): Statement
  {
    Statement(head + JoinWith(Comma, Texts(sets)) + tail, ParamsOf(sets) + [PInt(userId), key])
  }

  /** The answer of an `UPDATE ... RETURNING`: the new key, or the not-found
      exception when no row came back (or its key is null). */
  function NewKey(key: Option<string>, notFound: string): (r: Result<string>)
    ensures r.Success? <==> key.Some?
    ensures r.Success? ==> r.value == key.value
    ensures r.Failure? ==> r.error == Exception(notFound)
  {
    if key.None? then Failure(Exception(notFound)) else Success(key.value)
  }

  /** The answer of an `executeUpdate`: the not-found exception exactly when
      no row was affected. */
  function RowsAffected(count: int, notFound: string): (r: Result<()>)
    ensures r.Failure? <==> count == 0
    ensures r.Failure? ==> r.error == Exception(notFound)
  {
    if count == 0 then Failure(Exception(notFound)) else Success(())
  }

  /** The id a reference resolves to: its lookup when the field is set,
      and an unused 0 otherwise. */
  function IdIfSet(field: Option<string>, lookup: Result<int>): Result<int>
  {
    if field.Some? then lookup else Success(0)
  }

  // ---------------------------------------------------------------------
  // Placeholder counts

  /** Every clause has one placeholder and binds one value. */
  predicate SingleMarks(sets: seq<Clause>)
  {
    forall i :: 0 <= i < |sets| ==> BalancedClause(sets[i]) && |sets[i].params| == 1
  }

  lemma OptionalSingle(present: bool, column: string, value: Param)
    requires '?' !in column
    ensures SingleMarks(Optional(present, Assign(column, value)))
  {
    SingleMarkClause(column + " = ", value);
  }

  lemma SingleMarksAppend(a: seq<Clause>, b: seq<Clause>)
    requires SingleMarks(a) && SingleMarks(b)
    ensures SingleMarks(a + b)
  {
    forall i | 0 <= i < |a + b|
      ensures BalancedClause((a + b)[i]) && |(a + b)[i].params| == 1
    {
      if i >= |a| {
        assert (a + b)[i] == b[i - |a|];
      }
    }
  }

  /** One more optional assignment keeps every clause at one value, and
      adds one clause when the field is set. */
  lemma SingleMarksSnoc(sets: seq<Clause>, present: bool, column: string, value: Param)
    returns (sets': seq<Clause>)
    requires SingleMarks(sets)
    requires '?' !in column
    ensures sets' == sets + Optional(present, Assign(column, value))
    ensures SingleMarks(sets')
    ensures |sets'| == |sets| + (if present then 1 else 0)
  {
    sets' := sets + Optional(present, Assign(column, value));
    OptionalSingle(present, column, value);
    SingleMarksAppend(sets, Optional(present, Assign(column, value)));
  }

  /** Clauses of one value each bind as many values as there are clauses. */
  lemma {:induction false} SingleMarksCount(sets: seq<Clause>)
    requires SingleMarks(sets)
    ensures |ParamsOf(sets)| == |sets|
  {
    if sets != [] {
      SingleMarksCount(sets[..|sets| - 1]);
    }
  }

  lemma WhereOwnerAndMarks(column: string)
    requires '?' !in column
    ensures Placeholders(WhereOwnerAnd(column)) == 2
  {
    var owner := " WHERE user_id = ";
    NoMarks(owner);
    NoMarks(" AND " + column + " = ");
    OneMark();
    PlaceholdersAdditive(owner, "?");
    PlaceholdersAdditive(owner + "?", " AND " + column + " = ");
    assert owner + "?" + " AND " + column + " = " == owner + "?" + (" AND " + column + " = ");
    PlaceholdersAdditive(owner + "?" + " AND " + column + " = ", "?");
  }

  /** An update whose assignments each bind one value binds one value per
      placeholder: the assignments', then the owner and the old key for the
      two placeholders of the tail. */
  lemma UpdateBalanced(head: string, sets: seq<Clause>, tail: string, userId: int, key: Param)
    requires '?' !in head
    requires Placeholders(tail) == 2
    requires SingleMarks(sets)
    ensures Balanced(Update(head, sets, tail, userId, key))
    ensures |Update(head, sets, tail, userId, key).params| == |sets| + 2
  {
    NoMarks(head);
    NoMarks(Comma);
    JoinBalanced(Comma, sets);
    SingleMarksCount(sets);
    PlaceholdersAdditive(head, JoinWith(Comma, Texts(sets)));
    PlaceholdersAdditive(head + JoinWith(Comma, Texts(sets)), tail);
  }

  /** With no assignment the update is the head directly followed by the
      tail, binding the owner and the old key only. */
  lemma EmptyUpdate(head: string, tail: string, userId: int, key: Param)
    ensures Update(head, [], tail, userId, key) == Statement(head + tail, [PInt(userId), key])
  {
    assert Texts([]) == [];
  }

  // ---------------------------------------------------------------------
  // Building the assignment list

  /** The assignments `sets` have been written after `head`, separated by
      `", "`, and their values collected. */
  ghost predicate Assigned(head: string, sets: seq<Clause>, query: string, values: seq<Param>)
  {
    query == head + JoinWith(Comma, Texts(sets)) && values == ParamsOf(sets)
  }

  /** One field block of a patch: `", "` unless this is the first
      assignment (the first block of each patch only clears the flag), then
      the assignment, and its value collected. */
  method AppendAssignment(ghost head: string, ghost sets: seq<Clause>, present: bool, a: Clause,
                          query: string, values: seq<Param>, firstStatement: bool)
    returns (query': string, values': seq<Param>, firstStatement': bool, ghost sets': seq<Clause>)
    requires Assigned(head, sets, query, values)
    requires firstStatement == (sets == [])
    ensures sets' == sets + Optional(present, a)
    ensures Assigned(head, sets', query', values')
    ensures firstStatement' == (sets' == [])
  {
    query', values', firstStatement', sets' := query, values, firstStatement, sets + Optional(present, a);
    if present {
      AppendClause(head, Comma, sets, a, query, firstStatement);
      JoinSnoc(Comma, sets, a);
      if !firstStatement' {
        query' := query' + Comma;
      } else {
        firstStatement' := false;
      }
      query' := query' + a.text;
      values' := values' + a.params;
    } else {
      assert sets + Optional(present, a) == sets;
    }
  }

  /** The end of `patchCurrency` and `patchAccount`: the tail is appended,
      the owner and the old key are bound after the assignments, the
      statement is run, and the key of the row it returns is the answer. */
  method UpdateReturning(ghost head: string, ghost sets: seq<Clause>, query: string, values: seq<Param>,
                         tail: string, userId: int, oldKey: Param, store: Store, notFound: string)
    returns (issued: Statement, r: Result<string>)
    requires Assigned(head, sets, query, values)
    ensures issued == Update(head, sets, tail, userId, oldKey)
    ensures r == NewKey(store.updatedKey(issued), notFound)
  {
    var q := query + tail;
    var v := values + [PInt(userId), oldKey];
    issued := Statement(q, v);
    var newKey := store.updatedKey(issued);
    r := NewKey(newKey, notFound);
  }

  // ---------------------------------------------------------------------
  // patchCurrency

  const CurrencyHead: string := "UPDATE currencies SET "
  const CurrencyTail: string := WhereOwnerAnd("code") + " RETURNING code"
  const CurrencyNotFound: string := "Currency code not found."

  /** The assignments of a currency patch: code, name, type, each when set. */
  function CurrencyAssignments(c: Currency, typeId: int): seq<Clause>
  {
    Optional(c.code.Some?, Assign("code", StrParam(c.code)))
    + Optional(c.name.Some?, Assign("name", StrParam(c.name)))
    + Optional(c.typeName.Some?, Assign("type", PInt(typeId)))
  }

  function CurrencyUpdate(oldCode: Option<string>, c: Currency, userId: int, typeId: int): Statement
  {
    Update(CurrencyHead, CurrencyAssignments(c, typeId), CurrencyTail, userId, StrParam(oldCode))
  }

  /** What `patchCurrency` does: it resolves the type name (and issues
      no `UPDATE` when that throws), then updates the currency and returns the
      new code, or throws when no currency of the owner has the old code. */
  function PatchCurrencyOutcome(oldCode: Option<string>, c: Currency, userId: int, store: Store): (o: Outcome<string>)
    ensures o.issued.None? <==> c.typeName.Some? && CurrencyTypeIdOf(store, c.typeName).Failure?
    ensures o.issued.None? ==> o.result == Failure(CurrencyTypeIdOf(store, c.typeName).error)
    ensures o.issued.Some? ==> (o.result.Success? <==> store.updatedKey(o.issued.value).Some?)
    ensures o.issued.Some? && o.result.Success? ==> o.result.value == store.updatedKey(o.issued.value).value
    ensures o.issued.Some? && o.result.Failure? ==> o.result.error == Exception(CurrencyNotFound)
  {
    var typeId := IdIfSet(c.typeName, CurrencyTypeIdOf(store, c.typeName));
    if typeId.Failure? then Outcome(None, Failure(typeId.error))
    else
      var st := CurrencyUpdate(oldCode, c, userId, typeId.value);
      Outcome(Some(st), NewKey(store.updatedKey(st), CurrencyNotFound))
  }

  /** A currency patch assigns one column per non-null field. */
  lemma CurrencyAssignmentsSingle(c: Currency, typeId: int)
    ensures SingleMarks(CurrencyAssignments(c, typeId))
    ensures |CurrencyAssignments(c, typeId)|
            == (if c.code.Some? then 1 else 0) + (if c.name.Some? then 1 else 0)
               + (if c.typeName.Some? then 1 else 0)
  {
    var code := Optional(c.code.Some?, Assign("code", StrParam(c.code)));
    var name := Optional(c.name.Some?, Assign("name", StrParam(c.name)));
    OptionalSingle(c.code.Some?, "code", StrParam(c.code));
    OptionalSingle(c.name.Some?, "name", StrParam(c.name));
    OptionalSingle(c.typeName.Some?, "type", PInt(typeId));
    SingleMarksAppend(code, name);
    SingleMarksAppend(code + name, Optional(c.typeName.Some?, Assign("type", PInt(typeId))));
  }

  lemma CurrencyTailMarks()
    ensures Placeholders(CurrencyTail) == 2
  {
    WhereOwnerAndMarks("code");
    NoMarks(" RETURNING code");
    PlaceholdersAdditive(WhereOwnerAnd("code"), " RETURNING code");
  }

  /** A currency update binds one value per placeholder: one per non-null
      field, then the owner and the old code. */
  lemma CurrencyUpdateBalanced(oldCode: Option<string>, c: Currency, userId: int, typeId: int)
    ensures Balanced(CurrencyUpdate(oldCode, c, userId, typeId))
    ensures |CurrencyUpdate(oldCode, c, userId, typeId).params|
            == (if c.code.Some? then 1 else 0) + (if c.name.Some? then 1 else 0)
               + (if c.typeName.Some? then 1 else 0) + 2
    ensures CurrencyUpdate(oldCode, c, userId, typeId).params[|CurrencyAssignments(c, typeId)|..]
            == [PInt(userId), StrParam(oldCode)]
  {
    var sets := CurrencyAssignments(c, typeId);
    CurrencyAssignmentsSingle(c, typeId);
    CurrencyTailMarks();
    UpdateBalanced(CurrencyHead, sets, CurrencyTail, userId, StrParam(oldCode));
    SingleMarksCount(sets);
  }

  /** A currency patch with no field is the bare
      `UPDATE currencies SET  WHERE ...`, binding the owner and the old code
      only. */
  lemma EmptyCurrencyPatch(oldCode: Option<string>, c: Currency, userId: int, typeId: int)
    requires c.code.None? && c.name.None? && c.typeName.None?
    ensures CurrencyUpdate(oldCode, c, userId, typeId)
            == Statement(CurrencyHead + CurrencyTail, [PInt(userId), StrParam(oldCode)])
  {
    assert CurrencyAssignments(c, typeId) == [];
    EmptyUpdate(CurrencyHead, CurrencyTail, userId, StrParam(oldCode));
  }

  /** The field blocks of `patchCurrency`: code, name and type, each when
      non-null, separated by `", "`. */
  method CurrencySetList(c: Currency, typeId: int) returns (query: string, values: seq<Param>)
    ensures Assigned(CurrencyHead, CurrencyAssignments(c, typeId), query, values)
  {
    values := [];
    query := CurrencyHead;
    var firstStatement := true;
    ghost var sets: seq<Clause> := [];
    assert Assigned(CurrencyHead, sets, query, values) by {
      assert Texts(sets) == [];
    }
    query, values, firstStatement, sets :=
      AppendAssignment(CurrencyHead, sets, c.code.Some?, Assign("code", StrParam(c.code)), query, values, firstStatement);
    query, values, firstStatement, sets :=
      AppendAssignment(CurrencyHead, sets, c.name.Some?, Assign("name", StrParam(c.name)), query, values, firstStatement);
    query, values, firstStatement, sets :=
      AppendAssignment(CurrencyHead, sets, c.typeName.Some?, Assign("type", PInt(typeId)), query, values, firstStatement);
    assert [] + Optional(c.code.Some?, Assign("code", StrParam(c.code)))
           == Optional(c.code.Some?, Assign("code", StrParam(c.code)));
  }

  /** `patchCurrency`. The type name is resolved before the assignment list
      is written rather than in the middle of it; writing the list changes
      nothing the store sees, so the statement and the exceptions are the
      same. */
  method PatchCurrency(oldCode: Option<string>, c: Currency, userId: int, store: Store)
    returns (issued: Option<Statement>, r: Result<string>)
    ensures Outcome(issued, r) == PatchCurrencyOutcome(oldCode, c, userId, store)
    ensures issued.Some? ==> Balanced(issued.value)
  {
    var typeId := 0;
    if c.typeName.Some? {
      var found := FindCurrencyTypeId(c.typeName, store);
      if found.Failure? {
        return None, Failure(found.error);
      }
      typeId := found.value;
    }
    var query, values := CurrencySetList(c, typeId);
    var st;
    st, r := UpdateReturning(CurrencyHead, CurrencyAssignments(c, typeId), query, values,
                             CurrencyTail, userId, StrParam(oldCode), store, CurrencyNotFound);
    issued := Some(st);
    CurrencyUpdateBalanced(oldCode, c, userId, typeId);
  }

  // ---------------------------------------------------------------------
  // patchAccount

  const AccountHead: string := "UPDATE accounts SET "
  const AccountTail: string := WhereOwnerAnd("name") + " RETURNING name"
  const AccountNotFound: string := "Account name not found."

  /** The assignments of an account patch: type, then name, each when set. */
  function AccountAssignments(a: Account, typeId: int): seq<Clause>
  {
    Optional(a.typeName.Some?, Assign("type", PInt(typeId)))
    + Optional(a.name.Some?, Assign("name", StrParam(a.name)))
  }

  function AccountUpdate(oldName: Option<string>, a: Account, userId: int, typeId: int): Statement
  {
    Update(AccountHead, AccountAssignments(a, typeId), AccountTail, userId, StrParam(oldName))
  }

  /** What `patchAccount` does: it resolves the type name (and issues
      no `UPDATE` when that throws), then updates the account and returns the
      new name, or throws when no account of the owner has the old name. */
  function PatchAccountOutcome(oldName: Option<string>, a: Account, userId: int, store: Store): (o: Outcome<string>)
    ensures o.issued.None? <==> a.typeName.Some? && AccountTypeIdOf(store, a.typeName).Failure?
    ensures o.issued.None? ==> o.result == Failure(AccountTypeIdOf(store, a.typeName).error)
    ensures o.issued.Some? ==> (o.result.Success? <==> store.updatedKey(o.issued.value).Some?)
    ensures o.issued.Some? && o.result.Success? ==> o.result.value == store.updatedKey(o.issued.value).value
    ensures o.issued.Some? && o.result.Failure? ==> o.result.error == Exception(AccountNotFound)
  {
    var typeId := IdIfSet(a.typeName, AccountTypeIdOf(store, a.typeName));
    if typeId.Failure? then Outcome(None, Failure(typeId.error))
    else
      var st := AccountUpdate(oldName, a, userId, typeId.value);
      Outcome(Some(st), NewKey(store.updatedKey(st), AccountNotFound))
  }

  /** An account patch assigns one column per non-null field. */
  lemma AccountAssignmentsSingle(a: Account, typeId: int)
    ensures SingleMarks(AccountAssignments(a, typeId))
    ensures |AccountAssignments(a, typeId)| == (if a.typeName.Some? then 1 else 0) + (if a.name.Some? then 1 else 0)
  {
    OptionalSingle(a.typeName.Some?, "type", PInt(typeId));
    OptionalSingle(a.name.Some?, "name", StrParam(a.name));
    SingleMarksAppend(Optional(a.typeName.Some?, Assign("type", PInt(typeId))),
                      Optional(a.name.Some?, Assign("name", StrParam(a.name))));
  }

  lemma AccountTailMarks()
    ensures Placeholders(AccountTail) == 2
  {
    WhereOwnerAndMarks("name");
    NoMarks(" RETURNING name");
    PlaceholdersAdditive(WhereOwnerAnd("name"), " RETURNING name");
  }

  /** An account update binds one value per placeholder: one per non-null
      field, then the owner and the old name. */
  lemma AccountUpdateBalanced(oldName: Option<string>, a: Account, userId: int, typeId: int)
    ensures Balanced(AccountUpdate(oldName, a, userId, typeId))
    ensures |AccountUpdate(oldName, a, userId, typeId).params|
            == (if a.typeName.Some? then 1 else 0) + (if a.name.Some? then 1 else 0) + 2
    ensures AccountUpdate(oldName, a, userId, typeId).params[|AccountAssignments(a, typeId)|..]
            == [PInt(userId), StrParam(oldName)]
  {
    var sets := AccountAssignments(a, typeId);
    AccountAssignmentsSingle(a, typeId);
    AccountTailMarks();
    UpdateBalanced(AccountHead, sets, AccountTail, userId, StrParam(oldName));
    SingleMarksCount(sets);
  }

  /** The field blocks of `patchAccount`: type, then name, each when
      non-null, separated by `", "`. */
  method AccountSetList(a: Account, typeId: int) returns (query: string, values: seq<Param>)
    ensures Assigned(AccountHead, AccountAssignments(a, typeId), query, values)
  {
    values := [];
    query := AccountHead;
    var firstStatement := true;
    ghost var sets: seq<Clause> := [];
    assert Assigned(AccountHead, sets, query, values) by {
      assert Texts(sets) == [];
    }
    query, values, firstStatement, sets :=
      AppendAssignment(AccountHead, sets, a.typeName.Some?, Assign("type", PInt(typeId)), query, values, firstStatement);
    query, values, firstStatement, sets :=
      AppendAssignment(AccountHead, sets, a.name.Some?, Assign("name", StrParam(a.name)), query, values, firstStatement);
    assert [] + Optional(a.typeName.Some?, Assign("type", PInt(typeId)))
           == Optional(a.typeName.Some?, Assign("type", PInt(typeId)));
  }

  /** `patchAccount`. */
  method PatchAccount(oldName: Option<string>, a: Account, userId: int, store: Store)
    returns (issued: Option<Statement>, r: Result<string>)
    ensures Outcome(issued, r) == PatchAccountOutcome(oldName, a, userId, store)
    ensures issued.Some? ==> Balanced(issued.value)
  {
    var typeId := 0;
    if a.typeName.Some? {
      var found := FindAccountTypeId(a.typeName, store);
      if found.Failure? {
        return None, Failure(found.error);
      }
      typeId := found.value;
    }
    var query, values := AccountSetList(a, typeId);
    var st;
    st, r := UpdateReturning(AccountHead, AccountAssignments(a, typeId), query, values,
                             AccountTail, userId, StrParam(oldName), store, AccountNotFound);
    issued := Some(st);
    AccountUpdateBalanced(oldName, a, userId, typeId);
  }

  // ---------------------------------------------------------------------
  // patchTransaction

  const TransactionHead: string := "UPDATE transactions SET "
  const TransactionTail: string := WhereOwnerAnd("id")
  const TransactionNotFound: string := "Transaction id not found."

  /** The assignments of a transaction patch: date, amount, currency,
      debit, credit, comment, each when set; the currency and the accounts
      by id. */
  function TransactionAssignments(t: Transaction, currencyId: int, debitId: int, creditId: int): seq<Clause>
  {
    Optional(t.date.Some?, Assign("date", StrParam(t.date)))
    + Optional(t.amount.Some?, Assign("amount", DecParam(t.amount)))
    + Optional(t.currency.Some?, Assign("currency", PInt(currencyId)))
    + Optional(t.debit.Some?, Assign("debit", PInt(debitId)))
    + Optional(t.credit.Some?, Assign("credit", PInt(creditId)))
    + Optional(t.comment.Some?, Assign("comment", StrParam(t.comment)))
  }

  function TransactionUpdate(id: int, t: Transaction, userId: int, currencyId: int, debitId: int, creditId: int): Statement
  {
    Update(TransactionHead, TransactionAssignments(t, currencyId, debitId, creditId), TransactionTail, userId, PInt(id))
  }

  /** What `patchTransaction` does: it resolves the currency code, then the
      debit and the credit account names, and issues no `UPDATE` when one
      of them throws, throwing the first lookup's exception; then it updates the transaction, and throws when no
      transaction of the owner has that id. */
  function PatchTransactionOutcome(id: int, t: Transaction, userId: int, store: Store): (o: Outcome<()>)
    ensures o.issued.None? <==>
              (t.currency.Some? && CurrencyIdOf(store, userId, t.currency).Failure?)
              || (t.debit.Some? && AccountIdOf(store, userId, t.debit).Failure?)
              || (t.credit.Some? && AccountIdOf(store, userId, t.credit).Failure?)
    ensures o.issued.None? ==>
              o.result == Failure(
                if t.currency.Some? && CurrencyIdOf(store, userId, t.currency).Failure?
                then CurrencyIdOf(store, userId, t.currency).error
                else if t.debit.Some? && AccountIdOf(store, userId, t.debit).Failure?
                then AccountIdOf(store, userId, t.debit).error
                else AccountIdOf(store, userId, t.credit).error)
    ensures o.issued.Some? ==> (o.result.Failure? <==> store.affectedRows(o.issued.value) == 0)
    ensures o.issued.Some? && o.result.Failure? ==> o.result.error == Exception(TransactionNotFound)
  {
    var currencyId := IdIfSet(t.currency, CurrencyIdOf(store, userId, t.currency));
    var debitId := IdIfSet(t.debit, AccountIdOf(store, userId, t.debit));
    var creditId := IdIfSet(t.credit, AccountIdOf(store, userId, t.credit));
    if currencyId.Failure? then Outcome(None, Failure(currencyId.error))
    else if debitId.Failure? then Outcome(None, Failure(debitId.error))
    else if creditId.Failure? then Outcome(None, Failure(creditId.error))
    else
      var st := TransactionUpdate(id, t, userId, currencyId.value, debitId.value, creditId.value);
      Outcome(Some(st), RowsAffected(store.affectedRows(st), TransactionNotFound))
  }

  /** A transaction patch assigns one column per non-null field. */
  lemma TransactionAssignmentsSingle(t: Transaction, currencyId: int, debitId: int, creditId: int)
    ensures SingleMarks(TransactionAssignments(t, currencyId, debitId, creditId))
    ensures |TransactionAssignments(t, currencyId, debitId, creditId)|
            == (if t.date.Some? then 1 else 0) + (if t.amount.Some? then 1 else 0)
               + (if t.currency.Some? then 1 else 0) + (if t.debit.Some? then 1 else 0)
               + (if t.credit.Some? then 1 else 0) + (if t.comment.Some? then 1 else 0)
  {
    var s1 := Optional(t.date.Some?, Assign("date", StrParam(t.date)));
    OptionalSingle(t.date.Some?, "date", StrParam(t.date));
    var s2 := SingleMarksSnoc(s1, t.amount.Some?, "amount", DecParam(t.amount));
    var s3 := SingleMarksSnoc(s2, t.currency.Some?, "currency", PInt(currencyId));
    var s4 := SingleMarksSnoc(s3, t.debit.Some?, "debit", PInt(debitId));
    var s5 := SingleMarksSnoc(s4, t.credit.Some?, "credit", PInt(creditId));
    var s6 := SingleMarksSnoc(s5, t.comment.Some?, "comment", StrParam(t.comment));
  }

  lemma TransactionTailMarks()
    ensures Placeholders(TransactionTail) == 2
  {
    WhereOwnerAndMarks("id");
  }

  /** A transaction update binds one value per placeholder: one per
      non-null field, then the owner and the id. */
  lemma TransactionUpdateBalanced(id: int, t: Transaction, userId: int, currencyId: int, debitId: int, creditId: int)
    ensures Balanced(TransactionUpdate(id, t, userId, currencyId, debitId, creditId))
    ensures |TransactionUpdate(id, t, userId, currencyId, debitId, creditId).params|
            == |TransactionAssignments(t, currencyId, debitId, creditId)| + 2
    ensures TransactionUpdate(id, t, userId, currencyId, debitId, creditId)
              .params[|TransactionAssignments(t, currencyId, debitId, creditId)|..]
            == [PInt(userId), PInt(id)]
  {
    var sets := TransactionAssignments(t, currencyId, debitId, creditId);
    TransactionAssignmentsSingle(t, currencyId, debitId, creditId);
    TransactionTailMarks();
    UpdateBalanced(TransactionHead, sets, TransactionTail, userId, PInt(id));
    SingleMarksCount(sets);
  }

  /** The end of `patchTransaction`: the tail is appended, the owner and the
      id are bound after the assignments, the statement is run, and it
      throws when no row was updated. */
  method UpdateCounting(ghost head: string, ghost sets: seq<Clause>, query: string, values: seq<Param>,
                        tail: string, userId: int, key: Param, store: Store, notFound: string)
    returns (issued: Statement, r: Result<()>)
    requires Assigned(head, sets, query, values)
    ensures issued == Update(head, sets, tail, userId, key)
    ensures r == RowsAffected(store.affectedRows(issued), notFound)
  {
    var q := query + tail;
    var v := values + [PInt(userId), key];
    issued := Statement(q, v);
    var rowsUpdated := store.affectedRows(issued);
    r := RowsAffected(rowsUpdated, notFound);
  }

  /** The field blocks of `patchTransaction`: date, amount, currency,
      debit, credit and comment, each when non-null, separated by `", "`. */
  method TransactionSetList(t: Transaction, currencyId: int, debitId: int, creditId: int)
    returns (query: string, values: seq<Param>)
    ensures Assigned(TransactionHead, TransactionAssignments(t, currencyId, debitId, creditId), query, values)
  {
    values := [];
    query := TransactionHead;
    var firstStatement := true;
    ghost var sets: seq<Clause> := [];
    assert Assigned(TransactionHead, sets, query, values) by {
      assert Texts(sets) == [];
    }
    query, values, firstStatement, sets :=
      AppendAssignment(TransactionHead, sets, t.date.Some?, Assign("date", StrParam(t.date)), query, values, firstStatement);
    query, values, firstStatement, sets :=
      AppendAssignment(TransactionHead, sets, t.amount.Some?, Assign("amount", DecParam(t.amount)), query, values, firstStatement);
    query, values, firstStatement, sets :=
      AppendAssignment(TransactionHead, sets, t.currency.Some?, Assign("currency", PInt(currencyId)), query, values, firstStatement);
    query, values, firstStatement, sets :=
      AppendAssignment(TransactionHead, sets, t.debit.Some?, Assign("debit", PInt(debitId)), query, values, firstStatement);
    query, values, firstStatement, sets :=
      AppendAssignment(TransactionHead, sets, t.credit.Some?, Assign("credit", PInt(creditId)), query, values, firstStatement);
    query, values, firstStatement, sets :=
      AppendAssignment(TransactionHead, sets, t.comment.Some?, Assign("comment", StrParam(t.comment)), query, values, firstStatement);
    assert [] + Optional(t.date.Some?, Assign("date", StrParam(t.date)))
           == Optional(t.date.Some?, Assign("date", StrParam(t.date)));
  }

  /** `patchTransaction`. The currency code and the account names are
      resolved, in that order, before the assignment list is written rather
      than in the middle of it; writing the list changes nothing the store
      sees, so the statement and the exceptions are the same. */
  method PatchTransaction(id: int, t: Transaction, userId: int, store: Store)
    returns (issued: Option<Statement>, r: Result<()>)
    ensures Outcome(issued, r) == PatchTransactionOutcome(id, t, userId, store)
    ensures issued.Some? ==> Balanced(issued.value)
  {
    var currencyId := 0;
    if t.currency.Some? {
      var found := FindCurrencyId(t.currency, userId, store);
      if found.Failure? {
        return None, Failure(found.error);
      }
      currencyId := found.value;
    }
    var debitId := 0;
    if t.debit.Some? {
      var found := FindAccountId(t.debit, userId, store);
      if found.Failure? {
        return None, Failure(found.error);
      }
      debitId := found.value;
    }
    var creditId := 0;
    if t.credit.Some? {
      var found := FindAccountId(t.credit, userId, store);
      if found.Failure? {
        return None, Failure(found.error);
      }
      creditId := found.value;
    }
    var query, values := TransactionSetList(t, currencyId, debitId, creditId);
    var st;
    st, r := UpdateCounting(TransactionHead, TransactionAssignments(t, currencyId, debitId, creditId), query, values,
                            TransactionTail, userId, PInt(id), store, TransactionNotFound);
    issued := Some(st);
    TransactionUpdateBalanced(id, t, userId, currencyId, debitId, creditId);
  }
}
