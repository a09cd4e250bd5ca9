/** Prepared-statement text and bound parameters, as the data-access layer
    builds them: a query string with `?` placeholders and the values bound
    to them, in order. What the database does with a statement is not
    modelled. */
module Sql {

  import opened Wrappers

  /** A `java.math.BigDecimal`, unscaled value times ten to the minus scale.
      Amounts are only passed through, never computed with. */
  datatype Decimal = Decimal(unscaled: int, scale: int)

  /** A value bound to a placeholder by `setInt`, `setString`,
      `setBigDecimal` or `setObject`; `PNull` is SQL NULL. */
  datatype Param = PInt(i: int) | PStr(s: string) | PDec(d: Decimal) | PNull

  /** One condition or assignment of a statement: its text and the values
      bound to the placeholders it contains, in order. */
  datatype Clause = Clause(text: string, params: seq<Param>)

  /** A prepared statement: `params[i]` is bound to placeholder `i + 1`. */
  datatype Statement = Statement(query: string, params: seq<Param>)

  /** `setString` with a possibly-null string. */
  function StrParam(s: Option<string>): (p: Param)
    ensures p == PNull <==> s.None?
  {
    match s
    case Some(v) => PStr(v)
    case None => PNull
  }

  /** `setBigDecimal` with a possibly-null amount. */
  function DecParam(d: Option<Decimal>): (p: Param)
    ensures p == PNull <==> d.None?
  {
    match d
    case Some(v) => PDec(v)
    case None => PNull
  }

  /** The number of `?` placeholders in a query text. */
  function Placeholders(s: string): nat
  {
    if s == [] then 0
    else Placeholders(s[..|s| - 1]) + (if s[|s| - 1] == '?' then 1 else 0)
  }

  lemma {:induction false} NoMarks(s: string)
    requires '?' !in s
    ensures Placeholders(s) == 0
  {
    if s != [] {
      NoMarks(s[..|s| - 1]);
    }
  }

  lemma {:induction false} PlaceholdersAdditive(a: string, b: string)
    ensures Placeholders(a + b) == Placeholders(a) + Placeholders(b)
  {
    if b == [] {
      assert a + b == a;
    } else {
      assert (a + b)[..|a + b| - 1] == a + b[..|b| - 1];
      PlaceholdersAdditive(a, b[..|b| - 1]);
    }
  }

  lemma OneMark()
    ensures Placeholders("?") == 1
  {
    assert "?"[..0] == [];
  }

  /** A clause binds exactly as many values as it has placeholders. */
  predicate BalancedClause(c: Clause)
  {
    Placeholders(c.text) == |c.params|
  }

  /** A statement binds exactly as many values as it has placeholders. */
  predicate Balanced(st: Statement)
  {
    Placeholders(st.query) == |st.params|
  }

  function Texts(cs: seq<Clause>): (r: seq<string>)
    ensures |r| == |cs|
    ensures forall i :: 0 <= i < |cs| ==> r[i] == cs[i].text
  {
    seq(|cs|, i requires 0 <= i < |cs| => cs[i].text)
  }

  /** The values of the clauses, in clause order. */
  function ParamsOf(cs: seq<Clause>): seq<Param>
  {
    if cs == [] then [] else ParamsOf(cs[..|cs| - 1]) + cs[|cs| - 1].params
  }

  /** `xs[0] + sep + xs[1] + ... + sep + xs[n-1]`: one separator between
      consecutive items, none before the first or after the last. */
  function JoinWith(sep: string, xs: seq<string>): string
  {
    if |xs| == 0 then ""
    else if |xs| == 1 then xs[0]
    else JoinWith(sep, xs[..|xs| - 1]) + sep + xs[|xs| - 1]
  }

  /** `sep + xs[0] + sep + xs[1] + ... + sep + xs[n-1]`: every item preceded
      by one separator. */
  function Prefixed(sep: string, xs: seq<string>): string
  {
    if xs == [] then "" else Prefixed(sep, xs[..|xs| - 1]) + sep + xs[|xs| - 1]
  }

  /** Writing one separator and then joining is the same as prefixing every
      item with the separator. */
  lemma {:induction false} PrefixedIsSeparatorThenJoin(sep: string, xs: seq<string>)
    requires xs != []
    ensures Prefixed(sep, xs) == sep + JoinWith(sep, xs)
  {
    if |xs| == 1 {
      assert xs[..0] == [];
    } else {
      PrefixedIsSeparatorThenJoin(sep, xs[..|xs| - 1]);
    }
  }

  lemma {:induction false} ParamsOfAppend(a: seq<Clause>, b: seq<Clause>)
    ensures ParamsOf(a + b) == ParamsOf(a) + ParamsOf(b)
  {
    if b == [] {
      assert a + b == a;
    } else {
      assert (a + b)[..|a + b| - 1] == a + b[..|b| - 1];
      ParamsOfAppend(a, b[..|b| - 1]);
    }
  }

  /** Joining one more clause: its text after a separator (none before the
      first), its values after the others. */
  lemma JoinSnoc(sep: string, cs: seq<Clause>, c: Clause)
    ensures JoinWith(sep, Texts(cs + [c]))
            == if cs == [] then c.text else JoinWith(sep, Texts(cs)) + sep + c.text
    ensures ParamsOf(cs + [c]) == ParamsOf(cs) + c.params
  {
    assert (cs + [c])[..|cs|] == cs;
    assert Texts(cs + [c])[..|cs|] == Texts(cs);
  }

  /** Appending one more clause to a text that ends in a join of clauses:
      the separator first unless no clause has been joined yet. */
  lemma AppendClause(head: string, sep: string, cs: seq<Clause>, c: Clause, query: string, first: bool)
    requires query == head + JoinWith(sep, Texts(cs))
    requires first == (cs == [])
    ensures (if first then query else query + sep) + c.text == head + JoinWith(sep, Texts(cs + [c]))
  {
    JoinSnoc(sep, cs, c);
    if first {
      assert JoinWith(sep, Texts(cs)) == "";
      assert query == head;
    } else {
      Regroup(head, JoinWith(sep, Texts(cs)), sep, c.text);
    }
  }

  lemma Regroup(a: string, b: string, c: string, d: string)
    ensures a + b + c + d == a + (b + c + d)
  {
  }

  /** A text ending in a separator and a join of clauses ends in those
      clauses each preceded by the separator. */
  lemma SeparatorThenJoin(head: string, sep: string, cs: seq<Clause>, query: string)
    requires cs != []
    requires query == head + sep + JoinWith(sep, Texts(cs))
    ensures query == head + Prefixed(sep, Texts(cs))
  {
    PrefixedIsSeparatorThenJoin(sep, Texts(cs));
  }

  /** Joining balanced clauses with a separator free of placeholders gives a
      text with exactly as many placeholders as the clauses bind values. */
  lemma {:induction false} JoinBalanced(sep: string, cs: seq<Clause>)
    requires Placeholders(sep) == 0
    requires forall i :: 0 <= i < |cs| ==> BalancedClause(cs[i])
    ensures Placeholders(JoinWith(sep, Texts(cs))) == |ParamsOf(cs)|
  {
    if |cs| == 1 {
      assert cs[..0] == [];
    } else if |cs| > 1 {
      var init := cs[..|cs| - 1];
      assert Texts(cs)[..|cs| - 1] == Texts(init);
      JoinBalanced(sep, init);
      PlaceholdersAdditive(JoinWith(sep, Texts(init)), sep);
      PlaceholdersAdditive(JoinWith(sep, Texts(init)) + sep, cs[|cs| - 1].text);
    }
  }

  /** The same for a text in which every clause is preceded by the separator. */
  lemma {:induction false} PrefixedBalanced(sep: string, cs: seq<Clause>)
    requires Placeholders(sep) == 0
    requires forall i :: 0 <= i < |cs| ==> BalancedClause(cs[i])
    ensures Placeholders(Prefixed(sep, Texts(cs))) == |ParamsOf(cs)|
  {
    if cs != [] {
      var init := cs[..|cs| - 1];
      assert Texts(cs)[..|cs| - 1] == Texts(init);
      PrefixedBalanced(sep, init);
      PlaceholdersAdditive(Prefixed(sep, Texts(init)), sep);
      PlaceholdersAdditive(Prefixed(sep, Texts(init)) + sep, cs[|cs| - 1].text);
    }
  }

  /** Appending balanced clauses to a text, each preceded by a separator
      free of placeholders, adds one placeholder per value they bind. */
  lemma AppendedBalanced(base: string, sep: string, cs: seq<Clause>)
    requires Placeholders(sep) == 0
    requires forall i :: 0 <= i < |cs| ==> BalancedClause(cs[i])
    ensures Placeholders(base + Prefixed(sep, Texts(cs))) == Placeholders(base) + |ParamsOf(cs)|
  {
    PrefixedBalanced(sep, cs);
    PlaceholdersAdditive(base, Prefixed(sep, Texts(cs)));
  }

  /** A clause `<column> <op> ?` with one bound value. */
  lemma SingleMarkClause(lhs: string, p: Param)
    requires '?' !in lhs
    ensures BalancedClause(Clause(lhs + "?", [p]))
  {
    NoMarks(lhs);
    OneMark();
    PlaceholdersAdditive(lhs, "?");
  }
}
