/** The state shared by the statement builders (`SelectBuilder`,
    `UpdateBuilder`, `DeleteBuilder`, and through their back-reference the
    field and FROM helpers): a text buffer and the ordered list of values
    bound to its placeholders, together with the transitions their methods
    perform on it.
 */
module Statements {
  import opened Text
  import opened Values
  import Predicates

  datatype Stmt = Stmt(buffer: string, values: seq<Value>)

  /** Every `?` of the text has its value and every value its `?`: the same
      property as `Predicates.Aligned`, on a statement instead of a predicate. */
  predicate Aligned(st: Stmt)
  {
    Placeholders(st.buffer) == |st.values|
  }

  /** The state of a new `SelectBuilder`. */
  const SelectStart: Stmt := Stmt("SELECT ", [])

  /** The state of a new `UpdateBuilder` on `table`. */
  function UpdateStart(table: string): Stmt
  {
    Stmt("UPDATE " + table + " SET ", [])
  }

  /** The state of a new `DeleteBuilder` on `table`. */
  function DeleteStart(table: string): Stmt
  {
    Stmt("DELETE FROM " + table, [])
  }

  /** Text appended without values (keywords, columns, tables, aliases). */
  function Append(st: Stmt, text: string): Stmt
  {
    st.(buffer := st.buffer + text)
  }

  /** Another statement's or expression's text, wrapped in `prefix` and
      `suffix`, with its values appended after the existing ones. */
  function Embed(st: Stmt, prefix: string, text: string, vals: seq<Value>, suffix: string): Stmt
  {
    Stmt(st.buffer + prefix + text + suffix, st.values + vals)
  }

  /** WHERE and HAVING: the keyword, the predicate's text and its values are
      appended only when the predicate has a clause; an empty predicate
      leaves the statement exactly as it was. */
  function Gate(st: Stmt, keyword: string, p: Predicates.Pred): Stmt
  {
    if !p.firstClause then Embed(st, keyword, p.buffer, p.values, "") else st
  }

  /** As written, a predicate made of a NOT, EXISTS, NOT EXISTS or compound
      group alone still counts as empty: WHERE and HAVING drop it, text and
      values, and the statement is left unrestricted. */
  lemma GroupOnlyPredicateDropped(st: Stmt, keyword: string,
                                  prefix: string, text: string, vals: seq<Value>, suffix: string)
    ensures Gate(st, keyword, Predicates.Embed(Predicates.Empty, prefix, text, vals, suffix)) == st
  {
  }

  /** With the corrected group, WHERE and HAVING keep it: the keyword, the
      group's text and its values are appended. */
  lemma GroupOnlyPredicateKept(st: Stmt, keyword: string,
                               prefix: string, text: string, vals: seq<Value>, suffix: string)
    ensures Gate(st, keyword, Predicates.EmbedClause(Predicates.Empty, prefix, text, vals, suffix))
         == Embed(st, keyword, prefix + text + suffix, vals, "")
  {
  }

  /** `UpdateBuilder.field`: `column = ?` bound to `value`, preceded by `, `
      when a value is already bound. */
  function SetField(st: Stmt, column: string, value: Value): Stmt
  {
    Stmt(st.buffer + (if st.values == [] then "" else ", ") + column + " = ?", st.values + [value])
  }

  /** `union`/`unionAll` as written: the other statement's text is appended
      after the keyword, but none of its values. */
  function Union(st: Stmt, keyword: string, otherText: string): Stmt
  {
    Append(st, keyword + otherText)
  }

  /** `union`/`unionAll` carrying the other statement's values along, as the
      statement needs for its placeholders to stay bound. */
  function UnionWithValues(st: Stmt, keyword: string, other: Stmt): Stmt
  {
    Embed(st, keyword, other.buffer, other.values, "")
  }

  // ---------------------------------------------------------------------------
  // Alignment: each transition keeps `?` count and value count equal.

  lemma AppendAligned(st: Stmt, text: string)
    requires Placeholders(text) == 0
    ensures Aligned(Append(st, text)) <==> Aligned(st)
  {
    assert multiset(st.buffer + text) == multiset(st.buffer) + multiset(text);
  }

  lemma EmbedAligned(st: Stmt, prefix: string, text: string, vals: seq<Value>, suffix: string)
    requires Placeholders(prefix) == 0 && Placeholders(suffix) == 0
    requires Placeholders(text) == |vals|
    ensures Aligned(Embed(st, prefix, text, vals, suffix)) <==> Aligned(st)
  {
    assert multiset(st.buffer + prefix + text + suffix)
        == multiset(st.buffer) + multiset(prefix) + multiset(text) + multiset(suffix);
  }

  /** An aligned predicate merged at WHERE/HAVING keeps the statement aligned,
      whether it is empty (nothing is merged) or not. */
  lemma GateAligned(st: Stmt, keyword: string, p: Predicates.Pred)
    requires Placeholders(keyword) == 0 && Predicates.Aligned(p)
    ensures Aligned(Gate(st, keyword, p)) <==> Aligned(st)
  {
    if !p.firstClause {
      EmbedAligned(st, keyword, p.buffer, p.values, "");
    }
  }

  /** An assignment adds one placeholder and one value. */
  lemma SetFieldAligned(st: Stmt, column: string, value: Value)
    requires Placeholders(column) == 0
    ensures Placeholders(SetField(st, column, value).buffer) == Placeholders(st.buffer) + 1
    ensures |SetField(st, column, value).values| == |st.values| + 1
    ensures Aligned(SetField(st, column, value)) <==> Aligned(st)
  {
    var sep := if st.values == [] then "" else ", ";
    assert multiset(st.buffer + sep + column + " = ?")
        == multiset(st.buffer) + multiset(sep) + multiset(column) + multiset(" = ?");
  }

  /** The corrected union keeps an aligned statement aligned. */
  lemma UnionWithValuesAligned(st: Stmt, keyword: string, other: Stmt)
    requires Placeholders(keyword) == 0 && Aligned(other)
    ensures Aligned(UnionWithValues(st, keyword, other)) <==> Aligned(st)
  {
    EmbedAligned(st, keyword, other.buffer, other.values, "");
  }

  /** The union as written breaks alignment as soon as the other statement
      binds a value: its placeholders arrive without their values. */
  lemma UnionMisaligns(st: Stmt, keyword: string, other: Stmt)
    requires Aligned(st) && Aligned(other) && Placeholders(keyword) == 0
    requires other.values != []
    ensures Placeholders(Union(st, keyword, other.buffer).buffer)
         == |Union(st, keyword, other.buffer).values| + |other.values|
    ensures !Aligned(Union(st, keyword, other.buffer))
  {
    assert multiset(st.buffer + (keyword + other.buffer))
        == multiset(st.buffer) + multiset(keyword) + multiset(other.buffer);
  }

  // ---------------------------------------------------------------------------
  // Subquery joins: `prefix (` text `) ` alias.

  /** `leftOuterJoin(SQLQuery, alias)` as written glues the alias to the
      query text: moving the alias's first character into the query gives
      the same statement, so the text no longer tells where the subquery
      ends and the alias begins. */
  lemma LeftOuterJoinAliasFused(st: Stmt, query: string, vals: seq<Value>, alias: string)
    requires alias != []
    ensures Embed(st, " LEFT OUTER JOIN ", query, vals, alias)
         == Embed(st, " LEFT OUTER JOIN ", query + alias[..1], vals, alias[1..])
  {
    assert alias == alias[..1] + alias[1..];
  }

  lemma CloseParenAt(pre: string, q: string, a: string)
    ensures (pre + q + ") " + a)[|pre| + |q|] == ')'
  {
  }

  lemma CharOfMiddle(pre: string, q: string, rest: string, i: nat)
    requires i < |q|
    ensures (pre + q + rest)[|pre| + i] == q[i]
  {
  }

  /** The shape every other subquery join writes, `(` text `) ` alias, keeps
      that boundary: when the subquery text has no `)` of its own, the first
      `)` after the prefix ends it, so the statement determines the query
      text, its values and the alias. */
  lemma SubqueryJoinAliasSeparated(st: Stmt, prefix: string,
                                   q1: string, v1: seq<Value>, a1: string,
                                   q2: string, v2: seq<Value>, a2: string)
    requires ')' !in q1 && ')' !in q2
    requires Embed(st, prefix, q1, v1, ") " + a1) == Embed(st, prefix, q2, v2, ") " + a2)
    ensures q1 == q2 && v1 == v2 && a1 == a2
  {
    var b := Embed(st, prefix, q1, v1, ") " + a1).buffer;
    var n := |st.buffer| + |prefix|;
    assert b == st.buffer + prefix + q1 + ") " + a1;
    assert b == st.buffer + prefix + q2 + ") " + a2;
    if |q1| < |q2| {
      CloseParenAt(st.buffer + prefix, q1, a1);
      CharOfMiddle(st.buffer + prefix, q2, ") " + a2, |q1|);
      assert false;
    } else if |q2| < |q1| {
      CloseParenAt(st.buffer + prefix, q2, a2);
      CharOfMiddle(st.buffer + prefix, q1, ") " + a1, |q2|);
      assert false;
    }
    assert q1 == b[n..n + |q1|] == q2;
    assert a1 == b[n + |q1| + 2..] == a2;
    var w := Embed(st, prefix, q1, v1, ") " + a1).values;
    assert v1 == w[|st.values|..] == v2;
  }

  // ---------------------------------------------------------------------------
  // UPDATE: the SET list, then the WHERE clause.

  datatype Assignment = Assignment(column: string, value: Value)

  /** The state after calling `field` for each assignment, in order. */
  function SetAll(st: Stmt, fs: seq<Assignment>): Stmt
    decreases |fs|
  {
    if fs == [] then st
    else SetField(SetAll(st, fs[..|fs| - 1]), fs[|fs| - 1].column, fs[|fs| - 1].value)
  }

  /** `column = ?` for each assignment. */
  function AssignmentTexts(fs: seq<Assignment>): seq<string>
  {
    seq(|fs|, i requires 0 <= i < |fs| => fs[i].column + " = ?")
  }

  function AssignedValues(fs: seq<Assignment>): seq<Value>
  {
    seq(|fs|, i requires 0 <= i < |fs| => fs[i].value)
  }

  /** On a new UPDATE, n assignments are joined by n-1 `, ` separators and
      bind their values in order. */
  lemma {:induction false} UpdateSetList(table: string, fs: seq<Assignment>)
    ensures SetAll(UpdateStart(table), fs)
         == Stmt("UPDATE " + table + " SET " + Join(AssignmentTexts(fs), ", "), AssignedValues(fs))
    decreases |fs|
  {
    if fs != [] {
      var init := fs[..|fs| - 1];
      var last := fs[|fs| - 1];
      UpdateSetList(table, init);
      assert AssignmentTexts(fs) == AssignmentTexts(init) + [last.column + " = ?"];
      assert AssignedValues(fs) == AssignedValues(init) + [last.value];
      if init != [] {
        JoinSnoc(AssignmentTexts(init), last.column + " = ?", ", ");
      }
    }
  }

  /** The values of an UPDATE: those of the SET list first, then those of
      the WHERE predicate if it has a clause. */
  lemma UpdateValueOrder(table: string, fs: seq<Assignment>, p: Predicates.Pred)
    ensures Gate(SetAll(UpdateStart(table), fs), " WHERE ", p).values
         == AssignedValues(fs) + (if p.firstClause then [] else p.values)
  {
    UpdateSetList(table, fs);
  }

  /** The SET list of a new UPDATE whose table and columns contain no `?`
      is aligned: one placeholder for each assigned value. */
  lemma {:induction false} UpdateAligned(table: string, fs: seq<Assignment>)
    requires Placeholders(table) == 0
    requires forall i :: 0 <= i < |fs| ==> Placeholders(fs[i].column) == 0
    ensures Aligned(SetAll(UpdateStart(table), fs))
    decreases |fs|
  {
    if fs == [] {
      assert multiset("UPDATE " + table + " SET ") == multiset("UPDATE ") + multiset(table) + multiset(" SET ");
    } else {
      UpdateAligned(table, fs[..|fs| - 1]);
      SetFieldAligned(SetAll(UpdateStart(table), fs[..|fs| - 1]), fs[|fs| - 1].column, fs[|fs| - 1].value);
    }
  }

  // ---------------------------------------------------------------------------
  // Field lists: `field(c0).field(c1)...` on a `SelectBuilder`.

  /** The state after the constructor of the field helper appends `cols[0]`
      and `field` appends `,` and each following column. */
  function FieldList(st: Stmt, cols: seq<string>): Stmt
    requires |cols| > 0
    decreases |cols|
  {
    if |cols| == 1 then Append(st, cols[0])
    else Append(FieldList(st, cols[..|cols| - 1]), "," + cols[|cols| - 1])
  }

  /** n fields are joined by n-1 commas and bind no value. */
  lemma {:induction false} FieldListJoined(st: Stmt, cols: seq<string>)
    requires |cols| > 0
    ensures FieldList(st, cols) == Append(st, Join(cols, ","))
    decreases |cols|
  {
    if |cols| > 1 {
      var init := cols[..|cols| - 1];
      FieldListJoined(st, init);
      assert cols == init + [cols[|cols| - 1]];
      JoinSnoc(init, cols[|cols| - 1], ",");
    }
  }
}
