// The builder classes live in the default module, one file per class of
// the Java package; these imports serve all of them (the modules Predicates
// and Statements are named in full).
import opened Values
import opened Queries

/** `ClausesBuilder`: accumulates a boolean predicate and, in step, the values
    bound to its placeholders.  Conditional clauses vanish when their value
    is rejected by the checker; `firstClause` stays true until something that
    counts as a clause has been added.  Each method is specified by a
    transition of `Predicates`, where its guarantees are proved. */
class ClausesBuilder {
  var buffer: string
  var values: seq<Value>
  var firstClause: bool

  function State(): Predicates.Pred
    reads this
  {
    Predicates.Pred(buffer, values, firstClause)
  }

  /** An empty predicate. */
  constructor ()
    ensures State() == Predicates.Empty
  {
    buffer, values, firstClause := "", [], true;
  }

  /** A predicate holding one conditional clause checked by `isValidValue`. */
  constructor WithClause(column: string, clause: string -> string, value: Value)
    ensures State() == Predicates.AddClause(Predicates.Empty, "", column, clause, value, IsValidValue)
  {
    buffer, values, firstClause := "", [], true;
    new;
    // The source passes a null aggregator here; it is never written, since
    // the clause is the first one.
    CheckAndAddClause("", column, clause, value, IsValidValue);
  }

  /** A predicate holding one conditional clause checked by `checker`. */
  constructor WithCheckedClause(column: string, clause: string -> string, value: Value, checker: Value -> bool)
    ensures State() == Predicates.AddClause(Predicates.Empty, "", column, clause, value, checker)
  {
    buffer, values, firstClause := "", [], true;
    new;
    CheckAndAddClause("", column, clause, value, checker);
  }

  /** A raw column or literal; the predicate is no longer empty. */
  method Field(column: string)
    modifies this
    ensures State() == Predicates.Field(old(State()), column)
  {
    buffer := buffer + column;
    firstClause := false;
  }

  /** `NOT (` other `)`, then the other predicate's values.  When the other
      predicate is this one, its text is read after `NOT (` was appended. */
  method Not(clauses: ClausesBuilder)
    modifies this
    ensures State() == Predicates.Embed(old(State()), "NOT (",
              if clauses == this then old(buffer) + "NOT (" else old(clauses.buffer), old(clauses.values), ")")
  {
    buffer := buffer + "NOT (";
    buffer := buffer + clauses.buffer;
    buffer := buffer + ")";
    values := values + clauses.values;
  }

  method IsNull()
    modifies this
    ensures State() == Predicates.Append(old(State()), " IS NULL")
  {
    buffer := buffer + " IS NULL";
  }

  method IsNotNull()
    modifies this
    ensures State() == Predicates.Append(old(State()), " IS NOT NULL")
  {
    buffer := buffer + " IS NOT NULL";
  }

  method NotEquals()
    modifies this
    ensures State() == Predicates.Append(old(State()), " <> ")
  {
    buffer := buffer + " <> ";
  }

  method Equals()
    modifies this
    ensures State() == Predicates.Append(old(State()), " = ")
  {
    buffer := buffer + " = ";
  }

  /** `NOT EXISTS(` subquery `)`, then the subquery's values. */
  method NotExists(query: SelectBuilder)
    modifies this
    ensures State() == Predicates.Embed(old(State()), "NOT EXISTS(", old(query.buffer), old(query.values), ")")
  {
    buffer := buffer + "NOT EXISTS(";
    buffer := buffer + query.ToString();
    buffer := buffer + ")";
    values := values + query.values;
  }

  /** `EXISTS(` subquery `)`, then the subquery's values. */
  method Exists(query: SelectBuilder)
    modifies this
    ensures State() == Predicates.Embed(old(State()), "EXISTS(", old(query.buffer), old(query.values), ")")
  {
    buffer := buffer + "EXISTS(";
    buffer := buffer + query.ToString();
    buffer := buffer + ")";
    values := values + query.values;
  }

  /** The list elements, comma-separated, inlined as text: no value is bound.
      On an empty list the source fails (`substring(1)` of an empty text)
      before touching the builder; `ok` is false then. */
  method In(items: seq<Value>) returns (ok: bool)
    modifies this
    ensures ok <==> items != []
    ensures ok ==> State() == Predicates.Append(old(State()), Predicates.ListText(items))
    ensures !ok ==> State() == old(State())
  {
    var buf := "";
    var i := 0;
    while i < |items|
      invariant 0 <= i <= |items|
      invariant i == 0 ==> buf == ""
      invariant i > 0 ==> buf == "," + Predicates.ListText(items[..i])
      invariant State() == old(State())
    {
      ghost var done := Predicates.Rendered(items[..i]);
      assert Predicates.Rendered(items[..i + 1]) == done + [Render(items[i])];
      if i > 0 {
        JoinSnoc(done, Render(items[i]), ",");
      } else {
        assert Predicates.Rendered(items[..1]) == [Render(items[0])];
      }
      buf := buf + "," + Render(items[i]);
      i := i + 1;
    }
    if buf == "" {
      ok := false;
      return;
    }
    assert items[..i] == items;
    assert buf[1..] == Predicates.ListText(items);
    buffer := buffer + buf[1..];
    ok := true;
  }

  method Greater()
    modifies this
    ensures State() == Predicates.Append(old(State()), " > ")
  {
    buffer := buffer + " > ";
  }

  method GreateEquals()
    modifies this
    ensures State() == Predicates.Append(old(State()), " >= ")
  {
    buffer := buffer + " >= ";
  }

  method Lesser()
    modifies this
    ensures State() == Predicates.Append(old(State()), " < ")
  {
    buffer := buffer + " < ";
  }

  method LesserEquals()
    modifies this
    ensures State() == Predicates.Append(old(State()), " <= ")
  {
    buffer := buffer + " <= ";
  }

  method Like()
    modifies this
    ensures State() == Predicates.Append(old(State()), " LIKE ")
  {
    buffer := buffer + " LIKE ";
  }

  method NotLike()
    modifies this
    ensures State() == Predicates.Append(old(State()), " NOT LIKE ")
  {
    buffer := buffer + " NOT LIKE ";
  }

  method Between()
    modifies this
    ensures State() == Predicates.Append(old(State()), " BETWEEN ")
  {
    buffer := buffer + " BETWEEN ";
  }

  method NotBetween()
    modifies this
    ensures State() == Predicates.Append(old(State()), " NOT BETWEEN ")
  {
    buffer := buffer + " NOT BETWEEN ";
  }

  /** The unconditional ` AND ` fragment. */
  method And()
    modifies this
    ensures State() == Predicates.Append(old(State()), " AND ")
  {
    buffer := buffer + " AND ";
  }

  /** The unconditional ` OR ` fragment. */
  method Or()
    modifies this
    ensures State() == Predicates.Append(old(State()), " OR ")
  {
    buffer := buffer + " OR ";
  }

  /** `and(column, clause, value)`: a conditional clause joined by AND,
      checked by `isValidValue`. */
  method AndClause(column: string, clause: string -> string, value: Value)
    modifies this
    ensures State() == Predicates.AddClause(old(State()), "AND", column, clause, value, IsValidValue)
  {
    CheckAndAddClause("AND", column, clause, value, IsValidValue);
  }

  /** `and(column, clause, value, checker)`. */
  method AndCheckedClause(column: string, clause: string -> string, value: Value, checker: Value -> bool)
    modifies this
    ensures State() == Predicates.AddClause(old(State()), "AND", column, clause, value, checker)
  {
    CheckAndAddClause("AND", column, clause, value, checker);
  }

  /** `or(column, clause, value)`: a conditional clause joined by OR,
      checked by `isValidValue`. */
  method OrClause(column: string, clause: string -> string, value: Value)
    modifies this
    ensures State() == Predicates.AddClause(old(State()), "OR", column, clause, value, IsValidValue)
  {
    CheckAndAddClause("OR", column, clause, value, IsValidValue);
  }

  /** `or(column, clause, value, checker)`. */
  method OrCheckedClause(column: string, clause: string -> string, value: Value, checker: Value -> bool)
    modifies this
    ensures State() == Predicates.AddClause(old(State()), "OR", column, clause, value, checker)
  {
    CheckAndAddClause("OR", column, clause, value, checker);
  }

  /** `checkAndAddClause`: nothing happens unless the checker accepts the
      value; then the aggregator (not before the first clause), the clause
      text, its value, and the predicate is no longer empty. */
  method CheckAndAddClause(boolAgg: string, column: string, clause: string -> string,
                           value: Value, checker: Value -> bool)
    modifies this
    ensures State() == Predicates.AddClause(old(State()), boolAgg, column, clause, value, checker)
  {
    if checker(value) {
      if !firstClause {
        buffer := buffer + (" " + boolAgg + " ");
      }
      buffer := buffer + clause(column);
      values := values + [value];
      firstClause := false;
    }
  }

  /** `(` other `)`, then the other predicate's values, unconditionally. */
  method Compound(other: ClausesBuilder)
    modifies this
    ensures State() == Predicates.Embed(old(State()), "(",
              if other == this then old(buffer) + "(" else old(other.buffer), old(other.values), ")")
  {
    buffer := buffer + "(";
    buffer := buffer + other.buffer;
    buffer := buffer + ")";
    values := values + other.values;
  }

  // The group forms as evidently intended (`Predicates.EmbedClause`): the
  // same text and values as `Not`, `NotExists`, `Exists` and `Compound`, and
  // the predicate is no longer empty.

  method NotGroup(clauses: ClausesBuilder)
    modifies this
    ensures State() == Predicates.EmbedClause(old(State()), "NOT (",
              if clauses == this then old(buffer) + "NOT (" else old(clauses.buffer), old(clauses.values), ")")
  {
    Not(clauses);
    firstClause := false;
  }

  method NotExistsGroup(query: SelectBuilder)
    modifies this
    ensures State() == Predicates.EmbedClause(old(State()), "NOT EXISTS(", old(query.buffer), old(query.values), ")")
  {
    NotExists(query);
    firstClause := false;
  }

  method ExistsGroup(query: SelectBuilder)
    modifies this
    ensures State() == Predicates.EmbedClause(old(State()), "EXISTS(", old(query.buffer), old(query.values), ")")
  {
    Exists(query);
    firstClause := false;
  }

  method CompoundGroup(other: ClausesBuilder)
    modifies this
    ensures State() == Predicates.EmbedClause(old(State()), "(",
              if other == this then old(buffer) + "(" else old(other.buffer), old(other.values), ")")
  {
    Compound(other);
    firstClause := false;
  }
}
