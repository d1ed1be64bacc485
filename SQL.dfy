/** The entry points of the `SQL` facade that create builders.  (Its value
    helpers, `isValidValue` and `formatText`, are `Values.IsValidValue`,
    `Values.FormatText` and `Values.FormatTexts`.) */
class SQL {

  /** `select()`: a new SELECT statement. */
  static method Select() returns (s: SelectBuilder)
    ensures fresh(s) && s.State() == Statements.SelectStart
  {
    s := new SelectBuilder();
  }

  /** `selectDistinct()`: as written, exactly what `select()` gives -- no
      `DISTINCT` is added. */
  static method SelectDistinct() returns (s: SelectBuilder)
    ensures fresh(s) && s.State() == Statements.SelectStart
  {
    s := new SelectBuilder();
  }

  /** `clauses()`: an empty predicate. */
  static method Clauses() returns (c: ClausesBuilder)
    ensures fresh(c) && c.State() == Predicates.Empty
  {
    c := new ClausesBuilder();
  }

  /** `clauses(column, clause, value)`: a predicate holding the clause if
      `isValidValue` accepts the value, and empty otherwise. */
  static method ClausesWith(column: string, clause: string -> string, value: Value) returns (c: ClausesBuilder)
    ensures fresh(c)
    ensures c.State() == Predicates.AddClause(Predicates.Empty, "", column, clause, value, IsValidValue)
  {
    c := new ClausesBuilder.WithClause(column, clause, value);
  }

  /** `clauses(column, clause, value, checker)`. */
  static method ClausesChecked(column: string, clause: string -> string, value: Value,
                               checker: Value -> bool) returns (c: ClausesBuilder)
    ensures fresh(c)
    ensures c.State() == Predicates.AddClause(Predicates.Empty, "", column, clause, value, checker)
  {
    c := new ClausesBuilder.WithCheckedClause(column, clause, value, checker);
  }
}
