/** `DeleteBuilder`: the text and the bound values of one DELETE statement,
    whose only values are those of its WHERE predicate. */
class DeleteBuilder {
  var buffer: string
  var values: seq<Value>

  function State(): Statements.Stmt
    reads this
  {
    Statements.Stmt(buffer, values)
  }

  /** `DELETE FROM ` table, and no value. */
  constructor (table: string)
    ensures State() == Statements.DeleteStart(table)
  {
    buffer := "DELETE FROM " + table;
    values := [];
  }

  /** ` WHERE ` and the predicate with its values, only if the predicate has
      a clause. */
  method Where(clauses: ClausesBuilder)
    modifies this
    ensures State() == Statements.Gate(old(State()), " WHERE ", clauses.State())
  {
    if !clauses.firstClause {
      buffer := buffer + " WHERE ";
      buffer := buffer + clauses.buffer;
      values := values + clauses.values;
    }
  }

  /** The statement built so far: its text and its values. */
  method Build() returns (query: SQLQuery)
    ensures query.GetQuery() == buffer && query.GetValues() == values
  {
    query := SQLQuery(buffer, values);
  }
}
