/** `UpdateBuilder`: the text and the bound values of one UPDATE statement.
    Each assignment binds its value unconditionally; the WHERE predicate is
    merged only when it has a clause. */
class UpdateBuilder {
  var buffer: string
  var values: seq<Value>

  function State(): Statements.Stmt
    reads this
  {
    Statements.Stmt(buffer, values)
  }

  /** `UPDATE ` table ` SET `, and no value yet. */
  constructor (table: string)
    ensures State() == Statements.UpdateStart(table)
  {
    buffer := "UPDATE " + table;
    buffer := buffer + " SET ";
    values := [];
  }

  /** `column = ?` bound to `value`, after `, ` unless it is the first
      assignment (which the source tells by the value list being empty). */
  method Field(column: string, value: Value)
    modifies this
    ensures State() == Statements.SetField(old(State()), column, value)
  {
    if values != [] {
      buffer := buffer + ", ";
    }
    buffer := buffer + column;
    buffer := buffer + " = ?";
    values := values + [value];
  }

  /** ` WHERE ` and the predicate with its values, only if the predicate has
      a clause. */
  method Where(clauses: ClausesBuilder)
    modifies this
    ensures State() == Statements.Gate(old(State()), " WHERE ", clauses.State())
  {
    if !clauses.firstClause {
      buffer := buffer + " WHERE ";
      buffer := buffer + clauses.buffer;
      values := values + clauses.values;
    }
  }

  /** The statement built so far: its text and its values. */
  method Build() returns (query: SQLQuery)
    ensures query.GetQuery() == buffer && query.GetValues() == values
  {
    query := SQLQuery(buffer, values);
  }
}
