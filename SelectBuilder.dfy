/** `SelectBuilder`: the text and the bound values of one SELECT statement.
    The field and FROM helpers (`FieldsBuilder`, `FromBuilder`) append to the
    same two fields through their back-reference to this object. */
class SelectBuilder {
  var buffer: string
  var values: seq<Value>

  function State(): Statements.Stmt
    reads this
  {
    Statements.Stmt(buffer, values)
  }

  /** `toString`: the text built so far. */
  function ToString(): (r: string)
    reads this
    ensures r == State().buffer
  {
    buffer
  }

  constructor ()
    ensures State() == Statements.SelectStart
  {
    buffer, values := "SELECT ", [];
  }

  method Distinct()
    modifies this
    ensures State() == Statements.Append(old(State()), "DISTINCT ")
  {
    buffer := buffer + "DISTINCT ";
  }

  /** The first selected column; the returned helper appends the next ones. */
  method Field(column: string) returns (fields: FieldsBuilder)
    modifies this
    ensures State() == Statements.Append(old(State()), column)
    ensures fresh(fields) && fresh(fields.part) && fields.part.select == this
  {
    fields := new FieldsBuilder(this, column);
  }

  method GroupBy(column: string) returns (fields: FieldsBuilder)
    modifies this
    ensures State() == Statements.Append(old(State()), " GROUP BY " + column)
    ensures fresh(fields) && fresh(fields.part) && fields.part.select == this
  {
    buffer := buffer + " GROUP BY ";
    fields := new FieldsBuilder(this, column);
  }

  method OrderBy(column: string) returns (fields: FieldsBuilder)
    modifies this
    ensures State() == Statements.Append(old(State()), " ORDER BY " + column)
    ensures fresh(fields) && fresh(fields.part) && fields.part.select == this
  {
    buffer := buffer + " ORDER BY ";
    fields := new FieldsBuilder(this, column);
  }

  /** ` HAVING ` and the predicate with its values, only if the predicate
      has a clause. */
  method Having(clauses: ClausesBuilder)
    modifies this
    ensures State() == Statements.Gate(old(State()), " HAVING ", clauses.State())
  {
    if !clauses.firstClause {
      buffer := buffer + " HAVING ";
      buffer := buffer + clauses.buffer;
      values := values + clauses.values;
    }
  }

  /** ` UNION ` and the other statement's text; its values are not taken.
      When the other statement is this one, its text is read after
      ` UNION ` was appended. */
  method Union(other: SelectBuilder)
    modifies this
    ensures State() == Statements.Union(old(State()), " UNION ",
              if other == this then old(buffer) + " UNION " else old(other.buffer))
  {
    buffer := buffer + " UNION ";
    buffer := buffer + other.buffer;
  }

  method UnionAll(other: SelectBuilder)
    modifies this
    ensures State() == Statements.Union(old(State()), " UNION ALL ",
              if other == this then old(buffer) + " UNION ALL " else old(other.buffer))
  {
    buffer := buffer + " UNION ALL ";
    buffer := buffer + other.buffer;
  }

  /** `union` as it has to be for the statement to stay bound: the other
      statement's values follow this one's, as every other method that
      copies another builder's text does. */
  method UnionKeepingValues(other: SelectBuilder)
    modifies this
    ensures State() == Statements.UnionWithValues(old(State()), " UNION ",
              Statements.Stmt(if other == this then old(buffer) + " UNION " else old(other.buffer), old(other.values)))
  {
    buffer := buffer + " UNION ";
    buffer := buffer + other.buffer;
    values := values + other.values;
  }

  /** `unionAll` with the other statement's values appended, as for
      `UnionKeepingValues`. */
  method UnionAllKeepingValues(other: SelectBuilder)
    modifies this
    ensures State() == Statements.UnionWithValues(old(State()), " UNION ALL ",
              Statements.Stmt(if other == this then old(buffer) + " UNION ALL " else old(other.buffer), old(other.values)))
  {
    buffer := buffer + " UNION ALL ";
    buffer := buffer + other.buffer;
    values := values + other.values;
  }

  /** The statement built so far: its text and its values. */
  method Build() returns (query: SQLQuery)
    ensures query.GetQuery() == buffer && query.GetValues() == values
  {
    query := SQLQuery(ToString(), values);
  }
}
