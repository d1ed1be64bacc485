/** `AbstractPartBuilder`: the common part of the field and FROM helpers.
    It holds nothing but the `SelectBuilder` it works for; every method
    hands over to that object, so all text and values land in its fields.
    (The Java helpers inherit from it; here they hold one as `part`.) */
class PartBuilder {
  const select: SelectBuilder

  constructor (select: SelectBuilder)
    ensures this.select == select
  {
    this.select := select;
  }

  /** `done`: back to the statement this helper was created for. */
  method Done() returns (s: SelectBuilder)
    ensures s == select
  {
    s := select;
  }

  /** `build`: what `select.build()` gives. */
  method Build() returns (query: SQLQuery)
    ensures query.GetQuery() == select.buffer && query.GetValues() == select.values
  {
    query := select.Build();
  }

  method GroupBy(column: string) returns (fields: FieldsBuilder)
    modifies select
    ensures select.State() == Statements.Append(old(select.State()), " GROUP BY " + column)
    ensures fresh(fields) && fresh(fields.part) && fields.part.select == select
  {
    fields := select.GroupBy(column);
  }

  method Having(clauses: ClausesBuilder) returns (s: SelectBuilder)
    modifies select
    ensures s == select
    ensures select.State() == Statements.Gate(old(select.State()), " HAVING ", clauses.State())
  {
    select.Having(clauses);
    s := select;
  }

  method OrderBy(column: string) returns (fields: FieldsBuilder)
    modifies select
    ensures select.State() == Statements.Append(old(select.State()), " ORDER BY " + column)
    ensures fresh(fields) && fresh(fields.part) && fields.part.select == select
  {
    fields := select.OrderBy(column);
  }

  method Union(other: SelectBuilder) returns (s: SelectBuilder)
    modifies select
    ensures s == select
    ensures select.State() == Statements.Union(old(select.State()), " UNION ",
              if other == select then old(select.buffer) + " UNION " else old(other.buffer))
  {
    select.Union(other);
    s := select;
  }

  method UnionAll(other: SelectBuilder) returns (s: SelectBuilder)
    modifies select
    ensures s == select
    ensures select.State() == Statements.Union(old(select.State()), " UNION ALL ",
              if other == select then old(select.buffer) + " UNION ALL " else old(other.buffer))
  {
    select.UnionAll(other);
    s := select;
  }
}
