/** `FieldsBuilder`: appends a comma-separated column list (with aliases and
    sort directions) to the text of the `SelectBuilder` it works for; it
    never binds a value. */
class FieldsBuilder {
  const part: PartBuilder

  /** The first column, with no separator before it. */
  constructor (select: SelectBuilder, column: string)
    modifies select
    ensures fresh(part) && part.select == select
    ensures select.State() == Statements.Append(old(select.State()), column)
  {
    part := new PartBuilder(select);
    new;
    select.buffer := select.buffer + column;
  }

  /** Every further column, after a comma. */
  method Field(column: string)
    modifies part.select
    ensures part.select.State() == Statements.Append(old(part.select.State()), "," + column)
  {
    var select := part.select;
    select.buffer := select.buffer + ",";
    select.buffer := select.buffer + column;
  }

  method As(alias: string)
    modifies part.select
    ensures part.select.State() == Statements.Append(old(part.select.State()), " AS " + alias)
  {
    var select := part.select;
    select.buffer := select.buffer + " AS ";
    select.buffer := select.buffer + alias;
  }

  method Asc()
    modifies part.select
    ensures part.select.State() == Statements.Append(old(part.select.State()), " ASC")
  {
    part.select.buffer := part.select.buffer + " ASC";
  }

  method Desc()
    modifies part.select
    ensures part.select.State() == Statements.Append(old(part.select.State()), " DESC")
  {
    part.select.buffer := part.select.buffer + " DESC";
  }

  /** `from(table)`. */
  method From(table: string) returns (from: FromBuilder)
    modifies part.select
    ensures part.select.State() == Statements.Append(old(part.select.State()), " FROM " + table)
    ensures fresh(from) && fresh(from.part) && from.part.select == part.select
  {
    from := new FromBuilder.Table(part.select, table);
  }

  /** `from(SelectBuilder)`. */
  method FromSubquery(subquery: SelectBuilder) returns (from: FromBuilder)
    modifies part.select
    ensures part.select.State() == Statements.Embed(old(part.select.State()), " FROM (",
              if subquery == part.select then old(part.select.buffer) + " FROM (" else old(subquery.buffer),
              old(subquery.values), ")")
    ensures fresh(from) && fresh(from.part) && from.part.select == part.select
  {
    from := new FromBuilder.Subquery(part.select, subquery);
  }

  /** `from(SQLQuery)`. */
  method FromQuery(subquery: SQLQuery) returns (from: FromBuilder)
    modifies part.select
    ensures part.select.State() == Statements.Embed(old(part.select.State()), " FROM (",
              subquery.GetQuery(), subquery.GetValues(), ")")
    ensures fresh(from) && fresh(from.part) && from.part.select == part.select
  {
    from := new FromBuilder.Query(part.select, subquery);
  }

  /** `from(SelectBuilder, alias)`. */
  method FromSubqueryAs(subquery: SelectBuilder, alias: string) returns (from: FromBuilder)
    modifies part.select
    ensures part.select.State() == Statements.Embed(old(part.select.State()), " FROM (",
              if subquery == part.select then old(part.select.buffer) + " FROM (" else old(subquery.buffer),
              old(subquery.values), ") " + alias)
    ensures fresh(from) && fresh(from.part) && from.part.select == part.select
  {
    from := new FromBuilder.SubqueryAs(part.select, subquery, alias);
  }

  /** `from(SQLQuery, alias)`. */
  method FromQueryAs(subquery: SQLQuery, alias: string) returns (from: FromBuilder)
    modifies part.select
    ensures part.select.State() == Statements.Embed(old(part.select.State()), " FROM (",
              subquery.GetQuery(), subquery.GetValues(), ") " + alias)
    ensures fresh(from) && fresh(from.part) && from.part.select == part.select
  {
    from := new FromBuilder.QueryAs(part.select, subquery, alias);
  }
}
