/** `FromBuilder`: appends the FROM clause, its joins and the WHERE clause to
    the `SelectBuilder` it works for.  Subqueries and predicates given as
    arguments are only read: their text is copied into the statement and
    their values are appended, in order, after the statement's own. */
class FromBuilder {
  const part: PartBuilder

  /** ` FROM ` table. */
  constructor Table(select: SelectBuilder, table: string)
    modifies select
    ensures fresh(part) && part.select == select
    ensures select.State() == Statements.Append(old(select.State()), " FROM " + table)
  {
    part := new PartBuilder(select);
    new;
    select.buffer := select.buffer + " FROM ";
    select.buffer := select.buffer + table;
  }

  /** ` FROM (` subquery `)` and the subquery's values. */
  constructor Subquery(select: SelectBuilder, subquery: SelectBuilder)
    modifies select
    ensures fresh(part) && part.select == select
    ensures select.State() == Statements.Embed(old(select.State()), " FROM (",
              if subquery == select then old(select.buffer) + " FROM (" else old(subquery.buffer),
              old(subquery.values), ")")
  {
    part := new PartBuilder(select);
    new;
    AppendSubquery(" FROM (", subquery, ")");
  }

  /** ` FROM (` query `)` and the query's values. */
  constructor Query(select: SelectBuilder, subquery: SQLQuery)
    modifies select
    ensures fresh(part) && part.select == select
    ensures select.State() == Statements.Embed(old(select.State()), " FROM (",
              subquery.GetQuery(), subquery.GetValues(), ")")
  {
    part := new PartBuilder(select);
    new;
    AppendQuery(" FROM (", subquery, ")");
  }

  /** ` FROM (` subquery `) ` alias. */
  constructor SubqueryAs(select: SelectBuilder, subquery: SelectBuilder, alias: string)
    modifies select
    ensures fresh(part) && part.select == select
    ensures select.State() == Statements.Embed(old(select.State()), " FROM (",
              if subquery == select then old(select.buffer) + " FROM (" else old(subquery.buffer),
              old(subquery.values), ") " + alias)
  {
    part := new PartBuilder(select);
    new;
    AppendSubquery(" FROM (", subquery, ")");
    select.buffer := select.buffer + " ";
    select.buffer := select.buffer + alias;
  }

  /** ` FROM (` query `) ` alias. */
  constructor QueryAs(select: SelectBuilder, subquery: SQLQuery, alias: string)
    modifies select
    ensures fresh(part) && part.select == select
    ensures select.State() == Statements.Embed(old(select.State()), " FROM (",
              subquery.GetQuery(), subquery.GetValues(), ") " + alias)
  {
    part := new PartBuilder(select);
    new;
    AppendQuery(" FROM (", subquery, ")");
    select.buffer := select.buffer + " ";
    select.buffer := select.buffer + alias;
  }

  // The three shapes every join takes.

  /** Text naming a table. */
  method AppendTable(text: string)
    modifies part.select
    ensures part.select.State() == Statements.Append(old(part.select.State()), text)
  {
    part.select.buffer := part.select.buffer + text;
  }

  /** `prefix`, the subquery's text, `suffix`, and the subquery's values,
      in the order the source appends them. */
  method AppendSubquery(prefix: string, subquery: SelectBuilder, suffix: string)
    modifies part.select
    ensures part.select.State() == Statements.Embed(old(part.select.State()), prefix,
              if subquery == part.select then old(part.select.buffer) + prefix else old(subquery.buffer),
              old(subquery.values), suffix)
  {
    var select := part.select;
    select.buffer := select.buffer + prefix;
    select.buffer := select.buffer + subquery.ToString();
    select.buffer := select.buffer + suffix;
    select.values := select.values + subquery.values;
  }

  /** `prefix`, the query's text, `suffix`, and the query's values. */
  method AppendQuery(prefix: string, subquery: SQLQuery, suffix: string)
    modifies part.select
    ensures part.select.State() == Statements.Embed(old(part.select.State()), prefix,
              subquery.GetQuery(), subquery.GetValues(), suffix)
  {
    var select := part.select;
    select.buffer := select.buffer + prefix;
    select.buffer := select.buffer + subquery.GetQuery();
    select.buffer := select.buffer + suffix;
    select.values := select.values + subquery.GetValues();
  }

  // Self joins: another FROM item after a comma.

  method SelfJoin(table: string)
    modifies part.select
    ensures part.select.State() == Statements.Append(old(part.select.State()), "," + table)
  {
    AppendTable("," + table);
  }

  method SelfJoinQuery(subquery: SQLQuery, alias: string)
    modifies part.select
    ensures part.select.State() == Statements.Embed(old(part.select.State()), ",(",
              subquery.GetQuery(), subquery.GetValues(), ") " + alias)
  {
    AppendQuery(",(", subquery, ") " + alias);
  }

  method SelfJoinSubquery(subquery: SelectBuilder, alias: string)
    modifies part.select
    ensures part.select.State() == Statements.Embed(old(part.select.State()), ",(",
              if subquery == part.select then old(part.select.buffer) + ",(" else old(subquery.buffer),
              old(subquery.values), ") " + alias)
  {
    AppendSubquery(",(", subquery, ") " + alias);
  }

  // INNER JOIN, and its short name `join`

  method InnerJoin(table: string)
    modifies part.select
    ensures part.select.State() == Statements.Append(old(part.select.State()), " INNER JOIN " + table)
  {
    AppendTable(" INNER JOIN " + table);
  }

  method InnerJoinQuery(subquery: SQLQuery, alias: string)
    modifies part.select
    ensures part.select.State() == Statements.Embed(old(part.select.State()), " INNER JOIN (",
              subquery.GetQuery(), subquery.GetValues(), ") " + alias)
  {
    AppendQuery(" INNER JOIN (", subquery, ") " + alias);
  }

  method InnerJoinSubquery(subquery: SelectBuilder, alias: string)
    modifies part.select
    ensures part.select.State() == Statements.Embed(old(part.select.State()), " INNER JOIN (",
              if subquery == part.select then old(part.select.buffer) + " INNER JOIN (" else old(subquery.buffer), old(subquery.values), ") " + alias)
  {
    AppendSubquery(" INNER JOIN (", subquery, ") " + alias);
  }

  method Join(table: string)
    modifies part.select
    ensures part.select.State() == Statements.Append(old(part.select.State()), " INNER JOIN " + table)
  {
    InnerJoin(table);
  }

  method JoinQuery(subquery: SQLQuery, alias: string)
    modifies part.select
    ensures part.select.State() == Statements.Embed(old(part.select.State()), " INNER JOIN (",
              subquery.GetQuery(), subquery.GetValues(), ") " + alias)
  {
    InnerJoinQuery(subquery, alias);
  }

  method JoinSubquery(subquery: SelectBuilder, alias: string)
    modifies part.select
    ensures part.select.State() == Statements.Embed(old(part.select.State()), " INNER JOIN (",
              if subquery == part.select then old(part.select.buffer) + " INNER JOIN (" else old(subquery.buffer), old(subquery.values), ") " + alias)
  {
    InnerJoinSubquery(subquery, alias);
  }

  // LEFT OUTER JOIN, and its short name `leftJoin`

  method LeftOuterJoin(table: string)
    modifies part.select
    ensures part.select.State() == Statements.Append(old(part.select.State()), " LEFT OUTER JOIN " + table)
  {
    AppendTable(" LEFT OUTER JOIN " + table);
  }

  /** As written: neither the parentheses around the subquery nor the
      space before the alias that every other subquery join writes. */
  method LeftOuterJoinQuery(subquery: SQLQuery, alias: string)
    modifies part.select
    ensures part.select.State() == Statements.Embed(old(part.select.State()), " LEFT OUTER JOIN ",
              subquery.GetQuery(), subquery.GetValues(), alias)
  {
    AppendQuery(" LEFT OUTER JOIN ", subquery, alias);
  }

  /** `leftOuterJoin(SQLQuery, alias)` in the shape of the other subquery
      joins: the query between parentheses, then a space and the alias. */
  method LeftOuterJoinQueryParenthesized(subquery: SQLQuery, alias: string)
    modifies part.select
    ensures part.select.State() == Statements.Embed(old(part.select.State()), " LEFT OUTER JOIN (",
              subquery.GetQuery(), subquery.GetValues(), ") " + alias)
  {
    AppendQuery(" LEFT OUTER JOIN (", subquery, ") " + alias);
  }

  method LeftOuterJoinSubquery(subquery: SelectBuilder, alias: string)
    modifies part.select
    ensures part.select.State() == Statements.Embed(old(part.select.State()), " LEFT OUTER JOIN (",
              if subquery == part.select then old(part.select.buffer) + " LEFT OUTER JOIN (" else old(subquery.buffer), old(subquery.values), ") " + alias)
  {
    AppendSubquery(" LEFT OUTER JOIN (", subquery, ") " + alias);
  }

  method LeftJoin(table: string)
    modifies part.select
    ensures part.select.State() == Statements.Append(old(part.select.State()), " LEFT OUTER JOIN " + table)
  {
    LeftOuterJoin(table);
  }

  method LeftJoinQuery(subquery: SQLQuery, alias: string)
    modifies part.select
    ensures part.select.State() == Statements.Embed(old(part.select.State()), " LEFT OUTER JOIN ",
              subquery.GetQuery(), subquery.GetValues(), alias)
  {
    LeftOuterJoinQuery(subquery, alias);
  }

  method LeftJoinSubquery(subquery: SelectBuilder, alias: string)
    modifies part.select
    ensures part.select.State() == Statements.Embed(old(part.select.State()), " LEFT OUTER JOIN (",
              if subquery == part.select then old(part.select.buffer) + " LEFT OUTER JOIN (" else old(subquery.buffer), old(subquery.values), ") " + alias)
  {
    LeftOuterJoinSubquery(subquery, alias);
  }

  // RIGHT OUTER JOIN, and its short name `rightJoin`

  method RightOuterJoin(table: string)
    modifies part.select
    ensures part.select.State() == Statements.Append(old(part.select.State()), " RIGHT OUTER JOIN " + table)
  {
    AppendTable(" RIGHT OUTER JOIN " + table);
  }

  method RightOuterJoinQuery(subquery: SQLQuery, alias: string)
    modifies part.select
    ensures part.select.State() == Statements.Embed(old(part.select.State()), " RIGHT OUTER JOIN (",
              subquery.GetQuery(), subquery.GetValues(), ") " + alias)
  {
    AppendQuery(" RIGHT OUTER JOIN (", subquery, ") " + alias);
  }

  method RightOuterJoinSubquery(subquery: SelectBuilder, alias: string)
    modifies part.select
    ensures part.select.State() == Statements.Embed(old(part.select.State()), " RIGHT OUTER JOIN (",
              if subquery == part.select then old(part.select.buffer) + " RIGHT OUTER JOIN (" else old(subquery.buffer), old(subquery.values), ") " + alias)
  {
    AppendSubquery(" RIGHT OUTER JOIN (", subquery, ") " + alias);
  }

  method RightJoin(table: string)
    modifies part.select
    ensures part.select.State() == Statements.Append(old(part.select.State()), " RIGHT OUTER JOIN " + table)
  {
    RightOuterJoin(table);
  }

  method RightJoinQuery(subquery: SQLQuery, alias: string)
    modifies part.select
    ensures part.select.State() == Statements.Embed(old(part.select.State()), " RIGHT OUTER JOIN (",
              subquery.GetQuery(), subquery.GetValues(), ") " + alias)
  {
    RightOuterJoinQuery(subquery, alias);
  }

  method RightJoinSubquery(subquery: SelectBuilder, alias: string)
    modifies part.select
    ensures part.select.State() == Statements.Embed(old(part.select.State()), " RIGHT OUTER JOIN (",
              if subquery == part.select then old(part.select.buffer) + " RIGHT OUTER JOIN (" else old(subquery.buffer), old(subquery.values), ") " + alias)
  {
    RightOuterJoinSubquery(subquery, alias);
  }

  // FULL OUTER JOIN, and its short name `fullJoin`

  method FullOuterJoin(table: string)
    modifies part.select
    ensures part.select.State() == Statements.Append(old(part.select.State()), " FULL OUTER JOIN " + table)
  {
    AppendTable(" FULL OUTER JOIN " + table);
  }

  method FullOuterJoinQuery(subquery: SQLQuery, alias: string)
    modifies part.select
    ensures part.select.State() == Statements.Embed(old(part.select.State()), " FULL OUTER JOIN (",
              subquery.GetQuery(), subquery.GetValues(), ") " + alias)
  {
    AppendQuery(" FULL OUTER JOIN (", subquery, ") " + alias);
  }

  method FullOuterJoinSubquery(subquery: SelectBuilder, alias: string)
    modifies part.select
    ensures part.select.State() == Statements.Embed(old(part.select.State()), " FULL OUTER JOIN (",
              if subquery == part.select then old(part.select.buffer) + " FULL OUTER JOIN (" else old(subquery.buffer), old(subquery.values), ") " + alias)
  {
    AppendSubquery(" FULL OUTER JOIN (", subquery, ") " + alias);
  }

  method FullJoin(table: string)
    modifies part.select
    ensures part.select.State() == Statements.Append(old(part.select.State()), " FULL OUTER JOIN " + table)
  {
    FullOuterJoin(table);
  }

  method FullJoinQuery(subquery: SQLQuery, alias: string)
    modifies part.select
    ensures part.select.State() == Statements.Embed(old(part.select.State()), " FULL OUTER JOIN (",
              subquery.GetQuery(), subquery.GetValues(), ") " + alias)
  {
    FullOuterJoinQuery(subquery, alias);
  }

  method FullJoinSubquery(subquery: SelectBuilder, alias: string)
    modifies part.select
    ensures part.select.State() == Statements.Embed(old(part.select.State()), " FULL OUTER JOIN (",
              if subquery == part.select then old(part.select.buffer) + " FULL OUTER JOIN (" else old(subquery.buffer), old(subquery.values), ") " + alias)
  {
    FullOuterJoinSubquery(subquery, alias);
  }

  // NATURAL JOIN (the `SQLQuery` forms are not modelled)

  method NaturalJoin(table: string)
    modifies part.select
    ensures part.select.State() == Statements.Append(old(part.select.State()), " NATURAL JOIN " + table)
  {
    AppendTable(" NATURAL JOIN " + table);
  }

  method NaturalJoinSubquery(subquery: SelectBuilder, alias: string)
    modifies part.select
    ensures part.select.State() == Statements.Embed(old(part.select.State()), " NATURAL JOIN (",
              if subquery == part.select then old(part.select.buffer) + " NATURAL JOIN (" else old(subquery.buffer), old(subquery.values), ") " + alias)
  {
    AppendSubquery(" NATURAL JOIN (", subquery, ") " + alias);
  }

  // CROSS JOIN (the `SQLQuery` forms are not modelled)

  method CrossJoin(table: string)
    modifies part.select
    ensures part.select.State() == Statements.Append(old(part.select.State()), " CROSS JOIN " + table)
  {
    AppendTable(" CROSS JOIN " + table);
  }

  method CrossJoinSubquery(subquery: SelectBuilder, alias: string)
    modifies part.select
    ensures part.select.State() == Statements.Embed(old(part.select.State()), " CROSS JOIN (",
              if subquery == part.select then old(part.select.buffer) + " CROSS JOIN (" else old(subquery.buffer), old(subquery.values), ") " + alias)
  {
    AppendSubquery(" CROSS JOIN (", subquery, ") " + alias);
  }

  /** ` ON ` and the predicate with its values, whether or not the
      predicate has a clause. */
  method On(clauses: ClausesBuilder)
    modifies part.select
    ensures part.select.State() == Statements.Embed(old(part.select.State()), " ON ",
              clauses.buffer, clauses.values, "")
  {
    var select := part.select;
    select.buffer := select.buffer + " ON ";
    select.buffer := select.buffer + clauses.buffer;
    select.values := select.values + clauses.values;
  }

  /** ` WHERE ` and the predicate with its values, only if the predicate has
      a clause; back to the statement either way. */
  method Where(clauses: ClausesBuilder) returns (s: SelectBuilder)
    modifies part.select
    ensures s == part.select
    ensures part.select.State() == Statements.Gate(old(part.select.State()), " WHERE ", clauses.State())
  {
    var select := part.select;
    if !clauses.firstClause {
      select.buffer := select.buffer + " WHERE ";
      select.buffer := select.buffer + clauses.buffer;
      select.values := select.values + clauses.values;
    }
    s := select;
  }
}
