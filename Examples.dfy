// Whole statements put together through the builder classes, the way a
// client of the library does; `Scenarios` evaluates the same chains.

/** `DELETE FROM t WHERE a = ? AND b = ?` with its two values. */
method DeleteTwoClauses() returns (query: string, vals: seq<Value>)
  ensures query == "DELETE FROM t WHERE a = ? AND b = ?" && vals == [Other("1"), Other("2")]
{
  var c := SQL.ClausesWith("a", Clauses.EqualsTo, Other("1"));
  c.AndClause("b", Clauses.EqualsTo, Other("2"));
  var d := new DeleteBuilder("t");
  d.Where(c);
  var q := d.Build();
  Scenarios.DeleteTwoClauses();
  query, vals := q.GetQuery(), q.GetValues();
}

/** The clause with an absent value leaves no trace. */
method DeleteSkippingAbsentClause() returns (query: string, vals: seq<Value>)
  ensures query == "DELETE FROM t WHERE b = ?" && vals == [Str("p")]
{
  var c := SQL.ClausesWith("a", Clauses.EqualsTo, Null);
  c.AndClause("b", Clauses.EqualsTo, Str("p"));
  var d := new DeleteBuilder("t");
  d.Where(c);
  var q := d.Build();
  Scenarios.DeleteSkippingAbsentClause();
  query, vals := q.GetQuery(), q.GetValues();
}

/** The assigned value comes before the WHERE value. */
method UpdateSetBeforeWhere() returns (query: string, vals: seq<Value>)
  ensures query == "UPDATE t SET a = ? WHERE b = ?" && vals == [Other("1"), Str("p")]
{
  var u := new UpdateBuilder("t");
  u.Field("a", Other("1"));
  var c := SQL.ClausesWith("a", Clauses.EqualsTo, Null);
  c.AndClause("b", Clauses.EqualsTo, Str("p"));
  u.Where(c);
  var q := u.Build();
  Scenarios.UpdateSetBeforeWhere();
  query, vals := q.GetQuery(), q.GetValues();
}

/** The wiki example: the assigned value, then the two WHERE values. */
method UpdateHeroes() returns (query: string, vals: seq<Value>)
  ensures query == "UPDATE Heroes SET last_name = ? WHERE first_name = ? AND last_name = ?"
  ensures vals == [Str("Croft"), Str("Lara"), Str("Craft")]
{
  var u := new UpdateBuilder("Heroes");
  u.Field("last_name", Str("Croft"));
  var c := SQL.ClausesWith("first_name", Clauses.EqualsTo, Str("Lara"));
  c.AndClause("last_name", Clauses.EqualsTo, Str("Craft"));
  u.Where(c);
  var q := u.Build();
  Scenarios.UpdateHeroes();
  query, vals := q.GetQuery(), q.GetValues();
}
