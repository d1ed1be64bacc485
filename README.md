# sql-request-builder, modelled in Dafny

The Java library `com.github.vlachenal.sql` builds SQL text for prepared
statements. A builder holds two things: a text buffer and the ordered
list of values bound to the `?` placeholders of that text.

The core pieces are:

- **`ClausesBuilder`** accumulates a boolean predicate. Its conditional
  clauses (`and(column, maker, value)`, `or(...)`) are added only when a
  checker accepts the value. The flag `firstClause` stays true until a
  clause is added. While it is true, no aggregator is written before the
  next clause, and the statement builders take no WHERE or HAVING.
- **`SelectBuilder`**, **`UpdateBuilder`** and **`DeleteBuilder`** hold the
  statement text and values.
- **`FieldsBuilder`** and **`FromBuilder`** extend the
  `AbstractPartBuilder` helper. They write into the `SelectBuilder` they
  were created for, through a back-reference. Subqueries and predicates
  passed to them are copied: their text goes into the buffer and their
  values go after the statement's own values.
- **`Clauses`** holds the operator templates (`column + " = ?"`, ...).
- **`SQL`** holds the presence check `isValidValue`, the quoting helper
  `formatText`, and the builder factories.
- **`SQLQuery`** is the result: the text and its values.

How the model is laid out:

- Every builder is a Dafny `class` with the fields its Java counterpart
  changes in place (`buffer: string`, `values: seq<Value>`, and
  `firstClause` for predicates).
- Every method that changes a builder is specified by a transition
  function. This gives its whole new state in terms of the old one:
  - `Predicates` does this for `ClausesBuilder`;
  - `Statements` does it for the statement builders.
- The lemmas beside those functions prove what the library promises:
  - the number of `?` equals the number of bound values, given clause
    makers with one `?` each;
  - the first-clause rule;
  - the order of the bound values;
  - the emptiness gate of WHERE and HAVING;
  - comma placement.
- The helpers hold the shared `SelectBuilder` through `part.select`.
  `PartBuilder` models `AbstractPartBuilder`; composition replaces Java
  inheritance here.
- A builder can be passed to itself (`c.not(c)`, `s.union(s)`). Java then
  reads the text after its own prefix was appended, and the contracts say
  exactly that.
- Bound values are the closed datatype `Values.Value`, with the four kinds
  `isValidValue` tells apart: null, string, collection, and anything else
  with its `toString` text. `Render` is the text `String.valueOf` gives.
- `Scenarios` evaluates complete statements built the way the library's
  own examples build them. The methods in `Examples.dfy` drive the
  classes through the same chains.

## Model

| member | source | states |
|---|---|---|
| Values.IsValidValue | src/main/java/com/github/vlachenal/sql/SQL.java:138-150 | null is invalid; a collection and a string are valid exactly when non-empty; every other value is valid |
| Values.FormatText | src/main/java/com/github/vlachenal/sql/SQL.java:107-113 | null gives null; any other value gives its text between single quotes: two characters longer, a quote at each end, the text itself in between |
| Values.FormatTexts | src/main/java/com/github/vlachenal/sql/SQL.java:123-129 | a null list gives null; otherwise a list of the same length whose element i is the quoting of element i |
| Clauses.NotEquals | src/main/java/com/github/vlachenal/sql/Clauses.java:49-51 | the column is a prefix of the result, the rest is ` <> ?`, and the result has exactly one `?` more than the column |
| Clauses.EqualsTo | src/main/java/com/github/vlachenal/sql/Clauses.java:60-62 | the column is a prefix of the result, the rest is ` = ?`, and the result has exactly one `?` more than the column |
| Clauses.Greater | src/main/java/com/github/vlachenal/sql/Clauses.java:71-73 | the column is a prefix of the result, the rest is ` > ?`, and the result has exactly one `?` more than the column |
| Clauses.GreateEquals | src/main/java/com/github/vlachenal/sql/Clauses.java:82-84 | the column is a prefix of the result, the rest is ` >= ?`, and the result has exactly one `?` more than the column |
| Clauses.Lesser | src/main/java/com/github/vlachenal/sql/Clauses.java:93-95 | the column is a prefix of the result, the rest is ` < ?`, and the result has exactly one `?` more than the column |
| Clauses.LesserEquals | src/main/java/com/github/vlachenal/sql/Clauses.java:104-106 | the column is a prefix of the result, the rest is ` <= ?`, and the result has exactly one `?` more than the column |
| Clauses.Like | src/main/java/com/github/vlachenal/sql/Clauses.java:115-117 | the column is a prefix of the result, the rest is ` LIKE ?`, and the result has exactly one `?` more than the column |
| Clauses.NotLike | src/main/java/com/github/vlachenal/sql/Clauses.java:126-128 | the column is a prefix of the result, the rest is ` NOT LIKE ?`, and the result has exactly one `?` more than the column |
| Clauses.Between | src/main/java/com/github/vlachenal/sql/Clauses.java:137-139 | the column, then ` BETWEEN ? AND ?`: exactly two `?` more than the column |
| Clauses.NotBetween | src/main/java/com/github/vlachenal/sql/Clauses.java:148-150 | the column, then ` NOT BETWEEN ? AND ?`: exactly two `?` more than the column |
| Clauses.In | src/main/java/com/github/vlachenal/sql/Clauses.java:159-161 | the column, then ` IN `: no `?` added, and the result ends with a space |
| Clauses.NotIn | src/main/java/com/github/vlachenal/sql/Clauses.java:170-172 | the column, then ` NOT IN `: no `?` added, and the result ends with a space |
| Predicates.AddClauseEffect | src/main/java/com/github/vlachenal/sql/ClausesBuilder.java:384-393 | a rejected value leaves text, values and flag unchanged; an accepted one appends exactly its value, clears the flag, and is preceded by ` AND `/` OR ` exactly when the predicate already had a clause |
| Predicates.AddClauseCounts | src/main/java/com/github/vlachenal/sql/ClausesBuilder.java:384-393 | an accepted clause adds the `?` its maker writes and exactly one value |
| Predicates.MakerPlaceholdersMisalign | src/main/java/com/github/vlachenal/sql/ClausesBuilder.java:384-393 | as written, a conditional clause with `between`/`notBetween` leaves one `?` without a value, and with `in`/`notIn` binds one value more than there are `?` |
| Predicates.AddBoundClauseAligned | src/main/java/com/github/vlachenal/sql/ClausesBuilder.java:384-393 | the corrected clause, binding as many values as its text has `?`, keeps alignment; rejected, it changes nothing |
| Predicates.BetweenBoundAligned | src/main/java/com/github/vlachenal/sql/Clauses.java:137-139 | the corrected BETWEEN clause binds both bounds in order and keeps alignment |
| Predicates.InListBoundAligned | src/test/java/com/github/vlachenal/sql/SelectBuilderTest.java:587-598 | the corrected IN clause writes its `?`-free list into the text in parentheses and keeps alignment, binding nothing |
| Predicates.AddClauseAligned | src/main/java/com/github/vlachenal/sql/ClausesBuilder.java:384-393 | with a one-`?` clause maker and a `?`-free aggregator, a clause keeps the number of `?` equal to the number of values, accepted or rejected |
| Predicates.AppendAligned | src/main/java/com/github/vlachenal/sql/ClausesBuilder.java:97-101 | a `?`-free fragment or field keeps the predicate aligned, and only an aligned one |
| Predicates.EmbedAligned | src/main/java/com/github/vlachenal/sql/ClausesBuilder.java:110-114 | embedding an aligned predicate or subquery between `?`-free wrappers keeps alignment (NOT, EXISTS, compound) |
| Predicates.GroupThenClauseUnjoined | src/main/java/com/github/vlachenal/sql/ClausesBuilder.java:110-114 | as written, a group on a fresh builder leaves it counted as empty, and the next accepted clause follows the group with no aggregator |
| Predicates.GroupThenClauseJoined | src/main/java/com/github/vlachenal/sql/ClausesBuilder.java:384-393 | with the corrected group, the next accepted clause is joined to it by its aggregator and its value follows the group's values |
| Predicates.EmbedClauseAligned | src/main/java/com/github/vlachenal/sql/ClausesBuilder.java:110-114 | the corrected group keeps alignment under the same conditions as the group as written |
| Predicates.ListTextAligned | src/main/java/com/github/vlachenal/sql/ClausesBuilder.java:194-201 | an inlined list whose elements hold no `?` binds nothing and keeps alignment |
| Predicates.AddAllSpec | src/main/java/com/github/vlachenal/sql/ClausesBuilder.java:317-371 | a chain of conditional clauses yields the accepted values in order, the accepted clauses joined by their aggregators, and stays empty exactly when no value was accepted |
| Predicates.FirstAcceptedUnprefixed | src/main/java/com/github/vlachenal/sql/ClausesBuilder.java:384-391 | from an empty predicate, the first accepted clause has no aggregator whatever was rejected before it |
| Predicates.NonEmptyPrefixed | src/main/java/com/github/vlachenal/sql/ClausesBuilder.java:384-391 | on a predicate that already has a clause, the first accepted clause is preceded by its aggregator |
| Predicates.AcceptedValues | src/main/java/com/github/vlachenal/sql/ClausesBuilder.java:384-391 | the i-th bound value of a chain is the value of the i-th accepted clause, which its own checker accepted; there are no more bound values than clauses |
| Predicates.AcceptedExactly | src/main/java/com/github/vlachenal/sql/ClausesBuilder.java:384-391 | a clause is accepted exactly when it is a clause of the chain whose own checker accepts its value |
| Predicates.AcceptedInOrder | src/main/java/com/github/vlachenal/sql/ClausesBuilder.java:384-391 | the accepted clauses are the clauses of the chain at strictly increasing positions, and every accepting position of the chain is among them |
| Predicates.AddAllAligned | src/main/java/com/github/vlachenal/sql/ClausesBuilder.java:384-393 | a chain of one-`?` clauses keeps an aligned predicate aligned |
| Statements.AppendAligned | src/main/java/com/github/vlachenal/sql/SelectBuilder.java:59-62 | `?`-free text (keywords, columns, tables, aliases) keeps a statement aligned, and only an aligned one |
| Statements.EmbedAligned | src/main/java/com/github/vlachenal/sql/FromBuilder.java:48-52 | an aligned subquery or predicate between `?`-free wrappers keeps a statement aligned |
| Statements.GateAligned | src/main/java/com/github/vlachenal/sql/DeleteBuilder.java:66-72 | WHERE/HAVING with an aligned predicate keeps the statement aligned, whether the predicate is empty or not |
| Statements.SetFieldAligned | src/main/java/com/github/vlachenal/sql/UpdateBuilder.java:68-75 | an assignment adds exactly one `?` and one value |
| Statements.UnionMisaligns | src/main/java/com/github/vlachenal/sql/SelectBuilder.java:130-133 | as written, a union with a statement that binds values leaves that many `?` without a value |
| Statements.UnionWithValuesAligned | src/main/java/com/github/vlachenal/sql/SelectBuilder.java:130-133 | a union that also takes the other statement's values keeps alignment |
| Statements.LeftOuterJoinAliasFused | src/main/java/com/github/vlachenal/sql/FromBuilder.java:263-267 | as written, moving the first character of the alias into the query text gives the same statement |
| Statements.SubqueryJoinAliasSeparated | src/main/java/com/github/vlachenal/sql/FromBuilder.java:277-281 | for subquery texts without a `)` of their own, the `(` text `) ` alias shape of the other joins determines the subquery text, its values and the alias from the statement |
| Statements.GroupOnlyPredicateDropped | src/main/java/com/github/vlachenal/sql/ClausesBuilder.java:110-114 | as written, a predicate made only of a NOT, EXISTS, NOT EXISTS or compound group is dropped by WHERE and HAVING, text and values |
| Statements.GroupOnlyPredicateKept | src/main/java/com/github/vlachenal/sql/DeleteBuilder.java:66-72 | with the corrected group, WHERE and HAVING append the keyword, the group text and its values |
| Statements.UpdateSetList | src/main/java/com/github/vlachenal/sql/UpdateBuilder.java:68-75 | on a new UPDATE, n assignments are joined by n-1 `, ` and bind their values in order |
| Statements.UpdateValueOrder | src/main/java/com/github/vlachenal/sql/UpdateBuilder.java:84-90 | the SET values precede the WHERE values, which are present only if the predicate has a clause |
| Statements.UpdateAligned | src/main/java/com/github/vlachenal/sql/UpdateBuilder.java:51-75 | an UPDATE whose table and columns hold no `?` is aligned after any number of assignments |
| Statements.FieldListJoined | src/main/java/com/github/vlachenal/sql/FieldsBuilder.java:56-59 | n fields are joined by n-1 commas and bind no value |
| Scenarios.DeleteTwoClauses | src/main/java/com/github/vlachenal/sql/DeleteBuilder.java:66-72 | two present values: `DELETE FROM t WHERE a = ? AND b = ?` with both values in order |
| Scenarios.DeleteSkippingAbsentClause | src/test/java/com/github/vlachenal/sql/DeleteBuilderTest.java:87-96 | an absent value then a present one: `DELETE FROM t WHERE b = ?` with one value |
| Scenarios.DeleteWithoutWhere | src/test/java/com/github/vlachenal/sql/DeleteBuilderTest.java:72-80 | a predicate with no present value adds no WHERE |
| Scenarios.UpdateSetBeforeWhere | src/test/java/com/github/vlachenal/sql/UpdateBuilderTest.java:106-115 | `UPDATE t SET a = ? WHERE b = ?` with the SET value first |
| Scenarios.FirstStep | src/main/java/com/github/vlachenal/sql/SQL.java:81-83 | `clauses(column, equalsTo, v)` with a present value is `column = ?` bound to `v`, and non-empty |
| Scenarios.AndStep | src/main/java/com/github/vlachenal/sql/ClausesBuilder.java:317-320 | `.and(column, equalsTo, v)` with a present value after a clause appends ` AND column = ?` and binds `v` last |
| Scenarios.UpdateHeroes | src/test/java/com/github/vlachenal/sql/UpdateBuilderTest.java:122-132 | the wiki example: `UPDATE Heroes SET last_name = ? WHERE first_name = ? AND last_name = ?` with `Croft`, `Lara`, `Craft` in that order |
| Scenarios.UpdateTwoFields | src/test/java/com/github/vlachenal/sql/UpdateBuilderTest.java:45-54 | `UPDATE t SET a = ?, b = ?` |
| DeleteTwoClauses | src/main/java/com/github/vlachenal/sql/DeleteBuilder.java:66-72 | the builder classes driven through the same chain yield that text and those values |
| DeleteSkippingAbsentClause | src/test/java/com/github/vlachenal/sql/DeleteBuilderTest.java:87-96 | the builder classes driven through the same chain yield that text and those values |
| UpdateSetBeforeWhere | src/test/java/com/github/vlachenal/sql/UpdateBuilderTest.java:106-115 | the builder classes driven through the same chain yield that text and those values |
| UpdateHeroes | src/test/java/com/github/vlachenal/sql/UpdateBuilderTest.java:122-132 | the builder classes driven through the wiki example yield its text and its three values in order |
| Queries.ConstructorKeepsArguments | src/main/java/com/github/vlachenal/sql/SQLQuery.java:57-60 | a query built from a text and a value list gives back exactly that text and that list |
| Queries.SQLQuery.GetQuery | src/main/java/com/github/vlachenal/sql/SQLQuery.java:70-72 | the text the query was built with |
| Queries.SQLQuery.GetValues | src/main/java/com/github/vlachenal/sql/SQLQuery.java:79-81 | a list as long as the one the query was built with, equal to it at every index |
| Queries.SQLQuery.ValuesArray | src/main/java/com/github/vlachenal/sql/SQLQuery.java:88-90 | a new array as long as the value list, equal to it at every index |
| ClausesBuilder.constructor | src/main/java/com/github/vlachenal/sql/ClausesBuilder.java:49-52 | empty text, no values, no clause yet |
| ClausesBuilder.WithClause | src/main/java/com/github/vlachenal/sql/ClausesBuilder.java:65-68 | the empty predicate after one conditional clause checked by `isValidValue`, with no aggregator |
| ClausesBuilder.WithCheckedClause | src/main/java/com/github/vlachenal/sql/ClausesBuilder.java:81-84 | the empty predicate after one conditional clause checked by the given checker |
| ClausesBuilder.Field | src/main/java/com/github/vlachenal/sql/ClausesBuilder.java:97-101 | appends the column and marks the predicate non-empty; values unchanged |
| ClausesBuilder.Not | src/main/java/com/github/vlachenal/sql/ClausesBuilder.java:110-114 | appends `NOT (` text `)` and then the other predicate's values; flag unchanged; its own text when the argument is itself |
| ClausesBuilder.IsNull | src/main/java/com/github/vlachenal/sql/ClausesBuilder.java:121-124 | appends ` IS NULL` only |
| ClausesBuilder.IsNotNull | src/main/java/com/github/vlachenal/sql/ClausesBuilder.java:131-134 | appends ` IS NOT NULL` only |
| ClausesBuilder.NotEquals | src/main/java/com/github/vlachenal/sql/ClausesBuilder.java:141-144 | appends ` <> ` only |
| ClausesBuilder.Equals | src/main/java/com/github/vlachenal/sql/ClausesBuilder.java:151-154 | appends ` = ` only |
| ClausesBuilder.NotExists | src/main/java/com/github/vlachenal/sql/ClausesBuilder.java:163-167 | appends `NOT EXISTS(` subquery `)` and the subquery's values |
| ClausesBuilder.Exists | src/main/java/com/github/vlachenal/sql/ClausesBuilder.java:176-180 | appends `EXISTS(` subquery `)` and the subquery's values |
| ClausesBuilder.In | src/main/java/com/github/vlachenal/sql/ClausesBuilder.java:194-201 | appends the elements comma-joined and binds nothing; fails (ok false, nothing changed) exactly on an empty list |
| ClausesBuilder.Greater | src/main/java/com/github/vlachenal/sql/ClausesBuilder.java:208-211 | appends ` > ` only |
| ClausesBuilder.GreateEquals | src/main/java/com/github/vlachenal/sql/ClausesBuilder.java:218-221 | appends ` >= ` only |
| ClausesBuilder.Lesser | src/main/java/com/github/vlachenal/sql/ClausesBuilder.java:228-231 | appends ` < ` only |
| ClausesBuilder.LesserEquals | src/main/java/com/github/vlachenal/sql/ClausesBuilder.java:238-241 | appends ` <= ` only |
| ClausesBuilder.Like | src/main/java/com/github/vlachenal/sql/ClausesBuilder.java:248-251 | appends ` LIKE ` only |
| ClausesBuilder.NotLike | src/main/java/com/github/vlachenal/sql/ClausesBuilder.java:258-261 | appends ` NOT LIKE ` only |
| ClausesBuilder.Between | src/main/java/com/github/vlachenal/sql/ClausesBuilder.java:268-271 | appends ` BETWEEN ` only |
| ClausesBuilder.NotBetween | src/main/java/com/github/vlachenal/sql/ClausesBuilder.java:278-281 | appends ` NOT BETWEEN ` only |
| ClausesBuilder.And | src/main/java/com/github/vlachenal/sql/ClausesBuilder.java:288-291 | appends ` AND ` only |
| ClausesBuilder.Or | src/main/java/com/github/vlachenal/sql/ClausesBuilder.java:298-301 | appends ` OR ` only |
| ClausesBuilder.AndClause | src/main/java/com/github/vlachenal/sql/ClausesBuilder.java:317-320 | the conditional clause with `AND` and `isValidValue` |
| ClausesBuilder.AndCheckedClause | src/main/java/com/github/vlachenal/sql/ClausesBuilder.java:334-337 | the conditional clause with `AND` and the given checker |
| ClausesBuilder.OrClause | src/main/java/com/github/vlachenal/sql/ClausesBuilder.java:351-354 | the conditional clause with `OR` and `isValidValue` |
| ClausesBuilder.OrCheckedClause | src/main/java/com/github/vlachenal/sql/ClausesBuilder.java:368-371 | the conditional clause with `OR` and the given checker |
| ClausesBuilder.CheckAndAddClause | src/main/java/com/github/vlachenal/sql/ClausesBuilder.java:384-393 | the new state is the conditional-clause transition of the old one |
| ClausesBuilder.Compound | src/main/java/com/github/vlachenal/sql/ClausesBuilder.java:403-407 | appends `(` other `)` and the other predicate's values, unconditionally |
| ClausesBuilder.NotGroup | src/main/java/com/github/vlachenal/sql/ClausesBuilder.java:110-114 | the text and values of `not`, and the predicate is no longer empty |
| ClausesBuilder.NotExistsGroup | src/main/java/com/github/vlachenal/sql/ClausesBuilder.java:163-167 | the text and values of `notExists`, and the predicate is no longer empty |
| ClausesBuilder.ExistsGroup | src/main/java/com/github/vlachenal/sql/ClausesBuilder.java:176-180 | the text and values of `exists`, and the predicate is no longer empty |
| ClausesBuilder.CompoundGroup | src/main/java/com/github/vlachenal/sql/ClausesBuilder.java:403-407 | the text and values of `compound`, and the predicate is no longer empty |
| SelectBuilder.constructor | src/main/java/com/github/vlachenal/sql/SelectBuilder.java:46-49 | text `SELECT `, no values |
| SelectBuilder.Distinct | src/main/java/com/github/vlachenal/sql/SelectBuilder.java:59-62 | appends `DISTINCT ` only |
| SelectBuilder.Field | src/main/java/com/github/vlachenal/sql/SelectBuilder.java:80-82 | appends the column; the helper returned writes to this statement |
| SelectBuilder.GroupBy | src/main/java/com/github/vlachenal/sql/SelectBuilder.java:91-94 | appends ` GROUP BY ` column; values unchanged |
| SelectBuilder.OrderBy | src/main/java/com/github/vlachenal/sql/SelectBuilder.java:103-106 | appends ` ORDER BY ` column; values unchanged |
| SelectBuilder.Having | src/main/java/com/github/vlachenal/sql/SelectBuilder.java:115-121 | appends ` HAVING `, the predicate and its values only if it has a clause; otherwise nothing changes |
| SelectBuilder.Union | src/main/java/com/github/vlachenal/sql/SelectBuilder.java:130-133 | appends ` UNION ` and the other text; values unchanged |
| SelectBuilder.UnionAll | src/main/java/com/github/vlachenal/sql/SelectBuilder.java:142-145 | appends ` UNION ALL ` and the other text; values unchanged |
| SelectBuilder.UnionKeepingValues | src/main/java/com/github/vlachenal/sql/SelectBuilder.java:130-133 | the union with the other statement's values appended |
| SelectBuilder.UnionAllKeepingValues | src/main/java/com/github/vlachenal/sql/SelectBuilder.java:142-145 | the union-all with the other statement's values appended |
| SelectBuilder.ToString | src/main/java/com/github/vlachenal/sql/SelectBuilder.java:69-71 | the statement text built so far |
| SelectBuilder.Build | src/main/java/com/github/vlachenal/sql/SelectBuilder.java:152-154 | a query whose text is the buffer and whose values are the list |
| PartBuilder.constructor | src/main/java/com/github/vlachenal/sql/AbstractPartBuilder.java:45-47 | holds the given select |
| PartBuilder.Done | src/main/java/com/github/vlachenal/sql/AbstractPartBuilder.java:57-59 | returns exactly that select |
| PartBuilder.Build | src/main/java/com/github/vlachenal/sql/AbstractPartBuilder.java:66-68 | what the select builds |
| PartBuilder.GroupBy | src/main/java/com/github/vlachenal/sql/AbstractPartBuilder.java:77-79 | the select's GROUP BY effect |
| PartBuilder.Having | src/main/java/com/github/vlachenal/sql/AbstractPartBuilder.java:88-90 | the select's HAVING gate, returning the select |
| PartBuilder.OrderBy | src/main/java/com/github/vlachenal/sql/AbstractPartBuilder.java:99-101 | the select's ORDER BY effect |
| PartBuilder.Union | src/main/java/com/github/vlachenal/sql/AbstractPartBuilder.java:110-112 | the select's union effect |
| PartBuilder.UnionAll | src/main/java/com/github/vlachenal/sql/AbstractPartBuilder.java:121-123 | the select's union-all effect |
| FieldsBuilder.constructor | src/main/java/com/github/vlachenal/sql/FieldsBuilder.java:41-44 | appends the first column with no separator to the shared select |
| FieldsBuilder.Field | src/main/java/com/github/vlachenal/sql/FieldsBuilder.java:56-59 | appends `,` column; values unchanged |
| FieldsBuilder.As | src/main/java/com/github/vlachenal/sql/FieldsBuilder.java:68-71 | appends ` AS ` alias |
| FieldsBuilder.Asc | src/main/java/com/github/vlachenal/sql/FieldsBuilder.java:78-81 | appends ` ASC` |
| FieldsBuilder.Desc | src/main/java/com/github/vlachenal/sql/FieldsBuilder.java:88-91 | appends ` DESC` |
| FieldsBuilder.From | src/main/java/com/github/vlachenal/sql/FieldsBuilder.java:100-102 | appends ` FROM ` table; the FROM helper shares the select |
| FieldsBuilder.FromSubquery | src/main/java/com/github/vlachenal/sql/FieldsBuilder.java:111-113 | appends ` FROM (` subquery `)` and its values |
| FieldsBuilder.FromQuery | src/main/java/com/github/vlachenal/sql/FieldsBuilder.java:122-124 | appends ` FROM (` query `)` and its values |
| FieldsBuilder.FromSubqueryAs | src/main/java/com/github/vlachenal/sql/FieldsBuilder.java:134-136 | as `FromSubquery`, then a space and the alias |
| FieldsBuilder.FromQueryAs | src/main/java/com/github/vlachenal/sql/FieldsBuilder.java:146-148 | as `FromQuery`, then a space and the alias |
| FromBuilder.Table | src/main/java/com/github/vlachenal/sql/FromBuilder.java:37-40 | appends ` FROM ` table |
| FromBuilder.Subquery | src/main/java/com/github/vlachenal/sql/FromBuilder.java:48-52 | appends ` FROM (` subquery `)` and its values after the existing ones |
| FromBuilder.Query | src/main/java/com/github/vlachenal/sql/FromBuilder.java:60-64 | appends ` FROM (` query `)` and its values |
| FromBuilder.SubqueryAs | src/main/java/com/github/vlachenal/sql/FromBuilder.java:73-76 | as `Subquery`, then a space and the alias |
| FromBuilder.QueryAs | src/main/java/com/github/vlachenal/sql/FromBuilder.java:85-88 | as `Query`, then a space and the alias |
| FromBuilder.SelfJoin | src/main/java/com/github/vlachenal/sql/FromBuilder.java:100-103 | appends `,` table |
| FromBuilder.SelfJoinQuery | src/main/java/com/github/vlachenal/sql/FromBuilder.java:113-117 | appends `,(` query `) ` alias and its values |
| FromBuilder.SelfJoinSubquery | src/main/java/com/github/vlachenal/sql/FromBuilder.java:127-131 | appends `,(` subquery `) ` alias and its values |
| FromBuilder.InnerJoin | src/main/java/com/github/vlachenal/sql/FromBuilder.java:175-178 | appends ` INNER JOIN ` table; values unchanged |
| FromBuilder.InnerJoinQuery | src/main/java/com/github/vlachenal/sql/FromBuilder.java:188-192 | appends ` INNER JOIN (` query `) ` alias and its values |
| FromBuilder.InnerJoinSubquery | src/main/java/com/github/vlachenal/sql/FromBuilder.java:202-206 | appends ` INNER JOIN (` subquery `) ` alias and its values |
| FromBuilder.Join | src/main/java/com/github/vlachenal/sql/FromBuilder.java:140-142 | the same as `InnerJoin` |
| FromBuilder.JoinQuery | src/main/java/com/github/vlachenal/sql/FromBuilder.java:152-154 | the same as `InnerJoinQuery` |
| FromBuilder.JoinSubquery | src/main/java/com/github/vlachenal/sql/FromBuilder.java:164-166 | the same as `InnerJoinSubquery` |
| FromBuilder.LeftOuterJoin | src/main/java/com/github/vlachenal/sql/FromBuilder.java:250-253 | appends ` LEFT OUTER JOIN ` table; values unchanged |
| FromBuilder.LeftOuterJoinQuery | src/main/java/com/github/vlachenal/sql/FromBuilder.java:263-267 | as written: appends ` LEFT OUTER JOIN `, the query text, the alias with no space, and the query's values |
| FromBuilder.LeftOuterJoinQueryParenthesized | src/main/java/com/github/vlachenal/sql/FromBuilder.java:263-267 | appends ` LEFT OUTER JOIN (` query `) ` alias and its values |
| FromBuilder.LeftOuterJoinSubquery | src/main/java/com/github/vlachenal/sql/FromBuilder.java:277-281 | appends ` LEFT OUTER JOIN (` subquery `) ` alias and its values |
| FromBuilder.LeftJoin | src/main/java/com/github/vlachenal/sql/FromBuilder.java:215-217 | the same as `LeftOuterJoin` |
| FromBuilder.LeftJoinQuery | src/main/java/com/github/vlachenal/sql/FromBuilder.java:227-229 | the same as `LeftOuterJoinQuery` |
| FromBuilder.LeftJoinSubquery | src/main/java/com/github/vlachenal/sql/FromBuilder.java:239-241 | the same as `LeftOuterJoinSubquery` |
| FromBuilder.RightOuterJoin | src/main/java/com/github/vlachenal/sql/FromBuilder.java:325-328 | appends ` RIGHT OUTER JOIN ` table; values unchanged |
| FromBuilder.RightOuterJoinQuery | src/main/java/com/github/vlachenal/sql/FromBuilder.java:338-342 | appends ` RIGHT OUTER JOIN (` query `) ` alias and its values |
| FromBuilder.RightOuterJoinSubquery | src/main/java/com/github/vlachenal/sql/FromBuilder.java:352-356 | appends ` RIGHT OUTER JOIN (` subquery `) ` alias and its values |
| FromBuilder.RightJoin | src/main/java/com/github/vlachenal/sql/FromBuilder.java:290-292 | the same as `RightOuterJoin` |
| FromBuilder.RightJoinQuery | src/main/java/com/github/vlachenal/sql/FromBuilder.java:302-304 | the same as `RightOuterJoinQuery` |
| FromBuilder.RightJoinSubquery | src/main/java/com/github/vlachenal/sql/FromBuilder.java:314-316 | the same as `RightOuterJoinSubquery` |
| FromBuilder.FullOuterJoin | src/main/java/com/github/vlachenal/sql/FromBuilder.java:400-403 | appends ` FULL OUTER JOIN ` table; values unchanged |
| FromBuilder.FullOuterJoinQuery | src/main/java/com/github/vlachenal/sql/FromBuilder.java:413-417 | appends ` FULL OUTER JOIN (` query `) ` alias and its values |
| FromBuilder.FullOuterJoinSubquery | src/main/java/com/github/vlachenal/sql/FromBuilder.java:427-431 | appends ` FULL OUTER JOIN (` subquery `) ` alias and its values |
| FromBuilder.FullJoin | src/main/java/com/github/vlachenal/sql/FromBuilder.java:365-367 | the same as `FullOuterJoin` |
| FromBuilder.FullJoinQuery | src/main/java/com/github/vlachenal/sql/FromBuilder.java:377-379 | the same as `FullOuterJoinQuery` |
| FromBuilder.FullJoinSubquery | src/main/java/com/github/vlachenal/sql/FromBuilder.java:389-391 | the same as `FullOuterJoinSubquery` |
| FromBuilder.NaturalJoin | src/main/java/com/github/vlachenal/sql/FromBuilder.java:440-443 | appends ` NATURAL JOIN ` table |
| FromBuilder.NaturalJoinSubquery | src/main/java/com/github/vlachenal/sql/FromBuilder.java:453-457 | appends ` NATURAL JOIN (` subquery `) ` alias and its values |
| FromBuilder.CrossJoin | src/main/java/com/github/vlachenal/sql/FromBuilder.java:480-483 | appends ` CROSS JOIN ` table |
| FromBuilder.CrossJoinSubquery | src/main/java/com/github/vlachenal/sql/FromBuilder.java:493-497 | appends ` CROSS JOIN (` subquery `) ` alias and its values |
| FromBuilder.On | src/main/java/com/github/vlachenal/sql/FromBuilder.java:520-524 | appends ` ON `, the predicate and its values, with no emptiness check |
| FromBuilder.Where | src/main/java/com/github/vlachenal/sql/FromBuilder.java:533-539 | appends ` WHERE `, the predicate and its values only if it has a clause; returns the select |
| UpdateBuilder.constructor | src/main/java/com/github/vlachenal/sql/UpdateBuilder.java:51-54 | text `UPDATE ` table ` SET `, no values |
| UpdateBuilder.Field | src/main/java/com/github/vlachenal/sql/UpdateBuilder.java:68-75 | `column = ?` bound to the value, after `, ` exactly when a value is already bound |
| UpdateBuilder.Where | src/main/java/com/github/vlachenal/sql/UpdateBuilder.java:84-90 | the WHERE gate |
| UpdateBuilder.Build | src/main/java/com/github/vlachenal/sql/UpdateBuilder.java:97-99 | a query whose text is the buffer and whose values are the list |
| DeleteBuilder.constructor | src/main/java/com/github/vlachenal/sql/DeleteBuilder.java:51-54 | text `DELETE FROM ` table, no values |
| DeleteBuilder.Where | src/main/java/com/github/vlachenal/sql/DeleteBuilder.java:66-72 | the WHERE gate |
| DeleteBuilder.Build | src/main/java/com/github/vlachenal/sql/DeleteBuilder.java:79-81 | a query whose text is the buffer and whose values are the list |
| SQL.Select | src/main/java/com/github/vlachenal/sql/SQL.java:50-52 | a new SELECT statement |
| SQL.SelectDistinct | src/main/java/com/github/vlachenal/sql/SQL.java:59-61 | as written, the same new SELECT statement (no DISTINCT) |
| SQL.Clauses | src/main/java/com/github/vlachenal/sql/SQL.java:68-70 | an empty predicate |
| SQL.ClausesWith | src/main/java/com/github/vlachenal/sql/SQL.java:81-83 | the empty predicate after one clause checked by `isValidValue` |
| SQL.ClausesChecked | src/main/java/com/github/vlachenal/sql/SQL.java:95-97 | the empty predicate after one clause checked by the given checker |

## Left out

- `AbstractPartBuilder.offset`/`fetch` call `SelectBuilder` methods that `SelectBuilder.java` does not have; they are not part of this model.
- The `SQLQuery` overloads of `naturalJoin` and `crossJoin` append the `SQLQuery` object itself, and `SQLQuery` defines no `toString`, so their text is the JVM's identity string; they are not modelled.
- `SQLQuery` keeps an unmodifiable view of the builder's list, so values appended to the builder later show through `getValues`; the model's `SQLQuery` is a snapshot taken at `build`.
- `SQL.update`/`SQL.delete`, used by the tests, are not in `SQL.java`; the model creates those builders with their constructors.
- `ClausesBuilder.In`: the `StringIndexOutOfBoundsException` that `substring(1)` throws on an empty list is modelled as the result `ok == false` with the builder unchanged.
- Exceptions thrown by a `ValueChecker` or `ClauseMaker`, and null arguments other than null values, are not modelled: checkers and makers are total Dafny functions.
- `return this` chaining is implicit: each Dafny method changes the receiver, and the caller keeps using the same object.
- Java generics and run-time types of values beyond the four kinds above are not modelled.
- The `ClausesProvider` and `ValueChecker` interfaces are function types here; `ClausesProvider` is used by none of the modelled code.
- Apart from the wiki example (`UpdateHeroes`), the `Scenarios` lemmas and `Examples.dfy` use one-letter table and column names instead of the tests' longer ones, which keeps each proof small.
- `SQL.SelectDistinct`: as written it adds no `DISTINCT`, and the model follows the code.
- Forms the library's documentation describes but its source files do not contain are not modelled: window-function pagination, `and`/`or` with two values, `and(ClausesBuilder)` and the `ClausesProvider` forms, unwrapping of `Optional` and collection values, and `innerJoin(table, clauses)` with a predicate.

## Findings

| source | as written | input that shows it | evidently intended | confidence | as-written member | corrected member |
|---|---|---|---|---|---|---|
| src/main/java/com/github/vlachenal/sql/SelectBuilder.java:130-145 | `union`/`unionAll` append the other statement's text but not its values | `select.union(other)` where `other` has the clause `a = ?` bound to `1`: the text has one more `?` than there are values | the other statement's values appended after this one's, as `from(SelectBuilder)` and the subquery joins do | not executed | Statements.UnionMisaligns | Statements.UnionWithValuesAligned |
| src/main/java/com/github/vlachenal/sql/FromBuilder.java:263-267 | `leftOuterJoin(SQLQuery, alias)` writes neither the parentheses nor the space before the alias | query text `q`, alias `a`: ` LEFT OUTER JOIN qa`, identical to query text `qa` with an empty alias | ` LEFT OUTER JOIN (q) a`, the shape of every other subquery join | not executed | Statements.LeftOuterJoinAliasFused | Statements.SubqueryJoinAliasSeparated |
| src/main/java/com/github/vlachenal/sql/ClausesBuilder.java:110-114 | `not`, `exists`, `notExists` (lines 163-180) and `compound` (lines 403-407) leave `firstClause` true | `delete("t").where(clauses().not(clauses("a", equalsTo, 1)))` yields `DELETE FROM t` with no value; `clauses().not(x).and("b", equalsTo, 2)` yields `NOT (a = ?)b = ?` | the group counts as a clause: `DELETE FROM t WHERE NOT (a = ?)`, and `NOT (a = ?) AND b = ?` | not executed | Statements.GroupOnlyPredicateDropped | Statements.GroupOnlyPredicateKept |
| src/main/java/com/github/vlachenal/sql/ClausesBuilder.java:384-393 | a conditional clause binds exactly one value whatever number of `?` its maker writes, and `Clauses` offers makers with two (`between`, `notBetween`) and with none (`in`, `notIn`) | `clauses("a", Clauses::between, "x")` gives `a BETWEEN ? AND ?` with one value; `clauses("t.a", Clauses::in, list)` gives `t.a IN ` with the list bound as one value, where `SelectBuilderTest.java:597` expects `t.a IN ('plip','plop')` with no value | a clause binds as many values as its text has `?`: both bounds for BETWEEN, and for IN the list written into the text | not executed | Predicates.MakerPlaceholdersMisalign | Predicates.AddBoundClauseAligned |

The class methods `SelectBuilder.Union`, `SelectBuilder.UnionAll`,
`PartBuilder.Union`, `PartBuilder.UnionAll`, `FromBuilder.LeftOuterJoinQuery`,
`FromBuilder.LeftJoinQuery`, `ClausesBuilder.Not`, `ClausesBuilder.NotExists`,
`ClausesBuilder.Exists` and `ClausesBuilder.Compound` model the code as
written. The corrected behaviour is given by
`SelectBuilder.UnionKeepingValues` and `SelectBuilder.UnionAllKeepingValues`
(`Statements.UnionWithValues`), by
`FromBuilder.LeftOuterJoinQueryParenthesized`, and by
`ClausesBuilder.NotGroup`, `ClausesBuilder.NotExistsGroup`,
`ClausesBuilder.ExistsGroup` and `ClausesBuilder.CompoundGroup`
(`Predicates.EmbedClause`). The corrected conditional clause is the
function `Predicates.AddBoundClause`. The library has no method that passes
two bounds or an inlined list to a conditional clause, so no class method
uses it; `ClausesBuilder.CheckAndAddClause` keeps the code as written.
