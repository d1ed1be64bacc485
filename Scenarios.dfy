/** Whole statements evaluated on the state model: the text and the values
    that a chain of builder calls yields, in the shapes the library's own
    examples use (with one-letter names, except for the wiki example at
    the end).  Each step of a chain is a lemma of its own, so that every
    proof compares only a few short texts. */
module Scenarios {
  import opened Values
  import Clauses
  import Predicates
  import Statements

  /** `clauses(column, equalsTo, v)`. */
  function First(column: string, v: Value): Predicates.Pred
  {
    Predicates.AddClause(Predicates.Empty, "", column, Clauses.EqualsTo, v, IsValidValue)
  }

  /** `.and(column, equalsTo, v)`. */
  function AndEquals(p: Predicates.Pred, column: string, v: Value): Predicates.Pred
  {
    Predicates.AddClause(p, "AND", column, Clauses.EqualsTo, v, IsValidValue)
  }

  lemma FirstPresent()
    ensures First("a", Other("1")) == Predicates.Pred("a = ?", [Other("1")], false)
  {
  }

  lemma FirstAbsent()
    ensures First("a", Null) == Predicates.Empty
  {
  }

  lemma AndAfterClause()
    ensures AndEquals(Predicates.Pred("a = ?", [Other("1")], false), "b", Other("2"))
         == Predicates.Pred("a = ? AND b = ?", [Other("1"), Other("2")], false)
  {
  }

  lemma AndOnEmpty()
    ensures AndEquals(Predicates.Empty, "b", Str("p")) == Predicates.Pred("b = ?", [Str("p")], false)
  {
  }

  lemma WhereTwoClauses()
    ensures Statements.Gate(Statements.DeleteStart("t"), " WHERE ",
                            Predicates.Pred("a = ? AND b = ?", [Other("1"), Other("2")], false))
         == Statements.Stmt("DELETE FROM t WHERE a = ? AND b = ?", [Other("1"), Other("2")])
  {
  }

  /** Two present values: the second clause is joined by AND and the values
      follow their clauses. */
  lemma DeleteTwoClauses()
    ensures Statements.Gate(Statements.DeleteStart("t"), " WHERE ", AndEquals(First("a", Other("1")), "b", Other("2")))
         == Statements.Stmt("DELETE FROM t WHERE a = ? AND b = ?", [Other("1"), Other("2")])
  {
    FirstPresent();
    AndAfterClause();
    WhereTwoClauses();
  }

  /** An absent value, then a present one: the first clause leaves no
      trace, the second starts the predicate without an aggregator. */
  lemma DeleteSkippingAbsentClause()
    ensures Statements.Gate(Statements.DeleteStart("t"), " WHERE ", AndEquals(First("a", Null), "b", Str("p")))
         == Statements.Stmt("DELETE FROM t WHERE b = ?", [Str("p")])
  {
    FirstAbsent();
    AndOnEmpty();
  }

  /** A predicate with no present value adds no WHERE. */
  lemma DeleteWithoutWhere()
    ensures Statements.Gate(Statements.DeleteStart("t"), " WHERE ", First("a", Null))
         == Statements.DeleteStart("t")
  {
    FirstAbsent();
  }

  lemma SetFirstField()
    ensures Statements.SetField(Statements.UpdateStart("t"), "a", Other("1"))
         == Statements.Stmt("UPDATE t SET a = ?", [Other("1")])
  {
  }

  /** The SET values come before the WHERE values. */
  lemma UpdateSetBeforeWhere()
    ensures Statements.Gate(Statements.SetField(Statements.UpdateStart("t"), "a", Other("1")), " WHERE ",
                            AndEquals(First("a", Null), "b", Str("p")))
         == Statements.Stmt("UPDATE t SET a = ? WHERE b = ?", [Other("1"), Str("p")])
  {
    SetFirstField();
    FirstAbsent();
    AndOnEmpty();
  }

  /** Two assignments are separated by `, `. */
  lemma UpdateTwoFields()
    ensures Statements.SetField(Statements.SetField(Statements.UpdateStart("t"), "a", Other("1")), "b", Str("p"))
         == Statements.Stmt("UPDATE t SET a = ?, b = ?", [Other("1"), Str("p")])
  {
    SetFirstField();
  }

  // The wiki example, with the test's own names: each general step is
  // instantiated once and the literal texts are compared one piece at a time.

  lemma FirstStep(column: string, v: Value)
    requires IsValidValue(v)
    ensures First(column, v) == Predicates.Pred(Clauses.EqualsTo(column), [v], false)
  {
  }

  lemma AndStep(p: Predicates.Pred, column: string, v: Value)
    requires IsValidValue(v) && !p.firstClause
    ensures AndEquals(p, column, v)
         == Predicates.Pred(p.buffer + " " + "AND" + " " + Clauses.EqualsTo(column), p.values + [v], false)
  {
  }

  lemma HeroesFirstText()
    ensures Clauses.EqualsTo("first_name") == "first_name = ?"
  {
  }

  lemma HeroesAndText()
    ensures "first_name = ?" + " " + "AND" + " " + Clauses.EqualsTo("last_name") == "first_name = ? AND last_name = ?"
  {
  }

  lemma HeroesAndValues()
    ensures [Str("Lara")] + [Str("Craft")] == [Str("Lara"), Str("Craft")]
  {
  }

  lemma HeroesFirst()
    ensures First("first_name", Str("Lara")) == Predicates.Pred("first_name = ?", [Str("Lara")], false)
  {
    FirstStep("first_name", Str("Lara"));
    HeroesFirstText();
  }

  lemma HeroesAnd()
    ensures AndEquals(Predicates.Pred("first_name = ?", [Str("Lara")], false), "last_name", Str("Craft"))
         == Predicates.Pred("first_name = ? AND last_name = ?", [Str("Lara"), Str("Craft")], false)
  {
    AndStep(Predicates.Pred("first_name = ?", [Str("Lara")], false), "last_name", Str("Craft"));
    HeroesAndText();
    HeroesAndValues();
  }

  lemma HeroesSet()
    ensures Statements.SetField(Statements.UpdateStart("Heroes"), "last_name", Str("Croft"))
         == Statements.Stmt("UPDATE Heroes SET last_name = ?", [Str("Croft")])
  {
  }

  lemma HeroesWhereText()
    ensures "UPDATE Heroes SET last_name = ?" + " WHERE " + "first_name = ? AND last_name = ?"
         == "UPDATE Heroes SET last_name = ? WHERE first_name = ? AND last_name = ?"
  {
  }

  lemma HeroesWhere()
    ensures Statements.Gate(Statements.Stmt("UPDATE Heroes SET last_name = ?", [Str("Croft")]), " WHERE ",
                            Predicates.Pred("first_name = ? AND last_name = ?", [Str("Lara"), Str("Craft")], false))
         == Statements.Stmt("UPDATE Heroes SET last_name = ? WHERE first_name = ? AND last_name = ?",
                            [Str("Croft"), Str("Lara"), Str("Craft")])
  {
    HeroesWhereText();
  }

  /** `update("Heroes").field("last_name", "Croft").where(clauses("first_name",
      equalsTo, "Lara").and("last_name", equalsTo, "Craft"))`. */
  lemma UpdateHeroes()
    ensures Statements.Gate(Statements.SetField(Statements.UpdateStart("Heroes"), "last_name", Str("Croft")), " WHERE ",
                            AndEquals(First("first_name", Str("Lara")), "last_name", Str("Craft")))
         == Statements.Stmt("UPDATE Heroes SET last_name = ? WHERE first_name = ? AND last_name = ?",
                            [Str("Croft"), Str("Lara"), Str("Craft")])
  {
    HeroesSet();
    HeroesFirst();
    HeroesAnd();
    HeroesWhere();
  }
}
