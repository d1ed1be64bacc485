/** The operator templates of `Clauses`: clause makers that turn a column
    name into a predicate fragment.  A single-value template adds exactly one
    placeholder to the column, a range template two, a list template none
    (its list is inlined as text afterwards). */
module Clauses {
  import opened Text

  /** `column` followed by the operator text `op`. */
  function Template(column: string, op: string): (r: string)
    ensures |r| == |column| + |op| && r[..|column|] == column && r[|column|..] == op
    ensures Placeholders(r) == Placeholders(column) + Placeholders(op)
  {
    assert multiset(column + op) == multiset(column) + multiset(op);
    column + op
  }

  function NotEquals(column: string): (r: string)
    ensures |column| <= |r| && r[..|column|] == column && r[|column|..] == " <> ?"
    ensures Placeholders(r) == Placeholders(column) + 1
  {
    Template(column, " <> ?")
  }

  function EqualsTo(column: string): (r: string)
    ensures |column| <= |r| && r[..|column|] == column && r[|column|..] == " = ?"
    ensures Placeholders(r) == Placeholders(column) + 1
  {
    Template(column, " = ?")
  }

  function Greater(column: string): (r: string)
    ensures |column| <= |r| && r[..|column|] == column && r[|column|..] == " > ?"
    ensures Placeholders(r) == Placeholders(column) + 1
  {
    Template(column, " > ?")
  }

  function GreateEquals(column: string): (r: string)
    ensures |column| <= |r| && r[..|column|] == column && r[|column|..] == " >= ?"
    ensures Placeholders(r) == Placeholders(column) + 1
  {
    Template(column, " >= ?")
  }

  function Lesser(column: string): (r: string)
    ensures |column| <= |r| && r[..|column|] == column && r[|column|..] == " < ?"
    ensures Placeholders(r) == Placeholders(column) + 1
  {
    Template(column, " < ?")
  }

  function LesserEquals(column: string): (r: string)
    ensures |column| <= |r| && r[..|column|] == column && r[|column|..] == " <= ?"
    ensures Placeholders(r) == Placeholders(column) + 1
  {
    Template(column, " <= ?")
  }

  function Like(column: string): (r: string)
    ensures |column| <= |r| && r[..|column|] == column && r[|column|..] == " LIKE ?"
    ensures Placeholders(r) == Placeholders(column) + 1
  {
    Template(column, " LIKE ?")
  }

  function NotLike(column: string): (r: string)
    ensures |column| <= |r| && r[..|column|] == column && r[|column|..] == " NOT LIKE ?"
    ensures Placeholders(r) == Placeholders(column) + 1
  {
    Template(column, " NOT LIKE ?")
  }

  function Between(column: string): (r: string)
    ensures |column| <= |r| && r[..|column|] == column && r[|column|..] == " BETWEEN ? AND ?"
    ensures Placeholders(r) == Placeholders(column) + 2
  {
    Template(column, " BETWEEN ? AND ?")
  }

  function NotBetween(column: string): (r: string)
    ensures |column| <= |r| && r[..|column|] == column && r[|column|..] == " NOT BETWEEN ? AND ?"
    ensures Placeholders(r) == Placeholders(column) + 2
  {
    Template(column, " NOT BETWEEN ? AND ?")
  }

  /** The list templates end with a space: the list text is appended next. */
  function In(column: string): (r: string)
    ensures |column| <= |r| && r[..|column|] == column && r[|column|..] == " IN "
    ensures Placeholders(r) == Placeholders(column) && r[|r| - 1] == ' '
  {
    Template(column, " IN ")
  }

  function NotIn(column: string): (r: string)
    ensures |column| <= |r| && r[..|column|] == column && r[|column|..] == " NOT IN "
    ensures Placeholders(r) == Placeholders(column) && r[|r| - 1] == ' '
  {
    Template(column, " NOT IN ")
  }
}
