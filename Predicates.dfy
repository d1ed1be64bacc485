/** The state of a `ClausesBuilder` (a boolean predicate under construction)
    as a value, and the state transitions its methods perform.

    The class `ClausesBuilder` keeps these three parts in fields and each of
    its methods is specified by one of the functions below; the lemmas here
    are what those methods therefore guarantee: placeholder/value alignment,
    the first-clause rule, and the order of the bound values.
 */
module Predicates {
  import opened Text
  import opened Values
  import Clauses

  /** Text buffer, bound values, and the flag that is true until a clause
      has been added (it tells callers whether the predicate is empty). */
  datatype Pred = Pred(buffer: string, values: seq<Value>, firstClause: bool)

  /** A fresh builder. */
  const Empty: Pred := Pred("", [], true)

  /** Every `?` of the text has its value and every value its `?`. */
  predicate Aligned(p: Pred)
  {
    Placeholders(p.buffer) == |p.values|
  }

  /** Unconditional text: an operator fragment, `AND`, `OR`, `IS NULL`. */
  function Append(p: Pred, text: string): Pred
  {
    p.(buffer := p.buffer + text)
  }

  /** A raw column or literal: appended, and the predicate is no longer empty. */
  function Field(p: Pred, column: string): Pred
  {
    Pred(p.buffer + column, p.values, false)
  }

  /** Another expression's text wrapped in `prefix`/`suffix`, followed in the
      value list by that expression's values (NOT, EXISTS, compound). */
  function Embed(p: Pred, prefix: string, text: string, vals: seq<Value>, suffix: string): Pred
  {
    Pred(p.buffer + prefix + text + suffix, p.values + vals, p.firstClause)
  }

  /** The boolean aggregator written before a clause: none for the first. */
  function Connective(firstClause: bool, boolAgg: string): string
  {
    if firstClause then "" else " " + boolAgg + " "
  }

  /** `checkAndAddClause`: a clause whose value the checker rejects leaves
      the predicate as it is; an accepted one is appended after the
      aggregator (unless it is the first), binds its value and makes the
      predicate non-empty. */
  function AddClause(p: Pred, boolAgg: string, column: string, maker: string -> string,
                     value: Value, checker: Value -> bool): Pred
  {
    if checker(value) then
      Pred(p.buffer + Connective(p.firstClause, boolAgg) + maker(column), p.values + [value], false)
    else p
  }

  /** The rule of `AddClause` unfolded into its cases: a rejected clause has
      no visible effect; an accepted one adds exactly one value, clears the
      flag, and gets an aggregator exactly when the predicate was not empty
      before.  What this rule implies for whole chains and for alignment is
      `AddAllSpec` and `AddClauseAligned`. */
  lemma AddClauseEffect(p: Pred, boolAgg: string, column: string, maker: string -> string,
                        value: Value, checker: Value -> bool)
    ensures var r := AddClause(p, boolAgg, column, maker, value, checker);
      && (!checker(value) ==> r == p)
      && (checker(value) ==>
            && r.values == p.values + [value] && !r.firstClause
            && (p.firstClause ==> r.buffer == p.buffer + maker(column))
            && (!p.firstClause ==> r.buffer == p.buffer + " " + boolAgg + " " + maker(column)))
  {
  }

  /** With a clause maker that yields one `?` (and an aggregator with none),
      a clause keeps the text and the values aligned, accepted or not. */
  lemma AddClauseAligned(p: Pred, boolAgg: string, column: string, maker: string -> string,
                         value: Value, checker: Value -> bool)
    requires Aligned(p)
    requires Placeholders(boolAgg) == 0 && Placeholders(maker(column)) == 1
    ensures Aligned(AddClause(p, boolAgg, column, maker, value, checker))
  {
    if checker(value) {
      var c := Connective(p.firstClause, boolAgg);
      assert Placeholders(c) == 0 by {
        if !p.firstClause {
          assert multiset(c) == multiset(" ") + multiset(boolAgg) + multiset(" ");
        }
      }
      assert multiset(p.buffer + c + maker(column)) == multiset(p.buffer) + multiset(c) + multiset(maker(column));
    }
  }

  /** An accepted clause adds the placeholders its maker writes and exactly
      one value. */
  lemma AddClauseCounts(p: Pred, boolAgg: string, column: string, maker: string -> string,
                        value: Value, checker: Value -> bool)
    requires checker(value) && Placeholders(boolAgg) == 0
    ensures var r := AddClause(p, boolAgg, column, maker, value, checker);
      Placeholders(r.buffer) == Placeholders(p.buffer) + Placeholders(maker(column))
      && |r.values| == |p.values| + 1
  {
    var c := Connective(p.firstClause, boolAgg);
    assert Placeholders(c) == 0 by {
      if !p.firstClause {
        assert multiset(c) == multiset(" ") + multiset(boolAgg) + multiset(" ");
      }
    }
    assert multiset(p.buffer + c + maker(column)) == multiset(p.buffer) + multiset(c) + multiset(maker(column));
  }

  /** As written, a conditional clause binds exactly one value whatever its
      maker writes: with `between`/`notBetween` the text gains two `?` for
      that one value, with `in`/`notIn` it gains none. */
  lemma MakerPlaceholdersMisalign(p: Pred, boolAgg: string, column: string, value: Value, checker: Value -> bool)
    requires Aligned(p) && checker(value)
    requires Placeholders(boolAgg) == 0 && Placeholders(column) == 0
    ensures var r := AddClause(p, boolAgg, column, Clauses.Between, value, checker);
      Placeholders(r.buffer) == |r.values| + 1
    ensures var r := AddClause(p, boolAgg, column, Clauses.NotBetween, value, checker);
      Placeholders(r.buffer) == |r.values| + 1
    ensures var r := AddClause(p, boolAgg, column, Clauses.In, value, checker);
      Placeholders(r.buffer) + 1 == |r.values|
    ensures var r := AddClause(p, boolAgg, column, Clauses.NotIn, value, checker);
      Placeholders(r.buffer) + 1 == |r.values|
  {
    AddClauseCounts(p, boolAgg, column, Clauses.Between, value, checker);
    AddClauseCounts(p, boolAgg, column, Clauses.NotBetween, value, checker);
    AddClauseCounts(p, boolAgg, column, Clauses.In, value, checker);
    AddClauseCounts(p, boolAgg, column, Clauses.NotIn, value, checker);
  }

  /** A conditional clause as evidently intended for every maker: when
      accepted, it binds as many values as its text has placeholders (two
      bounds for BETWEEN, none for an IN list written into the text). */
  function AddBoundClause(p: Pred, boolAgg: string, text: string, vals: seq<Value>, accepted: bool): Pred
  {
    if accepted then Pred(p.buffer + Connective(p.firstClause, boolAgg) + text, p.values + vals, false) else p
  }

  /** The corrected clause keeps the alignment whatever number of `?` its
      text has, provided it binds that many values. */
  lemma AddBoundClauseAligned(p: Pred, boolAgg: string, text: string, vals: seq<Value>, accepted: bool)
    requires Aligned(p)
    requires Placeholders(boolAgg) == 0 && Placeholders(text) == |vals|
    ensures Aligned(AddBoundClause(p, boolAgg, text, vals, accepted))
    ensures !accepted ==> AddBoundClause(p, boolAgg, text, vals, accepted) == p
  {
    if accepted {
      var c := Connective(p.firstClause, boolAgg);
      assert Placeholders(c) == 0 by {
        if !p.firstClause {
          assert multiset(c) == multiset(" ") + multiset(boolAgg) + multiset(" ");
        }
      }
      assert multiset(p.buffer + c + text) == multiset(p.buffer) + multiset(c) + multiset(text);
    }
  }

  /** With the corrected clause, a BETWEEN binds both bounds, in order, and
      stays aligned. */
  lemma BetweenBoundAligned(p: Pred, boolAgg: string, column: string, lo: Value, hi: Value)
    requires Aligned(p)
    requires Placeholders(boolAgg) == 0 && Placeholders(column) == 0
    ensures Aligned(AddBoundClause(p, boolAgg, Clauses.Between(column), [lo, hi], true))
    ensures AddBoundClause(p, boolAgg, Clauses.Between(column), [lo, hi], true).values == p.values + [lo, hi]
  {
    AddBoundClauseAligned(p, boolAgg, Clauses.Between(column), [lo, hi], true);
  }

  /** With the corrected clause, an IN writes its list into the text between
      parentheses, binds nothing, and stays aligned. */
  lemma InListBoundAligned(p: Pred, boolAgg: string, column: string, items: seq<Value>)
    requires Aligned(p)
    requires Placeholders(boolAgg) == 0 && Placeholders(column) == 0
    requires forall i :: 0 <= i < |items| ==> Placeholders(Render(items[i])) == 0
    ensures Aligned(AddBoundClause(p, boolAgg, Clauses.In(column) + "(" + ListText(items) + ")", [], true))
  {
    var list := ListText(items);
    JoinPlaceholderFree(Rendered(items), ",");
    var t := Clauses.In(column) + "(" + list + ")";
    assert multiset(t) == multiset(Clauses.In(column)) + multiset("(") + multiset(list) + multiset(")");
    AddBoundClauseAligned(p, boolAgg, t, [], true);
  }

  /** Text without placeholders keeps the alignment (and so does a raw field). */
  lemma AppendAligned(p: Pred, text: string)
    requires Placeholders(text) == 0
    ensures Aligned(Append(p, text)) <==> Aligned(p)
    ensures Aligned(Field(p, text)) <==> Aligned(p)
  {
    assert multiset(p.buffer + text) == multiset(p.buffer) + multiset(text);
  }

  /** Embedding an aligned expression inside placeholder-free wrappers keeps
      the alignment. */
  lemma EmbedAligned(p: Pred, prefix: string, text: string, vals: seq<Value>, suffix: string)
    requires Placeholders(prefix) == 0 && Placeholders(suffix) == 0
    requires Placeholders(text) == |vals|
    ensures Aligned(Embed(p, prefix, text, vals, suffix)) <==> Aligned(p)
  {
    assert multiset(p.buffer + prefix + text + suffix)
        == multiset(p.buffer) + multiset(prefix) + multiset(text) + multiset(suffix);
  }

  /** The group forms as evidently intended: the embedded expression is a
      clause in its own right, so the predicate is no longer empty. */
  function EmbedClause(p: Pred, prefix: string, text: string, vals: seq<Value>, suffix: string): Pred
  {
    Pred(p.buffer + prefix + text + suffix, p.values + vals, false)
  }

  /** As written, a group leaves the flag as it was: on a fresh builder the
      predicate still counts as empty, and the next accepted clause is
      written straight after the group's closing text, with no aggregator. */
  lemma GroupThenClauseUnjoined(prefix: string, text: string, vals: seq<Value>, suffix: string,
                                boolAgg: string, column: string, maker: string -> string,
                                value: Value, checker: Value -> bool)
    requires checker(value)
    ensures Embed(Empty, prefix, text, vals, suffix).firstClause
    ensures AddClause(Embed(Empty, prefix, text, vals, suffix), boolAgg, column, maker, value, checker).buffer
         == prefix + text + suffix + maker(column)
  {
  }

  /** With the corrected group, the next accepted clause is joined to the
      group by its aggregator and its value follows the group's values. */
  lemma GroupThenClauseJoined(prefix: string, text: string, vals: seq<Value>, suffix: string,
                              boolAgg: string, column: string, maker: string -> string,
                              value: Value, checker: Value -> bool)
    requires checker(value)
    ensures !EmbedClause(Empty, prefix, text, vals, suffix).firstClause
    ensures var r := AddClause(EmbedClause(Empty, prefix, text, vals, suffix), boolAgg, column, maker, value, checker);
      r.buffer == prefix + text + suffix + " " + boolAgg + " " + maker(column) && r.values == vals + [value]
  {
  }

  /** The corrected group keeps the alignment exactly as `Embed` does. */
  lemma EmbedClauseAligned(p: Pred, prefix: string, text: string, vals: seq<Value>, suffix: string)
    requires Placeholders(prefix) == 0 && Placeholders(suffix) == 0
    requires Placeholders(text) == |vals|
    ensures Aligned(EmbedClause(p, prefix, text, vals, suffix)) <==> Aligned(p)
  {
    EmbedAligned(p, prefix, text, vals, suffix);
  }

  /** The texts of the elements of an `in` list, as `StringBuilder.append`
      writes each of them. */
  function Rendered(items: seq<Value>): seq<string>
  {
    seq(|items|, i requires 0 <= i < |items| => Render(items[i]))
  }

  /** The text `in(list)` appends: the elements, comma-separated. */
  function ListText(items: seq<Value>): string
  {
    Join(Rendered(items), ",")
  }

  /** Joining placeholder-free parts with a placeholder-free separator gives
      a placeholder-free text. */
  lemma {:induction false} JoinPlaceholderFree(parts: seq<string>, sep: string)
    requires Placeholders(sep) == 0
    requires forall i :: 0 <= i < |parts| ==> Placeholders(parts[i]) == 0
    ensures Placeholders(Join(parts, sep)) == 0
    decreases |parts|
  {
    if |parts| > 1 {
      JoinPlaceholderFree(parts[1..], sep);
      assert multiset(parts[0] + sep + Join(parts[1..], sep))
          == multiset(parts[0]) + multiset(sep) + multiset(Join(parts[1..], sep));
    }
  }

  /** An inlined list binds no value, so it keeps the predicate aligned as
      long as no element's text contains a `?`. */
  lemma ListTextAligned(p: Pred, items: seq<Value>)
    requires forall i :: 0 <= i < |items| ==> Placeholders(Render(items[i])) == 0
    ensures Placeholders(ListText(items)) == 0
    ensures Aligned(Append(p, ListText(items))) <==> Aligned(p)
  {
    JoinPlaceholderFree(Rendered(items), ",");
    AppendAligned(p, ListText(items));
  }

  // ---------------------------------------------------------------------------
  // Chains of conditional clauses: `clauses(c0, m0, v0).and(c1, m1, v1).or(...)`

  /** One conditional clause of a chain, with its aggregator and checker. */
  datatype Guarded = Guarded(boolAgg: string, column: string, maker: string -> string,
                             value: Value, checker: Value -> bool)

  /** The state after adding the clauses of `cs`, left to right. */
  function AddAll(p: Pred, cs: seq<Guarded>): Pred
    decreases |cs|
  {
    if cs == [] then p
    else AddAll(AddClause(p, cs[0].boolAgg, cs[0].column, cs[0].maker, cs[0].value, cs[0].checker), cs[1..])
  }

  /** The clauses of `cs` whose checker accepts their value, in order. */
  function Accepted(cs: seq<Guarded>): seq<Guarded>
    decreases |cs|
  {
    if cs == [] then []
    else if cs[0].checker(cs[0].value) then [cs[0]] + Accepted(cs[1..])
    else Accepted(cs[1..])
  }

  /** The positions in the chain of the clauses whose checker accepts. */
  function AcceptedIndices(cs: seq<Guarded>): seq<nat>
    decreases |cs|
  {
    if cs == [] then []
    else
      var rest := AcceptedIndices(cs[1..]);
      var shifted := seq(|rest|, k requires 0 <= k < |rest| => rest[k] + 1);
      if cs[0].checker(cs[0].value) then [0] + shifted else shifted
  }

  /** The values of a list of clauses, in order. */
  function ValuesOf(cs: seq<Guarded>): seq<Value>
    decreases |cs|
  {
    if cs == [] then [] else [cs[0].value] + ValuesOf(cs[1..])
  }

  /** The text of a list of clauses, each preceded by its aggregator except
      the first one when the predicate it is added to is empty. */
  function Joined(firstClause: bool, cs: seq<Guarded>): string
    decreases |cs|
  {
    if cs == [] then ""
    else Connective(firstClause, cs[0].boolAgg) + cs[0].maker(cs[0].column) + Joined(false, cs[1..])
  }

  /** What a chain of conditional clauses produces: the accepted values in
      order, the accepted clauses joined by their aggregators (no aggregator
      before the first accepted one, whatever was skipped before it), and a
      predicate that stays empty exactly when no clause was accepted. */
  lemma {:induction false} AddAllSpec(p: Pred, cs: seq<Guarded>)
    ensures AddAll(p, cs).values == p.values + ValuesOf(Accepted(cs))
    ensures AddAll(p, cs).buffer == p.buffer + Joined(p.firstClause, Accepted(cs))
    ensures AddAll(p, cs).firstClause <==> p.firstClause && Accepted(cs) == []
    decreases |cs|
  {
    if cs != [] {
      var c := cs[0];
      var q := AddClause(p, c.boolAgg, c.column, c.maker, c.value, c.checker);
      AddAllSpec(q, cs[1..]);
      if c.checker(c.value) {
        assert Accepted(cs) == [c] + Accepted(cs[1..]);
        assert ([c] + Accepted(cs[1..]))[1..] == Accepted(cs[1..]);
        assert ValuesOf(Accepted(cs)) == [c.value] + ValuesOf(Accepted(cs[1..]));
        assert Joined(p.firstClause, Accepted(cs))
            == Connective(p.firstClause, c.boolAgg) + c.maker(c.column) + Joined(false, Accepted(cs[1..]));
      }
    }
  }

  /** Starting from an empty predicate, the first accepted clause gets no
      aggregator, however many rejected clauses came before it; every later
      accepted clause gets its own. */
  lemma FirstAcceptedUnprefixed(cs: seq<Guarded>)
    requires Accepted(cs) != []
    ensures var a := Accepted(cs);
      AddAll(Empty, cs).buffer == a[0].maker(a[0].column) + Joined(false, a[1..])
  {
    AddAllSpec(Empty, cs);
  }

  /** Clauses added to a predicate that already has one are all preceded by
      their aggregator. */
  lemma NonEmptyPrefixed(p: Pred, cs: seq<Guarded>)
    requires !p.firstClause && Accepted(cs) != []
    ensures var a := Accepted(cs);
      AddAll(p, cs).buffer == p.buffer + " " + a[0].boolAgg + " " + a[0].maker(a[0].column) + Joined(false, a[1..])
  {
    AddAllSpec(p, cs);
  }

  /** A clause is accepted exactly when it is a clause of the chain that its
      own checker accepts. */
  lemma {:induction false} AcceptedExactly(cs: seq<Guarded>)
    ensures forall c :: c in Accepted(cs) <==> c in cs && c.checker(c.value)
    decreases |cs|
  {
    if cs != [] {
      AcceptedExactly(cs[1..]);
      assert forall c :: c in cs <==> c == cs[0] || c in cs[1..];
    }
  }

  /** The accepted clauses are the accepting clauses of the chain, in the
      chain's order: position k of `Accepted(cs)` is the clause at the k-th
      accepting position of `cs`, the positions increase, and every
      accepting position is among them. */
  lemma AcceptedInOrder(cs: seq<Guarded>)
    ensures var idx := AcceptedIndices(cs);
      && |idx| == |Accepted(cs)|
      && (forall k :: 0 <= k < |idx| ==> idx[k] < |cs| && Accepted(cs)[k] == cs[idx[k]])
      && (forall k, l :: 0 <= k < l < |idx| ==> idx[k] < idx[l])
      && (forall i :: 0 <= i < |cs| && cs[i].checker(cs[i].value) ==> i in idx)
  {
    IndicesPick(cs);
    IndicesIncrease(cs);
    IndicesComplete(cs);
  }

  lemma {:induction false} IndicesPick(cs: seq<Guarded>)
    ensures var idx := AcceptedIndices(cs);
      && |idx| == |Accepted(cs)|
      && (forall k :: 0 <= k < |idx| ==> idx[k] < |cs| && Accepted(cs)[k] == cs[idx[k]])
    decreases |cs|
  {
    if cs != [] {
      IndicesPick(cs[1..]);
      var rest := AcceptedIndices(cs[1..]);
      var shifted := seq(|rest|, k requires 0 <= k < |rest| => rest[k] + 1);
      var a := Accepted(cs[1..]);
      assert forall k :: 0 <= k < |shifted| ==> shifted[k] < |cs| && a[k] == cs[shifted[k]] by {
        forall k | 0 <= k < |shifted|
          ensures shifted[k] < |cs| && a[k] == cs[shifted[k]]
        {
          assert a[k] == cs[1..][rest[k]];
        }
      }
      if cs[0].checker(cs[0].value) {
        assert AcceptedIndices(cs) == [0] + shifted;
        assert Accepted(cs) == [cs[0]] + a;
      }
    }
  }

  lemma {:induction false} IndicesIncrease(cs: seq<Guarded>)
    ensures forall k, l :: 0 <= k < l < |AcceptedIndices(cs)| ==> AcceptedIndices(cs)[k] < AcceptedIndices(cs)[l]
    decreases |cs|
  {
    if cs != [] {
      IndicesIncrease(cs[1..]);
      var rest := AcceptedIndices(cs[1..]);
      var shifted := seq(|rest|, k requires 0 <= k < |rest| => rest[k] + 1);
      forall k, l | 0 <= k < l < |shifted|
        ensures shifted[k] < shifted[l]
      {
        assert rest[k] < rest[l];
      }
      assert forall k :: 0 <= k < |shifted| ==> 0 < shifted[k];
      if cs[0].checker(cs[0].value) {
        assert AcceptedIndices(cs) == [0] + shifted;
      }
    }
  }

  lemma {:induction false} IndicesComplete(cs: seq<Guarded>)
    ensures forall i :: 0 <= i < |cs| && cs[i].checker(cs[i].value) ==> i in AcceptedIndices(cs)
    decreases |cs|
  {
    if cs != [] {
      IndicesComplete(cs[1..]);
      var rest := AcceptedIndices(cs[1..]);
      var shifted := seq(|rest|, k requires 0 <= k < |rest| => rest[k] + 1);
      forall i | 1 <= i < |cs| && cs[i].checker(cs[i].value)
        ensures i in shifted
      {
        assert cs[1..][i - 1] == cs[i];
        var k :| 0 <= k < |rest| && rest[k] == i - 1;
        assert shifted[k] == i;
      }
      if cs[0].checker(cs[0].value) {
        assert AcceptedIndices(cs) == [0] + shifted;
      }
    }
  }

  /** Each bound value of a chain belongs to a clause whose checker accepted
      it, and there is at most one bound value per clause; which clauses
      those are, and in what order, is `AcceptedExactly` and
      `AcceptedInOrder`. */
  lemma {:induction false} AcceptedValues(cs: seq<Guarded>, i: nat)
    requires i < |Accepted(cs)|
    ensures Accepted(cs)[i].checker(Accepted(cs)[i].value)
    ensures |ValuesOf(Accepted(cs))| == |Accepted(cs)| <= |cs|
    ensures ValuesOf(Accepted(cs))[i] == Accepted(cs)[i].value
    decreases |cs|
  {
    if cs[0].checker(cs[0].value) {
      if i > 0 {
        AcceptedValues(cs[1..], i - 1);
      }
      ValuesLength(Accepted(cs[1..]));
      AcceptedLength(cs[1..]);
    } else {
      AcceptedValues(cs[1..], i);
    }
  }

  lemma {:induction false} ValuesLength(cs: seq<Guarded>)
    ensures |ValuesOf(cs)| == |cs|
    decreases |cs|
  {
    if cs != [] { ValuesLength(cs[1..]); }
  }

  lemma {:induction false} AcceptedLength(cs: seq<Guarded>)
    ensures |Accepted(cs)| <= |cs|
    decreases |cs|
  {
    if cs != [] { AcceptedLength(cs[1..]); }
  }

  /** A chain of one-placeholder clauses keeps the predicate aligned. */
  lemma {:induction false} AddAllAligned(p: Pred, cs: seq<Guarded>)
    requires Aligned(p)
    requires forall i :: 0 <= i < |cs| ==>
      Placeholders(cs[i].boolAgg) == 0 && Placeholders(cs[i].maker(cs[i].column)) == 1
    ensures Aligned(AddAll(p, cs))
    decreases |cs|
  {
    if cs != [] {
      var c := cs[0];
      AddClauseAligned(p, c.boolAgg, c.column, c.maker, c.value, c.checker);
      AddAllAligned(AddClause(p, c.boolAgg, c.column, c.maker, c.value, c.checker), cs[1..]);
    }
  }
}
