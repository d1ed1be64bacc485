/** The values a statement binds, and the value helpers of the `SQL` facade:
    the default presence check and the quoting of literal text.

    Java passes bound values as `Object`; the only distinctions the builders
    ever make between them are the ones `SQL.isValidValue` makes (null,
    collection, string, anything else), so the model closes the type over
    exactly those kinds.
 */
module Values {

  datatype Option<T> = None | Some(value: T)

  /** A bound value.  `Other` stands for every non-null object that is
      neither a string nor a collection (numbers, dates, ...), carrying the
      text its `toString` yields. */
  datatype Value =
    | Null
    | Str(s: string)
    | Coll(items: seq<Value>)
    | Other(text: string)

  /** `sep`-separated concatenation of `parts`. */
  function Join(parts: seq<string>, sep: string): string
  {
    if |parts| == 0 then ""
    else if |parts| == 1 then parts[0]
    else parts[0] + sep + Join(parts[1..], sep)
  }

  /** Joining one more part adds the separator and the part at the end: the
      shape of every loop or chain that appends `sep + part` after a first part. */
  lemma {:induction false} JoinSnoc(parts: seq<string>, part: string, sep: string)
    requires |parts| > 0
    ensures Join(parts + [part], sep) == Join(parts, sep) + sep + part
    decreases |parts|
  {
    if |parts| == 1 {
      assert parts + [part] == [parts[0], part];
      assert [parts[0], part][1..] == [part];
    } else {
      assert (parts + [part])[1..] == parts[1..] + [part];
      JoinSnoc(parts[1..], part, sep);
    }
  }

  /** The text Java's `String.valueOf` gives the value: `"null"` for null,
      and `[a, b]` for a collection, as `AbstractCollection.toString` writes it. */
  function Render(v: Value): string
  {
    match v
    case Null => "null"
    case Str(s) => s
    case Coll(items) => "[" + Join(seq(|items|, i requires 0 <= i < |items| => Render(items[i])), ", ") + "]"
    case Other(text) => text
  }

  /** `SQL.isValidValue`, the default presence check of conditional clauses:
      null is absent, a collection or a string is present iff it is not
      empty, and every other value is present. */
  predicate IsValidValue(v: Value)
    ensures v.Null? ==> !IsValidValue(v)
    ensures v.Coll? ==> (IsValidValue(v) <==> |v.items| > 0)
    ensures v.Str? ==> (IsValidValue(v) <==> |v.s| > 0)
    ensures v.Other? ==> IsValidValue(v)
  {
    match v
    case Null => false
    case Coll(items) => items != []
    case Str(s) => s != []
    case Other(_) => true
  }

  /** `SQL.formatText(Object)`: null stays null, anything else becomes its
      text between single quotes.  Dropping the two quotes gives the text back. */
  function FormatText(v: Value): (r: Option<string>)
    ensures r.None? <==> v.Null?
    ensures r.Some? ==>
      && |r.value| == |Render(v)| + 2
      && r.value[0] == '\'' && r.value[|r.value| - 1] == '\''
      && r.value[1..|r.value| - 1] == Render(v)
  {
    if v.Null? then None else Some("'" + Render(v) + "'")
  }

  /** `SQL.formatText(List)`: a null list stays null; otherwise each element
      is quoted by `FormatText`, in order. */
  function FormatTexts(vs: Option<seq<Value>>): (r: Option<seq<Option<string>>>)
    ensures r.None? <==> vs.None?
    ensures r.Some? ==>
      && |r.value| == |vs.value|
      && forall i :: 0 <= i < |vs.value| ==> r.value[i] == FormatText(vs.value[i])
  {
    match vs
    case None => None
    case Some(list) => Some(seq(|list|, i requires 0 <= i < |list| => FormatText(list[i])))
  }
}
