/** Placeholder accounting on SQL text.

    A prepared statement binds its values, in order, to the `?` tokens of its
    text read from left to right.  Everything the builders promise about
    binding reduces to counting those tokens in the text they append.
 */
module Text {

  /** The number of `?` placeholder tokens in `s`, counted as a multiset so
      that the count of a concatenation is the sum of the counts.  It is the
      number a driver finds reading the text left to right
      (`ScanPlaceholders`, equal by `ScanAgrees`). */
  function Placeholders(s: string): nat
  {
    multiset(s)['?']
  }

  /** The count a driver makes: scan the text left to right, one per `?`. */
  function ScanPlaceholders(s: string): nat
  {
    if s == [] then 0
    else (if s[0] == '?' then 1 else 0) + ScanPlaceholders(s[1..])
  }

  /** The two counts agree on every text. */
  lemma {:induction false} ScanAgrees(s: string)
    ensures ScanPlaceholders(s) == Placeholders(s)
  {
    if s != [] {
      assert s == [s[0]] + s[1..];
      ScanAgrees(s[1..]);
    }
  }
}
