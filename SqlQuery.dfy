/** The result of `build()`: the SQL text and the values bound to its
    placeholders, in order. */
module Queries {
  import opened Values

  /** `new SQLQuery(query, values)`: the text and the values, kept as given. */
  datatype SQLQuery = SQLQuery(query: string, values: seq<Value>) {

    /** `getQuery`: the text given at construction. */
    function GetQuery(): (r: string)
      ensures r == query
    {
      query
    }

    /** `getValues`: the values given at construction, in order. */
    function GetValues(): (r: seq<Value>)
      ensures |r| == |values| && forall i :: 0 <= i < |r| ==> r[i] == values[i]
    {
      values
    }

    /** `values()`: a new array holding the same values at the same indices. */
    method ValuesArray() returns (a: array<Value>)
      ensures fresh(a)
      ensures a.Length == |GetValues()|
      ensures forall i :: 0 <= i < a.Length ==> a[i] == GetValues()[i]
    {
      a := new Value[|values|](i requires 0 <= i < |values| => values[i]);
    }
  }

  /** The getters give back exactly what the constructor was given. */
  lemma ConstructorKeepsArguments(query: string, values: seq<Value>)
    ensures SQLQuery(query, values).GetQuery() == query
    ensures SQLQuery(query, values).GetValues() == values
  {
  }
}
