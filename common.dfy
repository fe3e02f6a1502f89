/** Option and Result, shared by the todo handlers and the user model. */
module Wrappers {

  datatype Option<+T> = None | Some(value: T)

  datatype Result<+T, +E> = Ok(value: T) | Err(error: E)
}

/** The JSON values that request bodies and rendered documents are made of. */
module Json {

  /** A JSON value. Numbers are modelled as integers: the only numbers the
      core produces are millisecond timestamps. */
  datatype Json =
    | JNull
    | JBool(b: bool)
    | JNum(n: int)
    | JStr(s: string)
    | JArr(items: seq<Json>)
    | JObj(fields: map<string, Json>)

  /** A JSON object: a request body or a document rendered as a plain object. */
  type Object = map<string, Json>

  /** lodash's `_.pick`: the entries of `obj` whose key is one of `keys`. */
  function Pick(obj: Object, keys: set<string>): (r: Object)
    ensures r.Keys == obj.Keys * keys
    ensures forall k :: k in r ==> r[k] == obj[k]
  {
    map k | k in obj && k in keys :: obj[k]
  }
}

/** Sequences used as the natural (insertion) order of a document collection. */
module Seqs {

  predicate Distinct<T(==)>(s: seq<T>) {
    forall i, j :: 0 <= i < j < |s| ==> s[i] != s[j]
  }

  /** `s` with every occurrence of `x` removed, the rest kept in order. */
  function Without<T(==, !new)>(s: seq<T>, x: T): (r: seq<T>)
    ensures forall y :: y in r <==> y in s && y != x
    ensures Distinct(s) ==> Distinct(r)
    ensures x !in s ==> r == s
    decreases |s|
  {
    if s == [] then []
    else if s[0] == x then Without(s[1..], x)
    else
      var rest := Without(s[1..], x);
      assert Distinct(s) ==> s[0] !in s[1..] by {
        if Distinct(s) {
          forall k | 0 <= k < |s[1..]| ensures s[1..][k] != s[0] {
            assert s[1..][k] == s[k + 1];
          }
        }
      }
      [s[0]] + rest
  }

  /** A sequence without repetitions has as many elements as its set of elements. */
  lemma {:induction false} DistinctCardinality<T>(s: seq<T>)
    requires Distinct(s)
    ensures |set y | y in s| == |s|
  {
    if s != [] {
      DistinctCardinality(s[1..]);
      assert (set y | y in s) == {s[0]} + (set y | y in s[1..]);
      assert s[0] !in s[1..] by {
        forall k | 0 <= k < |s[1..]| ensures s[1..][k] != s[0] {
          assert s[1..][k] == s[k + 1];
        }
      }
    }
  }
}
