/** The array helpers the stores use on their collections (`find`,
    `findIndex`, `filter` with an id test), over a sequence and a key
    function that reads an entry's id. */
module Collection {
  import opened Wrappers

  /** `findIndex(e => key(e) === id)`: the first index with the id, or -1. */
  function FindIndex<T>(s: seq<T>, key: T -> string, id: string): (r: int)
    ensures -1 <= r < |s|
    ensures r == -1 <==> forall i :: 0 <= i < |s| ==> key(s[i]) != id
    ensures 0 <= r ==> key(s[r]) == id && forall j :: 0 <= j < r ==> key(s[j]) != id
  {
    if |s| == 0 then -1
    else if key(s[0]) == id then 0
    else
      var k := FindIndex(s[1..], key, id);
      if k == -1 then -1 else k + 1
  }

  /** `find(e => key(e) === id)`: the first entry with the id, if any. */
  function Find<T>(s: seq<T>, key: T -> string, id: string): (r: Option<T>)
    ensures r.None? <==> forall i :: 0 <= i < |s| ==> key(s[i]) != id
    ensures r.Some? ==> key(r.value) == id && r.value in s
    ensures r.Some? ==> r.value == s[FindIndex(s, key, id)]
  {
    var k := FindIndex(s, key, id);
    if k == -1 then None else Some(s[k])
  }

  /** `filter(e => key(e) !== id)`: every entry without the id, in order. */
  function Without<T>(s: seq<T>, key: T -> string, id: string): (r: seq<T>)
    ensures forall i :: 0 <= i < |r| ==> r[i] in s && key(r[i]) != id
    ensures forall i :: 0 <= i < |s| && key(s[i]) != id ==> s[i] in r
    ensures |r| <= |s|
    ensures (forall i :: 0 <= i < |s| ==> key(s[i]) != id) ==> r == s
  {
    if |s| == 0 then []
    else if key(s[0]) == id then Without(s[1..], key, id)
    else [s[0]] + Without(s[1..], key, id)
  }

  /** The number of entries of `s` that carry the id. */
  function Occurrences<T>(s: seq<T>, key: T -> string, id: string): nat
  {
    if |s| == 0 then 0
    else (if key(s[0]) == id then 1 else 0) + Occurrences(s[1..], key, id)
  }

  /** Filtering works piecewise, so the entries it keeps stay in their
      relative order. */
  lemma {:induction false} WithoutConcat<T>(a: seq<T>, b: seq<T>, key: T -> string, id: string)
    ensures Without(a + b, key, id) == Without(a, key, id) + Without(b, key, id)
  {
    if |a| == 0 {
      assert a + b == b;
    } else {
      assert (a + b)[1..] == a[1..] + b;
      WithoutConcat(a[1..], b, key, id);
    }
  }

  /** Filtering removes exactly the entries that carry the id. */
  lemma {:induction false} WithoutLength<T>(s: seq<T>, key: T -> string, id: string)
    ensures |Without(s, key, id)| == |s| - Occurrences(s, key, id)
  {
    if |s| > 0 {
      WithoutLength(s[1..], key, id);
    }
  }

  /** Filtering twice by the same id is filtering once. */
  lemma WithoutIdempotent<T>(s: seq<T>, key: T -> string, id: string)
    ensures Without(Without(s, key, id), key, id) == Without(s, key, id)
  {
  }
}
