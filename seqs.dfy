/** Sequence helpers used to state the order in which the engine sees its records. */
module Seqs {

  /** `s` read back to front. */
  function Reverse<T>(s: seq<T>): (r: seq<T>)
    ensures |r| == |s|
    ensures forall k :: 0 <= k < |s| ==> r[k] == s[|s| - 1 - k]
  {
    if s == [] then [] else [s[|s| - 1]] + Reverse(s[..|s| - 1])
  }

  lemma ReverseAppend<T>(s: seq<T>, x: T)
    ensures Reverse(s + [x]) == [x] + Reverse(s)
  {
    var r, q := Reverse(s + [x]), [x] + Reverse(s);
    assert |r| == |q|;
    forall k | 0 <= k < |r| ensures r[k] == q[k] {
      if k > 0 {
        assert r[k] == (s + [x])[|s| - k];
      }
    }
  }

  lemma ReversePrepend<T>(x: T, s: seq<T>)
    ensures Reverse([x] + s) == Reverse(s) + [x]
  {
    var r, q := Reverse([x] + s), Reverse(s) + [x];
    assert |r| == |q|;
    forall k | 0 <= k < |r| ensures r[k] == q[k] {
      if k < |s| {
        assert r[k] == ([x] + s)[|s| - k];
      }
    }
  }

  lemma ReverseReverse<T>(s: seq<T>)
    ensures Reverse(Reverse(s)) == s
  {
    var r := Reverse(Reverse(s));
    assert |r| == |s|;
    forall k | 0 <= k < |s| ensures r[k] == s[k] {
    }
  }
}
