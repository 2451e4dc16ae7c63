/** The array operations the storefront relies on (`filter`, `map`, `slice(0, n)`), on sequences. */
module Seqs {

  /** `s.filter(keep)`: the elements that satisfy `keep`, in their original order. */
  function Filter<T>(s: seq<T>, keep: T -> bool): (r: seq<T>)
    ensures |r| <= |s|
    ensures forall i :: 0 <= i < |r| ==> keep(r[i])
  {
    if s == [] then [] else (if keep(s[0]) then [s[0]] else []) + Filter(s[1..], keep)
  }

  /** Every element of a filter comes from the filtered sequence. */
  lemma {:induction false} FilterSubset<T>(s: seq<T>, keep: T -> bool)
    ensures forall i :: 0 <= i < |Filter(s, keep)| ==> Filter(s, keep)[i] in s
  {
    if s != [] {
      FilterSubset(s[1..], keep);
      var tail := Filter(s[1..], keep);
      assert forall i :: 0 <= i < |tail| ==> tail[i] in s by {
        assert forall x :: x in s[1..] ==> x in s;
      }
    }
  }

  /** Every element that satisfies the predicate survives the filter. */
  lemma {:induction false} FilterComplete<T>(s: seq<T>, keep: T -> bool)
    ensures forall i :: 0 <= i < |s| && keep(s[i]) ==> s[i] in Filter(s, keep)
  {
    if s != [] {
      FilterComplete(s[1..], keep);
      var r := Filter(s, keep);
      var tail := Filter(s[1..], keep);
      assert forall i :: 1 <= i < |s| ==> s[i] == s[1..][i - 1];
      assert forall x :: x in tail ==> x in r;
    }
  }

  /** `s.map(f)` */
  function Map<T, U>(s: seq<T>, f: T -> U): (r: seq<U>)
    ensures |r| == |s|
    ensures forall i :: 0 <= i < |s| ==> r[i] == f(s[i])
  {
    if s == [] then [] else [f(s[0])] + Map(s[1..], f)
  }

  /** `s.slice(0, n)` */
  function Take<T>(s: seq<T>, n: nat): (r: seq<T>)
    ensures |r| <= n && |r| <= |s|
    ensures |s| <= n ==> r == s
    ensures n <= |s| ==> |r| == n
    ensures r == s[..|r|]
  {
    if |s| <= n then s else s[..n]
  }

  /** Filtering keeps relative order: it distributes over concatenation. */
  lemma {:induction false} FilterConcat<T>(a: seq<T>, b: seq<T>, keep: T -> bool)
    ensures Filter(a + b, keep) == Filter(a, keep) + Filter(b, keep)
  {
    if a == [] {
      assert a + b == b;
    } else {
      assert (a + b)[1..] == a[1..] + b;
      FilterConcat(a[1..], b, keep);
    }
  }

  /** A filter that keeps everything is the identity. */
  lemma {:induction false} FilterKeepsAll<T>(s: seq<T>, keep: T -> bool)
    requires forall i :: 0 <= i < |s| ==> keep(s[i])
    ensures Filter(s, keep) == s
  {
    if s != [] {
      FilterKeepsAll(s[1..], keep);
    }
  }

  /** A filter that keeps every element of `s` keeps every slice of `s` whole. */
  lemma FilterKeepsSlice<T>(s: seq<T>, i: nat, j: nat, keep: T -> bool)
    requires i <= j <= |s|
    requires forall k :: 0 <= k < |s| ==> keep(s[k])
    ensures Filter(s[i..j], keep) == s[i..j]
  {
    var t := s[i..j];
    forall k | 0 <= k < |t|
      ensures keep(t[k])
    {
      assert t[k] == s[i + k];
    }
    FilterKeepsAll(t, keep);
  }

  /** Filtering twice by the same predicate filters once. */
  lemma {:induction false} FilterIdempotent<T>(s: seq<T>, keep: T -> bool)
    ensures Filter(Filter(s, keep), keep) == Filter(s, keep)
  {
    FilterKeepsAll(Filter(s, keep), keep);
  }

  /** Two predicates that agree on every element give the same filter. */
  lemma {:induction false} FilterCongruent<T>(s: seq<T>, p: T -> bool, q: T -> bool)
    requires forall i :: 0 <= i < |s| ==> p(s[i]) == q(s[i])
    ensures Filter(s, p) == Filter(s, q)
  {
    if s != [] {
      FilterCongruent(s[1..], p, q);
    }
  }

  /** Filtering out exactly one element cuts that element out of the sequence. */
  lemma {:induction false} FilterDropsOne<T>(s: seq<T>, keep: T -> bool, k: nat)
    requires k < |s| && !keep(s[k])
    requires forall i :: 0 <= i < |s| && i != k ==> keep(s[i])
    ensures Filter(s, keep) == s[..k] + s[k + 1..]
  {
    var tail := s[1..];
    if k == 0 {
      FilterKeepsAll(tail, keep);
    } else {
      FilterDropsOne(tail, keep, k - 1);
      assert s[..k] == [s[0]] + tail[..k - 1];
      assert s[k + 1..] == tail[k..];
    }
  }

  /** Two functions that agree on every element give the same map. */
  lemma MapCongruent<T, U>(s: seq<T>, f: T -> U, g: T -> U)
    requires forall i :: 0 <= i < |s| ==> f(s[i]) == g(s[i])
    ensures Map(s, f) == Map(s, g)
  {
  }

  /** Mapping distributes over concatenation. */
  lemma MapConcat<T, U>(a: seq<T>, b: seq<T>, f: T -> U)
    ensures Map(a + b, f) == Map(a, f) + Map(b, f)
  {
    assert forall i :: 0 <= i < |a + b| ==> Map(a + b, f)[i] == (Map(a, f) + Map(b, f))[i];
  }

  /** The positions a filter keeps, strictly increasing: the survivors stay in their original order. */
  function KeptIndices<T>(s: seq<T>, keep: T -> bool): (ix: seq<nat>)
    ensures |ix| == |Filter(s, keep)|
    ensures forall i :: 0 <= i < |ix| ==> ix[i] < |s| && Filter(s, keep)[i] == s[ix[i]]
    ensures forall i, j :: 0 <= i < j < |ix| ==> ix[i] < ix[j]
  {
    if s == [] then []
    else
      var tail := Filter(s[1..], keep);
      var shifted := Shifted(s, KeptIndices(s[1..], keep), tail);
      if keep(s[0]) then
        assert Filter(s, keep) == [s[0]] + tail;
        var ix := [0] + shifted;
        assert forall i :: 0 < i < |ix| ==> ix[i] == shifted[i - 1];
        ix
      else
        assert Filter(s, keep) == tail;
        shifted
  }

  /** Positions into `s[1..]` moved up by one, so that they point into `s`. */
  function Shifted<T>(s: seq<T>, rest: seq<nat>, tail: seq<T>): (shifted: seq<nat>)
    requires s != [] && |rest| == |tail|
    requires forall i :: 0 <= i < |rest| ==> rest[i] < |s| - 1 && tail[i] == s[1..][rest[i]]
    requires forall i, j :: 0 <= i < j < |rest| ==> rest[i] < rest[j]
    ensures |shifted| == |tail|
    ensures forall i :: 0 <= i < |shifted| ==> 0 < shifted[i] < |s| && s[shifted[i]] == tail[i]
    ensures forall i, j :: 0 <= i < j < |shifted| ==> shifted[i] < shifted[j]
  {
    Map(rest, (n: nat) => n + 1)
  }

  /** `s.slice().reverse()`: the elements last to first. */
  function Reversed<T>(s: seq<T>): (r: seq<T>)
    ensures |r| == |s|
    ensures forall i :: 0 <= i < |s| ==> r[i] == s[|s| - 1 - i]
  {
    if s == [] then [] else Reversed(s[1..]) + [s[0]]
  }

  /** Reversing keeps the same elements. */
  lemma ReversedMembers<T>(s: seq<T>, x: T)
    ensures x in Reversed(s) <==> x in s
  {
    var r := Reversed(s);
    if x in s {
      var k :| 0 <= k < |s| && s[k] == x;
      assert r[|s| - 1 - k] == x;
    }
  }

  /** Elements told apart by `key` stay told apart after filtering. */
  lemma FilterDistinct<T, K>(s: seq<T>, keep: T -> bool, key: T -> K)
    requires forall i, j :: 0 <= i < j < |s| ==> key(s[i]) != key(s[j])
    ensures forall i, j :: 0 <= i < j < |Filter(s, keep)| ==> key(Filter(s, keep)[i]) != key(Filter(s, keep)[j])
  {
    var ix := KeptIndices(s, keep);
  }
}
