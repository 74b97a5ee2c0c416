/** `Array.prototype.filter` on sequences, and what the screens rely on it for. */
module Seqs {

  /** The elements of `s` that satisfy `p`, in their order in `s`. */
  function Filter<T>(s: seq<T>, p: T -> bool): (r: seq<T>)
    ensures |r| <= |s|
    ensures forall i :: 0 <= i < |r| ==> r[i] in s && p(r[i])
    ensures forall i :: 0 <= i < |s| && p(s[i]) ==> s[i] in r
  {
    if |s| == 0 then []
    else (if p(s[0]) then [s[0]] else []) + Filter(s[1..], p)
  }

  /** Filtering distributes over concatenation: the kept elements keep their
      relative order. */
  lemma {:induction false} FilterAppend<T>(a: seq<T>, b: seq<T>, p: T -> bool)
    ensures Filter(a + b, p) == Filter(a, p) + Filter(b, p)
  {
    if |a| == 0 {
      assert a + b == b;
    } else {
      assert (a + b)[1..] == a[1..] + b;
      FilterAppend(a[1..], b, p);
    }
  }

  /** Filtering with a condition and with its negation splits `s` into two
      parts whose elements, counted with multiplicity, are exactly those of `s`. */
  lemma {:induction false} FilterSplit<T>(s: seq<T>, p: T -> bool, q: T -> bool)
    requires forall x :: q(x) == !p(x)
    ensures multiset(Filter(s, p)) + multiset(Filter(s, q)) == multiset(s)
    ensures |Filter(s, p)| + |Filter(s, q)| == |s|
  {
    if |s| > 0 {
      FilterSplit(s[1..], p, q);
      assert s == [s[0]] + s[1..];
    }
  }

  /** Two conditions that, among the elements meeting `d`, are each other's
      negation, and that no other element meets, split `Filter(s, d)` the way
      `FilterSplit` splits `s`. */
  lemma {:induction false} FilterSplitWithin<T>(s: seq<T>, p: T -> bool, q: T -> bool, d: T -> bool)
    requires forall x :: d(x) ==> q(x) == !p(x)
    requires forall x :: !d(x) ==> !p(x) && !q(x)
    ensures multiset(Filter(s, p)) + multiset(Filter(s, q)) == multiset(Filter(s, d))
  {
    if |s| > 0 {
      FilterSplitWithin(s[1..], p, q, d);
      assert s == [s[0]] + s[1..];
    }
  }

  /** Filtering with a condition every element meets changes nothing. */
  lemma {:induction false} FilterAll<T>(s: seq<T>, p: T -> bool)
    requires forall i :: 0 <= i < |s| ==> p(s[i])
    ensures Filter(s, p) == s
  {
    if |s| > 0 {
      FilterAll(s[1..], p);
    }
  }
}
