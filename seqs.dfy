/** The sequence operations the reducers and the catalog page rely on: `Array.prototype.filter`. */
module Seqs {

  /** `r` can be obtained from `s` by deleting elements, keeping the order of the rest. */
  predicate IsSubsequence<T(==)>(r: seq<T>, s: seq<T>)
    decreases |s|
  {
    if r == [] then true
    else if s == [] then false
    else if r[0] == s[0] then IsSubsequence(r[1..], s[1..])
    else IsSubsequence(r, s[1..])
  }

  lemma {:induction false} SubsequenceReflexive<T>(s: seq<T>)
    ensures IsSubsequence(s, s)
  {
    if s != [] { SubsequenceReflexive(s[1..]); }
  }

  /** Every element of a subsequence is an element of the whole. */
  lemma {:induction false} SubsequenceMembers<T>(r: seq<T>, s: seq<T>)
    requires IsSubsequence(r, s)
    ensures forall k :: 0 <= k < |r| ==> r[k] in s
  {
    if r != [] && s != [] {
      if r[0] == s[0] {
        SubsequenceMembers(r[1..], s[1..]);
        assert forall k :: 0 < k < |r| ==> r[k] == r[1..][k - 1];
      } else {
        SubsequenceMembers(r, s[1..]);
      }
    }
  }

  /** `s.filter(keep)`: the elements of `s` that satisfy `keep`, in their original order. */
  function Filter<T>(s: seq<T>, keep: T -> bool): seq<T>
  {
    if s == [] then []
    else if keep(s[0]) then [s[0]] + Filter(s[1..], keep)
    else Filter(s[1..], keep)
  }

  /** What `filter` promises: a subsequence holding exactly the elements that satisfy `keep`. */
  lemma {:induction false} FilterSpec<T>(s: seq<T>, keep: T -> bool)
    ensures |Filter(s, keep)| <= |s|
    ensures forall k :: 0 <= k < |Filter(s, keep)| ==> keep(Filter(s, keep)[k]) && Filter(s, keep)[k] in s
    ensures forall k :: 0 <= k < |s| ==> (s[k] in Filter(s, keep) <==> keep(s[k]))
    ensures IsSubsequence(Filter(s, keep), s)
  {
    if s != [] {
      var r, tail := Filter(s, keep), Filter(s[1..], keep);
      FilterSpec(s[1..], keep);
      if keep(s[0]) {
        assert r == [s[0]] + tail && r[1..] == tail;
        forall k | 0 <= k < |s| ensures s[k] in r <==> keep(s[k]) {
          if k > 0 { assert s[k] == s[1..][k - 1]; }
        }
      } else {
        forall k | 0 <= k < |s| ensures s[k] in r <==> keep(s[k]) {
          if k > 0 { assert s[k] == s[1..][k - 1]; }
        }
        if r != [] {
          assert r[0] in s[1..];
        }
      }
    }
  }

  /** Filtering distributes over concatenation: the relative order of kept elements is preserved. */
  lemma {:induction false} FilterAppend<T>(a: seq<T>, b: seq<T>, keep: T -> bool)
    ensures Filter(a + b, keep) == Filter(a, keep) + Filter(b, keep)
  {
    if a == [] {
      assert a + b == b;
    } else {
      assert (a + b)[1..] == a[1..] + b;
      FilterAppend(a[1..], b, keep);
    }
  }

  /** When every element is kept, filtering returns its input unchanged. */
  lemma {:induction false} FilterKeepsAll<T>(s: seq<T>, keep: T -> bool)
    requires forall k :: 0 <= k < |s| ==> keep(s[k])
    ensures Filter(s, keep) == s
  {
    if s != [] {
      assert keep(s[0]);
      FilterKeepsAll(s[1..], keep);
    }
  }

  /** Filtering twice with the same predicate is filtering once. */
  lemma FilterIdempotent<T>(s: seq<T>, keep: T -> bool)
    ensures Filter(Filter(s, keep), keep) == Filter(s, keep)
  {
    FilterSpec(s, keep);
    FilterKeepsAll(Filter(s, keep), keep);
  }

  /** Deleting exactly the element at position `i` when it is the only rejected one. */
  lemma {:induction false} FilterDropsOne<T>(s: seq<T>, i: nat, keep: T -> bool)
    requires i < |s|
    requires !keep(s[i])
    requires forall k :: 0 <= k < |s| && k != i ==> keep(s[k])
    ensures Filter(s, keep) == s[..i] + s[i + 1..]
  {
    var tail := s[1..];
    if i == 0 {
      FilterKeepsAll(tail, keep);
    } else {
      assert keep(s[0]);
      assert Filter(s, keep) == [s[0]] + Filter(tail, keep);
      assert forall k :: 0 <= k < |tail| && k != i - 1 ==> keep(tail[k]) by {
        forall k | 0 <= k < |tail| && k != i - 1 ensures keep(tail[k]) {
          assert tail[k] == s[k + 1];
        }
      }
      FilterDropsOne(tail, i - 1, keep);
      assert tail[..i - 1] == s[1..i] && tail[i..] == s[i + 1..];
      assert s[..i] == [s[0]] + s[1..i];
    }
  }
}
