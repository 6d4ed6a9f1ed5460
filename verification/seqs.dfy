/** Generic list operations the application performs over and over: the
    `filter`, `findIndex`, `map`-with-a-condition and index-based edits of
    JavaScript arrays, each with a contract that characterises the result
    independently of the recursion that computes it. */
module Seqs {
  import opened Wrappers

  /** `a` can be obtained from `b` by deleting elements: same relative order. */
  ghost predicate IsSubseq<T>(a: seq<T>, b: seq<T>)
    decreases |b|
  {
    && |a| <= |b|
    && (a == [] || (|b| > 0 && ((a[0] == b[0] && IsSubseq(a[1..], b[1..])) || IsSubseq(a, b[1..]))))
  }

  /** `Array.prototype.filter`: keeps exactly the elements satisfying `keep`,
      each with its full multiplicity, in their original order. */
  function Filter<T(==,!new)>(s: seq<T>, keep: T -> bool): (r: seq<T>)
    ensures |r| <= |s|
    ensures forall x :: x in r <==> x in s && keep(x)
    ensures forall x :: keep(x) ==> multiset(r)[x] == multiset(s)[x]
    ensures IsSubseq(r, s)
    decreases |s|
  {
    if |s| == 0 then []
    else
      var rest := Filter(s[1..], keep);
      assert s == [s[0]] + s[1..];
      if keep(s[0]) then [s[0]] + rest else rest
  }

  /** Filtering distributes over concatenation: the order-preservation law. */
  lemma {:induction false} FilterConcat<T(!new)>(a: seq<T>, b: seq<T>, keep: T -> bool)
    ensures Filter(a + b, keep) == Filter(a, keep) + Filter(b, keep)
    decreases |a|
  {
    if |a| == 0 {
      assert a + b == b;
    } else {
      assert (a + b)[1..] == a[1..] + b;
      FilterConcat(a[1..], b, keep);
    }
  }

  /** Filtering with a condition every element meets is the identity. */
  lemma {:induction false} FilterAll<T(!new)>(s: seq<T>, keep: T -> bool)
    requires forall x :: x in s ==> keep(x)
    ensures Filter(s, keep) == s
    decreases |s|
  {
    if |s| > 0 {
      FilterAll(s[1..], keep);
    }
  }

  /** `Array.prototype.findIndex`: the first position satisfying `p`, or none. */
  function IndexOf<T>(s: seq<T>, p: T -> bool): (r: Option<nat>)
    ensures r.Some? ==> r.value < |s| && p(s[r.value])
    ensures r.Some? ==> forall j :: 0 <= j < r.value ==> !p(s[j])
    ensures r.None? <==> forall j :: 0 <= j < |s| ==> !p(s[j])
    decreases |s|
  {
    if |s| == 0 then None
    else if p(s[0]) then Some(0)
    else
      match IndexOf(s[1..], p)
      case None => None
      case Some(k) => Some(k + 1)
  }

  /** `s.map(x => matches(x) ? f(x) : x)`: every matching element is rewritten,
      every other one is kept, positions and length are preserved. */
  function ReplaceWhere<T>(s: seq<T>, matches: T -> bool, f: T -> T): (r: seq<T>)
    ensures |r| == |s|
    ensures forall i :: 0 <= i < |s| && matches(s[i]) ==> r[i] == f(s[i])
    ensures forall i :: 0 <= i < |s| && !matches(s[i]) ==> r[i] == s[i]
    decreases |s|
  {
    if |s| == 0 then []
    else
      var head := if matches(s[0]) then f(s[0]) else s[0];
      [head] + ReplaceWhere(s[1..], matches, f)
  }

  /** `s.filter((_, j) => j !== i)`: drops the element at `i`; an index out of
      range removes nothing. */
  function RemoveAt<T>(s: seq<T>, i: int): (r: seq<T>)
    ensures 0 <= i < |s| ==> |r| == |s| - 1
    ensures 0 <= i < |s| ==> forall j :: 0 <= j < i ==> r[j] == s[j]
    ensures 0 <= i < |s| ==> forall j :: i <= j < |r| ==> r[j] == s[j + 1]
    ensures !(0 <= i < |s|) ==> r == s
  {
    if 0 <= i < |s| then s[..i] + s[i + 1..] else s
  }

  /** `s.map((y, j) => j === i ? x : y)`: only position `i` changes. */
  function ReplaceAt<T>(s: seq<T>, i: int, x: T): (r: seq<T>)
    ensures |r| == |s|
    ensures 0 <= i < |s| ==> r[i] == x
    ensures forall j :: 0 <= j < |s| && j != i ==> r[j] == s[j]
  {
    if 0 <= i < |s| then s[i := x] else s
  }

  /** Number of elements satisfying `p`. */
  function CountWhere<T>(s: seq<T>, p: T -> bool): (n: nat)
    ensures n <= |s|
    decreases |s|
  {
    if |s| == 0 then 0
    else (if p(s[|s| - 1]) then 1 else 0) + CountWhere(s[..|s| - 1], p)
  }

  /** `k` is the position of the first occurrence of `x` in `s`. */
  predicate FirstAt<T(==)>(s: seq<T>, x: T, k: int) {
    && 0 <= k < |s| && s[k] == x
    && forall j :: 0 <= j < k ==> s[j] != x
  }

  /** Appending an element does not move the first occurrence of anything
      already present, and a new element first occurs at the end. */
  lemma FirstAtSnoc<T>(init: seq<T>, last: T, x: T, k: int)
    ensures x in init ==> (FirstAt(init + [last], x, k) <==> FirstAt(init, x, k))
    ensures x !in init && FirstAt(init + [last], x, k) ==> k == |init|
  {
    var s := init + [last];
    assert forall j :: 0 <= j < |init| ==> s[j] == init[j];
    if x in init && FirstAt(s, x, k) {
      var m :| 0 <= m < |init| && init[m] == x;
      assert s[m] == x;
      assert k <= m;
    }
  }

  /** The distinct elements of `s`, in order of first occurrence (what a
      JavaScript `Map` or `Set` built by scanning `s` iterates in). */
  function Distinct<T(==,!new)>(s: seq<T>): (r: seq<T>)
    ensures forall x :: x in r <==> x in s
    ensures forall i, j :: 0 <= i < j < |r| ==> r[i] != r[j]
    ensures forall i, j, ki, kj :: 0 <= i < j < |r| && FirstAt(s, r[i], ki) && FirstAt(s, r[j], kj) ==> ki < kj
    decreases |s|
  {
    if |s| == 0 then []
    else
      var init := s[..|s| - 1];
      var d := Distinct(init);
      var last := s[|s| - 1];
      assert s == init + [last];
      var r := if last in d then d else d + [last];
      forall i, j, ki, kj | 0 <= i < j < |r| && FirstAt(s, r[i], ki) && FirstAt(s, r[j], kj)
        ensures ki < kj
      {
        FirstAtSnoc(init, last, r[i], ki);
        FirstAtSnoc(init, last, r[j], kj);
        if j < |d| {
          assert r[i] == d[i] && r[j] == d[j];
        } else {
          assert r[i] == d[i] && d[i] in init;
        }
      }
      r
  }
}
