/** The three array idioms the source uses on its collections: `findIndex`
    (and `find`, which returns the element at that index), `filter`, and a
    `map` that rewrites the elements a test selects and keeps the others.
    Callers pass the test as a named function of theirs, so that a lemma and
    the definition it is about apply the same closure. */
module Seqs {

  /** `s.findIndex(hit)`: the first index whose element passes `hit`, or -1. */
  function FirstIndex<T>(s: seq<T>, hit: T -> bool): (k: int)
    ensures -1 <= k < |s|
    ensures 0 <= k ==> hit(s[k]) && forall j :: 0 <= j < k ==> !hit(s[j])
    ensures k == -1 <==> forall j :: 0 <= j < |s| ==> !hit(s[j])
  {
    if s == [] then -1
    else if hit(s[0]) then 0
    else
      var k := FirstIndex(s[1..], hit);
      assert forall j :: 1 <= j < |s| ==> s[j] == s[1..][j - 1];
      if k < 0 then -1 else k + 1
  }

  /** The index of an element depends only on the test's answers: rewriting
      elements without changing those answers keeps every `findIndex`. */
  lemma {:induction false} FirstIndexStable<T>(s: seq<T>, t: seq<T>, hit: T -> bool)
    requires |s| == |t|
    requires forall i :: 0 <= i < |s| ==> hit(s[i]) == hit(t[i])
    ensures FirstIndex(s, hit) == FirstIndex(t, hit)
  {
    if s != [] {
      assert hit(s[0]) == hit(t[0]);
      if !hit(s[0]) {
        assert forall i :: 0 <= i < |s[1..]| ==> s[1..][i] == s[i + 1] && t[1..][i] == t[i + 1];
        FirstIndexStable(s[1..], t[1..], hit);
      }
    }
  }

  /** `s.filter(keep)`: the elements that pass, in their original order. */
  function Filter<T(!new)>(s: seq<T>, keep: T -> bool): (r: seq<T>)
    ensures |r| <= |s|
    ensures forall x :: x in r <==> x in s && keep(x)
  {
    if s == [] then []
    else
      assert forall x :: x in s <==> x == s[0] || x in s[1..];
      (if keep(s[0]) then [s[0]] else []) + Filter(s[1..], keep)
  }

  /** Filtering commutes with concatenation, which is what "in their original
      order" means. */
  lemma {:induction false} FilterAppend<T(!new)>(a: seq<T>, b: seq<T>, keep: T -> bool)
    ensures Filter(a + b, keep) == Filter(a, keep) + Filter(b, keep)
  {
    if a == [] {
      assert a + b == b;
    } else {
      assert (a + b)[0] == a[0];
      assert (a + b)[1..] == a[1..] + b;
      FilterAppend(a[1..], b, keep);
    }
  }

  /** A filter that every element passes returns its input unchanged. */
  lemma {:induction false} FilterKeepsAll<T(!new)>(s: seq<T>, keep: T -> bool)
    requires forall i :: 0 <= i < |s| ==> keep(s[i])
    ensures Filter(s, keep) == s
  {
    if s != [] {
      assert forall i :: 0 <= i < |s[1..]| ==> s[1..][i] == s[i + 1];
      FilterKeepsAll(s[1..], keep);
    }
  }

  /** A filter that every element but one passes drops exactly that one. */
  lemma {:induction false} FilterDropsOne<T(!new)>(s: seq<T>, k: int, keep: T -> bool)
    requires 0 <= k < |s| && !keep(s[k])
    requires forall i :: 0 <= i < |s| && i != k ==> keep(s[i])
    ensures Filter(s, keep) == s[..k] + s[k + 1..]
  {
    var before, after := s[..k], s[k + 1..];
    var rest := [s[k]] + after;
    assert s == before + rest;
    assert forall i :: 0 <= i < |before| ==> before[i] == s[i];
    FilterKeepsAll(before, keep);
    assert forall i :: 0 <= i < |after| ==> after[i] == s[k + 1 + i];
    FilterKeepsAll(after, keep);
    assert Filter([s[k]], keep) == [];
    FilterAppend([s[k]], after, keep);
    assert Filter(rest, keep) == after;
    FilterAppend(before, rest, keep);
  }

  /** A filter is empty exactly when no element passes. */
  lemma FilterEmptyIff<T(!new)>(s: seq<T>, keep: T -> bool)
    ensures Filter(s, keep) == [] <==> forall i :: 0 <= i < |s| ==> !keep(s[i])
  {
    var r := Filter(s, keep);
    if r != [] {
      assert r[0] in r;
    }
    forall i | 0 <= i < |s| && keep(s[i])
      ensures r != []
    {
      assert s[i] in s;
    }
  }

  /** A test that selects at least what another selects, position by
      position, keeps at least as many elements. */
  lemma {:induction false} FilterLengthMonotone<T(!new)>(s: seq<T>, t: seq<T>, keep: T -> bool)
    requires |s| == |t|
    requires forall i :: 0 <= i < |t| ==> keep(t[i]) ==> keep(s[i])
    ensures |Filter(t, keep)| <= |Filter(s, keep)|
  {
    if s != [] {
      assert forall i :: 0 <= i < |t[1..]| ==> t[1..][i] == t[i + 1] && s[1..][i] == s[i + 1];
      FilterLengthMonotone(s[1..], t[1..], keep);
    }
  }

  /** `s.map(x => hit(x) ? f(x) : x)`: every selected element rewritten,
      every other element kept, positions unchanged. */
  function MapWhere<T>(s: seq<T>, hit: T -> bool, f: T -> T): (r: seq<T>)
    ensures |r| == |s|
    ensures forall i :: 0 <= i < |s| ==> r[i] == if hit(s[i]) then f(s[i]) else s[i]
  {
    if s == [] then []
    else
      var rest := MapWhere(s[1..], hit, f);
      assert forall i :: 1 <= i < |s| ==> s[i] == s[1..][i - 1];
      [if hit(s[0]) then f(s[0]) else s[0]] + rest
  }
}
