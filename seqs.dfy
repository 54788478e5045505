/**
 * The JavaScript array operations the application relies on (`filter`,
 * `map`, `find`, `some`), as functions on sequences.  Each one is
 * specified by what it returns, element by element, and not by how it
 * walks the array.
 */
module Seqs {
  import opened Wrappers

  /** The elements of `s` satisfying `p`, in their order: the definition behind `Filter`. */
  function Select<T>(p: T -> bool, s: seq<T>): seq<T> {
    if s == [] then [] else if p(s[0]) then [s[0]] + Select(p, s[1..]) else Select(p, s[1..])
  }

  /** `Select` keeps each passing element as often as it occurs, and nothing else. */
  lemma {:induction false} SelectCounts<T(!new)>(p: T -> bool, s: seq<T>)
    ensures |Select(p, s)| <= |s|
    ensures forall x :: multiset(Select(p, s))[x] == if p(x) then multiset(s)[x] else 0
  {
    if s != [] {
      assert s == [s[0]] + s[1..];
      SelectCounts(p, s[1..]);
    }
  }

  /** `Select` distributes over concatenation. */
  lemma {:induction false} SelectConcat<T>(p: T -> bool, a: seq<T>, b: seq<T>)
    ensures Select(p, a + b) == Select(p, a) + Select(p, b)
  {
    if a == [] {
      assert a + b == b;
    } else {
      assert (a + b)[1..] == a[1..] + b;
      SelectConcat(p, a[1..], b);
    }
  }

  /** `s.filter(p)`: the elements of `s` satisfying `p`, in their order. */
  function Filter<T(!new)>(p: T -> bool, s: seq<T>): (r: seq<T>)
    ensures |r| <= |s|
    ensures forall x :: x in r <==> x in s && p(x)
    ensures forall x :: multiset(r)[x] == if p(x) then multiset(s)[x] else 0
  {
    SelectCounts(p, s);
    var r := Select(p, s);
    assert forall x :: x in r <==> x in multiset(r);
    r
  }

  /** Filtering distributes over concatenation, so it keeps relative order. */
  lemma FilterConcat<T(!new)>(p: T -> bool, a: seq<T>, b: seq<T>)
    ensures Filter(p, a + b) == Filter(p, a) + Filter(p, b)
  {
    SelectConcat(p, a, b);
  }

  /** A filter that every element passes returns the sequence itself. */
  lemma {:induction false} FilterKeepsAll<T(!new)>(p: T -> bool, s: seq<T>)
    requires forall i :: 0 <= i < |s| ==> p(s[i])
    ensures Filter(p, s) == s
  {
    if s != [] {
      FilterKeepsAll(p, s[1..]);
    }
  }

  /** `s.map(f)`. */
  function Map<T, U>(f: T -> U, s: seq<T>): (r: seq<U>)
    ensures |r| == |s|
    ensures forall i :: 0 <= i < |s| ==> r[i] == f(s[i])
  {
    if s == [] then [] else [f(s[0])] + Map(f, s[1..])
  }

  /** `i` is the position of the first element of `s` satisfying `p`. */
  ghost predicate IsFirst<T>(p: T -> bool, s: seq<T>, i: int) {
    0 <= i < |s| && p(s[i]) && forall j :: 0 <= j < i ==> !p(s[j])
  }

  /** `s.findIndex(p)`, with `None` for JavaScript's -1. */
  function FirstIndex<T>(p: T -> bool, s: seq<T>): (r: Option<nat>)
    ensures r.Some? ==> IsFirst(p, s, r.value)
    ensures r.None? ==> forall i :: 0 <= i < |s| ==> !p(s[i])
  {
    if s == [] then None
    else if p(s[0]) then Some(0)
    else match FirstIndex(p, s[1..])
      case None => None
      case Some(i) => Some(i + 1)
  }

  /** `s.find(p)`: the first element satisfying `p`, if any. */
  function Find<T>(p: T -> bool, s: seq<T>): (r: Option<T>)
    ensures r.None? <==> forall i :: 0 <= i < |s| ==> !p(s[i])
    ensures r.Some? ==> exists i :: IsFirst(p, s, i) && s[i] == r.value
  {
    match FirstIndex(p, s)
    case None => None
    case Some(i) => Some(s[i])
  }

  /** `s.some(p)`. */
  function Any<T>(p: T -> bool, s: seq<T>): (b: bool)
    ensures b <==> exists i :: 0 <= i < |s| && p(s[i])
  {
    Find(p, s).Some?
  }

  /** Appending an element never changes an earlier first match. */
  lemma FindAppend<T>(p: T -> bool, s: seq<T>, x: T)
    ensures Find(p, s + [x]) == if Find(p, s).Some? then Find(p, s) else if p(x) then Some(x) else None
  {
    var r := Find(p, s + [x]);
    if Find(p, s).Some? {
      var i :| IsFirst(p, s, i) && s[i] == Find(p, s).value;
      assert IsFirst(p, s + [x], i);
      var k :| IsFirst(p, s + [x], k) && (s + [x])[k] == r.value;
      assert k == i;
    } else if p(x) {
      assert IsFirst(p, s + [x], |s|);
      var k :| IsFirst(p, s + [x], k) && (s + [x])[k] == r.value;
      assert k == |s|;
    } else {
      assert forall i :: 0 <= i < |s + [x]| ==> !p((s + [x])[i]);
    }
  }
}
