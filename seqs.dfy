/** `Array.prototype.filter` and the facts about it the dashboard's list operations rest on. */
module Seqs {
  import opened JsText

  /** The elements of `s` that satisfy `p`, in their order. */
  function Filter<T>(s: seq<T>, p: T -> bool): (r: seq<T>)
    ensures |r| <= |s|
    ensures forall i :: 0 <= i < |r| ==> p(r[i])
    ensures multiset(r) <= multiset(s)
    decreases |s|
  {
    if s == [] then []
    else
      var init := s[..|s| - 1];
      assert s == init + [s[|s| - 1]];
      Filter(init, p) + (if p(s[|s| - 1]) then [s[|s| - 1]] else [])
  }

  /** Each element a filter keeps comes from the list and satisfies the test. */
  lemma FilterOrigin<T>(s: seq<T>, p: T -> bool, j: nat)
    requires j < |Filter(s, p)|
    ensures p(Filter(s, p)[j])
    ensures exists t :: 0 <= t < |s| && s[t] == Filter(s, p)[j]
  {
    var x := Filter(s, p)[j];
    assert x in multiset(Filter(s, p));
    assert x in multiset(s);
  }

  lemma {:induction false} FilterAppend<T>(a: seq<T>, b: seq<T>, p: T -> bool)
    ensures Filter(a + b, p) == Filter(a, p) + Filter(b, p)
    decreases |b|
  {
    if b == [] {
      assert a + b == a;
    } else {
      var b', y := b[..|b| - 1], b[|b| - 1];
      var ab := a + b;
      assert ab[..|ab| - 1] == a + b' && ab[|ab| - 1] == y;
      FilterAppend(a, b', p);
      var tail := if p(y) then [y] else [];
      assert Filter(ab, p) == Filter(a + b', p) + tail;
      assert Filter(b, p) == Filter(b', p) + tail;
    }
  }

  lemma FilterCons<T>(x: T, s: seq<T>, p: T -> bool)
    ensures Filter([x] + s, p) == (if p(x) then [x] else []) + Filter(s, p)
  {
    var xs := [x];
    FilterAppend(xs, s, p);
    assert xs[..|xs| - 1] == [];
    assert Filter(xs, p) == if p(x) then [x] else [];
  }

  /** Every element that passes the test survives it. */
  lemma {:induction false} FilterKeeps<T>(s: seq<T>, p: T -> bool, i: nat)
    requires i < |s| && p(s[i])
    ensures s[i] in Filter(s, p)
    decreases |s|
  {
    if i < |s| - 1 {
      FilterKeeps(s[..|s| - 1], p, i);
    }
  }

  /** Filtering keeps everything exactly when every element passes. */
  lemma {:induction false} FilterAll<T>(s: seq<T>, p: T -> bool)
    requires forall i :: 0 <= i < |s| ==> p(s[i])
    ensures Filter(s, p) == s
    decreases |s|
  {
    if s != [] {
      var init, x := s[..|s| - 1], s[|s| - 1];
      assert forall i :: 0 <= i < |init| ==> init[i] == s[i];
      FilterAll(init, p);
      assert Filter(s, p) == Filter(init, p) + [x];
      assert s == init + [x];
    }
  }

  /** A value survives the filter exactly when it occurs in the input and passes the test. */
  lemma FilterMember<T>(s: seq<T>, p: T -> bool, x: T)
    ensures x in Filter(s, p) <==> x in s && p(x)
  {
    var r := Filter(s, p);
    if x in r {
      var i :| 0 <= i < |r| && r[i] == x;
      assert x in multiset(s);
    }
    if x in s && p(x) {
      var i :| 0 <= i < |s| && s[i] == x;
      FilterKeeps(s, p, i);
    }
  }

  /** Filtering keeps nothing when no element passes. */
  lemma {:induction false} FilterNone<T>(s: seq<T>, p: T -> bool)
    requires forall i :: 0 <= i < |s| ==> !p(s[i])
    ensures Filter(s, p) == []
    decreases |s|
  {
    if s != [] {
      FilterNone(s[..|s| - 1], p);
    }
  }

  /** Filtering one more element at the end. */
  lemma FilterSnoc<T>(s: seq<T>, x: T, p: T -> bool)
    ensures Filter(s + [x], p) == Filter(s, p) + (if p(x) then [x] else [])
  {
    assert (s + [x])[..|s|] == s;
  }

  /** Two filters in a row are one filter by both tests. */
  lemma {:induction false} FilterFilter<T(!new)>(s: seq<T>, p: T -> bool, q: T -> bool, pq: T -> bool)
    requires forall x :: pq(x) == (p(x) && q(x))
    ensures Filter(Filter(s, p), q) == Filter(s, pq)
    decreases |s|
  {
    if s != [] {
      var init := s[..|s| - 1];
      var x := s[|s| - 1];
      FilterFilter(init, p, q, pq);
      FilterAppend(Filter(init, p), if p(x) then [x] else [], q);
      if p(x) {
        assert Filter([x], q) == Filter([], q) + (if q(x) then [x] else []);
      }
    }
  }

  /** Replacing one element by one that the test treats alike keeps the number of survivors,
      and keeps the survivors themselves when neither passes. */
  lemma FilterUpdate<T>(s: seq<T>, i: nat, x: T, p: T -> bool)
    requires i < |s| && p(s[i]) == p(x)
    ensures |Filter(s[i := x], p)| == |Filter(s, p)|
    ensures !p(x) ==> Filter(s[i := x], p) == Filter(s, p)
  {
    var a, b := s[..i], s[i + 1..];
    assert s == a + [s[i]] + b;
    assert s[i := x] == a + [x] + b;
    FilterAppend(a + [s[i]], b, p);
    FilterAppend(a, [s[i]], p);
    FilterAppend(a + [x], b, p);
    FilterAppend(a, [x], p);
    assert Filter([s[i]], p) == Filter([], p) + (if p(s[i]) then [s[i]] else []);
    assert Filter([x], p) == Filter([], p) + (if p(x) then [x] else []);
  }

  /** Filtering by two tests that agree everywhere gives the same result. */
  lemma {:induction false} FilterSame<T(!new)>(s: seq<T>, p: T -> bool, q: T -> bool)
    requires forall x :: p(x) == q(x)
    ensures Filter(s, p) == Filter(s, q)
    decreases |s|
  {
    if s != [] {
      FilterSame(s[..|s| - 1], p, q);
    }
  }

  /** `s.map(f).filter(v => v !== null)`. */
  function MapSome<A, B>(s: seq<A>, f: A -> Option<B>): seq<B> {
    if s == [] then [] else (if f(s[0]).Some? then [f(s[0]).value] else []) + MapSome(s[1..], f)
  }

  function Maps<A, B>(f: A -> Option<B>): A -> bool {
    (x: A) => f(x).Some?
  }

  /** What survives is the image of exactly the inputs that map to a value, in order. */
  lemma {:induction false} MapSomeFilter<A, B>(s: seq<A>, f: A -> Option<B>)
    ensures var kept := Filter(s, Maps(f)); var r := MapSome(s, f);
      |r| == |kept| && forall i :: 0 <= i < |kept| ==> r[i] == f(kept[i]).value
    decreases |s|
  {
    if s != [] {
      MapSomeFilter(s[1..], f);
      assert s == [s[0]] + s[1..];
      FilterCons(s[0], s[1..], Maps(f));
    }
  }

}
