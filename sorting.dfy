/** `Array.prototype.sort` with a comparator, which the language requires to be stable. It is
    modelled as a stable insertion sort driven by `le(a, b)` = "the comparator does not put
    `b` before `a`", together with sums over sequences, which sorting leaves alone. */
module Sorting {

  /** `le` orders every pair and is transitive: what a consistent comparator induces. */
  ghost predicate TotalPreorder<T(!new)>(le: (T, T) -> bool) {
    (forall a, b :: le(a, b) || le(b, a))
    && (forall a, b, c :: le(a, b) && le(b, c) ==> le(a, c))
  }

  /** `lt` is irreflexive, transitive and relates every two distinct values. */
  ghost predicate StrictTotalOrder<T(!new)>(lt: (T, T) -> bool) {
    (forall a :: !lt(a, a))
    && (forall a, b, c :: lt(a, b) && lt(b, c) ==> lt(a, c))
    && (forall a, b :: a == b || lt(a, b) || lt(b, a))
  }

  ghost predicate Sorted<T>(s: seq<T>, le: (T, T) -> bool) {
    forall i, j :: 0 <= i < j < |s| ==> le(s[i], s[j])
  }

  /** Inserts `x` after every element the comparator does not put after it. */
  function Insert<T>(x: T, s: seq<T>, le: (T, T) -> bool): (r: seq<T>)
    ensures |r| == |s| + 1
    ensures multiset(r) == multiset(s) + multiset{x}
  {
    if s == [] then [x]
    else if !le(s[0], x) then [x] + s
    else
      assert s == [s[0]] + s[1..];
      [s[0]] + Insert(x, s[1..], le)
  }

  /** Sorting by insertion of each element in turn, from the first to the last. */
  function SortBy<T>(s: seq<T>, le: (T, T) -> bool): (r: seq<T>)
    ensures |r| == |s|
    ensures multiset(r) == multiset(s)
  {
    if s == [] then []
    else
      assert s == s[..|s| - 1] + [s[|s| - 1]];
      Insert(s[|s| - 1], SortBy(s[..|s| - 1], le), le)
  }

  lemma {:induction false} InsertSorted<T(!new)>(x: T, s: seq<T>, le: (T, T) -> bool)
    requires TotalPreorder(le) && Sorted(s, le)
    ensures Sorted(Insert(x, s, le), le)
    decreases |s|
  {
    if s != [] && le(s[0], x) {
      InsertSorted(x, s[1..], le);
      var r := Insert(x, s[1..], le);
      assert multiset(r) == multiset(s[1..]) + multiset{x};
      forall j | 0 <= j < |r| ensures le(s[0], r[j]) {
        assert r[j] in multiset(r);
        if r[j] != x {
          assert r[j] in multiset(s[1..]);
          var k :| 0 <= k < |s[1..]| && s[1..][k] == r[j];
          assert s[1..][k] == s[k + 1];
        }
      }
    } else if s != [] {
      var r := [x] + s;
      forall i, j | 0 <= i < j < |r| ensures le(r[i], r[j]) {
        if i == 0 {
          assert le(x, s[0]);
          if j > 1 { assert le(s[0], s[j - 1]); }
        } else {
          assert r[i] == s[i - 1] && r[j] == s[j - 1];
        }
      }
    }
  }

  /** Under a consistent comparator the result is ordered. */
  lemma {:induction false} SortBySorted<T(!new)>(s: seq<T>, le: (T, T) -> bool)
    requires TotalPreorder(le)
    ensures Sorted(SortBy(s, le), le)
    decreases |s|
  {
    if s != [] {
      SortBySorted(s[..|s| - 1], le);
      InsertSorted(s[|s| - 1], SortBy(s[..|s| - 1], le), le);
    }
  }

  // ---------------------------------------------------------------------------
  // Comparators that are consistent only on part of their domain
  // ---------------------------------------------------------------------------

  /** No element outside `P` comes before an element inside it. */
  ghost predicate Partitioned<T>(s: seq<T>, P: T -> bool) {
    forall i, j :: 0 <= i < j < |s| ==> P(s[i]) || !P(s[j])
  }

  /** The elements inside `P` are in order among themselves. */
  ghost predicate SortedOn<T>(s: seq<T>, le: (T, T) -> bool, P: T -> bool) {
    forall i, j :: 0 <= i < j < |s| && P(s[i]) && P(s[j]) ==> le(s[i], s[j])
  }

  /** Among the values in `D`, the comparator puts every `P` value before every other one. */
  ghost predicate SplitsAt<T(!new)>(le: (T, T) -> bool, D: T -> bool, P: T -> bool) {
    forall a, b :: D(a) && D(b) && P(a) && !P(b) ==> le(a, b) && !le(b, a)
  }

  /** Among the values in both `D` and `P`, the comparator is consistent. */
  ghost predicate PreorderOn<T(!new)>(le: (T, T) -> bool, D: T -> bool, P: T -> bool) {
    (forall a, b :: D(a) && D(b) && P(a) && P(b) ==> le(a, b) || le(b, a))
    && (forall a, b, c :: D(a) && D(b) && D(c) && P(a) && P(b) && P(c) && le(a, b) && le(b, c) ==> le(a, c))
  }

  function Everything<T>(x: T): bool {
    true
  }

  /** What an insertion yields is the inserted value or one already there. */
  lemma InsertElement<T>(x: T, s: seq<T>, le: (T, T) -> bool, i: nat)
    requires i < |Insert(x, s, le)|
    ensures Insert(x, s, le)[i] == x || Insert(x, s, le)[i] in s
  {
    assert Insert(x, s, le)[i] in multiset(Insert(x, s, le));
  }

  lemma {:induction false} InsertPartitioned<T(!new)>(x: T, s: seq<T>, le: (T, T) -> bool, D: T -> bool, P: T -> bool)
    requires D(x) && (forall i :: 0 <= i < |s| ==> D(s[i]))
    requires SplitsAt(le, D, P) && Partitioned(s, P)
    ensures Partitioned(Insert(x, s, le), P)
    decreases |s|
  {
    var r := Insert(x, s, le);
    if s != [] && le(s[0], x) {
      InsertPartitioned(x, s[1..], le, D, P);
      var r' := Insert(x, s[1..], le);
      assert r == [s[0]] + r';
      forall j | 0 <= j < |r'| && !P(s[0]) ensures !P(r'[j]) {
        InsertElement(x, s[1..], le, j);
        if r'[j] == x {
          assert !P(x);
        } else {
          var k :| 0 <= k < |s[1..]| && s[1..][k] == r'[j];
          assert s[k + 1] == r'[j];
        }
      }
      forall i, j | 0 <= i < j < |r| ensures P(r[i]) || !P(r[j]) {
        if i > 0 {
          assert r[i] == r'[i - 1] && r[j] == r'[j - 1];
        } else {
          assert r[j] == r'[j - 1];
        }
      }
    } else if s != [] {
      assert r == [x] + s;
      forall i, j | 0 <= i < j < |r| ensures P(r[i]) || !P(r[j]) {
        assert r[j] == s[j - 1] && D(s[0]);
        if i > 0 {
          assert r[i] == s[i - 1];
        }
      }
    }
  }

  lemma {:induction false} InsertSortedOn<T(!new)>(x: T, s: seq<T>, le: (T, T) -> bool, D: T -> bool, P: T -> bool)
    requires D(x) && (forall i :: 0 <= i < |s| ==> D(s[i]))
    requires PreorderOn(le, D, P) && Partitioned(s, P) && SortedOn(s, le, P)
    ensures SortedOn(Insert(x, s, le), le, P)
    decreases |s|
  {
    var r := Insert(x, s, le);
    if s != [] && le(s[0], x) {
      InsertSortedOn(x, s[1..], le, D, P);
      var r' := Insert(x, s[1..], le);
      assert r == [s[0]] + r';
      forall j | 0 <= j < |r'| && P(s[0]) && P(r'[j]) ensures le(s[0], r'[j]) {
        InsertElement(x, s[1..], le, j);
        if r'[j] != x {
          var k :| 0 <= k < |s[1..]| && s[1..][k] == r'[j];
          assert s[k + 1] == r'[j];
        }
      }
      forall i, j | 0 <= i < j < |r| && P(r[i]) && P(r[j]) ensures le(r[i], r[j]) {
        if i > 0 {
          assert r[i] == r'[i - 1] && r[j] == r'[j - 1];
        } else {
          assert r[j] == r'[j - 1];
        }
      }
    } else if s != [] {
      assert r == [x] + s;
      forall i, j | 0 <= i < j < |r| && P(r[i]) && P(r[j]) ensures le(r[i], r[j]) {
        if i == 0 {
          var y := s[j - 1];
          assert r[j] == y && D(y) && D(s[0]);
          if j > 1 {
            assert P(s[0]);
            assert le(s[0], y);
          }
          assert le(x, s[0]);
        } else {
          assert r[i] == s[i - 1] && r[j] == s[j - 1];
        }
      }
    }
  }

  /** Sorting with a comparator that splits its domain at `P` puts every `P` element first. */
  lemma {:induction false} SortByPartitioned<T(!new)>(s: seq<T>, le: (T, T) -> bool, D: T -> bool, P: T -> bool)
    requires forall i :: 0 <= i < |s| ==> D(s[i])
    requires SplitsAt(le, D, P)
    ensures Partitioned(SortBy(s, le), P)
    decreases |s|
  {
    if s != [] {
      var init := s[..|s| - 1];
      SortByPartitioned(init, le, D, P);
      var t := SortBy(init, le);
      forall i | 0 <= i < |t| ensures D(t[i]) {
        assert t[i] in multiset(init);
      }
      InsertPartitioned(s[|s| - 1], t, le, D, P);
    }
  }

  /** Sorting with a comparator that splits its domain at `P` and is consistent inside `P`
      puts every `P` element first, in order. */
  lemma {:induction false} SortBySortedOn<T(!new)>(s: seq<T>, le: (T, T) -> bool, D: T -> bool, P: T -> bool)
    requires forall i :: 0 <= i < |s| ==> D(s[i])
    requires SplitsAt(le, D, P) && PreorderOn(le, D, P)
    ensures Partitioned(SortBy(s, le), P) && SortedOn(SortBy(s, le), le, P)
    decreases |s|
  {
    if s != [] {
      var init := s[..|s| - 1];
      SortBySortedOn(init, le, D, P);
      var t := SortBy(init, le);
      forall i | 0 <= i < |t| ensures D(t[i]) {
        assert t[i] in multiset(init);
      }
      InsertPartitioned(s[|s| - 1], t, le, D, P);
      InsertSortedOn(s[|s| - 1], t, le, D, P);
    }
  }

  /** The comparator `(x, y) => compare(key(x), key(y))`: `x` may stay before `y` unless
      `y`'s key comes strictly first. */
  function ByKey<T, K>(key: T -> K, lt: (K, K) -> bool): (T, T) -> bool {
    (x: T, y: T) => !lt(key(y), key(x))
  }

  /** Comparing by a key under a strict total order, with ties kept in place, is a
      consistent comparator. */
  lemma KeyOrderIsPreorder<T(!new), K(!new)>(key: T -> K, lt: (K, K) -> bool)
    requires StrictTotalOrder(lt)
    ensures TotalPreorder(ByKey(key, lt))
  {
    var le := ByKey(key, lt);
    forall x, y, z | le(x, y) && le(y, z) ensures le(x, z) {
      if key(x) != key(y) && key(y) != key(z) {
        assert lt(key(x), key(y)) && lt(key(y), key(z));
      }
    }
  }

  /** No two elements share a key. */
  ghost predicate DistinctKeys<T, K>(s: seq<T>, key: T -> K) {
    forall i, j :: 0 <= i < j < |s| ==> key(s[i]) != key(s[j])
  }

  /** Taking one element out keeps the rest distinct, and none of them shares its key. */
  lemma DistinctKeysRemove<T, K>(a: seq<T>, k: nat, key: T -> K)
    requires k < |a| && DistinctKeys(a, key)
    ensures DistinctKeys(a[..k] + a[k + 1..], key)
    ensures forall y :: y in a[..k] + a[k + 1..] ==> key(y) != key(a[k])
  {
    var a' := a[..k] + a[k + 1..];
    forall t | 0 <= t < |a'| ensures a'[t] == a[t] || a'[t] == a[t + 1] {
      if t < k { assert a'[t] == a[t]; } else { assert a'[t] == a[t + 1]; }
    }
    forall i, j | 0 <= i < j < |a'| ensures key(a'[i]) != key(a'[j]) {
      if i < k { assert a'[i] == a[i]; } else { assert a'[i] == a[i + 1]; }
      if j < k { assert a'[j] == a[j]; } else { assert a'[j] == a[j + 1]; }
    }
    forall y | y in a' ensures key(y) != key(a[k]) {
      var t :| 0 <= t < |a'| && a'[t] == y;
      if t < k { assert a'[t] == a[t]; } else { assert a'[t] == a[t + 1]; }
    }
  }

  /** The last element of a rearrangement sits somewhere in the original; without them the
      two are still rearrangements of each other. */
  lemma PermutationSplit<T>(a: seq<T>, b: seq<T>) returns (k: nat)
    requires multiset(a) == multiset(b) && b != []
    ensures k < |a| && a[k] == b[|b| - 1]
    ensures multiset(a[..k] + a[k + 1..]) == multiset(b[..|b| - 1])
  {
    var x := b[|b| - 1];
    var b' := b[..|b| - 1];
    assert b == b' + [x];
    assert x in multiset(a);
    k :| 0 <= k < |a| && a[k] == x;
    var l, r := a[..k], a[k + 1..];
    assert a == l + [x] + r;
    assert multiset(l + r) == multiset(a) - multiset{x};
    assert multiset(b') == multiset(b) - multiset{x};
  }

  /** Rearranging elements keeps their keys distinct. */
  lemma {:induction false} DistinctKeysPermutation<T, K>(a: seq<T>, b: seq<T>, key: T -> K)
    requires multiset(a) == multiset(b) && DistinctKeys(a, key)
    ensures DistinctKeys(b, key)
    decreases |a|
  {
    if b != [] {
      var b' := b[..|b| - 1];
      var k := PermutationSplit(a, b);
      var a' := a[..k] + a[k + 1..];
      DistinctKeysRemove(a, k, key);
      DistinctKeysPermutation(a', b', key);
      forall i | 0 <= i < |b'| ensures key(b'[i]) != key(b[|b| - 1]) {
        assert b'[i] in multiset(a');
      }
      forall i, j | 0 <= i < j < |b| ensures key(b[i]) != key(b[j]) {
        if j < |b'| { assert b[i] == b'[i] && b[j] == b'[j]; } else { assert b[i] == b'[i]; }
      }
    }
  }

  /** Keys strictly increase along `s`. */
  ghost predicate StrictlyByKey<T, K>(s: seq<T>, key: T -> K, lt: (K, K) -> bool) {
    forall i, j :: 0 <= i < j < |s| ==> lt(key(s[i]), key(s[j]))
  }

  /** Ordered by a key under a strict total order, with distinct keys, is strictly ordered. */
  lemma SortedDistinctIsStrict<T, K(!new)>(s: seq<T>, key: T -> K, lt: (K, K) -> bool)
    requires StrictTotalOrder(lt) && Sorted(s, ByKey(key, lt)) && DistinctKeys(s, key)
    ensures StrictlyByKey(s, key, lt)
  {
    forall i, j | 0 <= i < j < |s| ensures lt(key(s[i]), key(s[j])) {
      assert ByKey(key, lt)(s[i], s[j]);
    }
  }

  /** No two keys come strictly before each other. */
  ghost predicate Asymmetric<K(!new)>(lt: (K, K) -> bool) {
    forall x, y :: !(lt(x, y) && lt(y, x))
  }

  lemma StrictOrderIsAsymmetric<K(!new)>(lt: (K, K) -> bool)
    requires StrictTotalOrder(lt)
    ensures Asymmetric(lt)
  {
    forall x, y ensures !(lt(x, y) && lt(y, x)) {
      if lt(x, y) && lt(y, x) {
        assert false;
      }
    }
  }

  /** In a sequence strictly ordered by key every other element comes after the first. */
  lemma HeadIsLeast<T, K>(a: seq<T>, x: T, key: T -> K, lt: (K, K) -> bool)
    requires StrictlyByKey(a, key, lt)
    requires x in a
    ensures x == a[0] || lt(key(a[0]), key(x))
  {
    var k :| 0 <= k < |a| && a[k] == x;
    if k > 0 { assert lt(key(a[0]), key(a[k])); }
  }
  /** Two arrangements of the same values, strictly ordered by key, start alike. */
  lemma SameHead<T, K(!new)>(a: seq<T>, b: seq<T>, key: T -> K, lt: (K, K) -> bool)
    requires Asymmetric(lt) && StrictlyByKey(a, key, lt) && StrictlyByKey(b, key, lt)
    requires multiset(a) == multiset(b) && a != []
    ensures b != [] && a[0] == b[0]
  {
      assert |b| == |multiset(b)| == |multiset(a)| == |a|;
      var x, y := a[0], b[0];
      assert x in multiset(b) && y in multiset(a);
      assert !(lt(key(x), key(y)) && lt(key(y), key(x)));
      HeadIsLeast(b, x, key, lt);
      HeadIsLeast(a, y, key, lt);
  }

  /** Two strict arrangements of the same values share their head, and so their tails are
      strict arrangements of the same values too. */
  lemma TailsAgree<T, K(!new)>(a: seq<T>, b: seq<T>, key: T -> K, lt: (K, K) -> bool)
    requires Asymmetric(lt) && StrictlyByKey(a, key, lt) && StrictlyByKey(b, key, lt)
    requires multiset(a) == multiset(b) && a != []
    ensures b != [] && a[0] == b[0]
    ensures multiset(a[1..]) == multiset(b[1..])
    ensures StrictlyByKey(a[1..], key, lt) && StrictlyByKey(b[1..], key, lt)
  {
    SameHead(a, b, key, lt);
    var x := a[0];
    assert a == [x] + a[1..] && b == [x] + b[1..];
    assert multiset(a[1..]) == multiset(a) - multiset{x};
    assert multiset(b[1..]) == multiset(b) - multiset{x};
    StrictlyByKeyTail(a, key, lt);
    StrictlyByKeyTail(b, key, lt);
  }

  lemma StrictlyByKeyTail<T, K>(s: seq<T>, key: T -> K, lt: (K, K) -> bool)
    requires StrictlyByKey(s, key, lt) && s != []
    ensures StrictlyByKey(s[1..], key, lt)
  {
    var t := s[1..];
    forall i, j | 0 <= i < j < |t| ensures lt(key(t[i]), key(t[j])) {
      assert t[i] == s[i + 1] && t[j] == s[j + 1];
    }
  }

  /** Sorting values with distinct keys by an asymmetric order has exactly one outcome: two
      arrangements of the same values, both strictly ordered by key, coincide. */
  lemma {:induction false} StrictlySortedUnique<T, K(!new)>(a: seq<T>, b: seq<T>, key: T -> K, lt: (K, K) -> bool)
    requires Asymmetric(lt) && StrictlyByKey(a, key, lt) && StrictlyByKey(b, key, lt)
    requires multiset(a) == multiset(b)
    ensures a == b
    decreases |a|
  {
    if a != [] {
      TailsAgree(a, b, key, lt);
      StrictlySortedUnique(a[1..], b[1..], key, lt);
      assert a == [a[0]] + a[1..] && b == [b[0]] + b[1..];
    } else {
      assert |b| == |multiset(b)| == 0;
    }
  }

  // ---------------------------------------------------------------------------
  // Sums
  // ---------------------------------------------------------------------------

  /** Left-to-right sum of `f` over `s`: the `reduce` / `forEach` accumulation. */
  function Sum<T>(s: seq<T>, f: T -> real): real {
    if s == [] then 0.0 else Sum(s[..|s| - 1], f) + f(s[|s| - 1])
  }

  lemma {:induction false} SumAppend<T>(a: seq<T>, b: seq<T>, f: T -> real)
    ensures Sum(a + b, f) == Sum(a, f) + Sum(b, f)
    decreases |b|
  {
    if b == [] {
      assert a + b == a;
    } else {
      assert (a + b)[..|a + b| - 1] == a + b[..|b| - 1];
      SumAppend(a, b[..|b| - 1], f);
    }
  }

  lemma SplitAt<T>(s: seq<T>, i: nat)
    requires i < |s|
    ensures s == (s[..i] + [s[i]]) + s[i + 1..]
  {
    assert s[i..] == [s[i]] + s[i + 1..];
    assert s == s[..i] + s[i..];
  }

  /** Removing one element at position `i` takes its value out of the sum. */
  lemma SumRemove<T>(s: seq<T>, i: nat, f: T -> real)
    requires i < |s|
    ensures Sum(s, f) == Sum(s[..i] + s[i + 1..], f) + f(s[i])
  {
    var front, x, back := s[..i], s[i], s[i + 1..];
    calc {
      Sum(s, f);
      { SplitAt(s, i); }
      Sum((front + [x]) + back, f);
      { SumAppend(front + [x], back, f); }
      Sum(front + [x], f) + Sum(back, f);
      { SumAppend(front, [x], f); assert Sum([x], f) == Sum([], f) + f(x); }
      Sum(front, f) + f(x) + Sum(back, f);
      { SumAppend(front, back, f); }
      Sum(front + back, f) + f(x);
    }
  }

  /** A sum depends only on which values are summed, not on their order. */
  lemma {:induction false} SumPermutation<T>(a: seq<T>, b: seq<T>, f: T -> real)
    requires multiset(a) == multiset(b)
    ensures Sum(a, f) == Sum(b, f)
    decreases |a|
  {
    if a == [] {
      assert |b| == |multiset(b)| == 0;
    } else {
      var init, x := a[..|a| - 1], a[|a| - 1];
      assert a == init + [x];
      assert x in multiset(b);
      var i :| 0 <= i < |b| && b[i] == x;
      var front, back := b[..i], b[i + 1..];
      SplitAt(b, i);
      assert multiset(front + back) == multiset(b) - multiset{x};
      assert multiset(init) == multiset(a) - multiset{x};
      SumPermutation(init, front + back, f);
      SumRemove(b, i, f);
      assert Sum(a, f) == Sum(init, f) + f(x);
    }
  }

  /** Replacing the element at position `i` trades its value for the new one in the sum. */
  lemma SumUpdate<T>(s: seq<T>, i: nat, x: T, f: T -> real)
    requires i < |s|
    ensures Sum(s[i := x], f) == Sum(s, f) - f(s[i]) + f(x)
  {
    SumRemove(s, i, f);
    SumRemove(s[i := x], i, f);
    assert s[i := x][..i] + s[i := x][i + 1..] == s[..i] + s[i + 1..];
  }
}
