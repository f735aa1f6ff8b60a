/** A `Map` filled by `set` calls in order, as a pure function of the (key, value) pairs:
    a later `set` of the same key replaces the earlier value. */
module Maps {

  function MapFromPairs<K, V>(ps: seq<(K, V)>): map<K, V>
    decreases |ps|
  {
    if ps == [] then map[] else MapFromPairs(ps[..|ps| - 1])[ps[|ps| - 1].0 := ps[|ps| - 1].1]
  }

  /** One more `set` at the end. */
  lemma MapFromPairsSnoc<K, V>(ps: seq<(K, V)>, k: K, v: V)
    ensures MapFromPairs(ps + [(k, v)]) == MapFromPairs(ps)[k := v]
  {
    assert (ps + [(k, v)])[..|ps|] == ps;
  }

  /** A key is present exactly when some pair sets it. */
  lemma {:induction false} MapFromPairsKeys<K, V>(ps: seq<(K, V)>, k: K)
    ensures k in MapFromPairs(ps) <==> exists i :: 0 <= i < |ps| && ps[i].0 == k
    decreases |ps|
  {
    if ps != [] {
      var init := ps[..|ps| - 1];
      MapFromPairsKeys(init, k);
      if k in MapFromPairs(init) {
        var i :| 0 <= i < |init| && init[i].0 == k;
        assert ps[i].0 == k;
      }
      if exists i :: 0 <= i < |ps| && ps[i].0 == k {
        var i :| 0 <= i < |ps| && ps[i].0 == k;
        if i < |init| { assert init[i].0 == k; }
      }
    }
  }

  /** The value stored under a key is that of the last pair setting it. */
  lemma {:induction false} MapFromPairsLastWins<K, V>(ps: seq<(K, V)>, i: nat)
    requires i < |ps|
    requires forall j :: i < j < |ps| ==> ps[j].0 != ps[i].0
    ensures ps[i].0 in MapFromPairs(ps) && MapFromPairs(ps)[ps[i].0] == ps[i].1
    decreases |ps|
  {
    if i < |ps| - 1 {
      var init := ps[..|ps| - 1];
      assert init[i] == ps[i];
      MapFromPairsLastWins(init, i);
    }
  }
}
