/** Ordered access to a finite set of never-reused keys.

    These are the `BTreeMap` range queries the supervisor uses: the first key
    above a bound, the last key below one, the last key of all, and the
    ascending enumeration. */
module Keys {
  import opened Common

  type Key = nat

  lemma {:induction false} Extremes(keys: set<Key>) returns (least: Key, greatest: Key)
    requires keys != {}
    ensures least in keys && greatest in keys
    ensures forall k :: k in keys ==> least <= k <= greatest
    decreases |keys|
  {
    var x :| x in keys;
    var rest := keys - {x};
    assert forall k :: k in keys ==> k == x || k in rest;
    if rest == {} {
      return x, x;
    }
    least, greatest := Extremes(rest);
    if x < least { least := x; }
    if greatest < x { greatest := x; }
  }

  lemma LeastExists(keys: set<Key>)
    requires keys != {}
    ensures exists m :: m in keys && forall k :: k in keys ==> m <= k
  {
    var _, _ := Extremes(keys);
  }

  lemma GreatestExists(keys: set<Key>)
    requires keys != {}
    ensures exists m :: m in keys && forall k :: k in keys ==> k <= m
  {
    var _, _ := Extremes(keys);
  }

  /** The smallest key at or above `bound`. */
  function FirstFrom(keys: set<Key>, bound: Key): (r: Option<Key>)
    ensures r.None? ==> forall k :: k in keys ==> k < bound
    ensures r.Some? ==> r.value in keys && bound <= r.value
                        && forall k :: k in keys && bound <= k ==> r.value <= k
  {
    var above := set k | k in keys && bound <= k;
    if above == {} then
      assert forall k :: k in keys && bound <= k ==> k in above;
      None
    else
      LeastExists(above);
      var m :| m in above && forall k :: k in above ==> m <= k;
      assert forall k :: k in keys && bound <= k ==> k in above;
      Some(m)
  }

  /** The greatest key strictly below `bound`. */
  function LastBefore(keys: set<Key>, bound: Key): (r: Option<Key>)
    ensures r.None? ==> forall k :: k in keys ==> bound <= k
    ensures r.Some? ==> r.value in keys && r.value < bound
                        && forall k :: k in keys && k < bound ==> k <= r.value
  {
    var below := set k | k in keys && k < bound;
    if below == {} then
      assert forall k :: k in keys && k < bound ==> k in below;
      None
    else
      GreatestExists(below);
      var m :| m in below && forall k :: k in below ==> k <= m;
      assert forall k :: k in keys && k < bound ==> k in below;
      Some(m)
  }

  /** The greatest key of all. */
  function Last(keys: set<Key>): (r: Option<Key>)
    ensures r.None? <==> keys == {}
    ensures r.Some? ==> r.value in keys && forall k :: k in keys ==> k <= r.value
  {
    if keys == {} then None
    else
      GreatestExists(keys);
      var m :| m in keys && forall k :: k in keys ==> k <= m;
      Some(m)
  }

  /** The smallest key of all. */
  function First(keys: set<Key>): (m: Key)
    requires keys != {}
    ensures m in keys && forall k :: k in keys ==> m <= k
  {
    LeastExists(keys);
    var m :| m in keys && forall k :: k in keys ==> m <= k;
    m
  }

  /** Every key, smallest first. */
  function Sorted(keys: set<Key>): (ks: seq<Key>) {
    if keys == {} then []
    else [First(keys)] + Sorted(keys - {First(keys)})
  }

  lemma SortedEmpty()
    ensures Sorted({}) == []
  {
  }

  lemma {:induction false} SortedHas(keys: set<Key>, k: Key)
    ensures k in Sorted(keys) <==> k in keys
    decreases |keys|
  {
    if keys != {} { SortedHas(keys - {First(keys)}, k); }
  }

  /** The enumeration visits each key after every smaller one. */
  lemma {:induction false} SortedAscends(keys: set<Key>, i: nat, j: nat)
    requires i < j < |Sorted(keys)|
    ensures Sorted(keys)[i] < Sorted(keys)[j]
    decreases |keys|
  {
    var m := First(keys);
    var rest := keys - {m};
    assert Sorted(keys) == [m] + Sorted(rest);
    if i == 0 {
      SortedHas(rest, Sorted(rest)[j - 1]);
    } else {
      SortedAscends(rest, i - 1, j - 1);
    }
  }

  predicate Ascending(ks: seq<Key>) {
    forall i, j :: 0 <= i < j < |ks| ==> ks[i] < ks[j]
  }

  /** The enumeration lists exactly the keys, in strictly ascending order. */
  lemma SortedLists(keys: set<Key>)
    ensures Ascending(Sorted(keys))
    ensures forall k :: k in Sorted(keys) <==> k in keys
  {
    hide Sorted;
    forall i: nat, j: nat | i < j < |Sorted(keys)| ensures Sorted(keys)[i] < Sorted(keys)[j] {
      SortedAscends(keys, i, j);
    }
    forall k ensures k in Sorted(keys) <==> k in keys {
      SortedHas(keys, k);
    }
  }

  /** Visiting the smallest remaining key keeps a filtered enumeration whole. */
  lemma {:induction false} SortedVisit(wanted: set<Key>, rest: set<Key>)
    requires rest != {}
    ensures var m := First(rest);
            Sorted(wanted * rest)
            == (if m in wanted then [m] else []) + Sorted(wanted * (rest - {m}))
  {
    var m := First(rest);
    if m in wanted {
      assert m in wanted * rest;
      assert wanted * rest - {m} == wanted * (rest - {m});
    } else {
      assert wanted * rest == wanted * (rest - {m});
    }
  }

  lemma Smaller(a: set<Key>, b: set<Key>, extra: Key)
    requires a <= b && extra in b && extra !in a
    ensures |a| + 1 <= |b|
  {
    Subset(a + {extra}, b);
  }

  lemma {:induction false} Subset(a: set<Key>, b: set<Key>)
    requires a <= b
    ensures |a| <= |b|
  {
    assert b == a + (b - a);
  }
}
