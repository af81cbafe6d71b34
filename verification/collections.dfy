/** Enumerating a Go map with `for ... range`: every value once, in an order
    the language leaves unspecified. */
module Collections {

  /** `vs` lists the values of `m` in the order of the distinct keys `ks`, and
      `ks` covers every key. */
  ghost predicate IsEnumeration<K, V>(m: map<K, V>, ks: seq<K>, vs: seq<V>) {
    && |ks| == |vs|
    && (forall i, j :: 0 <= i < j < |ks| ==> ks[i] != ks[j])
    && (forall i :: 0 <= i < |ks| ==> ks[i] in m && vs[i] == m[ks[i]])
    && (forall k :: k in m ==> exists i :: 0 <= i < |ks| && ks[i] == k)
  }

  /** The values of `m`, one per key, in some order. */
  method Values<K, V>(m: map<K, V>) returns (vs: seq<V>)
    ensures exists ks :: IsEnumeration(m, ks, vs)
  {
    var rest := m.Keys;
    vs := [];
    ghost var ks: seq<K> := [];
    while rest != {}
      invariant rest <= m.Keys
      invariant |ks| == |vs|
      invariant forall i, j :: 0 <= i < j < |ks| ==> ks[i] != ks[j]
      invariant forall i :: 0 <= i < |ks| ==> ks[i] in m && ks[i] !in rest && vs[i] == m[ks[i]]
      invariant forall k :: k in m && k !in rest ==> exists i :: 0 <= i < |ks| && ks[i] == k
      decreases rest
    {
      var k :| k in rest;
      ghost var before := ks;
      vs := vs + [m[k]];
      ks := ks + [k];
      rest := rest - {k};
      forall k' | k' in m && k' !in rest
        ensures exists i :: 0 <= i < |ks| && ks[i] == k'
      {
        if k' == k {
          assert ks[|ks| - 1] == k';
        } else {
          var i :| 0 <= i < |before| && before[i] == k';
          assert ks[i] == k';
        }
      }
    }
    assert IsEnumeration(m, ks, vs);
  }

  /** An enumeration has exactly as many entries as the map has keys. */
  lemma EnumerationSize<K, V>(m: map<K, V>, ks: seq<K>, vs: seq<V>)
    requires IsEnumeration(m, ks, vs)
    ensures |vs| == |m|
  {
    var keys := set i | 0 <= i < |ks| :: ks[i];
    assert keys == m.Keys;
    DistinctSize(ks);
  }

  lemma {:induction false} DistinctSize<K>(ks: seq<K>)
    requires forall i, j :: 0 <= i < j < |ks| ==> ks[i] != ks[j]
    ensures |set i | 0 <= i < |ks| :: ks[i]| == |ks|
  {
    if |ks| > 0 {
      var init := ks[..|ks| - 1];
      DistinctSize(init);
      var s := set i | 0 <= i < |init| :: init[i];
      assert (set i | 0 <= i < |ks| :: ks[i]) == s + {ks[|ks| - 1]};
      assert ks[|ks| - 1] !in s;
    }
  }

  /** Applying `f` to every value of an enumeration enumerates the map of
      `f`-images under the same keys. */
  lemma MapEnumeration<K, V, W>(m: map<K, V>, ks: seq<K>, vs: seq<V>, f: V -> W, ws: seq<W>)
    requires IsEnumeration(m, ks, vs)
    requires |ws| == |vs| && forall i :: 0 <= i < |vs| ==> ws[i] == f(vs[i])
    ensures IsEnumeration(Image(m, f), ks, ws)
  {
  }

  /** The map of `f`-images of the values of `m`, under the same keys. */
  ghost function Image<K, V, W>(m: map<K, V>, f: V -> W): (m': map<K, W>)
    ensures m'.Keys == m.Keys
    ensures forall k :: k in m ==> m'[k] == f(m[k])
  {
    map k | k in m :: f(m[k])
  }
}
