/** A JavaScript `Map` is a finite map that remembers the order in which its
    keys were first set. It is modelled by a Dafny `map` together with the
    sequence of its keys in insertion order. */
module JsMap {

  /** `ks` lists every key of `m` exactly once. */
  ghost predicate Ordered<V>(m: map<string, V>, ks: seq<string>) {
    && (forall i, j :: 0 <= i < j < |ks| ==> ks[i] != ks[j])
    && (forall k :: k in m <==> k in ks)
  }

  /** The key order after `map.set(k, v)`: a new key goes last, an existing one stays put. */
  function KeysAfterSet<V>(m: map<string, V>, ks: seq<string>, k: string): seq<string> {
    if k in m then ks else ks + [k]
  }

  /** `Array.from(map.values())`. */
  function Values<V>(m: map<string, V>, ks: seq<string>): seq<V>
    requires forall k :: k in ks ==> k in m
  {
    seq(|ks|, i requires 0 <= i < |ks| => m[ks[i]])
  }

  lemma SetKeepsOrdered<V>(m: map<string, V>, ks: seq<string>, k: string, v: V)
    requires Ordered(m, ks)
    ensures Ordered(m[k := v], KeysAfterSet(m, ks, k))
  {
  }

  /** `set` with a new key appends its value to the listing; with an existing
      key it replaces that key's value in place and leaves the rest alone. */
  lemma ValuesAfterSet<V>(m: map<string, V>, ks: seq<string>, k: string, v: V)
    requires Ordered(m, ks)
    ensures k !in m ==> Values(m[k := v], KeysAfterSet(m, ks, k)) == Values(m, ks) + [v]
    ensures k in m ==>
      var after := Values(m[k := v], KeysAfterSet(m, ks, k));
      && |after| == |ks|
      && forall i :: 0 <= i < |ks| ==> after[i] == if ks[i] == k then v else Values(m, ks)[i]
  {
  }

  lemma {:induction false} DistinctCardinality(ks: seq<string>)
    requires forall i, j :: 0 <= i < j < |ks| ==> ks[i] != ks[j]
    ensures |set k | k in ks| == |ks|
  {
    if ks != [] {
      var last := ks[|ks| - 1];
      var init := ks[..|ks| - 1];
      DistinctCardinality(init);
      assert (set k | k in ks) == (set k | k in init) + {last};
      assert last !in init;
    }
  }

  /** The listing holds every value of the map, once per key, and nothing else. */
  lemma ValuesAreMapValues<V>(m: map<string, V>, ks: seq<string>)
    requires Ordered(m, ks)
    ensures |Values(m, ks)| == |m|
    ensures forall v :: v in Values(m, ks) <==> v in m.Values
  {
    DistinctCardinality(ks);
    assert m.Keys == set k | k in ks;
    var vs := Values(m, ks);
    forall v | v in m.Values ensures v in vs {
      var k :| k in m && m[k] == v;
      var i :| 0 <= i < |ks| && ks[i] == k;
      assert vs[i] == v;
    }
  }
}
