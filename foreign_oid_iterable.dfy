/**
 * `ForeignOidIterable`: a join of two `OidIterable`s.  Each element of the
 * delegate is paired with the oid of the foreign element whose key matches the
 * element's foreign key, looked up in a key-to-oid map that is rebuilt from
 * the foreign iterable on every `iterator()` call.
 */
module ForeignOidIterables {
  import opened Wrappers
  import opened OidIterables

  /** A `ForeignOidProvider`: the delegate's provider and the foreign oid found for it. */
  datatype ForeignOidProvider<T> = ForeignOidProvider(provider: OidProvider<T>, foreignOid: int)

  /** The map `buildForeignOidMap` fills: one `put` per foreign element, in order. */
  function ForeignOidMap<F, K(==)>(foreign: seq<OidProvider<F>>, key: F -> K): map<K, int> {
    if foreign == [] then map[]
    else
      var last := foreign[|foreign| - 1];
      ForeignOidMap(foreign[..|foreign| - 1], key)[key(last.delegate) := last.oid]
  }

  /** hppc `ObjectIntMap.get`: the mapped value, or the default `int` 0. */
  function GetOrDefault<K(==)>(m: map<K, int>, k: K): int {
    if k in m then m[k] else 0
  }

  /** The index of the last foreign element whose key is `k`. */
  function LastMatch<F, K(==)>(foreign: seq<F>, key: F -> K, k: K): (r: Option<nat>)
    ensures r.Some? ==> r.value < |foreign| && key(foreign[r.value]) == k
    ensures r.Some? ==> forall j :: r.value < j < |foreign| ==> key(foreign[j]) != k
    ensures r.None? ==> forall j :: 0 <= j < |foreign| ==> key(foreign[j]) != k
  {
    if foreign == [] then None
    else if key(foreign[|foreign| - 1]) == k then Some(|foreign| - 1)
    else LastMatch(foreign[..|foreign| - 1], key, k)
  }

  /** The keys of the foreign providers' elements. */
  function DelegateKey<F, K(==)>(key: F -> K): OidProvider<F> -> K {
    (p: OidProvider<F>) => key(p.delegate)
  }

  /**
   * The map holds exactly the keys of the foreign elements, and for each key
   * the oid of the LAST foreign element with that key: a later `put`
   * overwrites an earlier one.
   */
  lemma {:induction false} ForeignOidMapLastWins<F, K>(foreign: seq<OidProvider<F>>, key: F -> K, k: K)
    ensures k in ForeignOidMap(foreign, key) <==> LastMatch(foreign, DelegateKey(key), k).Some?
    ensures k in ForeignOidMap(foreign, key) ==>
      ForeignOidMap(foreign, key)[k] == foreign[LastMatch(foreign, DelegateKey(key), k).value].oid
  {
    if foreign != [] {
      var init := foreign[..|foreign| - 1];
      ForeignOidMapLastWins(init, key, k);
      if DelegateKey(key)(foreign[|foreign| - 1]) != k {
        assert LastMatch(foreign, DelegateKey(key), k) == LastMatch(init, DelegateKey(key), k);
      }
    }
  }

  /** `buildForeignOidMap`: one pass over the foreign iterable, `put`ting each key. */
  method BuildForeignOidMap<F, K(==)>(foreign: seq<OidProvider<F>>, key: F -> K) returns (m: map<K, int>)
    ensures m == ForeignOidMap(foreign, key)
    ensures forall k :: k in m <==> LastMatch(foreign, DelegateKey(key), k).Some?
  {
    m := map[];
    for i := 0 to |foreign|
      invariant m == ForeignOidMap(foreign[..i], key)
    {
      var wrapper := foreign[i];
      var foreignValue := key(wrapper.delegate);
      var foreignOid := wrapper.oid;
      assert foreign[..i + 1][..i] == foreign[..i];
      m := m[foreignValue := foreignOid];
    }
    assert foreign[..|foreign|] == foreign;
    forall k ensures k in m <==> LastMatch(foreign, DelegateKey(key), k).Some? {
      ForeignOidMapLastWins(foreign, key, k);
    }
  }

  /**
   * The foreign oid an element with foreign key `k` gets: the position of the
   * last foreign element with key `k` (as the foreign `OidIterable` numbers
   * it), or 0 when there is none.
   */
  function ForeignOidFor<F, K(==)>(foreignElements: seq<F>, key: F -> K, k: K): int {
    match LastMatch(foreignElements, key, k)
    case Some(j) => Wrap32(j)
    case None => 0
  }

  /** Looking up the built map is the same as finding the last match directly. */
  lemma ForeignOidLookup<F, K>(foreignElements: seq<F>, key: F -> K, k: K)
    ensures GetOrDefault(ForeignOidMap(Numbered(foreignElements), key), k) == ForeignOidFor(foreignElements, key, k)
  {
    var foreign := Numbered(foreignElements);
    ForeignOidMapLastWins(foreign, key, k);
    LastMatchNumbered(foreignElements, key, k);
  }

  /** Numbering the foreign elements does not move their last match. */
  lemma {:induction false} LastMatchNumbered<F, K>(foreignElements: seq<F>, key: F -> K, k: K)
    ensures LastMatch(Numbered(foreignElements), DelegateKey(key), k) == LastMatch(foreignElements, key, k)
  {
    if foreignElements != [] {
      var init := foreignElements[..|foreignElements| - 1];
      assert Numbered(foreignElements)[..|foreignElements| - 1] == Numbered(init);
      LastMatchNumbered(init, key, k);
    }
  }

  /**
   * A for-each over a `ForeignOidIterable`: `iterator()` builds the foreign
   * map afresh from the foreign `OidIterable`, then every `next()` takes the
   * delegate's next provider and looks up its foreign key.
   */
  method Iterate<T, F, K(==)>(delegate: seq<T>, foreignElements: seq<F>,
                          foreignColumnGetter: T -> K, foreignTableColumnGetter: F -> K)
    returns (out: seq<ForeignOidProvider<T>>)
    ensures |out| == |delegate|
    ensures forall i :: 0 <= i < |out| ==> out[i].provider == Numbered(delegate)[i]
    ensures forall i :: 0 <= i < |out| ==>
      out[i].foreignOid == ForeignOidFor(foreignElements, foreignTableColumnGetter, foreignColumnGetter(delegate[i]))
  {
    var foreign := OidIterables.Iterate(foreignElements);
    var foreignOidMap := BuildForeignOidMap(foreign, foreignTableColumnGetter);
    var delegateIt := new OidIterator(delegate);
    out := [];
    while delegateIt.HasNext()
      invariant delegateIt.Valid() && delegateIt.elements == delegate
      invariant delegateIt.calls == delegateIt.position == |out| <= |delegate|
      invariant forall i :: 0 <= i < |out| ==> out[i].provider == Numbered(delegate)[i]
      invariant forall i :: 0 <= i < |out| ==>
        out[i].foreignOid == ForeignOidFor(foreignElements, foreignTableColumnGetter, foreignColumnGetter(delegate[i]))
      decreases |delegate| - |out|
    {
      var oidProvider := delegateIt.Next();
      var foreignVal := foreignColumnGetter(oidProvider.value.delegate);
      ForeignOidLookup(foreignElements, foreignTableColumnGetter, foreignVal);
      out := out + [ForeignOidProvider(oidProvider.value, GetOrDefault(foreignOidMap, foreignVal))];
    }
  }
}
