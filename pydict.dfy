/** Python dictionaries built from a display `{k1: v1, k2: v2, ...}`.

    A dict is kept as the entries of its display, left to right. `ToMap` is
    the mapping the display denotes (a repeated key keeps the later value)
    and `Get` is `dict.get(key, default)`. When no key is repeated
    (`UniqueKeys`), the entries are also what Python yields, in order, when
    it iterates over `.keys()` or `.items()`. A repeated key would be
    yielded once, at its first position with its last value; functions that
    walk the entries (`Keys` here, the form's lists in `App`) describe
    Python's iteration only for displays without repeated keys. */
module PyDict {

  datatype Option<T> = None | Some(value: T)

  type Dict<K(==,!new), V> = seq<(K, V)>

  /** The keys of the display, left to right. */
  function Keys<K(==,!new), V>(d: Dict<K, V>): (ks: seq<K>)
    ensures |ks| == |d|
    ensures forall i :: 0 <= i < |d| ==> ks[i] == d[i].0
  {
    if d == [] then [] else [d[0].0] + Keys(d[1..])
  }

  /** No key appears twice in the display. */
  predicate UniqueKeys<K(==,!new), V>(d: Dict<K, V>)
  {
    forall i, j :: 0 <= i < j < |d| ==> d[i].0 != d[j].0
  }

  /** The mapping that evaluating the display produces: entries are stored
      from left to right, so a later entry overwrites an earlier one. */
  function ToMap<K(==,!new), V>(d: Dict<K, V>): (m: map<K, V>)
  {
    if d == [] then map[] else map[d[0].0 := d[0].1] + ToMap(d[1..])
  }

  /** The map has exactly the keys of the display. */
  lemma {:induction false} ToMapKeys<K(!new), V>(d: Dict<K, V>)
    ensures forall k :: k in ToMap(d) <==> k in Keys(d)
  {
    if d != [] {
      ToMapKeys(d[1..]);
    }
  }

  /** Searches the entries for `k`; a match further right takes precedence. */
  function Lookup<K(==,!new), V>(d: Dict<K, V>, k: K): (r: Option<V>)
    ensures r == if k in ToMap(d) then Some(ToMap(d)[k]) else None
  {
    if d == [] then None
    else
      var later := Lookup(d[1..], k);
      if later.Some? then later
      else if d[0].0 == k then Some(d[0].1)
      else None
  }

  /** The value of `k` in `m`, or `default` when `m` has no such key. */
  function ValueOr<K(==,!new), V>(m: map<K, V>, k: K, default: V): (v: V)
  {
    if k in m then m[k] else default
  }

  /** `d.get(k, default)`. */
  function Get<K(==,!new), V>(d: Dict<K, V>, k: K, default: V): (v: V)
    ensures v == ValueOr(ToMap(d), k, default)
  {
    match Lookup(d, k)
    case Some(x) => x
    case None => default
  }

  /** Two displays without repeated keys and with no key in common make one. */
  lemma UniqueKeysConcat<K(!new), V>(a: Dict<K, V>, b: Dict<K, V>)
    requires UniqueKeys(a) && UniqueKeys(b)
    requires forall i, j :: 0 <= i < |a| && 0 <= j < |b| ==> a[i].0 != b[j].0
    ensures UniqueKeys(a + b)
  {
  }

  /** In a display without repeated keys every entry survives into the map. */
  lemma {:induction false} ToMapEntry<K(!new), V>(d: Dict<K, V>, i: int)
    requires UniqueKeys(d)
    requires 0 <= i < |d|
    ensures d[i].0 in ToMap(d) && ToMap(d)[d[i].0] == d[i].1
  {
    ToMapKeys(d[1..]);
    if i > 0 {
      assert d[1..][i - 1] == d[i];
      ToMapEntry(d[1..], i - 1);
    } else {
      assert forall j :: 0 <= j < |d[1..]| ==> Keys(d[1..])[j] == d[j + 1].0;
      assert d[0].0 !in Keys(d[1..]);
    }
  }

  /** Whatever `Get` returns is the default or the value of some entry. */
  lemma {:induction false} GetIsEntryOrDefault<K(!new), V>(d: Dict<K, V>, k: K, default: V)
    ensures Get(d, k, default) == default
            || exists i :: 0 <= i < |d| && d[i].0 == k && d[i].1 == Get(d, k, default)
  {
    if d != [] {
      GetIsEntryOrDefault(d[1..], k, default);
      var v := Get(d, k, default);
      if v != default && Lookup(d[1..], k).Some? {
        assert v == Get(d[1..], k, default);
        var i :| 0 <= i < |d[1..]| && d[1..][i].0 == k && d[1..][i].1 == v;
        assert d[i + 1] == d[1..][i];
      }
    }
  }
}
