/** Python's insertion-ordered dict: key/value pairs in insertion order, keys distinct. */
module OrderedDict {
  import opened Wrappers
  import opened Json

  type Dict<K, V> = seq<(K, V)>

  predicate NoDuplicates<T(==)>(s: seq<T>) {
    forall i, j :: 0 <= i < j < |s| ==> s[i] != s[j]
  }

  predicate DistinctKeys<K(==), V>(d: Dict<K, V>) {
    forall i, j :: 0 <= i < j < |d| ==> d[i].0 != d[j].0
  }

  /** Index of the first pair with this key. */
  function Find<K(==), V>(d: Dict<K, V>, k: K): (r: Option<nat>)
    ensures r.Some? ==> r.value < |d| && d[r.value].0 == k && forall j :: 0 <= j < r.value ==> d[j].0 != k
    ensures r.None? ==> forall j :: 0 <= j < |d| ==> d[j].0 != k
  {
    if d == [] then None
    else if d[0].0 == k then Some(0)
    else
      var rest := Find(d[1..], k);
      assert forall j :: 1 <= j < |d| ==> d[j] == d[1..][j - 1];
      if rest.None? then None else Some(rest.value + 1)
  }

  predicate HasKey<K(==), V>(d: Dict<K, V>, k: K) {
    Find(d, k).Some?
  }

  function Lookup<K(==), V>(d: Dict<K, V>, k: K, fallback: V): V {
    var at := Find(d, k);
    if at.Some? then d[at.value].1 else fallback
  }

  /** `d[k] = v`: an existing key keeps its place. */
  function Put<K(==), V>(d: Dict<K, V>, k: K, v: V): (r: Dict<K, V>)
    ensures DistinctKeys(d) ==> DistinctKeys(r)
  {
    var at := Find(d, k);
    if at.Some? then d[at.value := (k, v)] else d + [(k, v)]
  }

  /** `d.setdefault(k, v)`. */
  function SetDefault<K(==), V>(d: Dict<K, V>, k: K, v: V): (r: Dict<K, V>)
    ensures DistinctKeys(d) ==> DistinctKeys(r)
  {
    if HasKey(d, k) then d else d + [(k, v)]
  }

  /** `d.pop(k, None)`. */
  function Pop<K(==), V>(d: Dict<K, V>, k: K): (r: Dict<K, V>)
    ensures DistinctKeys(d) ==> DistinctKeys(r)
  {
    var at := Find(d, k);
    if at.Some? then d[..at.value] + d[at.value + 1..] else d
  }

  lemma PopDrops<K, V>(d: Dict<K, V>, k: K)
    requires DistinctKeys(d)
    ensures !HasKey(Pop(d, k), k)
  {
  }

  function Values<K, V>(d: Dict<K, V>): (r: seq<V>)
    ensures |r| == |d| && forall i :: 0 <= i < |d| ==> r[i] == d[i].1
  {
    seq(|d|, i requires 0 <= i < |d| => d[i].1)
  }

  function Keys<K, V>(d: Dict<K, V>): (r: seq<K>)
    ensures |r| == |d| && forall i :: 0 <= i < |d| ==> r[i] == d[i].0
  {
    seq(|d|, i requires 0 <= i < |d| => d[i].0)
  }
}
