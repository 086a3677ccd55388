/**
 * Python dictionaries as association lists in insertion order: `d[k] = v` replaces the value
 * of an existing key in place and appends a new key at the end.
 */
module OrderedMap {
  import opened Wrappers

  type Dict<V> = seq<(string, V)>

  function Keys<V>(d: Dict<V>): (ks: seq<string>)
    ensures |ks| == |d|
    ensures forall i :: 0 <= i < |d| ==> ks[i] == d[i].0
  {
    seq(|d|, i requires 0 <= i < |d| => d[i].0)
  }

  predicate DistinctKeys<V>(d: Dict<V>) {
    forall i, j :: 0 <= i < j < |d| ==> d[i].0 != d[j].0
  }

  /** Position of key `k`, if present. */
  function Find<V>(d: Dict<V>, k: string): (r: Option<nat>)
    ensures r.Some? ==> r.value < |d| && d[r.value].0 == k
    ensures r.None? <==> k !in Keys(d)
  {
    if |d| == 0 then None
    else if d[|d| - 1].0 == k then Some(|d| - 1)
    else
      var r := Find(d[..|d| - 1], k);
      assert Keys(d) == Keys(d[..|d| - 1]) + [d[|d| - 1].0];
      r
  }

  /** `d.get(k)`. */
  function Get<V>(d: Dict<V>, k: string): (r: Option<V>)
    ensures r.Some? <==> k in Keys(d)
  {
    var i := Find(d, k);
    if i.Some? then Some(d[i.value].1) else None
  }

  /** `d[k] = v`. */
  function Put<V>(d: Dict<V>, k: string, v: V): (r: Dict<V>)
    ensures Keys(r) == if k in Keys(d) then Keys(d) else Keys(d) + [k]
  {
    var i := Find(d, k);
    if i.Some? then d[i.value := (k, v)] else d + [(k, v)]
  }

  /** Assignment keeps keys distinct, reads back its value and leaves every other key's value alone. */
  lemma PutGet<V>(d: Dict<V>, k: string, v: V, other: string)
    requires DistinctKeys(d)
    ensures DistinctKeys(Put(d, k, v))
    ensures Get(Put(d, k, v), k) == Some(v)
    ensures other != k ==> Get(Put(d, k, v), other) == Get(d, other)
  {
    var r := Put(d, k, v);
    assert Keys(r) == if k in Keys(d) then Keys(d) else Keys(d) + [k];
    var i := Find(r, k);
    var j := Find(d, k);
    if j.Some? {
      assert r[j.value].0 == k;
    } else {
      assert r[|d|].0 == k;
    }
    if other != k && other in Keys(d) {
      var a := Find(d, other).value;
      var b := Find(r, other).value;
      assert r[a].0 == other;
    }
  }

  /** Every entry after an assignment is the assigned one or an entry that was there before. */
  lemma PutEntries<V>(d: Dict<V>, k: string, v: V)
    ensures forall i :: 0 <= i < |Put(d, k, v)| ==> Put(d, k, v)[i] == (k, v) || Put(d, k, v)[i] in d
  {
  }
}
