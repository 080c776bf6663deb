/** Python dictionaries as association lists.

    The engine iterates over several dictionaries (keyword arguments, the
    instance attributes, the conditional-requirement table) and what it
    produces can depend on that order (which error is reported first, which
    entry wins when two attribute names are exported under one key). A
    dictionary is therefore a sequence of key/value pairs whose order is
    the iteration order; `Put` keeps the position of a key it overwrites
    and appends a new key at the end, as an insertion-ordered dictionary
    does. */
module PyDicts {

  datatype Option<+T> = None | Some(value: T)

  type Dict<K, V> = seq<(K, V)>

  /** Every Python dictionary has pairwise distinct keys. */
  ghost predicate DistinctKeys<K, V>(d: Dict<K, V>) {
    forall i, j :: 0 <= i < j < |d| ==> d[i].0 != d[j].0
  }

  /** `d.get(k)`: the value stored under `k`, if any. */
  function Get<K(==, !new), V>(d: Dict<K, V>, k: K): (r: Option<V>)
    ensures r.None? <==> forall i :: 0 <= i < |d| ==> d[i].0 != k
    ensures r.Some? ==> exists i :: 0 <= i < |d| && d[i] == (k, r.value)
  {
    if d == [] then None
    else if d[0].0 == k then Some(d[0].1)
    else
      var r := Get(d[1..], k);
      assert forall i :: 0 < i < |d| ==> d[i] == d[1..][i - 1];
      r
  }

  /** `k in d` */
  predicate HasKey<K(==, !new), V>(d: Dict<K, V>, k: K) {
    Get(d, k).Some?
  }

  /** `d[k] = v`: overwrite in place, or append a new key. */
  function Put<K(==, !new), V>(d: Dict<K, V>, k: K, v: V): (r: Dict<K, V>)
    ensures Get(r, k) == Some(v)
    ensures forall k' :: k' != k ==> Get(r, k') == Get(d, k')
    ensures |r| == if HasKey(d, k) then |d| else |d| + 1
    ensures DistinctKeys(d) ==> DistinctKeys(r)
  {
    if d == [] then [(k, v)]
    else if d[0].0 == k then
      var r := [(k, v)] + d[1..];
      assert forall k' :: k' != k ==> Get(r, k') == Get(r[1..], k') && Get(d, k') == Get(d[1..], k');
      assert DistinctKeys(d) ==> Get(d[1..], k).None? by {
        if DistinctKeys(d) {
          forall i | 0 <= i < |d[1..]| ensures d[1..][i].0 != k {
            assert d[1..][i] == d[i + 1];
          }
        }
      }
      r
    else
      var t := Put(d[1..], k, v);
      var r := [d[0]] + t;
      assert r[1..] == t;
      assert DistinctKeys(d) ==> DistinctKeys(r) by {
        if DistinctKeys(d) {
          assert DistinctKeys(d[1..]) by {
            forall i, j | 0 <= i < j < |d[1..]| ensures d[1..][i].0 != d[1..][j].0 {
              assert d[1..][i] == d[i + 1] && d[1..][j] == d[j + 1];
            }
          }
          forall j | 0 < j < |r| ensures r[0].0 != r[j].0 {
            assert r[j] == t[j - 1];
            if t[j - 1].0 == k {
              assert r[0].0 != k;
            } else {
              assert Get(t, t[j - 1].0) == Get(d[1..], t[j - 1].0);
              assert Get(d[1..], t[j - 1].0).Some?;
              forall i | 0 <= i < |d[1..]| ensures d[1..][i].0 != d[0].0 {
                assert d[1..][i] == d[i + 1];
              }
            }
          }
        }
      }
      r
  }

  /** `d.update(e)`: every pair of `e` is put into `d`, in `e`'s order, so
      the values of `e` win on a shared key. */
  function Update<K(==, !new), V>(d: Dict<K, V>, e: Dict<K, V>): (r: Dict<K, V>)
    requires DistinctKeys(e)
    ensures forall k :: Get(r, k) == if HasKey(e, k) then Get(e, k) else Get(d, k)
    ensures DistinctKeys(d) ==> DistinctKeys(r)
    decreases |e|
  {
    if e == [] then d
    else
      var rest := e[1..];
      assert DistinctKeys(rest) by {
        forall i, j | 0 <= i < j < |rest| ensures rest[i].0 != rest[j].0 {
          assert rest[i] == e[i + 1] && rest[j] == e[j + 1];
        }
      }
      assert forall k :: k != e[0].0 ==> Get(e, k) == Get(rest, k);
      assert !HasKey(rest, e[0].0) by {
        forall i | 0 <= i < |rest| ensures rest[i].0 != e[0].0 {
          assert rest[i] == e[i + 1];
        }
      }
      Update(Put(d, e[0].0, e[0].1), rest)
  }

  /** `dict(d)` as a Dafny map; the first pair with a key wins, as in `Get`. */
  function ToMap<K(==, !new), V>(d: Dict<K, V>): (m: map<K, V>)
    ensures forall k :: k in m <==> HasKey(d, k)
    ensures forall k :: k in m ==> Get(d, k) == Some(m[k])
  {
    if d == [] then map[]
    else
      var m := ToMap(d[1..])[d[0].0 := d[0].1];
      assert forall k :: k != d[0].0 ==> Get(d, k) == Get(d[1..], k);
      m
  }
}
