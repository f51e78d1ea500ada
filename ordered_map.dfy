/** A PHP array with string keys, as the admin code uses it: an insertion-ordered
    sequence of key/value pairs. Reading a key finds its slot; assigning to a key
    that is present overwrites that slot in place, and assigning to a new key
    appends it at the end. */
module OrderedMaps {

  datatype Option<T> = None | Some(value: T)

  type OMap<V> = seq<(string, V)>

  /** The keys in iteration order (PHP's `array_keys`). */
  function Keys<V>(m: OMap<V>): seq<string> {
    seq(|m|, i requires 0 <= i < |m| => m[i].0)
  }

  /** `isset($m[k])` for an array whose values are never null. */
  predicate HasKey<V>(m: OMap<V>, k: string) {
    k in Keys(m)
  }

  /** No key occurs in two slots: what every PHP array guarantees. */
  predicate UniqueKeys<V>(m: OMap<V>) {
    forall i, j :: 0 <= i < j < |m| ==> m[i].0 != m[j].0
  }

  /** The slot holding key `k`, or `|m|` when there is none. */
  function IndexOf<V>(m: OMap<V>, k: string): (i: nat)
    ensures i <= |m|
    ensures i < |m| <==> HasKey(m, k)
    ensures i < |m| ==> m[i].0 == k
    ensures forall j :: 0 <= j < i ==> m[j].0 != k
  {
    if m == [] then 0
    else if m[0].0 == k then assert Keys(m)[0] == k; 0
    else
      assert Keys(m) == [m[0].0] + Keys(m[1..]);
      1 + IndexOf(m[1..], k)
  }

  /** `$m[k]` when the key is set, None otherwise. */
  function Lookup<V>(m: OMap<V>, k: string): (r: Option<V>)
    ensures r.Some? <==> HasKey(m, k)
    ensures UniqueKeys(m) ==> forall i :: 0 <= i < |m| && m[i].0 == k ==> r == Some(m[i].1)
  {
    var i := IndexOf(m, k);
    if i < |m| then Some(m[i].1) else None
  }

  /** `$m[k] = v`: overwrite in place when the key is present, append otherwise. */
  function Put<V>(m: OMap<V>, k: string, v: V): OMap<V> {
    var i := IndexOf(m, k);
    if i < |m| then m[i := (k, v)] else m + [(k, v)]
  }

  /** Assigning to a key that is not set appends it. */
  lemma PutAppends<V>(m: OMap<V>, k: string, v: V)
    requires !HasKey(m, k)
    ensures Put(m, k, v) == m + [(k, v)]
  {
  }

  /** Assignment never reorders keys: a present key keeps its slot and a new
      key goes last. */
  lemma PutKeys<V>(m: OMap<V>, k: string, v: V)
    ensures Keys(Put(m, k, v)) == if HasKey(m, k) then Keys(m) else Keys(m) + [k]
  {
    var r := Put(m, k, v);
    if HasKey(m, k) {
      assert forall j :: 0 <= j < |m| ==> Keys(r)[j] == Keys(m)[j];
    } else {
      assert forall j :: 0 <= j < |r| ==> Keys(r)[j] == (Keys(m) + [k])[j];
    }
  }

  /** Assignment keeps a valid PHP array valid: no key twice. */
  lemma PutUnique<V>(m: OMap<V>, k: string, v: V)
    requires UniqueKeys(m)
    ensures UniqueKeys(Put(m, k, v))
  {
    var r := Put(m, k, v);
    PutKeys(m, k, v);
    forall i, j | 0 <= i < j < |r| ensures r[i].0 != r[j].0 {
      assert r[i].0 == Keys(r)[i] && r[j].0 == Keys(r)[j];
      if HasKey(m, k) || j < |m| {
        assert Keys(m)[i] == m[i].0 && Keys(m)[j] == m[j].0;
      } else {
        assert Keys(m)[i] == m[i].0;
      }
    }
  }

  /** `r` is `m` after `$m[k] = v`: the slot of `k` now holds `v`, every
      other slot is as before, and a `k` that was absent went to the end. */
  ghost predicate OverwritesOrAppends<V>(m: OMap<V>, r: OMap<V>, k: string, v: V) {
    && |m| <= |r| <= |m| + 1
    && (forall i :: 0 <= i < |m| ==> r[i] == if m[i].0 == k then (k, v) else m[i])
    && (|r| == |m| + 1 ==> r[|m|] == (k, v) && !HasKey(m, k))
    && (|r| == |m| ==> HasKey(m, k))
  }

  /** In a valid PHP array, assignment overwrites in place or appends. */
  lemma PutOverwritesOrAppends<V>(m: OMap<V>, k: string, v: V)
    requires UniqueKeys(m)
    ensures OverwritesOrAppends(m, Put(m, k, v), k, v)
  {
    var r := Put(m, k, v);
    forall i | 0 <= i < |m| ensures r[i] == if m[i].0 == k then (k, v) else m[i] {
      if m[i].0 == k {
        assert IndexOf(m, k) == i;
      }
    }
  }

  /** After `$m[k] = v`, `k` reads `v` and every other key reads as before. */
  lemma PutLookup<V>(m: OMap<V>, k: string, v: V, j: string)
    requires UniqueKeys(m)
    ensures Lookup(Put(m, k, v), j) == if j == k then Some(v) else Lookup(m, j)
  {
    var r := Put(m, k, v);
    PutUnique(m, k, v);
    PutKeys(m, k, v);
    PutOverwritesOrAppends(m, k, v);
    if j == k {
      var s := if HasKey(m, k) then IndexOf(m, k) else |m|;
      assert r[s] == (k, v);
    } else if HasKey(m, j) {
      var i := IndexOf(m, j);
      assert r[i] == m[i];
    } else {
      assert !HasKey(r, j);
    }
  }
}
