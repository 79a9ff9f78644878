/** The insertion-ordered dictionaries of amounts the aggregation builds: a
    `defaultdict(float)` whose entries are kept in the order their keys were
    first added. */
module Dict {

  /** Entries in insertion order. */
  type Table<K> = seq<(K, real)>

  /** No key occurs twice. */
  predicate UniqueKeys<K(==)>(t: Table<K>) {
    forall i, j :: 0 <= i < j < |t| ==> t[i].0 != t[j].0
  }

  /** `k in d`. */
  predicate HasKey<K(==)>(t: Table<K>, k: K) {
    exists i :: 0 <= i < |t| && t[i].0 == k
  }

  /** `d[k]` of a `defaultdict(float)`: the value of `k`, or 0 when absent. */
  function Get<K(==)>(t: Table<K>, k: K): real {
    if t == [] then 0.0
    else if t[0].0 == k then t[0].1
    else Get(t[1..], k)
  }

  /** `d[k] += v`: the value of `k` grows by `v` where it stands, or the
      entry `(k, v)` is appended when the key is new. */
  function Add<K(==)>(t: Table<K>, k: K, v: real): (r: Table<K>)
    ensures |r| == if HasKey(t, k) then |t| else |t| + 1
  {
    if t == [] then [(k, v)]
    else if t[0].0 == k then [(k, t[0].1 + v)] + t[1..]
    else
      var rest := Add(t[1..], k, v);
      assert HasKey(t[1..], k) ==> HasKey(t, k) by {
        if HasKey(t[1..], k) {
          var i :| 0 <= i < |t[1..]| && t[1..][i].0 == k;
          assert t[i + 1].0 == k;
        }
      }
      assert HasKey(t, k) ==> HasKey(t[1..], k) by {
        if HasKey(t, k) {
          var i :| 0 <= i < |t| && t[i].0 == k;
          assert t[1..][i - 1].0 == k;
        }
      }
      [t[0]] + rest
  }

  /** `sum(d.values())`. */
  function Total<K>(t: Table<K>): real {
    if t == [] then 0.0 else t[0].1 + Total(t[1..])
  }

  /** Adding to a key adds to its value and to no other. */
  lemma {:induction false} AddGet<K>(t: Table<K>, k: K, v: real, q: K)
    ensures Get(Add(t, k, v), q) == Get(t, q) + (if q == k then v else 0.0)
  {
    if t != [] && t[0].0 != k {
      AddGet(t[1..], k, v, q);
      assert Add(t, k, v)[1..] == Add(t[1..], k, v);
    }
  }

  /** Adding `v` to any key adds `v` to the total. */
  lemma {:induction false} AddTotal<K>(t: Table<K>, k: K, v: real)
    ensures Total(Add(t, k, v)) == Total(t) + v
  {
    if t == [] {
    } else if t[0].0 == k {
      assert Add(t, k, v)[1..] == t[1..];
    } else {
      AddTotal(t[1..], k, v);
      assert Add(t, k, v)[1..] == Add(t[1..], k, v);
    }
  }

  /** The keys after an addition: an existing key keeps every entry's key
      where it stands; a new key is appended. */
  lemma {:induction false} AddKeys<K>(t: Table<K>, k: K, v: real)
    ensures HasKey(t, k) ==> forall i :: 0 <= i < |t| ==> Add(t, k, v)[i].0 == t[i].0
    ensures !HasKey(t, k) ==> Add(t, k, v) == t + [(k, v)]
  {
    if t != [] && t[0].0 != k {
      AddKeys(t[1..], k, v);
      assert HasKey(t, k) <==> HasKey(t[1..], k) by {
        if HasKey(t[1..], k) {
          var i :| 0 <= i < |t[1..]| && t[1..][i].0 == k;
          assert t[i + 1].0 == k;
        }
        if HasKey(t, k) {
          var i :| 0 <= i < |t| && t[i].0 == k;
          assert t[1..][i - 1].0 == k;
        }
      }
      assert Add(t, k, v) == [t[0]] + Add(t[1..], k, v);
      if !HasKey(t, k) {
        assert t == [t[0]] + t[1..];
      }
    }
  }

  /** An addition keeps the keys unique. */
  lemma AddUnique<K>(t: Table<K>, k: K, v: real)
    requires UniqueKeys(t)
    ensures UniqueKeys(Add(t, k, v))
  {
    AddKeys(t, k, v);
    if !HasKey(t, k) {
      assert forall i :: 0 <= i < |t| ==> t[i].0 != k;
    }
  }
}
