/** Python's `sorted(items, key=...)` on the keys budged/formatter.py sorts
    by: tuples or lists of numbers and strings, compared lexicographically.
    `sorted` is stable, and a stable sort by a strict total order has only
    one possible result, so an insertion sort computes it. */
module Sorting {

  /** One component of a sort key. */
  datatype Atom = N(x: real) | S(s: string)

  type SortKey = seq<Atom>

  /** `a < b` on strings: code point by code point, a proper prefix first. */
  predicate StrLess(a: string, b: string) {
    if a == [] then b != []
    else b != [] && (a[0] < b[0] || (a[0] == b[0] && StrLess(a[1..], b[1..])))
  }

  /** `a < b` on key components. The keys of one sort never mix a number
      and a string at the same place; numbers are put first to make the
      order total. */
  predicate AtomLess(a: Atom, b: Atom) {
    match (a, b)
    case (N(x), N(y)) => x < y
    case (S(s), S(t)) => StrLess(s, t)
    case (N(_), S(_)) => true
    case (S(_), N(_)) => false
  }

  /** `a < b` on tuples and lists: the first differing component decides,
      a proper prefix first. */
  predicate KeyLess(a: SortKey, b: SortKey) {
    if a == [] then b != []
    else b != [] && (AtomLess(a[0], b[0]) || (a[0] == b[0] && KeyLess(a[1..], b[1..])))
  }

  lemma {:induction false} StrLessIrreflexive(a: string)
    ensures !StrLess(a, a)
  {
    if a != [] { StrLessIrreflexive(a[1..]); }
  }

  lemma {:induction false} StrLessTransitive(a: string, b: string, c: string)
    requires StrLess(a, b) && StrLess(b, c)
    ensures StrLess(a, c)
  {
    if a != [] && a[0] == b[0] && b[0] == c[0] {
      StrLessTransitive(a[1..], b[1..], c[1..]);
    }
  }

  lemma {:induction false} StrLessTotal(a: string, b: string)
    requires a != b
    ensures StrLess(a, b) || StrLess(b, a)
  {
    if a != [] && b != [] && a[0] == b[0] {
      assert a == [a[0]] + a[1..] && b == [b[0]] + b[1..];
      StrLessTotal(a[1..], b[1..]);
    }
  }

  lemma AtomLessOrder(a: Atom, b: Atom, c: Atom)
    ensures !AtomLess(a, a)
    ensures AtomLess(a, b) && AtomLess(b, c) ==> AtomLess(a, c)
    ensures a != b ==> AtomLess(a, b) || AtomLess(b, a)
  {
    if a.S? { StrLessIrreflexive(a.s); }
    if a.S? && b.S? && c.S? && AtomLess(a, b) && AtomLess(b, c) { StrLessTransitive(a.s, b.s, c.s); }
    if a.S? && b.S? && a != b { StrLessTotal(a.s, b.s); }
  }

  /** `<` on keys is a strict total order. */
  lemma {:induction false} KeyLessIrreflexive(a: SortKey)
    ensures !KeyLess(a, a)
  {
    if a != [] {
      AtomLessOrder(a[0], a[0], a[0]);
      KeyLessIrreflexive(a[1..]);
    }
  }

  lemma {:induction false} KeyLessTransitive(a: SortKey, b: SortKey, c: SortKey)
    requires KeyLess(a, b) && KeyLess(b, c)
    ensures KeyLess(a, c)
  {
    if a != [] {
      AtomLessOrder(a[0], b[0], c[0]);
      if a[0] == b[0] && b[0] == c[0] {
        KeyLessTransitive(a[1..], b[1..], c[1..]);
      }
    }
  }

  lemma {:induction false} KeyLessTotal(a: SortKey, b: SortKey)
    requires a != b
    ensures KeyLess(a, b) || KeyLess(b, a)
  {
    if a != [] && b != [] {
      AtomLessOrder(a[0], b[0], b[0]);
      if a[0] == b[0] {
        assert a == [a[0]] + a[1..] && b == [b[0]] + b[1..];
        KeyLessTotal(a[1..], b[1..]);
      }
    }
  }

  /** Sorted by `key`: no element has a smaller key than one before it. */
  predicate Sorted<T>(r: seq<T>, key: T -> SortKey) {
    forall i, j :: 0 <= i < j < |r| ==> !KeyLess(key(r[j]), key(r[i]))
  }

  /** Inserts `x`, which came before every element of `r`, in front of the
      first element whose key is not smaller. */
  function Insert<T>(x: T, r: seq<T>, key: T -> SortKey): seq<T> {
    if r == [] || !KeyLess(key(r[0]), key(x)) then [x] + r
    else [r[0]] + Insert(x, r[1..], key)
  }

  /** `sorted(s, key=key)`. */
  function SortBy<T>(s: seq<T>, key: T -> SortKey): seq<T> {
    if s == [] then [] else Insert(s[0], SortBy(s[1..], key), key)
  }

  /** Where an insertion puts `x`: after the elements with a smaller key. */
  lemma {:induction false} InsertShape<T>(x: T, r: seq<T>, key: T -> SortKey) returns (k: nat)
    ensures k <= |r| && Insert(x, r, key) == r[..k] + [x] + r[k..]
    ensures forall i :: 0 <= i < k ==> KeyLess(key(r[i]), key(x))
    ensures k < |r| ==> !KeyLess(key(r[k]), key(x))
  {
    if r == [] || !KeyLess(key(r[0]), key(x)) {
      k := 0;
    } else {
      var k' := InsertShape(x, r[1..], key);
      k := k' + 1;
      assert r[..k] == [r[0]] + r[1..][..k'];
      assert r[k..] == r[1..][k'..];
    }
  }

  lemma InsertSorted<T>(x: T, r: seq<T>, key: T -> SortKey)
    requires Sorted(r, key)
    ensures Sorted(Insert(x, r, key), key)
  {
    var k := InsertShape(x, r, key);
    var u := Insert(x, r, key);
    forall i, j | 0 <= i < j < |u| ensures !KeyLess(key(u[j]), key(u[i])) {
      if i < k && j == k {
        assert u[i] == r[i] && u[j] == x;
        KeyLessIrreflexive(key(x));
        if KeyLess(key(x), key(r[i])) { KeyLessTransitive(key(x), key(r[i]), key(x)); }
      } else if i == k {
        assert u[i] == x && u[j] == r[j - 1];
        NotBelowLater(key(r[k]), key(r[j - 1]), key(x), j - 1 == k);
      } else {
        var i', j' := if i < k then i else i - 1, if j < k then j else j - 1;
        assert u[i] == r[i'] && u[j] == r[j'];
      }
    }
  }

  /** A key not below the first one after `x` is not below `x` either. */
  lemma NotBelowLater(a: SortKey, b: SortKey, c: SortKey, same: bool)
    requires !KeyLess(a, c)
    requires same ==> a == b
    requires !same ==> !KeyLess(b, a)
    ensures !KeyLess(b, c)
  {
    if KeyLess(b, c) && a != b {
      KeyLessTotal(a, b);
      KeyLessTransitive(a, b, c);
    }
  }

  /** The result is sorted. */
  lemma {:induction false} SortBySorted<T>(s: seq<T>, key: T -> SortKey)
    ensures Sorted(SortBy(s, key), key)
  {
    if s != [] {
      SortBySorted(s[1..], key);
      InsertSorted(s[0], SortBy(s[1..], key), key);
    }
  }

  lemma {:induction false} InsertPermutation<T>(x: T, r: seq<T>, key: T -> SortKey)
    ensures multiset(Insert(x, r, key)) == multiset(r) + multiset{x}
  {
    if r != [] && KeyLess(key(r[0]), key(x)) {
      InsertPermutation(x, r[1..], key);
      assert r == [r[0]] + r[1..];
    }
  }

  /** The result is a permutation of the input. */
  lemma {:induction false} SortByPermutation<T>(s: seq<T>, key: T -> SortKey)
    ensures multiset(SortBy(s, key)) == multiset(s)
  {
    if s != [] {
      SortByPermutation(s[1..], key);
      InsertPermutation(s[0], SortBy(s[1..], key), key);
      assert s == [s[0]] + s[1..];
    }
  }

  /** The elements whose key is `k`, in order. */
  function WithKey<T>(s: seq<T>, key: T -> SortKey, k: SortKey): seq<T> {
    if s == [] then []
    else (if key(s[0]) == k then [s[0]] else []) + WithKey(s[1..], key, k)
  }

  /** Inserting `x` puts it first among the elements of its key. */
  lemma {:induction false} WithKeyInsert<T>(x: T, r: seq<T>, key: T -> SortKey, k: SortKey)
    ensures WithKey(Insert(x, r, key), key, k) == (if key(x) == k then [x] else []) + WithKey(r, key, k)
  {
    if r != [] && KeyLess(key(r[0]), key(x)) {
      WithKeyInsert(x, r[1..], key, k);
      assert Insert(x, r, key)[1..] == Insert(x, r[1..], key);
      KeyLessIrreflexive(k);
    }
  }

  /** Stability: the elements of any one key keep their input order. */
  lemma {:induction false} SortByStable<T>(s: seq<T>, key: T -> SortKey, k: SortKey)
    ensures WithKey(SortBy(s, key), key, k) == WithKey(s, key, k)
  {
    if s != [] {
      SortByStable(s[1..], key, k);
      WithKeyInsert(s[0], SortBy(s[1..], key), key, k);
    }
  }
}
