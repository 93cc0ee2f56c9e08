/** The descending sort by a numeric key that both `rankRoutes` and
    `searchCities` perform with `Array.prototype.sort((a, b) => key(b) - key(a))`.
    That sort is stable, so its result is the one of the stable insertion sort
    below: elements with equal keys keep their input order. */
module Sorting {

  predicate SortedDesc<T>(s: seq<T>, key: T -> real) {
    forall i, j :: 0 <= i < j < |s| ==> key(s[i]) >= key(s[j])
  }

  predicate AllAtLeast<T>(s: seq<T>, key: T -> real, b: real) {
    forall i :: 0 <= i < |s| ==> key(s[i]) >= b
  }

  /** Inserts `x` after every element whose key is at least `key(x)`. */
  function InsertDesc<T>(t: seq<T>, x: T, key: T -> real): (r: seq<T>)
    ensures |r| == |t| + 1
    decreases |t|
  {
    if t == [] then [x]
    else if key(t[|t| - 1]) >= key(x) then t + [x]
    else InsertDesc(t[..|t| - 1], x, key) + [t[|t| - 1]]
  }

  /** Stable sort by non-increasing key. */
  function SortDesc<T>(s: seq<T>, key: T -> real): (r: seq<T>)
    ensures |r| == |s|
    decreases |s|
  {
    if s == [] then [] else InsertDesc(SortDesc(s[..|s| - 1], key), s[|s| - 1], key)
  }

  lemma {:induction false} InsertDescPermutes<T>(t: seq<T>, x: T, key: T -> real)
    ensures multiset(InsertDesc(t, x, key)) == multiset(t) + multiset{x}
    decreases |t|
  {
    if t != [] && key(t[|t| - 1]) < key(x) {
      InsertDescPermutes(t[..|t| - 1], x, key);
      assert t == t[..|t| - 1] + [t[|t| - 1]];
    }
  }

  lemma {:induction false} InsertDescAtLeast<T>(t: seq<T>, x: T, key: T -> real, b: real)
    requires AllAtLeast(t, key, b) && key(x) >= b
    ensures AllAtLeast(InsertDesc(t, x, key), key, b)
    decreases |t|
  {
    if t != [] && key(t[|t| - 1]) < key(x) {
      InsertDescAtLeast(t[..|t| - 1], x, key, b);
    }
  }

  lemma {:induction false} InsertDescSorted<T>(t: seq<T>, x: T, key: T -> real)
    requires SortedDesc(t, key)
    ensures SortedDesc(InsertDesc(t, x, key), key)
    decreases |t|
  {
    if t != [] && key(t[|t| - 1]) < key(x) {
      var last := t[|t| - 1];
      InsertDescSorted(t[..|t| - 1], x, key);
      InsertDescAtLeast(t[..|t| - 1], x, key, key(last));
    }
  }

  /** The sort only reorders: the result is a permutation of the input. */
  lemma {:induction false} SortDescPermutes<T>(s: seq<T>, key: T -> real)
    ensures multiset(SortDesc(s, key)) == multiset(s)
    decreases |s|
  {
    if s != [] {
      SortDescPermutes(s[..|s| - 1], key);
      InsertDescPermutes(SortDesc(s[..|s| - 1], key), s[|s| - 1], key);
      assert s == s[..|s| - 1] + [s[|s| - 1]];
    }
  }

  /** The result is ordered by non-increasing key. */
  lemma {:induction false} SortDescSorted<T>(s: seq<T>, key: T -> real)
    ensures SortedDesc(SortDesc(s, key), key)
    decreases |s|
  {
    if s != [] {
      SortDescSorted(s[..|s| - 1], key);
      InsertDescSorted(SortDesc(s[..|s| - 1], key), s[|s| - 1], key);
    }
  }

  /** The elements of `s` whose key is `v`, in their order in `s`. */
  function WithKey<T>(s: seq<T>, key: T -> real, v: real): (r: seq<T>)
    ensures |r| <= |s|
    ensures forall i :: 0 <= i < |r| ==> key(r[i]) == v
    decreases |s|
  {
    if s == [] then []
    else WithKey(s[..|s| - 1], key, v) + (if key(s[|s| - 1]) == v then [s[|s| - 1]] else [])
  }

  /** Inserting `x` places it after every element with its own key. */
  lemma {:induction false} InsertDescWithKey<T>(t: seq<T>, x: T, key: T -> real, v: real)
    ensures WithKey(InsertDesc(t, x, key), key, v)
         == WithKey(t, key, v) + (if key(x) == v then [x] else [])
    decreases |t|
  {
    if t == [] {
    } else if key(t[|t| - 1]) >= key(x) {
      assert (t + [x])[..|t|] == t;
    } else {
      var u := t[..|t| - 1];
      var w := InsertDesc(u, x, key);
      InsertDescWithKey(u, x, key, v);
      assert (w + [t[|t| - 1]])[..|w|] == w;
    }
  }

  /** The sort is stable: for every key, the elements with that key appear
      in the result in the order they had in the input. */
  lemma {:induction false} SortDescStable<T>(s: seq<T>, key: T -> real, v: real)
    ensures WithKey(SortDesc(s, key), key, v) == WithKey(s, key, v)
    decreases |s|
  {
    if s != [] {
      SortDescStable(s[..|s| - 1], key, v);
      InsertDescWithKey(SortDesc(s[..|s| - 1], key), s[|s| - 1], key, v);
    }
  }

  /** Inserting `x` into `t` puts it at `j` when the element before `j`
      has a key of at least `key(x)` and every element from `j` on has a
      smaller key. */
  lemma {:induction false} InsertDescAt<T>(t: seq<T>, j: nat, x: T, key: T -> real)
    requires j <= |t| && (j == 0 || key(t[j - 1]) >= key(x))
    requires forall k :: j <= k < |t| ==> key(t[k]) < key(x)
    ensures InsertDesc(t, x, key) == t[..j] + [x] + t[j..]
    decreases |t|
  {
    if |t| == j {
      assert t[..j] == t && t[j..] == [];
    } else {
      var u := t[..|t| - 1];
      InsertDescAt(u, j, x, key);
      assert u[..j] == t[..j];
      assert t[j..] == u[j..] + [t[|t| - 1]];
    }
  }

  /** Moves `a[i]` into place within the sorted prefix `a[..i]`. */
  method InsertInPlace<T>(a: array<T>, i: nat, key: T -> real)
    requires i < a.Length
    modifies a
    ensures a[..i + 1] == InsertDesc(old(a[..i]), old(a[i]), key)
    ensures a[i + 1..] == old(a[i + 1..])
  {
    var x := a[i];
    var keyX := key(x);
    ghost var done := a[..i];
    var j := i;
    while j > 0 && key(a[j - 1]) < keyX
      invariant 0 <= j <= i
      invariant forall k :: 0 <= k < j ==> a[k] == done[k]
      invariant forall k :: j <= k < i ==> a[k + 1] == done[k] && key(done[k]) < keyX
      invariant forall k :: i < k < a.Length ==> a[k] == old(a[k])
    {
      a[j] := a[j - 1];
      j := j - 1;
    }
    InsertDescAt(done, j, x, key);
    a[j] := x;
    assert a[..i + 1] == done[..j] + [x] + done[j..];
  }

  /** In-place stable insertion sort by non-increasing key. */
  method SortDescInPlace<T>(a: array<T>, key: T -> real)
    modifies a
    ensures a[..] == SortDesc(old(a[..]), key)
  {
    ghost var input := a[..];
    var i := 0;
    while i < a.Length
      invariant 0 <= i <= a.Length
      invariant a[..i] == SortDesc(input[..i], key)
      invariant a[i..] == input[i..]
    {
      assert a[i] == input[i];
      InsertInPlace(a, i, key);
      assert input[..i + 1][..i] == input[..i];
      assert a[i + 1..] == input[i + 1..];
      i := i + 1;
    }
    assert input[..a.Length] == input;
  }
}
