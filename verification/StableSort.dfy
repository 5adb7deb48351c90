/**
 * `Array.prototype.sort` with a comparator `key(a) - key(b)`. Section 22.1.3.27 of ECMA-262 (10th edition)
 * asks for a stable sort; `StableSortOf` is that requirement and it has exactly one solution.
 */
module StableSort {
  import opened Seqs

  ghost predicate Sorted<T>(key: T -> int, s: seq<T>) {
    forall i, j :: 0 <= i < j < |s| ==> key(s[i]) <= key(s[j])
  }

  /** r is ascending and keeps, for every key, the elements with that key in their original order. */
  ghost predicate StableSortOf<T(!new)>(key: T -> int, s: seq<T>, r: seq<T>) {
    && Sorted(key, r)
    && forall k: int :: Select(key, r, k) == Select(key, s, k)
  }

  /** Elements that share a key look the same through g. */
  ghost predicate TiesAgree<T(!new), U>(key: T -> int, g: T -> U, s: seq<T>) {
    forall x, y :: x in s && y in s && key(x) == key(y) ==> g(x) == g(y)
  }

  ghost predicate DistinctKeys<T>(key: T -> int, s: seq<T>) {
    forall i, j :: 0 <= i < j < |s| ==> key(s[i]) != key(s[j])
  }

  function Insert<T>(key: T -> int, x: T, s: seq<T>): seq<T> {
    if s == [] || key(x) <= key(s[0]) then [x] + s else [s[0]] + Insert(key, x, s[1..])
  }

  function SortBy<T>(key: T -> int, s: seq<T>): seq<T> {
    if s == [] then [] else Insert(key, s[0], SortBy(key, s[1..]))
  }

  lemma {:induction false} InsertSorted<T>(key: T -> int, x: T, s: seq<T>)
    requires Sorted(key, s)
    ensures Sorted(key, Insert(key, x, s))
    ensures forall y :: y in Insert(key, x, s) ==> y == x || y in s
  {
    if s != [] && key(s[0]) < key(x) {
      var tail := Insert(key, x, s[1..]);
      InsertSorted(key, x, s[1..]);
      assert forall y :: y in s[1..] ==> y in s && key(s[0]) <= key(y);
      assert forall i :: 0 <= i < |tail| ==> tail[i] in tail;
    }
  }

  lemma {:induction false} InsertStable<T>(key: T -> int, x: T, s: seq<T>, k: int)
    ensures Select(key, Insert(key, x, s), k) == Select(key, [x] + s, k)
  {
    assert ([x] + s)[1..] == s;
    if s != [] && key(s[0]) < key(x) {
      var tail := Insert(key, x, s[1..]);
      InsertStable(key, x, s[1..], k);
      assert ([s[0]] + tail)[1..] == tail;
      assert ([x] + s[1..])[1..] == s[1..];
    }
  }

  lemma {:induction false} SortByIsStableSort<T(!new)>(key: T -> int, s: seq<T>)
    ensures StableSortOf(key, s, SortBy(key, s))
  {
    if s != [] {
      var tail := SortBy(key, s[1..]);
      SortByIsStableSort(key, s[1..]);
      InsertSorted(key, s[0], tail);
      forall k: int ensures Select(key, SortBy(key, s), k) == Select(key, s, k) {
        InsertStable(key, s[0], tail, k);
        assert ([s[0]] + tail)[1..] == tail;
        assert Select(key, tail, k) == Select(key, s[1..], k);
      }
    }
  }

  lemma FirstIsSmallest<T(!new)>(key: T -> int, a: seq<T>, b: seq<T>)
    requires a != [] && Sorted(key, b)
    requires forall k: int :: Select(key, a, k) == Select(key, b, k)
    ensures b != [] && key(b[0]) <= key(a[0])
  {
    var k := key(a[0]);
    assert a[0] in Select(key, a, k);
    SelectMembers(key, b, k);
    assert a[0] in b;
  }

  /** Sortedness and stability together leave no choice. */
  lemma {:induction false} StableSortUnique<T(!new)>(key: T -> int, a: seq<T>, b: seq<T>)
    requires Sorted(key, a) && Sorted(key, b)
    requires forall k: int :: Select(key, a, k) == Select(key, b, k)
    ensures a == b
  {
    if a != [] || b != [] {
      if a != [] { FirstIsSmallest(key, a, b); }
      if b != [] { FirstIsSmallest(key, b, a); }
      var k0 := key(a[0]);
      assert Select(key, a, k0)[0] == a[0] && Select(key, b, k0)[0] == b[0];
      forall k: int ensures Select(key, a[1..], k) == Select(key, b[1..], k) {
        assert Select(key, a, k) == Select(key, b, k);
        if k == k0 {
          assert Select(key, a, k)[1..] == Select(key, a[1..], k);
          assert Select(key, b, k)[1..] == Select(key, b[1..], k);
        }
      }
      StableSortUnique(key, a[1..], b[1..]);
      assert a == [a[0]] + a[1..] && b == [b[0]] + b[1..];
    }
  }

  /** Any stable sort of s is SortBy(key, s). */
  lemma StableSortIsSortBy<T(!new)>(key: T -> int, s: seq<T>, r: seq<T>)
    ensures StableSortOf(key, s, r) <==> r == SortBy(key, s)
  {
    SortByIsStableSort(key, s);
    if StableSortOf(key, s, r) {
      forall k: int ensures Select(key, r, k) == Select(key, SortBy(key, s), k) {
        assert Select(key, r, k) == Select(key, s, k);
      }
      StableSortUnique(key, r, SortBy(key, s));
    }
  }

  /** A stable sort keeps the order of elements that a finer key files together. */
  lemma SortKeepsFiles<T(!new), K>(key: T -> int, fine: T -> K, s: seq<T>, k: K, position: int)
    requires forall x :: fine(x) == k ==> key(x) == position
    ensures Select(fine, SortBy(key, s), k) == Select(fine, s, k)
  {
    SortByIsStableSort(key, s);
    SelectTwice(fine, key, s, k, position);
    SelectTwice(fine, key, SortBy(key, s), k, position);
  }

  lemma SortByPermutes<T(!new)>(key: T -> int, s: seq<T>)
    ensures multiset(SortBy(key, s)) == multiset(s)
  {
    SortByIsStableSort(key, s);
    forall x ensures multiset(SortBy(key, s))[x] == multiset(s)[x] {
      SelectCount(key, s, key(x), x);
      SelectCount(key, SortBy(key, s), key(x), x);
    }
  }

  lemma SelectsHaveSameElements<T(!new), K>(key: T -> K, s: seq<T>, t: seq<T>, k: K)
    requires multiset(s) == multiset(t)
    ensures multiset(Select(key, s, k)) == multiset(Select(key, t, k))
    ensures |Select(key, s, k)| == |Select(key, t, k)|
  {
    forall x ensures multiset(Select(key, s, k))[x] == multiset(Select(key, t, k))[x] {
      SelectCount(key, s, k, x);
      SelectCount(key, t, k, x);
    }
    assert multiset(Select(key, s, k)) == multiset(Select(key, t, k));
    assert |multiset(Select(key, s, k))| == |multiset(Select(key, t, k))|;
  }

  /** Sorting commutes with a map that leaves keys alone. */
  lemma SortByMap<T(!new), U(!new)>(f: T -> U, keyT: T -> int, keyU: U -> int, s: seq<T>)
    requires forall x :: keyU(f(x)) == keyT(x)
    ensures SortBy(keyU, Map(f, s)) == Map(f, SortBy(keyT, s))
  {
    var r := SortBy(keyT, s);
    SortByIsStableSort(keyT, s);
    forall k: int ensures Select(keyU, Map(f, r), k) == Select(keyU, Map(f, s), k) {
      SelectMap(f, keyT, keyU, r, k);
      SelectMap(f, keyT, keyU, s, k);
    }
    StableSortIsSortBy(keyU, Map(f, s), Map(f, r));
  }

  lemma DistinctTiesAgree<T(!new), U>(key: T -> int, g: T -> U, s: seq<T>)
    requires DistinctKeys(key, s)
    ensures TiesAgree(key, g, s)
  {
    forall x, y | x in s && y in s && key(x) == key(y) ensures g(x) == g(y) {
      var i :| 0 <= i < |s| && s[i] == x;
      var j :| 0 <= j < |s| && s[j] == y;
      assert !(i < j) && !(j < i);
    }
  }

  /** Elements inserted next to each other under one key stand next to each other, the last inserted first. */
  lemma {:induction false} InsertTie<T>(key: T -> int, x: T, y: T, s: seq<T>) returns (p: nat)
    requires key(x) == key(y)
    ensures p < |Insert(key, x, Insert(key, y, s))| && Insert(key, x, Insert(key, y, s))[p] == x
    ensures p < |Insert(key, y, Insert(key, x, s))| && Insert(key, y, Insert(key, x, s))[p] == y
  {
    if s == [] || key(y) <= key(s[0]) {
      p := 0;
    } else {
      p := InsertTie(key, x, y, s[1..]);
      p := p + 1;
    }
  }

  /** Elements with one key are inserted at the same place. */
  lemma {:induction false} InsertSamePlace<T>(key: T -> int, x: T, y: T, s: seq<T>) returns (p: nat)
    requires key(x) == key(y)
    ensures p < |Insert(key, x, s)| && Insert(key, x, s)[p] == x
    ensures p < |Insert(key, y, s)| && Insert(key, y, s)[p] == y
  {
    if s == [] || key(x) <= key(s[0]) {
      p := 0;
    } else {
      p := InsertSamePlace(key, x, y, s[1..]);
      p := p + 1;
    }
  }

  /** Two elements of s at the front, the others behind them. */
  lemma ToFront<T>(s: seq<T>, x: T, y: T) returns (rest: seq<T>)
    requires x in s && y in s && x != y
    ensures multiset([x, y] + rest) == multiset(s) == multiset([y, x] + rest)
  {
    var others := TakeElement(s, x);
    assert y in others by {
      assert y in multiset(s);
    }
    rest := TakeElement(others, y);
    assert [x, y] + rest == [x] + ([y] + rest) && [y, x] + rest == [y] + ([x] + rest);
  }

  lemma TieAtFront<T(!new), U>(key: T -> int, g: T -> U, x: T, y: T, rest: seq<T>)
    requires key(x) == key(y)
    requires Map(g, SortBy(key, [x, y] + rest)) == Map(g, SortBy(key, [y, x] + rest))
    ensures g(x) == g(y)
  {
    var p := InsertTie(key, x, y, SortBy(key, rest));
    assert ([x, y] + rest)[1..] == [y] + rest && ([y] + rest)[1..] == rest;
    assert ([y, x] + rest)[1..] == [x] + rest && ([x] + rest)[1..] == rest;
    assert Map(g, SortBy(key, [x, y] + rest))[p] == g(x);
    assert Map(g, SortBy(key, [y, x] + rest))[p] == g(y);
  }

  lemma SortIgnoresTies<T(!new)>(key: T -> int, s: seq<T>, t: seq<T>)
    requires multiset(s) == multiset(t) && forall x, y :: x in s && y in s && key(x) == key(y) ==> x == y
    ensures SortBy(key, s) == SortBy(key, t)
  {
    SortByIsStableSort(key, s);
    SortByIsStableSort(key, t);
    forall k: int ensures Select(key, SortBy(key, s), k) == Select(key, SortBy(key, t), k) {
      var a, b := Select(key, s, k), Select(key, t, k);
      SelectsHaveSameElements(key, s, t, k);
      SelectMembers(key, s, k);
      forall i | 0 <= i < |a| ensures a[i] == b[i] {
        assert b[i] in multiset(b);
        assert a[i] in a && b[i] in a;
      }
      assert a == b;
    }
    StableSortUnique(key, SortBy(key, s), SortBy(key, t));
  }

  /** An element's key and what is seen of it. */
  datatype Keyed<U> = Keyed(key: int, seen: U)

  function KeyOf<U>(k: Keyed<U>): int {
    k.key
  }

  function SeenOf<U>(k: Keyed<U>): U {
    k.seen
  }

  function KeyedBy<T, U>(key: T -> int, g: T -> U): T -> Keyed<U> {
    (x: T) => Keyed(key(x), g(x))
  }

  lemma SortKeyed<T(!new), U(!new)>(key: T -> int, g: T -> U, s: seq<T>)
    ensures Map(SeenOf, SortBy(KeyOf, Map(KeyedBy(key, g), s))) == Map(g, SortBy(key, s))
  {
    SortByMap(KeyedBy(key, g), key, KeyOf, s);
  }

  /** If ties agree through g, lists with the same keyed images sort alike as seen through g. */
  lemma SortImagesAlike<T(!new), U(!new)>(key: T -> int, g: T -> U, s: seq<T>, t: seq<T>)
    requires TiesAgree(key, g, s)
    requires multiset(Map(KeyedBy(key, g), s)) == multiset(Map(KeyedBy(key, g), t))
    ensures Map(g, SortBy(key, s)) == Map(g, SortBy(key, t))
  {
    var h := KeyedBy(key, g);
    forall x: Keyed<U>, y: Keyed<U> | x in Map(h, s) && y in Map(h, s) && x.key == y.key ensures x == y {
      var i :| 0 <= i < |s| && Map(h, s)[i] == x;
      var j :| 0 <= j < |s| && Map(h, s)[j] == y;
      assert s[i] in s && s[j] in s;
    }
    SortIgnoresTies(KeyOf, Map(h, s), Map(h, t));
    SortKeyed(key, g, s);
    SortKeyed(key, g, t);
  }

  lemma SameElementsSameImages<T, U>(f: T -> U, s: seq<T>, t: seq<T>)
    requires multiset(s) == multiset(t)
    ensures multiset(Map(f, s)) == multiset(Map(f, t))
  {
    var id := (x: T) => x;
    assert Map(id, s) == s && Map(id, t) == t;
    ImagesFollow(id, f, s, t);
  }

  /** If t is an ordering of s, both sort to the same list as seen through g. */
  ghost predicate SortsAlike<T, U>(key: T -> int, g: T -> U, s: seq<T>, t: seq<T>) {
    multiset(s) == multiset(t) ==> Map(g, SortBy(key, s)) == Map(g, SortBy(key, t))
  }

  /** Through g, all orderings of a list sort alike exactly when elements with equal keys look the same. */
  lemma SortByIgnoresOrder<T(!new), U(!new)>(key: T -> int, g: T -> U, s: seq<T>)
    ensures TiesAgree(key, g, s) <==> forall t :: SortsAlike(key, g, s, t)
  {
    if TiesAgree(key, g, s) {
      forall t ensures SortsAlike(key, g, s, t) {
        if multiset(s) == multiset(t) {
          SameElementsSameImages(KeyedBy(key, g), s, t);
          SortImagesAlike(key, g, s, t);
        }
      }
    } else {
      var x, y :| x in s && y in s && key(x) == key(y) && g(x) != g(y);
      var rest := ToFront(s, x, y);
      if SortsAlike(key, g, s, [x, y] + rest) && SortsAlike(key, g, s, [y, x] + rest) {
        TieAtFront(key, g, x, y, rest);
      }
    }
  }
}
