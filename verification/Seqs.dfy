/** Array pipelines of the source: `map`, `filter` by a field, and nested flattening. */
module Seqs {

  function Map<T, U>(f: T -> U, s: seq<T>): (r: seq<U>)
    ensures |r| == |s|
    ensures forall i :: 0 <= i < |s| ==> r[i] == f(s[i])
  {
    if s == [] then [] else [f(s[0])] + Map(f, s[1..])
  }

  /** `s.filter(x => key(x) === k)`: the elements filed under k, in their order. */
  function Select<T, K(==)>(key: T -> K, s: seq<T>, k: K): seq<T> {
    if s == [] then []
    else if key(s[0]) == k then [s[0]] + Select(key, s[1..], k)
    else Select(key, s[1..], k)
  }

  /** The concatenation of f(s[0]), f(s[1]), and so on. */
  function FlatMap<T, U>(f: T -> seq<U>, s: seq<T>): seq<U> {
    if s == [] then [] else f(s[0]) + FlatMap(f, s[1..])
  }

  function Sum<T>(f: T -> nat, s: seq<T>): nat {
    if s == [] then 0 else f(s[0]) + Sum(f, s[1..])
  }

  lemma {:induction false} MapAppend<T, U>(f: T -> U, a: seq<T>, b: seq<T>)
    ensures Map(f, a + b) == Map(f, a) + Map(f, b)
  {
  }

  lemma MapPrefix<T, U>(f: T -> U, s: seq<T>, k: nat)
    requires k < |s|
    ensures Map(f, s[..k + 1]) == Map(f, s[..k]) + [f(s[k])]
  {
  }

  lemma {:induction false} FlatMapAppend<T, U>(f: T -> seq<U>, a: seq<T>, b: seq<T>)
    ensures FlatMap(f, a + b) == FlatMap(f, a) + FlatMap(f, b)
  {
    if a == [] {
      assert a + b == b;
    } else {
      assert (a + b)[1..] == a[1..] + b;
      FlatMapAppend(f, a[1..], b);
    }
  }

  lemma FlatMapSnoc<T, U>(f: T -> seq<U>, s: seq<T>, x: T)
    ensures FlatMap(f, s + [x]) == FlatMap(f, s) + f(x)
  {
    FlatMapAppend(f, s, [x]);
    assert FlatMap(f, [x]) == f(x) + FlatMap(f, []);
  }

  /** Pushing f(x) onto a list that already holds the flattening of s. */
  lemma FlatMapPush<T, U>(f: T -> seq<U>, pushed: seq<U>, s: seq<T>, x: T)
    ensures pushed + FlatMap(f, s + [x]) == pushed + FlatMap(f, s) + f(x)
  {
    FlatMapSnoc(f, s, x);
  }

  /** Flattening puts f(s[k]) right after everything the earlier elements contribute. */
  lemma FlatMapAt<T, U>(f: T -> seq<U>, s: seq<T>, k: nat, j: nat) returns (at: nat)
    requires k < |s| && j < |f(s[k])|
    ensures at == |FlatMap(f, s[..k])| + j < |FlatMap(f, s)|
    ensures FlatMap(f, s)[at] == f(s[k])[j]
  {
    assert s == s[..k + 1] + s[k + 1..] && s[..k + 1] == s[..k] + [s[k]];
    FlatMapAppend(f, s[..k + 1], s[k + 1..]);
    FlatMapSnoc(f, s[..k], s[k]);
    at := |FlatMap(f, s[..k])| + j;
  }

  /** Conversely, every place in the flattening belongs to some element and some place in its contribution. */
  lemma {:induction false} FlatMapOrigin<T, U>(f: T -> seq<U>, s: seq<T>, at: nat) returns (k: nat, j: nat)
    requires at < |FlatMap(f, s)|
    ensures k < |s| && j < |f(s[k])| && at == |FlatMap(f, s[..k])| + j
  {
    if at < |f(s[0])| {
      k, j := 0, at;
    } else {
      var k', j' := FlatMapOrigin(f, s[1..], at - |f(s[0])|);
      k, j := k' + 1, j';
      assert s[..k] == [s[0]] + s[1..][..k'];
    }
  }

  lemma {:induction false} SumAppend<T>(f: T -> nat, a: seq<T>, b: seq<T>)
    ensures Sum(f, a + b) == Sum(f, a) + Sum(f, b)
  {
    if a == [] {
      assert a + b == b;
    } else {
      assert (a + b)[1..] == a[1..] + b;
      SumAppend(f, a[1..], b);
    }
  }

  /** Filtering keeps every copy of an element filed under k and nothing else. */
  lemma {:induction false} SelectCount<T, K>(key: T -> K, s: seq<T>, k: K, x: T)
    ensures multiset(Select(key, s, k))[x] == if key(x) == k then multiset(s)[x] else 0
  {
    if s != [] {
      SelectCount(key, s[1..], k, x);
      assert s == [s[0]] + s[1..];
    }
  }

  lemma {:induction false} SelectMap<T, U, K>(f: T -> U, keyT: T -> K, keyU: U -> K, s: seq<T>, k: K)
    requires forall x :: x in s ==> keyU(f(x)) == keyT(x)
    ensures Select(keyU, Map(f, s), k) == Map(f, Select(keyT, s, k))
  {
    if s != [] {
      assert forall x :: x in s[1..] ==> x in s;
      SelectMap(f, keyT, keyU, s[1..], k);
      assert Map(f, s)[1..] == Map(f, s[1..]);
    }
  }

  lemma SelectFront<T, K>(key: T -> K, x: T, y: T, rest: seq<T>, k: K)
    requires key(x) == key(y) == k
    ensures Select(key, [x, y] + rest, k) == [x, y] + Select(key, rest, k)
  {
    assert ([x, y] + rest)[1..] == [y] + rest && ([y] + rest)[1..] == rest;
    assert Select(key, [y] + rest, k) == [y] + Select(key, rest, k);
  }

  lemma {:induction false} SelectSnoc<T, K>(key: T -> K, s: seq<T>, x: T, k: K)
    ensures Select(key, s + [x], k) == Select(key, s, k) + if key(x) == k then [x] else []
  {
    if s == [] {
      assert s + [x] == [x] && [x][1..] == [];
    } else {
      assert (s + [x])[1..] == s[1..] + [x];
      SelectSnoc(key, s[1..], x, k);
    }
  }

  /** A filtered list is a subsequence: `at` says where its elements stood, in ascending order, leaving none out. */
  lemma {:induction false} SelectKeepsOrder<T, K>(key: T -> K, s: seq<T>, k: K) returns (at: seq<nat>)
    ensures |at| == |Select(key, s, k)|
    ensures forall i :: 0 <= i < |at| ==> at[i] < |s| && Select(key, s, k)[i] == s[at[i]]
    ensures forall i, j :: 0 <= i < j < |at| ==> at[i] < at[j]
    ensures forall n :: 0 <= n < |s| ==> (key(s[n]) == k <==> n in at)
    decreases |s|
  {
    at := [];
    if s != [] {
      var front, last := s[..|s| - 1], s[|s| - 1];
      at := SelectKeepsOrder(key, front, k);
      assert s == front + [last];
      SelectSnoc(key, front, last, k);
      if key(last) == k {
        at := at + [|s| - 1];
      }
    }
  }

  lemma {:induction false} SelectSameKey<T, K>(f: T -> K, g: T -> K, s: seq<T>, k: K)
    requires forall x :: x in s ==> f(x) == g(x)
    ensures Select(f, s, k) == Select(g, s, k)
  {
    if s != [] {
      assert forall x :: x in s[1..] ==> x in s;
      SelectSameKey(f, g, s[1..], k);
    }
  }

  /** Filtering by a coarser key first loses nothing that the finer key looks for. */
  lemma {:induction false} SelectTwice<T, K, L>(fine: T -> K, coarse: T -> L, s: seq<T>, k: K, l: L)
    requires forall x :: x in s && fine(x) == k ==> coarse(x) == l
    ensures Select(fine, Select(coarse, s, l), k) == Select(fine, s, k)
  {
    if s != [] {
      assert forall x :: x in s[1..] ==> x in s;
      SelectTwice(fine, coarse, s[1..], k, l);
      if coarse(s[0]) == l {
        assert ([s[0]] + Select(coarse, s[1..], l))[1..] == Select(coarse, s[1..], l);
      }
    }
  }

  /** Elements of a filtered list come from the list and carry the key. */
  lemma SelectMembers<T(!new), K>(key: T -> K, s: seq<T>, k: K)
    ensures forall x :: x in Select(key, s, k) <==> x in s && key(x) == k
  {
    forall x ensures x in Select(key, s, k) <==> x in s && key(x) == k {
      SelectCount(key, s, k, x);
      assert x in Select(key, s, k) <==> x in multiset(Select(key, s, k));
      assert x in s <==> x in multiset(s);
    }
  }

  lemma TakeOut<T>(s: seq<T>, k: nat)
    requires k < |s|
    ensures multiset(s) == multiset{s[k]} + multiset(s[..k] + s[k + 1..])
  {
    assert s == s[..k] + ([s[k]] + s[k + 1..]);
  }

  lemma TakeElement<T>(s: seq<T>, x: T) returns (others: seq<T>)
    requires x in s
    ensures multiset(s) == multiset{x} + multiset(others)
  {
    var k :| 0 <= k < |s| && s[k] == x;
    TakeOut(s, k);
    others := s[..k] + s[k + 1..];
  }

  lemma Cancel<T>(x: T, p: multiset<T>, q: multiset<T>)
    requires multiset{x} + p == multiset{x} + q
    ensures p == q
  {
    assert p == (multiset{x} + p) - multiset{x};
    assert q == (multiset{x} + q) - multiset{x};
  }

  lemma MapSlices<T, U>(f: T -> U, s: seq<T>, k: nat)
    requires k <= |s|
    ensures Map(f, s)[..k] == Map(f, s[..k])
    ensures Map(f, s)[k..] == Map(f, s[k..])
  {
    assert s == s[..k] + s[k..];
    MapAppend(f, s[..k], s[k..]);
  }

  lemma MapWithout<T, U>(f: T -> U, s: seq<T>, k: nat)
    requires k < |s|
    ensures Map(f, s)[..k] + Map(f, s)[k + 1..] == Map(f, s[..k] + s[k + 1..])
  {
    MapSlices(f, s, k);
    MapSlices(f, s, k + 1);
    MapAppend(f, s[..k], s[k + 1..]);
  }

  lemma MapTakeOut<T, U>(f: T -> U, s: seq<T>, k: nat)
    requires k < |s|
    ensures multiset(Map(f, s)) == multiset{f(s[k])} + multiset(Map(f, s[..k] + s[k + 1..]))
  {
    MapWithout(f, s, k);
    TakeOut(Map(f, s), k);
  }

  /** Two lists with the same elements: the head of one sits at some place in the other. */
  lemma MatchHead<T>(a: seq<T>, b: seq<T>) returns (k: nat)
    requires multiset(a) == multiset(b) && a != []
    ensures k < |b| && b[k] == a[0]
    ensures multiset(a[1..]) == multiset(b[..k] + b[k + 1..])
  {
    assert a[0] in multiset(b);
    k :| k < |b| && b[k] == a[0];
    TakeOut(a, 0);
    TakeOut(b, k);
    assert a[..0] + a[1..] == a[1..];
    Cancel(a[0], multiset(a[1..]), multiset(b[..k] + b[k + 1..]));
  }

  /** Two lists with the same images: the head of one has a partner in the other. */
  lemma MatchImage<T, U>(f: T -> U, a: seq<T>, b: seq<T>) returns (k: nat)
    requires multiset(Map(f, a)) == multiset(Map(f, b)) && a != []
    ensures k < |b| && f(b[k]) == f(a[0])
    ensures multiset(Map(f, a[1..])) == multiset(Map(f, b[..k] + b[k + 1..]))
  {
    k := MatchHead(Map(f, a), Map(f, b));
    assert Map(f, a)[1..] == Map(f, a[1..]);
    MapWithout(f, b, k);
  }

  lemma PutBack<T, U>(g: T -> U, a: seq<T>, b: seq<T>, k: nat)
    requires a != [] && k < |b| && g(b[k]) == g(a[0])
    requires multiset(Map(g, a[1..])) == multiset(Map(g, b[..k] + b[k + 1..]))
    ensures multiset(Map(g, a)) == multiset(Map(g, b))
  {
    MapTakeOut(g, b, k);
    MapTakeOut(g, a, 0);
    assert a[..0] + a[1..] == a[1..];
  }

  /** If equal f-images force equal g-images, lists with the same f-images have the same g-images. */
  lemma {:induction false} ImagesFollow<T, U, V>(f: T -> U, g: T -> V, a: seq<T>, b: seq<T>)
    requires multiset(Map(f, a)) == multiset(Map(f, b))
    requires forall x, y :: x in a && y in b && f(x) == f(y) ==> g(x) == g(y)
    ensures multiset(Map(g, a)) == multiset(Map(g, b))
    decreases |a|
  {
    if a == [] {
      assert b == [] by { assert |multiset(Map(f, b))| == 0; }
    } else {
      var k := MatchImage(f, a, b);
      var rest := b[..k] + b[k + 1..];
      assert forall x :: x in a[1..] ==> x in a;
      assert forall y :: y in rest ==> y in b;
      ImagesFollow(f, g, a[1..], rest);
      PutBack(g, a, b, k);
    }
  }
}
