/**
 A stable sort, standing in for Go's sort.SliceStable: insertion from the back,
 so that equal elements keep their order.
 */
module Sorting {
  import opened Common

  /** A strict weak order; ties are elements neither of which comes first. */
  ghost predicate StrictWeak<T(!new)>(less: (T, T) -> bool) {
    && (forall a :: !less(a, a))
    && (forall a, b, c :: less(a, b) && less(b, c) ==> less(a, c))
    && (forall a, b, c :: less(a, c) ==> less(a, b) || less(b, c))
  }

  /** No two different elements of s tie. */
  ghost predicate TotalOn<T(!new)>(s: seq<T>, less: (T, T) -> bool) {
    forall a, b :: a in s && b in s ==> less(a, b) || less(b, a) || a == b
  }

  ghost predicate SortedBy<T>(s: seq<T>, less: (T, T) -> bool) {
    forall i, j :: 0 <= i < j < |s| ==> !less(s[j], s[i])
  }

  function Insert<T>(x: T, s: seq<T>, less: (T, T) -> bool): (r: seq<T>)
    ensures |r| == |s| + 1
  {
    if s == [] || !less(s[0], x) then [x] + s else [s[0]] + Insert(x, s[1..], less)
  }

  function Sort<T>(s: seq<T>, less: (T, T) -> bool): (r: seq<T>)
    ensures |r| == |s|
  {
    if s == [] then [] else Insert(s[0], Sort(s[1..], less), less)
  }

  lemma {:induction false} InsertPermutes<T>(x: T, s: seq<T>, less: (T, T) -> bool)
    ensures multiset(Insert(x, s, less)) == multiset{x} + multiset(s)
  {
    if s != [] && less(s[0], x) {
      InsertPermutes(x, s[1..], less);
      assert s == [s[0]] + s[1..];
    }
  }

  lemma {:induction false} SortPermutes<T>(s: seq<T>, less: (T, T) -> bool)
    ensures multiset(Sort(s, less)) == multiset(s)
  {
    if s != [] {
      SortPermutes(s[1..], less);
      InsertPermutes(s[0], Sort(s[1..], less), less);
      assert s == [s[0]] + s[1..];
    }
  }

  lemma {:induction false} InsertSorts<T(!new)>(x: T, s: seq<T>, less: (T, T) -> bool)
    requires StrictWeak(less) && SortedBy(s, less)
    ensures SortedBy(Insert(x, s, less), less)
  {
    if s != [] && less(s[0], x) {
      InsertSorts(x, s[1..], less);
      InsertPermutes(x, s[1..], less);
      var r := Insert(x, s[1..], less);
      forall j | 0 <= j < |r| ensures !less(r[j], s[0]) {
        assert r[j] in multiset(r);
        if r[j] != x {
          assert r[j] in s[1..];
        }
      }
    } else if s != [] {
      var y := s[0];
      assert forall a :: less(a, x) ==> less(a, y) || less(y, x);
    }
  }

  lemma {:induction false} SortSorts<T(!new)>(s: seq<T>, less: (T, T) -> bool)
    requires StrictWeak(less)
    ensures SortedBy(Sort(s, less), less)
  {
    if s != [] {
      SortSorts(s[1..], less);
      InsertSorts(s[0], Sort(s[1..], less), less);
    }
  }

  /** Members of a sequence and of its multiset. */
  lemma {:induction false} SameMembers<T>(a: seq<T>, b: seq<T>, x: T)
    requires multiset(a) == multiset(b)
    ensures x in a <==> x in b
  {
    assert x in a <==> x in multiset(a);
    assert x in b <==> x in multiset(b);
  }

  lemma {:induction false} SameHead<T(!new)>(a: seq<T>, b: seq<T>, less: (T, T) -> bool)
    requires TotalOn(a, less) && a != [] && b != []
    requires SortedBy(a, less) && SortedBy(b, less)
    requires a[0] in b && b[0] in a
    ensures a[0] == b[0]
  {
    var i :| 0 <= i < |b| && b[i] == a[0];
    var j :| 0 <= j < |a| && a[j] == b[0];
    assert i == 0 || !less(b[i], b[0]);
    assert j == 0 || !less(a[j], a[0]);
  }

  lemma {:induction false} TailPermutes<T>(a: seq<T>, b: seq<T>)
    requires multiset(a) == multiset(b) && a != [] && b != [] && a[0] == b[0]
    ensures multiset(a[1..]) == multiset(b[1..])
  {
    assert a == [a[0]] + a[1..] && b == [b[0]] + b[1..];
    assert multiset(a[1..]) == multiset(a) - multiset{a[0]};
    assert multiset(b[1..]) == multiset(b) - multiset{b[0]};
  }

  lemma {:induction false} TailSorted<T(!new)>(a: seq<T>, less: (T, T) -> bool)
    requires SortedBy(a, less) && a != []
    ensures SortedBy(a[1..], less) && (TotalOn(a, less) ==> TotalOn(a[1..], less))
  {
  }

  /** Elements that do not tie have one sorted arrangement. */
  lemma {:induction false} SortedIsUnique<T(!new)>(a: seq<T>, b: seq<T>, less: (T, T) -> bool)
    requires TotalOn(a, less)
    requires SortedBy(a, less) && SortedBy(b, less)
    requires multiset(a) == multiset(b)
    ensures a == b
  {
    assert |multiset(a)| == |a| && |multiset(b)| == |b|;
    if a != [] {
      SameMembers(a, b, a[0]);
      SameMembers(a, b, b[0]);
      SameHead(a, b, less);
      TailPermutes(a, b);
      TailSorted(a, less);
      TailSorted(b, less);
      SortedIsUnique(a[1..], b[1..], less);
      assert a == [a[0]] + a[1..] && b == [b[0]] + b[1..];
    }
  }

  // ---------- stability ----------

  /** The elements that tie with x, in order. */
  function TiedWith<T>(s: seq<T>, less: (T, T) -> bool, x: T): seq<T> {
    if s == [] then []
    else (if !less(s[0], x) && !less(x, s[0]) then [s[0]] else []) + TiedWith(s[1..], less, x)
  }

  lemma {:induction false} InsertIsStable<T(!new)>(z: T, s: seq<T>, less: (T, T) -> bool, x: T)
    requires StrictWeak(less)
    ensures TiedWith(Insert(z, s, less), less, x) == TiedWith([z] + s, less, x)
  {
    assert ([z] + s)[1..] == s;
    if s != [] && less(s[0], z) {
      var y, rest := s[0], s[1..];
      InsertIsStable(z, rest, less, x);
      assert ([z] + rest)[1..] == rest;
      assert ([y] + Insert(z, rest, less))[1..] == Insert(z, rest, less);
      assert less(y, z) ==> less(y, x) || less(x, z);
    }
  }

  /** Equal elements keep their order: those that tie with x come out as they went in. */
  lemma {:induction false} SortIsStable<T(!new)>(s: seq<T>, less: (T, T) -> bool, x: T)
    requires StrictWeak(less)
    ensures TiedWith(Sort(s, less), less, x) == TiedWith(s, less, x)
  {
    if s != [] {
      var rest := Sort(s[1..], less);
      SortIsStable(s[1..], less, x);
      InsertIsStable(s[0], rest, less, x);
      assert ([s[0]] + rest)[1..] == rest;
    }
  }

  // ---------- sorting by a key ----------

  function Mapped<T, K>(s: seq<T>, key: T -> K): (r: seq<K>) {
    seq(|s|, i requires 0 <= i < |s| => key(s[i]))
  }

  /** The order on elements that an order on keys induces. */
  function On<T, K>(key: T -> K, less: (K, K) -> bool): (T, T) -> bool {
    (a: T, b: T) => less(key(a), key(b))
  }

  lemma {:induction false} OnIsWeak<T(!new), K(!new)>(key: T -> K, less: (K, K) -> bool)
    requires StrictWeak(less)
    ensures StrictWeak(On(key, less))
  {
    var l := On(key, less);
    assert forall a, b :: l(a, b) <==> less(key(a), key(b));
    forall a, b, c | l(a, c) ensures l(a, b) || l(b, c) {
      assert less(key(a), key(b)) || less(key(b), key(c));
    }
  }

  lemma {:induction false} InsertByKey<T, K>(x: T, s: seq<T>, key: T -> K, less: (K, K) -> bool)
    ensures Mapped(Insert(x, s, On(key, less)), key) == Insert(key(x), Mapped(s, key), less)
  {
    if s != [] && less(key(s[0]), key(x)) {
      InsertByKey(x, s[1..], key, less);
      assert Mapped(s, key)[1..] == Mapped(s[1..], key);
    }
  }

  /** Sorting by key and reading off the keys is sorting the keys. */
  lemma {:induction false} SortByKey<T, K>(s: seq<T>, key: T -> K, less: (K, K) -> bool)
    ensures Mapped(Sort(s, On(key, less)), key) == Sort(Mapped(s, key), less)
  {
    if s != [] {
      SortByKey(s[1..], key, less);
      InsertByKey(s[0], Sort(s[1..], On(key, less)), key, less);
      assert Mapped(s, key)[1..] == Mapped(s[1..], key);
    }
  }

  /** The first element of a list with key k. */
  function FirstWith<T, K(==)>(s: seq<T>, key: T -> K, k: K): Option<T> {
    if s == [] then None else if key(s[0]) == k then Some(s[0]) else FirstWith(s[1..], key, k)
  }

  lemma {:induction false} InsertKeepsFirst<T, K>(x: T, s: seq<T>, key: T -> K, less: (K, K) -> bool, k: K)
    requires !less(k, k)
    ensures FirstWith(Insert(x, s, On(key, less)), key, k) == if key(x) == k then Some(x) else FirstWith(s, key, k)
  {
    if s != [] && less(key(s[0]), key(x)) {
      var r := Insert(x, s[1..], On(key, less));
      InsertKeepsFirst(x, s[1..], key, less, k);
      assert ([s[0]] + r)[1..] == r;
    } else {
      assert ([x] + s)[1..] == s;
    }
  }

  /** Sorting by key leaves the first element of each key first of its key. */
  lemma {:induction false} SortKeepsFirst<T, K>(s: seq<T>, key: T -> K, less: (K, K) -> bool, k: K)
    requires !less(k, k)
    ensures FirstWith(Sort(s, On(key, less)), key, k) == FirstWith(s, key, k)
  {
    if s != [] {
      SortKeepsFirst(s[1..], key, less, k);
      InsertKeepsFirst(s[0], Sort(s[1..], On(key, less)), key, less, k);
    }
  }

  lemma {:induction false} TakenOut<T>(s: seq<T>, i: nat)
    requires i < |s|
    ensures multiset(s) == multiset{s[i]} + multiset(Without(s, i))
  {
    assert s == s[..i] + [s[i]] + s[i + 1..];
  }

  lemma {:induction false} MappedWithout<T, K>(s: seq<T>, i: nat, key: T -> K)
    requires i < |s|
    ensures Mapped(Without(s, i), key) == Without(Mapped(s, key), i)
  {
  }

  lemma {:induction false} MappedPermutes<T, K>(a: seq<T>, b: seq<T>, key: T -> K)
    requires multiset(a) == multiset(b)
    ensures multiset(Mapped(a, key)) == multiset(Mapped(b, key))
    decreases |a|
  {
    assert |multiset(a)| == |a| && |multiset(b)| == |b|;
    if a != [] {
      SameMembers(a, b, a[0]);
      var i :| 0 <= i < |b| && b[i] == a[0];
      TakenOut(a, 0);
      TakenOut(b, i);
      var a', b' := Without(a, 0), Without(b, i);
      assert multiset(a') == multiset(a) - multiset{a[0]} == multiset(b');
      MappedPermutes(a', b', key);
      MappedWithout(a, 0, key);
      MappedWithout(b, i, key);
      TakenOut(Mapped(a, key), 0);
      TakenOut(Mapped(b, key), i);
    }
  }

  // ---------- the positions of a list ----------

  function Indices(n: nat): seq<int> {
    seq(n, i => i)
  }

  lemma {:induction false} SeenTwice<T>(s: seq<T>, a: nat, b: nat)
    requires a < b < |s| && s[a] == s[b]
    ensures multiset(s)[s[a]] >= 2
  {
    assert s == s[..b] + s[b..];
    assert s[a] in s[..b] && s[b..][0] == s[b];
  }

  lemma {:induction false} IndicesOnce(n: nat, x: int)
    ensures multiset(Indices(n))[x] <= 1
    ensures multiset(Indices(n))[x] == 1 ==> 0 <= x < n
  {
    if n > 0 {
      IndicesOnce(n - 1, x);
      assert Indices(n) == Indices(n - 1) + [n - 1];
    }
  }

  lemma {:induction false} InRange(idx: seq<int>, n: nat)
    requires multiset(idx) == multiset(Indices(n))
    ensures |idx| == n && forall i :: 0 <= i < |idx| ==> 0 <= idx[i] < n
  {
    assert |multiset(idx)| == |idx| && |multiset(Indices(n))| == n;
    forall i | 0 <= i < |idx| ensures 0 <= idx[i] < n {
      assert idx[i] in multiset(idx);
      IndicesOnce(n, idx[i]);
    }
  }
}
