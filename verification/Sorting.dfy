/** The stable sort behind `toSorted` with a numeric comparison. */
module Sorting {

  datatype Keyed<+T> = Keyed(key: real, item: T)

  ghost predicate Sorted<T>(xs: seq<Keyed<T>>) {
    forall i, j :: 0 <= i < j < |xs| ==> xs[i].key <= xs[j].key
  }

  function Insert<T>(x: Keyed<T>, xs: seq<Keyed<T>>): seq<Keyed<T>> {
    if xs == [] || x.key <= xs[0].key then [x] + xs else [xs[0]] + Insert(x, xs[1..])
  }

  function StableSort<T>(xs: seq<Keyed<T>>): seq<Keyed<T>> {
    if xs == [] then [] else Insert(xs[0], StableSort(xs[1..]))
  }

  /** The elements whose key is `k`, in order. */
  function WithKey<T>(xs: seq<Keyed<T>>, k: real): seq<Keyed<T>> {
    if xs == [] then []
    else (if xs[0].key == k then [xs[0]] else []) + WithKey(xs[1..], k)
  }

  ghost predicate AllFrom<T>(xs: seq<Keyed<T>>, lo: real) {
    forall i :: 0 <= i < |xs| ==> lo <= xs[i].key
  }

  lemma {:induction false} InsertKeepsBound<T>(x: Keyed<T>, xs: seq<Keyed<T>>, lo: real)
    requires lo <= x.key && AllFrom(xs, lo)
    ensures AllFrom(Insert(x, xs), lo)
  {
    if xs != [] && x.key > xs[0].key {
      InsertKeepsBound(x, xs[1..], lo);
    }
  }

  lemma {:induction false} InsertSorts<T>(x: Keyed<T>, xs: seq<Keyed<T>>)
    requires Sorted(xs)
    ensures Sorted(Insert(x, xs))
  {
    if xs != [] && x.key > xs[0].key {
      InsertSorts(x, xs[1..]);
      InsertKeepsBound(x, xs[1..], xs[0].key);
    }
  }

  lemma {:induction false} InsertAdds<T>(x: Keyed<T>, xs: seq<Keyed<T>>)
    ensures multiset(Insert(x, xs)) == multiset{x} + multiset(xs)
  {
    if xs != [] && x.key > xs[0].key {
      InsertAdds(x, xs[1..]);
      assert xs == [xs[0]] + xs[1..];
      assert multiset(xs) == multiset{xs[0]} + multiset(xs[1..]);
    }
  }

  /** The sort returns its input's elements, each as often, in key order. */
  lemma {:induction false} SortSorts<T>(xs: seq<Keyed<T>>)
    ensures Sorted(StableSort(xs))
    ensures multiset(StableSort(xs)) == multiset(xs)
  {
    if xs != [] {
      SortSorts(xs[1..]);
      InsertSorts(xs[0], StableSort(xs[1..]));
      InsertAdds(xs[0], StableSort(xs[1..]));
      assert xs == [xs[0]] + xs[1..];
    }
  }

  lemma WithKeyCons<T>(x: Keyed<T>, xs: seq<Keyed<T>>, k: real)
    ensures WithKey([x] + xs, k) == (if x.key == k then [x] else []) + WithKey(xs, k)
  {
    assert ([x] + xs)[1..] == xs;
  }

  lemma {:induction false} InsertIsStable<T>(x: Keyed<T>, xs: seq<Keyed<T>>, k: real)
    requires Sorted(xs)
    ensures WithKey(Insert(x, xs), k) == (if x.key == k then [x] else []) + WithKey(xs, k)
  {
    if xs == [] || x.key <= xs[0].key {
      WithKeyCons(x, xs, k);
    } else {
      assert xs == [xs[0]] + xs[1..];
      WithKeyCons(xs[0], xs[1..], k);
      WithKeyCons(xs[0], Insert(x, xs[1..]), k);
      InsertIsStable(x, xs[1..], k);
    }
  }

  lemma {:induction false} OneKeyStays<T>(xs: seq<Keyed<T>>, k: real)
    requires forall i :: 0 <= i < |xs| ==> xs[i].key == k
    ensures StableSort(xs) == xs
  {
    if xs != [] {
      OneKeyStays(xs[1..], k);
      assert xs == [xs[0]] + xs[1..];
    }
  }

  /** Elements with equal keys keep their order. */
  lemma {:induction false} SortIsStable<T>(xs: seq<Keyed<T>>, k: real)
    ensures WithKey(StableSort(xs), k) == WithKey(xs, k)
  {
    if xs != [] {
      SortSorts(xs[1..]);
      SortIsStable(xs[1..], k);
      InsertIsStable(xs[0], StableSort(xs[1..]), k);
    }
  }
}
