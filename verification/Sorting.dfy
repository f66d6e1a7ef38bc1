/** Sorting and de-duplication: what Go's sort package and seen-map loops compute. */
module Sorting {

  function Insert<T>(x: T, xs: seq<T>, le: (T, T) -> bool): seq<T> {
    if |xs| == 0 || le(x, xs[0]) then [x] + xs else [xs[0]] + Insert(x, xs[1..], le)
  }

  /** A stable insertion sort. Go's sort.Slice is not stable; wherever ties matter the
      callers vary the input order instead. */
  function Sort<T>(xs: seq<T>, le: (T, T) -> bool): seq<T> {
    if |xs| == 0 then [] else Insert(xs[0], Sort(xs[1..], le), le)
  }

  ghost predicate Linear<T(!new)>(le: (T, T) -> bool) {
    && (forall a, b :: le(a, b) || le(b, a))
    && (forall a, b, c :: le(a, b) && le(b, c) ==> le(a, c))
  }

  ghost predicate Ordered<T>(xs: seq<T>, le: (T, T) -> bool) {
    forall i, j :: 0 <= i < j < |xs| ==> le(xs[i], xs[j])
  }

  ghost predicate NoDup<T>(xs: seq<T>) {
    forall i, j :: 0 <= i < j < |xs| ==> xs[i] != xs[j]
  }

  ghost function Elems<T>(xs: seq<T>): set<T> { set x | x in xs }

  lemma {:induction false} InsertPerm<T>(x: T, xs: seq<T>, le: (T, T) -> bool)
    ensures multiset(Insert(x, xs, le)) == multiset{x} + multiset(xs)
  {
    if |xs| > 0 && !le(x, xs[0]) {
      InsertPerm(x, xs[1..], le);
      assert xs == [xs[0]] + xs[1..];
    }
  }

  lemma {:induction false} SortPerm<T>(xs: seq<T>, le: (T, T) -> bool)
    ensures multiset(Sort(xs, le)) == multiset(xs)
  {
    if |xs| > 0 {
      SortPerm(xs[1..], le);
      InsertPerm(xs[0], Sort(xs[1..], le), le);
      assert xs == [xs[0]] + xs[1..];
    }
  }

  lemma {:induction false} InsertOrdered<T(!new)>(x: T, xs: seq<T>, le: (T, T) -> bool)
    requires Linear(le) && Ordered(xs, le)
    ensures Ordered(Insert(x, xs, le), le)
  {
    if |xs| > 0 && !le(x, xs[0]) {
      InsertOrdered(x, xs[1..], le);
      var rest := Insert(x, xs[1..], le);
      InsertPerm(x, xs[1..], le);
      forall j | 0 <= j < |rest| ensures le(xs[0], rest[j]) {
        assert rest[j] in multiset(rest);
        assert rest[j] == x || rest[j] in xs[1..];
      }
    }
  }

  lemma {:induction false} SortOrdered<T(!new)>(xs: seq<T>, le: (T, T) -> bool)
    requires Linear(le)
    ensures Ordered(Sort(xs, le), le)
  {
    if |xs| > 0 {
      SortOrdered(xs[1..], le);
      InsertOrdered(xs[0], Sort(xs[1..], le), le);
    }
  }

  /** Two ordered arrangements of the same elements agree, when the order separates them. */
  lemma {:induction false} OrderedUnique<T(!new)>(xs: seq<T>, ys: seq<T>, le: (T, T) -> bool)
    requires Ordered(xs, le) && Ordered(ys, le)
    requires multiset(xs) == multiset(ys)
    requires forall a, b :: a in xs && b in xs && le(a, b) && le(b, a) ==> a == b
    ensures xs == ys
  {
    SameElems(xs, ys);
    assert |multiset(xs)| == |multiset(ys)|;
    if |xs| > 0 {
      FirstUnique(xs, ys, le);
      TailMultiset(xs);
      TailMultiset(ys);
      OrderedUnique(xs[1..], ys[1..], le);
      assert xs == [xs[0]] + xs[1..] && ys == [ys[0]] + ys[1..];
    }
  }

  lemma TailMultiset<T>(xs: seq<T>)
    requires |xs| > 0
    ensures multiset(xs[1..]) == multiset(xs) - multiset{xs[0]}
  {
    assert xs == [xs[0]] + xs[1..];
  }

  lemma FirstUnique<T(!new)>(xs: seq<T>, ys: seq<T>, le: (T, T) -> bool)
    requires Ordered(xs, le) && Ordered(ys, le) && |xs| > 0 && |ys| > 0
    requires xs[0] in ys && ys[0] in xs
    requires forall a, b :: a in xs && b in xs && le(a, b) && le(b, a) ==> a == b
    ensures xs[0] == ys[0]
  {
    var i :| 0 <= i < |ys| && ys[i] == xs[0];
    var j :| 0 <= j < |xs| && xs[j] == ys[0];
    if i > 0 && j > 0 {
      assert le(xs[0], xs[j]) && le(ys[0], ys[i]);
    }
  }

  lemma SameElems<T(!new)>(xs: seq<T>, ys: seq<T>)
    requires multiset(xs) == multiset(ys)
    ensures forall x :: x in xs <==> x in ys
  {
    forall x ensures x in xs <==> x in ys {
      assert x in xs <==> x in multiset(xs);
      assert x in ys <==> x in multiset(ys);
    }
  }

  lemma {:induction false} NoDupMultiset<T>(xs: seq<T>)
    ensures NoDup(xs) <==> multiset(xs) == multiset(Elems(xs))
  {
    if |xs| > 0 {
      var x, rest := xs[0], xs[1..];
      assert xs == [x] + rest;
      NoDupMultiset(rest);
      NoDupCons(x, rest);
      if x in rest {
        assert x in multiset(rest) && multiset(xs)[x] == 1 + multiset(rest)[x];
        assert multiset(Elems(xs))[x] <= 1;
      } else {
        assert Elems(xs) == {x} + Elems(rest);
        assert multiset(Elems(xs)) == multiset{x} + multiset(Elems(rest));
        if multiset(xs) == multiset(Elems(xs)) {
          assert multiset(rest) == multiset(xs) - multiset{x};
        }
      }
    }
  }

  lemma NoDupCons<T>(x: T, rest: seq<T>)
    ensures NoDup([x] + rest) <==> x !in rest && NoDup(rest)
  {
    if x in rest {
      var k :| 0 <= k < |rest| && rest[k] == x;
      assert ([x] + rest)[0] == ([x] + rest)[k + 1];
    }
    if NoDup([x] + rest) {
      assert forall i :: 0 <= i < |rest| ==> rest[i] == ([x] + rest)[i + 1];
    }
  }

  lemma PermKeepsNoDup<T(!new)>(xs: seq<T>, ys: seq<T>)
    requires multiset(xs) == multiset(ys) && NoDup(xs)
    ensures NoDup(ys)
  {
    NoDupMultiset(xs);
    NoDupMultiset(ys);
    SameElems(xs, ys);
    assert Elems(xs) == Elems(ys);
  }

  /** The elements of `xs` in order of first occurrence, skipping those in `seen`. */
  function Dedup<T(==)>(xs: seq<T>, seen: set<T>): seq<T> {
    if |xs| == 0 then []
    else if xs[0] in seen then Dedup(xs[1..], seen)
    else [xs[0]] + Dedup(xs[1..], seen + {xs[0]})
  }

  lemma {:induction false} DedupElems<T(!new)>(xs: seq<T>, seen: set<T>)
    ensures NoDup(Dedup(xs, seen))
    ensures forall x :: x in Dedup(xs, seen) <==> x in xs && x !in seen
  {
    if |xs| > 0 {
      assert xs == [xs[0]] + xs[1..];
      if xs[0] in seen {
        DedupElems(xs[1..], seen);
      } else {
        DedupElems(xs[1..], seen + {xs[0]});
      }
    }
  }

  /** One more element at the end: the step of every seen-map loop. */
  lemma {:induction false} DedupSnoc<T>(xs: seq<T>, y: T, seen: set<T>)
    ensures Dedup(xs + [y], seen) ==
            Dedup(xs, seen) + (if y in seen || y in xs then [] else [y])
  {
    if |xs| == 0 {
      assert xs + [y] == [y];
    } else {
      assert (xs + [y])[1..] == xs[1..] + [y];
      assert xs == [xs[0]] + xs[1..];
      DedupSnoc(xs[1..], y, if xs[0] in seen then seen else seen + {xs[0]});
    }
  }

  function FlatMap<A, B>(xs: seq<A>, f: A -> seq<B>): seq<B> {
    if |xs| == 0 then [] else f(xs[0]) + FlatMap(xs[1..], f)
  }

  function Map<A, B>(xs: seq<A>, f: A -> B): (ys: seq<B>)
    ensures |ys| == |xs|
    ensures forall i :: 0 <= i < |xs| ==> ys[i] == f(xs[i])
  {
    seq(|xs|, i requires 0 <= i < |xs| => f(xs[i]))
  }

  function Filter<T(!new)>(xs: seq<T>, p: T -> bool): (r: seq<T>)
    ensures forall x :: x in r <==> x in xs && p(x)
  {
    if |xs| == 0 then []
    else if p(xs[0]) then [xs[0]] + Filter(xs[1..], p)
    else Filter(xs[1..], p)
  }

  lemma {:induction false} FilterSnoc<T(!new)>(xs: seq<T>, y: T, p: T -> bool)
    ensures Filter(xs + [y], p) == Filter(xs, p) + (if p(y) then [y] else [])
  {
    if |xs| == 0 {
      assert xs + [y] == [y];
    } else {
      assert (xs + [y])[1..] == xs[1..] + [y];
      FilterSnoc(xs[1..], y, p);
    }
  }

  lemma {:induction false} FilterPerm<T(!new)>(xs: seq<T>, p: T -> bool)
    ensures forall x :: multiset(Filter(xs, p))[x] == if p(x) then multiset(xs)[x] else 0
  {
    if |xs| > 0 {
      assert xs == [xs[0]] + xs[1..];
      FilterPerm(xs[1..], p);
    }
  }

  lemma {:induction false} FilterOrdered<T(!new)>(xs: seq<T>, p: T -> bool, le: (T, T) -> bool)
    requires Ordered(xs, le)
    ensures Ordered(Filter(xs, p), le)
  {
    if |xs| > 0 {
      FilterOrdered(xs[1..], p, le);
      var rest := Filter(xs[1..], p);
      forall j | 0 <= j < |rest| ensures le(xs[0], rest[j]) {
        assert rest[j] in rest;
        assert rest[j] in xs[1..];
      }
    }
  }

  lemma FlatMapSingle<A, B>(x: A, f: A -> seq<B>)
    ensures FlatMap([x], f) == f(x)
  {
    assert [x][1..] == [];
  }

  lemma {:induction false} FlatMapNone<A, B>(xs: seq<A>, f: A -> seq<B>)
    requires forall x :: x in xs ==> f(x) == []
    ensures FlatMap(xs, f) == []
  {
    if |xs| > 0 {
      FlatMapNone(xs[1..], f);
    }
  }

  /** Only one element contributes, so the whole traversal yields what that element yields. */
  lemma {:induction false} FlatMapOne<A, B>(xs: seq<A>, f: A -> seq<B>, x: A)
    requires NoDup(xs) && x in xs
    requires forall y :: y in xs && y != x ==> f(y) == []
    ensures FlatMap(xs, f) == f(x)
  {
    assert xs == [xs[0]] + xs[1..];
    if xs[0] == x {
      FlatMapNone(xs[1..], f);
    } else {
      FlatMapOne(xs[1..], f, x);
    }
  }

  lemma {:induction false} FlatMapSnoc<A, B>(xs: seq<A>, y: A, f: A -> seq<B>)
    ensures FlatMap(xs + [y], f) == FlatMap(xs, f) + f(y)
  {
    if |xs| == 0 {
      assert xs + [y] == [y];
    } else {
      assert (xs + [y])[1..] == xs[1..] + [y];
      FlatMapSnoc(xs[1..], y, f);
    }
  }

  lemma {:induction false} FlatMapElems<A(!new), B(!new)>(xs: seq<A>, f: A -> seq<B>)
    ensures forall b :: b in FlatMap(xs, f) <==> exists x :: x in xs && b in f(x)
  {
    if |xs| > 0 {
      assert xs == [xs[0]] + xs[1..];
      FlatMapElems(xs[1..], f);
    }
  }

  lemma {:induction false} FlatMapCong<A, B>(xs: seq<A>, f: A -> seq<B>, g: A -> seq<B>)
    requires forall x :: x in xs ==> f(x) == g(x)
    ensures FlatMap(xs, f) == FlatMap(xs, g)
  {
    if |xs| > 0 {
      FlatMapCong(xs[1..], f, g);
    }
  }

  lemma {:induction false} FlatMapConcat<A, B>(xs: seq<A>, ys: seq<A>, f: A -> seq<B>)
    ensures FlatMap(xs + ys, f) == FlatMap(xs, f) + FlatMap(ys, f)
  {
    if |xs| == 0 {
      assert xs + ys == ys;
    } else {
      assert (xs + ys)[1..] == xs[1..] + ys;
      FlatMapConcat(xs[1..], ys, f);
    }
  }

  lemma FlatMapCons<A, B>(x: A, xs: seq<A>, f: A -> seq<B>)
    ensures FlatMap([x] + xs, f) == f(x) + FlatMap(xs, f)
  {
    assert ([x] + xs)[1..] == xs;
  }

  lemma FlatMapRemove<A, B>(ys: seq<A>, i: nat, f: A -> seq<B>)
    requires i < |ys|
    ensures multiset(FlatMap(ys, f)) == multiset(f(ys[i])) + multiset(FlatMap(ys[..i] + ys[i + 1..], f))
  {
    hide FlatMap;
    var head, tail := ys[..i], ys[i + 1..];
    assert ys == head + ([ys[i]] + tail);
    FlatMapCons(ys[i], tail, f);
    FlatMapConcat(head, tail, f);
    FlatMapConcat(head, [ys[i]] + tail, f);
  }

  lemma RemoveMultiset<A>(ys: seq<A>, i: nat)
    requires i < |ys|
    ensures multiset(ys[..i] + ys[i + 1..]) == multiset(ys) - multiset{ys[i]}
  {
    assert ys == ys[..i] + ([ys[i]] + ys[i + 1..]);
  }

  /** Traversing the same elements in another order yields the same results, reordered. */
  lemma {:induction false} FlatMapPerm<A, B>(xs: seq<A>, ys: seq<A>, f: A -> seq<B>)
    requires multiset(xs) == multiset(ys)
    ensures multiset(FlatMap(xs, f)) == multiset(FlatMap(ys, f))
  {
    if |xs| == 0 {
      assert |multiset(ys)| == 0;
    } else {
      assert xs[0] in multiset(xs) && xs[0] in multiset(ys);
      var i :| 0 <= i < |ys| && ys[i] == xs[0];
      FlatMapRemove(ys, i, f);
      RemoveMultiset(ys, i);
      TailMultiset(xs);
      FlatMapPerm(xs[1..], ys[..i] + ys[i + 1..], f);
    }
  }
}
