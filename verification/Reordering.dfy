/** Rendering does not depend on the order a Spec presents its services or a service its routes. */
module Reordering {
  import opened Sorting
  import opened Strings
  import opened Backend
  import opened Render
  import Discovery

  /** The same service, its routes permuted or repeated. */
  ghost predicate SameButRoutes(s: ServiceSpec, t: ServiceSpec) {
    t == s.(routes := t.routes) && DestSet(s) == DestSet(t)
  }

  ghost predicate Alike(xs: seq<ServiceSpec>, ys: seq<ServiceSpec>) {
    |xs| == |ys| && forall i :: 0 <= i < |xs| ==> SameButRoutes(xs[i], ys[i])
  }

  lemma SameKey(s: ServiceSpec, t: ServiceSpec)
    requires SameButRoutes(s, t)
    ensures Names(s) == Names(t) && Key(s) == Key(t) && (Routed(s) <==> Routed(t))
  {}

  lemma SameGroup(s: ServiceSpec, t: ServiceSpec)
    requires SameButRoutes(s, t)
    ensures GroupOf(s) == GroupOf(t)
  {
    hide Key, Routed, Names;
    SameKey(s, t);
    assert IdentityPairs(s) == IdentityPairs(t) && StaticPairs(s) == StaticPairs(t);
  }

  lemma SameConds(s: ServiceSpec, t: ServiceSpec)
    requires SameButRoutes(s, t)
    ensures PrintedConds(s) == PrintedConds(t)
  {
    hide SeverityFloor;
    assert IdAtom(s) == IdAtom(t);
    assert Conds(s) == Conds(t) by {
      assert Map(s.drop, DropCond(s)) == Map(t.drop, DropCond(t));
    }
  }

  lemma SameReceiver(c: Codec, s: ServiceSpec, t: ServiceSpec)
    requires SameButRoutes(s, t)
    ensures SigHash(c, s) == SigHash(c, t) && PathOf(s) == PathOf(t)
    ensures Operators(c, s) == Operators(c, t)
  {
    OperatorsFromSignature(c, s, t);
  }

  lemma {:induction false} AlikeFilter(xs: seq<ServiceSpec>, ys: seq<ServiceSpec>, p: ServiceSpec -> bool)
    requires Alike(xs, ys) && forall s, t :: SameButRoutes(s, t) ==> p(s) == p(t)
    ensures Alike(Filter(xs, p), Filter(ys, p))
  {
    hide SameButRoutes;
    if |xs| > 0 {
      AlikeFilter(xs[1..], ys[1..], p);
    }
  }

  lemma {:induction false} AlikeInsert(x: ServiceSpec, xs: seq<ServiceSpec>, y: ServiceSpec, ys: seq<ServiceSpec>)
    requires SameButRoutes(x, y) && Alike(xs, ys)
    ensures Alike(Insert(x, xs, Discovery.ById), Insert(y, ys, Discovery.ById))
  {
    if |xs| > 0 {
      assert Discovery.ById(x, xs[0]) == Discovery.ById(y, ys[0]);
      AlikeInsert(x, xs[1..], y, ys[1..]);
    }
  }

  lemma {:induction false} AlikeSort(xs: seq<ServiceSpec>, ys: seq<ServiceSpec>)
    requires Alike(xs, ys)
    ensures Alike(Sort(xs, Discovery.ById), Sort(ys, Discovery.ById))
  {
    hide SameButRoutes;
    if |xs| > 0 {
      AlikeSort(xs[1..], ys[1..]);
      AlikeInsert(xs[0], Sort(xs[1..], Discovery.ById), ys[0], Sort(ys[1..], Discovery.ById));
    }
  }

  lemma AlikeKeys(xs: seq<ServiceSpec>, ys: seq<ServiceSpec>)
    requires Alike(xs, ys)
    ensures Keys(xs) == Keys(ys)
  {
    hide SameButRoutes, Key, Routed;
    forall i | 0 <= i < |xs| ensures Key(xs[i]) == Key(ys[i]) && (Routed(xs[i]) <==> Routed(ys[i])) {
      SameKey(xs[i], ys[i]);
    }
    forall k ensures k in Keys(xs) <==> k in Keys(ys) {
      if k in Keys(xs) {
        var s :| s in xs && Routed(s) && Key(s) == k;
        var i :| 0 <= i < |xs| && xs[i] == s;
        assert ys[i] in ys;
      }
      if k in Keys(ys) {
        var s :| s in ys && Routed(s) && Key(s) == k;
        var i :| 0 <= i < |ys| && ys[i] == s;
        assert xs[i] in xs;
      }
    }
  }

  lemma {:induction false} AlikeLastNames(xs: seq<ServiceSpec>, ys: seq<ServiceSpec>, k: string)
    requires Alike(xs, ys)
    ensures LastNames(xs, k) == LastNames(ys, k)
  {
    hide SameButRoutes, Key, Routed, Names;
    if |xs| > 0 {
      var n := |xs| - 1;
      SameKey(xs[n], ys[n]);
      AlikeLastNames(xs[..n], ys[..n], k);
    }
  }

  lemma AlikeHashes(c: Codec, xs: seq<ServiceSpec>, ys: seq<ServiceSpec>)
    requires Alike(xs, ys)
    ensures Hashes(c, xs) == Hashes(c, ys)
  {
    hide SameButRoutes, SigHash, PathOf, Operators;
    forall i | 0 <= i < |xs| ensures SigHash(c, xs[i]) == SigHash(c, ys[i]) { SameReceiver(c, xs[i], ys[i]); }
    forall h ensures h in Hashes(c, xs) <==> h in Hashes(c, ys) {
      if h in Hashes(c, xs) {
        var s :| s in xs && SigHash(c, s) == h;
        var i :| 0 <= i < |xs| && xs[i] == s;
        assert ys[i] in ys;
      }
      if h in Hashes(c, ys) {
        var s :| s in ys && SigHash(c, s) == h;
        var i :| 0 <= i < |ys| && ys[i] == s;
        assert xs[i] in xs;
      }
    }
  }

  lemma AlikeReceiver(c: Codec, xs: seq<ServiceSpec>, ys: seq<ServiceSpec>, n: string)
    requires Alike(xs, ys)
    ensures ReceiverNamed(c, xs, n) == ReceiverNamed(c, ys, n)
  {
    hide SameButRoutes, SigHash, PathOf, Operators;
    if |n| >= |FILELOG| {
      var h := n[|FILELOG|..];
      forall s, t | SameButRoutes(s, t) ensures HasHash(c, h)(s) == HasHash(c, h)(t) { SameReceiver(c, s, t); }
      AlikeFilter(xs, ys, HasHash(c, h));
      var ms, ns := Members(c, xs, h), Members(c, ys, h);
      forall i | 0 <= i < |ms| ensures PathOf(ms[i]) == PathOf(ns[i]) && Operators(c, ms[i]) == Operators(c, ns[i]) {
        SameReceiver(c, ms[i], ns[i]);
      }
      assert Map(ms, PathOf) == Map(ns, PathOf);
    }
  }

  lemma AlikeReceivers(c: Codec, xs: seq<ServiceSpec>, ys: seq<ServiceSpec>)
    requires Alike(xs, ys)
    ensures Hashes(c, xs) == Hashes(c, ys)
    ensures Receivers(c, xs, Hashes(c, xs)) == Receivers(c, ys, Hashes(c, ys))
  {
    hide Alike, ReceiverNamed, Hashes;
    AlikeHashes(c, xs, ys);
    forall n { AlikeReceiver(c, xs, ys, n); }
  }

  lemma AlikeProcessors(xs: seq<ServiceSpec>, ys: seq<ServiceSpec>)
    requires Alike(xs, ys)
    ensures Processors(xs) == Processors(ys) && IngestProcessors(xs) == IngestProcessors(ys)
  {
    hide SameButRoutes, GroupOf, PrintedConds;
    forall i | 0 <= i < |xs| ensures GroupOf(xs[i]) == GroupOf(ys[i]) { SameGroup(xs[i], ys[i]); }
    assert Map(xs, GroupOf) == Map(ys, GroupOf);
    AlikeConds(xs, ys);
  }

  lemma {:induction false} AlikeConds(xs: seq<ServiceSpec>, ys: seq<ServiceSpec>)
    requires Alike(xs, ys)
    ensures FlatMap(xs, PrintedConds) == FlatMap(ys, PrintedConds)
  {
    hide SameButRoutes, PrintedConds;
    if |xs| > 0 {
      SameConds(xs[0], ys[0]);
      AlikeConds(xs[1..], ys[1..]);
    }
  }

  lemma {:induction false} AlikeOutPipelines(c: Codec, xs: seq<ServiceSpec>, ys: seq<ServiceSpec>,
                                             dests: map<string, Destination>, keys: seq<string>)
    requires Alike(xs, ys)
    ensures OutPipelines(c, xs, dests, keys) == OutPipelines(c, ys, dests, keys)
  {
    hide Alike, LastNames, OutPipeline, PipeName;
    if |keys| > 0 {
      AlikeLastNames(xs, ys, keys[|keys| - 1]);
      AlikeOutPipelines(c, xs, ys, dests, keys[..|keys| - 1]);
    }
  }

  lemma AlikeReferenced(xs: seq<ServiceSpec>, ys: seq<ServiceSpec>)
    requires Alike(xs, ys)
    ensures ReferencedBy(xs) == ReferencedBy(ys)
  {
    hide Alike, LastNames, Keys;
    AlikeKeys(xs, ys);
    forall k { AlikeLastNames(xs, ys, k); }
  }

  lemma AlikeFull(b: Knobs, c: Codec, xs: seq<ServiceSpec>, ys: seq<ServiceSpec>, dests: map<string, Destination>)
    requires Alike(xs, ys)
    ensures Full(b, c, xs, dests) == Full(b, c, ys, dests)
  {
    hide Alike, Receivers, Hashes, Processors, IngestProcessors, EntryFor, Keys, OutPipelines, Exporters, ReferencedBy;
    AlikeKeys(xs, ys);
    AlikeReceivers(c, xs, ys);
    AlikeProcessors(xs, ys);
    AlikeOutPipelines(c, xs, ys, dests, SortedSet(Keys(xs)));
    AlikeReferenced(xs, ys);
  }

  lemma TailablePermuted(xs: seq<ServiceSpec>, ys: seq<ServiceSpec>)
    requires multiset(xs) == multiset(ys) && Discovery.DistinctIds(Filter(xs, IsTailable))
    ensures Sort(Filter(xs, IsTailable), Discovery.ById) == Sort(Filter(ys, IsTailable), Discovery.ById)
  {
    FilterPerm(xs, IsTailable);
    FilterPerm(ys, IsTailable);
    assert multiset(Filter(xs, IsTailable)) == multiset(Filter(ys, IsTailable));
    Discovery.SortByIdUnique(Filter(xs, IsTailable), Filter(ys, IsTailable));
  }

  /** Permute the services of a Spec, then permute or repeat any service's routes: compilation
      succeeds as before, with the very same configuration. */
  lemma RenderingOrderFree(b: Knobs, c: Codec, spec: Spec, other: Spec, permuted: seq<ServiceSpec>)
    requires Discovery.DistinctIds(Filter(spec.services, IsTailable))
    requires multiset(spec.services) == multiset(permuted) && Alike(permuted, other.services)
    requires spec.destinations == other.destinations
    ensures Renderable(spec) <==> Renderable(other)
    ensures Compiled(b, c, spec) == Compiled(b, c, other)
  {
    hide Alike, Full, Keys, ReferencedBy, Exportable;
    TailablePermuted(spec.services, permuted);
    assert forall s, t :: SameButRoutes(s, t) ==> IsTailable(s) == IsTailable(t);
    AlikeFilter(permuted, other.services, IsTailable);
    AlikeSort(Filter(permuted, IsTailable), Filter(other.services, IsTailable));
    AlikeKeys(Tailable(spec), Tailable(other));
    AlikeReferenced(Tailable(spec), Tailable(other));
    AlikeFull(b, c, Tailable(spec), Tailable(other), spec.destinations);
  }
}
