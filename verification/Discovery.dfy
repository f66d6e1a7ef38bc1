/** internal/discovery/discovery.go: the whole fleet, one container at a time. */
module Discovery {
  import opened Wrappers
  import opened Sorting
  import opened Strings
  import opened Backend
  import opened Config
  import opened Labels
  import opened Fields
  import opened Host
  import opened Resolve

  predicate ById(a: ServiceSpec, b: ServiceSpec) { StrLe(a.containerID, b.containerID) }

  lemma ByIdLinear()
    ensures Linear(ById)
  {
    StrLeLinear();
  }

  ghost predicate DistinctIds(xs: seq<ServiceSpec>) {
    forall i, j :: 0 <= i < j < |xs| ==> xs[i].containerID != xs[j].containerID
  }

  /** With distinct ids, sorting depends only on the elements. */
  lemma SortByIdUnique(xs: seq<ServiceSpec>, ys: seq<ServiceSpec>)
    requires multiset(xs) == multiset(ys) && DistinctIds(xs)
    ensures Sort(xs, ById) == Sort(ys, ById)
  {
    ByIdLinear();
    SortPerm(xs, ById);
    SortPerm(ys, ById);
    SortOrdered(xs, ById);
    SortOrdered(ys, ById);
    SameElems(Sort(xs, ById), xs);
    forall a, b | a in Sort(xs, ById) && b in Sort(xs, ById) && ById(a, b) && ById(b, a) ensures a == b {
      StrLeAntisym(a.containerID, b.containerID);
    }
    OrderedUnique(Sort(xs, ById), Sort(ys, ById), ById);
  }

  /** A listed container together with what its inspection answered. */
  datatype Seen = Seen(listed: Container, answer: Option<Container>)

  function CandidateOf(c: Container): Candidate {
    Candidate(c.id, c.name, c.labels, c.project, c.service, c.image, c.logDriver)
  }

  predicate OptedIn(c: Container) { RawBool(c.labels, "enable") }

  ghost function Contribution(f: Seen, cfg: Config, selfID: string, env: Env): Outcome {
    if !OptedIn(f.listed) then Outcome(None, [])
    else
      match f.answer
      case None => Outcome(None, [Diagnostic(f.listed.id, f.listed.name, SevWarning, InspectFailed)])
      case Some(full) => Resolution(CandidateOf(full), cfg, selfID, env)
  }

  ghost function ServiceFrom(cfg: Config, selfID: string, env: Env): Seen -> seq<ServiceSpec> {
    (f: Seen) =>
      var o := Contribution(f, cfg, selfID, env);
      if o.spec.Some? then [o.spec.value] else []
  }

  ghost function DiagsFrom(cfg: Config, selfID: string, env: Env): Seen -> seq<Diagnostic> {
    (f: Seen) => Contribution(f, cfg, selfID, env).diags
  }

  function Probe(f: Seen): seq<Event> {
    if OptedIn(f.listed) then [Inspected(f.listed.id, f.answer)] else []
  }

  /** The services of a fleet, sorted by container id. */
  ghost function ServicesOf(fleet: seq<Seen>, cfg: Config, selfID: string, env: Env): seq<ServiceSpec> {
    Sort(FlatMap(fleet, ServiceFrom(cfg, selfID, env)), ById)
  }

  function ListedOf(f: Seen): Container { f.listed }

  datatype Found = Found(services: seq<ServiceSpec>, diags: seq<Diagnostic>)

  ghost predicate Discovered(fleet: seq<Seen>, cfg: Config, selfID: string, env: Env, found: Found) {
    && found.services == ServicesOf(fleet, cfg, selfID, env)
    && found.diags == FlatMap(fleet, DiagsFrom(cfg, selfID, env))
  }

  /** Discover fails only when the listing does. It inspects exactly the opted-in containers,
      once each and in listing order. */
  method Discover(host: Host, cfg: Config, selfID: string, env: Env)
      returns (r: Option<Found>, ghost fleet: seq<Seen>)
    requires Enumerates(env.order)
    modifies host`trace, host`now
    ensures r.None? ==> host.trace == old(host.trace) + [Listed(None)]
    ensures r.Some? ==> Discovered(fleet, cfg, selfID, env, r.value)
    ensures r.Some? ==>
      host.trace == old(host.trace) + ([Listed(Some(Map(fleet, ListedOf)))] + FlatMap(fleet, Probe))
  {
    hide Contribution, FlatMap, ServiceFrom, DiagsFrom, Probe;
    fleet := [];
    FleetNone(cfg, selfID, env);
    var listing := host.List();
    if listing.None? {
      return None, [];
    }
    var containers := listing.value;
    var specs: seq<ServiceSpec> := [];
    var diags: seq<Diagnostic> := [];
    ghost var before := host.trace;
    for i := 0 to |containers|
      invariant Map(fleet, ListedOf) == containers[..i]
      invariant specs == FlatMap(fleet, ServiceFrom(cfg, selfID, env))
      invariant diags == FlatMap(fleet, DiagsFrom(cfg, selfID, env))
      invariant host.trace == before + FlatMap(fleet, Probe)
    {
      ghost var f: Seen;
      var outcome: Outcome;
      outcome, f := Visit(host, containers[i], cfg, selfID, env);
      FleetSnoc(fleet, f, cfg, selfID, env);
      diags := diags + outcome.diags;
      if outcome.spec.Some? {
        specs := specs + [outcome.spec.value];
      }
      fleet := fleet + [f];
      assert containers[..i + 1] == containers[..i] + [containers[i]];
    }
    assert containers[..|containers|] == containers;
    r := Some(Found(Sort(specs, ById), diags));
  }

  lemma FleetSnoc(fleet: seq<Seen>, f: Seen, cfg: Config, selfID: string, env: Env)
    ensures var o := Contribution(f, cfg, selfID, env);
      FlatMap(fleet + [f], ServiceFrom(cfg, selfID, env))
      == FlatMap(fleet, ServiceFrom(cfg, selfID, env)) + (if o.spec.Some? then [o.spec.value] else [])
    ensures FlatMap(fleet + [f], DiagsFrom(cfg, selfID, env))
            == FlatMap(fleet, DiagsFrom(cfg, selfID, env)) + Contribution(f, cfg, selfID, env).diags
    ensures FlatMap(fleet + [f], Probe) == FlatMap(fleet, Probe) + Probe(f)
    ensures Map(fleet + [f], ListedOf) == Map(fleet, ListedOf) + [f.listed]
  {
    hide Contribution;
    FlatMapSnoc(fleet, f, ServiceFrom(cfg, selfID, env));
    FlatMapSnoc(fleet, f, DiagsFrom(cfg, selfID, env));
    FlatMapSnoc(fleet, f, Probe);
  }

  lemma FleetNone(cfg: Config, selfID: string, env: Env)
    ensures FlatMap([], ServiceFrom(cfg, selfID, env)) == []
    ensures FlatMap([], DiagsFrom(cfg, selfID, env)) == []
    ensures FlatMap([], Probe) == []
  {}

  /** One turn of Discover's loop: the cheap gate, the inspection, the resolution. */
  method Visit(host: Host, c: Container, cfg: Config, selfID: string, env: Env)
      returns (outcome: Outcome, ghost f: Seen)
    requires Enumerates(env.order)
    modifies host`trace, host`now
    ensures f.listed == c && outcome == Contribution(f, cfg, selfID, env)
    ensures host.trace == old(host.trace) + Probe(f)
  {
    if !OptedIn(c) {
      return Outcome(None, []), Seen(c, None);
    }
    var answer := host.Inspect(c.id);
    f := Seen(c, answer);
    if answer.None? {
      return Outcome(None, [Diagnostic(c.id, c.name, SevWarning, InspectFailed)]), f;
    }
    var spec, diags := Resolve.Resolve(CandidateOf(answer.value), cfg, selfID, env);
    outcome := Outcome(spec, diags);
  }

  // ----- order, isolation, accounting -----

  /** Each container is listed once, and inspecting an id answers for that id. */
  ghost predicate IdsAgree(fleet: seq<Seen>) {
    && (forall i, j :: 0 <= i < j < |fleet| ==> fleet[i].listed.id != fleet[j].listed.id)
    && (forall f :: f in fleet && f.answer.Some? ==> f.answer.value.id == f.listed.id)
  }

  /** Nothing was relabelled between the listing and the inspection. */
  ghost predicate LabelsAgree(fleet: seq<Seen>) {
    forall f :: f in fleet && f.answer.Some? ==> f.answer.value.labels == f.listed.labels
  }

  /** No container of the fleet spells a drop index twice with different patterns. */
  ghost predicate FleetTiesAgree(fleet: seq<Seen>) {
    forall f :: f in fleet && f.answer.Some? && Normalized(f.answer.value.labels).Ok? ==>
      TiesAgree(Normalized(f.answer.value.labels).value, "drop")
  }

  lemma ContributionOrderFree(f: Seen, cfg: Config, selfID: string, e1: Env, e2: Env)
    requires Enumerates(e1.order) && Enumerates(e2.order) && e1.regexOK == e2.regexOK
    requires FleetTiesAgree([f])
    ensures Contribution(f, cfg, selfID, e1) == Contribution(f, cfg, selfID, e2)
  {
    assert f in [f];
    if f.answer.Some? && Normalized(f.answer.value.labels).Ok? {
      AssembledOrderFree(CandidateOf(f.answer.value), Normalized(f.answer.value.labels).value, cfg, e1, e2);
    }
  }

  lemma AssembledOrderFree(cand: Candidate, norm: map<string, string>, cfg: Config, e1: Env, e2: Env)
    requires Enumerates(e1.order) && Enumerates(e2.order) && e1.regexOK == e2.regexOK
    requires TiesAgree(norm, "drop")
    ensures Assembled(cand, norm, cfg, e1) == Assembled(cand, norm, cfg, e2)
  {
    IndexedOrderFree(norm, "drop", e1.order(norm.Keys), e2.order(norm.Keys));
  }

  lemma OwnService(f: Seen, cfg: Config, selfID: string, env: Env)
    requires f.answer.Some? ==> f.answer.value.id == f.listed.id
    ensures var g := ServiceFrom(cfg, selfID, env);
      forall s :: s in g(f) ==> s.containerID == f.listed.id && g(f) == [s]
  {
    hide Resolution;
    if f.answer.Some? {
      ResolutionAccounts(CandidateOf(f.answer.value), cfg, selfID, env);
    }
  }

  lemma ConcatDistinct(xs: seq<ServiceSpec>, ys: seq<ServiceSpec>)
    requires DistinctIds(xs) && DistinctIds(ys)
    requires forall x, y :: x in xs && y in ys ==> x.containerID != y.containerID
    ensures DistinctIds(xs + ys)
  {
    forall i, j | 0 <= i < j < |xs + ys| ensures (xs + ys)[i].containerID != (xs + ys)[j].containerID {
      if i < |xs| <= j {
        assert (xs + ys)[i] in xs && (xs + ys)[j] in ys;
      }
    }
  }

  lemma {:induction false} ServiceIds(fleet: seq<Seen>, cfg: Config, selfID: string, env: Env)
    requires IdsAgree(fleet)
    ensures forall s :: s in FlatMap(fleet, ServiceFrom(cfg, selfID, env)) ==>
      exists f :: f in fleet && f.listed.id == s.containerID && ServiceFrom(cfg, selfID, env)(f) == [s]
    ensures DistinctIds(FlatMap(fleet, ServiceFrom(cfg, selfID, env)))
  {
    hide Contribution;
    if |fleet| > 0 {
      var g := ServiceFrom(cfg, selfID, env);
      assert fleet == [fleet[0]] + fleet[1..];
      ServiceIds(fleet[1..], cfg, selfID, env);
      OwnService(fleet[0], cfg, selfID, env);
      ConcatDistinct(g(fleet[0]), FlatMap(fleet[1..], g));
    }
  }

  /** The services depend only on which containers there are: not on the order they are listed
      in, nor on the order any Go map is walked in. */
  lemma DiscoveryOrderFree(fleet: seq<Seen>, other: seq<Seen>, cfg: Config, selfID: string, e1: Env, e2: Env)
    requires IdsAgree(fleet) && FleetTiesAgree(fleet) && multiset(fleet) == multiset(other)
    requires Enumerates(e1.order) && Enumerates(e2.order) && e1.regexOK == e2.regexOK
    ensures ServicesOf(fleet, cfg, selfID, e1) == ServicesOf(other, cfg, selfID, e2)
  {
    var g1, g2 := ServiceFrom(cfg, selfID, e1), ServiceFrom(cfg, selfID, e2);
    SameElems(fleet, other);
    forall f | f in other ensures g1(f) == g2(f) {
      assert f in fleet;
      ContributionOrderFree(f, cfg, selfID, e1, e2);
    }
    FlatMapCong(other, g1, g2);
    FlatMapPerm(fleet, other, g1);
    ServiceIds(fleet, cfg, selfID, e1);
    SortByIdUnique(FlatMap(fleet, g1), FlatMap(other, g1));
  }

  function NotListed(id: string): Seen -> bool { (f: Seen) => f.listed.id != id }
  function NotService(id: string): ServiceSpec -> bool { (s: ServiceSpec) => s.containerID != id }

  lemma {:induction false} FilterConcat(xs: seq<ServiceSpec>, ys: seq<ServiceSpec>, p: ServiceSpec -> bool)
    ensures Filter(xs + ys, p) == Filter(xs, p) + Filter(ys, p)
  {
    if |xs| == 0 {
      assert xs + ys == ys;
    } else {
      assert (xs + ys)[1..] == xs[1..] + ys;
      FilterConcat(xs[1..], ys, p);
    }
  }

  lemma OwnFiltered(f: Seen, cfg: Config, selfID: string, env: Env, id: string)
    requires f.answer.Some? ==> f.answer.value.id == f.listed.id
    ensures Filter(ServiceFrom(cfg, selfID, env)(f), NotService(id))
            == if f.listed.id == id then [] else ServiceFrom(cfg, selfID, env)(f)
  {
    hide Contribution;
    OwnService(f, cfg, selfID, env);
    var own := ServiceFrom(cfg, selfID, env)(f);
    if |own| > 0 {
      assert own[0] in own && own == [own[0]] && own[1..] == [];
    }
  }

  lemma {:induction false} OthersOnly(fleet: seq<Seen>, cfg: Config, selfID: string, env: Env, id: string)
    requires IdsAgree(fleet)
    ensures Filter(FlatMap(fleet, ServiceFrom(cfg, selfID, env)), NotService(id))
            == FlatMap(Filter(fleet, NotListed(id)), ServiceFrom(cfg, selfID, env))
  {
    hide ServiceFrom, NotService;
    if |fleet| > 0 {
      var g := ServiceFrom(cfg, selfID, env);
      assert fleet == [fleet[0]] + fleet[1..];
      OthersOnly(fleet[1..], cfg, selfID, env, id);
      FilterConcat(g(fleet[0]), FlatMap(fleet[1..], g), NotService(id));
      OwnFiltered(fleet[0], cfg, selfID, env, id);
      FlatMapCons(fleet[0], Filter(fleet[1..], NotListed(id)), g);
    }
  }

  lemma FilterSort(xs: seq<ServiceSpec>, p: ServiceSpec -> bool)
    requires DistinctIds(xs)
    ensures Filter(Sort(xs, ById), p) == Sort(Filter(xs, p), ById)
  {
    ByIdLinear();
    SortPerm(xs, ById);
    SortOrdered(xs, ById);
    FilterOrdered(Sort(xs, ById), p, ById);
    FilterPerm(Sort(xs, ById), p);
    FilterPerm(xs, p);
    SortPerm(Filter(xs, p), ById);
    SortOrdered(Filter(xs, p), ById);
    var ys := Filter(Sort(xs, ById), p);
    SameElems(Sort(xs, ById), xs);
    assert multiset(ys) == multiset(Filter(xs, p));
    forall a, b | a in ys && b in ys && ById(a, b) && ById(b, a) ensures a == b {
      StrLeAntisym(a.containerID, b.containerID);
    }
    OrderedUnique(ys, Sort(Filter(xs, p), ById), ById);
  }

  /** Whatever happens to one container, the services of all the others are untouched. */
  lemma DiscoveryIsolates(fleet: seq<Seen>, other: seq<Seen>, cfg: Config, selfID: string, env: Env, id: string)
    requires IdsAgree(fleet) && IdsAgree(other)
    requires multiset(Filter(fleet, NotListed(id))) == multiset(Filter(other, NotListed(id)))
    ensures Filter(ServicesOf(fleet, cfg, selfID, env), NotService(id))
            == Filter(ServicesOf(other, cfg, selfID, env), NotService(id))
  {
    var g := ServiceFrom(cfg, selfID, env);
    var s1, s2 := FlatMap(fleet, g), FlatMap(other, g);
    ServiceIds(fleet, cfg, selfID, env);
    ServiceIds(other, cfg, selfID, env);
    OthersOnly(fleet, cfg, selfID, env, id);
    OthersOnly(other, cfg, selfID, env, id);
    FilterSort(s1, NotService(id));
    FilterSort(s2, NotService(id));
    FlatMapPerm(Filter(fleet, NotListed(id)), Filter(other, NotListed(id)), g);
    FilterDistinct(s1, NotService(id));
    SortByIdUnique(Filter(s1, NotService(id)), Filter(s2, NotService(id)));
  }

  lemma {:induction false} FilterDistinct(xs: seq<ServiceSpec>, p: ServiceSpec -> bool)
    requires DistinctIds(xs)
    ensures DistinctIds(Filter(xs, p))
  {
    if |xs| > 0 {
      FilterDistinct(xs[1..], p);
      var rest := Filter(xs[1..], p);
      forall j | 0 <= j < |rest| ensures rest[j].containerID != xs[0].containerID {
        assert rest[j] in rest;
        assert rest[j] in xs[1..];
      }
    }
  }

  ghost predicate RoutedOrExplained(f: Seen, found: Found) {
    || (exists s :: s in found.services && s.containerID == f.listed.id)
    || (exists d :: d in found.diags && d.containerID == f.listed.id)
  }

  /** Some container of the fleet asked to be routed under this id, when listed and when inspected,
      and its inspection does not mark it a collector. */
  ghost predicate AskedFor(id: string, fleet: seq<Seen>) {
    exists f :: f in fleet && f.listed.id == id && OptedIn(f.listed) && Asks(f)
  }

  predicate Asks(f: Seen) {
    f.answer.Some? && OptedIn(f.answer.value) && !RawBool(f.answer.value.labels, "collector")
  }

  /** Every container opted in is routed or has a diagnostic of its own. */
  lemma DiscoveryAccounts(fleet: seq<Seen>, cfg: Config, selfID: string, env: Env, found: Found)
    requires IdsAgree(fleet) && LabelsAgree(fleet) && Discovered(fleet, cfg, selfID, env, found)
    ensures forall f :: f in fleet && OptedIn(f.listed) ==> RoutedOrExplained(f, found)
  {
    hide Resolution, RawBool;
    var g, h := ServiceFrom(cfg, selfID, env), DiagsFrom(cfg, selfID, env);
    FlatMapElems(fleet, g);
    FlatMapElems(fleet, h);
    SortPerm(FlatMap(fleet, g), ById);
    SameElems(found.services, FlatMap(fleet, g));
    forall f | f in fleet && OptedIn(f.listed) ensures RoutedOrExplained(f, found) {
      var o := Contribution(f, cfg, selfID, env);
      if f.answer.Some? {
        ResolutionAccounts(CandidateOf(f.answer.value), cfg, selfID, env);
      }
      if o.spec.Some? {
        assert o.spec.value in g(f);
        assert o.spec.value in found.services;
      } else {
        assert o.diags[0] in h(f);
        assert o.diags[0] in found.diags;
      }
    }
  }

  /** Whatever is routed opted in and is neither bilgeline nor a marked collector. */
  lemma RoutedAsked(fleet: seq<Seen>, cfg: Config, selfID: string, env: Env)
    requires IdsAgree(fleet)
    ensures forall s :: s in ServicesOf(fleet, cfg, selfID, env) ==>
      AskedFor(s.containerID, fleet) && (selfID == "" || s.containerID != selfID)
  {
    hide Resolution, RawBool;
    var g := ServiceFrom(cfg, selfID, env);
    FlatMapElems(fleet, g);
    SortPerm(FlatMap(fleet, g), ById);
    SameElems(ServicesOf(fleet, cfg, selfID, env), FlatMap(fleet, g));
    forall s | s in ServicesOf(fleet, cfg, selfID, env)
      ensures AskedFor(s.containerID, fleet) && (selfID == "" || s.containerID != selfID)
    {
      assert s in FlatMap(fleet, g);
      var f :| f in fleet && s in g(f);
      ResolutionAccounts(CandidateOf(f.answer.value), cfg, selfID, env);
    }
  }

  /** The error diagnostics naming one container. */
  function ErrorsFor(diags: seq<Diagnostic>, id: string): nat {
    if |diags| == 0 then 0
    else
      (if diags[0].containerID == id && diags[0].severity == SevError then 1 else 0) + ErrorsFor(diags[1..], id)
  }

  lemma {:induction false} ErrorsConcat(xs: seq<Diagnostic>, ys: seq<Diagnostic>, id: string)
    ensures ErrorsFor(xs + ys, id) == ErrorsFor(xs, id) + ErrorsFor(ys, id)
  {
    if |xs| == 0 {
      assert xs + ys == ys;
    } else {
      assert (xs + ys)[1..] == xs[1..] + ys;
      ErrorsConcat(xs[1..], ys, id);
    }
  }

  lemma {:induction false} OwnErrors(diags: seq<Diagnostic>, own: string, id: string)
    requires forall d :: d in diags ==> d.containerID == own
    ensures ErrorsFor(diags, id) == if own == id then CountErrors(diags) else 0
  {
    if |diags| > 0 {
      assert diags[0] in diags;
      OwnErrors(diags[1..], own, id);
    }
  }

  /** One container's contribution: at most one error, and then no service. */
  lemma ContributionErrors(f: Seen, cfg: Config, selfID: string, env: Env, id: string)
    requires f.answer.Some? ==> f.answer.value.id == f.listed.id
    ensures var o := Contribution(f, cfg, selfID, env);
      && ErrorsFor(o.diags, id) <= (if f.listed.id == id then 1 else 0)
      && (ErrorsFor(o.diags, id) == 1 ==> o.spec.None?)
      && (o.spec.Some? ==> o.spec.value.containerID == f.listed.id)
  {
    hide Resolution;
    var o := Contribution(f, cfg, selfID, env);
    if OptedIn(f.listed) && f.answer.Some? {
      ResolutionAccounts(CandidateOf(f.answer.value), cfg, selfID, env);
    } else if o.diags != [] {
      CountErrorsSmall(o.diags[0], o.diags[0]);
    }
    OwnErrors(o.diags, f.listed.id, id);
  }

  lemma {:induction false} UnlistedSilent(fleet: seq<Seen>, cfg: Config, selfID: string, env: Env, id: string)
    requires IdsAgree(fleet) && forall f :: f in fleet ==> f.listed.id != id
    ensures ErrorsFor(FlatMap(fleet, DiagsFrom(cfg, selfID, env)), id) == 0
    ensures forall s :: s in FlatMap(fleet, ServiceFrom(cfg, selfID, env)) ==> s.containerID != id
  {
    hide Contribution;
    if |fleet| > 0 {
      assert fleet == [fleet[0]] + fleet[1..];
      ContributionErrors(fleet[0], cfg, selfID, env, id);
      UnlistedSilent(fleet[1..], cfg, selfID, env, id);
      ErrorsConcat(DiagsFrom(cfg, selfID, env)(fleet[0]), FlatMap(fleet[1..], DiagsFrom(cfg, selfID, env)), id);
    }
  }

  /** No container has more than one error diagnostic, and none that has one is routed. */
  lemma {:induction false} ErrorsOnce(fleet: seq<Seen>, cfg: Config, selfID: string, env: Env, id: string)
    requires IdsAgree(fleet)
    ensures ErrorsFor(FlatMap(fleet, DiagsFrom(cfg, selfID, env)), id) <= 1
    ensures ErrorsFor(FlatMap(fleet, DiagsFrom(cfg, selfID, env)), id) == 1 ==>
      forall s :: s in FlatMap(fleet, ServiceFrom(cfg, selfID, env)) ==> s.containerID != id
  {
    hide Contribution;
    if |fleet| > 0 {
      assert fleet == [fleet[0]] + fleet[1..];
      ContributionErrors(fleet[0], cfg, selfID, env, id);
      ErrorsConcat(DiagsFrom(cfg, selfID, env)(fleet[0]), FlatMap(fleet[1..], DiagsFrom(cfg, selfID, env)), id);
      if fleet[0].listed.id == id {
        UnlistedSilent(fleet[1..], cfg, selfID, env, id);
      } else {
        ErrorsOnce(fleet[1..], cfg, selfID, env, id);
      }
    }
  }

  lemma FieldFaults(cand: Candidate, norm: map<string, string>, cfg: Config, env: Env)
    ensures forall d :: d in Enabled(cand, norm, cfg, env).diags ==> !d.reason.BadBool?
  {
    hide StaticAttrs, Promoted, ServiceName, AllDrops, NamedDestinations;
  }

  /** An "enable" label that is no boolean is silent: the gate reads it as not opted in, so the
      diagnostic Resolve has for it never reaches discovery. */
  lemma BadEnableIsSilent(fleet: seq<Seen>, cfg: Config, selfID: string, env: Env)
    requires LabelsAgree(fleet)
    ensures forall d :: d in FlatMap(fleet, DiagsFrom(cfg, selfID, env)) ==> !d.reason.BadBool?
  {
    hide Enabled, RawBool;
    FlatMapElems(fleet, DiagsFrom(cfg, selfID, env));
    forall f | f in fleet
      ensures forall d :: d in Contribution(f, cfg, selfID, env).diags ==> !d.reason.BadBool?
    {
      if f.answer.Some? && Consistent(f.answer.value.labels) {
        EnabledIsMarked(f.answer.value.labels);
        FieldFaults(CandidateOf(f.answer.value), SuffixMap(f.answer.value.labels), cfg, env);
      }
    }
  }
}
