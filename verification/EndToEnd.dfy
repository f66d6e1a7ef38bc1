/** From a valid configuration and a fleet of labelled containers to what the collector exports. */
module EndToEnd {
  import opened Wrappers
  import opened Sorting
  import opened Strings
  import opened Backend
  import opened Collector
  import opened Render
  import opened Meaning
  import opened Compiler
  import opened Attribution
  import Config
  import Labels
  import Fields
  import Resolve
  import Assemble
  import Wiring
  import Labelled
  import opened Host
  import Discovery

  /** Everything a pass starts from: the configuration, what list and inspect answered, who
      bilgeline is, and the regexp engine and map orders. */
  datatype Start = Start(cfg: Config.Config, fleet: seq<Discovery.Seen>, selfID: string, env: Resolve.Env)

  ghost function Services(w: Start): seq<ServiceSpec> {
    Discovery.ServicesOf(w.fleet, w.cfg, w.selfID, w.env)
  }

  ghost function SpecOf(w: Start): Spec { Assemble.AssembledSpec(Services(w), w.cfg) }

  // ----- where a service comes from -----

  /** The container a service was discovered from, and its normalized labels. */
  datatype Origin = Origin(seen: Discovery.Seen, norm: map<string, string>) {
    function Candidate(): Resolve.Candidate
      requires seen.answer.Some?
    {
      Discovery.CandidateOf(seen.answer.value)
    }
  }

  ghost predicate Began(w: Start, o: Origin, s: ServiceSpec) {
    && o.seen in w.fleet && o.seen.answer.Some?
    && Labels.Normalized(o.seen.answer.value.labels) == Ok(o.norm)
    && Resolve.Routes(o.norm, w.cfg) == Ok(s.routes) && !Resolve.BadDriver(o.Candidate())
    && Resolve.Assembled(o.Candidate(), o.norm, w.cfg, w.env) == Ok(s.(routes := []))
  }

  lemma OriginOf(w: Start, s: ServiceSpec) returns (o: Origin)
    requires s in Services(w)
    ensures Began(w, o, s)
  {
    hide Resolve.Assembled, Resolve.Routes, Labels.Normalized;
    var g := Discovery.ServiceFrom(w.cfg, w.selfID, w.env);
    SortPerm(FlatMap(w.fleet, g), Discovery.ById);
    SameElems(Services(w), FlatMap(w.fleet, g));
    FlatMapElems(w.fleet, g);
    var f :| f in w.fleet && s in g(f);
    assert Discovery.Contribution(f, w.cfg, w.selfID, w.env).spec == Some(s);
    o := Origin(f, Labels.Normalized(f.answer.value.labels).value);
    UnroutedYet(o.Candidate(), o.norm, w.cfg, w.env);
  }

  lemma UnroutedYet(cand: Resolve.Candidate, norm: map<string, string>, cfg: Config.Config, env: Resolve.Env)
    ensures var r := Resolve.Assembled(cand, norm, cfg, env); r.Ok? ==> r.value.routes == []
  {
    hide Resolve.ResolveParse, Resolve.ResolveMultiline, Resolve.ResolveStream, Resolve.ResolveLevelMin,
         Resolve.Drops, Resolve.StaticAttrs, Resolve.Promoted, Resolve.ServiceName, Resolve.ProfileOf;
  }

  lemma ServicesFacts(w: Start)
    requires Discovery.IdsAgree(w.fleet)
    ensures Discovery.DistinctIds(Services(w))
    ensures Tailable(SpecOf(w)) == Services(w)
  {
    hide Discovery.ServiceFrom, Discovery.ById, Discovery.IdsAgree;
    var found := FlatMap(w.fleet, Discovery.ServiceFrom(w.cfg, w.selfID, w.env));
    Discovery.ServiceIds(w.fleet, w.cfg, w.selfID, w.env);
    SortPerm(found, Discovery.ById);
    PermDistinct(found, Services(w));
    Discovery.ByIdLinear();
    SortOrdered(found, Discovery.ById);
    forall s | s in Services(w) ensures IsTailable(s) { FromDockerFile(w, s); }
    AllTailable(Services(w));
    SortSorted(Services(w), Discovery.ById);
  }

  lemma FromDockerFile(w: Start, s: ServiceSpec)
    requires s in Services(w)
    ensures IsTailable(s)
  {
    hide Resolve.Assembled, Services;
    var o := OriginOf(w, s);
    Resolve.AssembledIdentified(o.Candidate(), o.norm, w.cfg, w.env);
  }

  lemma {:induction false} AllTailable(xs: seq<ServiceSpec>)
    requires forall s :: s in xs ==> IsTailable(s)
    ensures Filter(xs, IsTailable) == xs
  {
    if |xs| > 0 {
      assert xs[0] in xs;
      AllTailable(xs[1..]);
      assert xs == [xs[0]] + xs[1..];
    }
  }

  lemma {:induction false} PermDistinct(xs: seq<ServiceSpec>, ys: seq<ServiceSpec>)
    requires Discovery.DistinctIds(xs) && multiset(xs) == multiset(ys)
    ensures Discovery.DistinctIds(ys)
  {
    assert NoDup(xs);
    PermKeepsNoDup(xs, ys);
    SameElems(xs, ys);
    forall i, j | 0 <= i < j < |ys| ensures ys[i].containerID != ys[j].containerID {
      assert ys[i] in xs && ys[j] in xs;
      var a :| 0 <= a < |xs| && xs[a] == ys[i];
      var b :| 0 <= b < |xs| && xs[b] == ys[j];
      assert a != b;
    }
  }

  // ----- destinations -----

  function DestOf(rs: seq<Route>): set<string> { set r | r in rs :: r.destination }

  /** A container routes exactly to the destinations it names, or the default when it names none;
      nowhere when "none" is among them; and all of them are known. */
  lemma RoutesExact(norm: map<string, string>, cfg: Config.Config)
    requires Resolve.Routes(norm, cfg).Ok?
    ensures var names, dests := Resolve.NamedDestinations(norm, cfg), DestOf(Resolve.Routes(norm, cfg).value);
      && dests == (if Config.NONE in names then {} else Elems(names))
      && forall n :: n in dests ==> Resolve.DestinationValid(n, cfg)
  {
    var names := Resolve.NamedDestinations(norm, cfg);
    if Config.NONE !in names {
      Resolve.FirstBadNone(names, Resolve.ValidIn(cfg));
      DedupElems(names, {});
      var kept := Dedup(names, {});
      var routes := Map(kept, Resolve.ToRoute);
      forall n ensures n in DestOf(routes) <==> n in names {
        if n in names {
          var i :| 0 <= i < |kept| && kept[i] == n;
          assert routes[i] in routes && routes[i].destination == n;
        }
      }
    }
  }

  lemma RoutesValid(w: Start, s: ServiceSpec)
    requires s in Services(w)
    ensures forall n :: n in DestSet(s) ==> Resolve.DestinationValid(n, w.cfg)
  {
    hide Resolve.Assembled, Resolve.Routes, Services;
    var o := OriginOf(w, s);
    RoutesExact(o.norm, w.cfg);
    assert DestOf(s.routes) == DestSet(s);
  }

  /** A destination the configuration vouches for can be exported to. */
  lemma ValidIsExportable(cfg: Config.Config, names: set<string>, n: string)
    requires Config.SinksValid(cfg) && n in names && Resolve.DestinationValid(n, cfg)
    ensures Exportable(n, Assemble.Carried(names, cfg))
  {
    hide Assemble.Flatten;
    if n != DEBUG {
      FlattenKind(n, cfg.destinations[n]);
    }
  }

  lemma FlattenKind(n: string, d: Config.Sink)
    ensures Assemble.Flatten(n, d).kind == d.kind
  {}

  /** Validation accepts a destination type exactly when there is a component to export it. */
  lemma KindsExact(kind: string)
    ensures kind in Config.DESTINATION_TYPES <==> kind in COMPONENTS
  {}

  /** With known destination types rendering never fails, whatever the fleet: no undefined
      destination and no unsupported type can reach it. */
  lemma RenderingNeverFails(w: Start)
    requires Config.SinksValid(w.cfg)
    ensures Renderable(SpecOf(w))
    ensures forall s :: s in Services(w) ==> AllExportable(DestSet(s), SpecOf(w).destinations)
  {
    hide Services, Exportable, Config.SinksValid, Resolve.DestinationValid, Assemble.Carried, LastNames, Keys;
    var services := Services(w);
    forall s, n | s in services && n in DestSet(s) ensures Exportable(n, SpecOf(w).destinations) {
      RoutesValid(w, s);
      assert n in Assemble.Referenced(services);
      ValidIsExportable(w.cfg, Assemble.Referenced(services), n);
    }
    var tailed := Tailable(SpecOf(w));
    forall n | n in ReferencedBy(tailed) ensures Exportable(n, SpecOf(w).destinations) {
      var k :| k in Keys(tailed) && n in LastNames(tailed, k);
      var s := OwnerOf(tailed, k);
      SortedSetFacts(DestSet(s));
      TailableAmong(SpecOf(w), s);
    }
  }

  lemma OwnerOf(services: seq<ServiceSpec>, k: string) returns (s: ServiceSpec)
    requires k in Keys(services)
    ensures s in services && LastNames(services, k) == SortedSet(DestSet(s))
  {
    LastNamesOwner(services, k);
    s :| s in services && Routed(s) && Key(s) == k && LastNames(services, k) == Names(s);
  }

  lemma TailableAmong(spec: Spec, s: ServiceSpec)
    requires s in Tailable(spec)
    ensures s in spec.services
  {
    SortPerm(Filter(spec.services, IsTailable), Discovery.ById);
    SameElems(Tailable(spec), Filter(spec.services, IsTailable));
  }

  // ----- when routing keys are faithful -----

  ghost function KeyOfSet(names: set<string>): string { Join(SortedSet(names), ',') }

  lemma SetKeySplits(names: set<string>)
    requires names != {} && forall n :: n in names ==> ',' !in n
    ensures Split(KeyOfSet(names), ',') == SortedSet(names)
  {
    SortedSetFacts(names);
    SplitJoin(SortedSet(names), ',');
  }

  predicate PartNames(cfg: Config.Config, n: string) {
    Fields.Item(n) && n != Config.NONE && Resolve.DestinationValid(n, cfg)
  }

  /** The default destination is not split at commas, labels are. They collide when the default's
      own name spells, sorted and without repetition, a list of destinations a label may name. */
  ghost predicate AmbiguousDefault(cfg: Config.Config) {
    var d := cfg.defaultDestination;
    && ',' in d && Resolve.DestinationValid(d, cfg)
    && Split(d, ',') == SortedSet(Elems(Split(d, ',')))
    && forall n :: n in Split(d, ',') ==> PartNames(cfg, n)
  }

  /** Whatever two containers are labelled, equal routing keys mean equal destination sets. */
  ghost predicate FaithfulFor(cfg: Config.Config) {
    forall m, n: map<string, string> | RoutesSomewhere(m, cfg) && RoutesSomewhere(n, cfg) ::
      KeyOfSet(Chosen(m, cfg)) == KeyOfSet(Chosen(n, cfg)) ==> Chosen(m, cfg) == Chosen(n, cfg)
  }

  ghost predicate RoutesSomewhere(norm: map<string, string>, cfg: Config.Config) {
    Resolve.Routes(norm, cfg).Ok? && Chosen(norm, cfg) != {}
  }

  ghost function Chosen(norm: map<string, string>, cfg: Config.Config): set<string> {
    match Resolve.Routes(norm, cfg)
    case Ok(rs) => DestOf(rs)
    case Err(_) => {}
  }

  /** What a routed container chose: names out of a label, or the default alone. */
  lemma ChosenShape(norm: map<string, string>, cfg: Config.Config)
    requires RoutesSomewhere(norm, cfg)
    ensures (forall n :: n in Chosen(norm, cfg) ==> PartNames(cfg, n))
            || (Chosen(norm, cfg) == {cfg.defaultDestination} && Resolve.DestinationValid(cfg.defaultDestination, cfg))
  {
    hide Fields.CSV, Fields.Item, Resolve.Routes;
    RoutesExact(norm, cfg);
    Fields.CSVItems(Fields.Lookup(norm, "destination"));
    if |Fields.CSV(Fields.Lookup(norm, "destination"))| == 0 {
      assert Elems([cfg.defaultDestination]) == {cfg.defaultDestination};
      assert cfg.defaultDestination in Chosen(norm, cfg);
    }
  }

  lemma ClashIsAmbiguous(cfg: Config.Config, names: set<string>)
    requires names != {} && forall n :: n in names ==> PartNames(cfg, n)
    requires ',' in cfg.defaultDestination && Resolve.DestinationValid(cfg.defaultDestination, cfg)
    requires KeyOfSet(names) == cfg.defaultDestination
    ensures AmbiguousDefault(cfg)
  {
    hide KeyOfSet, Fields.Item, Resolve.DestinationValid;
    SetKeySplits(names) by { PartsCommaFree(cfg, names); }
    SortedSetFacts(names);
    assert Elems(SortedSet(names)) == names;
  }

  lemma PartsCommaFree(cfg: Config.Config, names: set<string>)
    requires forall n :: n in names ==> PartNames(cfg, n)
    ensures forall n :: n in names ==> ',' !in n
  {}

  lemma SingletonKey(n: string)
    ensures KeyOfSet({n}) == n
  {
    SortIsSortedSet([n]);
    assert Elems([n]) == {n};
    assert [n][1..] == [];
    assert Sort([n], StrLe) == [n];
  }

  lemma FaithfulPair(cfg: Config.Config, x: set<string>, y: set<string>)
    requires !AmbiguousDefault(cfg) && x != {} && y != {} && KeyOfSet(x) == KeyOfSet(y)
    requires forall n :: n in x ==> PartNames(cfg, n)
    requires (forall n :: n in y ==> PartNames(cfg, n))
             || (y == {cfg.defaultDestination} && Resolve.DestinationValid(cfg.defaultDestination, cfg))
    ensures x == y
  {
    hide AmbiguousDefault, KeyOfSet, Resolve.DestinationValid;
    SingletonKey(cfg.defaultDestination);
    if y == {cfg.defaultDestination} && ',' in cfg.defaultDestination {
      ClashIsAmbiguous(cfg, x);
    } else {
      SetKeySplits(x);
      SetKeySplits(y);
      SortedSetFacts(x);
      SortedSetFacts(y);
    }
  }

  /** Exactly which configurations keep routing keys faithful over every fleet. */
  lemma DefaultExact(cfg: Config.Config)
    ensures FaithfulFor(cfg) <==> !AmbiguousDefault(cfg)
  {
    hide RoutesSomewhere, KeyOfSet, AmbiguousDefault, PartNames, Chosen;
    if !AmbiguousDefault(cfg) {
      forall m, n: map<string, string> | RoutesSomewhere(m, cfg) && RoutesSomewhere(n, cfg)
          && KeyOfSet(Chosen(m, cfg)) == KeyOfSet(Chosen(n, cfg))
        ensures Chosen(m, cfg) == Chosen(n, cfg)
      {
        ChosenShape(m, cfg);
        ChosenShape(n, cfg);
        SomewhereNonEmpty(m, cfg);
        SomewhereNonEmpty(n, cfg);
        if forall x :: x in Chosen(m, cfg) ==> PartNames(cfg, x) {
          FaithfulPair(cfg, Chosen(m, cfg), Chosen(n, cfg));
        } else if forall x :: x in Chosen(n, cfg) ==> PartNames(cfg, x) {
          FaithfulPair(cfg, Chosen(n, cfg), Chosen(m, cfg));
        }
      }
    } else {
      AmbiguousClashes(cfg);
    }
  }

  lemma SomewhereNonEmpty(norm: map<string, string>, cfg: Config.Config)
    requires RoutesSomewhere(norm, cfg)
    ensures Chosen(norm, cfg) != {}
  {}

  /** The colliding pair: a container without a destination label, and one whose label is the
      default's own name. */
  lemma AmbiguousClashes(cfg: Config.Config)
    requires AmbiguousDefault(cfg)
    ensures var d := cfg.defaultDestination;
      && RoutesSomewhere(map[], cfg) && RoutesSomewhere(map["destination" := d], cfg)
      && KeyOfSet(Chosen(map[], cfg)) == KeyOfSet(Chosen(map["destination" := d], cfg))
      && Chosen(map[], cfg) != Chosen(map["destination" := d], cfg)
  {
    hide Fields.CSV, Fields.Item;
    var d := cfg.defaultDestination;
    var parts := Split(d, ',');
    JoinSplit(d, ',');
    Fields.CSVRoundTrip(parts);
    Fields.CSVEmpty();
    SplitFree(d, ',');
    KnownRoutes(map[], cfg, [d]);
    KnownRoutes(map["destination" := d], cfg, parts);
    assert parts[0] in parts;
    assert Elems([d]) == {d};
    SingletonKey(d);
  }

  lemma KnownRoutes(norm: map<string, string>, cfg: Config.Config, names: seq<string>)
    requires Resolve.NamedDestinations(norm, cfg) == names && |names| > 0 && Config.NONE !in names
    requires forall n :: n in names ==> Resolve.DestinationValid(n, cfg)
    ensures Resolve.Routes(norm, cfg).Ok? && Chosen(norm, cfg) == Elems(names)
  {
    hide Resolve.NamedDestinations, Resolve.DestinationValid;
    Resolve.FirstBadNone(names, Resolve.ValidIn(cfg));
    RoutesExact(norm, cfg);
  }

  /** A fleet meets the compiler's hypotheses when list and inspect agree, digests do not collide
      and the default is unambiguous. */
  lemma FleetIsSound(w: Start, c: Codec)
    requires Discovery.IdsAgree(w.fleet) && !AmbiguousDefault(w.cfg)
    requires SignaturesSeparate(c, Services(w)) && KeysSeparate(c, Services(w))
    ensures Sound(c, SpecOf(w))
  {
    hide Services, SpecOf, SignaturesSeparate, KeysSeparate, AmbiguousDefault, Tailable, Discovery.IdsAgree,
         Discovery.DistinctIds, FaithfulFor;
    ServicesFacts(w);
    DefaultExact(w.cfg);
    forall s, t | s in Services(w) && t in Services(w) && Routed(s) && Routed(t) && Key(s) == Key(t)
      ensures DestSet(s) == DestSet(t)
    {
      FleetKeys(w, s, t);
    }
  }

  lemma FleetKeys(w: Start, s: ServiceSpec, t: ServiceSpec)
    requires FaithfulFor(w.cfg) && s in Services(w) && t in Services(w)
    requires Routed(s) && Routed(t) && Key(s) == Key(t)
    ensures DestSet(s) == DestSet(t)
  {
    hide Services, Resolve.Assembled, Resolve.Routes, Labels.Normalized;
    var o := OriginOf(w, s);
    var p := OriginOf(w, t);
    assert Chosen(o.norm, w.cfg) == DestSet(s) && Chosen(p.norm, w.cfg) == DestSet(t);
    assert RoutesSomewhere(o.norm, w.cfg) && RoutesSomewhere(p.norm, w.cfg);
  }

  // ----- the journey -----

  function NonBlank(v: string): Option<string> { if v == "" then None else Some(v) }

  /** The identity attributes, read off the container; the service name is checked apart. */
  function IdentityAttr(cont: Container, name: string, k: string): Option<string> {
    if k == "service.name" then Some(name)
    else if k == "container.id" then Some(cont.id)
    else if k == "service.namespace" then NonBlank(cont.project)
    else if k == "container.name" then NonBlank(cont.name)
    else if k == "container.image.name" then NonBlank(cont.image)
    else None
  }

  /** The resource attribute under `k` on a container's records: the routing key, over an
      attr.<k> label, over the profile, over a promoted label, over the identity. */
  ghost function FinalAttr(w: Start, o: Origin, name: string, k: string): Option<string>
    requires o.seen.answer.Some?
  {
    if k == "bilgeline.routing_key" && Chosen(o.norm, w.cfg) != {} then Some(KeyOfSet(Chosen(o.norm, w.cfg)))
    else
      match Resolve.WinningAttr(o.Candidate(), o.norm, w.cfg, k)
      case Some(v) => Some(v)
      case None => IdentityAttr(o.seen.answer.value, name, k)
  }

  lemma OverlayAt(a: map<string, string>, b: map<string, string>, k: string)
    ensures Resolve.At(a + b, k) == if k in b then Resolve.At(b, k) else Resolve.At(a, k)
  {}

  lemma OptAttrAt(key: string, v: string, k: string)
    ensures k in OptAttr(key, v) <==> k == key && v != ""
    ensures k == key ==> Resolve.At(OptAttr(key, v), k) == NonBlank(v)
    ensures k in map[key := v] <==> k == key
    ensures k == key ==> Resolve.At(map[key := v], k) == Some(v)
  {}

  lemma IdentityMeans(cont: Container, s: ServiceSpec, k: string)
    requires s.containerID == cont.id && s.containerName == cont.name
    requires s.composeProject == cont.project && s.image == cont.image
    ensures Resolve.At(Identity(s), k) == IdentityAttr(cont, s.name, k)
  {
    hide Resolve.At, OptAttr;
    var a1, a2 := map["service.name" := s.name], OptAttr("service.namespace", s.composeProject);
    var a3, a4 := map["container.id" := s.containerID], OptAttr("container.name", s.containerName);
    var a5 := OptAttr("container.image.name", s.image);
    OverlayAt(a1, a2, k);
    OverlayAt(a1 + a2, a3, k);
    OverlayAt(a1 + a2 + a3, a4, k);
    OverlayAt(a1 + a2 + a3 + a4, a5, k);
    OptAttrAt("service.name", s.name, k);
    OptAttrAt("service.namespace", s.composeProject, k);
    OptAttrAt("container.id", s.containerID, k);
    OptAttrAt("container.name", s.containerName, k);
    OptAttrAt("container.image.name", s.image, k);
    NothingAt(s.name, k);
  }

  lemma NothingAt(name: string, k: string)
    ensures k != "service.name" ==> Resolve.At(map["service.name" := name], k) == None
  {}

  lemma AssembledFields(cand: Resolve.Candidate, norm: map<string, string>, cfg: Config.Config, env: Resolve.Env)
    requires Resolve.Assembled(cand, norm, cfg, env).Ok?
    ensures var s := Resolve.Assembled(cand, norm, cfg, env).value;
      && s.name == Resolve.ServiceName(cand, norm) && s.containerID == cand.id && s.containerName == cand.name
      && s.composeProject == cand.composeProject && s.image == cand.image
  {
    hide Resolve.ResolveParse, Resolve.ResolveMultiline, Resolve.ResolveStream, Resolve.ResolveLevelMin,
         Resolve.Drops, Resolve.StaticAttrs, Resolve.Promoted, Resolve.ServiceName, Resolve.ProfileOf;
  }

  /** The service name: the name label, else the compose service, else the container's own name. */
  predicate NamedAfter(cont: Container, norm: map<string, string>, name: string) {
    if "name" in norm && norm["name"] != "" then name == norm["name"]
    else if cont.service != "" then name == cont.service
    else Slashed(cont.name, name)
  }

  /** Attribute precedence, all the way from a container's labels to its records' resource. */
  lemma LabelsToResource(w: Start, o: Origin, s: ServiceSpec, k: string)
    requires Began(w, o, s)
    ensures NamedAfter(o.seen.answer.value, o.norm, s.name)
    ensures Resolve.At(Stamped(s), k) == FinalAttr(w, o, s.name, k)
  {
    hide Resolve.Assembled, Resolve.Routes, Resolve.WinningAttr, IdentityAttr, Labels.Normalized, Identity;
    var cand := o.Candidate();
    Resolve.AttributePrecedence(cand, o.norm, w.cfg, w.env, k);
    AssembledFields(cand, o.norm, w.cfg, w.env);
    IdentityMeans(o.seen.answer.value, s, k);
    SlashedExact(cand.name);
    assert DestOf(s.routes) == DestSet(s);
  }

  /** What the container itself contributes, and what its labels and profile decide. */
  ghost predicate FromContainer(w: Start, o: Origin, s: ServiceSpec)
    requires o.seen.answer.Some?
  {
    var cont := o.seen.answer.value;
    && s.containerID == cont.id && s.containerName == cont.name && s.image == cont.image
    && s.composeProject == cont.project && s.composeService == cont.service && cont.logDriver in {"", "json-file"}
    && Labelled.AsLabelled(o.Candidate(), o.norm, w.cfg, s.(routes := []))
  }

  /** The records kept, as the container's labels spell it; and every field that shapes them. */
  lemma LabelsToFields(e: Engine, w: Start, o: Origin, s: ServiceSpec)
    requires Began(w, o, s) && Resolve.Enumerates(w.env.order)
    ensures FromContainer(w, o, s)
    ensures forall r :: Kept(e, s, r) <==>
      Labelled.KeptByLabels(e, o.norm, Labelled.ProfileNamed(o.norm, w.cfg), r)
  {
    hide Resolve.Assembled, Resolve.Routes, Labels.Normalized, Labelled.AsLabelled, Labelled.KeptByLabels,
         Labelled.ProfileNamed, Kept, Labelled.DropNamed, Labelled.ParseAcceptable;
    var bare := s.(routes := []);
    Labelled.AssembledExact(o.Candidate(), o.norm, w.cfg, w.env);
    AssembledFields(o.Candidate(), o.norm, w.cfg, w.env);
    ContainerFields(o.Candidate(), o.norm, w.cfg, bare);
    forall r ensures Kept(e, s, r) <==> Labelled.KeptByLabels(e, o.norm, Labelled.ProfileNamed(o.norm, w.cfg), r) {
      Labelled.KeptExact(e, o.Candidate(), o.norm, w.cfg, bare, r);
      KeptIgnoresRoutes(e, s, r);
    }
  }

  lemma ContainerFields(cand: Resolve.Candidate, norm: map<string, string>, cfg: Config.Config, s: ServiceSpec)
    requires Labelled.AsLabelled(cand, norm, cfg, s)
    ensures s.composeService == cand.composeService
  {}

  lemma KeptIgnoresRoutes(e: Engine, s: ServiceSpec, r: Record)
    ensures Kept(e, s.(routes := []), r) <==> Kept(e, s, r)
  {}

  /** From labels to exporters. What a routed container's chain emits is exported record by record,
      exactly when the container's stream, floor and drops keep it: once to each destination its
      labels name (or the default), and nowhere else, carrying the attributes its labels decide. */
  lemma LabelsToExporters(e: Engine, b: Knobs, c: Codec, w: Start, s: ServiceSpec, log: Log) returns (o: Origin)
    requires Config.SinksValid(w.cfg) && !AmbiguousDefault(w.cfg) && Discovery.IdsAgree(w.fleet)
    requires SignaturesSeparate(c, Services(w)) && KeysSeparate(c, Services(w))
    requires s in Services(w) && Routed(s) && LogOf(s.containerID, log.path) && ClaimsAll(s, Chain(e, c, s, log))
    ensures Began(w, o, s)
    ensures DestSet(s) == Elems(Resolve.NamedDestinations(o.norm, w.cfg))
    ensures NamedAfter(o.seen.answer.value, o.norm, s.name)
    ensures forall k :: Resolve.At(Stamped(s), k) == FinalAttr(w, o, s.name, k)
    ensures Resolve.Enumerates(w.env.order) ==> FromContainer(w, o, s) && forall r :: Kept(e, s, r) <==>
      Labelled.KeptByLabels(e, o.norm, Labelled.ProfileNamed(o.norm, w.cfg), r)
    ensures multiset(Deliver(e, Compiled(b, c, SpecOf(w)), log))
            == Gather(Chain(e, c, s, log), MeaningFor(e, SpecOf(w), s))
  {
    hide Services, SpecOf, SignaturesSeparate, KeysSeparate, AmbiguousDefault, Deliver, Compiled, Sound, Renderable,
         MeaningFor, Chain, ClaimsAll, Stamped, FinalAttr, Config.SinksValid, FromContainer, NamedAfter, Kept, LogOf,
         Labelled.KeptByLabels, Labelled.ProfileNamed, Resolve.Enumerates, DockerLogPath,
         Discovery.IdsAgree, Resolve.Routes, Resolve.Assembled, Resolve.NamedDestinations, Tailable, Labels.Normalized;
    DockerPathExact(s.containerID, log.path);
    FleetIsSound(w, c);
    RenderingNeverFails(w);
    ServicesFacts(w);
    ServicePreserved(e, b, c, SpecOf(w), s, log);
    o := OriginOf(w, s);
    RoutesExact(o.norm, w.cfg);
    assert DestOf(s.routes) == DestSet(s);
    LabelsToResource(w, o, s, "");
    forall k { LabelsToResource(w, o, s, k); }
    if Resolve.Enumerates(w.env.order) { LabelsToFields(e, w, o, s); }
  }

  /** The key another container of the fleet is routed by. */
  ghost predicate KeyInPlay(w: Start, k: string) {
    exists s :: s in Services(w) && Routed(s) && k == KeyOfSet(DestSet(s))
  }

  /** The labels' own value for the routing-key attribute is a key in play. */
  ghost predicate LabelsForgeKey(w: Start, o: Origin)
    requires o.seen.answer.Some?
  {
    match Resolve.WinningAttr(o.Candidate(), o.norm, w.cfg, ROUTING_KEY)
    case None => false
    case Some(v) => KeyInPlay(w, v)
  }

  /** From labels to silence. A container routed nowhere exports nothing, unless an attribute its
      labels give it spells the routing key of another: then all it keeps goes where the other's does. */
  lemma LabelsToSilence(e: Engine, b: Knobs, c: Codec, w: Start, s: ServiceSpec, log: Log) returns (o: Origin)
    requires Config.SinksValid(w.cfg) && !AmbiguousDefault(w.cfg) && Discovery.IdsAgree(w.fleet)
    requires SignaturesSeparate(c, Services(w)) && KeysSeparate(c, Services(w))
    requires s in Services(w) && !Routed(s) && LogOf(s.containerID, log.path) && ClaimsAll(s, Chain(e, c, s, log))
    requires forall r :: r in Chain(e, c, s, log) ==> ROUTING_KEY !in r.resource
    ensures Began(w, o, s) && Config.NONE in Resolve.NamedDestinations(o.norm, w.cfg)
    ensures Deliver(e, Compiled(b, c, SpecOf(w)), log) == [] <==>
      !LabelsForgeKey(w, o) || forall r :: r in Chain(e, c, s, log) ==> !Kept(e, s, r)
  {
    hide Services, SpecOf, SignaturesSeparate, KeysSeparate, AmbiguousDefault, Deliver, Compiled, Sound, Renderable,
         Chain, ClaimsAll, DockerLogPath, LogOf, Kept, Config.SinksValid, Discovery.IdsAgree, Resolve.Routes, Resolve.Assembled,
         Resolve.NamedDestinations, Tailable, Labels.Normalized, ForgesKey, LabelsForgeKey;
    DockerPathExact(s.containerID, log.path);
    FleetIsSound(w, c);
    RenderingNeverFails(w);
    ServicesFacts(w);
    NowhereExact(e, b, c, SpecOf(w), s, log);
    o := OriginOf(w, s);
    NamesNone(w, o, s);
    ForgesByLabel(w, o, s);
  }

  lemma NamesNone(w: Start, o: Origin, s: ServiceSpec)
    requires Began(w, o, s) && !Routed(s)
    ensures Config.NONE in Resolve.NamedDestinations(o.norm, w.cfg)
  {
    hide Resolve.Assembled, Labels.Normalized, Resolve.CheckedRoutes, Fields.CSV;
    RoutesExact(o.norm, w.cfg);
    assert DestOf(s.routes) == DestSet(s);
    assert |Resolve.NamedDestinations(o.norm, w.cfg)| > 0;
    assert Resolve.NamedDestinations(o.norm, w.cfg)[0] in Elems(Resolve.NamedDestinations(o.norm, w.cfg));
  }

  lemma ForgesByLabel(w: Start, o: Origin, s: ServiceSpec)
    requires Began(w, o, s)
    ensures ForgesKey(Services(w), s) <==> LabelsForgeKey(w, o)
  {
    hide Resolve.Assembled, Resolve.Routes, Resolve.WinningAttr, Labels.Normalized, Services;
    Resolve.AttributePrecedence(o.Candidate(), o.norm, w.cfg, w.env, ROUTING_KEY);
    assert forall k :: k in Keys(Services(w)) <==> KeyInPlay(w, k);
  }

  // ----- files and exporters -----

  /** Some receiver tails the container's log file, through the operators its labels and profile call for. */
  ghost predicate TailedAsLabelled(c: Codec, cfg: CollectorConfig, s: ServiceSpec) {
    exists n, p :: n in cfg.receivers && cfg.receivers[n].FileLog? && p in cfg.receivers[n].includes
      && LogOf(s.containerID, p) && Sequenced(c, s, cfg.receivers[n].operators)
  }

  /** Once anything is routed, every service's log file is tailed by a receiver that treats it as the
      service asks, and every file tailed is some service's log file. */
  lemma FilesTailed(b: Knobs, c: Codec, w: Start)
    requires Discovery.IdsAgree(w.fleet) && SignaturesSeparate(c, Services(w)) && Keys(Services(w)) != {}
    requires forall s :: s in Services(w) ==> '/' !in s.containerID
    ensures var cfg := Compiled(b, c, SpecOf(w));
      && (forall s :: s in Services(w) ==> TailedAsLabelled(c, cfg, s))
      && (forall n, p :: n in cfg.receivers && cfg.receivers[n].FileLog? && p in cfg.receivers[n].includes ==>
            exists s :: s in Services(w) && LogOf(s.containerID, p))
  {
    hide Services, SpecOf, Full, Inert, Discovery.IdsAgree, Tailable, Keys, Sequenced, LogOf, SignaturesSeparate, Receivers,
         Hashes, PathOf, Operators, TailsLogs, SigHash;
    ServicesFacts(w);
    var services := Services(w);
    FullReceivers(b, c, services, SpecOf(w).destinations);
    ReceiversTail(c, services);
    SomeLog(services, Receivers(c, services, Hashes(c, services)));
    forall s | s in services ensures TailedAsLabelled(c, Compiled(b, c, SpecOf(w)), s) {
      OwnReceiver(c, services, s);
      OperatorsSequenced(c, s);
      OwnLog(s);
    }
  }

  lemma OwnLog(s: ServiceSpec)
    requires '/' !in s.containerID
    ensures LogOf(s.containerID, PathOf(s))
  {
    DockerPathParts(s.containerID);
  }

  lemma SomeLog(services: seq<ServiceSpec>, receivers: map<string, Receiver>)
    requires TailsLogs(services, receivers) && forall s :: s in services ==> '/' !in s.containerID
    ensures forall n, p :: n in receivers && receivers[n].FileLog? && p in receivers[n].includes ==>
      exists s :: s in services && LogOf(s.containerID, p)
  {
    hide LogOf;
    forall n, p | n in receivers && receivers[n].FileLog? && p in receivers[n].includes
      ensures exists s :: s in services && LogOf(s.containerID, p)
    {
      assert LogOfSome(services, p);
    }
  }

  /** The exporter `x` with these settings is what the configuration says of destination `n`. */
  ghost predicate Configured(cfg: Config.Config, n: string, x: string, settings: map<string, Value>) {
    if n == "debug" then x == "debug/debug" && settings == map["verbosity" := Text("detailed")]
    else
      && n in cfg.destinations && cfg.destinations[n].kind in COMPONENTS
      && x == COMPONENTS[cfg.destinations[n].kind] + "/" + n
      && forall k :: Assemble.SettingAt(settings, k) == Assemble.SinkSetting(cfg.destinations[n], k)
  }

  lemma ExportsConfigured(services: seq<ServiceSpec>, cfg: Config.Config, n: string, x: string, settings: map<string, Value>)
    requires n in Assemble.Referenced(services)
    requires ExportsAs(n, Assemble.AssembledSpec(services, cfg).destinations, x, settings)
    ensures Configured(cfg, n, x, settings)
  {
    hide Assemble.SinkSetting, Assemble.SettingAt, COMPONENTS, Assemble.Carried, Assemble.Referenced;
    Assemble.AssembledCarries(services, cfg);
  }

  /** Every destination a service names has its exporter in the compiled configuration, under the id
      deliveries carry, with the component and the settings the configuration gives it. */
  lemma ExportersConfigured(b: Knobs, c: Codec, w: Start, s: ServiceSpec, n: string)
    requires Config.SinksValid(w.cfg) && !AmbiguousDefault(w.cfg) && Discovery.IdsAgree(w.fleet)
    requires s in Services(w) && n in DestSet(s)
    ensures var x, exporters := ExporterId(SpecOf(w).destinations)(n), Compiled(b, c, SpecOf(w)).exporters;
      x in exporters && Configured(w.cfg, n, x, exporters[x])
  {
    hide Services, Full, Inert, Config.SinksValid, AmbiguousDefault, Discovery.IdsAgree, Tailable, Keys, ExporterId,
         Exporters, Exportable, Configured, ExportsAs, LastNames, Assemble.AssembledSpec, ReferencedBy;
    var services, dests := Services(w), SpecOf(w).destinations;
    ServicesFacts(w);
    RenderingNeverFails(w);
    NameReferenced(w, s, n);
    FullExporters(b, c, services, dests);
    OneExporter(n, ReferencedBy(services), dests);
    assert n in Assemble.Referenced(services);
    ExportsConfigured(services, w.cfg, n, ExporterId(dests)(n), Exporters(ReferencedBy(services), dests)[ExporterId(dests)(n)]);
  }

  lemma NameReferenced(w: Start, s: ServiceSpec, n: string)
    requires !AmbiguousDefault(w.cfg) && s in Services(w) && n in DestSet(s)
    ensures n in ReferencedBy(Services(w)) && Keys(Services(w)) != {}
  {
    hide Services, AmbiguousDefault, LastNames, Key, FaithfulFor;
    var services := Services(w);
    assert Routed(s) && Key(s) in Keys(services);
    LastNamesOwner(services, Key(s));
    var t :| t in services && Routed(t) && Key(t) == Key(s) && LastNames(services, Key(s)) == Names(t);
    DefaultExact(w.cfg);
    FleetKeys(w, s, t);
    SortedSetFacts(DestSet(t));
  }

  // ----- feedback freedom -----

  /** A container bilgeline must not tail: itself, one that did not opt in, or one that its
      inspection does not confirm or marks as a collector. */
  predicate OffLimits(w: Start, f: Discovery.Seen) {
    || (w.selfID != "" && f.listed.id == w.selfID)
    || !Discovery.OptedIn(f.listed)
    || !Discovery.Asks(f)
  }

  lemma OffLimitsUntailed(w: Start, f: Discovery.Seen)
    requires Discovery.IdsAgree(w.fleet) && f in w.fleet && OffLimits(w, f)
    ensures !Tailed(Services(w), DockerLogPath(f.listed.id))
  {
    hide Discovery.ServicesOf, Labels.RawBool, DockerLogPath, Discovery.Asks;
    Discovery.RoutedAsked(w.fleet, w.cfg, w.selfID, w.env);
    if Tailed(Services(w), DockerLogPath(f.listed.id)) {
      var s := TailedBy(Services(w), DockerLogPath(f.listed.id));
      PathInjective(s.containerID, f.listed.id);
      assert false;
    }
  }

  /** No receiver of the compiled configuration tails such a container, so nothing it logs is ever
      exported: bilgeline and its collectors do not feed on their own output. */
  lemma FeedbackFree(e: Engine, b: Knobs, c: Codec, w: Start, f: Discovery.Seen, log: Log)
    requires Discovery.IdsAgree(w.fleet) && f in w.fleet && OffLimits(w, f) && LogOf(f.listed.id, log.path)
    ensures forall n :: n in Compiled(b, c, SpecOf(w)).receivers && Compiled(b, c, SpecOf(w)).receivers[n].FileLog? ==>
      log.path !in Compiled(b, c, SpecOf(w)).receivers[n].includes
    ensures Deliver(e, Compiled(b, c, SpecOf(w)), log) == []
  {
    hide Services, SpecOf, Deliver, Full, Inert, Discovery.IdsAgree, Tailable, DockerLogPath, OffLimits, Receivers,
         Hashes, Tailed, Keys, LogOf;
    DockerPathExact(f.listed.id, log.path);
    ServicesFacts(w);
    OffLimitsUntailed(w, f);
    NoInertFiles(b);
    InertSilent(e, b, log);
    UntailedFile(e, b, c, Services(w), SpecOf(w).destinations, log);
  }

  lemma NoInertFiles(b: Knobs)
    ensures forall n :: n in Inert(b).receivers ==> !Inert(b).receivers[n].FileLog?
  {}

  /** A file no service has is in no include list and yields nothing, collisions or not. */
  lemma UntailedFile(e: Engine, b: Knobs, c: Codec, services: seq<ServiceSpec>, dests: map<string, Destination>, log: Log)
    requires Discovery.DistinctIds(services) && !Tailed(services, log.path)
    ensures var cfg := Full(b, c, services, dests);
      && (forall n :: n in cfg.receivers && cfg.receivers[n].FileLog? ==> log.path !in cfg.receivers[n].includes)
      && Deliver(e, cfg, log) == []
  {
    hide Deliver, Full, Receivers, Hashes, Tailed, IngestPipeline, EachRecord, Emitted;
    var cfg := Full(b, c, services, dests);
    FullReceivers(b, c, services, dests);
    forall n | n in cfg.receivers && cfg.receivers[n].FileLog? ensures log.path !in cfg.receivers[n].includes {
      Wiring.IncludesOf(c, services, n);
    }
    OnlyIngestReads(e, b, c, services, dests, log);
    FlatMapNone(SortedSet(Prefixed(Hashes(c, services))), FromReceiver(e, cfg, log, IngestPipeline(c, services)));
  }
}
