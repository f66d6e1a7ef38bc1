/** Whole journeys on concrete labels: the simplest fleet that works, and one that leaks. */
module Scenarios {
  import opened Wrappers
  import opened Sorting
  import opened Strings
  import opened Backend
  import opened Host
  import opened Collector
  import opened Render
  import opened Meaning
  import opened Compiler
  import opened Attribution
  import opened EndToEnd
  import Config
  import Labels
  import Fields
  import Resolve
  import Discovery
  import Assemble

  // ----- one service, routed to debug -----

  lemma AloneIsSound(c: Codec, s: ServiceSpec)
    requires IsTailable(s) && s.routes == [Route(DEBUG)]
    ensures var spec := Spec([s], map[]);
      Tailable(spec) == [s] && DestSet(s) == {DEBUG} && Sound(c, spec) && Renderable(spec)
  {
    hide SigHash, Key;
    assert [s][1..] == [] && Filter([s], IsTailable) == [s];
    assert Sort([s], Discovery.ById) == [s];
    assert forall k :: k in Keys([s]) ==> k == Key(s);
    forall n | n in ReferencedBy([s]) ensures n == DEBUG {
      var k :| k in Keys([s]) && n in LastNames([s], k);
      var t := OwnerOf([s], k);
      SortedSetFacts(DestSet(t));
    }
    KnownKindPlain(DEBUG);
  }

  ghost function ToDebug(s: ServiceSpec): Record -> Delivery {
    (r: Record) => Delivery("debug/debug", r.(resource := Stamped(s)))
  }

  ghost function Shown(e: Engine, s: ServiceSpec): Record -> seq<Delivery> {
    (r: Record) => if Kept(e, s, r) then [ToDebug(s)(r)] else []
  }

  lemma DebugId()
    ensures ExporterId(map[])(DEBUG) == "debug/debug"
  {
    assert DestKind(DEBUG, map[]) == "debug" && ExporterTypeFor("debug") == "debug";
    assert "debug" + "/" + "debug" == "debug/debug";
  }

  lemma ShownMeaning(e: Engine, spec: Spec, s: ServiceSpec, r: Record)
    requires DestSet(s) == {DEBUG} && spec.destinations == map[] && r.resource == map[]
    ensures multiset(Shown(e, s)(r)) == multiset(ServiceMeaning(e, spec, s, r))
  {
    hide Kept, Stamped, ExporterId;
    assert r.resource + Stamped(s) == Stamped(s);
    DebugId();
    assert Deliveries({DEBUG}, map[], r.(resource := Stamped(s))) == {ToDebug(s)(r)};
  }

  /** A chain without parsers emits the decoded lines. */
  lemma PlainChain(e: Engine, c: Codec, s: ServiceSpec, log: Log)
    requires Is64Hex(s.containerID) && log.path == PathOf(s) && ParserOps(c, s) == []
    ensures Chain(e, c, s, log) == DecodedLog(e, s, log) && ClaimsAll(s, DecodedLog(e, s, log))
    ensures forall r :: r in DecodedLog(e, s, log) ==> r.resource == map[]
  {
    hide Is64Hex, PathOf, Chain, ParserOps, Decoded;
    IdentityRecovered(e, c, s, log);
    forall raw { DecodedFacts(e, s, raw); }
  }

  /** One container without parsers, routed to the debug destination: each line it logs comes out
      once, decoded and stamped, exactly when it is kept. */
  lemma PlainService(e: Engine, b: Knobs, c: Codec, s: ServiceSpec, log: Log)
    requires IsTailable(s) && s.routes == [Route(DEBUG)] && ParserOps(c, s) == []
    requires Is64Hex(s.containerID) && log.path == PathOf(s)
    ensures multiset(Deliver(e, Compiled(b, c, Spec([s], map[])), log))
            == multiset(FlatMap(DecodedLog(e, s, log), Shown(e, s)))
  {
    hide Deliver, Compiled, Tailable, Sound, Renderable, Chain, ParserOps, Is64Hex, PathOf, Shown, ServiceMeaning, Decoded;
    var spec := Spec([s], map[]);
    AloneIsSound(c, s);
    PlainChain(e, c, s, log);
    assert Routed(s);
    ServicePreserved(e, b, c, spec, s, log);
    forall r | r in DecodedLog(e, s, log) { ShownMeaning(e, spec, s, r); }
    GatherFlatMap(DecodedLog(e, s, log), Shown(e, s), MeaningFor(e, spec, s));
  }

  // ----- labels -----

  ghost function SpelledKeys(norm: map<string, string>): set<string> { set s | s in norm :: Labels.PRIMARY + s }

  /** A container's labels, spelling `norm` under the bilgeline prefix. */
  ghost function Spelled(norm: map<string, string>): map<string, string> {
    map k | k in SpelledKeys(norm) :: Fields.Lookup(norm, k[|Labels.PRIMARY|..])
  }

  const OPT_IN: map<string, string> := map["enable" := "true"]

  const ATTR_LABEL: string := Resolve.ATTR + ROUTING_KEY

  /** Routed nowhere, with an attribute named like the routing key. */
  const NOWHERE: map<string, string> := map["enable" := "true", "destination" := "none", ATTR_LABEL := "debug"]

  /** Only labels that shape neither parsing nor filtering. */
  predicate Bare(norm: map<string, string>) {
    && "enable" in norm && norm["enable"] == "true"
    && forall k :: k in norm ==> k in ["enable", "destination", ATTR_LABEL]
  }

  /** Spelling any suffixes under the prefix and normalizing gives them back. */
  lemma SpelledNormalized(norm: map<string, string>)
    requires "" !in norm
    ensures Labels.Normalized(Spelled(norm)) == Ok(norm)
  {
    hide Labels.StripPrefix, Labels.ValueOf;
    var labels := Spelled(norm);
    forall s | s in norm
      ensures var k := Labels.PRIMARY + s; k in labels && labels[k] == norm[s] && Labels.StripPrefix(k) == Some(s)
    {
      assert (Labels.PRIMARY + s)[|Labels.PRIMARY|..] == s;
      Labels.StripPrefixExact(Labels.PRIMARY + s, s);
    }
    assert forall k :: k in labels ==> exists s :: s in norm && k == Labels.PRIMARY + s;
    assert Labels.Consistent(labels);
    forall s | s in norm ensures s in Labels.SuffixMap(labels) && Labels.SuffixMap(labels)[s] == norm[s] {
      Labels.SuffixMapAt(labels, Labels.PRIMARY + s);
    }
    forall s | s in Labels.SuffixMap(labels) ensures s in norm {
      var k :| k in labels && Labels.StripPrefix(k) == Some(s);
    }
    assert Labels.SuffixMap(labels) == norm;
  }

  lemma Marks(labels: map<string, string>, norm: map<string, string>)
    requires Labels.Normalized(labels) == Ok(norm) && Bare(norm)
    ensures Labels.RawBool(labels, "enable") && !Labels.RawBool(labels, "collector")
  {
    hide Labels.RawBool, Labels.SuffixMap, Labels.Consistent, ATTR_LABEL, ParseBool, Bare;
    BareLookups(norm);
    TrueParses();
    Labels.RawBoolAgrees(labels, "enable");
    Labels.RawBoolAgrees(labels, "collector");
  }

  lemma TrueParses()
    ensures ParseBool("true") == Some(true)
  {}

  lemma AttrLabel()
    ensures |ATTR_LABEL| > 20 && ATTR_LABEL[1] == 't'
  {}

  lemma BareNorms()
    ensures Bare(OPT_IN) && "" !in OPT_IN && "destination" !in OPT_IN
    ensures Bare(NOWHERE) && "" !in NOWHERE
    ensures NOWHERE["destination"] == "none" && ATTR_LABEL in NOWHERE && NOWHERE[ATTR_LABEL] == "debug"
  {
    AttrLabel();
    hide ATTR_LABEL;
    assert |"enable"| == 6 && |"destination"| == 11;
  }

  lemma NoDrops(norm: map<string, string>, env: Resolve.Env)
    requires Bare(norm)
    ensures Resolve.Drops(norm, None, env.regexOK, env.order(norm.Keys)) == Ok([])
  {
    hide Fields.CSV, Atoi, ATTR_LABEL;
    BareLookups(norm);
    var order := env.order(norm.Keys);
    Fields.CSVEmpty();
    forall k | k in order ensures Fields.ItemAt(norm, "drop")(k) == [] {
      if k in norm { NotDrop(k); }
    }
    FlatMapNone(order, Fields.ItemAt(norm, "drop"));
    assert Resolve.AllDrops(norm, None, order) == [];
  }

  predicate Unlabelled(norm: map<string, string>) {
    && "profile" !in norm && "parse" !in norm && "multiline" !in norm && "stream" !in norm
    && "level.min" !in norm && "level.field" !in norm
  }

  lemma BareLookups(norm: map<string, string>)
    requires Bare(norm)
    ensures "enable" in norm && norm["enable"] == "true"
    ensures Unlabelled(norm) && "drop" !in norm && "collector" !in norm
  {
    AttrLabel();
    hide ATTR_LABEL;
    forall k | k in norm ensures (|k| == 6 && k[0] == 'e') || (|k| == 11 && k[0] == 'd') || |k| > 20 {}
    assert "stream"[0] == 's' && "level.field"[0] == 'l';
  }

  lemma NotDrop(k: string)
    requires k in ["enable", "destination", ATTR_LABEL]
    ensures CutPrefix(k, "drop" + ".").None?
  {
    AttrLabel();
    assert ("drop" + ".")[1] == 'r' && k[1] != 'r';
  }

  /** Nothing of the service depends on parsing or filtering labels. */
  predicate Unshaped(s: ServiceSpec) {
    && s.source == DockerJSONFile && s.parse == ParseNone && s.parsePattern == "" && s.timestamp.None?
    && s.multiline == "" && s.levelField == "" && s.levelMapping == map[] && s.rawOperators == []
    && s.stream == StreamBoth && s.levelMin == "" && s.drop == []
  }

  lemma UnshapedFacts(s: ServiceSpec)
    requires Unshaped(s)
    ensures IsTailable(s) && forall c :: ParserOps(c, s) == []
    ensures forall e, r :: Kept(e, s, r)
  {}

  lemma BareAssembled(cand: Resolve.Candidate, norm: map<string, string>, cfg: Config.Config, env: Resolve.Env)
    requires Bare(norm)
    ensures var r := Resolve.Assembled(cand, norm, cfg, env);
      r.Ok? && r.value.containerID == cand.id && Unshaped(r.value)
  {
    hide Resolve.Drops, Resolve.AssembledWith, Bare, Unshaped;
    BareLookups(norm);
    NoDrops(norm, env);
    UnlabelledFields(cand, norm, cfg, env.regexOK);
  }

  lemma UnlabelledFields(cand: Resolve.Candidate, norm: map<string, string>, cfg: Config.Config, ok: string -> bool)
    requires Unlabelled(norm)
    ensures var r := Resolve.AssembledWith(cand, norm, None, cfg, ok, Ok([]));
      r.Ok? && r.value.containerID == cand.id && Unshaped(r.value)
  {
    hide Resolve.StaticAttrs, Resolve.Promoted, Resolve.ServiceName;
  }

  /** A container seen the same when listed and when inspected. */
  function Steady(cont: Container): Discovery.Seen { Discovery.Seen(cont, Some(cont)) }

  predicate Plain(cont: Container, selfID: string) {
    cont.id != selfID && !Resolve.BadDriver(Discovery.CandidateOf(cont))
  }

  ghost function ServiceOf(cont: Container, norm: map<string, string>, cfg: Config.Config, env: Resolve.Env,
                           routes: seq<Route>): ServiceSpec
    requires Bare(norm)
  {
    BareAssembled(Discovery.CandidateOf(cont), norm, cfg, env);
    Resolve.Assembled(Discovery.CandidateOf(cont), norm, cfg, env).value.(routes := routes)
  }

  lemma BareServes(cont: Container, norm: map<string, string>, cfg: Config.Config, selfID: string, env: Resolve.Env,
                   routes: seq<Route>)
    requires Plain(cont, selfID) && Labels.Normalized(cont.labels) == Ok(norm) && Bare(norm)
    requires Resolve.Routes(norm, cfg) == Ok(routes)
    ensures Discovery.ServiceFrom(cfg, selfID, env)(Steady(cont)) == [ServiceOf(cont, norm, cfg, env, routes)]
    ensures ServiceOf(cont, norm, cfg, env, routes).containerID == cont.id
    ensures Unshaped(ServiceOf(cont, norm, cfg, env, routes))
  {
    hide Resolve.Assembled, Resolve.Routes, Labels.Normalized, Labels.RawBool;
    var cand := Discovery.CandidateOf(cont);
    Marks(cont.labels, norm);
    BareAssembled(cand, norm, cfg, env);
    assert Resolve.Resolution(cand, cfg, selfID, env)
           == Resolve.Outcome(Some(ServiceOf(cont, norm, cfg, env, routes)), []);
  }

  lemma DebugRoutes(cfg: Config.Config)
    requires cfg.defaultDestination == DEBUG
    ensures Resolve.Routes(OPT_IN, cfg) == Ok([Route(DEBUG)])
  {
    Fields.CSVEmpty();
    assert Resolve.NamedDestinations(OPT_IN, cfg) == [DEBUG];
    assert Resolve.FirstBad([DEBUG], Resolve.ValidIn(cfg)).None? by { assert [DEBUG][1..] == []; }
    assert Dedup([DEBUG], {}) == [DEBUG] by { assert [DEBUG][1..] == []; }
    assert Map([DEBUG], Resolve.ToRoute) == [Route(DEBUG)];
  }

  lemma NowhereRoutes(cfg: Config.Config)
    ensures Resolve.Routes(NOWHERE, cfg) == Ok([])
  {
    BareNorms();
    hide ATTR_LABEL;
    Fields.CSVRoundTrip(["none"]);
    assert Join(["none"], ',') == "none";
    assert Resolve.NamedDestinations(NOWHERE, cfg) == ["none"];
  }

  // ----- one label is enough -----

  function OneLabel(cont: Container, cfg: Config.Config, selfID: string, env: Resolve.Env): Start {
    Start(cfg, [Steady(cont)], selfID, env)
  }

  /** With the debug destination as default, a container carrying nothing but the opt-in label has
      every line it logs exported, once. */
  lemma OneLabelSuffices(e: Engine, b: Knobs, c: Codec, cont: Container, cfg: Config.Config, selfID: string,
                         env: Resolve.Env, log: Log) returns (s: ServiceSpec)
    requires cont.labels == Spelled(OPT_IN) && Plain(cont, selfID) && cfg.defaultDestination == DEBUG
    requires Is64Hex(cont.id) && LogOf(cont.id, log.path)
    ensures Services(OneLabel(cont, cfg, selfID, env)) == [s]
    ensures multiset(Deliver(e, Compiled(b, c, SpecOf(OneLabel(cont, cfg, selfID, env))), log))
            == multiset(Map(DecodedLog(e, s, log), ToDebug(s)))
  {
    hide Deliver, Compiled, Is64Hex, DockerLogPath, LogOf, ParserOps, Kept, Unshaped, Resolve.Assembled, Resolve.Routes,
         Labels.Normalized, DecodedLog, Bare, Plain, Stamped;
    DockerPathExact(cont.id, log.path);
    BareNorms();
    SpelledNormalized(OPT_IN);
    DebugRoutes(cfg);
    s := ServiceOf(cont, OPT_IN, cfg, env, [Route(DEBUG)]);
    BareServes(cont, OPT_IN, cfg, selfID, env, [Route(DEBUG)]);
    OnlyService(Steady(cont), cfg, selfID, env, s);
    UnshapedFacts(s);
    assert s.routes == [Route(DEBUG)];
    PlainService(e, b, c, s, log);
    AllShown(e, s, DecodedLog(e, s, log));
    DebugSpec(s, cfg);
  }

  lemma OnlyService(f: Discovery.Seen, cfg: Config.Config, selfID: string, env: Resolve.Env, s: ServiceSpec)
    requires Discovery.ServiceFrom(cfg, selfID, env)(f) == [s]
    ensures Services(Start(cfg, [f], selfID, env)) == [s]
  {
    hide Discovery.ServiceFrom, Discovery.ById;
    FlatMapSingle(f, Discovery.ServiceFrom(cfg, selfID, env));
    assert [s][1..] == [];
    assert Sort([s], Discovery.ById) == [s];
  }

  lemma DebugSpec(s: ServiceSpec, cfg: Config.Config)
    requires s.routes == [Route(DEBUG)]
    ensures Assemble.AssembledSpec([s], cfg) == Spec([s], map[])
  {
    assert DestSet(s) == {DEBUG};
    assert Assemble.Referenced([s]) == {DEBUG};
    assert Assemble.Carried({DEBUG}, cfg) == map[];
  }

  lemma {:induction false} AllShown(e: Engine, s: ServiceSpec, rs: seq<Record>)
    requires forall r :: Kept(e, s, r)
    ensures FlatMap(rs, Shown(e, s)) == Map(rs, ToDebug(s))
  {
    hide Kept, ToDebug;
    if |rs| > 0 {
      AllShown(e, s, rs[1..]);
      assert Shown(e, s)(rs[0]) == [ToDebug(s)(rs[0])];
      assert Map(rs, ToDebug(s)) == [ToDebug(s)(rs[0])] + Map(rs[1..], ToDebug(s));
    }
  }

  // ----- a container routed nowhere that leaks -----

  function Pair(loud: Container, mute: Container, cfg: Config.Config, selfID: string, env: Resolve.Env): Start {
    Start(cfg, [Steady(loud), Steady(mute)], selfID, env)
  }

  lemma PairServices(loud: Container, mute: Container, cfg: Config.Config, selfID: string, env: Resolve.Env)
      returns (l: ServiceSpec, m: ServiceSpec)
    requires loud.labels == Spelled(OPT_IN) && mute.labels == Spelled(NOWHERE) && loud.id != mute.id
    requires Plain(loud, selfID) && Plain(mute, selfID) && cfg.defaultDestination == DEBUG
    ensures forall s :: s in Services(Pair(loud, mute, cfg, selfID, env)) <==> s == l || s == m
    ensures l.routes == [Route(DEBUG)] && Unshaped(l)
    ensures m.routes == [] && Unshaped(m) && m.containerID == mute.id
    ensures Resolve.At(m.staticAttrs, ROUTING_KEY) == Some(DEBUG)
  {
    hide Resolve.Assembled, Resolve.Routes, Labels.Normalized, Unshaped, Bare, Plain, Discovery.ById, Discovery.ServiceFrom,
         ATTR_LABEL, Spelled, ROUTING_KEY, NOWHERE, OPT_IN, Resolve.At;
    BareNorms();
    SpelledNormalized(OPT_IN);
    SpelledNormalized(NOWHERE);
    DebugRoutes(cfg);
    NowhereRoutes(cfg);
    BareServes(loud, OPT_IN, cfg, selfID, env, [Route(DEBUG)]);
    BareServes(mute, NOWHERE, cfg, selfID, env, []);
    l, m := ServiceOf(loud, OPT_IN, cfg, env, [Route(DEBUG)]), ServiceOf(mute, NOWHERE, cfg, env, []);
    var g, fleet := Discovery.ServiceFrom(cfg, selfID, env), [Steady(loud), Steady(mute)];
    assert fleet == [Steady(loud)] + [Steady(mute)];
    FlatMapCons(Steady(loud), [Steady(mute)], g);
    FlatMapSingle(Steady(mute), g);
    assert FlatMap(fleet, g) == [l, m];
    SortPerm([l, m], Discovery.ById);
    SameElems(Sort([l, m], Discovery.ById), [l, m]);
    MuteAttr(mute, cfg, env);
  }

  lemma MuteAttr(mute: Container, cfg: Config.Config, env: Resolve.Env)
    ensures Bare(NOWHERE)
    ensures Resolve.At(ServiceOf(mute, NOWHERE, cfg, env, []).staticAttrs, ROUTING_KEY) == Some(DEBUG)
  {
    hide Resolve.Assembled, Resolve.ProfileAttrs, Resolve.IsPromoted, NOWHERE, ROUTING_KEY;
    BareNorms();
    BareAssembled(Discovery.CandidateOf(mute), NOWHERE, cfg, env);
    Resolve.AttributePrecedence(Discovery.CandidateOf(mute), NOWHERE, cfg, env, ROUTING_KEY);
    assert ROUTING_KEY != "" by { NotEmpty(); }
  }

  lemma NotEmpty()
    ensures ROUTING_KEY != ""
  {}

  /** A container whose labels route it nowhere but set an attribute named like the routing key has
      its log exported, to the destination another container of the fleet is routed to. */
  lemma NowhereLeaks(e: Engine, b: Knobs, c: Codec, loud: Container, mute: Container, cfg: Config.Config,
                     selfID: string, env: Resolve.Env, log: Log) returns (m: ServiceSpec)
    requires loud.labels == Spelled(OPT_IN) && mute.labels == Spelled(NOWHERE) && loud.id != mute.id
    requires Plain(loud, selfID) && Plain(mute, selfID) && Is64Hex(mute.id)
    requires Config.SinksValid(cfg) && cfg.defaultDestination == DEBUG
    requires LogOf(mute.id, log.path) && |log.lines| > 0
    ensures var w := Pair(loud, mute, cfg, selfID, env);
      && m in Services(w) && m.containerID == mute.id && m.routes == []
      && Deliver(e, Compiled(b, c, SpecOf(w)), log) != []
  {
    hide Deliver, Compiled, Is64Hex, DockerLogPath, LogOf, ParserOps, Kept, Unshaped, Services, SpecOf, Plain, Sound, Tailable,
         Renderable, Config.SinksValid, Chain, Claims, SigHash, Key, Decoded;
    DockerPathExact(mute.id, log.path);
    var w := Pair(loud, mute, cfg, selfID, env);
    var l;
    l, m := PairServices(loud, mute, cfg, selfID, env);
    UnshapedFacts(l);
    UnshapedFacts(m);
    PairSeparate(c, Services(w), l, m);
    assert !AmbiguousDefault(cfg);
    FleetIsSound(w, c);
    RenderingNeverFails(w);
    ServicesFacts(w);
    PlainChain(e, c, m, log);
    NowhereExact(e, b, c, SpecOf(w), m, log);
    assert ForgesKey(Services(w), m) by { LoudKey(Services(w), l); }
    assert DecodedLog(e, m, log)[0] in DecodedLog(e, m, log);
  }

  lemma LoudKey(services: seq<ServiceSpec>, l: ServiceSpec)
    requires l in services && l.routes == [Route(DEBUG)]
    ensures DEBUG in Keys(services)
  {
    assert DestSet(l) == {DEBUG};
    SingletonKey(DEBUG);
    assert Key(l) == DEBUG && Routed(l);
  }

  lemma PairSeparate(c: Codec, services: seq<ServiceSpec>, l: ServiceSpec, m: ServiceSpec)
    requires forall s :: s in services <==> s == l || s == m
    requires Unshaped(l) && Unshaped(m) && m.routes == []
    ensures SignaturesSeparate(c, services) && KeysSeparate(c, services)
  {
    hide SigHash, Key;
    assert SignatureOf(l) == SignatureOf(m);
    assert !Routed(m);
  }
}
