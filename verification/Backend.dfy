/** internal/backend/backend.go: the runtime-neutral description bilgeline renders. */
module Backend {
  import opened Wrappers
  import opened Sorting
  import opened Strings

  /** A decoded YAML value, as far as bilgeline distinguishes one from another. */
  datatype Value =
    | Text(text: string)
    | Mapping(entries: map<string, string>)
    | Flag(flag: bool)
    | Opaque(yaml: string)

  /** One stanza operator: a map from setting names to values. */
  type Operator = map<string, Value>

  datatype Source = DockerJSONFile | PodmanJournald
  datatype ParseMode = ParseNone | ParseJSON | ParseLogfmt | ParseRegex
  datatype Stream = StreamBoth | StreamStdout | StreamStderr
  datatype Timestamp = Timestamp(field: string, layout: string)
  datatype Route = Route(destination: string)
  datatype Destination = Destination(name: string, kind: string, settings: map<string, Value>)

  datatype ServiceSpec = ServiceSpec(
    containerID: string,
    name: string,
    source: Source,
    routes: seq<Route>,
    containerName: string,
    composeProject: string,
    composeService: string,
    image: string,
    staticAttrs: map<string, string>,
    promotedLabels: seq<string>,
    parse: ParseMode,
    parsePattern: string,
    timestamp: Option<Timestamp>,
    multiline: string,
    levelField: string,
    levelMapping: map<string, string>,
    levelMin: string,
    stream: Stream,
    drop: seq<string>,
    rawOperators: seq<Operator>,
    profile: string)

  datatype Spec = Spec(services: seq<ServiceSpec>, destinations: map<string, Destination>)

  /** The set of destinations a service routes to. */
  function DestSet(s: ServiceSpec): set<string> { set r | r in s.routes :: r.destination }

  /** The same set, sorted: the routing key the renderer groups services by. */
  ghost function Names(s: ServiceSpec): seq<string> { SortedSet(DestSet(s)) }

  method DestinationNames(s: ServiceSpec) returns (names: seq<string>)
    ensures names == Names(s)
    ensures NoDup(names) && forall n :: n in names <==> n in DestSet(s)
  {
    var seen: set<string> := {};
    var out: seq<string> := [];
    for i := 0 to |s.routes|
      invariant seen == set r | r in s.routes[..i] :: r.destination
      invariant Elems(out) == seen && NoDup(out)
    {
      var d := s.routes[i].destination;
      assert s.routes[..i + 1] == s.routes[..i] + [s.routes[i]];
      if d !in seen {
        seen := seen + {d};
        out := out + [d];
      }
    }
    assert s.routes[..|s.routes|] == s.routes;
    SortIsSortedSet(out);
    SortedSetFacts(DestSet(s));
    names := Sort(out, StrLe);
  }

  /** The routing-key value: the sorted names joined by commas. */
  ghost function Key(s: ServiceSpec): string { Join(Names(s), ',') }

  ghost predicate Routed(s: ServiceSpec) { DestSet(s) != {} }

  ghost predicate CommaFree(s: ServiceSpec) {
    forall n :: n in DestSet(s) ==> ',' !in n
  }

  /** Splitting a routing key recovers the destination list, when no name holds a comma. */
  lemma KeySplits(s: ServiceSpec)
    requires Routed(s) && CommaFree(s)
    ensures Split(Key(s), ',') == Names(s)
  {
    SortedSetFacts(DestSet(s));
    SplitJoin(Names(s), ',');
  }

  /** Hence two services share a routing key exactly when their destination sets agree. */
  lemma KeyInjective(s: ServiceSpec, t: ServiceSpec)
    requires Routed(s) && Routed(t) && CommaFree(s) && CommaFree(t)
    ensures Key(s) == Key(t) <==> DestSet(s) == DestSet(t)
  {
    if Key(s) == Key(t) {
      KeySplits(s);
      KeySplits(t);
      SortedSetFacts(DestSet(s));
      SortedSetFacts(DestSet(t));
      assert forall n :: n in DestSet(s) <==> n in DestSet(t);
    }
  }

  /** Without that hypothesis keys collide: one destination named "a,b" against {a, b}. */
  lemma KeyClash(s: ServiceSpec, t: ServiceSpec)
    requires s.routes == [Route("a,b")] && t.routes == [Route("b"), Route("a")]
    ensures DestSet(s) != DestSet(t) && Key(s) == Key(t)
  {
    assert DestSet(s) == {"a,b"} && "a" in DestSet(t);
    assert DestSet(t) == {"a", "b"};
    SortIsSortedSet(["a,b"]);
    SortIsSortedSet(["b", "a"]);
    assert Elems(["a,b"]) == {"a,b"} && Elems(["b", "a"]) == {"a", "b"};
    assert Sort(["a,b"], StrLe) == ["a,b"];
    assert Sort(["b", "a"], StrLe) == ["a", "b"] by {
      assert ["b", "a"][1..] == ["a"];
      assert Sort(["a"], StrLe) == ["a"];
      assert !StrLe("b", "a");
    }
    assert Join(["a", "b"], ',') == "a" + [','] + Join(["a", "b"][1..], ',');
    assert ["a", "b"][1..] == ["b"];
    assert "a" + [','] + "b" == "a,b";
  }

  // ----- content hash -----

  /** The JSON encoder (None on a value it cannot encode) and SHA-256 in hex. */
  datatype Digest = Digest(json: Spec -> Option<string>, sha: string -> string)

  function Hash(d: Digest, s: Spec): string {
    match d.json(s)
    case None => "unhashable"
    case Some(data) => d.sha(data)
  }

  /** Neither function collides on the specs in play, and no digest is the sentinel. */
  ghost predicate Collisionless(d: Digest, specs: iset<Spec>) {
    && (forall s, t :: s in specs && t in specs && d.json(s).Some? && d.json(s) == d.json(t) ==> s == t)
    && (forall s, t | s in specs && t in specs && d.json(s).Some? && d.json(t).Some? ::
          d.sha(d.json(s).value) == d.sha(d.json(t).value) ==> d.json(s) == d.json(t))
    && (forall s :: s in specs && d.json(s).Some? ==> d.sha(d.json(s).value) != "unhashable")
  }

  /** Exactly which specs the hash confuses: those the encoder rejects, all with one another. */
  lemma HashExact(d: Digest, specs: iset<Spec>, s: Spec, t: Spec)
    requires Collisionless(d, specs) && s in specs && t in specs
    ensures Hash(d, s) == Hash(d, t) <==> s == t || (d.json(s).None? && d.json(t).None?)
  {}
}
