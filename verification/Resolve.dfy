/** internal/discovery/resolve.go: one container's labels plus the config become a routed
    service, a silent skip, or a skip with diagnostics. */
module Resolve {
  import opened Wrappers
  import opened Sorting
  import opened Strings
  import opened Backend
  import opened Config
  import opened Labels
  import opened Fields

  datatype Candidate = Candidate(
    id: string,
    name: string,
    labels: map<string, string>,
    composeProject: string,
    composeService: string,
    image: string,
    logDriver: string)

  datatype Severity = SevError | SevWarning

  datatype Reason =
    | SelfExcluded
    | CollectorExcluded
    | LabelConflict(first: string, second: string)
    | BadBool(key: string)
    | UnknownProfile(name: string)
    | BadProfileParse(kind: string)
    | BadLabel(key: string, val: string)
    | BadRegex(key: string, pattern: string)
    | FloorWithoutParse
    | BadLogDriver(driver: string)
    | NoDestination
    | UnknownDestination(name: string)
    | InspectFailed

  datatype Diagnostic = Diagnostic(
    containerID: string, containerName: string, severity: Severity, reason: Reason)

  /** What the code takes from outside: regexp.Compile's verdict, and the order Go happens to
      walk a map's keys in. */
  datatype Env = Env(regexOK: string -> bool, order: set<string> -> seq<string>)

  ghost predicate Enumerates(order: set<string> -> seq<string>) {
    forall s :: NoDup(order(s)) && Elems(order(s)) == s
  }

  const JSON_FILE := "json-file"
  const LEVELS := ["trace", "debug", "info", "warn", "error", "fatal"]

  // ----- scalar fields -----

  function ServiceName(cand: Candidate, norm: map<string, string>): string {
    if Lookup(norm, "name") != "" then Lookup(norm, "name")
    else if cand.composeService != "" then cand.composeService
    else TrimSlash(cand.name)
  }

  datatype Parsing = Parsing(
    mode: ParseMode,
    pattern: string,
    timestamp: Option<Timestamp>,
    mapping: map<string, string>,
    levelField: string)

  function ProfileParsing(profile: Option<Profile>): Result<Parsing, Reason> {
    if profile.None? || profile.value.parse.None? then Ok(Parsing(ParseNone, "", None, map[], ""))
    else
      var pp := profile.value.parse.value;
      var mapping := if pp.level.Some? then pp.level.value.mapping else map[];
      var field := if pp.level.Some? then pp.level.value.field else "";
      if pp.kind == "regex" then Ok(Parsing(ParseRegex, pp.pattern, pp.timestamp, mapping, field))
      else if pp.kind == "json" then Ok(Parsing(ParseJSON, "", pp.timestamp, mapping, field))
      else if pp.kind == "logfmt" then Ok(Parsing(ParseLogfmt, "", pp.timestamp, mapping, field))
      else if pp.kind == "" || pp.kind == "none" then Ok(Parsing(ParseNone, "", pp.timestamp, mapping, field))
      else Err(BadProfileParse(pp.kind))
  }

  /** The label's parse mode overrides the profile's, and drops the profile's pattern. */
  function ResolveParse(norm: map<string, string>, profile: Option<Profile>): Result<Parsing, Reason> {
    var p :- ProfileParsing(profile);
    if "parse" !in norm then Ok(p)
    else if norm["parse"] == "json" then Ok(p.(mode := ParseJSON, pattern := ""))
    else if norm["parse"] == "logfmt" then Ok(p.(mode := ParseLogfmt, pattern := ""))
    else if norm["parse"] == "none" then Ok(p.(mode := ParseNone, pattern := ""))
    else Err(BadLabel("parse", norm["parse"]))
  }

  function ResolveStream(norm: map<string, string>): Result<Stream, Reason> {
    var v := Lookup(norm, "stream");
    if v == "" || v == "both" then Ok(StreamBoth)
    else if v == "stdout" then Ok(StreamStdout)
    else if v == "stderr" then Ok(StreamStderr)
    else Err(BadLabel("stream", v))
  }

  function ResolveMultiline(norm: map<string, string>, profile: Option<Profile>, ok: string -> bool)
    : Result<string, Reason>
  {
    var m := if "multiline" in norm then norm["multiline"]
             else if profile.Some? then profile.value.multiline else "";
    if m != "" && !ok(m) then Err(BadRegex("multiline", m)) else Ok(m)
  }

  function ResolveLevelMin(norm: map<string, string>): Result<string, Reason> {
    var v := Lookup(norm, "level.min");
    if v != "" && v !in LEVELS then Err(BadLabel("level.min", v)) else Ok(v)
  }

  // ----- drops -----

  function AllDrops(norm: map<string, string>, profile: Option<Profile>, order: seq<string>): seq<string> {
    CSV(Lookup(norm, "drop")) + IndexedIn(norm, "drop", order)
    + (if profile.Some? then profile.value.drop else [])
  }

  function FirstBad(xs: seq<string>, ok: string -> bool): Option<string> {
    if |xs| == 0 then None else if ok(xs[0]) then FirstBad(xs[1..], ok) else Some(xs[0])
  }

  lemma {:induction false} FirstBadNone(xs: seq<string>, ok: string -> bool)
    ensures FirstBad(xs, ok).None? <==> forall x :: x in xs ==> ok(x)
    ensures FirstBad(xs, ok).Some? ==> FirstBad(xs, ok).value in xs && !ok(FirstBad(xs, ok).value)
  {
    if |xs| > 0 {
      assert xs == [xs[0]] + xs[1..];
      FirstBadNone(xs[1..], ok);
    }
  }

  lemma {:induction false} FirstBadAt(xs: seq<string>, i: nat, ok: string -> bool)
    requires i < |xs| && !ok(xs[i]) && forall x :: x in xs[..i] ==> ok(x)
    ensures FirstBad(xs, ok) == Some(xs[i])
  {
    if i > 0 {
      assert xs[0] in xs[..i];
      assert xs[1..][..i - 1] == xs[1..i] && forall x :: x in xs[1..i] ==> x in xs[..i];
      FirstBadAt(xs[1..], i - 1, ok);
    }
  }

  function OrOK(ok: string -> bool): string -> bool { (s: string) => s == "" || ok(s) }

  /** The non-empty patterns of `all`, each once; the first invalid one is fatal. */
  function CheckedDrops(all: seq<string>, ok: string -> bool): Result<seq<string>, Reason> {
    match FirstBad(all, OrOK(ok))
    case Some(bad) => Err(BadRegex("drop", bad))
    case None => Ok(Dedup(Filter(all, NonEmpty), {}))
  }

  function Drops(norm: map<string, string>, profile: Option<Profile>, ok: string -> bool, order: seq<string>)
    : Result<seq<string>, Reason>
  {
    CheckedDrops(AllDrops(norm, profile, order), ok)
  }

  method ResolveDrops(norm: map<string, string>, profile: Option<Profile>, ok: string -> bool, order: seq<string>)
      returns (r: Result<seq<string>, Reason>)
    requires NoDup(order) && Elems(order) == norm.Keys
    ensures r == Drops(norm, profile, ok, order)
  {
    var all := SplitCSV(Lookup(norm, "drop"));
    var indexed := IndexedValues(norm, "drop", order);
    all := all + indexed;
    if profile.Some? {
      all := all + profile.value.drop;
    }
    assert all == AllDrops(norm, profile, order);
    r := CheckDrops(all, ok);
  }

  method CheckDrops(all: seq<string>, ok: string -> bool) returns (r: Result<seq<string>, Reason>)
    ensures r == CheckedDrops(all, ok)
  {
    var seen: set<string> := {};
    var out: seq<string> := [];
    ghost var kept: seq<string> := [];
    for i := 0 to |all|
      invariant kept == Filter(all[..i], NonEmpty)
      invariant seen == Elems(kept) && out == Dedup(kept, {})
      invariant forall d :: d in all[..i] ==> OrOK(ok)(d)
    {
      var d := all[i];
      assert all[..i + 1] == all[..i] + [d];
      FilterSnoc(all[..i], d, NonEmpty);
      if d == "" {
        continue;
      }
      DedupSnoc(kept, d, {});
      kept := kept + [d];
      if d in seen {
        continue;
      }
      seen := seen + {d};
      if !ok(d) {
        FirstBadAt(all, i, OrOK(ok));
        return Err(BadRegex("drop", d));
      }
      out := out + [d];
    }
    assert all[..|all|] == all;
    FirstBadNone(all, OrOK(ok));
    return Ok(out);
  }

  // ----- attributes and promoted labels -----

  const ATTR := "attr."

  ghost function AttrKeys(keys: set<string>): set<string> {
    set k | k in keys && ATTR < k :: k[|ATTR|..]
  }

  /** The attr.<key> labels, keyed by what follows the prefix, over the profile's attributes. */
  ghost function Attrs(norm: map<string, string>, profile: Option<Profile>): map<string, string> {
    Overlay(if profile.Some? then profile.value.attr else map[], norm, AttrKeys(norm.Keys))
  }

  ghost function Overlay(base: map<string, string>, norm: map<string, string>, keys: set<string>)
    : map<string, string>
  {
    base + map a | a in keys :: Lookup(norm, ATTR + a)
  }

  lemma OverlayStep(base: map<string, string>, norm: map<string, string>, keys: set<string>, a: string)
    ensures Overlay(base, norm, keys + {a}) == Overlay(base, norm, keys)[a := Lookup(norm, ATTR + a)]
  {}

  lemma AttrKeysStep(keys: set<string>, k: string)
    ensures AttrKeys(keys + {k}) == AttrKeys(keys) + (if ATTR < k then {k[|ATTR|..]} else {})
    ensures ATTR < k ==> ATTR + k[|ATTR|..] == k
  {}

  method ResolveAttrs(norm: map<string, string>, profile: Option<Profile>, order: seq<string>)
      returns (out: map<string, string>)
    requires NoDup(order) && Elems(order) == norm.Keys
    ensures out == Attrs(norm, profile)
  {
    out := if profile.Some? then profile.value.attr else map[];
    ghost var base := out;
    ghost var keys: set<string> := {};
    for i := 0 to |order|
      invariant keys == AttrKeys(Elems(order[..i]))
      invariant out == Overlay(base, norm, keys)
    {
      var k := order[i];
      assert k in Elems(order);
      assert order[..i + 1] == order[..i] + [k];
      assert Elems(order[..i + 1]) == Elems(order[..i]) + {k};
      AttrKeysStep(Elems(order[..i]), k);
      if ATTR < k {
        var key := k[|ATTR|..];
        OverlayStep(base, norm, keys, key);
        out, keys := out[key := norm[k]], keys + {key};
      }
    }
    assert order[..|order|] == order;
  }

  predicate NotNone(s: string) { s != NONE }

  /** "none" among the container's keys suppresses the fleet-wide set, and only that. */
  function Promoted(norm: map<string, string>, cfg: Config): seq<string> {
    var explicit := CSV(Lookup(norm, "labels"));
    Dedup((if NONE in explicit then [] else cfg.labels) + Filter(explicit, NotNone), {})
  }

  method ResolvePromotedLabels(norm: map<string, string>, cfg: Config) returns (out: seq<string>)
    ensures out == Promoted(norm, cfg)
  {
    var explicit := SplitCSV(Lookup(norm, "labels"));
    var suppress := false;
    var keys: seq<string> := [];
    for i := 0 to |explicit|
      invariant suppress <==> NONE in explicit[..i]
      invariant keys == Filter(explicit[..i], NotNone)
    {
      assert explicit[..i + 1] == explicit[..i] + [explicit[i]];
      FilterSnoc(explicit[..i], explicit[i], NotNone);
      if explicit[i] == NONE {
        suppress := true;
      } else {
        keys := keys + [explicit[i]];
      }
    }
    assert explicit[..|explicit|] == explicit;
    var base := if suppress then [] else cfg.labels;
    out := UnionStrings(base, keys);
  }

  /** The promoted labels the container carries with a value, under their own keys. */
  function PromotedValues(promoted: set<string>, labels: map<string, string>): map<string, string> {
    map k | k in promoted && k in labels && labels[k] != "" :: labels[k]
  }

  /** An attribute already set is never overwritten by a promoted label. */
  method PromoteLabelValues(attrs: map<string, string>, promoted: seq<string>, labels: map<string, string>)
      returns (out: map<string, string>)
    ensures out == PromotedValues(Elems(promoted), labels) + attrs
  {
    out := attrs;
    for i := 0 to |promoted|
      invariant out == PromotedValues(Elems(promoted[..i]), labels) + attrs
    {
      var key := promoted[i];
      assert promoted[..i + 1] == promoted[..i] + [key];
      assert Elems(promoted[..i + 1]) == Elems(promoted[..i]) + {key};
      if key in labels && labels[key] != "" && key !in out {
        out := out[key := labels[key]];
      }
    }
    assert promoted[..|promoted|] == promoted;
  }

  // ----- routes -----

  predicate DestinationValid(name: string, cfg: Config) { name == DEBUG || name in cfg.destinations }

  function ValidIn(cfg: Config): string -> bool { (n: string) => DestinationValid(n, cfg) }

  function ToRoute(n: string): Route { Route(n) }

  function NamedDestinations(norm: map<string, string>, cfg: Config): seq<string> {
    var names := CSV(Lookup(norm, "destination"));
    if |names| > 0 then names
    else if cfg.defaultDestination == "" then [] else [cfg.defaultDestination]
  }

  /** The named destinations as routes, each once; "none" routes nowhere. */
  function CheckedRoutes(names: seq<string>, cfg: Config): Result<seq<Route>, Reason> {
    if NONE in names then Ok([])
    else
      match FirstBad(names, ValidIn(cfg))
      case Some(bad) => Err(UnknownDestination(bad))
      case None => Ok(Map(Dedup(names, {}), ToRoute))
  }

  function Routes(norm: map<string, string>, cfg: Config): Result<seq<Route>, Reason> {
    var names := NamedDestinations(norm, cfg);
    if |names| == 0 then Err(NoDestination) else CheckedRoutes(names, cfg)
  }

  method ResolveRoutes(norm: map<string, string>, cfg: Config) returns (r: Result<seq<Route>, Reason>)
    ensures r == Routes(norm, cfg)
  {
    var names := SplitCSV(Lookup(norm, "destination"));
    if |names| == 0 {
      if cfg.defaultDestination == "" {
        return Err(NoDestination);
      }
      names := [cfg.defaultDestination];
    }
    r := CheckRoutes(names, cfg);
  }

  method CheckRoutes(names: seq<string>, cfg: Config) returns (r: Result<seq<Route>, Reason>)
    ensures r == CheckedRoutes(names, cfg)
  {
    for i := 0 to |names|
      invariant NONE !in names[..i]
    {
      assert names[..i + 1] == names[..i] + [names[i]];
      if names[i] == NONE {
        return Ok([]);
      }
    }
    assert names[..|names|] == names;
    var seen: set<string> := {};
    var kept: seq<string> := [];
    for i := 0 to |names|
      invariant seen == Elems(names[..i]) && kept == Dedup(names[..i], {})
      invariant forall n :: n in names[..i] ==> ValidIn(cfg)(n)
    {
      var n := names[i];
      assert names[..i + 1] == names[..i] + [n];
      if !DestinationValid(n, cfg) {
        FirstBadAt(names, i, ValidIn(cfg));
        return Err(UnknownDestination(n));
      }
      DedupSnoc(names[..i], n, {});
      if n !in seen {
        kept := kept + [n];
      }
      seen := seen + {n};
    }
    FirstBadNone(names, ValidIn(cfg));
    return Ok(Map(kept, ToRoute));
  }

  // ----- the whole resolution -----

  function ProfileOf(norm: map<string, string>, cfg: Config): Result<Option<Profile>, Reason> {
    var name := Lookup(norm, "profile");
    if name == "" then Ok(None)
    else if name in cfg.profiles then Ok(Some(cfg.profiles[name]))
    else Err(UnknownProfile(name))
  }

  /** Every field but the routes. */
  ghost function Assembled(cand: Candidate, norm: map<string, string>, cfg: Config, env: Env)
    : Result<ServiceSpec, Reason>
  {
    var profile :- ProfileOf(norm, cfg);
    AssembledWith(cand, norm, profile, cfg, env.regexOK, Drops(norm, profile, env.regexOK, env.order(norm.Keys)))
  }

  ghost function StaticAttrs(cand: Candidate, norm: map<string, string>, profile: Option<Profile>, cfg: Config)
    : map<string, string>
  {
    PromotedValues(Elems(Promoted(norm, cfg)), cand.labels) + Attrs(norm, profile)
  }

  ghost function AssembledWith(cand: Candidate, norm: map<string, string>, profile: Option<Profile>,
                               cfg: Config, ok: string -> bool, drops: Result<seq<string>, Reason>)
    : Result<ServiceSpec, Reason>
  {
    var p :- ResolveParse(norm, profile);
    var multiline :- ResolveMultiline(norm, profile, ok);
    var stream :- ResolveStream(norm);
    var levelMin :- ResolveLevelMin(norm);
    var drop :- drops;
    Ok(ServiceSpec(
      containerID := cand.id,
      name := ServiceName(cand, norm),
      source := DockerJSONFile,
      routes := [],
      containerName := cand.name,
      composeProject := cand.composeProject,
      composeService := cand.composeService,
      image := cand.image,
      staticAttrs := StaticAttrs(cand, norm, profile, cfg),
      promotedLabels := Promoted(norm, cfg),
      parse := p.mode,
      parsePattern := p.pattern,
      timestamp := p.timestamp,
      multiline := multiline,
      levelField := if Lookup(norm, "level.field") != "" then norm["level.field"] else p.levelField,
      levelMapping := p.mapping,
      levelMin := levelMin,
      stream := stream,
      drop := drop,
      rawOperators := if profile.Some? then profile.value.operators else [],
      profile := Lookup(norm, "profile")))
  }

  datatype Outcome = Outcome(spec: Option<ServiceSpec>, diags: seq<Diagnostic>)

  function Warn(cand: Candidate, r: Reason): Diagnostic { Diagnostic(cand.id, cand.name, SevWarning, r) }
  function Fail(cand: Candidate, r: Reason): Diagnostic { Diagnostic(cand.id, cand.name, SevError, r) }

  predicate IsSelf(cand: Candidate, selfID: string) { selfID != "" && cand.id == selfID }

  predicate Excluded(cand: Candidate, selfID: string) {
    IsSelf(cand, selfID) || RawBool(cand.labels, "collector")
  }

  predicate BadDriver(cand: Candidate) { cand.logDriver != "" && cand.logDriver != JSON_FILE }

  /** Log driver and routes, once every other field is in place. */
  ghost function Finished(cand: Candidate, s: ServiceSpec, routes: Result<seq<Route>, Reason>): Outcome {
    var warned := if s.levelMin != "" && s.parse == ParseNone then [Warn(cand, FloorWithoutParse)] else [];
    if BadDriver(cand) then Outcome(None, warned + [Warn(cand, BadLogDriver(cand.logDriver))])
    else
      match routes
      case Err(e) => Outcome(None, warned + [Fail(cand, e)])
      case Ok(rs) => Outcome(Some(s.(routes := rs)), warned)
  }

  ghost function Enabled(cand: Candidate, norm: map<string, string>, cfg: Config, env: Env): Outcome {
    match Assembled(cand, norm, cfg, env)
    case Err(e) => Outcome(None, [Fail(cand, e)])
    case Ok(s) => Finished(cand, s, Routes(norm, cfg))
  }

  ghost function Resolution(cand: Candidate, cfg: Config, selfID: string, env: Env): Outcome {
    if Excluded(cand, selfID) then
      Outcome(None, if !RawBool(cand.labels, "enable") then []
                    else [Warn(cand, if IsSelf(cand, selfID) then SelfExcluded else CollectorExcluded)])
    else
      match Normalized(cand.labels)
      case Err(p) => Outcome(None, [Fail(cand, LabelConflict(p.0, p.1))])
      case Ok(norm) =>
        match ParseBoolOr(norm, "enable", false)
        case None => Outcome(None, [Fail(cand, BadBool("enable"))])
        case Some(false) => Outcome(None, [])
        case Some(true) => Enabled(cand, norm, cfg, env)
  }

  method Resolve(cand: Candidate, cfg: Config, selfID: string, env: Env)
      returns (spec: Option<ServiceSpec>, diags: seq<Diagnostic>)
    requires Enumerates(env.order)
    ensures Outcome(spec, diags) == Resolution(cand, cfg, selfID, env)
  {
    hide Assembled, Routes;
    diags := [];
    if Excluded(cand, selfID) {
      if RawBool(cand.labels, "enable") {
        diags := [Warn(cand, if IsSelf(cand, selfID) then SelfExcluded else CollectorExcluded)];
      }
      return None, diags;
    }
    var normalized := NormalizeLabels(cand.labels, env.order(cand.labels.Keys));
    if normalized.Err? {
      FirstClashReported(cand.labels, normalized.error);
      return None, [Fail(cand, LabelConflict(normalized.error.0, normalized.error.1))];
    }
    var norm := normalized.value;
    var enabled := ParseBoolOr(norm, "enable", false);
    if enabled.None? {
      return None, [Fail(cand, BadBool("enable"))];
    }
    if !enabled.value {
      return None, [];
    }
    var built := Assemble(cand, norm, cfg, env);
    if built.Err? {
      return None, [Fail(cand, built.error)];
    }
    var s := built.value;
    if s.levelMin != "" && s.parse == ParseNone {
      diags := diags + [Warn(cand, FloorWithoutParse)];
    }
    if BadDriver(cand) {
      return None, diags + [Warn(cand, BadLogDriver(cand.logDriver))];
    }
    var routes := ResolveRoutes(norm, cfg);
    if routes.Err? {
      return None, diags + [Fail(cand, routes.error)];
    }
    return Some(s.(routes := routes.value)), diags;
  }

  /** The field-by-field part of Resolve: the first invalid field ends it. */
  method Assemble(cand: Candidate, norm: map<string, string>, cfg: Config, env: Env)
      returns (r: Result<ServiceSpec, Reason>)
    requires Enumerates(env.order)
    ensures r == Assembled(cand, norm, cfg, env)
  {
    var profile: Option<Profile> := None;
    var profileName := Lookup(norm, "profile");
    if profileName != "" {
      if profileName !in cfg.profiles {
        return Err(UnknownProfile(profileName));
      }
      profile := Some(cfg.profiles[profileName]);
    }
    var p :- ResolveParse(norm, profile);
    var levelField := p.levelField;
    if Lookup(norm, "level.field") != "" {
      levelField := norm["level.field"];
    }
    var multiline :- ResolveMultiline(norm, profile, env.regexOK);
    var stream :- ResolveStream(norm);
    var levelMin :- ResolveLevelMin(norm);
    var drop :- ResolveDrops(norm, profile, env.regexOK, env.order(norm.Keys));
    var attrs := ResolveAttrs(norm, profile, env.order(norm.Keys));
    var promoted := ResolvePromotedLabels(norm, cfg);
    attrs := PromoteLabelValues(attrs, promoted, cand.labels);
    var operators: seq<Operator> := if profile.Some? then profile.value.operators else [];
    return Ok(ServiceSpec(
      cand.id, ServiceName(cand, norm), DockerJSONFile, [], cand.name, cand.composeProject,
      cand.composeService, cand.image, attrs, promoted, p.mode, p.pattern, p.timestamp, multiline,
      levelField, p.mapping, levelMin, stream, drop, operators, profileName));
  }

  // ----- what a resolution promises -----

  function CountErrors(diags: seq<Diagnostic>): nat {
    if |diags| == 0 then 0 else (if diags[0].severity == SevError then 1 else 0) + CountErrors(diags[1..])
  }

  lemma CountErrorsSmall(a: Diagnostic, b: Diagnostic)
    ensures CountErrors([]) == 0
    ensures CountErrors([a]) == if a.severity == SevError then 1 else 0
    ensures CountErrors([a, b]) == CountErrors([a]) + CountErrors([b])
  {
    assert [a][1..] == [] && [a, b][1..] == [b];
  }

  /** Skipped with at most one error, never routed with one, and never silent. */
  ghost predicate Accounted(cand: Candidate, o: Outcome) {
    && CountErrors(o.diags) <= 1
    && (CountErrors(o.diags) == 1 ==> o.spec.None?)
    && (o.spec.Some? || o.diags != [])
    && (o.spec.Some? ==> !BadDriver(cand) && IdentifiedBy(o.spec.value, cand))
    && (forall d :: d in o.diags ==> d.containerID == cand.id)
  }

  predicate IdentifiedBy(s: ServiceSpec, cand: Candidate) {
    s.containerID == cand.id && s.source == DockerJSONFile
  }

  lemma FinishedAccounts(cand: Candidate, s: ServiceSpec, routes: Result<seq<Route>, Reason>)
    requires IdentifiedBy(s, cand)
    ensures Accounted(cand, Finished(cand, s, routes))
  {
    var floor := Warn(cand, FloorWithoutParse);
    var last := if routes.Err? then Fail(cand, routes.error) else floor;
    var driver := Warn(cand, BadLogDriver(cand.logDriver));
    CountErrorsSmall(floor, last);
    CountErrorsSmall(floor, driver);
    CountErrorsSmall(last, driver);
    assert [floor] + [last] == [floor, last] && [] + [last] == [last];
    assert [floor] + [driver] == [floor, driver] && [] + [driver] == [driver];
  }

  lemma EnabledAccounts(cand: Candidate, norm: map<string, string>, cfg: Config, env: Env)
    ensures Accounted(cand, Enabled(cand, norm, cfg, env))
  {
    hide Assembled, Finished, Routes;
    match Assembled(cand, norm, cfg, env)
    case Err(e) => CountErrorsSmall(Fail(cand, e), Fail(cand, e));
    case Ok(s) =>
      AssembledIdentified(cand, norm, cfg, env);
      FinishedAccounts(cand, s, Routes(norm, cfg));
  }

  lemma AssembledIdentified(cand: Candidate, norm: map<string, string>, cfg: Config, env: Env)
    requires Assembled(cand, norm, cfg, env).Ok?
    ensures IdentifiedBy(Assembled(cand, norm, cfg, env).value, cand)
  {
    hide ResolveParse, ResolveMultiline, ResolveStream, ResolveLevelMin, Drops, StaticAttrs, Promoted, ServiceName;
  }

  lemma EnabledIsMarked(labels: map<string, string>)
    requires Consistent(labels)
    ensures ParseBoolOr(SuffixMap(labels), "enable", false) == Some(true) <==> RawBool(labels, "enable")
  {
    RawBoolAgrees(labels, "enable");
    assert ParseBool("").None?;
  }

  /** Whatever the labels, at most one error, then no service, and all under the container's id. */
  ghost predicate Bounded(cand: Candidate, o: Outcome) {
    && CountErrors(o.diags) <= 1
    && (CountErrors(o.diags) == 1 ==> o.spec.None?)
    && (o.spec.Some? ==> IdentifiedBy(o.spec.value, cand))
    && (forall d :: d in o.diags ==> d.containerID == cand.id)
  }

  /** An opted-in container is routed or explained, with at most one error and never both;
      what is routed opted in and is neither bilgeline itself nor a collector. */
  lemma ResolutionAccounts(cand: Candidate, cfg: Config, selfID: string, env: Env)
    ensures Bounded(cand, Resolution(cand, cfg, selfID, env))
    ensures RawBool(cand.labels, "enable") ==> Accounted(cand, Resolution(cand, cfg, selfID, env))
    ensures Resolution(cand, cfg, selfID, env).spec.Some? ==>
      RawBool(cand.labels, "enable") && !Excluded(cand, selfID)
  {
    hide Assembled, Finished;
    var o := Resolution(cand, cfg, selfID, env);
    if !Excluded(cand, selfID) && Consistent(cand.labels) {
      EnabledIsMarked(cand.labels);
      EnabledAccounts(cand, SuffixMap(cand.labels), cfg, env);
    }
    if o.diags != [] {
      CountErrorsSmall(o.diags[0], o.diags[0]);
      assert |o.diags| == 1 ==> o.diags == [o.diags[0]];
    }
  }

  function At(m: map<string, string>, k: string): Option<string> {
    if k in m then Some(m[k]) else None
  }

  function ProfileAttrs(norm: map<string, string>, cfg: Config): map<string, string> {
    match ProfileOf(norm, cfg)
    case Ok(Some(p)) => p.attr
    case _ => map[]
  }

  /** The attribute source that wins key `k`: an attr.<k> label, else the profile, else a
      promoted label the container carries with a value. */
  function WinningAttr(cand: Candidate, norm: map<string, string>, cfg: Config, k: string): Option<string> {
    if k != "" && "attr." + k in norm then Some(norm["attr." + k])
    else if k in ProfileAttrs(norm, cfg) then Some(ProfileAttrs(norm, cfg)[k])
    else if IsPromoted(norm, cfg, k) && Lookup(cand.labels, k) != "" then Some(cand.labels[k])
    else None
  }

  lemma AttributePrecedence(cand: Candidate, norm: map<string, string>, cfg: Config, env: Env, k: string)
    requires Assembled(cand, norm, cfg, env).Ok?
    ensures At(Assembled(cand, norm, cfg, env).value.staticAttrs, k) == WinningAttr(cand, norm, cfg, k)
  {
    hide AssembledWith, Drops, IsPromoted, Attrs, Promoted;
    var promoted := PromotedValues(Elems(Promoted(norm, cfg)), cand.labels);
    var profile := ProfileOf(norm, cfg).value;
    AssembledAttrs(cand, norm, profile, cfg, env.regexOK,
                   Drops(norm, profile, env.regexOK, env.order(norm.Keys)));
    AttrsAt(norm, profile, k);
    PromotedIff(norm, cfg, k);
    assert k in promoted <==> k in Promoted(norm, cfg) && Lookup(cand.labels, k) != "";
  }

  lemma AttrsAt(norm: map<string, string>, profile: Option<Profile>, k: string)
    ensures At(Attrs(norm, profile), k) ==
      if k != "" && ATTR + k in norm then Some(norm[ATTR + k])
      else At(if profile.Some? then profile.value.attr else map[], k)
  {
    hide AttrKeys;
    AttrKeyIff(norm, k);
  }

  lemma AssembledAttrs(cand: Candidate, norm: map<string, string>, profile: Option<Profile>,
                       cfg: Config, ok: string -> bool, drops: Result<seq<string>, Reason>)
    requires AssembledWith(cand, norm, profile, cfg, ok, drops).Ok?
    ensures AssembledWith(cand, norm, profile, cfg, ok, drops).value.staticAttrs
            == StaticAttrs(cand, norm, profile, cfg)
  {
    hide ResolveParse, ResolveMultiline, ResolveStream, ResolveLevelMin, StaticAttrs, Promoted, ServiceName;
  }

  lemma AttrKeyIff(norm: map<string, string>, k: string)
    ensures k in AttrKeys(norm.Keys) <==> k != "" && ATTR + k in norm
  {
    if k != "" && ATTR + k in norm {
      assert ATTR < ATTR + k && (ATTR + k)[|ATTR|..] == k;
    }
    if k in AttrKeys(norm.Keys) {
      var l :| l in norm.Keys && ATTR < l && l[|ATTR|..] == k;
      assert l == ATTR + k;
    }
  }

  /** "none" in the container's list turns off the fleet-wide set and promotes nothing itself. */
  predicate IsPromoted(norm: map<string, string>, cfg: Config, k: string) {
    var explicit := CSV(Lookup(norm, "labels"));
    (k in explicit && k != NONE) || (NONE !in explicit && k in cfg.labels)
  }

  lemma PromotedIff(norm: map<string, string>, cfg: Config, k: string)
    ensures k in Promoted(norm, cfg) <==> IsPromoted(norm, cfg, k)
  {
    var explicit := CSV(Lookup(norm, "labels"));
    DedupElems((if NONE in explicit then [] else cfg.labels) + Filter(explicit, NotNone), {});
  }
}
