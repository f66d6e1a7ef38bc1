/** What a container's labels mean: every field of its service, which records it keeps and when it is
    routed at all, said in terms of the label texts, the profile and the container alone. */
module Labelled {
  import opened Wrappers
  import opened Sorting
  import opened Strings
  import opened Backend
  import opened Config
  import opened Labels
  import opened Fields
  import opened Resolve
  import opened Collector
  import opened Meaning

  // ----- the vocabulary -----

  function ProfileNamed(norm: map<string, string>, cfg: Config): Option<Profile> {
    var name := Lookup(norm, "profile");
    if name != "" && name in cfg.profiles then Some(cfg.profiles[name]) else None
  }

  function ProfileParse(profile: Option<Profile>): Option<ParseSpec> {
    if profile.Some? then profile.value.parse else None
  }

  function ProfileKind(profile: Option<Profile>): string {
    if ProfileParse(profile).Some? then ProfileParse(profile).value.kind else ""
  }

  function ProfileLevel(profile: Option<Profile>): Option<Level> {
    if ProfileParse(profile).Some? then ProfileParse(profile).value.level else None
  }

  /** The text that decides the parse mode: the label's, else the profile's. */
  function ParseText(norm: map<string, string>, profile: Option<Profile>): string {
    if "parse" in norm then norm["parse"] else ProfileKind(profile)
  }

  predicate ModeSpelled(mode: ParseMode, text: string) {
    match mode
    case ParseJSON => text == "json"
    case ParseLogfmt => text == "logfmt"
    case ParseRegex => text == "regex"
    case ParseNone => text in {"none", ""}
  }

  predicate StreamSpelled(stream: Stream, text: string) {
    match stream
    case StreamStdout => text == "stdout"
    case StreamStderr => text == "stderr"
    case StreamBoth => text in {"both", ""}
  }

  function MultilineText(norm: map<string, string>, profile: Option<Profile>): string {
    if "multiline" in norm then norm["multiline"] else if profile.Some? then profile.value.multiline else ""
  }

  ghost predicate InList(list: string, item: string) {
    exists part :: part in Split(list, ',') && Trimmed(part, item)
  }

  /** A drop pattern from the list label, a numbered label or the profile. */
  ghost predicate DropNamed(norm: map<string, string>, profile: Option<Profile>, p: string) {
    && p != ""
    && (InList(Lookup(norm, "drop"), p) || (exists n :: SpelledBy(norm, "drop", n, p))
        || (profile.Some? && p in profile.value.drop))
  }

  /** The name label, else the compose service, else the container's name without its slash. */
  predicate NameSpelled(cand: Candidate, norm: map<string, string>, name: string) {
    if Lookup(norm, "name") != "" then name == norm["name"]
    else if cand.composeService != "" then name == cand.composeService
    else Slashed(cand.name, name)
  }

  const LEVEL_FLOORS: map<string, int> :=
    map["trace" := 1, "debug" := 5, "info" := 9, "warn" := 13, "error" := 17, "fatal" := 21]

  // ----- what is acceptable -----

  predicate ParseAcceptable(norm: map<string, string>, profile: Option<Profile>) {
    && ProfileKind(profile) in {"regex", "json", "logfmt", "none", ""}
    && ("parse" in norm ==> norm["parse"] in {"json", "logfmt", "none"})
  }

  predicate MultilineAcceptable(norm: map<string, string>, profile: Option<Profile>, ok: string -> bool) {
    MultilineText(norm, profile) == "" || ok(MultilineText(norm, profile))
  }

  predicate StreamAcceptable(norm: map<string, string>) { Lookup(norm, "stream") in {"", "both", "stdout", "stderr"} }

  predicate LevelAcceptable(norm: map<string, string>) {
    Lookup(norm, "level.min") == "" || Lookup(norm, "level.min") in LEVEL_FLOORS
  }

  predicate ProfileAcceptable(norm: map<string, string>, cfg: Config) {
    Lookup(norm, "profile") == "" || Lookup(norm, "profile") in cfg.profiles
  }

  ghost predicate DropsAcceptable(norm: map<string, string>, profile: Option<Profile>, ok: string -> bool) {
    forall p :: DropNamed(norm, profile, p) ==> ok(p)
  }

  ghost predicate Acceptable(norm: map<string, string>, cfg: Config, ok: string -> bool) {
    var profile := ProfileNamed(norm, cfg);
    && ProfileAcceptable(norm, cfg) && ParseAcceptable(norm, profile) && MultilineAcceptable(norm, profile, ok)
    && StreamAcceptable(norm) && LevelAcceptable(norm) && DropsAcceptable(norm, profile, ok)
  }

  /** The reason names something that is wrong with these labels. */
  ghost predicate Explains(reason: Reason, norm: map<string, string>, cfg: Config, ok: string -> bool) {
    var profile := ProfileNamed(norm, cfg);
    match reason
    case UnknownProfile(n) => n == Lookup(norm, "profile") && !ProfileAcceptable(norm, cfg)
    case BadProfileParse(k) => k == ProfileKind(profile) && k !in {"regex", "json", "logfmt", "none", ""}
    case BadLabel(k, v) =>
      && v == Lookup(norm, k)
      && ((k == "parse" && "parse" in norm && v !in {"json", "logfmt", "none"})
          || (k == "stream" && !StreamAcceptable(norm)) || (k == "level.min" && !LevelAcceptable(norm)))
    case BadRegex(k, p) =>
      !ok(p) && ((k == "multiline" && p == MultilineText(norm, profile)) || (k == "drop" && DropNamed(norm, profile, p)))
    case _ => false
  }

  // ----- field by field -----

  lemma ParseExact(norm: map<string, string>, cfg: Config, ok: string -> bool)
    ensures var profile := ProfileNamed(norm, cfg); var r := ResolveParse(norm, profile);
      && (r.Ok? <==> ParseAcceptable(norm, profile))
      && (r.Ok? ==>
            && ModeSpelled(r.value.mode, ParseText(norm, profile))
            && r.value.pattern == (if "parse" !in norm && ProfileKind(profile) == "regex"
                                   then ProfileParse(profile).value.pattern else "")
            && r.value.timestamp == (if ProfileParse(profile).Some? then ProfileParse(profile).value.timestamp else None)
            && r.value.mapping == (if ProfileLevel(profile).Some? then ProfileLevel(profile).value.mapping else map[])
            && r.value.levelField == (if ProfileLevel(profile).Some? then ProfileLevel(profile).value.field else ""))
      && (r.Err? ==> Explains(r.error, norm, cfg, ok))
  {}

  lemma StreamExact(norm: map<string, string>, cfg: Config, ok: string -> bool)
    ensures var r := ResolveStream(norm);
      && (r.Ok? <==> StreamAcceptable(norm))
      && (r.Ok? ==> StreamSpelled(r.value, Lookup(norm, "stream")))
      && (r.Err? ==> Explains(r.error, norm, cfg, ok))
  {}

  lemma MultilineExact(norm: map<string, string>, cfg: Config, ok: string -> bool)
    ensures var profile := ProfileNamed(norm, cfg); var r := ResolveMultiline(norm, profile, ok);
      && (r.Ok? <==> MultilineAcceptable(norm, profile, ok))
      && (r.Ok? ==> r.value == MultilineText(norm, profile))
      && (r.Err? ==> Explains(r.error, norm, cfg, ok))
  {}

  lemma LevelMinExact(norm: map<string, string>, cfg: Config, ok: string -> bool)
    ensures var r := ResolveLevelMin(norm);
      && (r.Ok? <==> LevelAcceptable(norm))
      && (r.Ok? ==> r.value == Lookup(norm, "level.min"))
      && (r.Err? ==> Explains(r.error, norm, cfg, ok))
  {}

  lemma AllDropsExact(norm: map<string, string>, profile: Option<Profile>, order: seq<string>)
    requires Walks(order, norm)
    ensures forall p :: p in AllDrops(norm, profile, order) && p != "" <==> DropNamed(norm, profile, p)
  {
    hide SpelledBy, IndexedIn, CSV;
    IndexedExact(norm, "drop", order);
    forall p { CSVExact(Lookup(norm, "drop"), p); }
  }

  lemma DropsExact(norm: map<string, string>, cfg: Config, ok: string -> bool, order: seq<string>)
    requires Walks(order, norm)
    ensures var profile := ProfileNamed(norm, cfg); var r := Drops(norm, profile, ok, order);
      && (r.Ok? <==> DropsAcceptable(norm, profile, ok))
      && (r.Ok? ==> NoDup(r.value) && forall p :: p in r.value <==> DropNamed(norm, profile, p))
      && (r.Err? ==> Explains(r.error, norm, cfg, ok))
  {
    hide AllDrops, ProfileNamed, DropNamed, Walks;
    var profile := ProfileNamed(norm, cfg);
    var all := AllDrops(norm, profile, order);
    AllDropsExact(norm, profile, order);
    FirstBadNone(all, OrOK(ok));
    DedupElems(Filter(all, NonEmpty), {});
  }

  /** The service's fields, as the labels, the profile and the container spell them. */
  ghost predicate AsLabelled(cand: Candidate, norm: map<string, string>, cfg: Config, s: ServiceSpec) {
    var profile := ProfileNamed(norm, cfg);
    var level := ProfileLevel(profile);
    && s.containerID == cand.id && s.containerName == cand.name && s.image == cand.image
    && s.composeProject == cand.composeProject && s.composeService == cand.composeService
    && s.source == DockerJSONFile && s.profile == Lookup(norm, "profile") && NameSpelled(cand, norm, s.name)
    && ModeSpelled(s.parse, ParseText(norm, profile))
    && s.parsePattern == (if "parse" !in norm && ProfileKind(profile) == "regex"
                          then ProfileParse(profile).value.pattern else "")
    && s.timestamp == (if ProfileParse(profile).Some? then ProfileParse(profile).value.timestamp else None)
    && s.levelMapping == (if level.Some? then level.value.mapping else map[])
    && s.levelField == (if Lookup(norm, "level.field") != "" then norm["level.field"]
                        else if level.Some? then level.value.field else "")
    && s.multiline == MultilineText(norm, profile)
    && StreamSpelled(s.stream, Lookup(norm, "stream")) && s.levelMin == Lookup(norm, "level.min")
    && NoDup(s.drop) && (forall p :: p in s.drop <==> DropNamed(norm, profile, p))
    && s.rawOperators == (if profile.Some? then profile.value.operators else [])
  }

  /** A container's labels are accepted exactly when each is acceptable; then every field is as they
      spell it, and otherwise the reason given names something that is wrong. */
  lemma AssembledExact(cand: Candidate, norm: map<string, string>, cfg: Config, env: Env)
    requires Enumerates(env.order)
    ensures var r := Assembled(cand, norm, cfg, env);
      && (r.Ok? <==> Acceptable(norm, cfg, env.regexOK))
      && (r.Ok? ==> AsLabelled(cand, norm, cfg, r.value))
      && (r.Err? ==> Explains(r.error, norm, cfg, env.regexOK))
  {
    hide AssembledWith, Drops, AsLabelled, ParseAcceptable, MultilineAcceptable, StreamAcceptable, LevelAcceptable,
         DropsAcceptable;
    if ProfileAcceptable(norm, cfg) {
      assert ProfileOf(norm, cfg) == Ok(ProfileNamed(norm, cfg));
      AssembledWithExact(cand, norm, cfg, env);
    } else {
      hide Explains;
      assert Explains(UnknownProfile(Lookup(norm, "profile")), norm, cfg, env.regexOK) by { UnknownExplains(norm, cfg, env.regexOK); }
    }
  }

  lemma UnknownExplains(norm: map<string, string>, cfg: Config, ok: string -> bool)
    requires !ProfileAcceptable(norm, cfg)
    ensures Explains(UnknownProfile(Lookup(norm, "profile")), norm, cfg, ok)
  {}

  lemma AssembledWithExact(cand: Candidate, norm: map<string, string>, cfg: Config, env: Env)
    requires Enumerates(env.order)
    ensures var profile := ProfileNamed(norm, cfg);
      var r := AssembledWith(cand, norm, profile, cfg, env.regexOK, Drops(norm, profile, env.regexOK, env.order(norm.Keys)));
      && (r.Ok? <==> ParseAcceptable(norm, profile) && MultilineAcceptable(norm, profile, env.regexOK)
                     && StreamAcceptable(norm) && LevelAcceptable(norm) && DropsAcceptable(norm, profile, env.regexOK))
      && (r.Ok? ==> AsLabelled(cand, norm, cfg, r.value))
      && (r.Err? ==> Explains(r.error, norm, cfg, env.regexOK))
  {
    hide ResolveParse, ResolveMultiline, ResolveStream, ResolveLevelMin, Drops, StaticAttrs, Promoted, ServiceName,
         Explains, ProfileNamed, ModeSpelled, StreamSpelled, DropNamed, NameSpelled, ParseAcceptable,
         MultilineAcceptable, StreamAcceptable, LevelAcceptable, DropsAcceptable, MultilineText, ParseText;
    ParseExact(norm, cfg, env.regexOK);
    MultilineExact(norm, cfg, env.regexOK);
    StreamExact(norm, cfg, env.regexOK);
    LevelMinExact(norm, cfg, env.regexOK);
    DropsExact(norm, cfg, env.regexOK, env.order(norm.Keys));
    NameExact(cand, norm);
  }

  lemma NameExact(cand: Candidate, norm: map<string, string>)
    ensures NameSpelled(cand, norm, ServiceName(cand, norm))
  {
    SlashedExact(cand.name);
  }

  // ----- which records are kept -----

  /** The labels keep the record: it is not of the other stream, not below the floor unless its
      severity is unknown, and no drop pattern matches it. */
  ghost predicate KeptByLabels(e: Engine, norm: map<string, string>, profile: Option<Profile>, r: Record) {
    var min := Lookup(norm, "level.min");
    && (Lookup(norm, "stream") == "stdout" ==> !Has(r.attributes, "log.iostream", "stderr"))
    && (Lookup(norm, "stream") == "stderr" ==> !Has(r.attributes, "log.iostream", "stdout"))
    && (min in LEVEL_FLOORS ==> r.severity == 0 || r.severity >= LEVEL_FLOORS[min])
    && (forall p :: DropNamed(norm, profile, p) ==> !e.isMatch(r.body, p))
  }

  lemma FloorExact(s: ServiceSpec, r: Record)
    requires s.levelMin == "" || s.levelMin in LEVEL_FLOORS
    ensures FloorKept(s, r) <==> s.levelMin !in LEVEL_FLOORS || r.severity == 0 || r.severity >= LEVEL_FLOORS[s.levelMin]
  {}

  /** A service keeps exactly the records its labels keep. */
  lemma KeptExact(e: Engine, cand: Candidate, norm: map<string, string>, cfg: Config, s: ServiceSpec, r: Record)
    requires AsLabelled(cand, norm, cfg, s) && LevelAcceptable(norm)
    ensures Kept(e, s, r) <==> KeptByLabels(e, norm, ProfileNamed(norm, cfg), r)
  {
    hide FloorKept, ProfileNamed, DropNamed, LEVEL_FLOORS, NameSpelled, ModeSpelled, ParseText, MultilineText;
    FloorExact(s, r) by { assert LevelAcceptable(norm); }
  }

  // ----- when a container is routed -----

  /** The destinations named, or the default, are all known; or "none" is among them. */
  ghost predicate Routable(norm: map<string, string>, cfg: Config) {
    var named := set n | n in CSV(Lookup(norm, "destination")) :: n;
    if named != {} then "none" in named || forall n :: n in named ==> n == "debug" || n in cfg.destinations
    else cfg.defaultDestination != ""
         && (cfg.defaultDestination in {"none", "debug"} || cfg.defaultDestination in cfg.destinations)
  }

  lemma RoutesOkExact(norm: map<string, string>, cfg: Config)
    ensures Routes(norm, cfg).Ok? <==> Routable(norm, cfg)
  {
    hide CSV;
    var names := NamedDestinations(norm, cfg);
    FirstBadNone(names, ValidIn(cfg));
    var items := CSV(Lookup(norm, "destination"));
    var named := set n | n in items :: n;
    assert forall n :: n in named <==> n in items;
    if |items| > 0 {
      assert items[0] in named;
      assert names == items;
    } else {
      assert named == {};
      assert cfg.defaultDestination != "" ==> names == [cfg.defaultDestination] && cfg.defaultDestination in names;
    }
  }

  /** When a container becomes a service: it is neither bilgeline nor a marked collector, it opted in,
      its labels do not contradict each other, each is acceptable, its log driver is json-file or
      unknown, and its destinations are known. */
  lemma ResolutionExact(cand: Candidate, cfg: Config, selfID: string, env: Env)
    requires Enumerates(env.order)
    ensures Resolution(cand, cfg, selfID, env).spec.Some? <==>
      && (selfID == "" || cand.id != selfID)
      && !SaysTrue(cand.labels, "bilgeline.collector") && !SaysTrue(cand.labels, "tagwright.log.collector")
      && (SaysTrue(cand.labels, "bilgeline.enable") || SaysTrue(cand.labels, "tagwright.log.enable"))
      && Consistent(cand.labels) && Acceptable(SuffixMap(cand.labels), cfg, env.regexOK)
      && cand.logDriver in {"", "json-file"} && Routable(SuffixMap(cand.labels), cfg)
  {
    hide Assembled, Routes, RawBool, SaysTrue, Acceptable, Routable, SuffixMap, Consistent;
    Marks(cand.labels);
    var norm := SuffixMap(cand.labels);
    if Consistent(cand.labels) { EnabledIsMarked(cand.labels); }
    AssembledExact(cand, norm, cfg, env);
    RoutesOkExact(norm, cfg);
  }

  lemma Marks(labels: map<string, string>)
    ensures RawBool(labels, "collector") <==>
      SaysTrue(labels, "bilgeline.collector") || SaysTrue(labels, "tagwright.log.collector")
    ensures RawBool(labels, "enable") <==>
      SaysTrue(labels, "bilgeline.enable") || SaysTrue(labels, "tagwright.log.enable")
  {
    hide RawBool, SaysTrue;
    RawBoolExact(labels, "collector");
    RawBoolExact(labels, "enable");
    assert "bilgeline." + "collector" == "bilgeline.collector" && "tagwright.log." + "collector" == "tagwright.log.collector";
    assert "bilgeline." + "enable" == "bilgeline.enable" && "tagwright.log." + "enable" == "tagwright.log.enable";
  }

  /** A severity floor is warned about exactly when nothing parses a severity out of the records. */
  lemma FloorWarningExact(cand: Candidate, norm: map<string, string>, cfg: Config, env: Env)
    requires Enumerates(env.order) && Acceptable(norm, cfg, env.regexOK)
    ensures (exists d :: d in Enabled(cand, norm, cfg, env).diags && d.reason == FloorWithoutParse) <==>
      Lookup(norm, "level.min") != "" && ParseText(norm, ProfileNamed(norm, cfg)) in {"none", ""}
  {
    hide Assembled, Routes, Acceptable, ProfileNamed, ParseText, NameSpelled, DropNamed, Routable;
    AssembledExact(cand, norm, cfg, env);
    RoutesOkExact(norm, cfg);
    RouteFaults(norm, cfg);
    var s := Assembled(cand, norm, cfg, env).value;
    var floor := Warn(cand, FloorWithoutParse);
    var diags := Enabled(cand, norm, cfg, env).diags;
    if s.levelMin != "" && s.parse == ParseNone { assert diags[0] == floor; }
  }

  lemma RouteFaults(norm: map<string, string>, cfg: Config)
    ensures Routes(norm, cfg).Err? ==> Routes(norm, cfg).error != FloorWithoutParse
  {
    hide NamedDestinations, CSV;
  }

  ghost predicate HasError(diags: seq<Diagnostic>) { exists d :: d in diags && d.severity == SevError }

  ghost predicate AboutContainer(cand: Candidate, diags: seq<Diagnostic>) {
    forall d :: d in diags ==> d.containerID == cand.id && d.containerName == cand.name
  }

  lemma FinishedErrors(cand: Candidate, s: ServiceSpec, routes: Result<seq<Route>, Reason>)
    ensures var diags := Finished(cand, s, routes).diags;
      AboutContainer(cand, diags) && (HasError(diags) <==> cand.logDriver in {"", "json-file"} && routes.Err?)
  {
    var diags := Finished(cand, s, routes).diags;
    if cand.logDriver in {"", "json-file"} && routes.Err? {
      assert diags[|diags| - 1] == Fail(cand, routes.error);
      assert diags[|diags| - 1] in diags;
    }
  }

  /** An opted-in container gets an error exactly when its labels contradict each other, one of them is
      not acceptable, or its destinations are unknown; an exclusion or a log driver is only a warning.
      Every diagnostic is about the container itself. */
  lemma ErrorExact(cand: Candidate, cfg: Config, selfID: string, env: Env)
    requires Enumerates(env.order) && RawBool(cand.labels, "enable")
    ensures var diags := Resolution(cand, cfg, selfID, env).diags;
      && AboutContainer(cand, diags)
      && (HasError(diags) <==>
            && (selfID == "" || cand.id != selfID)
            && !SaysTrue(cand.labels, "bilgeline.collector") && !SaysTrue(cand.labels, "tagwright.log.collector")
            && (!Consistent(cand.labels) || !Acceptable(SuffixMap(cand.labels), cfg, env.regexOK)
                || (cand.logDriver in {"", "json-file"} && !Routable(SuffixMap(cand.labels), cfg))))
  {
    hide Assembled, Routes, RawBool, SaysTrue, Acceptable, Routable, SuffixMap, Consistent, Finished;
    Marks(cand.labels);
    var norm := SuffixMap(cand.labels);
    if Consistent(cand.labels) { EnabledIsMarked(cand.labels); }
    AssembledExact(cand, norm, cfg, env);
    RoutesOkExact(norm, cfg);
    var diags := Resolution(cand, cfg, selfID, env).diags;
    var r := Assembled(cand, norm, cfg, env);
    if r.Ok? {
      FinishedErrors(cand, r.value, Routes(norm, cfg));
    }
    if |diags| == 1 { assert diags[0] in diags; }
  }
}
