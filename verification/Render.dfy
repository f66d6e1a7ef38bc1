/** internal/backend/otelcol/render.go: the compiler from a Spec to a collector configuration. */
module Render {
  import opened Wrappers
  import opened Sorting
  import opened Strings
  import opened Backend
  import opened Ottl
  import opened Collector
  import Discovery

  /** The deployment settings of a Backend that reach the configuration. */
  datatype Knobs = Knobs(fileStorageDir: string, healthCheckEndpoint: string)

  datatype Signature = Signature(
    parse: ParseMode,
    pattern: string,
    multiline: string,
    levelField: string,
    levelMapping: map<string, string>,
    timestamp: Option<Timestamp>,
    rawOperators: seq<Operator>)

  /** The 12-hex digest, the signature's JSON encoding (None when it has none), Go's %q. */
  datatype Codec = Codec(
    short: string -> string,
    json: Signature -> Option<string>,
    quote: string -> string)

  const ROUTING_KEY := "bilgeline.routing_key"
  const DEBUG := "debug"
  const INGEST := "logs/ingest"
  const OUT := "logs/out_"
  const FILELOG := "filelog/"
  const ENRICH := "transform/enrich"
  const DROP := "filter/drop"
  const ROUTING := "routing"

  // ----- services and their groups -----

  predicate IsTailable(s: ServiceSpec) { s.source == DockerJSONFile }

  /** The tailable services in container-id order. */
  function Tailable(spec: Spec): seq<ServiceSpec> {
    Sort(Filter(spec.services, IsTailable), Discovery.ById)
  }

  function SignatureOf(s: ServiceSpec): Signature {
    Signature(s.parse, s.parsePattern, s.multiline, s.levelField, s.levelMapping, s.timestamp, s.rawOperators)
  }

  function SigHash(c: Codec, s: ServiceSpec): string {
    c.short(match c.json(SignatureOf(s)) case None => "uncanonicalizable" case Some(j) => j)
  }

  const CONTAINERS := "/var/lib/docker/containers/"

  function DockerLogPath(id: string): string { CONTAINERS + id + "/" + id + "-json.log" }

  /** The file Docker's json-file driver writes for a container, component by component. */
  predicate LogOf(id: string, path: string) {
    Split(path, '/') == ["", "var", "lib", "docker", "containers", id, id + "-json.log"]
  }

  lemma DockerPathParts(id: string)
    requires '/' !in id
    ensures LogOf(id, DockerLogPath(id))
  {
    var file := id + "-json.log";
    var parts := ["", "var", "lib", "docker", "containers", id, file];
    assert '/' !in "-json.log";
    SplitJoin(parts, '/');
    JoinParts(id, file);
    assert CONTAINERS + id + "/" + file == CONTAINERS + (id + "/" + file);
    assert DockerLogPath(id) == CONTAINERS + id + "/" + file;
  }

  lemma JoinParts(id: string, file: string)
    ensures Join(["", "var", "lib", "docker", "containers", id, file], '/') == CONTAINERS + (id + "/" + file)
  {
    JoinTwo(id, file);
    JoinFront("containers", [id, file]);
    JoinFront("docker", ["containers", id, file]);
    JoinFront("lib", ["docker", "containers", id, file]);
    JoinFront("var", ["lib", "docker", "containers", id, file]);
    JoinFront("", ["var", "lib", "docker", "containers", id, file]);
    var tail := id + "/" + file;
    assert "" + "/" + ("var" + "/" + ("lib" + "/" + ("docker" + "/" + ("containers" + "/" + tail)))) == CONTAINERS + tail;
  }

  lemma JoinTwo(a: string, b: string)
    ensures Join([a, b], '/') == a + "/" + b
  {
    assert [a, b][1..] == [b];
  }

  lemma JoinFront(a: string, rest: seq<string>)
    requires |rest| > 0
    ensures Join([a] + rest, '/') == a + "/" + Join(rest, '/')
  {
    assert ([a] + rest)[1..] == rest;
  }

  /** That is the path rendered, and no other path reads so. */
  lemma DockerPathExact(id: string, path: string)
    ensures LogOf(id, path) <==> '/' !in id && path == DockerLogPath(id)
  {
    if LogOf(id, path) {
      SplitFree(path, '/');
      assert id == Split(path, '/')[5];
      assert id in Split(path, '/');
      DockerPathParts(id);
      JoinSplit(path, '/');
      JoinSplit(DockerLogPath(id), '/');
    }
    if '/' !in id { DockerPathParts(id); }
  }

  function PathOf(s: ServiceSpec): string { DockerLogPath(s.containerID) }

  // ----- operators -----

  const CONTAINER_OP: Operator := map[
    "type" := Text("container"),
    "format" := Text("docker"),
    "add_metadata_from_filepath" := Flag(false)]

  const ID_OP: Operator := map[
    "type" := Text("regex_parser"),
    "parse_from" := Text("attributes[\"log.file.path\"]"),
    "regex" := Text("^/var/lib/docker/containers/(?P<container_id>[a-f0-9]{64})/")]

  const JSON_OP: Operator :=
    map["type" := Text("json_parser"), "parse_from" := Text("body"), "parse_to" := Text("attributes")]

  function BodyOps(s: ServiceSpec): seq<Operator> {
    match s.parse
    case ParseNone => []
    case ParseJSON => [JSON_OP]
    case ParseLogfmt =>
      [map["type" := Text("key_value_parser"), "parse_from" := Text("body"),
           "delimiter" := Text("="), "pair_delimiter" := Text(" ")]]
    case ParseRegex =>
      if s.parsePattern == "" then []
      else [map["type" := Text("regex_parser"), "parse_from" := Text("body"),
                "parse_to" := Text("attributes"), "regex" := Text(s.parsePattern)]]
  }

  function TimeOps(s: ServiceSpec): seq<Operator> {
    if s.timestamp.Some? && s.timestamp.value.field != "" then
      [map["type" := Text("time_parser"), "parse_from" := Text("attributes." + s.timestamp.value.field),
           "layout_type" := Text("strptime"), "layout" := Text(s.timestamp.value.layout)]]
    else []
  }

  function MultilineOps(c: Codec, s: ServiceSpec): seq<Operator> {
    if s.multiline == "" then []
    else [map["type" := Text("recombine"), "combine_field" := Text("body"),
              "is_first_entry" := Text("body matches " + c.quote(s.multiline))]]
  }

  function WithMapping(op: Operator, mapping: map<string, string>): Operator {
    if |mapping| > 0 then op["mapping" := Mapping(mapping)] else op
  }

  function SeverityOp(field: string, mapping: map<string, string>): Operator {
    WithMapping(map["type" := Text("severity_parser"), "parse_from" := Text("attributes." + field)], mapping)
  }

  function GuardedSeverityOp(c: Codec, field: string, mapping: map<string, string>): Operator {
    WithMapping(map["type" := Text("severity_parser"), "parse_from" := Text("attributes." + field),
                    "if" := Text("attributes[" + c.quote(field) + "] != nil")], mapping)
  }

  const LEVEL_FIELDS := ["level", "severity", "lvl"]

  function ProbeOp(c: Codec, mapping: map<string, string>): string -> Operator {
    (field: string) => GuardedSeverityOp(c, field, mapping)
  }

  function SeverityOps(c: Codec, s: ServiceSpec): seq<Operator> {
    if s.parse == ParseNone then []
    else if s.levelField != "" then [SeverityOp(s.levelField, s.levelMapping)]
    else Map(LEVEL_FIELDS, ProbeOp(c, s.levelMapping))
  }

  /** What follows the two identity operators. */
  function ParserOps(c: Codec, s: ServiceSpec): seq<Operator> {
    BodyOps(s) + TimeOps(s) + MultilineOps(c, s) + SeverityOps(c, s) + s.rawOperators
  }

  function Operators(c: Codec, s: ServiceSpec): seq<Operator> {
    [CONTAINER_OP, ID_OP] + ParserOps(c, s)
  }

  predicate OfType(op: Operator, t: string) { "type" in op && op["type"] == Text(t) }

  /** Parses the body as JSON into the attributes. */
  predicate ParsesJson(op: Operator) {
    && op.Keys == {"type", "parse_from", "parse_to"}
    && Setting(op, "type", "json_parser") && Setting(op, "parse_from", "body") && Setting(op, "parse_to", "attributes")
  }

  /** Parses the body as pairs separated by spaces, keys from values by '='. */
  predicate ParsesLogfmt(op: Operator) {
    && op.Keys == {"type", "parse_from", "delimiter", "pair_delimiter"}
    && Setting(op, "type", "key_value_parser") && Setting(op, "parse_from", "body")
    && Setting(op, "delimiter", "=") && Setting(op, "pair_delimiter", " ")
  }

  /** Matches the body against the pattern, captures becoming attributes. */
  predicate ParsesRegex(op: Operator, pattern: string) {
    && op.Keys == {"type", "parse_from", "parse_to", "regex"}
    && Setting(op, "type", "regex_parser") && Setting(op, "parse_from", "body")
    && Setting(op, "parse_to", "attributes") && Setting(op, "regex", pattern)
  }

  /** The operator the service's parse mode calls for. */
  predicate ParsesBodyOf(s: ServiceSpec, op: Operator) {
    match s.parse
    case ParseNone => false
    case ParseJSON => ParsesJson(op)
    case ParseLogfmt => ParsesLogfmt(op)
    case ParseRegex => s.parsePattern != "" && ParsesRegex(op, s.parsePattern)
  }

  predicate HasBodyParser(s: ServiceSpec) { s.parse in {ParseJSON, ParseLogfmt} || (s.parse == ParseRegex && s.parsePattern != "") }

  /** Reads the time from the named attribute, in the given strptime layout. */
  predicate ReadsTime(op: Operator, ts: Timestamp) {
    && op.Keys == {"type", "parse_from", "layout_type", "layout"}
    && Setting(op, "type", "time_parser") && Setting(op, "parse_from", "attributes." + ts.field)
    && Setting(op, "layout_type", "strptime") && Setting(op, "layout", ts.layout)
  }

  predicate HasTime(s: ServiceSpec) { s.timestamp.Some? && s.timestamp.value.field != "" }

  /** Joins lines until one matches the pattern, which begins the next entry. */
  predicate JoinsLines(c: Codec, op: Operator, pattern: string) {
    && op.Keys == {"type", "combine_field", "is_first_entry"}
    && Setting(op, "type", "recombine") && Setting(op, "combine_field", "body")
    && Setting(op, "is_first_entry", "body matches " + c.quote(pattern))
  }

  /** Reads the severity from an attribute, through the mapping if there is one; guarded against
      the attribute's absence or not. */
  predicate ReadsSeverity(c: Codec, op: Operator, field: string, guarded: bool, mapping: map<string, string>) {
    && op.Keys == {"type", "parse_from"} + (if guarded then {"if"} else {}) + (if mapping != map[] then {"mapping"} else {})
    && Setting(op, "type", "severity_parser") && Setting(op, "parse_from", "attributes." + field)
    && (guarded ==> Setting(op, "if", "attributes[" + c.quote(field) + "] != nil"))
    && (mapping != map[] ==> op["mapping"] == Mapping(mapping))
  }

  /** Severity parsing: the named field alone, else the three usual ones in order, each guarded. */
  predicate SeverityTail(c: Codec, s: ServiceSpec, ops: seq<Operator>) {
    if s.parse == ParseNone then ops == []
    else if s.levelField != "" then
      |ops| == 1 && ReadsSeverity(c, ops[0], s.levelField, false, s.levelMapping)
    else
      && |ops| == 3
      && ReadsSeverity(c, ops[0], "level", true, s.levelMapping)
      && ReadsSeverity(c, ops[1], "severity", true, s.levelMapping)
      && ReadsSeverity(c, ops[2], "lvl", true, s.levelMapping)
  }

  function Count(b: bool): nat { if b then 1 else 0 }

  /** What every chain is: the two identity operators, then the body parser, the time parser and the
      line joiner the service calls for, then severity, then the profile's operators verbatim. */
  ghost predicate Sequenced(c: Codec, s: ServiceSpec, ops: seq<Operator>) {
    var body := 2;
    var time := body + Count(HasBodyParser(s));
    var joiner := time + Count(HasTime(s));
    var severity := joiner + Count(s.multiline != "");
    && severity + |s.rawOperators| <= |ops| && UnwrapsDocker(ops[0]) && CapturesId(ops[1])
    && (HasBodyParser(s) ==> ParsesBodyOf(s, ops[body]))
    && (HasTime(s) ==> ReadsTime(ops[time], s.timestamp.value))
    && (s.multiline != "" ==> JoinsLines(c, ops[joiner], s.multiline))
    && SeverityTail(c, s, ops[severity..|ops| - |s.rawOperators|])
    && ops[|ops| - |s.rawOperators|..] == s.rawOperators
  }

  lemma OperatorsSequenced(c: Codec, s: ServiceSpec)
    ensures Sequenced(c, s, Operators(c, s))
  {
    hide CONTAINER_OP, ID_OP, BodyOps, TimeOps, MultilineOps, SeverityOps, SeverityTail, HasBodyParser, HasTime,
         UnwrapsDocker, CapturesId, ParsesBodyOf, ReadsTime, JoinsLines;
    var body, time, joiner, sev := BodyOps(s), TimeOps(s), MultilineOps(c, s), SeverityOps(c, s);
    IdentityOps();
    BodyShape(s);
    TimeShape(s);
    JoinerShape(c, s);
    SeverityShape(c, s);
    var ops := Operators(c, s);
    assert ops == [CONTAINER_OP, ID_OP] + body + time + joiner + sev + s.rawOperators;
    var n := 2 + |body| + |time| + |joiner|;
    assert ops[n..|ops| - |s.rawOperators|] == sev;
    assert ops[|ops| - |s.rawOperators|..] == s.rawOperators;
  }

  lemma IdentityOps()
    ensures UnwrapsDocker(CONTAINER_OP) && CapturesId(ID_OP)
  {}

  lemma BodyShape(s: ServiceSpec)
    ensures |BodyOps(s)| == Count(HasBodyParser(s)) && (HasBodyParser(s) ==> ParsesBodyOf(s, BodyOps(s)[0]))
  {}

  lemma TimeShape(s: ServiceSpec)
    ensures |TimeOps(s)| == Count(HasTime(s)) && (HasTime(s) ==> ReadsTime(TimeOps(s)[0], s.timestamp.value))
  {}

  lemma JoinerShape(c: Codec, s: ServiceSpec)
    ensures |MultilineOps(c, s)| == Count(s.multiline != "")
    ensures s.multiline != "" ==> JoinsLines(c, MultilineOps(c, s)[0], s.multiline)
  {}

  lemma SeverityShape(c: Codec, s: ServiceSpec)
    ensures SeverityTail(c, s, SeverityOps(c, s))
  {
    hide SeverityOp, GuardedSeverityOp, ReadsSeverity;
    SeverityOpShape(c, s.levelField, s.levelMapping);
    SeverityOpShape(c, "level", s.levelMapping);
    SeverityOpShape(c, "severity", s.levelMapping);
    SeverityOpShape(c, "lvl", s.levelMapping);
  }

  lemma MappingAdded(op: Operator, mapping: map<string, string>)
    requires "mapping" !in op
    ensures var r := WithMapping(op, mapping);
      && r.Keys == op.Keys + (if mapping != map[] then {"mapping"} else {})
      && (forall k :: k in op ==> r[k] == op[k])
      && (mapping != map[] ==> r["mapping"] == Mapping(mapping))
  {
    assert |mapping| > 0 <==> mapping != map[];
  }

  lemma SeverityOpShape(c: Codec, field: string, mapping: map<string, string>)
    ensures ReadsSeverity(c, SeverityOp(field, mapping), field, false, mapping)
    ensures ReadsSeverity(c, GuardedSeverityOp(c, field, mapping), field, true, mapping)
  {
    hide WithMapping, ReadsSeverity;
    PlainSeverity(c, field, mapping);
    GuardedSeverity(c, field, mapping);
  }

  lemma PlainSeverity(c: Codec, field: string, mapping: map<string, string>)
    ensures ReadsSeverity(c, SeverityOp(field, mapping), field, false, mapping)
  {
    hide WithMapping;
    var op := map["type" := Text("severity_parser"), "parse_from" := Text("attributes." + field)];
    MappingAdded(op, mapping);
    assert op.Keys == {"type", "parse_from"};
  }

  lemma GuardedSeverity(c: Codec, field: string, mapping: map<string, string>)
    ensures ReadsSeverity(c, GuardedSeverityOp(c, field, mapping), field, true, mapping)
  {
    hide WithMapping;
    var op := map["type" := Text("severity_parser"), "parse_from" := Text("attributes." + field),
                  "if" := Text("attributes[" + c.quote(field) + "] != nil")];
    MappingAdded(op, mapping);
    assert op.Keys == {"type", "parse_from"} + {"if"};
  }

  method BuildOperators(c: Codec, s: ServiceSpec) returns (ops: seq<Operator>)
    ensures ops == Operators(c, s) && Sequenced(c, s, ops)
  {
    hide CONTAINER_OP, ID_OP, BodyOps, TimeOps, MultilineOps, GuardedSeverityOp, SeverityOp, Sequenced;
    OperatorsSequenced(c, s);
    ops := [CONTAINER_OP, ID_OP];
    ops := ops + BodyOps(s);
    ops := ops + TimeOps(s);
    ops := ops + MultilineOps(c, s);
    if s.parse != ParseNone {
      var sev := BuildSeverityOperators(c, s);
      ops := ops + sev;
    }
    ghost var built := ops;
    for i := 0 to |s.rawOperators|
      invariant ops == built + s.rawOperators[..i]
    {
      ops := ops + [s.rawOperators[i]];
    }
    assert s.rawOperators[..|s.rawOperators|] == s.rawOperators;
  }

  method BuildSeverityOperators(c: Codec, s: ServiceSpec) returns (ops: seq<Operator>)
    requires s.parse != ParseNone
    ensures ops == SeverityOps(c, s)
  {
    hide GuardedSeverityOp, SeverityOp;
    if s.levelField != "" {
      return [SeverityOp(s.levelField, s.levelMapping)];
    }
    ops := [];
    for i := 0 to |LEVEL_FIELDS|
      invariant ops == Map(LEVEL_FIELDS, ProbeOp(c, s.levelMapping))[..i]
    {
      ops := ops + [GuardedSeverityOp(c, LEVEL_FIELDS[i], s.levelMapping)];
    }
  }

  /** The chain depends on the signature alone: sharing a receiver changes nothing. */
  lemma OperatorsFromSignature(c: Codec, s: ServiceSpec, t: ServiceSpec)
    requires SignatureOf(s) == SignatureOf(t)
    ensures Operators(c, s) == Operators(c, t)
  {}

  // ----- receivers -----

  function HasHash(c: Codec, h: string): ServiceSpec -> bool { (s: ServiceSpec) => SigHash(c, s) == h }

  function Members(c: Codec, services: seq<ServiceSpec>, h: string): seq<ServiceSpec> {
    Filter(services, HasHash(c, h))
  }

  ghost function Hashes(c: Codec, services: seq<ServiceSpec>): set<string> {
    set s | s in services :: SigHash(c, s)
  }

  function ReceiverFor(c: Codec, members: seq<ServiceSpec>): Receiver
    requires |members| > 0
  {
    FileLog(Map(members, PathOf), true, "file_storage", Operators(c, members[0]))
  }

  ghost function Prefixed(hs: set<string>): set<string> { set h | h in hs :: FILELOG + h }

  /** One receiver per signature hash, over the services that have it. */
  ghost function Receivers(c: Codec, services: seq<ServiceSpec>, hs: set<string>): map<string, Receiver>
    requires hs <= Hashes(c, services)
  {
    map n | n in Prefixed(hs) :: ReceiverNamed(c, services, n)
  }

  ghost function ReceiverNamed(c: Codec, services: seq<ServiceSpec>, n: string): Receiver {
    var members := if |n| >= |FILELOG| then Members(c, services, n[|FILELOG|..]) else [];
    if |members| > 0 then ReceiverFor(c, members) else NopReceiver
  }

  lemma MembersExist(c: Codec, services: seq<ServiceSpec>, h: string)
    ensures h in Hashes(c, services) <==> |Members(c, services, h)| > 0
  {
    if h in Hashes(c, services) {
      var s :| s in services && SigHash(c, s) == h;
      assert s in Members(c, services, h);
    }
    if |Members(c, services, h)| > 0 {
      assert Members(c, services, h)[0] in Members(c, services, h);
    }
  }

  datatype Group = Group(rep: ServiceSpec, members: seq<ServiceSpec>)

  ghost predicate Grouped(c: Codec, services: seq<ServiceSpec>, groups: map<string, Group>) {
    && groups.Keys == Hashes(c, services)
    && forall h :: h in groups ==>
         |groups[h].members| > 0 && groups[h].members == Members(c, services, h)
         && groups[h].rep == groups[h].members[0]
  }

  method GroupServices(c: Codec, services: seq<ServiceSpec>) returns (groups: map<string, Group>)
    ensures Grouped(c, services, groups)
  {
    hide SigHash;
    groups := map[];
    for i := 0 to |services|
      invariant Grouped(c, services[..i], groups)
    {
      var svc := services[i];
      var h := SigHash(c, svc);
      GroupStep(c, services[..i], svc, groups);
      assert services[..i + 1] == services[..i] + [svc];
      if h in groups {
        groups := groups[h := Group(groups[h].rep, groups[h].members + [svc])];
      } else {
        groups := groups[h := Group(svc, [svc])];
      }
    }
    assert services[..|services|] == services;
  }

  lemma GroupStep(c: Codec, done: seq<ServiceSpec>, svc: ServiceSpec, groups: map<string, Group>)
    requires Grouped(c, done, groups)
    ensures var h := SigHash(c, svc);
      Grouped(c, done + [svc],
        groups[h := if h in groups then Group(groups[h].rep, groups[h].members + [svc]) else Group(svc, [svc])])
  {
    hide SigHash, Members, Hashes;
    forall g { MembersSnoc(c, done, svc, g); }
    HashesSnoc(c, done, svc);
    MembersExist(c, done, SigHash(c, svc));
  }

  lemma MembersSnoc(c: Codec, done: seq<ServiceSpec>, svc: ServiceSpec, g: string)
    ensures Members(c, done + [svc], g) ==
            Members(c, done, g) + (if g == SigHash(c, svc) then [svc] else [])
  {
    FilterSnoc(done, svc, HasHash(c, g));
  }

  lemma HashesSnoc(c: Codec, done: seq<ServiceSpec>, svc: ServiceSpec)
    ensures Hashes(c, done + [svc]) == Hashes(c, done) + {SigHash(c, svc)}
  {
    hide SigHash;
    assert svc in done + [svc];
    assert forall s :: s in done ==> s in done + [svc];
  }

  lemma {:induction false} SortSorted<T>(xs: seq<T>, le: (T, T) -> bool)
    requires Ordered(xs, le)
    ensures Sort(xs, le) == xs
  {
    if |xs| > 0 {
      SortSorted(xs[1..], le);
      assert xs == [xs[0]] + xs[1..];
    }
  }

  /** The path is the log file of the service's container. */
  predicate Logs(s: ServiceSpec, path: string) { '/' !in s.containerID ==> LogOf(s.containerID, path) }

  ghost predicate LogOfSome(services: seq<ServiceSpec>, path: string) {
    exists s :: s in services && Logs(s, path)
  }

  ghost predicate TailedBySome(receivers: map<string, Receiver>, s: ServiceSpec) {
    exists n, p :: n in receivers && receivers[n].FileLog? && p in receivers[n].includes && Logs(s, p)
  }

  /** The receivers tail the log file of every service, and no other file. */
  ghost predicate TailsLogs(services: seq<ServiceSpec>, receivers: map<string, Receiver>) {
    && (forall n, p :: n in receivers && receivers[n].FileLog? && p in receivers[n].includes ==> LogOfSome(services, p))
    && (forall s :: s in services ==> TailedBySome(receivers, s))
  }

  lemma PathLogs(s: ServiceSpec)
    ensures Logs(s, PathOf(s))
  {
    hide LogOf;
    if '/' !in s.containerID { DockerPathParts(s.containerID); }
  }

  lemma ReceiversTail(c: Codec, services: seq<ServiceSpec>)
    ensures TailsLogs(services, Receivers(c, services, Hashes(c, services)))
  {
    hide SigHash, Operators, PathOf, Logs, ReceiverNamed, LogOfSome, TailedBySome, Hashes;
    var rs := Receivers(c, services, Hashes(c, services));
    forall n, p | n in rs && rs[n].FileLog? && p in rs[n].includes ensures LogOfSome(services, p) {
      NoOtherFile(c, services, n, p);
    }
    forall s | s in services ensures TailedBySome(rs, s) {
      OwnFileTailed(c, services, s);
      PathLogs(s);
      assert PathOf(s) in rs[ReceiverName(SigHash(c, s))].includes;
      SomeTails(rs, s, ReceiverName(SigHash(c, s)), PathOf(s));
    }
  }

  lemma SomeTails(receivers: map<string, Receiver>, s: ServiceSpec, n: string, p: string)
    requires n in receivers && receivers[n].FileLog? && p in receivers[n].includes && Logs(s, p)
    ensures TailedBySome(receivers, s)
  {}

  lemma NoOtherFile(c: Codec, services: seq<ServiceSpec>, n: string, p: string)
    requires ReceiverNamed(c, services, n).FileLog? && p in ReceiverNamed(c, services, n).includes
    ensures LogOfSome(services, p)
  {
    hide SigHash, Operators, PathOf, Logs;
    var members := Members(c, services, n[|FILELOG|..]);
    var i :| 0 <= i < |members| && PathOf(members[i]) == p;
    assert members[i] in members;
    PathLogs(members[i]);
  }

  lemma OwnFileTailed(c: Codec, services: seq<ServiceSpec>, s: ServiceSpec)
    requires s in services
    ensures var rs, n := Receivers(c, services, Hashes(c, services)), ReceiverName(SigHash(c, s));
      n in rs && rs[n].FileLog? && PathOf(s) in rs[n].includes
  {
    hide SigHash, Operators, PathOf;
    var h := SigHash(c, s);
    assert h in Hashes(c, services);
    assert (FILELOG + h)[|FILELOG|..] == h;
    var members := Members(c, services, h);
    assert s in members;
    var i :| 0 <= i < |members| && members[i] == s;
    assert Map(members, PathOf)[i] == PathOf(s);
  }

  method BuildReceivers(c: Codec, services: seq<ServiceSpec>, order: set<string> -> seq<string>)
      returns (receivers: map<string, Receiver>, names: seq<string>)
    requires Ordered(services, Discovery.ById)
    requires forall s :: NoDup(order(s)) && Elems(order(s)) == s
    ensures receivers == Receivers(c, services, Hashes(c, services))
    ensures TailsLogs(services, receivers)
    ensures names == SortedSet(Prefixed(Hashes(c, services)))
  {
    hide SigHash, Members, ReceiverFor, TailsLogs;
    ReceiversTail(c, services);
    var groups := GroupServices(c, services);
    var hashes := order(groups.Keys);
    receivers, names := map[], [];
    for i := 0 to |hashes|
      invariant Elems(hashes[..i]) <= Hashes(c, services)
      invariant receivers == Receivers(c, services, Elems(hashes[..i]))
      invariant names == Map(hashes[..i], ReceiverName)
    {
      var h := hashes[i];
      assert h in Elems(hashes);
      assert hashes[..i + 1] == hashes[..i] + [h];
      assert Elems(hashes[..i + 1]) == Elems(hashes[..i]) + {h};
      var receiver := BuildReceiver(c, services, groups[h], h);
      ReceiversStep(c, services, Elems(hashes[..i]), h);
      receivers := receivers[ReceiverName(h) := receiver];
      names := names + [ReceiverName(h)];
    }
    assert hashes[..|hashes|] == hashes;
    NamesDistinct(hashes);
    SortIsSortedSet(names);
    names := Sort(names, StrLe);
  }

  method BuildReceiver(c: Codec, ghost services: seq<ServiceSpec>, g: Group, ghost h: string)
      returns (receiver: Receiver)
    requires Ordered(services, Discovery.ById)
    requires |g.members| > 0 && g.members == Members(c, services, h) && g.rep == g.members[0]
    ensures receiver == ReceiverFor(c, g.members)
  {
    hide SigHash, Operators;
    FilterOrdered(services, HasHash(c, h), Discovery.ById);
    SortSorted(g.members, Discovery.ById);
    var members := Sort(g.members, Discovery.ById);
    var operators := BuildOperators(c, g.rep);
    receiver := FileLog(Map(members, PathOf), true, "file_storage", operators);
  }

  function ReceiverName(h: string): string { FILELOG + h }

  lemma ReceiversStep(c: Codec, services: seq<ServiceSpec>, hs: set<string>, h: string)
    requires hs <= Hashes(c, services) && h in Hashes(c, services)
    ensures |Members(c, services, h)| > 0
    ensures Receivers(c, services, hs + {h}) ==
            Receivers(c, services, hs)[ReceiverName(h) := ReceiverFor(c, Members(c, services, h))]
  {
    hide Members, ReceiverFor;
    MembersExist(c, services, h);
    assert (FILELOG + h)[|FILELOG|..] == h;
    assert Prefixed(hs + {h}) == Prefixed(hs) + {FILELOG + h};
  }

  lemma NamesDistinct(hashes: seq<string>)
    requires NoDup(hashes)
    ensures NoDup(Map(hashes, ReceiverName)) && Elems(Map(hashes, ReceiverName)) == Prefixed(Elems(hashes))
  {
    forall i, j | 0 <= i < j < |hashes| ensures ReceiverName(hashes[i]) != ReceiverName(hashes[j]) {
      assert ReceiverName(hashes[i])[|FILELOG|..] == hashes[i];
      assert ReceiverName(hashes[j])[|FILELOG|..] == hashes[j];
    }
    forall n | n in Prefixed(Elems(hashes)) ensures n in Map(hashes, ReceiverName) {
      var h :| h in Elems(hashes) && FILELOG + h == n;
      var i :| 0 <= i < |hashes| && hashes[i] == h;
      assert Map(hashes, ReceiverName)[i] == n;
    }
    forall n | n in Map(hashes, ReceiverName) ensures n in Prefixed(Elems(hashes)) {
      var i :| 0 <= i < |hashes| && n == ReceiverName(hashes[i]);
      assert hashes[i] in Elems(hashes);
    }
  }

  // ----- enrichment -----

  /** A routed service's destination set with its key and digest; None for routed nowhere. */
  datatype RouteSet = RouteSet(names: seq<string>, key: string, hash: string)

  ghost function RouteSetOf(c: Codec, s: ServiceSpec): Option<RouteSet> {
    if Routed(s) then Some(RouteSet(Names(s), Key(s), c.short(Key(s)))) else None
  }

  ghost function RouteSetFor(c: Codec): ServiceSpec -> Option<RouteSet> {
    (s: ServiceSpec) => RouteSetOf(c, s)
  }

  method ResolveSet(c: Codec, s: ServiceSpec) returns (rs: Option<RouteSet>)
    ensures rs == RouteSetOf(c, s)
  {
    var names := DestinationNames(s);
    if |names| == 0 {
      return None;
    }
    assert names[0] in DestSet(s);
    var key := Join(names, ',');
    return Some(RouteSet(names, key, c.short(key)));
  }

  method ResolveSets(c: Codec, services: seq<ServiceSpec>) returns (sets: seq<Option<RouteSet>>)
    ensures sets == Map(services, RouteSetFor(c))
  {
    hide RouteSetOf;
    sets := [];
    for i := 0 to |services|
      invariant |sets| == i && forall j :: 0 <= j < i ==> sets[j] == RouteSetFor(c)(services[j])
    {
      var rs := ResolveSet(c, services[i]);
      sets := sets + [rs];
    }
  }

  function When(k: string, v: string): seq<(string, string)> { if v == "" then [] else [(k, v)] }

  function IdentityPairs(s: ServiceSpec): seq<(string, string)> {
    [("service.name", s.name)] + When("service.namespace", s.composeProject)
    + [("container.id", s.containerID)] + When("container.name", s.containerName)
    + When("container.image.name", s.image)
  }

  function PairIn(m: map<string, string>): string -> (string, string) {
    (k: string) => (k, if k in m then m[k] else "")
  }

  ghost function StaticPairs(s: ServiceSpec): seq<(string, string)> {
    Map(SortedSet(s.staticAttrs.Keys), PairIn(s.staticAttrs))
  }

  ghost function RoutingPairs(s: ServiceSpec): seq<(string, string)> {
    if Routed(s) then [(ROUTING_KEY, Key(s))] else []
  }

  /** The attributes a service's records are stamped with, in the order they are set. */
  ghost function Pairs(s: ServiceSpec): seq<(string, string)> {
    IdentityPairs(s) + StaticPairs(s) + RoutingPairs(s)
  }

  function PrintPair(p: (string, string)): string { PrintSet(p.0, p.1) }

  function IdAtom(s: ServiceSpec): Atom { AttrIs(CONTAINER_ID, s.containerID) }

  function ContainerIDCond(s: ServiceSpec): string { PrintAtom(IdAtom(s)) }

  ghost function GroupOf(s: ServiceSpec): StatementGroup {
    StatementGroup("log", [ContainerIDCond(s)], Map(Pairs(s), PrintPair))
  }

  method EnrichStatements(c: Codec, services: seq<ServiceSpec>, sets: seq<Option<RouteSet>>,
                          order: set<string> -> seq<string>) returns (groups: seq<StatementGroup>)
    requires sets == Map(services, RouteSetFor(c))
    requires forall s :: NoDup(order(s)) && Elems(order(s)) == s
    ensures groups == Map(services, GroupOf)
  {
    hide GroupOf, RouteSetOf;
    groups := [];
    for i := 0 to |services|
      invariant |groups| == i && forall j :: 0 <= j < i ==> groups[j] == GroupOf(services[j])
    {
      assert sets[i] == RouteSetFor(c)(services[i]);
      var g := EnrichGroup(c, services[i], sets[i], order);
      groups := groups + [g];
    }
  }

  method EnrichGroup(c: Codec, s: ServiceSpec, rs: Option<RouteSet>, order: set<string> -> seq<string>)
      returns (g: StatementGroup)
    requires rs == RouteSetOf(c, s)
    requires forall s :: NoDup(order(s)) && Elems(order(s)) == s
    ensures g == GroupOf(s)
  {
    hide PrintPair, ContainerIDCond, IdentityPairs, StaticPairs, Routed, Key;
    var pairs := IdentityPairs(s);
    var statics := SortedPairs(s, order(s.staticAttrs.Keys));
    pairs := pairs + statics;
    if rs.Some? {
      pairs := pairs + [(ROUTING_KEY, rs.value.key)];
    }
    assert pairs == Pairs(s);
    g := StatementGroup("log", [ContainerIDCond(s)], Map(pairs, PrintPair));
  }

  method SortedPairs(s: ServiceSpec, order: seq<string>) returns (pairs: seq<(string, string)>)
    requires NoDup(order) && Elems(order) == s.staticAttrs.Keys
    ensures pairs == StaticPairs(s)
  {
    var keys := Sort(order, StrLe);
    assert keys == SortedSet(s.staticAttrs.Keys) by { SortIsSortedSet(order); }
    SortedSetMembers(s.staticAttrs.Keys);
    pairs := [];
    for i := 0 to |keys|
      invariant |pairs| == i && forall j :: 0 <= j < i ==> pairs[j] == PairIn(s.staticAttrs)(keys[j])
    {
      pairs := pairs + [(keys[i], s.staticAttrs[keys[i]])];
    }
  }

  // ----- filtering -----

  /** Severity floors, after the OpenTelemetry Logs Data Model, field SeverityNumber. */
  function SeverityFloor(min: string): Option<nat> {
    if min == "trace" then Some(1)
    else if min == "debug" then Some(5)
    else if min == "info" then Some(9)
    else if min == "warn" then Some(13)
    else if min == "error" then Some(17)
    else if min == "fatal" then Some(21)
    else None
  }

  function StreamConds(s: ServiceSpec): seq<seq<Atom>> {
    match s.stream
    case StreamBoth => []
    case StreamStdout => [[IdAtom(s), AttrIs(IOSTREAM, "stderr")]]
    case StreamStderr => [[IdAtom(s), AttrIs(IOSTREAM, "stdout")]]
  }

  function FloorConds(s: ServiceSpec): seq<seq<Atom>> {
    match SeverityFloor(s.levelMin)
    case None => []
    case Some(n) => [[IdAtom(s), SeveritySet, SeverityBelow(n)]]
  }

  function DropCond(s: ServiceSpec): string -> seq<Atom> { (p: string) => [IdAtom(s), BodyMatches(p)] }

  /** The conditions under which a record of `s` is dropped. */
  function Conds(s: ServiceSpec): seq<seq<Atom>> {
    StreamConds(s) + FloorConds(s) + Map(s.drop, DropCond(s))
  }

  function PrintCond(atoms: seq<Atom>): string { if |atoms| == 0 then "" else PrintCondition(atoms) }

  function PrintedConds(s: ServiceSpec): seq<string> { Map(Conds(s), PrintCond) }

  lemma CondTexts(id: Atom, a: Atom, b: Atom)
    ensures PrintCond([id, a]) == PrintAtom(id) + AND + PrintAtom(a)
    ensures PrintCond([id, a, b]) == PrintAtom(id) + AND + PrintAtom(a) + AND + PrintAtom(b)
  {
    hide PrintAtom;
    assert [id, a][1..] == [a] && [id, a, b][1..] == [a, b] && [a, b][1..] == [b];
    var x, y, z := PrintAtom(id), PrintAtom(a), PrintAtom(b);
    assert PrintCondition([id, a]) == x + (AND + y);
    assert PrintCondition([a, b]) == y + (AND + z);
    assert x + (AND + y) == x + AND + y;
    assert x + (AND + (y + (AND + z))) == x + AND + y + AND + z;
  }

  method ServiceConditions(s: ServiceSpec) returns (conds: seq<string>)
    ensures conds == PrintedConds(s)
  {
    hide PrintAtom, PrintCond;
    var id := ContainerIDCond(s);
    conds := [];
    match s.stream {
      case StreamBoth =>
      case StreamStdout => conds := conds + [id + AND + PrintAtom(AttrIs(IOSTREAM, "stderr"))];
      case StreamStderr => conds := conds + [id + AND + PrintAtom(AttrIs(IOSTREAM, "stdout"))];
    }
    CondTexts(IdAtom(s), AttrIs(IOSTREAM, if s.stream == StreamStdout then "stderr" else "stdout"), SeveritySet);
    assert conds == Map(StreamConds(s), PrintCond);
    var floor := FloorConditions(s, id);
    var drops := DropConditions(s, id);
    conds := conds + floor + drops;
  }

  method FloorConditions(s: ServiceSpec, id: string) returns (conds: seq<string>)
    requires id == ContainerIDCond(s)
    ensures conds == Map(FloorConds(s), PrintCond)
  {
    hide PrintAtom, PrintCond, SeverityFloor;
    var floor := SeverityFloor(s.levelMin);
    if floor.None? {
      return [];
    }
    CondTexts(IdAtom(s), SeveritySet, SeverityBelow(floor.value));
    conds := [id + AND + PrintAtom(SeveritySet) + AND + PrintAtom(SeverityBelow(floor.value))];
  }

  method DropConditions(s: ServiceSpec, id: string) returns (conds: seq<string>)
    requires id == ContainerIDCond(s)
    ensures conds == Map(Map(s.drop, DropCond(s)), PrintCond)
  {
    hide PrintAtom, PrintCond;
    conds := [];
    for i := 0 to |s.drop|
      invariant |conds| == i && forall j :: 0 <= j < i ==> conds[j] == PrintCond(DropCond(s)(s.drop[j]))
    {
      CondTexts(IdAtom(s), BodyMatches(s.drop[i]), SeveritySet);
      conds := conds + [id + AND + PrintAtom(BodyMatches(s.drop[i]))];
    }
  }

  method FilterConditions(services: seq<ServiceSpec>) returns (conds: seq<string>)
    ensures conds == FlatMap(services, PrintedConds)
  {
    conds := [];
    for i := 0 to |services|
      invariant conds == FlatMap(services[..i], PrintedConds)
    {
      var cs := ServiceConditions(services[i]);
      assert services[..i + 1] == services[..i] + [services[i]];
      FlatMapSnoc(services[..i], services[i], PrintedConds);
      conds := conds + cs;
    }
    assert services[..|services|] == services;
  }

  // ----- processors -----

  const MEMORY_LIMITER := MemoryLimiter("1s", 80, 25)

  ghost function Processors(services: seq<ServiceSpec>): map<string, Processor> {
    var conds := FlatMap(services, PrintedConds);
    map["memory_limiter" := MEMORY_LIMITER, "batch" := Batch, ENRICH := Transform("ignore", Map(services, GroupOf))]
    + (if |conds| > 0 then map[DROP := DropWhen("ignore", conds)] else map[])
  }

  ghost function IngestProcessors(services: seq<ServiceSpec>): seq<string> {
    ["memory_limiter", ENRICH] + (if |FlatMap(services, PrintedConds)| > 0 then [DROP] else [])
  }

  method BuildProcessors(c: Codec, services: seq<ServiceSpec>, sets: seq<Option<RouteSet>>,
                         order: set<string> -> seq<string>)
      returns (processors: map<string, Processor>, ingest: seq<string>)
    requires sets == Map(services, RouteSetFor(c))
    requires forall s :: NoDup(order(s)) && Elems(order(s)) == s
    ensures processors == Processors(services) && ingest == IngestProcessors(services)
  {
    var groups := EnrichStatements(c, services, sets, order);
    processors := map["memory_limiter" := MEMORY_LIMITER, "batch" := Batch, ENRICH := Transform("ignore", groups)];
    ingest := ["memory_limiter", ENRICH];
    var conds := FilterConditions(services);
    if |conds| > 0 {
      processors := processors[DROP := DropWhen("ignore", conds)];
      ingest := ingest + [DROP];
    }
  }

  // ----- destinations and exporters -----

  function DestKind(n: string, dests: map<string, Destination>): string {
    if n in dests then dests[n].kind else if n == DEBUG then "debug" else ""
  }

  function ExporterTypeFor(kind: string): string { if kind == "loki" then "otlphttp" else kind }

  predicate KnownKind(kind: string) {
    kind in {"loki", "otlphttp", "otlp", "elasticsearch", "file", "debug"}
  }

  function ExporterId(dests: map<string, Destination>): string -> string {
    (n: string) => ExporterTypeFor(DestKind(n, dests)) + "/" + n
  }

  /** The exporter component serving each destination kind. */
  const COMPONENTS: map<string, string> := map[
    "otlphttp" := "otlphttp", "loki" := "otlphttp", "otlp" := "otlp",
    "elasticsearch" := "elasticsearch", "file" := "file", "debug" := "debug"]

  lemma ComponentExact(kind: string)
    ensures KnownKind(kind) <==> kind in COMPONENTS
    ensures KnownKind(kind) ==> ExporterTypeFor(kind) == COMPONENTS[kind]
  {}

  /** The exporter of destination `n` as it should be: the component for its kind, named after it, with
      its settings verbatim; a debug destination nobody defined prints in detail. */
  predicate ExportsAs(n: string, dests: map<string, Destination>, x: string, settings: map<string, Value>) {
    if n in dests then
      dests[n].kind in COMPONENTS && x == COMPONENTS[dests[n].kind] + "/" + n && settings == dests[n].settings
    else
      n == "debug" && x == "debug/debug" && settings == map["verbosity" := Text("detailed")]
  }

  lemma ExporterExact(n: string, dests: map<string, Destination>)
    requires Exportable(n, dests)
    ensures ExportsAs(n, dests, ExporterId(dests)(n), SettingsOf(n, dests))
  {
    hide COMPONENTS, ExporterTypeFor, KnownKind;
    ComponentExact(DestKind(n, dests));
    DebugComponent();
    assert "debug" + "/" + "debug" == "debug/debug";
  }

  lemma DebugComponent()
    ensures KnownKind("debug") && COMPONENTS["debug"] == "debug"
  {}

  function SettingsOf(n: string, dests: map<string, Destination>): map<string, Value> {
    if n in dests then dests[n].settings else map["verbosity" := Text("detailed")]
  }

  /** A destination the renderer can export to. */
  predicate Exportable(n: string, dests: map<string, Destination>) {
    if n in dests then KnownKind(dests[n].kind) else n == DEBUG
  }

  lemma ExporterTypePlain(n: string, dests: map<string, Destination>)
    requires Exportable(n, dests)
    ensures '/' !in ExporterTypeFor(DestKind(n, dests))
  {
    KnownKindPlain(DestKind(n, dests));
  }

  lemma KnownKindPlain(kind: string)
    ensures KnownKind("debug")
    ensures KnownKind(kind) ==> '/' !in ExporterTypeFor(kind)
  {}

  lemma SlashInjective(x: string, m: string, y: string, n: string)
    requires '/' !in x && '/' !in y && x + "/" + m == y + "/" + n
    ensures m == n
  {
    SplitAt(x, m, '/');
    SplitAt(y, n, '/');
    assert Split(x + "/" + m, '/')[0] == x && Split(y + "/" + n, '/')[0] == y;
    assert (x + "/" + m)[|x| + 1..] == m && (y + "/" + n)[|y| + 1..] == n;
  }

  /** Distinct destinations never share an exporter id, though loki and otlphttp share a type. */
  lemma ExporterIdInjective(m: string, n: string, dests: map<string, Destination>)
    requires Exportable(m, dests) && Exportable(n, dests)
    requires ExporterId(dests)(m) == ExporterId(dests)(n)
    ensures m == n
  {
    hide ExporterTypeFor, Exportable, DestKind;
    ExporterTypePlain(m, dests);
    ExporterTypePlain(n, dests);
    SlashInjective(ExporterTypeFor(DestKind(m, dests)), m, ExporterTypeFor(DestKind(n, dests)), n);
  }

  ghost function Ids(names: set<string>, dests: map<string, Destination>): set<string> {
    set n | n in names :: ExporterId(dests)(n)
  }

  ghost function NameOf(x: string, names: set<string>, dests: map<string, Destination>): string
    requires x in Ids(names, dests)
  {
    var n :| n in names && ExporterId(dests)(n) == x; n
  }

  ghost predicate AllExportable(names: set<string>, dests: map<string, Destination>) {
    forall n :: n in names ==> Exportable(n, dests)
  }

  /** One exporter per destination, holding that destination's settings verbatim. */
  ghost function Exporters(names: set<string>, dests: map<string, Destination>): map<string, map<string, Value>> {
    map x | x in Ids(names, dests) :: SettingsOf(NameOf(x, names, dests), dests)
  }

  lemma NameOfId(n: string, names: set<string>, dests: map<string, Destination>)
    requires AllExportable(names, dests) && n in names
    ensures ExporterId(dests)(n) in Ids(names, dests)
    ensures NameOf(ExporterId(dests)(n), names, dests) == n
  {
    hide Exportable;
    ExporterIdInjective(NameOf(ExporterId(dests)(n), names, dests), n, dests);
  }

  lemma ExportersStep(names: set<string>, n: string, dests: map<string, Destination>)
    requires AllExportable(names + {n}, dests)
    ensures Exporters(names + {n}, dests) == Exporters(names, dests)[ExporterId(dests)(n) := SettingsOf(n, dests)]
  {
    hide SettingsOf, Exportable, NameOf, ExporterId;
    var f := ExporterId(dests);
    assert Ids(names + {n}, dests) == Ids(names, dests) + {f(n)};
    var before, after := Exporters(names, dests), Exporters(names + {n}, dests);
    forall x | x in after ensures after[x] == before[f(n) := SettingsOf(n, dests)][x] {
      var m :| m in names + {n} && f(m) == x;
      NameOfId(m, names + {n}, dests);
      if x == f(n) {
        NameOfId(n, names + {n}, dests);
      } else {
        NameOfId(m, names, dests);
      }
    }
  }

  ghost predicate HasExporter(n: string, dests: map<string, Destination>, exporters: map<string, map<string, Value>>) {
    exists x :: x in exporters && ExportsAs(n, dests, x, exporters[x])
  }

  ghost predicate ServesOne(x: string, names: set<string>, dests: map<string, Destination>, settings: map<string, Value>) {
    exists n :: n in names && ExportsAs(n, dests, x, settings)
  }

  /** One exporter for each destination, as it should be, and no other. */
  ghost predicate ExportsExactly(names: set<string>, dests: map<string, Destination>, exporters: map<string, map<string, Value>>) {
    && (forall n :: n in names ==> HasExporter(n, dests, exporters))
    && (forall x :: x in exporters ==> ServesOne(x, names, dests, exporters[x]))
  }

  lemma ExportersExact(names: set<string>, dests: map<string, Destination>)
    requires AllExportable(names, dests)
    ensures ExportsExactly(names, dests, Exporters(names, dests))
  {
    hide Exportable, ExportsAs, SettingsOf, ExporterId, NameOf, HasExporter, ServesOne;
    var exporters := Exporters(names, dests);
    forall n | n in names
      ensures HasExporter(n, dests, exporters)
      ensures ServesOne(ExporterId(dests)(n), names, dests, exporters[ExporterId(dests)(n)])
    {
      OneExporter(n, names, dests);
    }
    forall x | x in exporters ensures ServesOne(x, names, dests, exporters[x]) {
      var n :| n in names && ExporterId(dests)(n) == x;
      assert ServesOne(ExporterId(dests)(n), names, dests, exporters[ExporterId(dests)(n)]);
    }
  }

  lemma OneExporter(n: string, names: set<string>, dests: map<string, Destination>)
    requires AllExportable(names, dests) && n in names
    ensures var x, exporters := ExporterId(dests)(n), Exporters(names, dests);
      x in exporters && ExportsAs(n, dests, x, exporters[x])
      && HasExporter(n, dests, exporters) && ServesOne(x, names, dests, exporters[x])
  {
    hide Exportable, ExportsAs, SettingsOf, ExporterId, NameOf;
    NameOfId(n, names, dests);
    ExporterExact(n, dests);
  }

  datatype RenderError = UndefinedDestination(name: string) | UnsupportedType(name: string)

  /** Fails exactly when some referenced destination is undefined or of an unknown type, and
      then names one that is; which one depends on the walk order. */
  method BuildExporters(dests: map<string, Destination>, referenced: set<string>,
                        order: set<string> -> seq<string>)
      returns (r: Result<map<string, map<string, Value>>, RenderError>)
    requires forall s :: NoDup(order(s)) && Elems(order(s)) == s
    ensures r.Ok? <==> AllExportable(referenced, dests)
    ensures r.Ok? ==> r.value == Exporters(referenced, dests)
    ensures r.Ok? ==> ExportsExactly(referenced, dests, r.value)
    ensures r.Err? ==> r.error.name in referenced && !Exportable(r.error.name, dests)
                       && (r.error.UndefinedDestination? <==> r.error.name !in dests)
  {
    hide SettingsOf, ExportsExactly;
    var exporters: map<string, map<string, Value>> := map[];
    var names := order(referenced);
    for i := 0 to |names|
      invariant AllExportable(Elems(names[..i]), dests)
      invariant exporters == Exporters(Elems(names[..i]), dests)
    {
      var n := names[i];
      assert n in Elems(names);
      if n !in dests && n != DEBUG {
        return Err(UndefinedDestination(n));
      }
      if !KnownKind(DestKind(n, dests)) {
        return Err(UnsupportedType(n));
      }
      assert names[..i + 1] == names[..i] + [n];
      assert Elems(names[..i + 1]) == Elems(names[..i]) + {n};
      ExportersStep(Elems(names[..i]), n, dests);
      exporters := exporters[ExporterId(dests)(n) := SettingsOf(n, dests)];
    }
    assert names[..|names|] == names;
    ExportersExact(referenced, dests);
    return Ok(exporters);
  }

  // ----- routing -----

  ghost function Keys(services: seq<ServiceSpec>): set<string> {
    set s | s in services && Routed(s) :: Key(s)
  }

  /** The names recorded for a key: those of the last service having it. */
  ghost function LastNames(services: seq<ServiceSpec>, k: string): seq<string> {
    if |services| == 0 then []
    else
      var s := services[|services| - 1];
      if Routed(s) && Key(s) == k then Names(s) else LastNames(services[..|services| - 1], k)
  }

  ghost function Distinct(c: Codec, services: seq<ServiceSpec>): map<string, RouteSet> {
    map k | k in Keys(services) :: RouteSet(LastNames(services, k), k, c.short(k))
  }

  method CollectDistinct(c: Codec, services: seq<ServiceSpec>, sets: seq<Option<RouteSet>>)
      returns (distinct: map<string, RouteSet>)
    requires sets == Map(services, RouteSetFor(c))
    ensures distinct == Distinct(c, services)
  {
    hide RouteSetOf, Distinct;
    distinct := map[];
    assert distinct == Distinct(c, []) by { DistinctEmpty(c); }
    for i := 0 to |services|
      invariant distinct == Distinct(c, services[..i])
    {
      assert sets[i] == RouteSetFor(c)(services[i]);
      assert services[..i + 1] == services[..i] + [services[i]];
      DistinctStep(c, services[..i], services[i]);
      if sets[i].Some? {
        distinct := distinct[sets[i].value.key := sets[i].value];
      }
    }
    assert services[..|services|] == services;
  }

  lemma DistinctEmpty(c: Codec)
    ensures Distinct(c, []) == map[]
  {}

  lemma DistinctStep(c: Codec, done: seq<ServiceSpec>, s: ServiceSpec)
    ensures Distinct(c, done + [s]) ==
            if RouteSetOf(c, s).Some?
            then Distinct(c, done)[RouteSetOf(c, s).value.key := RouteSetOf(c, s).value]
            else Distinct(c, done)
  {
    hide Key, Names, Routed;
    KeysSnoc(done, s);
    assert (done + [s])[..|done|] == done;
    assert forall k :: LastNames(done + [s], k) == if Routed(s) && Key(s) == k then Names(s) else LastNames(done, k);
  }

  lemma KeysSnoc(done: seq<ServiceSpec>, s: ServiceSpec)
    ensures Keys(done + [s]) == Keys(done) + (if Routed(s) then {Key(s)} else {})
  {
    hide Key, Routed;
    assert s in done + [s];
    assert forall t :: t in done ==> t in done + [s];
  }

  ghost function ReferencedBy(services: seq<ServiceSpec>): set<string> {
    set k, n | k in Keys(services) && n in LastNames(services, k) :: n
  }

  function PipeName(c: Codec, k: string): string { OUT + c.short(k) }

  function EntryFor(c: Codec): string -> RouteEntry {
    (k: string) => RouteEntry("resource", PrintAtom(AttrIs(ROUTING_KEY, k)), [PipeName(c, k)])
  }

  function OutPipeline(names: seq<string>, dests: map<string, Destination>): Pipeline {
    Pipeline([ROUTING], ["batch"], Sort(Map(names, ExporterId(dests)), StrLe))
  }

  ghost function OutPipelines(c: Codec, services: seq<ServiceSpec>, dests: map<string, Destination>, keys: seq<string>)
    : map<string, Pipeline>
  {
    if |keys| == 0 then map[]
    else
      var k := keys[|keys| - 1];
      OutPipelines(c, services, dests, keys[..|keys| - 1])[PipeName(c, k) := OutPipeline(LastNames(services, k), dests)]
  }

  method BuildRouting(c: Codec, ghost services: seq<ServiceSpec>, distinct: map<string, RouteSet>,
                      dests: map<string, Destination>, order: set<string> -> seq<string>)
      returns (table: seq<RouteEntry>, pipelines: map<string, Pipeline>)
    requires distinct == Distinct(c, services)
    requires forall s :: NoDup(order(s)) && Elems(order(s)) == s
    ensures table == Map(SortedSet(Keys(services)), EntryFor(c))
    ensures pipelines == OutPipelines(c, services, dests, SortedSet(Keys(services)))
  {
    hide OutPipeline, LastNames, Keys, Distinct, EntryFor, OutPipelines;
    DistinctKeys(c, services);
    SortIsSortedSet(order(distinct.Keys));
    SortedSetMembers(Keys(services));
    forall k | k in Keys(services) { DistinctAt(c, services, k); }
    table, pipelines := RouteKeys(c, services, distinct, dests, Sort(order(distinct.Keys), StrLe));
  }

  /** One table entry and one out pipeline per key, in the order given. */
  method RouteKeys(c: Codec, ghost services: seq<ServiceSpec>, distinct: map<string, RouteSet>,
                   dests: map<string, Destination>, keys: seq<string>)
      returns (table: seq<RouteEntry>, pipelines: map<string, Pipeline>)
    requires forall j :: 0 <= j < |keys| ==>
      keys[j] in distinct && distinct[keys[j]] == RouteSet(LastNames(services, keys[j]), keys[j], c.short(keys[j]))
    ensures table == Map(keys, EntryFor(c))
    ensures pipelines == OutPipelines(c, services, dests, keys)
  {
    hide OutPipeline, LastNames, PrintAtom;
    table, pipelines := [], map[];
    for i := 0 to |keys|
      invariant |table| == i && forall j :: 0 <= j < i ==> table[j] == EntryFor(c)(keys[j])
      invariant pipelines == OutPipelines(c, services, dests, keys[..i])
    {
      var ds := distinct[keys[i]];
      assert keys[..i + 1][..i] == keys[..i];
      table := table + [RouteEntry("resource", PrintAtom(AttrIs(ROUTING_KEY, ds.key)), [OUT + ds.hash])];
      pipelines := pipelines[OUT + ds.hash := OutPipeline(ds.names, dests)];
    }
    assert keys[..|keys|] == keys;
  }

  lemma DistinctAt(c: Codec, services: seq<ServiceSpec>, k: string)
    requires k in Keys(services)
    ensures Distinct(c, services)[k] == RouteSet(LastNames(services, k), k, c.short(k))
  {}

  // ----- the whole configuration -----

  function Inert(b: Knobs): CollectorConfig {
    CollectorConfig(
      map["nop" := NopReceiver], map[], map[], map["nop" := map[]],
      map["health_check" := HealthCheck(b.healthCheckEndpoint)], ["health_check"],
      map["logs/inert" := Pipeline(["nop"], [], ["nop"])])
  }

  ghost function IngestPipeline(c: Codec, services: seq<ServiceSpec>): Pipeline {
    Pipeline(SortedSet(Prefixed(Hashes(c, services))), IngestProcessors(services), [ROUTING])
  }

  ghost function Full(b: Knobs, c: Codec, services: seq<ServiceSpec>, dests: map<string, Destination>): CollectorConfig {
    CollectorConfig(
      Receivers(c, services, Hashes(c, services)),
      Processors(services),
      map[ROUTING := Routing("ignore", Map(SortedSet(Keys(services)), EntryFor(c)))],
      Exporters(ReferencedBy(services), dests),
      map["file_storage" := FileStorage(b.fileStorageDir, true), "health_check" := HealthCheck(b.healthCheckEndpoint)],
      ["file_storage", "health_check"],
      map[INGEST := IngestPipeline(c, services)]
        + OutPipelines(c, services, dests, SortedSet(Keys(services))))
  }

  /** What compilation produces when it succeeds. */
  ghost function Compiled(b: Knobs, c: Codec, spec: Spec): CollectorConfig {
    var services := Tailable(spec);
    if Keys(services) == {} then Inert(b) else Full(b, c, services, spec.destinations)
  }

  /** When compilation succeeds: every destination it refers to is exportable. */
  ghost predicate Renderable(spec: Spec) {
    AllExportable(ReferencedBy(Tailable(spec)), spec.destinations)
  }

  method BuildConfig(b: Knobs, c: Codec, spec: Spec, order: set<string> -> seq<string>)
      returns (r: Result<CollectorConfig, RenderError>)
    requires forall s :: NoDup(order(s)) && Elems(order(s)) == s
    ensures r.Ok? <==> Renderable(spec)
    ensures r.Ok? ==> r.value == Compiled(b, c, spec)
    ensures r.Err? ==> r.error.name in ReferencedBy(Tailable(spec)) && !Exportable(r.error.name, spec.destinations)
  {
    hide Exportable, LastNames, Distinct, OutPipelines, Exporters, Processors, IngestProcessors, Receivers, RouteSetOf;
    var kept: seq<ServiceSpec> := [];
    for i := 0 to |spec.services|
      invariant kept == Filter(spec.services[..i], IsTailable)
    {
      assert spec.services[..i + 1] == spec.services[..i] + [spec.services[i]];
      FilterSnoc(spec.services[..i], spec.services[i], IsTailable);
      if spec.services[i].source == DockerJSONFile {
        kept := kept + [spec.services[i]];
      }
    }
    assert spec.services[..|spec.services|] == spec.services;
    var services := Sort(kept, Discovery.ById);
    assert services == Tailable(spec);
    assert Ordered(services, Discovery.ById) by {
      Discovery.ByIdLinear();
      SortOrdered(kept, Discovery.ById);
    }
    var sets := ResolveSets(c, services);
    var distinct := CollectDistinct(c, services, sets);
    DistinctKeys(c, services);
    if |distinct| == 0 {
      assert Keys(services) == {};
      return Ok(Inert(b));
    }
    assert Keys(services) != {};
    r := BuildFull(b, c, services, sets, distinct, spec.destinations, order);
  }

  lemma DistinctKeys(c: Codec, services: seq<ServiceSpec>)
    ensures Distinct(c, services).Keys == Keys(services)
    ensures Keys(services) == {} ==> ReferencedBy(services) == {}
  {
    hide Keys, LastNames;
  }

  method BuildFull(b: Knobs, c: Codec, services: seq<ServiceSpec>, sets: seq<Option<RouteSet>>,
                   distinct: map<string, RouteSet>, dests: map<string, Destination>,
                   order: set<string> -> seq<string>)
      returns (r: Result<CollectorConfig, RenderError>)
    requires Ordered(services, Discovery.ById)
    requires sets == Map(services, RouteSetFor(c)) && distinct == Distinct(c, services)
    requires forall s :: NoDup(order(s)) && Elems(order(s)) == s
    ensures r.Ok? <==> AllExportable(ReferencedBy(services), dests)
    ensures r.Ok? ==> r.value == Full(b, c, services, dests)
    ensures r.Err? ==> r.error.name in ReferencedBy(services) && !Exportable(r.error.name, dests)
  {
    hide Exportable, OutPipelines, Exporters, Processors, IngestProcessors, Receivers, RouteSetOf, EntryFor, Hashes;
    var referenced := CollectReferenced(c, services, distinct);
    var exporters :- BuildExporters(dests, referenced, order);
    var receivers, receiverNames := BuildReceivers(c, services, order);
    var processors, ingest := BuildProcessors(c, services, sets, order);
    var table, outPipelines := BuildRouting(c, services, distinct, dests, order);
    return Ok(CollectorConfig(
      receivers, processors, map[ROUTING := Routing("ignore", table)], exporters,
      map["file_storage" := FileStorage(b.fileStorageDir, true), "health_check" := HealthCheck(b.healthCheckEndpoint)],
      ["file_storage", "health_check"],
      map[INGEST := Pipeline(receiverNames, ingest, [ROUTING])] + outPipelines));
  }

  method CollectReferenced(c: Codec, ghost services: seq<ServiceSpec>, distinct: map<string, RouteSet>)
      returns (referenced: set<string>)
    requires distinct == Distinct(c, services)
    ensures referenced == ReferencedBy(services)
  {
    hide LastNames, Keys;
    DistinctKeys(c, services);
    referenced := set k, n | k in distinct && n in distinct[k].names :: n;
    assert forall k :: k in Keys(services) ==> distinct[k].names == LastNames(services, k);
  }
}
