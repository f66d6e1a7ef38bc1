/** The collector's side: the configuration the renderer produces, and what a collector running
    that configuration does with a log file. This is the meaning compilation must preserve. */
module Collector {
  import opened Wrappers
  import opened Sorting
  import opened Strings
  import opened Backend
  import opened Ottl

  // ----- configuration -----

  datatype Receiver =
    | FileLog(includes: seq<string>, includeFilePath: bool, storage: string, operators: seq<Operator>)
    | NopReceiver

  datatype StatementGroup = StatementGroup(context: string, conditions: seq<string>, statements: seq<string>)

  datatype Processor =
    | MemoryLimiter(checkInterval: string, limitPercentage: nat, spikeLimitPercentage: nat)
    | Batch
    | Transform(errorMode: string, groups: seq<StatementGroup>)
    | DropWhen(errorMode: string, conditions: seq<string>)

  datatype RouteEntry = RouteEntry(context: string, condition: string, pipelines: seq<string>)

  /** A routing connector. */
  datatype Connector = Routing(errorMode: string, table: seq<RouteEntry>)

  datatype Extension = FileStorage(directory: string, createDirectory: bool) | HealthCheck(endpoint: string)

  datatype Pipeline = Pipeline(receivers: seq<string>, processors: seq<string>, exporters: seq<string>)

  datatype CollectorConfig = CollectorConfig(
    receivers: map<string, Receiver>,
    processors: map<string, Processor>,
    connectors: map<string, Connector>,
    exporters: map<string, map<string, Value>>,
    extensions: map<string, Extension>,
    serviceExtensions: seq<string>,
    pipelines: map<string, Pipeline>)

  // ----- records -----

  datatype Record = Record(
    attributes: map<string, string>,
    resource: map<string, string>,
    body: string,
    severity: int)

  /** One log file: its raw lines, oldest first. */
  datatype Log = Log(path: string, lines: seq<string>)

  datatype Delivery = Delivery(exporter: string, record: Record)

  /** The regexp engine, the json-file envelope (the stream and the text of a raw line), and every
      stanza operator but the two that recover a record's identity. An operator turns the records
      of one file into others: it may parse, recombine or drop them. */
  datatype Engine = Engine(
    isMatch: (string, string) -> bool,
    envelope: string -> Option<(string, string)>,
    stanza: (Operator, seq<Record>) -> seq<Record>)

  const CONTAINER_ID := "container_id"
  const IOSTREAM := "log.iostream"
  const FILE_PATH := "log.file.path"

  predicate Setting(op: Operator, k: string, v: string) { k in op && op[k] == Text(v) }

  /** A container operator that unwraps Docker's json-file envelope. */
  predicate UnwrapsDocker(op: Operator) {
    && op.Keys == {"type", "format", "add_metadata_from_filepath"}
    && Setting(op, "type", "container") && Setting(op, "format", "docker")
    && op["add_metadata_from_filepath"] == Flag(false)
  }

  /** A regex operator that captures the container id in a record's file path. */
  predicate CapturesId(op: Operator) {
    && op.Keys == {"type", "parse_from", "regex"}
    && Setting(op, "type", "regex_parser") && Setting(op, "parse_from", "attributes[\"log.file.path\"]")
    && Setting(op, "regex", "^/var/lib/docker/containers/(?P<container_id>[a-f0-9]{64})/")
  }

  predicate IsHex(c: char) { '0' <= c <= '9' || 'a' <= c <= 'f' }

  predicate Is64Hex(s: string) { |s| == 64 && forall c :: c in s ==> IsHex(c) }

  /** What that regex captures. */
  function IdInPath(path: string): Option<string> {
    match CutPrefix(path, "/var/lib/docker/containers/")
    case None => None
    case Some(rest) => if |rest| > 64 && Is64Hex(rest[..64]) && rest[64] == '/' then Some(rest[..64]) else None
  }

  /** The container operator: unwrap the json-file envelope. */
  function Decode(e: Engine): Record -> Record {
    (r: Record) =>
      match e.envelope(r.body)
      case None => r
      case Some(env) => r.(attributes := r.attributes[IOSTREAM := env.0], body := env.1)
  }

  /** The id operator: recover the container id from the file's path. */
  function Locate(r: Record): Record {
    match IdInPath(if FILE_PATH in r.attributes then r.attributes[FILE_PATH] else "")
    case None => r
    case Some(id) => r.(attributes := r.attributes[CONTAINER_ID := id])
  }

  function RunOperator(e: Engine, op: Operator, rs: seq<Record>): seq<Record> {
    if UnwrapsDocker(op) then Map(rs, Decode(e))
    else if CapturesId(op) then Map(rs, Locate)
    else e.stanza(op, rs)
  }

  function RunOperators(e: Engine, ops: seq<Operator>, rs: seq<Record>): seq<Record>
    decreases ops
  {
    if |ops| == 0 then rs else RunOperators(e, ops[1..], RunOperator(e, ops[0], rs))
  }

  function RawRecord(path: string, includeFilePath: bool): string -> Record {
    (raw: string) => Record(if includeFilePath then map[FILE_PATH := path] else map[], map[], raw, 0)
  }

  /** The records a filelog receiver emits for one file. Each record owns its resource attributes. */
  function Emitted(e: Engine, log: Log, includeFilePath: bool, ops: seq<Operator>): seq<Record> {
    RunOperators(e, ops, Map(log.lines, RawRecord(log.path, includeFilePath)))
  }

  // ----- processors -----

  predicate Holds(e: Engine, a: Atom, attributes: map<string, string>, severity: int, body: string) {
    match a
    case AttrIs(k, v) => k in attributes && attributes[k] == v
    case SeveritySet => severity != 0
    case SeverityBelow(n) => severity < n
    case BodyMatches(p) => e.isMatch(body, p)
  }

  /** In log context `attributes` are the record's own. */
  predicate LogCondition(e: Engine, text: string, r: Record) {
    match ReadCondition(text)
    case None => false
    case Some(atoms) => forall a :: a in atoms ==> Holds(e, a, r.attributes, r.severity, r.body)
  }

  /** In resource context `attributes` are the resource's. */
  predicate ResourceCondition(e: Engine, text: string, r: Record) {
    match ReadCondition(text)
    case None => false
    case Some(atoms) => forall a :: a in atoms ==> Holds(e, a, r.resource, 0, "")
  }

  function RunStatements(statements: seq<string>, resource: map<string, string>): map<string, string> {
    if |statements| == 0 then resource
    else
      RunStatements(statements[1..],
        match ReadSet(statements[0])
        case None => resource
        case Some((k, v)) => resource[k := v])
  }

  function RunGroup(e: Engine, g: StatementGroup, r: Record): Record {
    if g.context == "log" && exists c :: c in g.conditions && LogCondition(e, c, r)
    then r.(resource := RunStatements(g.statements, r.resource)) else r
  }

  function RunGroups(e: Engine, groups: seq<StatementGroup>, r: Record): Record {
    if |groups| == 0 then r else RunGroups(e, groups[1..], RunGroup(e, groups[0], r))
  }

  /** None when the record is dropped. */
  function Process(e: Engine, p: Processor, r: Record): Option<Record> {
    match p
    case MemoryLimiter(_, _, _) => Some(r)
    case Batch => Some(r)
    case Transform(_, groups) => Some(RunGroups(e, groups, r))
    case DropWhen(_, conditions) =>
      if exists c :: c in conditions && LogCondition(e, c, r) then None else Some(r)
  }

  function RunProcessors(e: Engine, cfg: CollectorConfig, names: seq<string>, r: Record): Option<Record> {
    if |names| == 0 then Some(r)
    else if names[0] !in cfg.processors then None
    else
      match Process(e, cfg.processors[names[0]], r)
      case None => None
      case Some(r') => RunProcessors(e, cfg, names[1..], r')
  }

  // ----- pipelines -----

  function FinalExporter(cfg: CollectorConfig, r: Record): string -> seq<Delivery> {
    (x: string) => if x in cfg.exporters then [Delivery(x, r)] else []
  }

  /** A pipeline fed by the connector it names as a receiver. */
  function OutOf(e: Engine, cfg: CollectorConfig, connector: string, r: Record): string -> seq<Delivery> {
    (pn: string) =>
      if pn in cfg.pipelines && connector in cfg.pipelines[pn].receivers then
        match RunProcessors(e, cfg, cfg.pipelines[pn].processors, r)
        case None => []
        case Some(r') => FlatMap(cfg.pipelines[pn].exporters, FinalExporter(cfg, r'))
      else []
  }

  /** Every table entry whose condition holds forwards the record; nothing matches by default. */
  function ViaEntry(e: Engine, cfg: CollectorConfig, connector: string, r: Record): RouteEntry -> seq<Delivery> {
    (entry: RouteEntry) =>
      if entry.context == "resource" && ResourceCondition(e, entry.condition, r)
      then FlatMap(entry.pipelines, OutOf(e, cfg, connector, r)) else []
  }

  function ToExporter(e: Engine, cfg: CollectorConfig, r: Record): string -> seq<Delivery> {
    (x: string) =>
      if x in cfg.exporters then [Delivery(x, r)]
      else if x in cfg.connectors then FlatMap(cfg.connectors[x].table, ViaEntry(e, cfg, x, r))
      else []
  }

  function RunPipeline(e: Engine, cfg: CollectorConfig, p: Pipeline, r: Record): seq<Delivery> {
    match RunProcessors(e, cfg, p.processors, r)
    case None => []
    case Some(r') => FlatMap(p.exporters, ToExporter(e, cfg, r'))
  }

  function EachRecord(e: Engine, cfg: CollectorConfig, p: Pipeline): Record -> seq<Delivery> {
    (r: Record) => RunPipeline(e, cfg, p, r)
  }

  function FromReceiver(e: Engine, cfg: CollectorConfig, log: Log, p: Pipeline): string -> seq<Delivery> {
    (rn: string) =>
      if rn in cfg.receivers && cfg.receivers[rn].FileLog? && log.path in cfg.receivers[rn].includes
      then FlatMap(Emitted(e, log, cfg.receivers[rn].includeFilePath, cfg.receivers[rn].operators), EachRecord(e, cfg, p))
      else []
  }

  function FromPipeline(e: Engine, cfg: CollectorConfig, log: Log): string -> seq<Delivery> {
    (pn: string) =>
      if pn in cfg.pipelines
      then FlatMap(cfg.pipelines[pn].receivers, FromReceiver(e, cfg, log, cfg.pipelines[pn])) else []
  }

  /** Everything a collector running `cfg` exports on account of one log file. */
  ghost function Deliver(e: Engine, cfg: CollectorConfig, log: Log): seq<Delivery> {
    FlatMap(SortedSet(cfg.pipelines.Keys), FromPipeline(e, cfg, log))
  }
}
