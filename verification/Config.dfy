/** internal/config/config.go: the loaded configuration and its validation. */
module Config {
  import opened Wrappers
  import opened Sorting
  import opened Strings
  import opened Backend

  datatype Sink = Sink(
    kind: string,
    endpoint: string,
    path: string,
    headers: map<string, string>,
    settings: map<string, Value>)

  datatype Level = Level(field: string, mapping: map<string, string>)

  datatype ParseSpec = ParseSpec(
    kind: string,
    pattern: string,
    timestamp: Option<Timestamp>,
    level: Option<Level>)

  datatype Profile = Profile(
    parse: Option<ParseSpec>,
    multiline: string,
    drop: seq<string>,
    attr: map<string, string>,
    operators: seq<Operator>)

  datatype Channel = Channel(kind: string, minLevel: string)

  datatype Config = Config(
    defaultDestination: string,
    labels: seq<string>,
    destinations: map<string, Sink>,
    profiles: map<string, Profile>,
    debounce: string,
    notifications: seq<Channel>,
    telemetry: seq<string>)

  const NONE := "none"
  const DEBUG := "debug"
  const DESTINATION_TYPES := {"otlphttp", "otlp", "loki", "elasticsearch", "file", "debug"}
  const RESERVED_PARSERS := {"json", "logfmt", "none", "auto", "debug"}

  const CHANNEL_TYPES := {
    "log", "smtp", "ntfy", "gotify", "telegram", "discord", "slack", "mattermost", "pushover", "webhook", "matrix"}
  const CHANNEL_LEVELS := {"info", "warn", "warning", "error"}
  const TELEMETRY_TYPES := {"gatus"}

  datatype Fault =
    | MissingType(name: string)
    | InvalidType(name: string, kind: string)
    | NoneDefault
    | UnknownDefault(name: string)
    | BadDebounce
    | ReservedProfile(name: string)
    | MissingChannel(at: nat)
    | InvalidChannel(at: nat)
    | InvalidMinLevel(at: nat)
    | MissingTelemetry(at: nat)
    | InvalidTelemetry(at: nat)

  /** `duration` says which texts time.ParseDuration accepts. */
  ghost predicate IsFault(c: Config, duration: string -> bool, f: Fault) {
    match f
    case MissingType(n) => n in c.destinations && c.destinations[n].kind == ""
    case InvalidType(n, k) =>
      n in c.destinations && c.destinations[n].kind == k && k != "" && k !in {"otlphttp", "otlp", "loki", "elasticsearch", "file", "debug"}
    case NoneDefault => c.defaultDestination == "none"
    case UnknownDefault(n) =>
      n == c.defaultDestination && n !in {"", "none", "debug"} && n !in c.destinations
    case BadDebounce => !duration(c.debounce)
    case ReservedProfile(n) => n in c.profiles && n in {"json", "logfmt", "none", "auto", "debug"}
    case MissingChannel(i) => i < |c.notifications| && c.notifications[i].kind == ""
    case InvalidChannel(i) =>
      i < |c.notifications| && c.notifications[i].kind != "" && c.notifications[i].kind !in {
           "log", "smtp", "ntfy", "gotify", "telegram", "discord", "slack", "mattermost", "pushover", "webhook", "matrix"}
    case InvalidMinLevel(i) =>
      i < |c.notifications| && c.notifications[i].minLevel != ""
      && ToLower(TrimSpace(c.notifications[i].minLevel)) !in {"info", "warn", "warning", "error"}
    case MissingTelemetry(i) => i < |c.telemetry| && c.telemetry[i] == ""
    case InvalidTelemetry(i) => i < |c.telemetry| && c.telemetry[i] != "" && c.telemetry[i] !in {"gatus"}
  }

  ghost predicate ValidConfig(c: Config, duration: string -> bool) { forall f :: !IsFault(c, duration, f) }

  /** What rendering needs of a configuration. */
  ghost predicate SinksValid(c: Config) {
    forall n :: n in c.destinations ==> c.destinations[n].kind in DESTINATION_TYPES
  }

  lemma ValidHasSinks(c: Config, duration: string -> bool)
    requires ValidConfig(c, duration)
    ensures SinksValid(c)
  {
    forall n | n in c.destinations ensures c.destinations[n].kind in DESTINATION_TYPES {
      assert !IsFault(c, duration, MissingType(n));
      assert !IsFault(c, duration, InvalidType(n, c.destinations[n].kind));
    }
  }

  ghost predicate OfDestination(f: Fault) { f.MissingType? || f.InvalidType? }
  ghost predicate OfChannel(f: Fault) { f.MissingChannel? || f.InvalidChannel? || f.InvalidMinLevel? }
  ghost predicate OfTelemetry(f: Fault) { f.MissingTelemetry? || f.InvalidTelemetry? }
  ghost predicate OfScalar(f: Fault) { f.NoneDefault? || f.UnknownDefault? || f.BadDebounce? }

  /** Validate reports every fault of the configuration, and nothing else. */
  method Validate(c: Config, duration: string -> bool, destOrder: seq<string>, profileOrder: seq<string>)
      returns (errs: seq<Fault>)
    requires Elems(destOrder) == c.destinations.Keys && Elems(profileOrder) == c.profiles.Keys
    ensures forall f :: f in errs <==> IsFault(c, duration, f)
    ensures errs == [] <==> ValidConfig(c, duration)
    ensures errs == [] ==> SinksValid(c)
  {
    hide IsFault;
    var dests := DestinationFaults(c, duration, destOrder);
    var scalars := ScalarFaults(c, duration);
    var profiles := ProfileFaults(c, duration, profileOrder);
    var channels := ChannelFaults(c, duration);
    var sinks := TelemetryFaults(c, duration);
    errs := dests + scalars + profiles + channels + sinks;
    assert errs == [] <==> forall f :: f !in errs by {
      if errs != [] { assert errs[0] in errs; }
    }
    if ValidConfig(c, duration) { ValidHasSinks(c, duration); }
  }

  method DestinationFaults(c: Config, ghost duration: string -> bool, order: seq<string>) returns (errs: seq<Fault>)
    requires Elems(order) == c.destinations.Keys
    ensures forall f :: f in errs <==> IsFault(c, duration, f) && OfDestination(f)
  {
    errs := [];
    for i := 0 to |order|
      invariant forall f :: f in errs <==> IsFault(c, duration, f) && OfDestination(f) && f.name in order[..i]
    {
      assert order[i] in Elems(order);
      assert order[..i + 1] == order[..i] + [order[i]];
      var kind := c.destinations[order[i]].kind;
      if kind == "" {
        errs := errs + [MissingType(order[i])];
      } else if kind !in DESTINATION_TYPES {
        errs := errs + [InvalidType(order[i], kind)];
      }
    }
    assert order[..|order|] == order;
    forall f | IsFault(c, duration, f) && OfDestination(f) ensures f.name in order {
      assert f.name in Elems(order);
    }
  }

  method ScalarFaults(c: Config, duration: string -> bool) returns (errs: seq<Fault>)
    ensures forall f :: f in errs <==> IsFault(c, duration, f) && OfScalar(f)
  {
    errs := [];
    if c.defaultDestination != "" {
      if c.defaultDestination == NONE {
        errs := errs + [NoneDefault];
      } else if c.defaultDestination !in c.destinations && c.defaultDestination != DEBUG {
        errs := errs + [UnknownDefault(c.defaultDestination)];
      }
    }
    if !duration(c.debounce) {
      errs := errs + [BadDebounce];
    }
  }

  method ProfileFaults(c: Config, ghost duration: string -> bool, order: seq<string>) returns (errs: seq<Fault>)
    requires Elems(order) == c.profiles.Keys
    ensures forall f :: f in errs <==> IsFault(c, duration, f) && f.ReservedProfile?
  {
    errs := [];
    for i := 0 to |order|
      invariant forall f :: f in errs <==> IsFault(c, duration, f) && f.ReservedProfile? && f.name in order[..i]
    {
      assert order[i] in Elems(order);
      assert order[..i + 1] == order[..i] + [order[i]];
      if order[i] in RESERVED_PARSERS {
        errs := errs + [ReservedProfile(order[i])];
      }
    }
    assert order[..|order|] == order;
    forall f | IsFault(c, duration, f) && f.ReservedProfile? ensures f.name in order {
      assert f.name in Elems(order);
    }
  }

  method ChannelFaults(c: Config, ghost duration: string -> bool) returns (errs: seq<Fault>)
    ensures forall f :: f in errs <==> IsFault(c, duration, f) && OfChannel(f)
  {
    hide ToLower, TrimSpace;
    errs := [];
    for i := 0 to |c.notifications|
      invariant forall f :: f in errs <==> IsFault(c, duration, f) && OfChannel(f) && f.at < i
    {
      var ch := c.notifications[i];
      if ch.kind == "" {
        errs := errs + [MissingChannel(i)];
      } else if ch.kind !in CHANNEL_TYPES {
        errs := errs + [InvalidChannel(i)];
      }
      if ch.minLevel != "" && ToLower(TrimSpace(ch.minLevel)) !in CHANNEL_LEVELS {
        errs := errs + [InvalidMinLevel(i)];
      }
    }
  }

  method TelemetryFaults(c: Config, ghost duration: string -> bool) returns (errs: seq<Fault>)
    ensures forall f :: f in errs <==> IsFault(c, duration, f) && OfTelemetry(f)
  {
    errs := [];
    for i := 0 to |c.telemetry|
      invariant forall f :: f in errs <==> IsFault(c, duration, f) && OfTelemetry(f) && f.at < i
    {
      if c.telemetry[i] == "" {
        errs := errs + [MissingTelemetry(i)];
      } else if c.telemetry[i] !in TELEMETRY_TYPES {
        errs := errs + [InvalidTelemetry(i)];
      }
    }
  }
}
