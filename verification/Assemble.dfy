/** internal/daemon/spec.go: discovered services plus the config become the Spec. */
module Assemble {
  import opened Wrappers
  import opened Sorting
  import opened Backend
  import opened Config

  function Optional(k: string, v: string): map<string, Value> {
    if v == "" then map[] else map[k := Text(v)]
  }

  /** A configured sink as one settings map: typed fields over the inline passthrough. */
  function Flatten(name: string, d: Sink): Destination {
    Destination(name, d.kind,
      d.settings + Optional("endpoint", d.endpoint) + Optional("path", d.path)
      + (if |d.headers| > 0 then map["headers" := Mapping(d.headers)] else map[]))
  }

  /** The setting a sink gives under a key: its own non-empty endpoint, path and headers, and its
      inline settings everywhere else. */
  function SinkSetting(d: Sink, k: string): Option<Value> {
    if k == "endpoint" && d.endpoint != "" then Some(Text(d.endpoint))
    else if k == "path" && d.path != "" then Some(Text(d.path))
    else if k == "headers" && d.headers != map[] then Some(Mapping(d.headers))
    else if k in d.settings then Some(d.settings[k])
    else None
  }

  function SettingAt(settings: map<string, Value>, k: string): Option<Value> {
    if k in settings then Some(settings[k]) else None
  }

  lemma OverlayAt(a: map<string, Value>, b: map<string, Value>, k: string)
    ensures SettingAt(a + b, k) == if k in b then SettingAt(b, k) else SettingAt(a, k)
  {}

  lemma OptionalAt(key: string, v: string, k: string)
    ensures SettingAt(Optional(key, v), k) == if k == key && v != "" then Some(Text(v)) else None
    ensures k in Optional(key, v) <==> k == key && v != ""
  {}

  /** Typed fields win over inline settings, and nothing is lost or added. */
  lemma FlattenExact(name: string, d: Sink, k: string)
    ensures SettingAt(Flatten(name, d).settings, k) == SinkSetting(d, k)
    ensures Flatten(name, d).name == name && Flatten(name, d).kind == d.kind
  {
    hide SettingAt, Optional;
    var endpoint, path := Optional("endpoint", d.endpoint), Optional("path", d.path);
    var headers: map<string, Value> := if |d.headers| > 0 then map["headers" := Mapping(d.headers)] else map[];
    OverlayAt(d.settings, endpoint, k);
    OverlayAt(d.settings + endpoint, path, k);
    OverlayAt(d.settings + endpoint + path, headers, k);
    OptionalAt("endpoint", d.endpoint, k);
    OptionalAt("path", d.path, k);
    HeadersAt(d, k);
    KeysApart();
    InlineAt(d, k);
  }

  lemma KeysApart()
    ensures "endpoint" != "path" && "endpoint" != "headers" && "path" != "headers"
  {
    assert |"endpoint"| == 8 && |"path"| == 4 && |"headers"| == 7;
  }

  lemma InlineAt(d: Sink, k: string)
    ensures SettingAt(d.settings, k) == if k in d.settings then Some(d.settings[k]) else None
  {}

  lemma HeadersAt(d: Sink, k: string)
    ensures var headers: map<string, Value> := if |d.headers| > 0 then map["headers" := Mapping(d.headers)] else map[];
      && SettingAt(headers, k) == (if k == "headers" && d.headers != map[] then Some(Mapping(d.headers)) else None)
      && (k in headers <==> k == "headers" && d.headers != map[])
  {
    assert |d.headers| > 0 <==> d.headers != map[];
  }

  ghost function Referenced(services: seq<ServiceSpec>): set<string> {
    set s, n | s in services && n in DestSet(s) :: n
  }

  /** Of the destinations named, those the config defines, but never "debug". */
  ghost function Carried(names: set<string>, cfg: Config): map<string, Destination> {
    map n | n in names && n != DEBUG && n in cfg.destinations :: Flatten(n, cfg.destinations[n])
  }

  ghost function AssembledSpec(services: seq<ServiceSpec>, cfg: Config): Spec {
    Spec(services, Carried(Referenced(services), cfg))
  }

  /** The destinations are those referenced and configured, never debug, each with its sink's kind
      and settings. */
  ghost predicate CarriesSettings(services: seq<ServiceSpec>, cfg: Config, spec: Spec) {
    && spec.services == services
    && (forall n :: n in spec.destinations <==>
          n != "debug" && n in cfg.destinations && exists s, r :: s in services && r in s.routes && r.destination == n)
    && (forall n :: n in spec.destinations ==>
          && spec.destinations[n].name == n && spec.destinations[n].kind == cfg.destinations[n].kind
          && forall k :: SettingAt(spec.destinations[n].settings, k) == SinkSetting(cfg.destinations[n], k))
  }

  lemma ReferencedExact(services: seq<ServiceSpec>, n: string)
    ensures n in Referenced(services) <==> exists s, r :: s in services && r in s.routes && r.destination == n
  {
    if n in Referenced(services) {
      var s :| s in services && n in DestSet(s);
      var r :| r in s.routes && r.destination == n;
    }
    if s, r :| s in services && r in s.routes && r.destination == n {
      assert n in DestSet(s);
    }
  }

  lemma AssembledCarries(services: seq<ServiceSpec>, cfg: Config)
    ensures CarriesSettings(services, cfg, AssembledSpec(services, cfg))
  {
    hide Flatten, SinkSetting, SettingAt, Referenced;
    var spec := AssembledSpec(services, cfg);
    forall n { ReferencedExact(services, n); }
    forall n | n in spec.destinations
      ensures spec.destinations[n].name == n && spec.destinations[n].kind == cfg.destinations[n].kind
      ensures forall k :: SettingAt(spec.destinations[n].settings, k) == SinkSetting(cfg.destinations[n], k)
    {
      forall k { FlattenExact(n, cfg.destinations[n], k); }
      FlattenExact(n, cfg.destinations[n], "");
    }
  }

  method AssembleSpec(services: seq<ServiceSpec>, cfg: Config) returns (spec: Spec)
    ensures spec == AssembledSpec(services, cfg)
    ensures CarriesSettings(services, cfg, spec)
  {
    AssembledCarries(services, cfg);
    hide Flatten, Carried, Referenced, DestSet, CarriesSettings;
    var dests: map<string, Destination> := map[];
    CarriedNone(cfg);
    ghost var done: set<string> := {};
    for i := 0 to |services|
      invariant done == Referenced(services[..i])
      invariant dests == Carried(done, cfg)
    {
      ReferencedSnoc(services[..i], services[i]);
      assert services[..i + 1] == services[..i] + [services[i]];
      var names := DestinationNames(services[i]);
      ghost var before := done;
      for j := 0 to |names|
        invariant done == before + Elems(names[..j])
        invariant dests == Carried(done, cfg)
      {
        var name := names[j];
        assert names[..j + 1] == names[..j] + [name];
        assert Elems(names[..j + 1]) == Elems(names[..j]) + {name};
        CarriedStep(done, name, cfg);
        done := done + {name};
        if name == DEBUG || name in dests || name !in cfg.destinations {
          continue;
        }
        dests := dests[name := Flatten(name, cfg.destinations[name])];
      }
      assert names[..|names|] == names;
      assert Elems(names) == DestSet(services[i]);
      assert Referenced(services[..i + 1]) == before + Elems(names);
    }
    assert services[..|services|] == services;
    spec := Spec(services, dests);
  }

  lemma CarriedNone(cfg: Config)
    ensures Referenced([]) == {} && Carried({}, cfg) == map[]
  {}

  lemma CarriedStep(done: set<string>, name: string, cfg: Config)
    ensures Carried(done + {name}, cfg) ==
            if name == DEBUG || name in Carried(done, cfg) || name !in cfg.destinations
            then Carried(done, cfg)
            else Carried(done, cfg)[name := Flatten(name, cfg.destinations[name])]
  {
    hide Flatten;
  }

  lemma ReferencedSnoc(services: seq<ServiceSpec>, s: ServiceSpec)
    ensures Referenced(services + [s]) == Referenced(services) + DestSet(s)
  {
    forall n ensures n in Referenced(services + [s]) <==> n in Referenced(services) + DestSet(s) {
      if n in DestSet(s) {
        assert s in services + [s];
      }
      if n in Referenced(services) {
        var t :| t in services && n in DestSet(t);
        assert t in services + [s];
      }
    }
  }
}
