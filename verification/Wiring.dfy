/** The shape of a compiled configuration: nothing dangling, nothing dead, every file tailed once,
    and the same configuration whatever order its inputs came in. */
module Wiring {
  import opened Sorting
  import opened Strings
  import opened Backend
  import opened Ottl
  import opened Collector
  import opened Render
  import opened Compiler
  import Discovery

  // ----- closed and live -----

  predicate PipelineClosed(cfg: CollectorConfig, p: Pipeline) {
    && |p.receivers| > 0 && |p.exporters| > 0
    && (forall n :: n in p.receivers ==> n in cfg.receivers || n in cfg.connectors)
    && (forall n :: n in p.processors ==> n in cfg.processors)
    && (forall n :: n in p.exporters ==> n in cfg.exporters || n in cfg.connectors)
  }

  predicate EntryClosed(cfg: CollectorConfig, connector: string, entry: RouteEntry) {
    |entry.pipelines| > 0
    && forall n :: n in entry.pipelines ==> n in cfg.pipelines && connector in cfg.pipelines[n].receivers
  }

  /** Every component named anywhere is defined. */
  ghost predicate Closed(cfg: CollectorConfig) {
    && (forall n :: n in cfg.pipelines ==> PipelineClosed(cfg, cfg.pipelines[n]))
    && (forall n, x :: n in cfg.connectors && x in cfg.connectors[n].table ==> EntryClosed(cfg, n, x))
    && (forall n :: n in cfg.receivers && cfg.receivers[n].FileLog? ==> cfg.receivers[n].storage in cfg.extensions)
    && (forall n :: n in cfg.serviceExtensions ==> n in cfg.extensions)
  }

  ghost predicate Receives(cfg: CollectorConfig, n: string) {
    exists pn :: pn in cfg.pipelines && n in cfg.pipelines[pn].receivers
  }

  ghost predicate Processes(cfg: CollectorConfig, n: string) {
    exists pn :: pn in cfg.pipelines && n in cfg.pipelines[pn].processors
  }

  ghost predicate Exports(cfg: CollectorConfig, n: string) {
    exists pn :: pn in cfg.pipelines && n in cfg.pipelines[pn].exporters
  }

  /** Every component defined is used. */
  ghost predicate Live(cfg: CollectorConfig) {
    && (forall n :: n in cfg.receivers ==> Receives(cfg, n))
    && (forall n :: n in cfg.processors ==> Processes(cfg, n))
    && (forall n :: n in cfg.exporters ==> Exports(cfg, n))
    && (forall n :: n in cfg.connectors ==> Receives(cfg, n) && Exports(cfg, n))
    && (forall n :: n in cfg.extensions ==> n in cfg.serviceExtensions)
  }

  lemma InertWired(b: Knobs)
    ensures Closed(Inert(b)) && Live(Inert(b))
  {
    var cfg := Inert(b);
    var p := cfg.pipelines["logs/inert"];
    assert p == Pipeline(["nop"], [], ["nop"]);
    assert Receives(cfg, "nop") && Exports(cfg, "nop");
  }

  /** The pipeline `p` is the out pipeline of some key. */
  ghost predicate OutOfKey(services: seq<ServiceSpec>, dests: map<string, Destination>, p: Pipeline) {
    exists k :: k in Keys(services) && p == OutPipeline(LastNames(services, k), dests)
  }

  lemma {:induction false} OutPipelinesOfKeys(c: Codec, services: seq<ServiceSpec>, dests: map<string, Destination>,
                                              keys: seq<string>)
    requires forall k :: k in keys ==> k in Keys(services)
    ensures forall pn :: pn in OutPipelines(c, services, dests, keys) ==>
      OutOfKey(services, dests, OutPipelines(c, services, dests, keys)[pn])
  {
    hide OutPipeline, LastNames, PipeName, Keys;
    if |keys| > 0 {
      var n := |keys| - 1;
      assert keys[n] in keys && forall k :: k in keys[..n] ==> k in keys;
      OutPipelinesOfKeys(c, services, dests, keys[..n]);
    }
  }

  lemma PipelinesKnown(b: Knobs, c: Codec, services: seq<ServiceSpec>, dests: map<string, Destination>)
    ensures var cfg := Full(b, c, services, dests);
      && INGEST in cfg.pipelines && cfg.pipelines[INGEST] == IngestPipeline(c, services)
      && forall pn :: pn in cfg.pipelines && pn != INGEST ==> OutOfKey(services, dests, cfg.pipelines[pn])
  {
    hide Full, IngestPipeline, OutPipelines, OutOfKey, Keys;
    PipelinesShape(b, c, services, dests);
    FullPipelines(b, c, services, dests);
    var keys := SortedSet(Keys(services));
    assert forall k :: k in keys ==> k in Keys(services) by { SortedSetFacts(Keys(services)); }
    OutPipelinesOfKeys(c, services, dests, keys);
  }

  lemma OutPipelineClosed(b: Knobs, c: Codec, services: seq<ServiceSpec>, dests: map<string, Destination>, p: Pipeline)
    requires OutOfKey(services, dests, p)
    ensures PipelineClosed(Full(b, c, services, dests), p)
  {
    hide Full, Keys, LastNames, Processors, Exporters, ReferencedBy, EntryFor, ExporterId;
    var k :| k in Keys(services) && p == OutPipeline(LastNames(services, k), dests);
    FullProcessors(b, c, services, dests);
    FullExporters(b, c, services, dests);
    FullConnectors(b, c, services, dests);
    BatchDefined(services);
    forall x | x in p.exporters ensures x in Exporters(ReferencedBy(services), dests) {
      ExporterDefined(services, dests, k, x);
    }
    LastNamesNonEmpty(services, k);
    SortPerm(Map(LastNames(services, k), ExporterId(dests)), StrLe);
    assert |multiset(p.exporters)| == |LastNames(services, k)|;
  }

  lemma LastNamesNonEmpty(services: seq<ServiceSpec>, k: string)
    requires k in Keys(services)
    ensures |LastNames(services, k)| > 0
  {
    hide Key;
    LastNamesOwner(services, k);
    var s :| s in services && Routed(s) && Key(s) == k && LastNames(services, k) == Names(s);
    SortedSetFacts(DestSet(s));
  }

  lemma IngestClosed(b: Knobs, c: Codec, services: seq<ServiceSpec>, dests: map<string, Destination>)
    requires |services| > 0
    ensures PipelineClosed(Full(b, c, services, dests), IngestPipeline(c, services))
  {
    hide Full, Hashes, Prefixed, PrintedConds, GroupOf, Receivers, EntryFor;
    FullReceivers(b, c, services, dests);
    FullProcessors(b, c, services, dests);
    FullConnectors(b, c, services, dests);
    ReceiverKeys(c, services);
    SortedSetFacts(Prefixed(Hashes(c, services)));
    SomeReceiver(c, services);
    var names := SortedSet(Prefixed(Hashes(c, services)));
    assert |names| > 0;
  }

  lemma SomeReceiver(c: Codec, services: seq<ServiceSpec>)
    requires |services| > 0
    ensures Prefixed(Hashes(c, services)) != {}
  {
    hide SigHash;
    assert services[0] in services;
    assert SigHash(c, services[0]) in Hashes(c, services);
    assert FILELOG + SigHash(c, services[0]) in Prefixed(Hashes(c, services));
  }

  lemma FullClosed(b: Knobs, c: Codec, services: seq<ServiceSpec>, dests: map<string, Destination>)
    requires Keys(services) != {} && KeysSeparate(c, services)
    ensures Closed(Full(b, c, services, dests))
  {
    hide Full, Keys, PipelineClosed, EntryClosed, OutOfKey, IngestPipeline, Receivers, Hashes, KeysSeparate;
    var cfg := Full(b, c, services, dests);
    PipelinesKnown(b, c, services, dests);
    SomeService(services);
    forall n | n in cfg.pipelines ensures PipelineClosed(cfg, cfg.pipelines[n]) {
      if n == INGEST { IngestClosed(b, c, services, dests); }
      else { OutPipelineClosed(b, c, services, dests, cfg.pipelines[n]); }
    }
    forall n, x | n in cfg.connectors && x in cfg.connectors[n].table ensures EntryClosed(cfg, n, x) {
      EntriesClosed(b, c, services, dests, n, x);
    }
    ExtensionsOf(b, c, services, dests);
    FullReceivers(b, c, services, dests);
    forall n | n in cfg.receivers && cfg.receivers[n].FileLog? ensures cfg.receivers[n].storage == "file_storage" {
      StorageOf(c, services, n);
    }
  }

  lemma SomeService(services: seq<ServiceSpec>)
    requires Keys(services) != {}
    ensures |services| > 0
  {}

  lemma StorageOf(c: Codec, services: seq<ServiceSpec>, n: string)
    requires n in Receivers(c, services, Hashes(c, services))
    ensures Receivers(c, services, Hashes(c, services))[n].FileLog? ==>
      Receivers(c, services, Hashes(c, services))[n].storage == "file_storage"
  {
    hide Hashes, Members, Operators;
  }

  lemma ExtensionsOf(b: Knobs, c: Codec, services: seq<ServiceSpec>, dests: map<string, Destination>)
    ensures var cfg := Full(b, c, services, dests);
      cfg.serviceExtensions == ["file_storage", "health_check"]
      && cfg.extensions.Keys == {"file_storage", "health_check"}
  {
    hide OutPipelines, Receivers, Processors, Exporters, IngestPipeline, EntryFor, Keys, Hashes, ReferencedBy;
  }

  lemma KeyPipelineParts(b: Knobs, c: Codec, services: seq<ServiceSpec>, dests: map<string, Destination>, k: string)
    requires KeysSeparate(c, services) && k in Keys(services)
    ensures var cfg := Full(b, c, services, dests);
      && PipeName(c, k) in cfg.pipelines
      && cfg.pipelines[PipeName(c, k)].receivers == [ROUTING]
      && cfg.pipelines[PipeName(c, k)].processors == ["batch"]
  {
    hide Full, Keys, LastNames, KeysSeparate, PipeName, ExporterId;
    PipelineOfKey(b, c, services, dests, k);
  }

  lemma EntriesClosed(b: Knobs, c: Codec, services: seq<ServiceSpec>, dests: map<string, Destination>,
                      n: string, x: RouteEntry)
    requires KeysSeparate(c, services)
    requires n in Full(b, c, services, dests).connectors && x in Full(b, c, services, dests).connectors[n].table
    ensures EntryClosed(Full(b, c, services, dests), n, x)
  {
    hide Full, Keys, KeysSeparate, PipeName, PrintAtom;
    FullConnectors(b, c, services, dests);
    var keys := SortedSet(Keys(services));
    SortedSetMembers(Keys(services));
    var i :| 0 <= i < |keys| && EntryFor(c)(keys[i]) == x;
    assert x.pipelines == [PipeName(c, keys[i])];
    KeyPipelineParts(b, c, services, dests, keys[i]);
  }

  lemma FullLive(b: Knobs, c: Codec, services: seq<ServiceSpec>, dests: map<string, Destination>)
    requires Keys(services) != {} && KeysSeparate(c, services)
    ensures Live(Full(b, c, services, dests))
  {
    hide Full, Keys, Receives, Exports, Processes, KeysSeparate;
    var cfg := Full(b, c, services, dests);
    ExtensionsOf(b, c, services, dests);
    assert forall n :: n in cfg.extensions ==> n in {"file_storage", "health_check"};
    forall n | n in cfg.receivers ensures Receives(cfg, n) { ReceiverLive(b, c, services, dests, n); }
    forall n | n in cfg.processors ensures Processes(cfg, n) { ProcessorLive(b, c, services, dests, n); }
    forall n | n in cfg.exporters ensures Exports(cfg, n) { ExporterLive(b, c, services, dests, n); }
    forall n | n in cfg.connectors ensures Receives(cfg, n) && Exports(cfg, n) {
      ConnectorLive(b, c, services, dests, n);
    }
  }

  lemma ReceiverLive(b: Knobs, c: Codec, services: seq<ServiceSpec>, dests: map<string, Destination>, n: string)
    requires n in Full(b, c, services, dests).receivers
    ensures Receives(Full(b, c, services, dests), n)
  {
    hide Full, Hashes, Prefixed, Receivers, IngestPipeline;
    PipelinesShape(b, c, services, dests);
    FullReceivers(b, c, services, dests);
    ReceiverKeys(c, services);
    IngestReceivers(c, services);
    SortedSetFacts(Prefixed(Hashes(c, services)));
  }

  lemma ProcessorLive(b: Knobs, c: Codec, services: seq<ServiceSpec>, dests: map<string, Destination>, n: string)
    requires Keys(services) != {} && KeysSeparate(c, services) && n in Full(b, c, services, dests).processors
    ensures Processes(Full(b, c, services, dests), n)
  {
    hide Full, Keys, PipeName, Processors, IngestProcessors, IngestPipeline, KeysSeparate;
    var cfg := Full(b, c, services, dests);
    FullProcessors(b, c, services, dests);
    PipelinesShape(b, c, services, dests);
    var k :| k in Keys(services);
    KeyPipelineParts(b, c, services, dests, k);
    assert "batch" in cfg.pipelines[PipeName(c, k)].processors;
    IngestProcessorsOf(c, services);
    ProcessorNames(services, n);
    assert n == "batch" || n in cfg.pipelines[INGEST].processors;
  }

  lemma ProcessorNames(services: seq<ServiceSpec>, n: string)
    requires n in Processors(services)
    ensures n == "batch" || n in IngestProcessors(services)
  {
    hide PrintedConds, GroupOf;
  }

  lemma IngestProcessorsOf(c: Codec, services: seq<ServiceSpec>)
    ensures IngestPipeline(c, services).processors == IngestProcessors(services)
    ensures IngestPipeline(c, services).exporters == [ROUTING]
  {
    hide IngestProcessors, Hashes;
  }

  lemma ExporterLive(b: Knobs, c: Codec, services: seq<ServiceSpec>, dests: map<string, Destination>, x: string)
    requires KeysSeparate(c, services) && x in Full(b, c, services, dests).exporters
    ensures Exports(Full(b, c, services, dests), x)
  {
    hide Full, Keys, LastNames, SettingsOf, ExporterId, KeysSeparate, NameOf;
    FullExporters(b, c, services, dests);
    var n :| n in ReferencedBy(services) && ExporterId(dests)(n) == x;
    var k :| k in Keys(services) && n in LastNames(services, k);
    PipelineOfKey(b, c, services, dests, k);
    var ids := Map(LastNames(services, k), ExporterId(dests));
    var i :| 0 <= i < |ids| && LastNames(services, k)[i] == n;
    assert ids[i] in ids;
    SortPerm(ids, StrLe);
    SameElems(Sort(ids, StrLe), ids);
  }

  lemma ConnectorLive(b: Knobs, c: Codec, services: seq<ServiceSpec>, dests: map<string, Destination>, n: string)
    requires Keys(services) != {} && KeysSeparate(c, services) && n in Full(b, c, services, dests).connectors
    ensures Receives(Full(b, c, services, dests), n) && Exports(Full(b, c, services, dests), n)
  {
    hide Full, Keys, PipeName, EntryFor, KeysSeparate, IngestPipeline;
    var cfg := Full(b, c, services, dests);
    FullConnectors(b, c, services, dests);
    PipelinesShape(b, c, services, dests);
    IngestProcessorsOf(c, services);
    var k :| k in Keys(services);
    KeyPipelineParts(b, c, services, dests, k);
    assert ROUTING in cfg.pipelines[PipeName(c, k)].receivers;
    assert ROUTING in cfg.pipelines[INGEST].exporters;
  }

  /** In both its shapes the compiled configuration is closed and has no dead component. */
  lemma CompiledWired(b: Knobs, c: Codec, spec: Spec)
    requires KeysSeparate(c, Tailable(spec))
    ensures Closed(Compiled(b, c, spec)) && Live(Compiled(b, c, spec))
  {
    hide Closed, Live, Full, Inert, Keys, Tailable, KeysSeparate;
    InertWired(b);
    if Keys(Tailable(spec)) != {} {
      FullClosed(b, c, Tailable(spec), spec.destinations);
      FullLive(b, c, Tailable(spec), spec.destinations);
    }
  }

  // ----- grouping -----

  /** Grouping refines one receiver per service: no file is tailed by two receivers or twice by
      one, the files tailed are those of the services, and each service's file goes through the
      operator chain that service alone would have had. */
  lemma GroupingRefines(c: Codec, services: seq<ServiceSpec>)
    requires Discovery.DistinctIds(services) && SignaturesSeparate(c, services)
    ensures var rs := Receivers(c, services, Hashes(c, services));
      && (forall n :: n in rs ==> rs[n].FileLog? && NoDup(rs[n].includes))
      && (forall m, n, p :: m in rs && n in rs && p in rs[m].includes && p in rs[n].includes ==> m == n)
      && (forall s :: s in services ==>
            exists n :: n in rs && PathOf(s) in rs[n].includes && rs[n].operators == Operators(c, s))
      && (forall n, p :: n in rs && p in rs[n].includes ==> Tailed(services, p))
  {
    hide Receivers, Operators, PathOf, SigHash, SignaturesSeparate, Hashes;
    var rs := Receivers(c, services, Hashes(c, services));
    forall n | n in rs ensures rs[n].FileLog? && NoDup(rs[n].includes) && forall p :: p in rs[n].includes ==> Tailed(services, p) {
      IncludesOf(c, services, n);
    }
    forall m, n, p | m in rs && n in rs && p in rs[m].includes && p in rs[n].includes ensures m == n {
      var s := TailedBy(services, p);
      ReceiverOf(c, services, s, m);
      ReceiverOf(c, services, s, n);
    }
    forall s | s in services
      ensures exists n :: n in rs && PathOf(s) in rs[n].includes && rs[n].operators == Operators(c, s)
    {
      var n := ReceiverName(SigHash(c, s));
      ReceiverOf(c, services, s, n);
      assert n in rs;
    }
  }

  lemma IncludesOf(c: Codec, services: seq<ServiceSpec>, n: string)
    requires Discovery.DistinctIds(services) && n in Receivers(c, services, Hashes(c, services))
    ensures var r := Receivers(c, services, Hashes(c, services))[n];
      r.FileLog? && NoDup(r.includes) && forall p :: p in r.includes ==> Tailed(services, p)
  {
    hide SigHash, PathOf, Operators, Receivers, Hashes;
    ReceiverKeys(c, services);
    var h :| h in Hashes(c, services) && FILELOG + h == n;
    ReceiverAt(c, services, h);
    var members := Members(c, services, h);
    Discovery.FilterDistinct(services, HasHash(c, h));
    var includes := Map(members, PathOf);
    forall i | 0 <= i < |members| ensures members[i] in services && Tailed(services, includes[i]) {
      assert members[i] in members;
    }
    forall i, j | 0 <= i < j < |members| ensures includes[i] != includes[j] {
      if includes[i] == includes[j] { SamePath(services, members[i], members[j]); }
    }
  }

  // ----- the settings around the pipelines -----

  /** The fixed parts of the routed configuration: where checkpoints and health live, the memory limiter
      first, enrichment before filtering, filtering only where some service drops something, and one
      failing statement or condition never failing the rest. */
  ghost predicate Furnished(b: Knobs, services: seq<ServiceSpec>, cfg: CollectorConfig) {
    && "health_check" in cfg.extensions && cfg.extensions["health_check"] == HealthCheck(b.healthCheckEndpoint)
    && "file_storage" in cfg.extensions && cfg.extensions["file_storage"] == FileStorage(b.fileStorageDir, true)
    && "memory_limiter" in cfg.processors && cfg.processors["memory_limiter"] == MemoryLimiter("1s", 80, 25)
    && "logs/ingest" in cfg.pipelines
    && cfg.pipelines["logs/ingest"].processors ==
         ["memory_limiter", "transform/enrich"]
         + (if exists s :: s in services && DropsSomething(s) then ["filter/drop"] else [])
    && cfg.pipelines["logs/ingest"].exporters == ["routing"]
    && (forall n :: n in cfg.processors && cfg.processors[n].Transform? ==> cfg.processors[n].errorMode == "ignore")
    && (forall n :: n in cfg.processors && cfg.processors[n].DropWhen? ==> cfg.processors[n].errorMode == "ignore")
    && (forall n :: n in cfg.connectors ==> cfg.connectors[n].errorMode == "ignore")
  }

  predicate DropsSomething(s: ServiceSpec) {
    s.stream != StreamBoth || s.drop != [] || s.levelMin in {"trace", "debug", "info", "warn", "error", "fatal"}
  }

  lemma DropsSomethingExact(s: ServiceSpec)
    ensures DropsSomething(s) <==> PrintedConds(s) != []
  {
    assert |PrintedConds(s)| == |StreamConds(s)| + |FloorConds(s)| + |s.drop|;
  }

  lemma FilterPresent(services: seq<ServiceSpec>)
    ensures |FlatMap(services, PrintedConds)| > 0 <==> exists s :: s in services && DropsSomething(s)
  {
    hide PrintedConds, DropsSomething;
    FlatMapElems(services, PrintedConds);
    forall s { DropsSomethingExact(s); }
    var conds := FlatMap(services, PrintedConds);
    if |conds| > 0 { assert conds[0] in conds; }
    if s :| s in services && DropsSomething(s) { assert PrintedConds(s)[0] in PrintedConds(s) && PrintedConds(s)[0] in conds; }
  }

  lemma FullFurnished(b: Knobs, c: Codec, services: seq<ServiceSpec>, dests: map<string, Destination>)
    ensures Furnished(b, services, Full(b, c, services, dests))
  {
    hide Full, PrintedConds, GroupOf, EntryFor, IngestPipeline, DropsSomething, OutPipelines, Keys;
    PipelinesShape(b, c, services, dests);
    FullProcessors(b, c, services, dests);
    FullConnectors(b, c, services, dests);
    IngestProcessorsOf(c, services);
    FilterPresent(services);
    ExtensionsExact(b, c, services, dests);
    LimiterDefined(services);
  }

  lemma ExtensionsExact(b: Knobs, c: Codec, services: seq<ServiceSpec>, dests: map<string, Destination>)
    ensures var cfg := Full(b, c, services, dests);
      cfg.extensions == map["file_storage" := FileStorage(b.fileStorageDir, true), "health_check" := HealthCheck(b.healthCheckEndpoint)]
  {
    hide OutPipelines, Receivers, Processors, Exporters, IngestPipeline, EntryFor, Keys, Hashes, ReferencedBy;
  }

  lemma LimiterDefined(services: seq<ServiceSpec>)
    ensures "memory_limiter" in Processors(services) && Processors(services)["memory_limiter"] == MemoryLimiter("1s", 80, 25)
  {
    hide PrintedConds, GroupOf;
    assert DROP[0] == 'f' && ENRICH[0] == 't' && "memory_limiter"[0] == 'm' && "batch"[0] == 'b';
  }

  /** Both shapes are furnished: the inert one keeps the health check alone. */
  lemma CompiledFurnished(b: Knobs, c: Codec, spec: Spec)
    ensures var cfg, services := Compiled(b, c, spec), Tailable(spec);
      if forall s :: s in services ==> DestSet(s) == {} then
        cfg.extensions == map["health_check" := HealthCheck(b.healthCheckEndpoint)]
        && cfg.serviceExtensions == ["health_check"]
      else Furnished(b, services, cfg)
  {
    hide Full, Furnished, Tailable;
    var services := Tailable(spec);
    FullFurnished(b, c, services, spec.destinations);
    if s :| s in services && DestSet(s) != {} { assert Key(s) in Keys(services); }
  }
}
