/** Compilation preserves meaning: a collector running the compiled configuration exports, for
    every log file, exactly what the Spec says about that file. */
module Compiler {
  import opened Wrappers
  import opened Sorting
  import opened Strings
  import opened Backend
  import opened Ottl
  import opened Collector
  import opened Render
  import opened Meaning
  import Discovery

  // ----- hypotheses -----

  /** No two signatures in play share their receiver digest. */
  ghost predicate SignaturesSeparate(c: Codec, services: seq<ServiceSpec>) {
    forall s, t :: s in services && t in services && SigHash(c, s) == SigHash(c, t)
      ==> SignatureOf(s) == SignatureOf(t)
  }

  /** No two routing keys in play share their pipeline digest. */
  ghost predicate KeysSeparate(c: Codec, services: seq<ServiceSpec>) {
    forall j, k :: j in Keys(services) && k in Keys(services) && c.short(j) == c.short(k) ==> j == k
  }

  /** Equal routing keys mean equal destination sets; comma-free names suffice. */
  ghost predicate KeysFaithful(services: seq<ServiceSpec>) {
    forall s, t :: s in services && t in services && Routed(s) && Routed(t) && Key(s) == Key(t)
      ==> DestSet(s) == DestSet(t)
  }

  ghost predicate Sound(c: Codec, spec: Spec) {
    var services := Tailable(spec);
    && Discovery.DistinctIds(services)
    && SignaturesSeparate(c, services)
    && KeysSeparate(c, services)
    && KeysFaithful(services)
  }

  lemma CommaFreeIsFaithful(services: seq<ServiceSpec>)
    requires forall s :: s in services ==> CommaFree(s)
    ensures KeysFaithful(services)
  {
    forall s, t | s in services && t in services && Routed(s) && Routed(t) && Key(s) == Key(t)
      ensures DestSet(s) == DestSet(t)
    {
      KeyInjective(s, t);
    }
  }

  // ----- the ingest pipeline -----

  ghost predicate Claimed(services: seq<ServiceSpec>, r: Record) {
    exists s :: s in services && Claims(s, r)
  }

  ghost function Claimant(services: seq<ServiceSpec>, r: Record): ServiceSpec
    requires Claimed(services, r)
  {
    var s :| s in services && Claims(s, r); s
  }

  /** A record as it leaves the ingest processors, or None when it is dropped there. */
  ghost function Ingested(e: Engine, services: seq<ServiceSpec>, r: Record): Option<Record> {
    if !Claimed(services, r) then Some(r)
    else
      var s := Claimant(services, r);
      if Kept(e, s, r) then Some(r.(resource := r.resource + Stamped(s))) else None
  }

  lemma ClaimantUnique(services: seq<ServiceSpec>, s: ServiceSpec, r: Record)
    requires Discovery.DistinctIds(services) && s in services && Claims(s, r)
    ensures Claimed(services, r) && Claimant(services, r) == s
  {
    var t := Claimant(services, r);
    var i :| 0 <= i < |services| && services[i] == s;
    var j :| 0 <= j < |services| && services[j] == t;
    assert s.containerID == t.containerID;
  }

  lemma KeptIgnoresResource(e: Engine, services: seq<ServiceSpec>, r: Record, resource: map<string, string>)
    ensures var r' := r.(resource := resource);
      forall s :: (Claims(s, r') <==> Claims(s, r)) && (Kept(e, s, r') <==> Kept(e, s, r))
  {}

  /** Enrich, then filter: the processors of the ingest pipeline, run in order. */
  lemma IngestMeans(e: Engine, cfg: CollectorConfig, services: seq<ServiceSpec>, r: Record)
    requires Discovery.DistinctIds(services) && cfg.processors == Processors(services)
    ensures RunProcessors(e, cfg, IngestProcessors(services), r) == Ingested(e, services, r)
  {
    hide PrintedConds, GroupOf, LogCondition, Kept, Claims, Stamped;
    var r1 := RunGroups(e, Map(services, GroupOf), r);
    assert r1 == if Claimed(services, r) then r.(resource := r.resource + Stamped(Claimant(services, r))) else r by {
      if Claimed(services, r) {
        GroupsMean(e, services, Claimant(services, r), r);
      } else {
        GroupsSilent(e, services, r);
      }
    }
    KeptIgnoresResource(e, services, r, r1.resource);
    FilterMeans(e, services, r1);
    ProcessorsRun(e, cfg, services, r, r1);
    if Claimed(services, r) {
      var t := Claimant(services, r);
      forall s | s in services && Claims(s, r) ensures s == t { ClaimantUnique(services, s, r); }
    }
  }

  lemma ProcessorsRun(e: Engine, cfg: CollectorConfig, services: seq<ServiceSpec>, r: Record, r1: Record)
    requires cfg.processors == Processors(services) && r1 == RunGroups(e, Map(services, GroupOf), r)
    ensures RunProcessors(e, cfg, IngestProcessors(services), r) ==
      if exists t :: t in FlatMap(services, PrintedConds) && LogCondition(e, t, r1) then None else Some(r1)
  {
    hide PrintedConds, GroupOf, LogCondition, RunGroups;
    var conds := FlatMap(services, PrintedConds);
    var names := IngestProcessors(services);
    var last := if |conds| > 0 then [DROP] else [];
    assert names[1..] == [ENRICH] + last && ([ENRICH] + last)[1..] == last;
    assert RunProcessors(e, cfg, names, r) == RunProcessors(e, cfg, [ENRICH] + last, r);
    assert RunProcessors(e, cfg, [ENRICH] + last, r) == RunProcessors(e, cfg, last, r1);
    if |conds| > 0 {
      assert cfg.processors[DROP] == DropWhen("ignore", conds);
      DropRun(e, cfg, conds, r1);
    } else {
      assert conds == [];
    }
  }

  lemma DropRun(e: Engine, cfg: CollectorConfig, conds: seq<string>, r: Record)
    requires DROP in cfg.processors && cfg.processors[DROP] == DropWhen("ignore", conds)
    ensures RunProcessors(e, cfg, [DROP], r) ==
            if exists t :: t in conds && LogCondition(e, t, r) then None else Some(r)
  {
    hide LogCondition;
    assert [DROP][1..] == [];
  }

  // ----- the routing table -----

  lemma {:induction false} LastNamesOwner(services: seq<ServiceSpec>, k: string)
    requires k in Keys(services)
    ensures exists s :: s in services && Routed(s) && Key(s) == k && LastNames(services, k) == Names(s)
  {
    hide Routed, Key, Names;
    var n := |services| - 1;
    var s := services[n];
    assert services == services[..n] + [s];
    if !(Routed(s) && Key(s) == k) {
      KeysSnoc(services[..n], s);
      LastNamesOwner(services[..n], k);
    }
  }

  /** A key whose pipeline name no other key shares keeps the pipeline built for it. */
  lemma {:induction false} OutPipelineAt(c: Codec, services: seq<ServiceSpec>, dests: map<string, Destination>,
                                         keys: seq<string>, k: string)
    requires k in keys && forall j :: j in keys && PipeName(c, j) == PipeName(c, k) ==> j == k
    ensures PipeName(c, k) in OutPipelines(c, services, dests, keys)
    ensures OutPipelines(c, services, dests, keys)[PipeName(c, k)] == OutPipeline(LastNames(services, k), dests)
  {
    hide PipeName, OutPipeline, LastNames;
    var n := |keys| - 1;
    assert keys == keys[..n] + [keys[n]];
    if keys[n] != k {
      OutPipelineAt(c, services, dests, keys[..n], k);
    }
  }

  /** The pipelines fed by the routing connector are named and shaped alike. */
  lemma {:induction false} OutPipelinesShape(c: Codec, services: seq<ServiceSpec>, dests: map<string, Destination>,
                                             keys: seq<string>)
    ensures forall pn :: pn in OutPipelines(c, services, dests, keys) ==>
      OUT <= pn && OutPipelines(c, services, dests, keys)[pn].receivers == [ROUTING]
  {
    hide LastNames;
    if |keys| > 0 {
      OutPipelinesShape(c, services, dests, keys[..|keys| - 1]);
    }
  }

  lemma PipeNameInjective(c: Codec, services: seq<ServiceSpec>, j: string, k: string)
    requires KeysSeparate(c, services) && j in Keys(services) && k in Keys(services)
    requires PipeName(c, j) == PipeName(c, k)
    ensures j == k
  {
    assert PipeName(c, j)[|OUT|..] == c.short(j) && PipeName(c, k)[|OUT|..] == c.short(k);
  }

  /** Every key's pipeline is its own, and none of them is the ingest pipeline. */
  lemma PipelineOfKey(b: Knobs, c: Codec, services: seq<ServiceSpec>, dests: map<string, Destination>, k: string)
    requires KeysSeparate(c, services) && k in Keys(services)
    ensures var cfg := Full(b, c, services, dests);
      && PipeName(c, k) in cfg.pipelines
      && cfg.pipelines[PipeName(c, k)] == OutPipeline(LastNames(services, k), dests)
  {
    hide OutPipeline, LastNames, Keys, OutPipelines, Receivers, Processors, Exporters, IngestPipeline, EntryFor;
    var keys := SortedSet(Keys(services));
    assert forall x :: x in keys <==> x in Keys(services) by { SortedSetFacts(Keys(services)); }
    forall j | j in keys && PipeName(c, j) == PipeName(c, k) ensures j == k {
      PipeNameInjective(c, services, j, k);
    }
    OutPipelineAt(c, services, dests, keys, k);
    assert PipeName(c, k)[5] == 'o' && INGEST[5] == 'i';
  }

  function DeliverTo(r: Record): string -> Delivery { (x: string) => Delivery(x, r) }

  lemma {:induction false} FinalAll(cfg: CollectorConfig, r: Record, xs: seq<string>)
    requires forall x :: x in xs ==> x in cfg.exporters
    ensures FlatMap(xs, FinalExporter(cfg, r)) == Map(xs, DeliverTo(r))
  {
    if |xs| > 0 {
      assert xs[0] in xs;
      FinalAll(cfg, r, xs[1..]);
      assert Map(xs, DeliverTo(r))[1..] == Map(xs[1..], DeliverTo(r));
      assert Map(xs, DeliverTo(r)) == [Map(xs, DeliverTo(r))[0]] + Map(xs, DeliverTo(r))[1..];
    }
  }

  /** One delivery per destination, each once. */
  ghost function Deliveries(names: set<string>, dests: map<string, Destination>, r: Record): set<Delivery> {
    set n | n in names :: Delivery(ExporterId(dests)(n), r)
  }

  lemma ExporterListMeans(names: seq<string>, dests: map<string, Destination>, r: Record)
    requires NoDup(names) && AllExportable(Elems(names), dests)
    ensures multiset(Map(Sort(Map(names, ExporterId(dests)), StrLe), DeliverTo(r)))
            == multiset(Deliveries(Elems(names), dests, r))
  {
    hide ExporterId, Exportable;
    var f := ExporterId(dests);
    var ids := Map(names, f);
    forall i, j | 0 <= i < j < |names| ensures ids[i] != ids[j] {
      assert names[i] in Elems(names) && names[j] in Elems(names);
      if ids[i] == ids[j] { ExporterIdInjective(names[i], names[j], dests); }
    }
    var sorted := Sort(ids, StrLe);
    SortPerm(ids, StrLe);
    PermKeepsNoDup(ids, sorted);
    SameElems(sorted, ids);
    var ds := Map(sorted, DeliverTo(r));
    assert NoDup(ds);
    NoDupMultiset(ds);
    DeliveredOnce(names, sorted, dests, r);
  }

  lemma DeliveredOnce(names: seq<string>, sorted: seq<string>, dests: map<string, Destination>, r: Record)
    requires forall x :: x in sorted <==> x in Map(names, ExporterId(dests))
    ensures Elems(Map(sorted, DeliverTo(r))) == Deliveries(Elems(names), dests, r)
  {
    hide ExporterId;
    var f, ds := ExporterId(dests), Map(sorted, DeliverTo(r));
    forall d | d in Elems(ds) ensures d in Deliveries(Elems(names), dests, r) {
      var i :| 0 <= i < |ds| && ds[i] == d;
      assert sorted[i] in sorted;
      var j :| 0 <= j < |names| && f(names[j]) == sorted[i];
      assert names[j] in Elems(names);
    }
    forall d | d in Deliveries(Elems(names), dests, r) ensures d in Elems(ds) {
      var n :| n in Elems(names) && d == Delivery(f(n), r);
      var j :| 0 <= j < |names| && names[j] == n;
      assert Map(names, f)[j] in sorted;
      var i :| 0 <= i < |sorted| && sorted[i] == f(n);
      assert ds[i] == d;
    }
  }

  lemma {:induction false} FlatMapMapOne<A(!new), B, D>(xs: seq<A>, f: A -> B, g: B -> seq<D>, x: A)
    requires NoDup(xs) && x in xs
    requires forall y :: y in xs && y != x ==> g(f(y)) == []
    ensures FlatMap(Map(xs, f), g) == g(f(x))
  {
    assert xs == [xs[0]] + xs[1..];
    assert Map(xs, f)[1..] == Map(xs[1..], f);
    if xs[0] == x {
      forall b | b in Map(xs[1..], f) ensures g(b) == [] {
        var i :| 0 <= i < |xs[1..]| && f(xs[1..][i]) == b;
        assert xs[i + 1] in xs;
      }
      FlatMapNone(Map(xs[1..], f), g);
    } else {
      FlatMapMapOne(xs[1..], f, g, x);
    }
  }

  lemma EntryMeans(e: Engine, c: Codec, k: string, r: Record)
    ensures ResourceCondition(e, EntryFor(c)(k).condition, r) <==> Has(r.resource, ROUTING_KEY, k)
  {
    hide PrintAtom, ReadCondition;
    var a := AttrIs(ROUTING_KEY, k);
    ReadConditionPrinted([a]);
    assert PrintCondition([a]) == PrintAtom(a);
    assert a in [a];
  }

  lemma ExporterDefined(services: seq<ServiceSpec>, dests: map<string, Destination>, k: string, x: string)
    requires k in Keys(services) && x in Sort(Map(LastNames(services, k), ExporterId(dests)), StrLe)
    ensures x in Exporters(ReferencedBy(services), dests)
  {
    hide ExporterId, SettingsOf, NameOf, LastNames, Keys;
    var names := LastNames(services, k);
    SortPerm(Map(names, ExporterId(dests)), StrLe);
    SameElems(Sort(Map(names, ExporterId(dests)), StrLe), Map(names, ExporterId(dests)));
    var i :| 0 <= i < |names| && ExporterId(dests)(names[i]) == x;
    assert names[i] in names;
    assert names[i] in ReferencedBy(services);
  }

  /** A key's out pipeline exports to that key's destinations. */
  lemma OutMeans(e: Engine, b: Knobs, c: Codec, services: seq<ServiceSpec>, dests: map<string, Destination>,
                 k: string, r: Record)
    requires KeysSeparate(c, services) && k in Keys(services)
    ensures OutOf(e, Full(b, c, services, dests), ROUTING, r)(PipeName(c, k))
            == Map(Sort(Map(LastNames(services, k), ExporterId(dests)), StrLe), DeliverTo(r))
  {
    hide LastNames, Keys, PipeName, Full, KeysSeparate, FinalExporter, DeliverTo, ReferencedBy, Exporters, ExporterId;
    var cfg := Full(b, c, services, dests);
    PipelineOfKey(b, c, services, dests, k);
    BatchRuns(e, b, c, services, dests, r);
    var xs := Sort(Map(LastNames(services, k), ExporterId(dests)), StrLe);
    forall x | x in xs ensures x in cfg.exporters {
      ExporterDefined(services, dests, k, x);
      FullExporters(b, c, services, dests);
    }
    FinalAll(cfg, r, xs);
  }

  lemma BatchRuns(e: Engine, b: Knobs, c: Codec, services: seq<ServiceSpec>, dests: map<string, Destination>, r: Record)
    ensures RunProcessors(e, Full(b, c, services, dests), ["batch"], r) == Some(r)
  {
    hide Full, Processors;
    FullProcessors(b, c, services, dests);
    BatchDefined(services);
    assert ["batch"][1..] == [];
  }

  lemma BatchDefined(services: seq<ServiceSpec>)
    ensures "batch" in Processors(services) && Processors(services)["batch"] == Batch
  {
    hide PrintedConds, GroupOf;
    assert DROP[0] == 'f' && ENRICH[0] == 't' && "batch"[0] == 'b';
  }

  lemma FullReceivers(b: Knobs, c: Codec, services: seq<ServiceSpec>, dests: map<string, Destination>)
    ensures Full(b, c, services, dests).receivers == Receivers(c, services, Hashes(c, services))
  {
    hide OutPipelines, Receivers, Processors, Exporters, IngestPipeline, EntryFor, Keys, Hashes, ReferencedBy;
  }

  lemma FullProcessors(b: Knobs, c: Codec, services: seq<ServiceSpec>, dests: map<string, Destination>)
    ensures Full(b, c, services, dests).processors == Processors(services)
  {
    hide OutPipelines, Receivers, Processors, Exporters, IngestPipeline, EntryFor, Keys, Hashes, ReferencedBy;
  }

  lemma FullConnectors(b: Knobs, c: Codec, services: seq<ServiceSpec>, dests: map<string, Destination>)
    ensures Full(b, c, services, dests).connectors
            == map[ROUTING := Routing("ignore", Map(SortedSet(Keys(services)), EntryFor(c)))]
  {
    hide OutPipelines, Receivers, Processors, Exporters, IngestPipeline, EntryFor, Keys, Hashes, ReferencedBy;
  }

  lemma FullExporters(b: Knobs, c: Codec, services: seq<ServiceSpec>, dests: map<string, Destination>)
    ensures Full(b, c, services, dests).exporters == Exporters(ReferencedBy(services), dests)
  {
    hide OutPipelines, Receivers, Processors, Exporters, IngestPipeline, EntryFor, Keys, Hashes, ReferencedBy;
  }

  lemma FullPipelines(b: Knobs, c: Codec, services: seq<ServiceSpec>, dests: map<string, Destination>)
    ensures Full(b, c, services, dests).pipelines ==
            map[INGEST := IngestPipeline(c, services)] + OutPipelines(c, services, dests, SortedSet(Keys(services)))
  {
    hide OutPipelines, Receivers, Processors, Exporters, IngestPipeline, EntryFor, Keys, Hashes, ReferencedBy;
  }

  /** The destinations a record's resource attributes select. */
  ghost function Targets(services: seq<ServiceSpec>, resource: map<string, string>): set<string> {
    set s, n | s in services && Routed(s) && Has(resource, ROUTING_KEY, Key(s)) && n in DestSet(s) :: n
  }

  lemma TargetsOfKey(services: seq<ServiceSpec>, resource: map<string, string>, s: ServiceSpec)
    requires KeysFaithful(services) && s in services && Routed(s) && Has(resource, ROUTING_KEY, Key(s))
    ensures Targets(services, resource) == DestSet(s)
  {
    hide Key, Routed;
    forall n ensures n in Targets(services, resource) <==> n in DestSet(s) {
      if n in Targets(services, resource) {
        var t :| t in services && Routed(t) && Has(resource, ROUTING_KEY, Key(t)) && n in DestSet(t);
        assert Key(t) == Key(s);
      }
    }
  }

  ghost function Fanout(e: Engine, b: Knobs, c: Codec, services: seq<ServiceSpec>, dests: map<string, Destination>,
                        r: Record): seq<Delivery>
  {
    var cfg := Full(b, c, services, dests);
    FlatMap(cfg.connectors[ROUTING].table, ViaEntry(e, cfg, ROUTING, r))
  }

  /** A record carrying a key in play leaves through that key's pipeline and no other. */
  lemma FanoutAt(e: Engine, b: Knobs, c: Codec, services: seq<ServiceSpec>, dests: map<string, Destination>,
                 k: string, r: Record)
    requires KeysSeparate(c, services) && k in Keys(services) && Has(r.resource, ROUTING_KEY, k)
    ensures Fanout(e, b, c, services, dests, r)
            == Map(Sort(Map(LastNames(services, k), ExporterId(dests)), StrLe), DeliverTo(r))
  {
    hide Full, OutOf, PipeName, KeysSeparate, DeliverTo, LastNames, ExporterId, EntryFor, ViaEntry, Has, Keys;
    var cfg := Full(b, c, services, dests);
    var keys := SortedSet(Keys(services));
    FullConnectors(b, c, services, dests);
    assert NoDup(keys) && forall x :: x in keys <==> x in Keys(services) by { SortedSetFacts(Keys(services)); }
    forall y | y in keys && y != k ensures ViaEntry(e, cfg, ROUTING, r)(EntryFor(c)(y)) == [] {
      HasOne(r.resource, k, y);
      ViaKey(e, cfg, c, y, r);
    }
    ViaKey(e, cfg, c, k, r);
    FlatMapMapOne(keys, EntryFor(c), ViaEntry(e, cfg, ROUTING, r), k);
    OutMeans(e, b, c, services, dests, k, r);
  }

  /** A record carrying no key in play is dropped at the connector. */
  lemma FanoutNone(e: Engine, b: Knobs, c: Codec, services: seq<ServiceSpec>, dests: map<string, Destination>, r: Record)
    requires forall k :: k in Keys(services) ==> !Has(r.resource, ROUTING_KEY, k)
    ensures Fanout(e, b, c, services, dests, r) == []
  {
    hide Full, OutOf, PipeName, EntryFor, ViaEntry, Has, Keys;
    var cfg := Full(b, c, services, dests);
    var keys := SortedSet(Keys(services));
    FullConnectors(b, c, services, dests);
    SortedSetMembers(Keys(services));
    var f, g := EntryFor(c), ViaEntry(e, cfg, ROUTING, r);
    forall x | x in Map(keys, f) ensures g(x) == [] {
      var i :| 0 <= i < |keys| && f(keys[i]) == x;
      ViaKey(e, cfg, c, keys[i], r);
    }
    FlatMapNone(Map(keys, f), g);
  }

  /** The routing connector hands a record to its target destinations, each exactly once. */
  lemma RouteMeans(e: Engine, b: Knobs, c: Codec, services: seq<ServiceSpec>, dests: map<string, Destination>, r: Record)
    requires KeysSeparate(c, services) && KeysFaithful(services)
    requires AllExportable(ReferencedBy(services), dests)
    ensures multiset(Fanout(e, b, c, services, dests, r))
            == multiset(Deliveries(Targets(services, r.resource), dests, r))
  {
    hide Fanout, KeysSeparate, KeysFaithful, LastNames, ExporterId, Exportable, Deliveries, Targets, Has, Keys;
    if k :| k in Keys(services) && Has(r.resource, ROUTING_KEY, k) {
      FanoutAt(e, b, c, services, dests, k, r);
      KeyDeliveries(services, dests, k, r);
    } else {
      FanoutNone(e, b, c, services, dests, r);
      NoTargets(services, r.resource);
      NoDeliveries(dests, r);
    }
  }

  lemma HasOne(m: map<string, string>, k: string, y: string)
    requires Has(m, ROUTING_KEY, k) && y != k
    ensures !Has(m, ROUTING_KEY, y)
  {}

  lemma ViaKey(e: Engine, cfg: CollectorConfig, c: Codec, k: string, r: Record)
    ensures ViaEntry(e, cfg, ROUTING, r)(EntryFor(c)(k))
            == if Has(r.resource, ROUTING_KEY, k) then OutOf(e, cfg, ROUTING, r)(PipeName(c, k)) else []
  {
    hide OutOf, PipeName, ResourceCondition, Has, PrintAtom;
    EntryMeans(e, c, k, r);
    FlatMapSingle(PipeName(c, k), OutOf(e, cfg, ROUTING, r));
  }

  lemma NoTargets(services: seq<ServiceSpec>, resource: map<string, string>)
    requires forall k :: k in Keys(services) ==> !Has(resource, ROUTING_KEY, k)
    ensures Targets(services, resource) == {}
  {
    hide Key, Routed, Has;
  }

  lemma KeyDeliveries(services: seq<ServiceSpec>, dests: map<string, Destination>, k: string, r: Record)
    requires KeysFaithful(services) && AllExportable(ReferencedBy(services), dests)
    requires k in Keys(services) && Has(r.resource, ROUTING_KEY, k)
    ensures multiset(Map(Sort(Map(LastNames(services, k), ExporterId(dests)), StrLe), DeliverTo(r)))
            == multiset(Deliveries(Targets(services, r.resource), dests, r))
  {
    hide Key, Routed, Names, KeysFaithful, DeliverTo, ExporterId, Exportable, Deliveries, Targets, Has, LastNames, Keys;
    LastNamesOwner(services, k);
    var s :| s in services && Routed(s) && Key(s) == k && LastNames(services, k) == Names(s);
    TargetsOfKey(services, r.resource, s);
    NamesOf(s);
    SortedSetFacts(DestSet(s));
    assert Elems(Names(s)) == DestSet(s);
    forall n | n in DestSet(s) ensures Exportable(n, dests) { assert n in ReferencedBy(services); }
    ExporterListMeans(Names(s), dests, r);
  }

  lemma DeliveriesInjective(ms: set<string>, ns: set<string>, dests: map<string, Destination>, r: Record)
    requires AllExportable(ms + ns, dests)
    requires multiset(Deliveries(ms, dests, r)) == multiset(Deliveries(ns, dests, r))
    ensures ms == ns
  {
    hide ExporterId, Exportable;
    var f := ExporterId(dests);
    assert Deliveries(ms, dests, r) == Deliveries(ns, dests, r) by {
      forall d ensures d in Deliveries(ms, dests, r) <==> d in Deliveries(ns, dests, r) {
        assert d in multiset(Deliveries(ms, dests, r)) <==> d in multiset(Deliveries(ns, dests, r));
      }
    }
    forall m | m in ms ensures m in ns {
      assert Delivery(f(m), r) in Deliveries(ns, dests, r);
      var n :| n in ns && Delivery(f(n), r) == Delivery(f(m), r);
      ExporterIdInjective(m, n, dests);
    }
    forall n | n in ns ensures n in ms {
      assert Delivery(f(n), r) in Deliveries(ms, dests, r);
      var m :| m in ms && Delivery(f(m), r) == Delivery(f(n), r);
      ExporterIdInjective(m, n, dests);
    }
  }

  /** Routing serves a service when any record stamped with its key reaches its destinations. */
  ghost predicate Served(e: Engine, b: Knobs, c: Codec, services: seq<ServiceSpec>, dests: map<string, Destination>,
                         s: ServiceSpec)
  {
    forall r: Record :: Has(r.resource, ROUTING_KEY, Key(s)) ==>
      multiset(Fanout(e, b, c, services, dests, r)) == multiset(Deliveries(DestSet(s), dests, r))
  }

  ghost predicate AllServed(e: Engine, b: Knobs, c: Codec, services: seq<ServiceSpec>, dests: map<string, Destination>) {
    forall s :: s in services && Routed(s) ==> Served(e, b, c, services, dests, s)
  }

  /** Exactly when routing serves every service: when equal keys mean equal destination sets. */
  lemma ServedIffFaithful(e: Engine, b: Knobs, c: Codec, services: seq<ServiceSpec>, dests: map<string, Destination>)
    requires KeysSeparate(c, services) && AllExportable(ReferencedBy(services), dests)
    requires forall s :: s in services ==> AllExportable(DestSet(s), dests)
    ensures AllServed(e, b, c, services, dests) <==> KeysFaithful(services)
  {
    hide Fanout, Exportable, Deliveries, KeysSeparate, Key, Routed, Targets;
    if AllServed(e, b, c, services, dests) {
      forall s, t | s in services && t in services && Routed(s) && Routed(t) && Key(s) == Key(t)
        ensures DestSet(s) == DestSet(t)
      {
        var r := Record(map[], map[ROUTING_KEY := Key(s)], "", 0);
        assert Served(e, b, c, services, dests, s) && Served(e, b, c, services, dests, t);
        assert Has(r.resource, ROUTING_KEY, Key(s));
        DeliveriesInjective(DestSet(s), DestSet(t), dests, r);
      }
    }
    if KeysFaithful(services) {
      forall s, r: Record | s in services && Routed(s) && Has(r.resource, ROUTING_KEY, Key(s))
        ensures multiset(Fanout(e, b, c, services, dests, r)) == multiset(Deliveries(DestSet(s), dests, r))
      {
        RouteMeans(e, b, c, services, dests, r);
        TargetsOfKey(services, r.resource, s);
      }
    }
  }

  lemma NamesOf(s: ServiceSpec)
    ensures Names(s) == SortedSet(DestSet(s))
  {}

  lemma NoDeliveries(dests: map<string, Destination>, r: Record)
    ensures Deliveries({}, dests, r) == {}
  {}

  lemma ExportersHoldSlash(names: set<string>, dests: map<string, Destination>)
    ensures ROUTING !in Exporters(names, dests)
  {
    hide ExporterTypeFor, DestKind, SettingsOf, NameOf;
    forall x | x in Ids(names, dests) ensures x != ROUTING {
      var n :| n in names && ExporterId(dests)(n) == x;
      assert x[|ExporterTypeFor(DestKind(n, dests))|] == '/';
      assert '/' in x && '/' !in ROUTING;
    }
  }

  // ----- from file to exporters -----

  /** Everything the Spec says about a record coming out of a service's operator chain. */
  ghost function Expected(e: Engine, spec: Spec, r: Record): set<Delivery> {
    var services := Tailable(spec);
    match Ingested(e, services, r)
    case None => {}
    case Some(r') => Deliveries(Targets(services, r'.resource), spec.destinations, r')
  }

  lemma IngestPipelineMeans(e: Engine, b: Knobs, c: Codec, spec: Spec, r: Record)
    requires Sound(c, spec) && Renderable(spec)
    ensures var services := Tailable(spec);
      multiset(RunPipeline(e, Full(b, c, services, spec.destinations), IngestPipeline(c, services), r))
      == multiset(Expected(e, spec, r))
  {
    hide Tailable, Keys, Processors, IngestProcessors, OutPipelines, Receivers, Exporters, EntryFor, Hashes,
         ViaEntry, Deliveries, Targets, Ingested, Exportable;
    var services, dests := Tailable(spec), spec.destinations;
    var cfg := Full(b, c, services, dests);
    IngestMeans(e, cfg, services, r);
    match Ingested(e, services, r)
    case None =>
    case Some(r') =>
      RouteMeans(e, b, c, services, dests, r');
      ExportersHoldSlash(ReferencedBy(services), dests);
      assert [ROUTING][1..] == [];
      assert FlatMap([ROUTING], ToExporter(e, cfg, r')) == Fanout(e, b, c, services, dests, r');
  }

  lemma PathInjective(id1: string, id2: string)
    requires DockerLogPath(id1) == DockerLogPath(id2)
    ensures id1 == id2
  {
    assert |id1| == |id2|;
    assert DockerLogPath(id1)[|CONTAINERS|..|CONTAINERS| + |id1|] == id1;
    assert DockerLogPath(id2)[|CONTAINERS|..|CONTAINERS| + |id2|] == id2;
  }

  /** Every receiver tails the files of one group and runs its representative's operators. */
  lemma ReceiverShape(c: Codec, services: seq<ServiceSpec>, n: string) returns (h: string)
    requires n in Receivers(c, services, Hashes(c, services))
    ensures h in Hashes(c, services) && n == ReceiverName(h) && |Members(c, services, h)| > 0
    ensures Receivers(c, services, Hashes(c, services))[n] == ReceiverFor(c, Members(c, services, h))
  {
    hide Receivers, Hashes, Members;
    ReceiverKeys(c, services);
    h :| h in Hashes(c, services) && FILELOG + h == n;
    ReceiverAt(c, services, h);
  }

  /** Exactly one receiver tails a service's file, and its operators are that service's own. */
  lemma ReceiverOf(c: Codec, services: seq<ServiceSpec>, s: ServiceSpec, n: string)
    requires Discovery.DistinctIds(services) && SignaturesSeparate(c, services) && s in services
    ensures var rs := Receivers(c, services, Hashes(c, services));
      && (n in rs ==> rs[n].FileLog? && rs[n].includeFilePath)
      && (n in rs && PathOf(s) in rs[n].includes <==> n == ReceiverName(SigHash(c, s)))
      && (n == ReceiverName(SigHash(c, s)) ==> rs[n].operators == Operators(c, s))
  {
    hide SigHash, Operators, PathOf, Receivers;
    OwnReceiver(c, services, s);
    if n in Receivers(c, services, Hashes(c, services)) {
      var h := ReceiverShape(c, services, n);
      var members := Members(c, services, h);
      if PathOf(s) in Map(members, PathOf) {
        var j :| 0 <= j < |members| && PathOf(members[j]) == PathOf(s);
        assert members[j] in members;
        SamePath(services, s, members[j]);
      }
    }
  }

  lemma OwnReceiver(c: Codec, services: seq<ServiceSpec>, s: ServiceSpec)
    requires SignaturesSeparate(c, services) && s in services
    ensures var rs, n := Receivers(c, services, Hashes(c, services)), ReceiverName(SigHash(c, s));
      n in rs && rs[n].FileLog? && PathOf(s) in rs[n].includes && rs[n].operators == Operators(c, s)
  {
    hide SigHash, Operators, PathOf, Receivers;
    var h := SigHash(c, s);
    assert h in Hashes(c, services);
    ReceiverAt(c, services, h);
    var members := Members(c, services, h);
    assert s in members && members[0] in members;
    var i :| 0 <= i < |members| && members[i] == s;
    assert Map(members, PathOf)[i] == PathOf(s);
    OperatorsFromSignature(c, members[0], s);
  }

  lemma SamePath(services: seq<ServiceSpec>, s: ServiceSpec, t: ServiceSpec)
    requires Discovery.DistinctIds(services) && s in services && t in services && PathOf(s) == PathOf(t)
    ensures s == t
  {
    hide DockerLogPath;
    PathInjective(s.containerID, t.containerID);
    var i :| 0 <= i < |services| && services[i] == s;
    var j :| 0 <= j < |services| && services[j] == t;
  }

  lemma ReceiverAt(c: Codec, services: seq<ServiceSpec>, h: string)
    requires h in Hashes(c, services)
    ensures ReceiverName(h) in Receivers(c, services, Hashes(c, services))
    ensures |Members(c, services, h)| > 0
    ensures Receivers(c, services, Hashes(c, services))[ReceiverName(h)] == ReceiverFor(c, Members(c, services, h))
  {
    hide Members, ReceiverFor, SigHash;
    MembersExist(c, services, h);
    assert (FILELOG + h)[|FILELOG|..] == h;
  }

  ghost predicate Tailed(services: seq<ServiceSpec>, path: string) {
    exists s :: s in services && PathOf(s) == path
  }

  /** Only the ingest pipeline reads files; the out pipelines are fed by the connector. */
  lemma OnlyIngestReads(e: Engine, b: Knobs, c: Codec, services: seq<ServiceSpec>, dests: map<string, Destination>, log: Log)
    ensures var cfg := Full(b, c, services, dests);
      Deliver(e, cfg, log)
      == FlatMap(SortedSet(Prefixed(Hashes(c, services))), FromReceiver(e, cfg, log, IngestPipeline(c, services)))
  {
    hide IngestPipeline, OutPipelines, Full, Keys, RunPipeline, FromReceiver, Prefixed, Hashes;
    var cfg := Full(b, c, services, dests);
    var keys := SortedSet(cfg.pipelines.Keys);
    var f := FromPipeline(e, cfg, log);
    assert NoDup(keys) && forall pn :: pn in keys <==> pn in cfg.pipelines by { SortedSetFacts(cfg.pipelines.Keys); }
    PipelinesShape(b, c, services, dests);
    forall pn | pn in keys && pn != INGEST ensures f(pn) == [] {
      RoutingReadsNothing(e, b, c, services, dests, log, cfg.pipelines[pn]);
      FlatMapSingle(ROUTING, FromReceiver(e, cfg, log, cfg.pipelines[pn]));
    }
    FlatMapOne(keys, f, INGEST);
    IngestReceivers(c, services);
  }

  lemma PipelinesShape(b: Knobs, c: Codec, services: seq<ServiceSpec>, dests: map<string, Destination>)
    ensures var cfg := Full(b, c, services, dests);
      && INGEST in cfg.pipelines && cfg.pipelines[INGEST] == IngestPipeline(c, services)
      && forall pn :: pn in cfg.pipelines && pn != INGEST ==> cfg.pipelines[pn].receivers == [ROUTING]
  {
    hide IngestPipeline, OutPipelines, Full, Keys;
    FullPipelines(b, c, services, dests);
    OutPipelinesShape(c, services, dests, SortedSet(Keys(services)));
    NotIngest();
  }

  lemma NotIngest()
    ensures !(OUT <= INGEST)
  {
    assert INGEST[5] == 'i' && OUT[5] == 'o';
  }

  lemma RoutingReadsNothing(e: Engine, b: Knobs, c: Codec, services: seq<ServiceSpec>, dests: map<string, Destination>,
                            log: Log, p: Pipeline)
    ensures FromReceiver(e, Full(b, c, services, dests), log, p)(ROUTING) == []
  {
    hide Full, ReceiverNamed, RunPipeline, Hashes;
    FullReceivers(b, c, services, dests);
    assert ROUTING[0] == 'r' && FILELOG[0] == 'f';
  }

  lemma IngestReceivers(c: Codec, services: seq<ServiceSpec>)
    ensures IngestPipeline(c, services).receivers == SortedSet(Prefixed(Hashes(c, services)))
  {
    hide IngestProcessors, Hashes;
  }

  // ----- the theorem -----

  ghost function TailedBy(services: seq<ServiceSpec>, path: string): ServiceSpec
    requires Tailed(services, path)
  {
    var s :| s in services && PathOf(s) == path; s
  }

  /** The deliveries `f` asks for, record by record. */
  ghost function Gather(rs: seq<Record>, f: Record -> set<Delivery>): multiset<Delivery> {
    if |rs| == 0 then multiset{} else multiset(f(rs[0])) + Gather(rs[1..], f)
  }

  lemma {:induction false} GatherFlatMap(rs: seq<Record>, g: Record -> seq<Delivery>, f: Record -> set<Delivery>)
    requires forall r :: r in rs ==> multiset(g(r)) == multiset(f(r))
    ensures multiset(FlatMap(rs, g)) == Gather(rs, f)
  {
    if |rs| > 0 {
      assert rs[0] in rs && forall r :: r in rs[1..] ==> r in rs;
      GatherFlatMap(rs[1..], g, f);
    }
  }

  lemma {:induction false} GatherNone(rs: seq<Record>, f: Record -> set<Delivery>)
    ensures Gather(rs, f) == multiset{} <==> forall r :: r in rs ==> f(r) == {}
  {
    if |rs| > 0 {
      assert rs == [rs[0]] + rs[1..];
      GatherNone(rs[1..], f);
      assert multiset(f(rs[0])) == multiset{} <==> f(rs[0]) == {} by {
        if x :| x in f(rs[0]) { assert x in multiset(f(rs[0])); }
      }
      if Gather(rs, f) == multiset{} {
        assert |multiset(f(rs[0]))| + |Gather(rs[1..], f)| == 0;
      }
    }
  }

  ghost function ExpectedFor(e: Engine, spec: Spec): Record -> set<Delivery> {
    (r: Record) => Expected(e, spec, r)
  }

  /** Everything the Spec says about one log file: nothing unless a service tails it. */
  ghost function ExpectedOf(e: Engine, c: Codec, spec: Spec, log: Log): multiset<Delivery> {
    var services := Tailable(spec);
    if Tailed(services, log.path)
    then Gather(Emitted(e, log, true, Operators(c, TailedBy(services, log.path))), ExpectedFor(e, spec))
    else multiset{}
  }

  lemma RecordsMean(e: Engine, b: Knobs, c: Codec, spec: Spec, rs: seq<Record>)
    requires Sound(c, spec) && Renderable(spec)
    ensures var services := Tailable(spec);
      multiset(FlatMap(rs, EachRecord(e, Full(b, c, services, spec.destinations), IngestPipeline(c, services))))
      == Gather(rs, ExpectedFor(e, spec))
  {
    hide Full, Tailable, Expected, RunPipeline, IngestPipeline, Sound, Renderable;
    var services := Tailable(spec);
    forall r { IngestPipelineMeans(e, b, c, spec, r); }
    GatherFlatMap(rs, EachRecord(e, Full(b, c, services, spec.destinations), IngestPipeline(c, services)),
                  ExpectedFor(e, spec));
  }

  lemma FullMeans(e: Engine, b: Knobs, c: Codec, spec: Spec, log: Log)
    requires Sound(c, spec) && Renderable(spec)
    ensures multiset(Deliver(e, Full(b, c, Tailable(spec), spec.destinations), log)) == ExpectedOf(e, c, spec, log)
  {
    hide Full, Tailable, Deliver, Operators, IngestPipeline, Emitted, Exportable, Receivers, EachRecord, ExpectedFor,
         SigHash, PathOf, KeysSeparate, KeysFaithful;
    var services, dests := Tailable(spec), spec.destinations;
    var cfg := Full(b, c, services, dests);
    var names := SortedSet(Prefixed(Hashes(c, services)));
    var f := FromReceiver(e, cfg, log, IngestPipeline(c, services));
    OnlyIngestReads(e, b, c, services, dests, log);
    FullReceivers(b, c, services, dests);
    assert NoDup(names) && forall n :: n in names <==> n in Prefixed(Hashes(c, services)) by {
      SortedSetFacts(Prefixed(Hashes(c, services)));
    }
    if Tailed(services, log.path) {
      var s := TailedBy(services, log.path);
      var own := ReceiverName(SigHash(c, s));
      forall n { ReceiverOf(c, services, s, n); }
      ReceiverKeys(c, services);
      FlatMapOne(names, f, own);
      RecordsMean(e, b, c, spec, Emitted(e, log, true, Operators(c, s)));
    } else {
      forall n | n in names ensures f(n) == [] { UntailedSilent(c, services, log.path, n); }
      FlatMapNone(names, f);
    }
  }

  lemma ReceiverKeys(c: Codec, services: seq<ServiceSpec>)
    ensures Receivers(c, services, Hashes(c, services)).Keys == Prefixed(Hashes(c, services))
  {
    hide ReceiverNamed, Hashes;
  }

  lemma UntailedSilent(c: Codec, services: seq<ServiceSpec>, path: string, n: string)
    requires !Tailed(services, path) && n in Prefixed(Hashes(c, services))
    ensures path !in Receivers(c, services, Hashes(c, services))[n].includes
  {
    hide SigHash, PathOf, Operators;
    var h :| h in Hashes(c, services) && FILELOG + h == n;
    ReceiverAt(c, services, h);
    var members := Members(c, services, h);
    forall i | 0 <= i < |members| ensures PathOf(members[i]) != path {
      assert members[i] in members;
    }
  }

  lemma InertSilent(e: Engine, b: Knobs, log: Log)
    ensures Deliver(e, Inert(b), log) == []
  {
    hide Inert, FromReceiver, SortedSet;
    var cfg := Inert(b);
    var f := FromPipeline(e, cfg, log);
    assert forall pn :: pn in SortedSet(cfg.pipelines.Keys) ==> pn in cfg.pipelines by {
      SortedSetMembers(cfg.pipelines.Keys);
    }
    forall pn | pn in SortedSet(cfg.pipelines.Keys) ensures f(pn) == [] {
      InertReadsNothing(e, b, log, pn);
      FlatMapSingle("nop", FromReceiver(e, cfg, log, cfg.pipelines[pn]));
    }
    FlatMapNone(SortedSet(cfg.pipelines.Keys), f);
  }

  lemma InertReadsNothing(e: Engine, b: Knobs, log: Log, pn: string)
    requires pn in Inert(b).pipelines
    ensures Inert(b).pipelines[pn].receivers == ["nop"]
    ensures FromReceiver(e, Inert(b), log, Inert(b).pipelines[pn])("nop") == []
  {
    hide RunPipeline;
  }

  /** Compilation preserves meaning, for every log file and in both shapes of the configuration:
      every delivery the Spec asks for is made, exactly as often as it asks, and no other. */
  lemma CompilationPreservesMeaning(e: Engine, b: Knobs, c: Codec, spec: Spec, log: Log)
    requires Sound(c, spec) && Renderable(spec)
    ensures multiset(Deliver(e, Compiled(b, c, spec), log)) == ExpectedOf(e, c, spec, log)
  {
    hide Full, Inert, Deliver, Tailable, Sound, Renderable, Emitted, Operators, Tailed, Keys, Expected;
    if Keys(Tailable(spec)) == {} {
      InertSilent(e, b, log);
      NothingExpected(e, spec);
      forall rs { GatherNone(rs, ExpectedFor(e, spec)); }
    } else {
      FullMeans(e, b, c, spec, log);
    }
  }

  lemma NothingExpected(e: Engine, spec: Spec)
    requires Keys(Tailable(spec)) == {}
    ensures forall r :: Expected(e, spec, r) == {}
  {
    hide Tailable, Ingested, Keys, Targets, Deliveries;
    forall resource ensures Targets(Tailable(spec), resource) == {} { NoTargets(Tailable(spec), resource); }
    forall r { NoDeliveries(spec.destinations, r); }
  }
}
