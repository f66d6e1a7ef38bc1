/** Whose record is it: when the lines of a container's file get that container's own treatment, and
    what happens to those that do not. */
module Attribution {
  import opened Wrappers
  import opened Sorting
  import opened Strings
  import opened Backend
  import opened Collector
  import opened Render
  import opened Meaning
  import opened Compiler

  // ----- one service at a time -----

  /** The direct meaning of a Spec for one record of one service. */
  ghost function ServiceMeaning(e: Engine, spec: Spec, s: ServiceSpec, r: Record): set<Delivery> {
    if Kept(e, s, r)
    then Deliveries(DestSet(s), spec.destinations, r.(resource := r.resource + Stamped(s)))
    else {}
  }

  ghost function MeaningFor(e: Engine, spec: Spec, s: ServiceSpec): Record -> set<Delivery> {
    (r: Record) => ServiceMeaning(e, spec, s, r)
  }

  /** The records that come out of a service's operator chain. */
  function Chain(e: Engine, c: Codec, s: ServiceSpec, log: Log): seq<Record> {
    Emitted(e, log, true, Operators(c, s))
  }

  ghost predicate ClaimsAll(s: ServiceSpec, rs: seq<Record>) {
    forall r :: r in rs ==> Claims(s, r)
  }

  /** The routing key a record of `s` carries is not the key of a routed service. Always so for
      a routed service's own key, and to be checked for a service routed nowhere. */
  ghost predicate NoForgedKey(services: seq<ServiceSpec>, s: ServiceSpec, r: Record) {
    Routed(s) || forall k :: k in Keys(services) ==> !Has(r.resource + Stamped(s), ROUTING_KEY, k)
  }

  lemma StampedKey(s: ServiceSpec)
    requires Routed(s)
    ensures Has(Stamped(s), ROUTING_KEY, Key(s))
  {}

  lemma ExpectedForClaimant(e: Engine, c: Codec, spec: Spec, s: ServiceSpec, r: Record)
    requires Sound(c, spec) && s in Tailable(spec) && Claims(s, r)
    ensures NoForgedKey(Tailable(spec), s, r) ==> Expected(e, spec, r) == ServiceMeaning(e, spec, s, r)
    ensures !NoForgedKey(Tailable(spec), s, r) && Kept(e, s, r) ==>
      Expected(e, spec, r) != {} && ServiceMeaning(e, spec, s, r) == {}
  {
    hide Tailable, Stamped, Kept, Claims, KeysSeparate, SignaturesSeparate, Key, ExporterId;
    var services := Tailable(spec);
    ClaimantUnique(services, s, r);
    var r' := r.(resource := r.resource + Stamped(s));
    if Routed(s) {
      StampedKey(s);
      TargetsOfKey(services, r'.resource, s);
    } else if NoForgedKey(services, s, r) {
      NoTargets(services, r'.resource);
    } else {
      var k :| k in Keys(services) && Has(r'.resource, ROUTING_KEY, k);
      KeyDelivers(services, spec.destinations, r', k);
    }
    if !Routed(s) { NoDeliveries(spec.destinations, r'); }
  }

  /** A record carrying a key in play reaches some exporter. */
  lemma KeyDelivers(services: seq<ServiceSpec>, dests: map<string, Destination>, r: Record, k: string)
    requires KeysFaithful(services) && k in Keys(services) && Has(r.resource, ROUTING_KEY, k)
    ensures Deliveries(Targets(services, r.resource), dests, r) != {}
  {
    hide Key, ExporterId, Targets;
    var t :| t in services && Routed(t) && Key(t) == k;
    TargetsOfKey(services, r.resource, t);
    var n :| n in DestSet(t);
    assert Delivery(ExporterId(dests)(n), r) in Deliveries(DestSet(t), dests, r);
  }

  lemma {:induction false} GatherCong(rs: seq<Record>, f: Record -> set<Delivery>, g: Record -> set<Delivery>)
    requires forall r :: r in rs ==> f(r) == g(r)
    ensures Gather(rs, f) == Gather(rs, g)
  {
    if |rs| > 0 {
      assert rs[0] in rs && forall r :: r in rs[1..] ==> r in rs;
      GatherCong(rs[1..], f, g);
    }
  }

  /** The main theorem, read at a service's own file. */
  lemma LogMeans(e: Engine, b: Knobs, c: Codec, spec: Spec, s: ServiceSpec, log: Log)
    requires Sound(c, spec) && Renderable(spec) && s in Tailable(spec) && log.path == PathOf(s)
    ensures multiset(Deliver(e, Compiled(b, c, spec), log)) == Gather(Chain(e, c, s, log), ExpectedFor(e, spec))
  {
    hide Deliver, Compiled, Tailable, Renderable, Emitted, Operators, KeysSeparate, SignaturesSeparate, KeysFaithful,
         PathOf, ExpectedFor;
    CompilationPreservesMeaning(e, b, c, spec, log);
    assert Tailed(Tailable(spec), log.path);
    SamePath(Tailable(spec), s, TailedBy(Tailable(spec), log.path));
  }

  /** Records that all carry the identity of `t` get the filters, attributes and destinations of
      `t`, whichever file they come from: their own when `t` is `s`, a stranger's otherwise. */
  lemma ClaimantTreats(e: Engine, b: Knobs, c: Codec, spec: Spec, s: ServiceSpec, t: ServiceSpec, log: Log)
    requires Sound(c, spec) && Renderable(spec) && s in Tailable(spec) && log.path == PathOf(s)
    requires t in Tailable(spec) && ClaimsAll(t, Chain(e, c, s, log))
    requires forall r :: r in Chain(e, c, s, log) ==> NoForgedKey(Tailable(spec), t, r)
    ensures multiset(Deliver(e, Compiled(b, c, spec), log)) == Gather(Chain(e, c, s, log), MeaningFor(e, spec, t))
  {
    hide Deliver, Compiled, Tailable, Renderable, Chain, Sound, Claims, NoForgedKey, PathOf, ServiceMeaning, Expected;
    LogMeans(e, b, c, spec, s, log);
    forall r | r in Chain(e, c, s, log) ensures ExpectedFor(e, spec)(r) == MeaningFor(e, spec, t)(r) {
      ExpectedForClaimant(e, c, spec, t, r);
    }
    GatherCong(Chain(e, c, s, log), ExpectedFor(e, spec), MeaningFor(e, spec, t));
  }

  /** The per-service reading of the main theorem: a routed service whose records still carry its
      id is served exactly as it says, record by record. */
  lemma ServicePreserved(e: Engine, b: Knobs, c: Codec, spec: Spec, s: ServiceSpec, log: Log)
    requires Sound(c, spec) && Renderable(spec)
    requires s in Tailable(spec) && Routed(s) && log.path == PathOf(s) && ClaimsAll(s, Chain(e, c, s, log))
    ensures multiset(Deliver(e, Compiled(b, c, spec), log)) == Gather(Chain(e, c, s, log), MeaningFor(e, spec, s))
  {
    hide Deliver, Compiled, Tailable, Renderable, Chain, Sound, ClaimsAll, PathOf, MeaningFor, Routed;
    assert forall r :: NoForgedKey(Tailable(spec), s, r);
    ClaimantTreats(e, b, c, spec, s, s, log);
  }

  /** Records that carry nobody's identity and no routing key are lost. */
  lemma UnclaimedLost(e: Engine, b: Knobs, c: Codec, spec: Spec, s: ServiceSpec, log: Log)
    requires Sound(c, spec) && Renderable(spec) && s in Tailable(spec) && log.path == PathOf(s)
    requires forall r :: r in Chain(e, c, s, log) ==> !Claimed(Tailable(spec), r) && ROUTING_KEY !in r.resource
    ensures Deliver(e, Compiled(b, c, spec), log) == []
  {
    hide Deliver, Compiled, Tailable, Renderable, Chain, Sound, PathOf, Claimed, Expected;
    LogMeans(e, b, c, spec, s, log);
    forall r | r in Chain(e, c, s, log) ensures ExpectedFor(e, spec)(r) == {} {
      UnclaimedRecord(e, spec, r);
    }
    GatherNone(Chain(e, c, s, log), ExpectedFor(e, spec));
    assert |multiset(Deliver(e, Compiled(b, c, spec), log))| == |Deliver(e, Compiled(b, c, spec), log)|;
  }

  lemma UnclaimedRecord(e: Engine, spec: Spec, r: Record)
    requires !Claimed(Tailable(spec), r) && ROUTING_KEY !in r.resource
    ensures Expected(e, spec, r) == {}
  {
    hide Tailable, Claimed, Keys, Targets, Deliveries;
    NoTargets(Tailable(spec), r.resource);
    NoDeliveries(spec.destinations, r);
  }

  // ----- services routed nowhere -----

  /** A service routed nowhere stays silent if and only if none of the records it keeps carries
      the routing key of another. */
  lemma NowhereSilent(e: Engine, b: Knobs, c: Codec, spec: Spec, s: ServiceSpec, log: Log)
    requires Sound(c, spec) && Renderable(spec) && s in Tailable(spec) && log.path == PathOf(s)
    requires !Routed(s) && ClaimsAll(s, Chain(e, c, s, log))
    ensures Deliver(e, Compiled(b, c, spec), log) == [] <==>
      forall r :: r in Chain(e, c, s, log) && Kept(e, s, r) ==> NoForgedKey(Tailable(spec), s, r)
  {
    hide Deliver, Compiled, Tailable, Renderable, Chain, Sound, Kept, PathOf, Claims, NoForgedKey, Routed, Expected;
    LogMeans(e, b, c, spec, s, log);
    forall r | r in Chain(e, c, s, log)
      ensures ExpectedFor(e, spec)(r) == {} <==> (Kept(e, s, r) ==> NoForgedKey(Tailable(spec), s, r))
    {
      ExpectedForClaimant(e, c, spec, s, r);
      NowhereMeansNothing(e, spec, s, r);
      if !Kept(e, s, r) { DroppedRecord(e, c, spec, s, r); }
    }
    GatherNone(Chain(e, c, s, log), ExpectedFor(e, spec));
    assert |multiset(Deliver(e, Compiled(b, c, spec), log))| == |Deliver(e, Compiled(b, c, spec), log)|;
  }

  lemma NowhereMeansNothing(e: Engine, spec: Spec, s: ServiceSpec, r: Record)
    requires !Routed(s)
    ensures ServiceMeaning(e, spec, s, r) == {}
  {
    hide Stamped, Kept;
    NoDeliveries(spec.destinations, r.(resource := r.resource + Stamped(s)));
  }

  lemma DroppedRecord(e: Engine, c: Codec, spec: Spec, s: ServiceSpec, r: Record)
    requires Sound(c, spec) && s in Tailable(spec) && Claims(s, r) && !Kept(e, s, r)
    ensures Expected(e, spec, r) == {}
  {
    hide Tailable, Kept, Claims, Stamped, Deliveries, Targets;
    ClaimantUnique(Tailable(spec), s, r);
  }

  /** A static attribute that spells the routing key of another service. */
  ghost predicate ForgesKey(services: seq<ServiceSpec>, s: ServiceSpec) {
    ROUTING_KEY in s.staticAttrs && s.staticAttrs[ROUTING_KEY] in Keys(services)
  }

  /** The same, read off the Spec: with nothing in the records' own resource, what gives a service
      routed nowhere away is a static attribute spelling another's key, and nothing else. */
  lemma NowhereExact(e: Engine, b: Knobs, c: Codec, spec: Spec, s: ServiceSpec, log: Log)
    requires Sound(c, spec) && Renderable(spec) && s in Tailable(spec) && log.path == PathOf(s)
    requires !Routed(s) && ClaimsAll(s, Chain(e, c, s, log))
    requires forall r :: r in Chain(e, c, s, log) ==> ROUTING_KEY !in r.resource
    ensures Deliver(e, Compiled(b, c, spec), log) == [] <==>
      !ForgesKey(Tailable(spec), s) || forall r :: r in Chain(e, c, s, log) ==> !Kept(e, s, r)
  {
    hide Deliver, Compiled, Tailable, Renderable, Chain, Sound, Kept, PathOf, Claims, NoForgedKey, ForgesKey, Routed;
    NowhereSilent(e, b, c, spec, s, log);
    forall r | r in Chain(e, c, s, log) ensures NoForgedKey(Tailable(spec), s, r) <==> !ForgesKey(Tailable(spec), s) {
      ForgedStatically(Tailable(spec), s, r);
    }
  }

  lemma ForgedStatically(services: seq<ServiceSpec>, s: ServiceSpec, r: Record)
    requires !Routed(s) && ROUTING_KEY !in r.resource
    ensures NoForgedKey(services, s, r) <==> !ForgesKey(services, s)
  {
    hide Keys, Routed, Identity;
    IdentityKeys(s);
  }

  lemma IdentityKeys(s: ServiceSpec)
    ensures ROUTING_KEY !in Identity(s) && Has(Identity(s), CONTAINER_STAMP, s.containerID)
  {}

  // ----- one's own treatment, exactly -----

  /** The resource a record leaves enrichment with. */
  ghost function Final(services: seq<ServiceSpec>, r: Record): map<string, string> {
    if Claimed(services, r) then r.resource + Stamped(Claimant(services, r)) else r.resource
  }

  /** The record passes the filters and carries a routing key in play. */
  ghost predicate Leaves(e: Engine, services: seq<ServiceSpec>, r: Record) {
    && (Claimed(services, r) ==> Kept(e, Claimant(services, r), r))
    && exists k :: k in Keys(services) && Has(Final(services, r), ROUTING_KEY, k)
  }

  lemma LeavesExact(e: Engine, c: Codec, spec: Spec, r: Record)
    requires Sound(c, spec)
    ensures var services := Tailable(spec);
      && (Expected(e, spec, r) != {} <==> Leaves(e, services, r))
      && forall d :: d in Expected(e, spec, r) ==> d.record.resource == Final(services, r)
  {
    hide Tailable, Stamped, Kept, Claims, KeysSeparate, SignaturesSeparate, Keys, ExporterId, Targets;
    var services := Tailable(spec);
    var r' := r.(resource := Final(services, r));
    if k :| k in Keys(services) && Has(r'.resource, ROUTING_KEY, k) {
      KeyDelivers(services, spec.destinations, r', k);
    } else {
      NoTargets(services, r'.resource);
      NoDeliveries(spec.destinations, r');
    }
    assert r.(resource := r.resource) == r;
  }

  lemma MeaningExact(e: Engine, spec: Spec, s: ServiceSpec, r: Record)
    ensures ServiceMeaning(e, spec, s, r) != {} <==> Routed(s) && Kept(e, s, r)
    ensures forall d :: d in ServiceMeaning(e, spec, s, r) ==> d.record.resource == r.resource + Stamped(s)
  {
    hide Kept, Stamped, ExporterId;
    var r' := r.(resource := r.resource + Stamped(s));
    if Routed(s) {
      var n :| n in DestSet(s);
      assert Delivery(ExporterId(spec.destinations)(n), r') in Deliveries(DestSet(s), spec.destinations, r');
    }
  }

  /** A record gets the treatment of the service whose file it came from exactly when it leaves
      just in case that service wants it to, and then with that service's stamps. */
  lemma RecordExact(e: Engine, c: Codec, spec: Spec, s: ServiceSpec, r: Record)
    requires Sound(c, spec) && s in Tailable(spec)
    ensures var services := Tailable(spec);
      Expected(e, spec, r) == ServiceMeaning(e, spec, s, r) <==>
        && (Leaves(e, services, r) <==> Routed(s) && Kept(e, s, r))
        && (Leaves(e, services, r) ==> Final(services, r) == r.resource + Stamped(s))
  {
    hide Tailable, Stamped, Kept, KeysSeparate, SignaturesSeparate, ServiceMeaning, Expected, Leaves, Final, Routed;
    var services := Tailable(spec);
    LeavesExact(e, c, spec, r);
    MeaningExact(e, spec, s, r);
    if Leaves(e, services, r) && Routed(s) && Kept(e, s, r) {
      var d :| d in Expected(e, spec, r);
      if Final(services, r) == r.resource + Stamped(s) {
        SameStamps(e, c, spec, s, r);
      }
    }
  }

  lemma SameStamps(e: Engine, c: Codec, spec: Spec, s: ServiceSpec, r: Record)
    requires Sound(c, spec) && s in Tailable(spec) && Routed(s) && Kept(e, s, r)
    requires Leaves(e, Tailable(spec), r) && Final(Tailable(spec), r) == r.resource + Stamped(s)
    ensures Expected(e, spec, r) == ServiceMeaning(e, spec, s, r)
  {
    hide Tailable, Stamped, Kept, Claims, KeysSeparate, SignaturesSeparate, Keys, Key, Routed, Targets, Deliveries;
    StampedKey(s);
    var r' := r.(resource := Final(Tailable(spec), r));
    TargetsOfKey(Tailable(spec), r'.resource, s);
    assert r.(resource := r.resource) == r;
  }

  /** No service's attributes replace the container.id stamp. */
  ghost predicate IdsUntouched(services: seq<ServiceSpec>) {
    forall s :: s in services ==> CONTAINER_STAMP !in s.staticAttrs
  }

  const CONTAINER_STAMP := "container.id"

  predicate BearsId(s: ServiceSpec, d: Delivery) { Has(d.record.resource, CONTAINER_STAMP, s.containerID) }

  lemma StampsId(s: ServiceSpec)
    requires CONTAINER_STAMP !in s.staticAttrs
    ensures Has(Stamped(s), CONTAINER_STAMP, s.containerID)
  {
    hide Key, Routed, Identity;
    IdentityKeys(s);
  }

  /** What a record delivers under the id of `s`: what `s` asks for if the record claims `s`, nothing
      otherwise. */
  lemma BearingExact(e: Engine, c: Codec, spec: Spec, s: ServiceSpec, r: Record)
    requires Sound(c, spec) && s in Tailable(spec) && Routed(s) && IdsUntouched(Tailable(spec))
    requires ROUTING_KEY !in r.resource
    ensures Claims(s, r) ==> Expected(e, spec, r) == ServiceMeaning(e, spec, s, r)
    ensures !Claims(s, r) ==> forall d :: d in Expected(e, spec, r) ==> !BearsId(s, d)
    ensures forall d :: d in ServiceMeaning(e, spec, s, r) ==> BearsId(s, d)
  {
    hide Tailable, Stamped, Kept, KeysSeparate, SignaturesSeparate, ServiceMeaning, Expected, Leaves, Routed, Key;
    var services := Tailable(spec);
    StampsId(s);
    MeaningExact(e, spec, s, r);
    LeavesExact(e, c, spec, r);
    if Claims(s, r) {
      ExpectedForClaimant(e, c, spec, s, r);
    } else if Claimed(services, r) {
      StampsId(Claimant(services, r));
    } else {
      UnclaimedRecord(e, spec, r);
    }
  }

  /** The record is treated as `s` would have it: kept under its own id, or dropped altogether. */
  ghost predicate Attributed(e: Engine, spec: Spec, s: ServiceSpec, r: Record) {
    if Kept(e, s, r) then Claims(s, r) else !Leaves(e, Tailable(spec), r)
  }

  lemma AttributedExact(e: Engine, c: Codec, spec: Spec, s: ServiceSpec, r: Record)
    requires Sound(c, spec) && s in Tailable(spec) && Routed(s) && IdsUntouched(Tailable(spec))
    requires ROUTING_KEY !in r.resource
    ensures Attributed(e, spec, s, r) <==> Expected(e, spec, r) == ServiceMeaning(e, spec, s, r)
    ensures forall d :: BearsId(s, d) && d in Expected(e, spec, r) ==> d in ServiceMeaning(e, spec, s, r)
    ensures Kept(e, s, r) && !Claims(s, r) ==>
      exists d :: d in ServiceMeaning(e, spec, s, r) && d !in Expected(e, spec, r)
    ensures forall d :: d in ServiceMeaning(e, spec, s, r) ==> BearsId(s, d)
    ensures !Kept(e, s, r) ==> ServiceMeaning(e, spec, s, r) == {}
  {
    hide Tailable, Stamped, Kept, KeysSeparate, SignaturesSeparate, ServiceMeaning, Expected, Leaves, Routed, Claims,
         BearsId, Final, IdsUntouched, Sound;
    BearingExact(e, c, spec, s, r);
    MeaningExact(e, spec, s, r);
    LeavesExact(e, c, spec, r);
    if Kept(e, s, r) {
      var d :| d in ServiceMeaning(e, spec, s, r);
    }
  }

  lemma {:induction false} GatherBounded(rs: seq<Record>, f: Record -> set<Delivery>, g: Record -> set<Delivery>, d: Delivery)
    requires forall r :: r in rs && d in f(r) ==> d in g(r)
    ensures Gather(rs, f)[d] <= Gather(rs, g)[d]
    ensures (exists r :: r in rs && d in g(r) && d !in f(r)) ==> Gather(rs, f)[d] < Gather(rs, g)[d]
  {
    if |rs| > 0 {
      assert rs == [rs[0]] + rs[1..];
      GatherBounded(rs[1..], f, g, d);
      assert multiset(f(rs[0]))[d] == (if d in f(rs[0]) then 1 else 0);
      assert multiset(g(rs[0]))[d] == (if d in g(rs[0]) then 1 else 0);
    }
  }

  lemma {:induction false} GatherLarger(rs: seq<Record>, f: Record -> set<Delivery>, g: Record -> set<Delivery>)
    requires forall r :: r in rs ==> f(r) == g(r) || g(r) == {}
    ensures |Gather(rs, f)| >= |Gather(rs, g)|
    ensures (exists r :: r in rs && f(r) != g(r)) ==> |Gather(rs, f)| > |Gather(rs, g)|
  {
    if |rs| > 0 {
      assert rs == [rs[0]] + rs[1..];
      GatherLarger(rs[1..], f, g);
      assert |multiset(f(rs[0]))| == |f(rs[0])|;
      assert |multiset(g(rs[0]))| == |g(rs[0])|;
    }
  }

  /** A file is treated as its service asks if and only if every record the service keeps still
      carries its id, and none it drops leaves under another's. */
  lemma OwnTreatmentExact(e: Engine, b: Knobs, c: Codec, spec: Spec, s: ServiceSpec, log: Log)
    requires Sound(c, spec) && Renderable(spec) && s in Tailable(spec) && log.path == PathOf(s)
    requires Routed(s) && IdsUntouched(Tailable(spec))
    requires forall r :: r in Chain(e, c, s, log) ==> ROUTING_KEY !in r.resource
    ensures multiset(Deliver(e, Compiled(b, c, spec), log)) == Gather(Chain(e, c, s, log), MeaningFor(e, spec, s))
      <==> forall r :: r in Chain(e, c, s, log) ==> Attributed(e, spec, s, r)
  {
    hide Deliver, Compiled, Tailable, Renderable, Chain, Sound, PathOf, Claims, Kept, Attributed, Expected,
         ServiceMeaning, IdsUntouched, BearsId, Routed, Leaves;
    var rs, f, g := Chain(e, c, s, log), ExpectedFor(e, spec), MeaningFor(e, spec, s);
    LogMeans(e, b, c, spec, s, log);
    forall r | r in rs { AttributedExact(e, c, spec, s, r); }
    if forall r :: r in rs ==> Attributed(e, spec, s, r) {
      GatherCong(rs, f, g);
    } else if r :| r in rs && Kept(e, s, r) && !Claims(s, r) {
      var d :| d in ServiceMeaning(e, spec, s, r) && d !in Expected(e, spec, r);
      assert g(r) == ServiceMeaning(e, spec, s, r) && f(r) == Expected(e, spec, r);
      GatherBounded(rs, f, g, d);
    } else {
      Misdropped(e, c, spec, s, rs);
    }
  }

  lemma Misdropped(e: Engine, c: Codec, spec: Spec, s: ServiceSpec, rs: seq<Record>)
    requires Sound(c, spec) && s in Tailable(spec) && Routed(s) && IdsUntouched(Tailable(spec))
    requires forall r :: r in rs ==> ROUTING_KEY !in r.resource && (Kept(e, s, r) ==> Claims(s, r))
    requires exists r :: r in rs && !Attributed(e, spec, s, r)
    ensures Gather(rs, ExpectedFor(e, spec)) != Gather(rs, MeaningFor(e, spec, s))
  {
    hide Tailable, Sound, Claims, Kept, Expected, ServiceMeaning, IdsUntouched, BearsId, Routed, Leaves;
    forall r | r in rs { AttributedExact(e, c, spec, s, r); }
    GatherLarger(rs, ExpectedFor(e, spec), MeaningFor(e, spec, s));
  }

  // ----- recovering the identity -----

  lemma PathHoldsId(id: string)
    requires Is64Hex(id)
    ensures IdInPath(DockerLogPath(id)) == Some(id)
  {
    var rest := id + ("/" + id + "-json.log");
    assert DockerLogPath(id) == CONTAINERS + rest;
    CutPrefixConcat(CONTAINERS, rest);
    assert rest[..64] == id && rest[64] == '/';
  }

  /** A raw line as it leaves the two identity operators. */
  function Decoded(e: Engine, s: ServiceSpec): string -> Record {
    (raw: string) => Decode(e)(Record(map[FILE_PATH := PathOf(s), CONTAINER_ID := s.containerID], map[], raw, 0))
  }

  /** The text of a raw line. */
  function TextOf(e: Engine, raw: string): string {
    match e.envelope(raw)
    case None => raw
    case Some(env) => env.1
  }

  function DecodedLog(e: Engine, s: ServiceSpec, log: Log): seq<Record> { Map(log.lines, Decoded(e, s)) }

  lemma OperatorsDiffer()
    ensures UnwrapsDocker(CONTAINER_OP) && CapturesId(ID_OP) && !UnwrapsDocker(ID_OP)
    ensures !UnwrapsDocker(JSON_OP) && !CapturesId(JSON_OP)
  {
    assert ID_OP["type"] == Text("regex_parser") && JSON_OP["type"] == Text("json_parser");
  }

  /** The two leading operators recover container and stream of every line; what a service's chain
      emits is its parsers applied to that. */
  lemma IdentityRecovered(e: Engine, c: Codec, s: ServiceSpec, log: Log)
    requires log.path == PathOf(s) && Is64Hex(s.containerID)
    ensures Chain(e, c, s, log) == RunOperators(e, ParserOps(c, s), DecodedLog(e, s, log))
    ensures ClaimsAll(s, DecodedLog(e, s, log))
    ensures forall i :: 0 <= i < |log.lines| && e.envelope(log.lines[i]).Some? ==>
      Has(DecodedLog(e, s, log)[i].attributes, IOSTREAM, e.envelope(log.lines[i]).value.0)
      && DecodedLog(e, s, log)[i].body == e.envelope(log.lines[i]).value.1
  {
    hide CONTAINER_OP, ID_OP, JSON_OP, UnwrapsDocker, CapturesId, ParserOps, Is64Hex, DockerLogPath, IdInPath;
    OperatorsDiffer();
    PathHoldsId(s.containerID);
    var r0 := Map(log.lines, RawRecord(log.path, true));
    var r1 := RunOperator(e, CONTAINER_OP, r0);
    var r2 := RunOperator(e, ID_OP, r1);
    var ops := Operators(c, s);
    assert ops[1..][1..] == ParserOps(c, s);
    assert ops[0] == CONTAINER_OP && ops[1..][0] == ID_OP;
    assert RunOperators(e, ops, r0) == RunOperators(e, ops[1..], r1);
    assert RunOperators(e, ops[1..], r1) == RunOperators(e, ParserOps(c, s), r2);
    forall i | 0 <= i < |log.lines|
      ensures r2[i] == DecodedLog(e, s, log)[i] && Claims(s, r2[i])
      ensures e.envelope(log.lines[i]).Some? ==>
        Has(r2[i].attributes, IOSTREAM, e.envelope(log.lines[i]).value.0)
        && r2[i].body == e.envelope(log.lines[i]).value.1
    {
      LocatesDecoded(e, s, log.lines[i]);
      DecodedFacts(e, s, log.lines[i]);
      assert r2[i] == Locate(Decode(e)(RawRecord(log.path, true)(log.lines[i])));
    }
    assert r2 == DecodedLog(e, s, log);
  }

  lemma LocatesDecoded(e: Engine, s: ServiceSpec, raw: string)
    requires IdInPath(PathOf(s)) == Some(s.containerID)
    ensures Locate(Decode(e)(RawRecord(PathOf(s), true)(raw))) == Decoded(e, s)(raw)
  {
    hide IdInPath, PathOf;
    assert FILE_PATH != IOSTREAM && CONTAINER_ID != IOSTREAM && CONTAINER_ID != FILE_PATH;
    var r := Locate(Decode(e)(RawRecord(PathOf(s), true)(raw)));
    assert r.attributes == Decoded(e, s)(raw).attributes;
  }

  lemma DecodedFacts(e: Engine, s: ServiceSpec, raw: string)
    ensures var r := Decoded(e, s)(raw);
      && Claims(s, r) && r.resource == map[] && r.body == TextOf(e, raw) && r.severity == 0
      && (e.envelope(raw).Some? ==> Has(r.attributes, IOSTREAM, e.envelope(raw).value.0))
  {
    hide PathOf;
    assert CONTAINER_ID != IOSTREAM && CONTAINER_ID != FILE_PATH;
    var r0 := Record(map[FILE_PATH := PathOf(s), CONTAINER_ID := s.containerID], map[], raw, 0);
    assert Decoded(e, s)(raw) == Decode(e)(r0);
    match e.envelope(raw)
    case None => assert Decode(e)(r0) == r0;
    case Some(env) =>
      assert Decode(e)(r0) == r0.(attributes := r0.attributes[IOSTREAM := env.0], body := env.1);
  }

  // ----- parsers that overwrite it -----

  /** A parser that merges the fields of the body over the attributes. */
  function Merged(parse: string -> map<string, string>): Record -> Record {
    (r: Record) => r.(attributes := r.attributes + parse(r.body))
  }

  ghost predicate Merges(e: Engine, parse: string -> map<string, string>) {
    forall rs :: e.stanza(JSON_OP, rs) == Map(rs, Merged(parse))
  }

  function IdOf(r: Record): Option<string> {
    if CONTAINER_ID in r.attributes then Some(r.attributes[CONTAINER_ID]) else None
  }

  /** An operator that maps record to record and leaves every id alone: a time or severity parser. */
  ghost predicate KeepsIds(e: Engine, op: Operator) {
    forall rs :: Map(RunOperator(e, op, rs), IdOf) == Map(rs, IdOf)
  }

  lemma {:induction false} OperatorsKeepIds(e: Engine, ops: seq<Operator>, rs: seq<Record>)
    requires forall op :: op in ops ==> KeepsIds(e, op)
    ensures Map(RunOperators(e, ops, rs), IdOf) == Map(rs, IdOf)
    decreases ops
  {
    hide RunOperator;
    if |ops| > 0 {
      assert ops[0] in ops;
      OperatorsKeepIds(e, ops[1..], RunOperator(e, ops[0], rs));
    }
  }

  /** The line's own text names another container. */
  predicate Impersonates(e: Engine, parse: string -> map<string, string>, s: ServiceSpec, raw: string) {
    var fields := parse(TextOf(e, raw));
    CONTAINER_ID in fields && fields[CONTAINER_ID] != s.containerID
  }

  /** The id a JSON service's line ends up with. */
  function IdAfter(e: Engine, parse: string -> map<string, string>, s: ServiceSpec): string -> Option<string> {
    (raw: string) =>
      var fields := parse(TextOf(e, raw));
      if CONTAINER_ID in fields then Some(fields[CONTAINER_ID]) else Some(s.containerID)
  }

  /** The JSON line as parsed. */
  function Parsed(e: Engine, parse: string -> map<string, string>, s: ServiceSpec, raw: string): Record {
    Merged(parse)(Decoded(e, s)(raw))
  }

  lemma JsonIds(e: Engine, c: Codec, s: ServiceSpec, log: Log, parse: string -> map<string, string>)
    requires s.parse == ParseJSON && Is64Hex(s.containerID) && log.path == PathOf(s) && Merges(e, parse)
    requires forall op :: op in ParserOps(c, s)[1..] ==> KeepsIds(e, op)
    ensures Map(Chain(e, c, s, log), IdOf) == Map(log.lines, IdAfter(e, parse, s))
  {
    hide CONTAINER_OP, ID_OP, JSON_OP, UnwrapsDocker, CapturesId, Is64Hex, Chain, KeepsIds, TimeOps, MultilineOps, SeverityOps, DockerLogPath, Decoded, IdAfter;
    OperatorsDiffer();
    IdentityRecovered(e, c, s, log);
    var ops, rs := ParserOps(c, s), DecodedLog(e, s, log);
    assert ops[0] == JSON_OP;
    var parsed := RunOperator(e, JSON_OP, rs);
    assert parsed == Map(rs, Merged(parse));
    assert RunOperators(e, ops, rs) == RunOperators(e, ops[1..], parsed);
    OperatorsKeepIds(e, ops[1..], parsed);
    forall i | 0 <= i < |log.lines| ensures IdOf(parsed[i]) == IdAfter(e, parse, s)(log.lines[i]) {
      assert rs[i] == Decoded(e, s)(log.lines[i]);
      ParsedFacts(e, parse, s, log.lines[i]);
    }
  }

  lemma ParsedFacts(e: Engine, parse: string -> map<string, string>, s: ServiceSpec, raw: string)
    ensures var r := Parsed(e, parse, s, raw);
      IdOf(r) == IdAfter(e, parse, s)(raw) && r.resource == map[] && r.body == TextOf(e, raw)
  {
    hide Decoded, TextOf;
    DecodedFacts(e, s, raw);
  }

  /** A JSON service's records all keep its id if and only if none of its lines holds a container_id
      field naming another. */
  lemma JsonKeepsIdExact(e: Engine, c: Codec, s: ServiceSpec, log: Log, parse: string -> map<string, string>)
    requires s.parse == ParseJSON && Is64Hex(s.containerID) && log.path == PathOf(s) && Merges(e, parse)
    requires forall op :: op in ParserOps(c, s)[1..] ==> KeepsIds(e, op)
    ensures ClaimsAll(s, Chain(e, c, s, log)) <==> forall raw :: raw in log.lines ==> !Impersonates(e, parse, s, raw)
  {
    hide Is64Hex, Chain, KeepsIds, ParserOps, PathOf, TextOf, Merges;
    JsonIds(e, c, s, log, parse);
    var rs, ids := Chain(e, c, s, log), Map(log.lines, IdAfter(e, parse, s));
    assert |rs| == |log.lines|;
    forall i | 0 <= i < |rs| ensures Claims(s, rs[i]) <==> !Impersonates(e, parse, s, log.lines[i]) {
      assert Map(rs, IdOf)[i] == ids[i];
    }
    if ClaimsAll(s, rs) {
      forall raw | raw in log.lines ensures !Impersonates(e, parse, s, raw) {
        var i :| 0 <= i < |log.lines| && log.lines[i] == raw;
        assert rs[i] in rs;
      }
    }
  }

  /** So a routed JSON service whose lines name no other container is served exactly as it says. */
  lemma JsonServed(e: Engine, b: Knobs, c: Codec, spec: Spec, s: ServiceSpec, log: Log,
                   parse: string -> map<string, string>)
    requires Sound(c, spec) && Renderable(spec) && s in Tailable(spec) && Routed(s)
    requires s.parse == ParseJSON && Is64Hex(s.containerID) && log.path == PathOf(s) && Merges(e, parse)
    requires forall op :: op in ParserOps(c, s)[1..] ==> KeepsIds(e, op)
    requires forall raw :: raw in log.lines ==> !Impersonates(e, parse, s, raw)
    ensures multiset(Deliver(e, Compiled(b, c, spec), log)) == Gather(Chain(e, c, s, log), MeaningFor(e, spec, s))
  {
    hide Deliver, Compiled, Tailable, Renderable, Chain, Sound, ClaimsAll, PathOf, Routed, KeepsIds, Merges, Impersonates,
         MeaningFor, ParserOps, Is64Hex;
    JsonKeepsIdExact(e, c, s, log, parse);
    ServicePreserved(e, b, c, spec, s, log);
  }

  /** An engine whose JSON parser merges and whose other operators do nothing. */
  function MergingEngine(isMatch: (string, string) -> bool, envelope: string -> Option<(string, string)>,
                         parse: string -> map<string, string>): Engine
  {
    Engine(isMatch, envelope, (op, rs) => if op == JSON_OP then Map(rs, Merged(parse)) else rs)
  }

  lemma OthersKeep(e: Engine, c: Codec, s: ServiceSpec, rs: seq<Record>)
    requires s.parse == ParseJSON && s.rawOperators == []
    requires forall op, rs :: op != JSON_OP ==> e.stanza(op, rs) == rs
    ensures |ParserOps(c, s)| > 0 && ParserOps(c, s)[0] == JSON_OP && RunOperators(e, ParserOps(c, s)[1..], rs) == rs
  {
    hide GuardedSeverityOp, SeverityOp, JSON_OP, UnwrapsDocker, CapturesId;
    var rest := TimeOps(s) + MultilineOps(c, s) + SeverityOps(c, s);
    assert ParserOps(c, s) == [JSON_OP] + rest;
    forall op | op in rest ensures op != JSON_OP && !UnwrapsDocker(op) && !CapturesId(op) { OtherTypes(c, s, op); }
    Idle(e, rest, rs);
  }

  lemma {:induction false} Idle(e: Engine, ops: seq<Operator>, rs: seq<Record>)
    requires forall op :: op in ops ==> RunOperator(e, op, rs) == rs
    ensures RunOperators(e, ops, rs) == rs
    decreases ops
  {
    hide RunOperator;
    if |ops| > 0 {
      assert ops[0] in ops;
      Idle(e, ops[1..], rs);
    }
  }

  lemma OtherTypes(c: Codec, s: ServiceSpec, op: Operator)
    requires op in TimeOps(s) + MultilineOps(c, s) + SeverityOps(c, s)
    ensures op != JSON_OP && !UnwrapsDocker(op) && !CapturesId(op)
  {
    hide TimeOps, MultilineOps, SeverityOps, JSON_OP, UnwrapsDocker, CapturesId;
    if op in TimeOps(s) { TimeType(s, op); }
    else if op in MultilineOps(c, s) { MultilineType(c, s, op); }
    else { SeverityType(c, s, op); }
    TypesDiffer(op);
  }

  lemma TimeType(s: ServiceSpec, op: Operator)
    requires op in TimeOps(s)
    ensures OfType(op, "time_parser")
  {}

  lemma MultilineType(c: Codec, s: ServiceSpec, op: Operator)
    requires op in MultilineOps(c, s)
    ensures OfType(op, "recombine")
  {}

  lemma SeverityType(c: Codec, s: ServiceSpec, op: Operator)
    requires op in SeverityOps(c, s)
    ensures OfType(op, "severity_parser")
  {}

  lemma TypesDiffer(op: Operator)
    requires OfType(op, "time_parser") || OfType(op, "recombine") || OfType(op, "severity_parser")
    ensures op != JSON_OP && !UnwrapsDocker(op) && !CapturesId(op)
  {}

  lemma OneLineChain(e: Engine, c: Codec, s: ServiceSpec, raw: string, parse: string -> map<string, string>)
    requires e == MergingEngine(e.isMatch, e.envelope, parse)
    requires s.parse == ParseJSON && s.rawOperators == [] && Is64Hex(s.containerID)
    ensures Chain(e, c, s, Log(PathOf(s), [raw])) == [Parsed(e, parse, s, raw)]
  {
    hide CONTAINER_OP, ID_OP, JSON_OP, UnwrapsDocker, CapturesId, Is64Hex, Chain, ParserOps, PathOf, Decoded, Merged;
    OperatorsDiffer();
    var log := Log(PathOf(s), [raw]);
    IdentityRecovered(e, c, s, log);
    var rs := DecodedLog(e, s, log);
    OthersKeep(e, c, s, Map(rs, Merged(parse)));
    assert rs == [Decoded(e, s)(raw)];
    var ops := ParserOps(c, s);
    assert ops[0] == JSON_OP && RunOperator(e, JSON_OP, rs) == Map(rs, Merged(parse));
    assert RunOperators(e, ops, rs) == RunOperators(e, ops[1..], Map(rs, Merged(parse)));
    assert Map(rs, Merged(parse)) == [Parsed(e, parse, s, raw)];
  }

  lemma GatherOne(r: Record, f: Record -> set<Delivery>)
    ensures Gather([r], f) == multiset(f(r))
  {
    assert [r][1..] == [];
  }

  /** One line is enough. A container whose text names another service is exported as that service;
      one whose text names nobody is lost, however much its own service wants it. */
  lemma JsonLineMisattributed(e: Engine, b: Knobs, c: Codec, spec: Spec, s: ServiceSpec, raw: string,
                              parse: string -> map<string, string>)
    requires Sound(c, spec) && Renderable(spec) && s in Tailable(spec) && Is64Hex(s.containerID)
    requires s.parse == ParseJSON && s.rawOperators == [] && e == MergingEngine(e.isMatch, e.envelope, parse)
    requires CONTAINER_ID in parse(TextOf(e, raw))
    ensures var out, r := Deliver(e, Compiled(b, c, spec), Log(PathOf(s), [raw])), Parsed(e, parse, s, raw);
      var id := parse(TextOf(e, raw))[CONTAINER_ID];
      && (forall t :: t in Tailable(spec) && t.containerID == id && Routed(t) ==>
            multiset(out) == multiset(ServiceMeaning(e, spec, t, r)))
      && ((forall t :: t in Tailable(spec) ==> t.containerID != id) ==> out == [])
  {
    hide Deliver, Compiled, Tailable, Renderable, Chain, Sound, PathOf, Is64Hex, ServiceMeaning, Routed, Parsed, TextOf,
         MergingEngine;
    ParsedFacts(e, parse, s, raw);
    var log, r := Log(PathOf(s), [raw]), Parsed(e, parse, s, raw);
    var id := parse(TextOf(e, raw))[CONTAINER_ID];
    OneLineChain(e, c, s, raw, parse);
    assert Has(r.attributes, CONTAINER_ID, id) && r.resource == map[];
    forall t | t in Tailable(spec) && t.containerID == id && Routed(t)
      ensures multiset(Deliver(e, Compiled(b, c, spec), log)) == multiset(ServiceMeaning(e, spec, t, r))
    {
      ClaimantTreats(e, b, c, spec, s, t, log);
      GatherOne(r, MeaningFor(e, spec, t));
    }
    if forall t :: t in Tailable(spec) ==> t.containerID != id {
      UnclaimedLost(e, b, c, spec, s, log);
    }
  }
}
