/** What a Spec means for one record, said without any collector configuration: whether the
    record is kept, and which resource attributes it ends up with. */
module Meaning {
  import opened Wrappers
  import opened Sorting
  import opened Strings
  import opened Backend
  import opened Ottl
  import opened Collector
  import opened Render
  import Discovery

  // ----- keeping and dropping -----

  /** The rank of a level name among trace, debug, info, warn, error, fatal. */
  function LevelRank(name: string): Option<nat> {
    if name == "trace" then Some(0)
    else if name == "debug" then Some(1)
    else if name == "info" then Some(2)
    else if name == "warn" then Some(3)
    else if name == "error" then Some(4)
    else if name == "fatal" then Some(5)
    else None
  }

  /** Severity numbers 1-4 are trace, 5-8 debug, and so on, four to a level. */
  function SeverityRank(severity: int): int { (severity - 1) / 4 }

  predicate Has(m: map<string, string>, k: string, v: string) { k in m && m[k] == v }

  predicate StreamKept(s: ServiceSpec, r: Record) {
    match s.stream
    case StreamBoth => true
    case StreamStdout => !Has(r.attributes, IOSTREAM, "stderr")
    case StreamStderr => !Has(r.attributes, IOSTREAM, "stdout")
  }

  /** An unparsed severity (0) is never below the floor. */
  predicate FloorKept(s: ServiceSpec, r: Record) {
    match LevelRank(s.levelMin)
    case None => true
    case Some(rank) => r.severity == 0 || SeverityRank(r.severity) >= rank
  }

  predicate BodyKept(e: Engine, s: ServiceSpec, r: Record) {
    forall p :: p in s.drop ==> !e.isMatch(r.body, p)
  }

  predicate Kept(e: Engine, s: ServiceSpec, r: Record) {
    StreamKept(s, r) && FloorKept(s, r) && BodyKept(e, s, r)
  }

  /** The numeric floors are exactly the lowest numbers of their levels. */
  lemma SeverityFloorIsRank(min: string, severity: int)
    ensures SeverityFloor(min).Some? <==> LevelRank(min).Some?
    ensures SeverityFloor(min).Some? ==>
      (severity < SeverityFloor(min).value <==> SeverityRank(severity) < LevelRank(min).value)
  {}

  ghost predicate Claims(s: ServiceSpec, r: Record) { Has(r.attributes, CONTAINER_ID, s.containerID) }

  predicate AllHold(e: Engine, atoms: seq<Atom>, r: Record) {
    forall a :: a in atoms ==> Holds(e, a, r.attributes, r.severity, r.body)
  }

  lemma ConditionMeans(e: Engine, atoms: seq<Atom>, r: Record)
    requires |atoms| > 0
    ensures LogCondition(e, PrintCond(atoms), r) <==> AllHold(e, atoms, r)
  {
    hide PrintCondition, ReadCondition, Holds;
    ReadConditionPrinted(atoms);
  }

  ghost predicate SomeHolds(e: Engine, conds: seq<seq<Atom>>, r: Record) {
    exists i :: 0 <= i < |conds| && AllHold(e, conds[i], r)
  }

  lemma CondsNonEmpty(s: ServiceSpec)
    ensures forall i :: 0 <= i < |Conds(s)| ==> |Conds(s)[i]| > 0 && Conds(s)[i][0] == IdAtom(s)
  {}

  lemma PrintedMeans(e: Engine, s: ServiceSpec, r: Record)
    ensures (exists t :: t in PrintedConds(s) && LogCondition(e, t, r)) <==> SomeHolds(e, Conds(s), r)
  {
    hide PrintCond, AllHold, LogCondition, Conds;
    CondsNonEmpty(s);
    forall i | 0 <= i < |Conds(s)|
      ensures PrintedConds(s)[i] == PrintCond(Conds(s)[i]) && PrintedConds(s)[i] in PrintedConds(s)
      ensures LogCondition(e, PrintedConds(s)[i], r) <==> AllHold(e, Conds(s)[i], r)
    {
      ConditionMeans(e, Conds(s)[i], r);
    }
    if t :| t in PrintedConds(s) && LogCondition(e, t, r) {
      var i :| 0 <= i < |Conds(s)| && PrintedConds(s)[i] == t;
      assert AllHold(e, Conds(s)[i], r);
    }
  }

  lemma PairHolds(e: Engine, a: Atom, b: Atom, r: Record)
    ensures AllHold(e, [a, b], r) <==>
      Holds(e, a, r.attributes, r.severity, r.body) && Holds(e, b, r.attributes, r.severity, r.body)
  {
    hide Holds;
    assert a in [a, b] && b in [a, b];
  }

  lemma StreamCondsMean(e: Engine, s: ServiceSpec, r: Record)
    requires Claims(s, r)
    ensures SomeHolds(e, StreamConds(s), r) <==> !StreamKept(s, r)
  {
    PairHolds(e, IdAtom(s), AttrIs(IOSTREAM, "stderr"), r);
    PairHolds(e, IdAtom(s), AttrIs(IOSTREAM, "stdout"), r);
    if s.stream != StreamBoth {
      assert AllHold(e, StreamConds(s)[0], r) <==> !StreamKept(s, r);
    }
  }

  lemma FloorCondsMean(e: Engine, s: ServiceSpec, r: Record)
    requires Claims(s, r)
    ensures SomeHolds(e, FloorConds(s), r) <==> !FloorKept(s, r)
  {
    hide SeverityFloor, LevelRank, SeverityRank;
    SeverityFloorIsRank(s.levelMin, r.severity);
    match SeverityFloor(s.levelMin)
    case None =>
    case Some(n) =>
      var atoms := [IdAtom(s), SeveritySet, SeverityBelow(n)];
      assert FloorConds(s)[0] == atoms;
      assert IdAtom(s) in atoms && SeveritySet in atoms && SeverityBelow(n) in atoms;
      assert AllHold(e, atoms, r) <==> r.severity != 0 && r.severity < n;
  }

  lemma DropCondsMean(e: Engine, s: ServiceSpec, r: Record)
    requires Claims(s, r)
    ensures SomeHolds(e, Map(s.drop, DropCond(s)), r) <==> !BodyKept(e, s, r)
  {
    var conds := Map(s.drop, DropCond(s));
    forall i | 0 <= i < |s.drop| ensures AllHold(e, conds[i], r) <==> e.isMatch(r.body, s.drop[i]) {
      PairHolds(e, IdAtom(s), BodyMatches(s.drop[i]), r);
    }
    if !BodyKept(e, s, r) {
      var p :| p in s.drop && e.isMatch(r.body, p);
      var i :| 0 <= i < |s.drop| && s.drop[i] == p;
      assert AllHold(e, conds[i], r);
    }
  }

  lemma SomeHoldsConcat(e: Engine, xs: seq<seq<Atom>>, ys: seq<seq<Atom>>, r: Record)
    ensures SomeHolds(e, xs + ys, r) <==> SomeHolds(e, xs, r) || SomeHolds(e, ys, r)
  {
    hide AllHold;
    forall i | 0 <= i < |ys| ensures (xs + ys)[|xs| + i] == ys[i] {}
    if SomeHolds(e, xs, r) {
      var i :| 0 <= i < |xs| && AllHold(e, xs[i], r);
      assert AllHold(e, (xs + ys)[i], r);
    }
    if SomeHolds(e, ys, r) {
      var i :| 0 <= i < |ys| && AllHold(e, ys[i], r);
      assert AllHold(e, (xs + ys)[|xs| + i], r);
    }
  }

  /** On a service's own records its drop conditions fire exactly when the Spec drops. */
  lemma OwnCondsMean(e: Engine, s: ServiceSpec, r: Record)
    requires Claims(s, r)
    ensures SomeHolds(e, Conds(s), r) <==> !Kept(e, s, r)
  {
    hide SomeHolds, Claims, StreamKept, FloorKept, BodyKept, StreamConds, FloorConds;
    StreamCondsMean(e, s, r);
    FloorCondsMean(e, s, r);
    DropCondsMean(e, s, r);
    SomeHoldsConcat(e, StreamConds(s), FloorConds(s), r);
    SomeHoldsConcat(e, StreamConds(s) + FloorConds(s), Map(s.drop, DropCond(s)), r);
  }

  /** On anyone else's they never fire. */
  lemma ForeignCondsSilent(e: Engine, s: ServiceSpec, r: Record)
    requires !Claims(s, r)
    ensures !SomeHolds(e, Conds(s), r)
  {
    hide Conds;
    CondsNonEmpty(s);
    forall i | 0 <= i < |Conds(s)| ensures !AllHold(e, Conds(s)[i], r) {
      assert IdAtom(s) in Conds(s)[i];
    }
  }

  /** The merged filter processor drops a record exactly when the one service that claims it
      does; a record nobody claims passes. */
  lemma FilterMeans(e: Engine, services: seq<ServiceSpec>, r: Record)
    requires Discovery.DistinctIds(services)
    ensures (exists t :: t in FlatMap(services, PrintedConds) && LogCondition(e, t, r))
      <==> exists s :: s in services && Claims(s, r) && !Kept(e, s, r)
  {
    hide LogCondition, PrintedConds, Kept, SomeHolds, Conds, Claims;
    FlatMapElems(services, PrintedConds);
    forall s ensures (exists t :: t in PrintedConds(s) && LogCondition(e, t, r))
      <==> Claims(s, r) && !Kept(e, s, r)
    {
      PrintedMeans(e, s, r);
      if Claims(s, r) { OwnCondsMean(e, s, r); } else { ForeignCondsSilent(e, s, r); }
    }
    if t :| t in FlatMap(services, PrintedConds) && LogCondition(e, t, r) {
      var s :| s in services && t in PrintedConds(s);
      assert Claims(s, r) && !Kept(e, s, r);
    }
    if s :| s in services && Claims(s, r) && !Kept(e, s, r) {
      var t :| t in PrintedConds(s) && LogCondition(e, t, r);
      assert t in FlatMap(services, PrintedConds);
    }
  }

  // ----- resource attributes -----

  function OptAttr(k: string, v: string): map<string, string> { if v == "" then map[] else map[k := v] }

  function Identity(s: ServiceSpec): map<string, string> {
    map["service.name" := s.name] + OptAttr("service.namespace", s.composeProject)
    + map["container.id" := s.containerID] + OptAttr("container.name", s.containerName)
    + OptAttr("container.image.name", s.image)
  }

  /** Everything stamped on a service's records: the routing key over the static attributes
      over the identity. */
  ghost function Stamped(s: ServiceSpec): map<string, string> {
    Identity(s) + s.staticAttrs + (if Routed(s) then map[ROUTING_KEY := Key(s)] else map[])
  }

  function SetAll(pairs: seq<(string, string)>, m: map<string, string>): map<string, string> {
    if |pairs| == 0 then m else SetAll(pairs[1..], m[pairs[0].0 := pairs[0].1])
  }

  lemma {:induction false} StatementsMean(pairs: seq<(string, string)>, m: map<string, string>)
    ensures RunStatements(Map(pairs, PrintPair), m) == SetAll(pairs, m)
  {
    hide ReadSet, PrintSet;
    if |pairs| > 0 {
      ReadSetPrinted(pairs[0].0, pairs[0].1);
      assert Map(pairs, PrintPair)[1..] == Map(pairs[1..], PrintPair);
      StatementsMean(pairs[1..], m[pairs[0].0 := pairs[0].1]);
    }
  }

  lemma {:induction false} SetAllConcat(xs: seq<(string, string)>, ys: seq<(string, string)>, m: map<string, string>)
    ensures SetAll(xs + ys, m) == SetAll(ys, SetAll(xs, m))
  {
    if |xs| == 0 {
      assert xs + ys == ys;
    } else {
      assert (xs + ys)[1..] == xs[1..] + ys;
      SetAllConcat(xs[1..], ys, m[xs[0].0 := xs[0].1]);
    }
  }

  ghost function Only(attrs: map<string, string>, keys: set<string>): map<string, string> {
    map k | k in keys && k in attrs :: attrs[k]
  }

  lemma OnlyStep(attrs: map<string, string>, keys: set<string>, k: string, m: map<string, string>)
    requires k in attrs
    ensures m[k := attrs[k]] + Only(attrs, keys) == m + Only(attrs, {k} + keys)
  {}

  lemma {:induction false} SetAllStatic(attrs: map<string, string>, keys: seq<string>, m: map<string, string>)
    requires forall k :: k in keys ==> k in attrs
    ensures SetAll(Map(keys, PairIn(attrs)), m) == m + Only(attrs, Elems(keys))
  {
    hide Only;
    if |keys| == 0 {
      assert Elems(keys) == {};
      OnlyNothing(attrs);
    } else {
      var k := keys[0];
      assert k in keys;
      assert Map(keys, PairIn(attrs))[1..] == Map(keys[1..], PairIn(attrs));
      SetAllStatic(attrs, keys[1..], m[k := attrs[k]]);
      OnlyStep(attrs, Elems(keys[1..]), k, m);
      assert Elems(keys) == {k} + Elems(keys[1..]) by { assert keys == [k] + keys[1..]; }
    }
  }

  lemma OnlyNothing(attrs: map<string, string>)
    ensures Only(attrs, {}) == map[] && Only(attrs, attrs.Keys) == attrs
  {}

  lemma SetWhen(k: string, v: string, m: map<string, string>)
    ensures SetAll(When(k, v), m) == m + OptAttr(k, v)
    ensures SetAll([(k, v)], m) == m + map[k := v]
  {
    assert [(k, v)][1..] == [];
  }

  lemma MapAssoc(a: map<string, string>, b: map<string, string>, c: map<string, string>)
    ensures (a + b) + c == a + (b + c)
  {}

  lemma SetIdentity(s: ServiceSpec, m: map<string, string>)
    ensures SetAll(IdentityPairs(s), m) == m + Identity(s)
  {
    hide When, OptAttr, SetAll;
    var p1, p2 := [("service.name", s.name)], When("service.namespace", s.composeProject);
    var p3, p4 := [("container.id", s.containerID)], When("container.name", s.containerName);
    var p5 := When("container.image.name", s.image);
    var a1, a2 := map["service.name" := s.name], OptAttr("service.namespace", s.composeProject);
    var a3, a4 := map["container.id" := s.containerID], OptAttr("container.name", s.containerName);
    var a5 := OptAttr("container.image.name", s.image);
    SetAllConcat(p1, p2, m);
    SetAllConcat(p1 + p2, p3, m);
    SetAllConcat(p1 + p2 + p3, p4, m);
    SetAllConcat(p1 + p2 + p3 + p4, p5, m);
    SetWhen("service.name", s.name, m);
    SetWhen("service.namespace", s.composeProject, m + a1);
    SetWhen("container.id", s.containerID, m + a1 + a2);
    SetWhen("container.name", s.containerName, m + a1 + a2 + a3);
    SetWhen("container.image.name", s.image, m + a1 + a2 + a3 + a4);
    MapAssoc(m, a1, a2);
    MapAssoc(m, a1 + a2, a3);
    MapAssoc(m, a1 + a2 + a3, a4);
    MapAssoc(m, a1 + a2 + a3 + a4, a5);
  }

  /** Running a service's statements merges its stamps over what the record already had. */
  lemma PairsMean(s: ServiceSpec, m: map<string, string>)
    ensures SetAll(Pairs(s), m) == m + Stamped(s)
  {
    hide IdentityPairs, Identity, SetAll, Routed, Key;
    SetAllConcat(IdentityPairs(s), StaticPairs(s), m);
    SetAllConcat(IdentityPairs(s) + StaticPairs(s), RoutingPairs(s), m);
    SetIdentity(s, m);
    SetStatic(s, m + Identity(s));
    var routing := if Routed(s) then map[ROUTING_KEY := Key(s)] else map[];
    SetRouting(s, m + Identity(s) + s.staticAttrs);
    MapAssoc(m, Identity(s), s.staticAttrs);
    MapAssoc(m, Identity(s) + s.staticAttrs, routing);
  }

  lemma SetStatic(s: ServiceSpec, m: map<string, string>)
    ensures SetAll(StaticPairs(s), m) == m + s.staticAttrs
  {
    var keys := s.staticAttrs.Keys;
    assert Elems(SortedSet(keys)) == keys && forall k :: k in SortedSet(keys) ==> k in s.staticAttrs by {
      SortedSetFacts(keys);
    }
    SetAllStatic(s.staticAttrs, SortedSet(keys), m);
    OnlyNothing(s.staticAttrs);
  }

  lemma SetRouting(s: ServiceSpec, m: map<string, string>)
    ensures SetAll(RoutingPairs(s), m) == m + (if Routed(s) then map[ROUTING_KEY := Key(s)] else map[])
  {
    hide Routed, Key;
    SetAllNone(m);
    if Routed(s) {
      SetWhen(ROUTING_KEY, Key(s), m);
    }
  }

  lemma SetAllNone(m: map<string, string>)
    ensures SetAll([], m) == m
  {}

  lemma GuardMeans(e: Engine, s: ServiceSpec, r: Record)
    ensures (exists t :: t in GroupOf(s).conditions && LogCondition(e, t, r)) <==> Claims(s, r)
  {
    hide PrintAtom, ReadCondition;
    ConditionMeans(e, [IdAtom(s)], r);
    assert PrintCond([IdAtom(s)]) == ContainerIDCond(s);
    assert GroupOf(s).conditions == [ContainerIDCond(s)];
    assert IdAtom(s) in [IdAtom(s)];
  }

  lemma GroupMeans(e: Engine, s: ServiceSpec, r: Record)
    ensures RunGroup(e, GroupOf(s), r) ==
            if Claims(s, r) then r.(resource := r.resource + Stamped(s)) else r
  {
    hide LogCondition, Stamped, Pairs, Claims;
    GuardMeans(e, s, r);
    StatementsMean(Pairs(s), r.resource);
    PairsMean(s, r.resource);
  }

  lemma {:induction false} GroupsSilent(e: Engine, services: seq<ServiceSpec>, r: Record)
    requires forall s :: s in services ==> !Claims(s, r)
    ensures RunGroups(e, Map(services, GroupOf), r) == r
  {
    hide GroupOf, Claims;
    if |services| > 0 {
      assert services[0] in services;
      GroupMeans(e, services[0], r);
      assert Map(services, GroupOf)[1..] == Map(services[1..], GroupOf);
      GroupsSilent(e, services[1..], r);
    }
  }

  lemma GroupsStep(e: Engine, services: seq<ServiceSpec>, r: Record)
    requires |services| > 0
    ensures RunGroups(e, Map(services, GroupOf), r)
            == RunGroups(e, Map(services[1..], GroupOf), RunGroup(e, GroupOf(services[0]), r))
  {
    hide GroupOf, RunGroup;
    assert Map(services, GroupOf)[1..] == Map(services[1..], GroupOf);
  }

  /** A record names one container, and its resource has no say in which. */
  lemma ClaimsOne(s: ServiceSpec, t: ServiceSpec, r: Record, resource: map<string, string>)
    requires Claims(t, r)
    ensures Claims(s, r) <==> s.containerID == t.containerID
    ensures Claims(s, r.(resource := resource)) <==> Claims(s, r)
  {}

  /** The merged transform processor stamps a record with the attributes of the one service
      that claims it. */
  lemma {:induction false} GroupsMean(e: Engine, services: seq<ServiceSpec>, t: ServiceSpec, r: Record)
    requires Discovery.DistinctIds(services) && t in services && Claims(t, r)
    ensures RunGroups(e, Map(services, GroupOf), r) == r.(resource := r.resource + Stamped(t))
  {
    hide GroupOf, Stamped, RunGroup, RunGroups, Claims;
    var rest := services[1..];
    GroupsStep(e, services, r);
    GroupMeans(e, services[0], r);
    if services[0] == t {
      var resource := r.resource + Stamped(t);
      forall s | s in rest ensures !Claims(s, r.(resource := resource)) {
        ClaimsOne(s, t, r, resource);
        var i :| 0 <= i < |rest| && rest[i] == s;
        assert services[i + 1] == s;
      }
      GroupsSilent(e, rest, r.(resource := resource));
    } else {
      var i :| 0 <= i < |services| && services[i] == t;
      assert rest[i - 1] == t;
      ClaimsOne(services[0], t, r, r.resource);
      GroupsMean(e, rest, t, r);
    }
  }
}
