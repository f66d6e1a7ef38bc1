/** internal/backend/otelcol/apply.go: making a rendered configuration live, against a runtime
    whose answers are arbitrary. */
module Apply {
  import opened Wrappers
  import opened Sorting
  import opened Strings
  import opened Host
  import Labels
  import Paths

  // ----- container state -----

  datatype Health = Running | Dead | Other

  function NormalizeState(s: string): string { ToLower(TrimSpace(s)) }

  function HealthOf(c: Container): Health {
    var s := NormalizeState(c.state);
    if s == "running" then Running else if s == "exited" || s == "dead" then Dead else Other
  }

  /** The state text says the container runs. */
  ghost predicate ReadsRunning(c: Container) { Reads(c.state, "running") }

  /** The state text says it has exited or is dead. */
  ghost predicate ReadsDead(c: Container) { Reads(c.state, "exited") || Reads(c.state, "dead") }

  lemma HealthExact(c: Container)
    ensures HealthOf(c) == Running <==> ReadsRunning(c)
    ensures HealthOf(c) == Dead <==> ReadsDead(c)
  {
    hide ToLower, TrimSpace, Reads;
    ReadsExact(c.state, "running");
    ReadsExact(c.state, "exited");
    ReadsExact(c.state, "dead");
  }

  // ----- watching -----

  datatype Verdict = StayedRunning | Died | Uncertain

  type Observation = Option<Container>

  predicate SawDeath(o: Observation) { o.Some? && HealthOf(o.value) == Dead }

  /** The health of the last inspection that succeeded. */
  function LastHealth(obs: seq<Observation>): Option<Health> {
    if |obs| == 0 then None
    else if obs[|obs| - 1].Some? then Some(HealthOf(obs[|obs| - 1].value))
    else LastHealth(obs[..|obs| - 1])
  }

  /** Died when any observation was a death; else running when the last successful one was. */
  ghost function VerdictOf(obs: seq<Observation>): Verdict {
    if exists i :: 0 <= i < |obs| && SawDeath(obs[i]) then Died
    else if LastHealth(obs) == Some(Running) then StayedRunning
    else Uncertain
  }

  /** Some answer shows the container exited or dead. */
  ghost predicate ShowsDeath(obs: seq<Observation>) {
    exists i :: 0 <= i < |obs| && obs[i].Some? && ReadsDead(obs[i].value)
  }

  /** The last answer there is shows the container running. */
  ghost predicate EndsRunning(obs: seq<Observation>) {
    exists i :: 0 <= i < |obs| && obs[i].Some? && ReadsRunning(obs[i].value)
                && forall j :: i < j < |obs| ==> obs[j].None?
  }

  lemma {:induction false} LastHealthExact(obs: seq<Observation>, h: Health)
    ensures LastHealth(obs) == Some(h) <==>
      exists i :: 0 <= i < |obs| && obs[i].Some? && HealthOf(obs[i].value) == h
                  && forall j :: i < j < |obs| ==> obs[j].None?
  {
    hide HealthOf;
    if |obs| > 0 {
      var n := |obs| - 1;
      LastHealthExact(obs[..n], h);
      if obs[n].None? {
        if LastHealth(obs[..n]) == Some(h) {
          var i :| 0 <= i < n && obs[..n][i].Some? && HealthOf(obs[..n][i].value) == h
                   && forall j :: i < j < n ==> obs[..n][j].None?;
          forall j | i < j < |obs| ensures obs[j].None? {
            if j < n { assert obs[j] == obs[..n][j]; }
          }
          assert obs[i] == obs[..n][i];
        }
        if i :| 0 <= i < |obs| && obs[i].Some? && HealthOf(obs[i].value) == h && forall j :: i < j < |obs| ==> obs[j].None? {
          assert obs[..n][i] == obs[i] && forall j :: i < j < n ==> obs[..n][j] == obs[j];
        }
      }
    }
  }

  /** The verdict, over what the inspections said: died iff one said exited or dead; otherwise
      running iff the last that answered said so; uncertain in every other case. */
  lemma VerdictExact(obs: seq<Observation>)
    ensures VerdictOf(obs) == Died <==> ShowsDeath(obs)
    ensures VerdictOf(obs) == StayedRunning <==> !ShowsDeath(obs) && EndsRunning(obs)
  {
    hide HealthOf, ReadsRunning, ReadsDead;
    LastHealthExact(obs, Running);
    forall c { HealthExact(c); }
  }

  /** Inspections with a completed wait between one and the next. */
  function WatchTrace(id: string, obs: seq<Observation>): seq<Event> {
    if |obs| == 0 then []
    else if |obs| == 1 then [Inspected(id, obs[0])]
    else WatchTrace(id, obs[..|obs| - 1]) + [Waited(false), Inspected(id, obs[|obs| - 1])]
  }

  /** One watch: what was observed, and whether a cancelled context ended it. */
  datatype Watch = Watch(obs: seq<Observation>, cancelled: bool)

  function TraceOfWatch(id: string, w: Watch): seq<Event> {
    WatchTrace(id, w.obs) + (if w.cancelled then [Waited(true)] else [])
  }

  /** A watch stops at the first death, so only its last observation can be one. */
  ghost predicate ValidWatch(w: Watch) {
    && |w.obs| > 0
    && (forall i :: 0 <= i < |w.obs| - 1 ==> !SawDeath(w.obs[i]))
    && (w.cancelled ==> !SawDeath(w.obs[|w.obs| - 1]))
  }

  const POLL_INTERVAL: nat := 250_000_000
  const DEFAULT_RELOAD_WAIT: nat := 5_000_000_000

  function Ceil(a: nat, b: nat): nat
    requires b > 0
  {
    (a + b - 1) / b
  }

  lemma MulMono(a: nat, b: nat, c: nat)
    requires a <= b
    ensures a * c <= b * c
  {}

  lemma BelowCeil(n: nat, window: nat, interval: nat)
    requires interval > 0 && n > 0 && (n - 1) * interval < window
    ensures n <= Ceil(window, interval)
  {
    var q := Ceil(window, interval);
    assert q * interval + interval > window + interval - 1;
    if q < n {
      MulMono(q, n - 1, interval);
      assert false;
    }
  }

  lemma WatchTraceSnoc(id: string, obs: seq<Observation>, o: Observation)
    ensures WatchTrace(id, obs + [o]) == Resumed(id, obs) + [Inspected(id, o)]
  {
    assert (obs + [o])[..|obs|] == obs;
  }

  /** The interactions of a watch that goes on: the next one is an inspection. */
  function Resumed(id: string, obs: seq<Observation>): seq<Event> {
    WatchTrace(id, obs) + (if |obs| > 0 then [Waited(false)] else [])
  }

  lemma LastHealthSnoc(obs: seq<Observation>, o: Observation)
    ensures LastHealth(obs + [o]) == if o.Some? then Some(HealthOf(o.value)) else LastHealth(obs)
  {
    assert (obs + [o])[..|obs|] == obs;
  }

  ghost predicate NoDeath(obs: seq<Observation>) {
    forall i :: 0 <= i < |obs| ==> !SawDeath(obs[i])
  }

  lemma VerdictSnoc(obs: seq<Observation>, o: Observation)
    requires NoDeath(obs)
    ensures VerdictOf(obs + [o]) ==
      if SawDeath(o) then Died
      else if LastHealth(obs + [o]) == Some(Running) then StayedRunning else Uncertain
    ensures !SawDeath(o) ==> NoDeath(obs + [o])
    ensures SawDeath(o) ==> ValidWatch(Watch(obs + [o], false))
    ensures !SawDeath(o) ==> ValidWatch(Watch(obs + [o], false)) && ValidWatch(Watch(obs + [o], true))
  {
    hide HealthOf;
    assert (obs + [o])[|obs|] == o;
  }

  /** Poll until the window elapses, the container is seen dead, or the context is cancelled, and not
      before. It makes at most one inspection per interval of the window, and one more. */
  method WatchState(host: Host, id: string, window: nat) returns (verdict: Verdict, ghost w: Watch)
    requires window > 0
    modifies host`trace, host`now
    ensures ValidWatch(w) && verdict == VerdictOf(w.obs)
    ensures verdict == Died <==> ShowsDeath(w.obs)
    ensures verdict == StayedRunning <==> !ShowsDeath(w.obs) && EndsRunning(w.obs)
    ensures host.trace == old(host.trace) + TraceOfWatch(id, w)
    ensures |w.obs| <= Ceil(window, if window < 250_000_000 then window else 250_000_000) + 1
    ensures host.now >= old(host.now) + (if verdict != Died && !w.cancelled then window else 0)
  {
    hide HealthOf, WatchTrace, LastHealth, VerdictOf, ValidWatch, Ceil, NoDeath, Paced, ShowsDeath, EndsRunning;
    var deadline := host.now + window;
    var interval := POLL_INTERVAL;
    if interval > window {
      interval := window;
    }
    var lastRunning := false;
    var sawAny := false;
    ghost var obs: seq<Observation> := [];
    ghost var waited: nat := 0;
    ghost var before, start := host.trace, host.now;
    NothingSeen(id);
    w := Watch([], false);
    while true
      invariant host.trace == before + Resumed(id, obs) && NoDeath(obs)
      invariant sawAny <==> LastHealth(obs).Some?
      invariant lastRunning <==> LastHealth(obs) == Some(Running)
      invariant Paced(|obs|, waited, interval, window) && host.now >= start + waited
      decreases if host.now < deadline then deadline - host.now else 0
    {
      var col := host.Inspect(id);
      ObserveOne(id, obs, col, waited, interval, window);
      obs := obs + [col];
      if col.Some? {
        sawAny := true;
        match HealthOf(col.value) {
          case Running => lastRunning := true;
          case Dead =>
            verdict, w := Died, Watch(obs, false);
            break;
          case Other => lastRunning := false;
        }
      }
      if host.now >= deadline {
        verdict, w := if sawAny && lastRunning then StayedRunning else Uncertain, Watch(obs, false);
        break;
      }
      var cancelled := host.Wait(interval);
      if cancelled {
        verdict, w := if lastRunning then StayedRunning else Uncertain, Watch(obs, true);
        break;
      }
      waited := waited + interval;
    }
    VerdictExact(w.obs);
  }

  /** After `n` waits of `interval`, the last of them begun inside the window. */
  ghost predicate Paced(n: nat, waited: nat, interval: nat, window: nat) {
    waited == n * interval && (n > 0 ==> waited - interval < window)
  }

  lemma ObserveOne(id: string, obs: seq<Observation>, o: Observation, waited: nat, interval: nat, window: nat)
    requires NoDeath(obs) && interval > 0 && Paced(|obs|, waited, interval, window)
    ensures WatchTrace(id, obs + [o]) == Resumed(id, obs) + [Inspected(id, o)]
    ensures LastHealth(obs + [o]) == if o.Some? then Some(HealthOf(o.value)) else LastHealth(obs)
    ensures VerdictOf(obs + [o]) ==
      if SawDeath(o) then Died
      else if LastHealth(obs + [o]) == Some(Running) then StayedRunning else Uncertain
    ensures ValidWatch(Watch(obs + [o], false))
    ensures !SawDeath(o) ==> NoDeath(obs + [o]) && ValidWatch(Watch(obs + [o], true))
    ensures |obs| + 1 <= Ceil(window, interval) + 1
    ensures waited < window ==> Paced(|obs| + 1, waited + interval, interval, window)
  {
    hide HealthOf, WatchTrace, LastHealth, VerdictOf, ValidWatch, NoDeath, SawDeath, Ceil;
    WatchTraceSnoc(id, obs, o);
    LastHealthSnoc(obs, o);
    VerdictSnoc(obs, o);
    if |obs| > 0 {
      assert (|obs| - 1) * interval == waited - interval;
      BelowCeil(|obs|, window, interval);
    }
  }

  lemma NothingSeen(id: string)
    ensures WatchTrace(id, []) == [] && LastHealth([]) == None && NoDeath([])
    ensures forall interval, window :: Paced(0, 0, interval, window)
  {}

  // ----- finding the collector -----

  datatype Choice = Chosen(id: string) | Absent | NotRunning | Ambiguous | Disagreement

  predicate IsMarked(c: Container) { Labels.RawBool(c.labels, "collector") }

  predicate Matches(c: Container, reference: string) {
    || TrimSlash(c.name) == reference
    || c.id == reference
    || (|reference| >= 12 && reference <= c.id)
  }

  function FindByNameOrID(containers: seq<Container>, reference: string): Option<Container> {
    if |containers| == 0 then None
    else if Matches(containers[0], TrimSlash(reference)) then Some(containers[0])
    else FindByNameOrID(containers[1..], reference)
  }

  /** An empty id reads to the caller as nothing to signal. */
  function IfRunning(c: Container): Choice {
    if HealthOf(c) == Running && c.id != "" then Chosen(c.id) else NotRunning
  }

  function Choose(containers: seq<Container>, collectorName: string): Choice {
    var marked := Filter(containers, IsMarked);
    var named := if collectorName == "" then None else FindByNameOrID(containers, collectorName);
    if |marked| > 1 then Ambiguous
    else if |marked| == 1 then
      if named.Some? && named.value.id != marked[0].id then Disagreement else IfRunning(marked[0])
    else if named.Some? then IfRunning(named.value)
    else Absent
  }

  /** The fallback name picks the first container it matches. */
  lemma {:induction false} FindFirst(containers: seq<Container>, reference: string)
    ensures var r := FindByNameOrID(containers, reference);
      if r.None? then forall c :: c in containers ==> !Matches(c, TrimSlash(reference))
      else exists i :: 0 <= i < |containers| && containers[i] == r.value
             && Matches(containers[i], TrimSlash(reference))
             && forall j :: 0 <= j < i ==> !Matches(containers[j], TrimSlash(reference))
  {
    hide Matches;
    if |containers| > 0 {
      assert containers == [containers[0]] + containers[1..];
      if !Matches(containers[0], TrimSlash(reference)) {
        FindFirst(containers[1..], reference);
        if r :| FindByNameOrID(containers[1..], reference) == Some(r) {
          var i :| 0 <= i < |containers[1..]| && containers[1..][i] == r
                   && Matches(containers[1..][i], TrimSlash(reference))
                   && forall j :: 0 <= j < i ==> !Matches(containers[1..][j], TrimSlash(reference));
          assert containers[i + 1] == r;
          forall j | 0 <= j < i + 1 ensures !Matches(containers[j], TrimSlash(reference)) {
            if j > 0 { assert containers[j] == containers[1..][j - 1]; }
          }
        }
      }
    }
  }

  /** The container a signal may go to: listed as running, and either the only marked one, with
      the configured name not pointing elsewhere, or named while nothing is marked. */
  ghost predicate Unambiguous(containers: seq<Container>, collectorName: string, id: string) {
    var marked := Filter(containers, IsMarked);
    exists c :: c in containers && c.id == id && ReadsRunning(c)
      && ((marked == [c] && (collectorName != "" ==> forall o :: FindByNameOrID(containers, collectorName) == Some(o) ==> o.id == id))
          || (marked == [] && collectorName != "" && FindByNameOrID(containers, collectorName) == Some(c)))
  }

  lemma ChosenIsUnambiguous(containers: seq<Container>, collectorName: string, id: string)
    requires Choose(containers, collectorName) == Chosen(id)
    ensures Unambiguous(containers, collectorName, id)
  {
    hide HealthOf, IsMarked, FindByNameOrID, ReadsRunning;
    forall c { HealthExact(c); }
    var marked := Filter(containers, IsMarked);
    if |marked| == 1 {
      assert marked[0] in marked && marked == [marked[0]];
      assert marked[0] in containers;
    } else {
      assert marked == [];
      var c := FindByNameOrID(containers, collectorName).value;
      assert c in containers by { FindFirst(containers, collectorName); }
    }
  }

  /** When each choice is made: exactly. */
  lemma ChoiceExact(containers: seq<Container>, collectorName: string)
    ensures var choice, marked := Choose(containers, collectorName), Filter(containers, IsMarked);
      var named := collectorName != "" && FindByNameOrID(containers, collectorName).Some?;
      && (forall id :: choice == Chosen(id) <==> Unambiguous(containers, collectorName, id) && id != "")
      && (choice == Ambiguous <==> |marked| > 1)
      && (choice == Disagreement <==>
            |marked| == 1 && named && FindByNameOrID(containers, collectorName).value.id != marked[0].id)
      && (choice == Absent <==> marked == [] && !named)
  {
    hide HealthOf, IsMarked, FindByNameOrID, ReadsRunning;
    forall c { HealthExact(c); }
    forall id | Choose(containers, collectorName) == Chosen(id) ensures Unambiguous(containers, collectorName, id) {
      ChosenIsUnambiguous(containers, collectorName, id);
    }
  }

  /** The marker, spelled out. */
  lemma MarkedExact(c: Container)
    ensures IsMarked(c) <==>
      Labels.SaysTrue(c.labels, "bilgeline.collector") || Labels.SaysTrue(c.labels, "tagwright.log.collector")
  {
    Labels.RawBoolExact(c.labels, "collector");
    assert "bilgeline." + "collector" == "bilgeline.collector";
    assert "tagwright.log." + "collector" == "tagwright.log.collector";
  }

  ghost predicate Names(n: string, c: Container) {
    Slashed(c.name, n) || c.id == n || (|n| >= 12 && exists t :: c.id == n + t)
  }

  /** A reference names a container by name, by id, or by at least twelve characters of the id. */
  lemma ReferenceExact(c: Container, reference: string)
    ensures Matches(c, TrimSlash(reference)) <==> exists n :: Slashed(reference, n) && Names(n, c)
  {
    SlashedExact(reference);
    SlashedExact(c.name);
    var n := TrimSlash(reference);
    assert Slashed(reference, n);
    if |n| >= 12 && n <= c.id { assert c.id == n + c.id[|n|..]; }
  }

  method FindCollector(host: Host, collectorName: string) returns (r: Option<Choice>, ghost fleet: Option<seq<Container>>)
    modifies host`trace
    ensures host.trace == old(host.trace) + [Listed(fleet)]
    ensures r == if fleet.None? then None else Some(Choose(fleet.value, collectorName))
  {
    hide HealthOf, IsMarked, FindByNameOrID;
    var listing := host.List();
    fleet := listing;
    if listing.None? {
      return None, fleet;
    }
    var containers := listing.value;
    var marked: seq<Container> := [];
    for i := 0 to |containers|
      invariant marked == Filter(containers[..i], IsMarked)
      invariant host.trace == old(host.trace) + [Listed(fleet)]
    {
      assert containers[..i + 1] == containers[..i] + [containers[i]];
      FilterSnoc(containers[..i], containers[i], IsMarked);
      if IsMarked(containers[i]) {
        marked := marked + [containers[i]];
      }
    }
    assert containers[..|containers|] == containers;
    if |marked| > 1 {
      return Some(Ambiguous), fleet;
    }
    var chosen: Option<Container> := None;
    if |marked| == 1 {
      chosen := Some(marked[0]);
      if collectorName != "" {
        var other := FindByNameOrID(containers, collectorName);
        if other.Some? && other.value.id != marked[0].id {
          return Some(Disagreement), fleet;
        }
      }
    } else if collectorName != "" {
      chosen := FindByNameOrID(containers, collectorName);
    }
    if chosen.None? {
      return Some(Absent), fleet;
    }
    return Some(IfRunning(chosen.value)), fleet;
  }

  // ----- env preflight -----

  /** The name part of a NAME=value entry. */
  function EnvName(entry: string): string { Split(entry, '=')[0] }

  /** Only the text before the first '=' counts, and all of an entry without one. */
  lemma EnvNameExact(name: string, value: string)
    requires '=' !in name
    ensures EnvName(name + "=" + value) == name && EnvName(name) == name
  {
    SplitAt(name, value, '=');
    SplitPlain(name, '=');
    assert name + ['='] + value == name + "=" + value;
  }

  function Unset(env: seq<string>): string -> bool {
    (n: string) => forall e :: e in env ==> EnvName(e) != n
  }

  /** The referenced names, each once and sorted, that the collector's environment lacks. */
  method EnvPreflight(refs: seq<string>, env: seq<string>) returns (missing: seq<string>)
    ensures missing == Filter(SortedSet(Elems(refs)), Unset(env))
  {
    var names := ReferencedNames(refs);
    var present: set<string> := {};
    for i := 0 to |env|
      invariant present == set e | e in env[..i] :: EnvName(e)
    {
      assert env[..i + 1] == env[..i] + [env[i]];
      present := present + {EnvName(env[i])};
    }
    assert env[..|env|] == env;
    assert forall n :: n !in present <==> Unset(env)(n);
    missing := [];
    for i := 0 to |names|
      invariant missing == Filter(names[..i], Unset(env))
    {
      assert names[..i + 1] == names[..i] + [names[i]];
      FilterSnoc(names[..i], names[i], Unset(env));
      if names[i] !in present {
        missing := missing + [names[i]];
      }
    }
    assert names[..|names|] == names;
  }

  method ReferencedNames(refs: seq<string>) returns (names: seq<string>)
    ensures names == SortedSet(Elems(refs))
  {
    var seen: set<string> := {};
    var out: seq<string> := [];
    for i := 0 to |refs|
      invariant seen == Elems(refs[..i]) == Elems(out) && NoDup(out)
    {
      assert refs[..i + 1] == refs[..i] + [refs[i]];
      if refs[i] !in seen {
        out := out + [refs[i]];
      }
      seen := seen + {refs[i]};
    }
    assert refs[..|refs|] == refs;
    SortIsSortedSet(out);
    names := Sort(out, StrLe);
  }

  // ----- one application -----

  datatype Action = Reloaded | RestartedIt | WrittenOnly

  /** ApplyResult and error: no action when the write failed. */
  datatype Report = Report(action: Option<Action>, failed: bool, missing: seq<string>)

  datatype Settings = Settings(
    sharedConfigPath: string,
    collectorName: string,
    reloadWait: int,
    hasRuntime: bool,
    envRefs: string -> seq<string>)

  function SharedPath(s: Settings): (path: string)
    ensures path != "" && (s.sharedConfigPath != "" ==> path == s.sharedConfigPath)
    ensures s.sharedConfigPath == "" ==> path == "/config/otelcol.yaml"
  {
    if s.sharedConfigPath == "" then "/config/otelcol.yaml" else s.sharedConfigPath
  }

  /** How far an application got, with everything it was told on the way. */
  datatype Story =
    | WriteFailed
    | NoRuntime
    | NotFound(fleet: Option<seq<Container>>)
    | Uninspectable(fleet: Option<seq<Container>>, id: string)
    | Unmounted(fleet: Option<seq<Container>>, id: string, col: Container)
    | Unsignalled(fleet: Option<seq<Container>>, id: string, col: Container)
    | Settled(fleet: Option<seq<Container>>, id: string, col: Container, first: Watch)
    | Unrestarted(fleet: Option<seq<Container>>, id: string, col: Container, first: Watch)
    | Rewatched(fleet: Option<seq<Container>>, id: string, col: Container, first: Watch, second: Watch)

  /** The story continues past the collector's selection only for a chosen id, and past the mount
      guard only for a container that mounts the shared path. */
  ghost predicate Possible(s: Settings, story: Story) {
    match story
    case WriteFailed => true
    case NoRuntime => !s.hasRuntime
    case NotFound(fleet) => s.hasRuntime && (fleet.Some? ==> !Choose(fleet.value, s.collectorName).Chosen?)
    case Uninspectable(fleet, id) => Selected(s, fleet, id)
    case Unmounted(fleet, id, col) => Selected(s, fleet, id) && !Paths.MountsSharedPath(col.mounts, SharedPath(s))
    case Unsignalled(fleet, id, col) => Signalable(s, fleet, id, col)
    case Settled(fleet, id, col, first) =>
      Signalable(s, fleet, id, col) && ValidWatch(first) && VerdictOf(first.obs) != Died
    case Unrestarted(fleet, id, col, first) =>
      Signalable(s, fleet, id, col) && ValidWatch(first) && VerdictOf(first.obs) == Died
    case Rewatched(fleet, id, col, first, second) =>
      Signalable(s, fleet, id, col) && ValidWatch(first) && VerdictOf(first.obs) == Died && ValidWatch(second)
  }

  ghost predicate Selected(s: Settings, fleet: Option<seq<Container>>, id: string) {
    s.hasRuntime && fleet.Some? && Choose(fleet.value, s.collectorName) == Chosen(id)
  }

  ghost predicate Signalable(s: Settings, fleet: Option<seq<Container>>, id: string, col: Container) {
    Selected(s, fleet, id) && Paths.MountsSharedPath(col.mounts, SharedPath(s))
  }

  /** The interactions of a story, in order. */
  function StoryTrace(s: Settings, data: string, story: Story): seq<Event> {
    match story
    case WriteFailed => [Wrote(SharedPath(s), data, false)]
    case NoRuntime => [Wrote(SharedPath(s), data, true)]
    case NotFound(fleet) => [Wrote(SharedPath(s), data, true), Listed(fleet)]
    case Uninspectable(fleet, id) => [Wrote(SharedPath(s), data, true), Listed(fleet), Inspected(id, None)]
    case Unmounted(fleet, id, col) => Preamble(s, data, fleet, id, col)
    case Unsignalled(fleet, id, col) => Preamble(s, data, fleet, id, col) + [Killed(id, "SIGHUP", false)]
    case Settled(fleet, id, col, first) =>
      Preamble(s, data, fleet, id, col) + [Killed(id, "SIGHUP", true)] + TraceOfWatch(id, first)
    case Unrestarted(fleet, id, col, first) =>
      Preamble(s, data, fleet, id, col) + [Killed(id, "SIGHUP", true)] + TraceOfWatch(id, first)
        + [Restarted(id, false)]
    case Rewatched(fleet, id, col, first, second) =>
      Preamble(s, data, fleet, id, col) + [Killed(id, "SIGHUP", true)] + TraceOfWatch(id, first)
        + [Restarted(id, true)] + TraceOfWatch(id, second)
  }

  function Preamble(s: Settings, data: string, fleet: Option<seq<Container>>, id: string, col: Container): seq<Event> {
    [Wrote(SharedPath(s), data, true), Listed(fleet), Inspected(id, Some(col))]
  }

  ghost function Missing(s: Settings, data: string, col: Container): seq<string> {
    Filter(SortedSet(Elems(s.envRefs(data))), Unset(col.env))
  }

  ghost function StoryReport(s: Settings, data: string, story: Story): Report {
    match story
    case WriteFailed => Report(None, true, [])
    case NoRuntime => Report(Some(WrittenOnly), false, [])
    case NotFound(_) => Report(Some(WrittenOnly), false, [])
    case Uninspectable(_, _) => Report(Some(WrittenOnly), false, [])
    case Unmounted(_, _, _) => Report(Some(WrittenOnly), false, [])
    case Unsignalled(_, _, col) => Report(Some(WrittenOnly), false, Missing(s, data, col))
    case Settled(_, _, col, _) => Report(Some(Reloaded), false, Missing(s, data, col))
    case Unrestarted(_, _, col, _) => Report(Some(RestartedIt), true, Missing(s, data, col))
    case Rewatched(_, _, col, _, second) =>
      Report(Some(RestartedIt), VerdictOf(second.obs) != StayedRunning, Missing(s, data, col))
  }

  /** How long a watch lasts unless it sees a death or is cancelled: five seconds by default. */
  function ReloadWindow(s: Settings): nat { if s.reloadWait <= 0 then 5_000_000_000 else s.reloadWait }

  /** No watch gave up early. */
  ghost predicate Patient(s: Settings, story: Story, elapsed: int) {
    && (story.Settled? && !story.first.cancelled ==> elapsed >= ReloadWindow(s))
    && (story.Rewatched? && !story.second.cancelled && !ShowsDeath(story.second.obs) ==> elapsed >= ReloadWindow(s))
  }

  /** A story with its report and its interactions. */
  ghost predicate Tells(s: Settings, data: string, story: Story, report: Report, ev: seq<Event>) {
    Possible(s, story) && report == StoryReport(s, data, story) && ev == StoryTrace(s, data, story)
  }

  lemma ShortStories(s: Settings, data: string)
    ensures Tells(s, data, WriteFailed, Report(None, true, []), [Wrote(SharedPath(s), data, false)])
    ensures !s.hasRuntime ==>
      Tells(s, data, NoRuntime, Report(Some(WrittenOnly), false, []), [Wrote(SharedPath(s), data, true)])
  {}

  /** The stories that end at the inspection or at the mount guard. */
  lemma GuardStories(s: Settings, data: string, fleet: Option<seq<Container>>, id: string, col: Option<Container>)
    requires Selected(s, fleet, id)
    ensures var ev := [Wrote(SharedPath(s), data, true), Listed(fleet)] + [Inspected(id, col)];
      && (col.None? ==> Tells(s, data, Uninspectable(fleet, id), Report(Some(WrittenOnly), false, []), ev))
      && (col.Some? ==> ev == Preamble(s, data, fleet, id, col.value))
      && (col.Some? && !Paths.MountsSharedPath(col.value.mounts, SharedPath(s)) ==>
            Tells(s, data, Unmounted(fleet, id, col.value), Report(Some(WrittenOnly), false, []), ev))
  {
    hide Selected, Missing;
  }

  /** The story that ends at an undelivered hang-up. */
  lemma UnsignalledStory(s: Settings, data: string, fleet: Option<seq<Container>>, id: string, col: Container)
    requires Signalable(s, fleet, id, col)
    ensures Tells(s, data, Unsignalled(fleet, id, col), Report(Some(WrittenOnly), false, Missing(s, data, col)),
                  Preamble(s, data, fleet, id, col) + [Killed(id, "SIGHUP", false)])
  {
    hide Signalable, Missing, Preamble;
  }

  class Backend {
    const settings: Settings

    constructor (settings: Settings)
      ensures this.settings == settings
    {
      this.settings := settings;
    }

    /** Write, find, guard, signal, watch: whatever the runtime answers, what happened is one of
        the possible stories, and the file holds the data unless the write failed. */
    method Apply(host: Host, data: string) returns (report: Report, ghost story: Story)
      modifies host
      ensures Possible(settings, story)
      ensures host.trace == old(host.trace) + StoryTrace(settings, data, story)
      ensures report == StoryReport(settings, data, story)
      ensures host.files == if story.WriteFailed? then old(host.files)
                            else old(host.files)[SharedPath(settings) := data]
      ensures Patient(settings, story, host.now - old(host.now))
    {
      hide Choose, Missing, StoryTrace, StoryReport, Possible, ShowsDeath;
      var path := SharedPath(settings);
      ShortStories(settings, data);
      var ok := host.WriteAtomic(path, data);
      if !ok {
        return Report(None, true, []), WriteFailed;
      }
      if !settings.hasRuntime {
        return Report(Some(WrittenOnly), false, []), NoRuntime;
      }
      ghost var ev;
      report, story, ev := Signal(host, data);
      assert [Wrote(path, data, true)] + ev == StoryTrace(settings, data, story);
    }

    /** Everything after the write: select the collector, then reload it. */
    method Signal(host: Host, data: string) returns (report: Report, ghost story: Story, ghost ev: seq<Event>)
      requires settings.hasRuntime
      modifies host`trace, host`now
      ensures Tells(settings, data, story, report, [Wrote(SharedPath(settings), data, true)] + ev)
      ensures !story.WriteFailed? && host.trace == old(host.trace) + ev
      ensures Patient(settings, story, host.now - old(host.now))
    {
      hide Choose;
      ghost var fleet;
      var choice;
      choice, fleet := FindCollector(host, settings.collectorName);
      if choice.None? || !choice.value.Chosen? {
        return Report(Some(WrittenOnly), false, []), NotFound(fleet), [Listed(fleet)];
      }
      hide Tells;
      report, story, ev := Reload(host, choice.value.id, fleet, data);
      assert [Wrote(SharedPath(settings), data, true)] + ([Listed(fleet)] + ev)
             == [Wrote(SharedPath(settings), data, true), Listed(fleet)] + ev;
      ev := [Listed(fleet)] + ev;
    }

    /** Inspect the selected container, guard, signal, recover. */
    method Reload(host: Host, id: string, ghost fleet: Option<seq<Container>>, data: string)
        returns (report: Report, ghost story: Story, ghost ev: seq<Event>)
      requires Selected(settings, fleet, id)
      modifies host`trace, host`now
      ensures Tells(settings, data, story, report, [Wrote(SharedPath(settings), data, true), Listed(fleet)] + ev)
      ensures !story.WriteFailed? && host.trace == old(host.trace) + ev
      ensures Patient(settings, story, host.now - old(host.now))
    {
      hide Selected, Missing, Tells, ShowsDeath;
      ghost var head := [Wrote(SharedPath(settings), data, true), Listed(fleet)];
      var col := host.Inspect(id);
      ev := [Inspected(id, col)];
      GuardStories(settings, data, fleet, id, col);
      if col.None? {
        return Report(Some(WrittenOnly), false, []), Uninspectable(fleet, id), ev;
      }
      if !Paths.MountsSharedPath(col.value.mounts, SharedPath(settings)) {
        return Report(Some(WrittenOnly), false, []), Unmounted(fleet, id, col.value), ev;
      }
      var missing := Preflight(data, col.value);
      ghost var rest;
      report, story, rest := Hangup(host, id, missing, fleet, col.value, data);
      assert head + (ev + rest) == head + ev + rest;
      ev := ev + rest;
    }

    /** The one SIGHUP, and what follows from it. */
    method Hangup(host: Host, id: string, missing: seq<string>,
                  ghost fleet: Option<seq<Container>>, ghost col: Container, ghost data: string)
        returns (report: Report, ghost story: Story, ghost ev: seq<Event>)
      requires Signalable(settings, fleet, id, col) && missing == Missing(settings, data, col)
      modifies host`trace, host`now
      ensures Tells(settings, data, story, report, Preamble(settings, data, fleet, id, col) + ev)
      ensures !story.WriteFailed? && host.trace == old(host.trace) + ev
      ensures Patient(settings, story, host.now - old(host.now))
    {
      hide Signalable, Missing, Tells, ShowsDeath;
      UnsignalledStory(settings, data, fleet, id, col);
      ghost var head := Preamble(settings, data, fleet, id, col);
      var ok := host.Kill(id, "SIGHUP");
      ev := [Killed(id, "SIGHUP", ok)];
      if !ok {
        return Report(Some(WrittenOnly), false, missing), Unsignalled(fleet, id, col), ev;
      }
      ghost var rest;
      report, story, rest := RecoverAfterReload(host, id, missing, fleet, col, data);
      assert head + (ev + rest) == head + ev + rest;
      ev := ev + rest;
    }

    method Preflight(data: string, col: Container) returns (missing: seq<string>)
      ensures missing == Missing(settings, data, col)
    {
      missing := EnvPreflight(settings.envRefs(data), col.env);
    }

    /** After the SIGHUP: watch, restart once if the collector died, watch again. */
    method RecoverAfterReload(host: Host, id: string, missing: seq<string>,
                              ghost fleet: Option<seq<Container>>, ghost col: Container, ghost data: string)
        returns (report: Report, ghost story: Story, ghost ev: seq<Event>)
      requires Signalable(settings, fleet, id, col) && missing == Missing(settings, data, col)
      modifies host`trace, host`now
      ensures Tells(settings, data, story, report, Preamble(settings, data, fleet, id, col) + [Killed(id, "SIGHUP", true)] + ev)
      ensures !story.WriteFailed? && host.trace == old(host.trace) + ev
      ensures Patient(settings, story, host.now - old(host.now))
    {
      hide Missing, Choose, Selected, Signalable, ValidWatch, VerdictOf, TraceOfWatch, ShowsDeath, EndsRunning;
      var wait: nat := if settings.reloadWait <= 0 then DEFAULT_RELOAD_WAIT else settings.reloadWait;
      ghost var head := Preamble(settings, data, fleet, id, col) + [Killed(id, "SIGHUP", true)];
      ghost var first, second;
      var outcome, after;
      outcome, first := WatchState(host, id, wait);
      if outcome != Died {
        return Report(Some(Reloaded), false, missing), Settled(fleet, id, col, first), TraceOfWatch(id, first);
      }
      var ok := host.Restart(id);
      if !ok {
        ev := TraceOfWatch(id, first) + [Restarted(id, false)];
        assert head + ev == head + TraceOfWatch(id, first) + [Restarted(id, false)];
        return Report(Some(RestartedIt), true, missing), Unrestarted(fleet, id, col, first), ev;
      }
      after, second := WatchState(host, id, wait);
      ev := TraceOfWatch(id, first) + [Restarted(id, true)] + TraceOfWatch(id, second);
      assert head + ev == head + TraceOfWatch(id, first) + [Restarted(id, true)] + TraceOfWatch(id, second);
      return Report(Some(RestartedIt), after != StayedRunning, missing), Rewatched(fleet, id, col, first, second), ev;
    }
  }
}
