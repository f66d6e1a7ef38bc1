/** internal/daemon/reconcile.go, the reconciler itself: discovery, assembly, rendering and
    application wired together, and the loop that drives them. */
module Daemon {
  import opened Wrappers
  import opened Sorting
  import opened Backend
  import opened Host
  import Config
  import Resolve
  import Discovery
  import Assemble
  import Collector
  import Rendering = Render
  import Apply
  import Passes = Reconcile
  import Debounce

  /** Everything fixed for the life of the daemon. */
  datatype Fixed = Fixed(
    config: Config.Config,
    selfID: string,
    env: Resolve.Env,
    digest: Digest,
    codec: Rendering.Codec,
    knobs: Rendering.Knobs,
    yaml: Collector.CollectorConfig -> Option<string>,
    settings: Apply.Settings,
    debounce: nat)

  /** The bytes a spec renders to: compiled, then encoded. */
  ghost function Rendered(f: Fixed): Spec -> Option<string> {
    (spec: Spec) => if Rendering.Renderable(spec) then f.yaml(Rendering.Compiled(f.knobs, f.codec, spec)) else None
  }

  function Hashed(f: Fixed): Spec -> string { (spec: Spec) => Hash(f.digest, spec) }

  ghost function WorldOf(f: Fixed): Passes.World { Passes.World(Hashed(f), Rendered(f)) }

  /** How an application's story reads to the reconciler. */
  ghost function AttemptOf(s: Apply.Settings, data: string, story: Apply.Story): Passes.Attempt {
    if story.WriteFailed? then Passes.WriteLost
    else if Apply.StoryReport(s, data, story).failed then Passes.WrittenThenFailed
    else Passes.Succeeded
  }

  /** What one pass met and what it did about it. */
  datatype Account =
    | Unlisted
    | Unchanged(fleet: seq<Discovery.Seen>)
    | Unrendered(fleet: seq<Discovery.Seen>)
    | Attempted(fleet: seq<Discovery.Seen>, data: string, story: Apply.Story)

  ghost function SpecSeen(f: Fixed, fleet: seq<Discovery.Seen>): Spec {
    Assemble.AssembledSpec(Discovery.ServicesOf(fleet, f.config, f.selfID, f.env), f.config)
  }

  ghost function DiscoveryTrace(fleet: seq<Discovery.Seen>): seq<Event> {
    [Listed(Some(Map(fleet, Discovery.ListedOf)))] + FlatMap(fleet, Discovery.Probe)
  }

  ghost function PassOf(f: Fixed, a: Account): Passes.Pass {
    match a
    case Unlisted => Passes.ListFails
    case Unchanged(fleet) => Passes.Sees(SpecSeen(f, fleet), Passes.WriteLost)
    case Unrendered(fleet) => Passes.Sees(SpecSeen(f, fleet), Passes.WriteLost)
    case Attempted(fleet, data, story) =>
      Passes.Sees(SpecSeen(f, fleet), AttemptOf(f.settings, data, story))
  }

  ghost function AccountTrace(f: Fixed, a: Account): seq<Event> {
    match a
    case Unlisted => [Listed(None)]
    case Unchanged(fleet) => DiscoveryTrace(fleet)
    case Unrendered(fleet) => DiscoveryTrace(fleet)
    case Attempted(fleet, data, story) => DiscoveryTrace(fleet) + Apply.StoryTrace(f.settings, data, story)
  }

  /** The account fits the state the pass began in. */
  ghost predicate Fits(f: Fixed, st: Passes.State, a: Account) {
    var w, p := WorldOf(f), PassOf(f, a);
    match a
    case Unlisted => true
    case Unchanged(_) => !Passes.Renders(w, st, p)
    case Unrendered(_) => Passes.Renders(w, st, p) && !Passes.Applies(w, st, p)
    case Attempted(_, data, story) =>
      Passes.Applies(w, st, p) && w.render(p.spec) == Some(data) && Apply.Possible(f.settings, story)
  }

  class Reconciler {
    const fixed: Fixed
    const host: Host
    const backend: Apply.Backend
    const timer: Debounce.TimerCell
    var lastHash: string
    var armed: bool
    ghost var applied: Option<Spec>
    ghost var dirty: bool

    constructor (fixed: Fixed, host: Host)
      requires Resolve.Enumerates(fixed.env.order)
      ensures Valid() && fresh(timer) && fresh(backend)
      ensures this.fixed == fixed && this.host == host && !armed && timer.Value() == Debounce.Timer(None, false)
      ensures Durable() == Passes.Initial(SharedFile())
    {
      this.fixed, this.host := fixed, host;
      lastHash, armed, applied, dirty := "", false, None, false;
      backend := new Apply.Backend(fixed.settings);
      timer := new Debounce.TimerCell();
    }

    ghost predicate Valid()
      reads this
    {
      backend.settings == fixed.settings && Resolve.Enumerates(fixed.env.order)
    }

    ghost function SharedFile(): Option<string>
      reads host
    {
      var path := Apply.SharedPath(fixed.settings);
      if path in host.files then Some(host.files[path]) else None
    }

    /** What survives from one pass to the next. */
    ghost function Durable(): Passes.State
      reads this, host
    {
      Passes.State(lastHash, SharedFile(), applied, dirty)
    }

    method Render(spec: Spec) returns (data: Option<string>)
      requires Valid()
      ensures data == Rendered(fixed)(spec)
    {
      var r := Rendering.BuildConfig(fixed.knobs, fixed.codec, spec, fixed.env.order);
      match r {
        case Err(_) => data := None;
        case Ok(cfg) => data := fixed.yaml(cfg);
      }
    }

    /** One full pass: discover, assemble, and only on a new hash render and apply. Whatever the
        runtime answers, the state moves by one step of the pass machine and the interactions are
        those of the account. */
    method Reconcile() returns (ghost account: Account)
      requires Valid()
      modifies this`lastHash, this`applied, this`dirty, host
      ensures Valid() && Fits(fixed, old(Durable()), account)
      ensures Durable() == Passes.Step(WorldOf(fixed), old(Durable()), PassOf(fixed, account))
      ensures host.trace == old(host.trace) + AccountTrace(fixed, account)
    {
      hide Hash, Discovery.Discovered, Assemble.AssembledSpec, SpecSeen, Fits, PassOf, AccountTrace, WorldOf,
           DiscoveryTrace, Passes.Step;
      ghost var fleet, before := [], Durable();
      var found;
      found, fleet := Discovery.Discover(host, fixed.config, fixed.selfID, fixed.env);
      QuietAccounts(fixed, before, fleet);
      if found.None? {
        return Unlisted;
      }
      var spec := Assemble.AssembleSpec(found.value.services, fixed.config);
      SpecIsSeen(fixed, fleet, found.value);
      if Hash(fixed.digest, spec) == lastHash {
        return Unchanged(fleet);
      }
      account := Converge(spec, fleet);
      AttemptTraces(fixed, old(host.trace), account);
    }

    /** Rearm the quiet window on a relevant event. */
    method Rearm(now: int)
      modifies this`armed, timer
      ensures armed
      ensures timer.Value() == Debounce.Timer(Some(now + fixed.debounce),
                                 if old(armed) && old(timer.running).None? then false else old(timer.tick))
    {
      if armed {
        var active := timer.Stop();
        if !active {
          timer.Drain();
        }
      }
      timer.Reset(now + fixed.debounce);
      armed := true;
    }

    /** The loop, over any finite stretch of what select can meet: the timer and the armed flag
        follow the debounce machine, and one pass runs for each of its reconciles. */
    method Loop(schedule: seq<Debounce.Input>, start: int) returns (ghost passes: seq<Passes.Pass>)
      requires Valid() && !armed && timer.Value() == Debounce.Timer(None, false)
      requires Debounce.Possible(Debounce.Initial(start), schedule, fixed.debounce)
      modifies this`lastHash, this`applied, this`dirty, this`armed, host, timer
      ensures Valid()
      ensures var end := Debounce.Run(Debounce.Initial(start), schedule, fixed.debounce);
        armed == end.armed && timer.Value() == end.timer && |passes| == end.reconciles
      ensures Durable() == Passes.Run(WorldOf(fixed), old(Durable()), passes)
    {
      hide Passes.Step, PassOf, WorldOf, Fits, AccountTrace, Debounce.Possible, Debounce.Run;
      var now := start;
      passes := [];
      LoopStart(start, schedule, fixed.debounce);
      for i := 0 to |schedule|
        invariant Valid()
        invariant var st := LoopAt(start, schedule, i, fixed.debounce);
          now == st.now && armed == st.armed && timer.Value() == st.timer && |passes| == st.reconciles
        invariant Durable() == Passes.Run(WorldOf(fixed), old(Durable()), passes)
      {
        LoopStep(start, schedule, i, fixed.debounce);
        match schedule[i] {
          case Elapse(dt) => now := now + dt;
          case Fire => timer.Expire();
          case Event(kind) =>
            if Debounce.Relevant(kind) {
              Rearm(now);
            }
          case Tick =>
            timer.Drain();
            armed := false;
            ghost var account := Reconcile();
            ghost var pass := PassOf(fixed, account);
            assert (passes + [pass])[..|passes|] == passes;
            passes := passes + [pass];
          case _ =>
        }
      }
      assert schedule[..|schedule|] == schedule;
    }

    /** The daemon's life: one pass before any event, then the loop. Whatever happened on the way,
        unless the last write was reported as failed the shared file renders the spec whose hash
        is remembered. */
    method Run(schedule: seq<Debounce.Input>, start: int) returns (ghost passes: seq<Passes.Pass>)
      requires Valid() && !armed && timer.Value() == Debounce.Timer(None, false)
      requires Debounce.Possible(Debounce.Initial(start), schedule, fixed.debounce)
      modifies this`lastHash, this`applied, this`dirty, this`armed, host, timer
      ensures Valid()
      ensures |passes| == 1 + Debounce.Run(Debounce.Initial(start), schedule, fixed.debounce).reconciles
      ensures Durable() == Passes.Run(WorldOf(fixed), old(Durable()), passes)
      ensures old(Durable()) == Passes.Initial(old(SharedFile())) && !dirty && applied.Some? ==>
        lastHash == Hash(fixed.digest, applied.value) && SharedFile() == Rendered(fixed)(applied.value)
    {
      hide Passes.Step, PassOf, Fits, AccountTrace, Debounce.Possible, Debounce.Run, Hash, Rendered;
      ghost var before := Durable();
      ghost var account := Reconcile();
      ghost var pass := PassOf(fixed, account);
      ghost var later := Loop(schedule, start);
      Passes.RunConcat(WorldOf(fixed), before, [pass], later);
      assert [pass][..0] == [];
      passes := [pass] + later;
      Passes.RunInvariant(WorldOf(fixed), old(SharedFile()), passes);
    }

    /** Render and apply a spec whose hash is new. */
    method Converge(spec: Spec, ghost fleet: seq<Discovery.Seen>) returns (ghost account: Account)
      requires Valid() && spec == SpecSeen(fixed, fleet) && Hash(fixed.digest, spec) != lastHash
      modifies this`lastHash, this`applied, this`dirty, host
      ensures Valid() && Fits(fixed, old(Durable()), account)
      ensures account == Unrendered(fleet) || (account.Attempted? && account.fleet == fleet)
      ensures Durable() == Passes.Step(WorldOf(fixed), old(Durable()), PassOf(fixed, account))
      ensures account.Unrendered? ==> host.trace == old(host.trace)
      ensures account.Attempted? ==>
        host.trace == old(host.trace) + Apply.StoryTrace(fixed.settings, account.data, account.story)
    {
      hide Hash, SpecSeen, Rendered, Apply.StoryTrace, Apply.StoryReport, Apply.Possible, Apply.SharedPath;
      var data := Render(spec);
      if data.None? {
        return Unrendered(fleet);
      }
      ghost var story;
      var report;
      report, story := backend.Apply(host, data.value);
      account := Attempted(fleet, data.value, story);
      if report.failed {
        dirty := dirty || !story.WriteFailed?;
        return;
      }
      assert !story.WriteFailed? by { FailedWriteFails(fixed.settings, data.value, story); }
      lastHash := Hash(fixed.digest, spec);
      applied, dirty := Some(spec), false;
    }
  }

  /** The loop's state after `n` inputs. */
  ghost function LoopAt(start: int, schedule: seq<Debounce.Input>, n: nat, debounce: nat): Debounce.State
    requires n <= |schedule|
  {
    Debounce.Run(Debounce.Initial(start), schedule[..n], debounce)
  }

  lemma LoopStart(start: int, schedule: seq<Debounce.Input>, debounce: nat)
    ensures LoopAt(start, schedule, 0, debounce) == Debounce.Initial(start)
  {}

  lemma LoopStep(start: int, schedule: seq<Debounce.Input>, n: nat, debounce: nat)
    requires n < |schedule| && Debounce.Possible(Debounce.Initial(start), schedule, debounce)
    ensures LoopAt(start, schedule, n + 1, debounce)
            == Debounce.Step(LoopAt(start, schedule, n, debounce), schedule[n], debounce)
    ensures Debounce.Enabled(LoopAt(start, schedule, n, debounce), schedule[n])
  {
    var one := [schedule[n]];
    assert schedule[..n + 1] == schedule[..n] + one && schedule == schedule[..n] + schedule[n..];
    assert one[1..] == [];
    Debounce.RunConcat(Debounce.Initial(start), schedule[..n], one, debounce);
    Debounce.RunConcat(Debounce.Initial(start), schedule[..n], schedule[n..], debounce);
  }

  /** Passes that stop at the listing or at the hash comparison change nothing. */
  lemma QuietAccounts(f: Fixed, st: Passes.State, fleet: seq<Discovery.Seen>)
    ensures Fits(f, st, Unlisted) && Passes.Step(WorldOf(f), st, PassOf(f, Unlisted)) == st
    ensures AccountTrace(f, Unlisted) == [Listed(None)]
    ensures Hash(f.digest, SpecSeen(f, fleet)) == st.lastHash ==>
      Fits(f, st, Unchanged(fleet)) && Passes.Step(WorldOf(f), st, PassOf(f, Unchanged(fleet))) == st
    ensures AccountTrace(f, Unchanged(fleet)) == [Listed(Some(Map(fleet, Discovery.ListedOf)))] + FlatMap(fleet, Discovery.Probe)
  {
    hide Hash, SpecSeen;
  }

  lemma AttemptTraces(f: Fixed, before: seq<Event>, a: Account)
    ensures a.Unrendered? || a.Attempted? ==>
      before + ([Listed(Some(Map(a.fleet, Discovery.ListedOf)))] + FlatMap(a.fleet, Discovery.Probe))
      + (if a.Attempted? then Apply.StoryTrace(f.settings, a.data, a.story) else [])
      == before + AccountTrace(f, a)
  {
    hide Apply.StoryTrace, Discovery.ListedOf, Discovery.Probe;
  }

  lemma SpecIsSeen(f: Fixed, fleet: seq<Discovery.Seen>, found: Discovery.Found)
    requires Discovery.Discovered(fleet, f.config, f.selfID, f.env, found)
    ensures Assemble.AssembledSpec(found.services, f.config) == SpecSeen(f, fleet)
  {
    hide Discovery.ServicesOf, Assemble.AssembledSpec;
  }

  lemma FailedWriteFails(s: Apply.Settings, data: string, story: Apply.Story)
    ensures story.WriteFailed? ==> Apply.StoryReport(s, data, story).failed
  {}
}
