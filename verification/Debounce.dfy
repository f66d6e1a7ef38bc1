/** internal/daemon/reconcile.go, the debounced loop: bursts of events coalesced through one
    quiet-window timer. */
module Debounce {
  import opened Wrappers

  /** A Go timer: when it will fire, if it is running, and whether a tick waits in its channel. */
  datatype Timer = Timer(running: Option<int>, tick: bool)

  /** The container lifecycle events a runtime reports. */
  datatype EventKind = Start | Stop | Die | Destroy | Unknown(name: string)

  /** Whether an event can change what is routed: all known transitions can. */
  predicate Relevant(kind: EventKind) {
    match kind
    case Start => true
    case Stop => true
    case Die => true
    case Destroy => true
    case _ => false
  }

  lemma RelevantExact(kind: EventKind)
    ensures Relevant(kind) <==> !kind.Unknown?
  {}

  /** What the select loop can meet next, and the passing of time between. */
  datatype Input =
    | Elapse(dt: nat)
    | Fire
    | Event(kind: EventKind)
    | WatchError
    | Tick
    | EventsClosed
    | Cancel

  /** The loop's own state (armed, timer, stopped), the clock, and a history of what it received
      and did: the last relevant event, how many there were, how many reconciles ran, and whether
      an event came in since the last of those began. */
  datatype State = State(
    now: int,
    armed: bool,
    timer: Timer,
    stopped: bool,
    lastEvent: Option<int>,
    events: nat,
    reconciles: nat,
    pending: bool)

  function Initial(now: int): State {
    State(now, false, Timer(None, false), false, None, 0, 0, false)
  }

  /** A timer fires only when it is due; a tick is received only when one waits. */
  predicate Enabled(st: State, i: Input) {
    match i
    case Elapse(_) => true
    case Fire => st.timer.running.Some? && st.now >= st.timer.running.value
    case Tick => st.timer.tick && !st.stopped
    case _ => !st.stopped
  }

  /** Stop and drain when armed, then start a clean window. */
  function Rearmed(st: State, debounce: nat): Timer {
    var drained := if st.armed && st.timer.running.None? then false else st.timer.tick;
    Timer(Some(st.now + debounce), drained)
  }

  function Step(st: State, i: Input, debounce: nat): State {
    match i
    case Elapse(dt) => st.(now := st.now + dt)
    case Fire => st.(timer := Timer(None, true))
    case Event(kind) =>
      if !Relevant(kind) then st
      else st.(armed := true, timer := Rearmed(st, debounce),
               lastEvent := Some(st.now), events := st.events + 1, pending := true)
    case WatchError => st
    case Tick => st.(armed := false, timer := st.timer.(tick := false),
                     reconciles := st.reconciles + 1, pending := false)
    case EventsClosed => st.(stopped := true)
    case Cancel => st.(stopped := true)
  }

  function Run(st: State, ins: seq<Input>, debounce: nat): State
    decreases ins
  {
    if |ins| == 0 then st else Run(Step(st, ins[0], debounce), ins[1..], debounce)
  }

  predicate Possible(st: State, ins: seq<Input>, debounce: nat)
    decreases ins
  {
    |ins| > 0 ==> Enabled(st, ins[0]) && Possible(Step(st, ins[0], debounce), ins[1..], debounce)
  }

  lemma {:induction false} RunConcat(st: State, xs: seq<Input>, ys: seq<Input>, debounce: nat)
    ensures Run(st, xs + ys, debounce) == Run(Run(st, xs, debounce), ys, debounce)
    ensures Possible(st, xs + ys, debounce)
            <==> Possible(st, xs, debounce) && Possible(Run(st, xs, debounce), ys, debounce)
    decreases xs
  {
    if |xs| == 0 {
      assert xs + ys == ys;
    } else {
      assert (xs + ys)[1..] == xs[1..] + ys;
      RunConcat(Step(st, xs[0], debounce), xs[1..], ys, debounce);
    }
  }

  // ----- invariants -----

  /** `armed` holds exactly when the timer is running or its tick is undelivered, never both; a
      running timer is due one window after the last relevant event; a waiting tick means that
      window has passed; an event not yet served is exactly what keeps the loop armed. */
  ghost predicate Inv(st: State, debounce: nat) {
    && (st.armed <==> st.timer.running.Some? || st.timer.tick)
    && !(st.timer.running.Some? && st.timer.tick)
    && (st.lastEvent.Some? ==> st.lastEvent.value <= st.now)
    && (st.timer.running.Some? ==> st.lastEvent == Some(st.timer.running.value - debounce))
    && (st.timer.tick ==> st.lastEvent.Some? && st.now >= st.lastEvent.value + debounce)
    && (st.armed <==> st.pending)
    && st.reconciles + (if st.armed then 1 else 0) <= st.events
  }

  lemma {:induction false} InvHolds(st: State, ins: seq<Input>, debounce: nat)
    requires Inv(st, debounce) && Possible(st, ins, debounce)
    ensures Inv(Run(st, ins, debounce), debounce)
    decreases ins
  {
    if |ins| > 0 {
      InvHolds(Step(st, ins[0], debounce), ins[1..], debounce);
    }
  }

  /** Over every run of the loop: the invariant, and no reconcile before the quiet window. */
  lemma ReachableIsSound(now: int, ins: seq<Input>, debounce: nat)
    requires Possible(Initial(now), ins, debounce)
    ensures var st := Run(Initial(now), ins, debounce);
      && Inv(st, debounce)
      && (Enabled(st, Tick) ==> st.lastEvent.Some? && st.now - st.lastEvent.value >= debounce)
      && st.reconciles <= st.events
  {
    InvHolds(Initial(now), ins, debounce);
  }

  /** A burst: every relevant event comes less than one window after the one before. */
  predicate Quick(ins: seq<Input>, age: nat, debounce: nat)
    decreases ins
  {
    if |ins| == 0 then true
    else
      match ins[0]
      case Elapse(dt) => age + dt < debounce && Quick(ins[1..], age + dt, debounce)
      case Event(kind) => Quick(ins[1..], if kind.Unknown? then age else 0, debounce)
      case WatchError => Quick(ins[1..], age, debounce)
      case _ => false
  }

  ghost predicate Waiting(st: State, age: nat, debounce: nat) {
    Inv(st, debounce) && !st.stopped && st.timer.running.Some? && st.lastEvent == Some(st.now - age)
  }

  lemma {:induction false} BurstWaits(st: State, ins: seq<Input>, age: nat, debounce: nat)
    requires Waiting(st, age, debounce) && Quick(ins, age, debounce)
    ensures Possible(st, ins, debounce)
    ensures var end := Run(st, ins, debounce);
      Inv(end, debounce) && !end.stopped && end.timer.running.Some? && end.reconciles == st.reconciles
    decreases ins
  {
    if |ins| > 0 {
      var age' := match ins[0] case Elapse(dt) => age + dt case Event(kind) => (if kind.Unknown? then age else 0) case _ => age;
      var st' := Step(st, ins[0], debounce);
      assert Waiting(st', age', debounce);
      BurstWaits(st', ins[1..], age', debounce);
    }
  }

  /** However many events a burst has, it drives exactly one reconcile, after a quiet window. */
  lemma BurstCoalesces(st: State, first: EventKind, ins: seq<Input>, quiet: nat, debounce: nat)
    requires Inv(st, debounce) && !st.stopped && !st.armed
    requires !first.Unknown? && Quick(ins, 0, debounce) && quiet >= debounce
    ensures var burst := [Event(first)] + ins + [Elapse(quiet), Fire, Tick];
      && Possible(st, burst, debounce)
      && Run(st, burst, debounce).reconciles == st.reconciles + 1
      && !Run(st, burst, debounce).armed && !Run(st, burst, debounce).pending
    ensures Run(st, [Event(first)] + ins, debounce).reconciles == st.reconciles
  {
    var st1 := Step(st, Event(first), debounce);
    assert ([Event(first)] + ins)[1..] == ins;
    assert Waiting(st1, 0, debounce);
    BurstWaits(st1, ins, 0, debounce);
    var st2 := Run(st1, ins, debounce);
    assert Run(st, [Event(first)] + ins, debounce) == st2;
    RunConcat(st, [Event(first)] + ins, [Elapse(quiet), Fire, Tick], debounce);
    QuietServes(st2, quiet, debounce);
  }

  lemma QuietServes(st: State, quiet: nat, debounce: nat)
    requires Inv(st, debounce) && !st.stopped && st.timer.running.Some? && quiet >= debounce
    ensures Possible(st, [Elapse(quiet), Fire, Tick], debounce)
    ensures var end := Run(st, [Elapse(quiet), Fire, Tick], debounce);
      end.reconciles == st.reconciles + 1 && !end.armed && !end.pending
  {
    assert [Elapse(quiet), Fire, Tick][1..] == [Fire, Tick] && [Fire, Tick][1..] == [Tick] && [Tick][1..] == [];
    var s1 := Step(st, Elapse(quiet), debounce);
    var s2 := Step(s1, Fire, debounce);
    assert Enabled(s1, Fire) && Enabled(s2, Tick);
    assert Possible(s2, [Tick], debounce);
    assert Possible(s1, [Fire, Tick], debounce);
    assert Run(s2, [Tick], debounce) == Step(s2, Tick, debounce);
    assert Run(s1, [Fire, Tick], debounce) == Run(s2, [Tick], debounce);
  }

  /** Whatever the loop meets, until it receives a tick nothing pending is forgotten. */
  lemma {:induction false} PendingPersists(st: State, ins: seq<Input>, debounce: nat)
    requires Inv(st, debounce) && st.pending && Possible(st, ins, debounce) && Tick !in ins
    ensures var end := Run(st, ins, debounce); Inv(end, debounce) && end.pending && end.armed
    decreases ins
  {
    if |ins| > 0 {
      assert ins[0] in ins && forall i :: i in ins[1..] ==> i in ins;
      PendingPersists(Step(st, ins[0], debounce), ins[1..], debounce);
    }
  }

  /** No received event is lost, on any schedule: as long as no tick has been received the event is
      still pending, and once a quiet window has passed since the last event the timer can fire or
      its tick is waiting, and that tick, when received, runs a reconcile. */
  lemma PendingIsServed(st: State, ins: seq<Input>, debounce: nat)
    requires Inv(st, debounce) && st.pending && Possible(st, ins, debounce) && Tick !in ins
    ensures var end := Run(st, ins, debounce);
      && end.pending && end.lastEvent.Some?
      && (!end.stopped && end.now >= end.lastEvent.value + debounce ==>
            (Enabled(end, Fire) && Enabled(Step(end, Fire, debounce), Tick)) || Enabled(end, Tick))
      && (!end.stopped && Enabled(end, Tick) ==>
            Step(end, Tick, debounce).reconciles == end.reconciles + 1 && !Step(end, Tick, debounce).pending)
  {
    PendingPersists(st, ins, debounce);
  }

  /** Letting the clock run for one window is enough, whatever state the loop is in. */
  lemma QuietWindowServes(st: State, debounce: nat)
    requires Inv(st, debounce) && !st.stopped && st.pending
    ensures var rest := if st.timer.tick then [Tick] else [Elapse(debounce), Fire, Tick];
      Possible(st, rest, debounce) && Run(st, rest, debounce).reconciles == st.reconciles + 1
  {
    if st.timer.tick {
      assert [Tick][1..] == [];
    } else {
      QuietServes(st, debounce, debounce);
    }
  }

  // ----- the timer as an object -----

  /** time.Timer with a one-slot channel. */
  class TimerCell {
    var running: Option<int>
    var tick: bool

    constructor ()
      ensures Value() == Timer(None, false)
    {
      running, tick := None, false;
    }

    function Value(): Timer
      reads this
    {
      Timer(running, tick)
    }

    /** Reports whether the timer was running. */
    method Stop() returns (active: bool)
      modifies this
      ensures active == old(running).Some? && Value() == Timer(None, old(tick))
    {
      active := running.Some?;
      running := None;
    }

    method Drain()
      modifies this
      ensures Value() == Timer(old(running), false)
    {
      tick := false;
    }

    method Reset(due: int)
      modifies this
      ensures Value() == Timer(Some(due), old(tick))
    {
      running := Some(due);
    }

    method Expire()
      modifies this
      ensures Value() == Timer(None, true)
    {
      running, tick := None, true;
    }
  }
}
