/** What every application guarantees, read off its trace of interactions alone. */
module ApplySafety {
  import opened Wrappers
  import opened Host
  import opened Apply
  import Paths

  predicate IsWrite(e: Event) { e.Wrote? }
  predicate IsSignal(e: Event) { e.Killed? || e.Restarted? }

  /** Nothing but inspections of `id` and waits. */
  predicate Quiet(id: string, ev: seq<Event>) {
    forall e :: e in ev ==> e.Waited? || (e.Inspected? && e.id == id)
  }

  lemma {:induction false} WatchTraceQuiet(id: string, obs: seq<Observation>)
    ensures Quiet(id, WatchTrace(id, obs))
    ensures forall o :: Inspected(id, o) in WatchTrace(id, obs) <==> o in obs
  {
    if |obs| > 1 {
      var n := |obs| - 1;
      assert obs == obs[..n] + [obs[n]];
      WatchTraceQuiet(id, obs[..n]);
    }
  }

  lemma WatchQuiet(id: string, w: Watch)
    ensures Quiet(id, TraceOfWatch(id, w))
    ensures forall o :: Inspected(id, o) in TraceOfWatch(id, w) <==> o in w.obs
  {
    WatchTraceQuiet(id, w.obs);
  }

  /** An inspection answered that `id` had exited or was dead, strictly between positions `i` and `j`. */
  ghost predicate DeathBetween(ev: seq<Event>, id: string, i: int, j: int) {
    exists k :: 0 <= i < k < j <= |ev| && ev[k].Inspected? && ev[k].id == id
      && ev[k].answer.Some? && ReadsDead(ev[k].answer.value)
  }

  /** Before position `i`, `id` was unambiguously selected from a listing and then inspected as
      mounting the shared path. */
  ghost predicate Vetted(s: Settings, ev: seq<Event>, id: string, i: int) {
    exists l, m :: 0 <= l < m < i <= |ev|
      && ev[l].Listed? && ev[l].fleet.Some? && Unambiguous(ev[l].fleet.value, s.collectorName, id)
      && ev[m].Inspected? && ev[m].id == id && ev[m].answer.Some?
      && Paths.MountsSharedPath(ev[m].answer.value.mounts, SharedPath(s))
  }

  /** The write of the data comes first and is the only one. */
  ghost predicate WritesFirst(s: Settings, data: string, ev: seq<Event>) {
    && |ev| > 0 && ev[0].Wrote? && ev[0].path == SharedPath(s) && ev[0].data == data
    && forall i :: 0 < i < |ev| ==> !IsWrite(ev[i])
  }

  /** At most one SIGHUP and one restart, to one vetted container, the restart only after the
      hang-up was delivered and a death observed since. */
  ghost predicate SignalsSafely(s: Settings, ev: seq<Event>) {
    && (forall i, j :: 0 <= i < |ev| && 0 <= j < |ev| && ev[i].Killed? && ev[j].Killed? ==> i == j)
    && (forall i, j :: 0 <= i < |ev| && 0 <= j < |ev| && ev[i].Restarted? && ev[j].Restarted? ==> i == j)
    && (forall i :: 0 <= i < |ev| && ev[i].Killed? ==> ev[i].signal == "SIGHUP" && Vetted(s, ev, ev[i].id, i))
    && (forall j :: 0 <= j < |ev| && ev[j].Restarted? ==> RestartJustified(ev, j))
  }

  ghost predicate RestartJustified(ev: seq<Event>, j: int)
    requires 0 <= j < |ev| && ev[j].Restarted?
  {
    exists i :: 0 <= i < j && ev[i].Killed? && ev[i].ok && ev[i].id == ev[j].id && DeathBetween(ev, ev[j].id, i, j)
  }

  ghost predicate FileWritten(ev: seq<Event>) { exists e :: e in ev && e.Wrote? && e.ok }
  ghost predicate HungUp(ev: seq<Event>) { exists e :: e in ev && e.Killed? && e.ok }
  ghost predicate TriedRestart(ev: seq<Event>) { exists e :: e in ev && e.Restarted? }

  /** The report says exactly which effects happened, and fails only when the write failed or
      the one restart was attempted. */
  ghost predicate ReportsTruly(ev: seq<Event>, r: Report) {
    && (r.action.None? <==> !FileWritten(ev))
    && (r.action == Some(WrittenOnly) <==> FileWritten(ev) && !HungUp(ev))
    && (r.action == Some(Reloaded) <==> HungUp(ev) && !TriedRestart(ev))
    && (r.action == Some(RestartedIt) <==> TriedRestart(ev))
    && (r.failed ==> !FileWritten(ev) || TriedRestart(ev))
    && (!FileWritten(ev) ==> r.failed)
  }

  /** The interactions up to the hang-up. */
  function Head(s: Settings, data: string, fleet: Option<seq<Container>>, id: string, col: Container, ok: bool): seq<Event> {
    Preamble(s, data, fleet, id, col) + [Killed(id, "SIGHUP", ok)]
  }

  lemma HeadVetted(s: Settings, data: string, fleet: Option<seq<Container>>, id: string, col: Container, ok: bool,
                   rest: seq<Event>)
    requires Signalable(s, fleet, id, col)
    ensures Vetted(s, Head(s, data, fleet, id, col, ok) + rest, id, 3)
  {
    hide Choose, Unambiguous;
    var ev := Head(s, data, fleet, id, col, ok) + rest;
    ChosenIsUnambiguous(fleet.value, s.collectorName, id);
    assert ev[1] == Listed(fleet) && ev[2] == Inspected(id, Some(col));
  }

  /** A trace that hangs up and then only watches. */
  lemma QuietRestSafe(s: Settings, data: string, fleet: Option<seq<Container>>, id: string, col: Container, ok: bool,
                      rest: seq<Event>)
    requires Signalable(s, fleet, id, col) && Quiet(id, rest)
    ensures var ev := Head(s, data, fleet, id, col, ok) + rest;
      && WritesFirst(s, data, ev) && SignalsSafely(s, ev)
      && FileWritten(ev) && !TriedRestart(ev) && (HungUp(ev) <==> ok)
  {
    hide Signalable, Vetted;
    var head := Head(s, data, fleet, id, col, ok);
    var ev := head + rest;
    HeadVetted(s, data, fleet, id, col, ok, rest);
    RestEvents(id, head, rest);
    assert ev[0] in ev && ev[3] in ev && ev[3] == Killed(id, "SIGHUP", ok);
  }

  lemma RestEvents(id: string, head: seq<Event>, rest: seq<Event>)
    requires Quiet(id, rest)
    ensures forall i :: |head| <= i < |head + rest| ==> !IsWrite((head + rest)[i]) && !IsSignal((head + rest)[i])
    ensures forall e :: e in head + rest ==> e in head || (!IsWrite(e) && !IsSignal(e))
  {
    forall i | |head| <= i < |head + rest| ensures !IsWrite((head + rest)[i]) && !IsSignal((head + rest)[i]) {
      assert (head + rest)[i] == rest[i - |head|] && rest[i - |head|] in rest;
    }
  }

  function RestartTrace(s: Settings, data: string, fleet: Option<seq<Container>>, id: string, col: Container,
                        first: Watch, ok: bool, rest: seq<Event>): seq<Event>
  {
    Head(s, data, fleet, id, col, true) + TraceOfWatch(id, first) + [Restarted(id, ok)] + rest
  }

  /** Where the signals of such a trace are. */
  lemma RestartShape(s: Settings, data: string, fleet: Option<seq<Container>>, id: string, col: Container,
                     first: Watch, ok: bool, rest: seq<Event>)
    requires Quiet(id, rest)
    ensures var ev, j := RestartTrace(s, data, fleet, id, col, first, ok, rest), 4 + |TraceOfWatch(id, first)|;
      && j < |ev| && ev[0] == Wrote(SharedPath(s), data, true) && ev[3] == Killed(id, "SIGHUP", true)
      && ev[j] == Restarted(id, ok)
      && (forall i :: 4 <= i < j ==> ev[i] == TraceOfWatch(id, first)[i - 4])
      && (forall i :: 0 <= i < |ev| && i != 0 ==> !IsWrite(ev[i]))
      && (forall i :: 0 <= i < |ev| && i != 3 && i != j ==> !IsSignal(ev[i]))
  {
    hide TraceOfWatch;
    var head, watch := Head(s, data, fleet, id, col, true), TraceOfWatch(id, first);
    WatchQuiet(id, first);
    RestEvents(id, head, watch);
    RestEvents(id, head + watch + [Restarted(id, ok)], rest);
    var ev := RestartTrace(s, data, fleet, id, col, first, ok, rest);
    assert forall i :: 0 <= i < |head + watch| ==> ev[i] == (head + watch)[i];
  }

  lemma RestartDeath(s: Settings, data: string, fleet: Option<seq<Container>>, id: string, col: Container,
                     first: Watch, ok: bool, rest: seq<Event>)
    requires Quiet(id, rest) && VerdictOf(first.obs) == Died
    ensures DeathBetween(RestartTrace(s, data, fleet, id, col, first, ok, rest), id, 3, 4 + |TraceOfWatch(id, first)|)
  {
    hide RestartTrace, ReadsDead, TraceOfWatch, VerdictOf;
    VerdictExact(first.obs);
    var ev := RestartTrace(s, data, fleet, id, col, first, ok, rest);
    var watch := TraceOfWatch(id, first);
    RestartShape(s, data, fleet, id, col, first, ok, rest);
    WatchQuiet(id, first);
    var d :| 0 <= d < |first.obs| && first.obs[d].Some? && ReadsDead(first.obs[d].value);
    assert first.obs[d] in first.obs && Inspected(id, first.obs[d]) in watch;
    var k :| 0 <= k < |watch| && watch[k] == Inspected(id, first.obs[d]);
    assert ev[4 + k] == watch[(4 + k) - 4];
  }

  /** A trace that hangs up, watches the container die, restarts it and watches again. */
  lemma RestartSafe(s: Settings, data: string, fleet: Option<seq<Container>>, id: string, col: Container,
                    first: Watch, ok: bool, rest: seq<Event>)
    requires Signalable(s, fleet, id, col) && Quiet(id, rest)
    requires ValidWatch(first) && VerdictOf(first.obs) == Died
    ensures var ev := RestartTrace(s, data, fleet, id, col, first, ok, rest);
      && WritesFirst(s, data, ev) && SignalsSafely(s, ev) && FileWritten(ev) && HungUp(ev) && TriedRestart(ev)
  {
    hide Signalable, Vetted, DeathBetween, ValidWatch, VerdictOf, RestartTrace, TraceOfWatch;
    var ev, j := RestartTrace(s, data, fleet, id, col, first, ok, rest), 4 + |TraceOfWatch(id, first)|;
    RestartShape(s, data, fleet, id, col, first, ok, rest);
    RestartDeath(s, data, fleet, id, col, first, ok, rest);
    RestartVetted(s, data, fleet, id, col, first, ok, rest);
    assert RestartJustified(ev, j);
    assert ev[0] in ev && ev[3] in ev && ev[j] in ev;
  }

  lemma RestartVetted(s: Settings, data: string, fleet: Option<seq<Container>>, id: string, col: Container,
                      first: Watch, ok: bool, rest: seq<Event>)
    requires Signalable(s, fleet, id, col)
    ensures Vetted(s, RestartTrace(s, data, fleet, id, col, first, ok, rest), id, 3)
  {
    hide Signalable, Vetted, TraceOfWatch;
    var more := TraceOfWatch(id, first) + [Restarted(id, ok)] + rest;
    assert Head(s, data, fleet, id, col, true) + more == RestartTrace(s, data, fleet, id, col, first, ok, rest);
    HeadVetted(s, data, fleet, id, col, true, more);
  }

  /** The short stories, which end at or before the mount guard. */
  lemma ShortSafe(s: Settings, data: string, story: Story)
    requires Possible(s, story)
    requires story.WriteFailed? || story.NoRuntime? || story.NotFound? || story.Uninspectable? || story.Unmounted?
    ensures WritesFirst(s, data, StoryTrace(s, data, story)) && SignalsSafely(s, StoryTrace(s, data, story))
    ensures ReportsTruly(StoryTrace(s, data, story), StoryReport(s, data, story))
  {
    hide Choose, Selected, Missing, Vetted, RestartJustified;
    var ev := StoryTrace(s, data, story);
    assert ev[0] in ev;
    assert forall e :: e in ev ==> !IsSignal(e);
  }

  /** Safety of Apply against any runtime: the write precedes every signal, signals reach only a
      vetted container and at most once each, a restart needs an observed death after a delivered
      hang-up, and the report tells the truth. */
  lemma ApplyIsSafe(s: Settings, data: string, story: Story)
    requires Possible(s, story)
    ensures var ev := StoryTrace(s, data, story);
      WritesFirst(s, data, ev) && SignalsSafely(s, ev) && ReportsTruly(ev, StoryReport(s, data, story))
  {
    hide WritesFirst, SignalsSafely, FileWritten, HungUp, TriedRestart, Missing, Signalable, Selected, ValidWatch, VerdictOf,
         TraceOfWatch, Preamble, Choose;
    match story
    case Unsignalled(fleet, id, col) =>
      QuietRestSafe(s, data, fleet, id, col, false, []);
      assert Head(s, data, fleet, id, col, false) + [] == StoryTrace(s, data, story);
    case Settled(fleet, id, col, first) =>
      WatchQuiet(id, first);
      QuietRestSafe(s, data, fleet, id, col, true, TraceOfWatch(id, first));
    case Unrestarted(fleet, id, col, first) =>
      RestartSafe(s, data, fleet, id, col, first, false, []);
      assert RestartTrace(s, data, fleet, id, col, first, false, []) == StoryTrace(s, data, story);
    case Rewatched(fleet, id, col, first, second) =>
      WatchQuiet(id, second);
      RestartSafe(s, data, fleet, id, col, first, true, TraceOfWatch(id, second));
      assert RestartTrace(s, data, fleet, id, col, first, true, TraceOfWatch(id, second)) == StoryTrace(s, data, story);
    case _ => ShortSafe(s, data, story);
  }

  /** And a death seen after the hang-up is always met: a restart is tried. */
  lemma DeathIsMet(s: Settings, data: string, story: Story)
    requires Possible(s, story)
    ensures var ev := StoryTrace(s, data, story);
      forall i :: 0 <= i < |ev| && ev[i].Killed? && ev[i].ok && DeathBetween(ev, ev[i].id, i, |ev|) ==> TriedRestart(ev)
  {
    hide Missing, Signalable, Selected, ValidWatch, VerdictOf, TraceOfWatch, Choose, ReadsDead, WritesFirst, SignalsSafely;
    ApplyIsSafe(s, data, story);
    var ev := StoryTrace(s, data, story);
    if story.Settled? {
      VerdictExact(story.first.obs);
      WatchQuiet(story.id, story.first);
      assert forall k :: 4 <= k < |ev| ==> ev[k] == TraceOfWatch(story.id, story.first)[k - 4];
      forall k | 4 <= k < |ev| && ev[k].Inspected? && ev[k].answer.Some? ensures !ReadsDead(ev[k].answer.value) {
        assert ev[k] in TraceOfWatch(story.id, story.first);
        var d :| 0 <= d < |story.first.obs| && story.first.obs[d] == ev[k].answer;
      }
    }
  }

  // ----- failure, read off the trace -----

  /** What the inspections among these events answered. */
  function Answers(ev: seq<Event>): seq<Observation> {
    if |ev| == 0 then []
    else (if ev[0].Inspected? then [ev[0].answer] else []) + Answers(ev[1..])
  }

  lemma {:induction false} AnswersConcat(xs: seq<Event>, ys: seq<Event>)
    ensures Answers(xs + ys) == Answers(xs) + Answers(ys)
  {
    if |xs| == 0 {
      assert xs + ys == ys;
    } else {
      var own := if xs[0].Inspected? then [xs[0].answer] else [];
      assert (xs + ys)[1..] == xs[1..] + ys && (xs + ys)[0] == xs[0];
      AnswersConcat(xs[1..], ys);
      assert own + (Answers(xs[1..]) + Answers(ys)) == own + Answers(xs[1..]) + Answers(ys);
    }
  }

  lemma {:induction false} AnswersOfTrace(id: string, obs: seq<Observation>)
    ensures Answers(WatchTrace(id, obs)) == obs
  {
    if |obs| > 0 {
      var n := |obs| - 1;
      assert obs == obs[..n] + [obs[n]];
      assert Answers([Inspected(id, obs[n])]) == [obs[n]] by { assert [Inspected(id, obs[n])][1..] == []; }
      if n > 0 {
        AnswersOfTrace(id, obs[..n]);
        var last := [Waited(false), Inspected(id, obs[n])];
        assert last[1..] == [Inspected(id, obs[n])];
        AnswersConcat(WatchTrace(id, obs[..n]), last);
      }
    }
  }

  lemma AnswersOfWatch(id: string, w: Watch)
    ensures Answers(TraceOfWatch(id, w)) == w.obs
  {
    AnswersOfTrace(id, w.obs);
    AnswersConcat(WatchTrace(id, w.obs), if w.cancelled then [Waited(true)] else []);
    assert Answers([Waited(true)]) == [] by { assert [Waited(true)][1..] == []; }
  }

  /** The restart at `j` did not bring the collector back: the call failed, or what was inspected
      after it does not add up to a running collector. */
  ghost predicate RestartInVain(ev: seq<Event>, j: int) {
    && 0 <= j < |ev| && ev[j].Restarted?
    && (ev[j].ok ==> ShowsDeath(Answers(ev[j + 1..])) || !EndsRunning(Answers(ev[j + 1..])))
  }

  /** An application fails if and only if nothing was written or a restart was in vain. */
  lemma FailureExact(s: Settings, data: string, story: Story)
    requires Possible(s, story)
    ensures var ev := StoryTrace(s, data, story);
      StoryReport(s, data, story).failed <==> !FileWritten(ev) || exists j :: RestartInVain(ev, j)
  {
    hide Missing, Signalable, Selected, ValidWatch, VerdictOf, TraceOfWatch, Preamble, Choose, RestartTrace, Head,
         WritesFirst, SignalsSafely, HungUp, RestartInVain, FileWritten;
    var ev := StoryTrace(s, data, story);
    ApplyIsSafe(s, data, story);
    match story
    case Unrestarted(fleet, id, col, first) =>
      TraceAsRestart(s, data, story);
      RestartOutcome(s, data, fleet, id, col, first, false, Watch([], false));
    case Rewatched(fleet, id, col, first, second) =>
      TraceAsRestart(s, data, story);
      RestartOutcome(s, data, fleet, id, col, first, true, second);
    case _ => NoRestart(ev);
  }

  lemma NoRestart(ev: seq<Event>)
    ensures !TriedRestart(ev) ==> forall j :: !RestartInVain(ev, j)
  {}

  lemma TraceAsRestart(s: Settings, data: string, story: Story)
    requires story.Unrestarted? || story.Rewatched?
    ensures StoryTrace(s, data, story) ==
      RestartTrace(s, data, story.fleet, story.id, story.col, story.first, story.Rewatched?,
                   TraceOfWatch(story.id, if story.Rewatched? then story.second else Watch([], false)))
  {
    hide Preamble;
    if story.Unrestarted? { assert TraceOfWatch(story.id, Watch([], false)) == []; }
  }

  lemma RestartOutcome(s: Settings, data: string, fleet: Option<seq<Container>>, id: string, col: Container,
                       first: Watch, ok: bool, second: Watch)
    ensures var ev := RestartTrace(s, data, fleet, id, col, first, ok, TraceOfWatch(id, second));
      (exists j :: RestartInVain(ev, j)) <==> !ok || VerdictOf(second.obs) != StayedRunning
  {
    hide VerdictOf, TraceOfWatch, ShowsDeath, EndsRunning;
    VerdictExact(second.obs);
    var rest := TraceOfWatch(id, second);
    var ev, j := RestartTrace(s, data, fleet, id, col, first, ok, rest), 4 + |TraceOfWatch(id, first)|;
    WatchQuiet(id, second);
    RestartShape(s, data, fleet, id, col, first, ok, rest);
    assert ev[j + 1..] == rest;
    AnswersOfWatch(id, second);
    assert forall i :: 0 <= i < |ev| && ev[i].Restarted? ==> i == j;
    assert (!ok || VerdictOf(second.obs) != StayedRunning) ==> RestartInVain(ev, j);
  }
}
