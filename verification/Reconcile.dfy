/** internal/daemon/reconcile.go, the passes: what survives from one to the next, over every run
    of passes with arbitrary outcomes. */
module Reconcile {
  import opened Wrappers
  import opened Backend

  /** How a call of Apply ended: nothing written, written but reported as failed, or fine. */
  datatype Attempt = WriteLost | WrittenThenFailed | Succeeded

  /** What a pass meets: a failing listing, or a fleet with its spec; `attempt` matters only when
      the pass gets as far as Apply. */
  datatype Pass = ListFails | Sees(spec: Spec, attempt: Attempt)

  /** The hash, and the bytes a spec renders to (None when rendering fails). */
  datatype World = World(hash: Spec -> string, render: Spec -> Option<string>)

  /** The reconciler's field and the shared file, with two history variables: the spec applied
      last, and whether a later write was reported as failed. */
  datatype State = State(lastHash: string, file: Option<string>, applied: Option<Spec>, dirty: bool)

  function Initial(file: Option<string>): State { State("", file, None, false) }

  /** The pass gets past the hash comparison, so it renders. */
  predicate Renders(w: World, st: State, p: Pass) { p.Sees? && w.hash(p.spec) != st.lastHash }

  predicate Applies(w: World, st: State, p: Pass) { Renders(w, st, p) && w.render(p.spec).Some? }

  function Step(w: World, st: State, p: Pass): State {
    if !Applies(w, st, p) then st
    else
      match p.attempt
      case WriteLost => st
      case WrittenThenFailed => st.(file := w.render(p.spec), dirty := true)
      case Succeeded => State(w.hash(p.spec), w.render(p.spec), Some(p.spec), false)
  }

  function Run(w: World, st: State, ps: seq<Pass>): State {
    if |ps| == 0 then st else Step(w, Run(w, st, ps[..|ps| - 1]), ps[|ps| - 1])
  }

  lemma {:induction false} RunConcat(w: World, st: State, ps: seq<Pass>, qs: seq<Pass>)
    ensures Run(w, st, ps + qs) == Run(w, Run(w, st, ps), qs)
  {
    if |qs| == 0 {
      assert ps + qs == ps;
    } else {
      var n := |qs| - 1;
      assert (ps + qs)[..|ps + qs| - 1] == ps + qs[..n];
      RunConcat(w, st, ps, qs[..n]);
    }
  }

  /** The spec of the last pass whose Apply succeeded. */
  function LastSuccess(w: World, st: State, ps: seq<Pass>): Option<Spec> {
    if |ps| == 0 then None
    else
      var p := ps[|ps| - 1];
      if Applies(w, Run(w, st, ps[..|ps| - 1]), p) && p.attempt == Succeeded then Some(p.spec)
      else LastSuccess(w, st, ps[..|ps| - 1])
  }

  /** How the last Apply that wrote the file ended, with the spec it wrote. */
  function LastWrite(w: World, st: State, ps: seq<Pass>): Option<(Spec, Attempt)> {
    if |ps| == 0 then None
    else
      var p := ps[|ps| - 1];
      if Applies(w, Run(w, st, ps[..|ps| - 1]), p) && p.attempt != WriteLost then Some((p.spec, p.attempt))
      else LastWrite(w, st, ps[..|ps| - 1])
  }

  /** Over every run: lastHash is the hash of the last spec applied without error; the file holds
      the rendering of the last spec written; `dirty` says that write was reported as failed; and
      while it was not, the file is the rendering of the spec lastHash stands for. */
  lemma {:induction false} RunInvariant(w: World, file: Option<string>, ps: seq<Pass>)
    ensures var st := Run(w, Initial(file), ps);
      && st.applied == LastSuccess(w, Initial(file), ps)
      && st.lastHash == (if st.applied.Some? then w.hash(st.applied.value) else "")
      && st.file == (match LastWrite(w, Initial(file), ps) case None => file case Some(x) => w.render(x.0))
      && (st.dirty <==> match LastWrite(w, Initial(file), ps) case None => false case Some(x) => x.1 == WrittenThenFailed)
      && (!st.dirty && st.applied.Some? ==> st.file == w.render(st.applied.value) && st.file.Some?)
  {
    if |ps| > 0 {
      RunInvariant(w, file, ps[..|ps| - 1]);
    }
  }

  /** The pass at `i` gets as far as Apply, and Apply returns no error. */
  predicate SucceedsAt(w: World, st: State, ps: seq<Pass>, i: nat)
    requires i < |ps|
  {
    ps[i].Sees? && Applies(w, Run(w, st, ps[..i]), ps[i]) && ps[i].attempt == Succeeded
  }

  ghost predicate LastSucceedsAt(w: World, st: State, ps: seq<Pass>, i: nat) {
    i < |ps| && SucceedsAt(w, st, ps, i) && forall j :: i < j < |ps| ==> !SucceedsAt(w, st, ps, j)
  }

  /** Over any run, if lastHash is not what it was, then some Apply returned no error, and lastHash
      is the hash of the spec of the last pass on which one did. */
  lemma {:induction false} LastHashChanges(w: World, st: State, ps: seq<Pass>)
    requires Run(w, st, ps).lastHash != st.lastHash
    ensures exists i: nat :: LastSucceedsAt(w, st, ps, i) && Run(w, st, ps).lastHash == w.hash(ps[i].spec)
  {
    if |ps| > 0 {
      var n := |ps| - 1;
      if SucceedsAt(w, st, ps, n) {
        assert LastSucceedsAt(w, st, ps, n);
      } else {
        var front := ps[..n];
        LastHashChanges(w, st, front);
        var i: nat :| LastSucceedsAt(w, st, front, i) && Run(w, st, front).lastHash == w.hash(front[i].spec);
        LastOfFront(w, st, ps, i);
      }
    }
  }

  lemma LastOfFront(w: World, st: State, ps: seq<Pass>, i: nat)
    requires |ps| > 0 && LastSucceedsAt(w, st, ps[..|ps| - 1], i) && !SucceedsAt(w, st, ps, |ps| - 1)
    ensures LastSucceedsAt(w, st, ps, i)
  {
    hide Applies, Run;
    var front := ps[..|ps| - 1];
    forall j: nat | j < |front| ensures SucceedsAt(w, st, ps, j) == SucceedsAt(w, st, front, j) {
      assert front[..j] == ps[..j];
    }
  }

  predicate Avoids(w: World, ps: seq<Pass>, hash: string) {
    forall p :: p in ps && p.Sees? ==> w.hash(p.spec) != hash
  }

  lemma {:induction false} AvoidedStaysUnapplied(w: World, st: State, ps: seq<Pass>, hash: string)
    requires Avoids(w, ps, hash) && st.lastHash != hash
    ensures Run(w, st, ps).lastHash != hash
  {
    if |ps| > 0 {
      var n := |ps| - 1;
      assert ps[n] in ps && forall p :: p in ps[..n] ==> p in ps;
      AvoidedStaysUnapplied(w, st, ps[..n], hash);
    }
  }

  /** A spec whose pass failed is attempted again by the next pass that sees it, whatever the
      passes in between did. */
  lemma {:induction false} FailedIsRetried(w: World, st: State, failed: Pass, between: seq<Pass>, again: Pass)
    requires Renders(w, st, failed) && !(Applies(w, st, failed) && failed.attempt == Succeeded)
    requires Avoids(w, between, w.hash(failed.spec))
    requires again.Sees? && w.hash(again.spec) == w.hash(failed.spec)
    ensures Renders(w, Run(w, Step(w, st, failed), between), again)
  {
    AvoidedStaysUnapplied(w, Step(w, st, failed), between, w.hash(failed.spec));
  }

  predicate Only(w: World, ps: seq<Pass>, hash: string) {
    forall p :: p in ps && p.Sees? ==> w.hash(p.spec) == hash
  }

  /** Once applied, a fleet that does not change causes no render and no apply, ever. */
  lemma {:induction false} UnchangedIsIdle(w: World, st: State, ps: seq<Pass>, next: Pass)
    requires Only(w, ps + [next], st.lastHash)
    ensures Run(w, st, ps) == st && !Renders(w, st, next)
  {
    assert next in ps + [next];
    if |ps| > 0 {
      var n := |ps| - 1;
      assert ps[n] in ps + [next];
      assert forall p :: p in ps[..n] + [ps[n]] ==> p in ps + [next];
      UnchangedIsIdle(w, st, ps[..n], ps[n]);
    }
  }

  /** The last spec written renders differently from this one. */
  ghost predicate StrayWrite(w: World, st: State, ps: seq<Pass>, spec: Spec) {
    var last := LastWrite(w, st, ps);
    last.Some? && w.render(last.value.0) != w.render(spec)
  }

  /** When a pass that sees `spec`, renders it and applies it cleanly ends with the file holding its
      rendering: always, except when the hash comparison skips it while the file holds something
      else's. */
  lemma {:induction false} ConvergesExact(w: World, file: Option<string>, ps: seq<Pass>, spec: Spec)
    requires w.render(spec).Some? && w.hash(spec) != ""
    ensures var st := Run(w, Initial(file), ps);
      Step(w, st, Sees(spec, Succeeded)).file == w.render(spec)
      <==> !(st.lastHash == w.hash(spec) && StrayWrite(w, Initial(file), ps, spec))
  {
    RunInvariant(w, file, ps);
    AppliedWasWritten(w, file, ps);
  }

  lemma {:induction false} AppliedWasWritten(w: World, file: Option<string>, ps: seq<Pass>)
    ensures LastSuccess(w, Initial(file), ps).Some? ==> LastWrite(w, Initial(file), ps).Some?
  {
    if |ps| > 0 {
      AppliedWasWritten(w, file, ps[..|ps| - 1]);
    }
  }

  /** One way to be skipped wrongly: two specs with one hash. The first is applied, the fleet moves
      to the second, and the file keeps the first with nothing recorded as failed. */
  lemma StaleOnSharedHash(w: World, file: Option<string>, a: Spec, b: Spec, later: seq<Pass>)
    requires w.hash(a) == w.hash(b) && w.hash(a) != ""
    requires w.render(a).Some? && w.render(b).Some? && w.render(a) != w.render(b)
    requires Only(w, later, w.hash(b))
    ensures var st := Run(w, Initial(file), [Sees(a, Succeeded)] + later);
      st.file == w.render(a) && !st.dirty && !Renders(w, st, Sees(b, Succeeded))
  {
    var one := [Sees(a, Succeeded)];
    assert one[..0] == [];
    assert Run(w, Initial(file), []) == Initial(file);
    var s1 := Run(w, Initial(file), one);
    assert s1 == Step(w, Initial(file), Sees(a, Succeeded));
    RunConcat(w, Initial(file), one, later);
    assert forall p :: p in later + [Sees(b, Succeeded)] ==> p in later || p == Sees(b, Succeeded);
    UnchangedIsIdle(w, s1, later, Sees(b, Succeeded));
  }

  /** Such specs are any two that the JSON encoder rejects. */
  lemma UnhashableStale(w: World, d: Digest, file: Option<string>, a: Spec, b: Spec, later: seq<Pass>)
    requires forall s :: w.hash(s) == Hash(d, s)
    requires d.json(a).None? && d.json(b).None?
    requires w.render(a).Some? && w.render(b).Some? && w.render(a) != w.render(b)
    requires Only(w, later, w.hash(b))
    ensures var st := Run(w, Initial(file), [Sees(a, Succeeded)] + later);
      st.file == w.render(a) && !st.dirty && !Renders(w, st, Sees(b, Succeeded))
  {
    assert w.hash(a) == "unhashable" == w.hash(b);
    StaleOnSharedHash(w, file, a, b, later);
  }

  /** The file can disagree with lastHash: A is applied, B is written but its Apply fails, the fleet
      returns to A. Every later pass is skipped, and the file keeps B. */
  lemma StaleAfterRevert(w: World, file: Option<string>, a: Spec, b: Spec, later: seq<Pass>)
    requires w.hash(a) != w.hash(b) && w.hash(a) != "" && w.hash(b) != ""
    requires w.render(a).Some? && w.render(b).Some? && w.render(a) != w.render(b)
    requires Only(w, later, w.hash(a))
    ensures var st := Run(w, Initial(file), [Sees(a, Succeeded), Sees(b, WrittenThenFailed)] + later);
      st.lastHash == w.hash(a) && st.file == w.render(b) && st.file != w.render(a) && st.dirty
  {
    var head := [Sees(a, Succeeded), Sees(b, WrittenThenFailed)];
    var one := [Sees(a, Succeeded)];
    assert head[..1] == one && one[..0] == [];
    assert Run(w, Initial(file), []) == Initial(file);
    var s1 := Run(w, Initial(file), one);
    assert s1 == Step(w, Initial(file), Sees(a, Succeeded));
    var s2 := Run(w, Initial(file), head);
    assert s2 == Step(w, s1, Sees(b, WrittenThenFailed));
    RunConcat(w, Initial(file), head, later);
    assert forall p :: p in later + [ListFails] ==> p in later || p == ListFails;
    UnchangedIsIdle(w, s2, later, ListFails);
  }
}
