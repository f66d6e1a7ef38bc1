/** internal/backend/otelcol/apply.go, the mount guard: whether a container mounts the shared
    configuration file, read off path strings, is containment of path components. */
module Paths {
  import opened Strings
  import opened Host

  predicate Rooted(p: string) { "/" <= p }

  /** One path element applied to the elements kept so far, as filepath.Clean does. */
  function Push(stack: seq<string>, c: string, rooted: bool): seq<string> {
    if c == "" || c == "." then stack
    else if c == ".." then
      if |stack| > 0 && stack[|stack| - 1] != ".." then stack[..|stack| - 1]
      else if rooted then stack else stack + [".."]
    else stack + [c]
  }

  function PushAll(stack: seq<string>, cs: seq<string>, rooted: bool): seq<string>
    decreases cs
  {
    if |cs| == 0 then stack else PushAll(Push(stack, cs[0], rooted), cs[1..], rooted)
  }

  /** The elements of a cleaned path. */
  function Components(p: string): seq<string> { PushAll([], Split(p, '/'), Rooted(p)) }

  function Clean(p: string): string {
    if Rooted(p) then "/" + Join(Components(p), '/')
    else if |Components(p)| == 0 then "." else Join(Components(p), '/')
  }

  /** The path up to and including its last separator. */
  function DirPart(p: string): string {
    if |p| == 0 || p[|p| - 1] == '/' then p else DirPart(p[..|p| - 1])
  }

  function Dir(p: string): string { Clean(DirPart(p)) }

  predicate IsAncestorDir(dir: string, path: string) {
    if dir == "/" then "/" <= path && path != "/" else dir + "/" <= path
  }

  predicate Covers(destination: string, sharedPath: string) {
    var target := Clean(sharedPath);
    var dest := Clean(destination);
    dest == target || dest == Dir(target) || IsAncestorDir(dest, target)
  }

  predicate MountsSharedPath(mounts: seq<Mount>, sharedPath: string) {
    exists m :: m in mounts && Covers(m.destination, sharedPath)
  }

  // ----- component lists -----

  predicate SlashFree(c: string) { '/' !in c }

  predicate Plain(c: string) { c != "" && c != "." && SlashFree(c) }

  predicate PlainAll(cs: seq<string>, rooted: bool) {
    forall c :: c in cs ==> Plain(c) && (rooted ==> c != "..")
  }

  lemma {:induction false} PushAllPlain(stack: seq<string>, cs: seq<string>, rooted: bool)
    requires PlainAll(stack, rooted) && forall c :: c in cs ==> SlashFree(c)
    ensures PlainAll(PushAll(stack, cs, rooted), rooted)
    decreases cs
  {
    if |cs| > 0 {
      assert cs[0] in cs && cs == [cs[0]] + cs[1..];
      PushAllPlain(Push(stack, cs[0], rooted), cs[1..], rooted);
    }
  }

  lemma ComponentsPlain(p: string)
    ensures PlainAll(Components(p), Rooted(p))
  {
    SplitFree(p, '/');
    PushAllPlain([], Split(p, '/'), Rooted(p));
  }

  lemma {:induction false} PushAllKeeps(stack: seq<string>, cs: seq<string>)
    requires PlainAll(cs, true)
    ensures PushAll(stack, cs, true) == stack + cs
    decreases cs
  {
    if |cs| > 0 {
      assert cs[0] in cs && cs == [cs[0]] + cs[1..];
      PushAllKeeps(stack + [cs[0]], cs[1..]);
    }
  }

  lemma {:induction false} PushAllConcat(stack: seq<string>, xs: seq<string>, ys: seq<string>, rooted: bool)
    ensures PushAll(stack, xs + ys, rooted) == PushAll(PushAll(stack, xs, rooted), ys, rooted)
    decreases xs
  {
    if |xs| == 0 {
      assert xs + ys == ys;
    } else {
      assert (xs + ys)[1..] == xs[1..] + ys;
      PushAllConcat(Push(stack, xs[0], rooted), xs[1..], ys, rooted);
    }
  }

  lemma {:induction false} SplitSnoc(p: string, c: string)
    requires SlashFree(c)
    ensures Split(p + "/" + c, '/') == Split(p, '/') + [c]
  {
    if |p| == 0 {
      assert p + "/" + c == "/" + c;
      assert ("/" + c)[1..] == c;
      SplitPlain(c, '/');
    } else {
      assert (p + "/" + c)[1..] == p[1..] + "/" + c && (p + "/" + c)[0] == p[0];
      SplitSnoc(p[1..], c);
      var r := Split(p[1..], '/');
      assert (r + [c])[1..] == r[1..] + [c] && (r + [c])[0] == r[0];
      assert [[p[0]] + r[0]] + (r[1..] + [c]) == [[p[0]] + r[0]] + r[1..] + [c];
      assert [""] + (r + [c]) == [""] + r + [c];
    }
  }

  /** What a path denotes, one element at a time: an empty element or a dot changes nothing, two dots
      climb, but never above the root and past the start of a relative path, and anything else descends. */
  lemma ComponentsStep(p: string, c: string)
    requires p != "" && SlashFree(c)
    ensures var before, after := Components(p), Components(p + "/" + c);
      if c in {"", "."} then after == before
      else if c != ".." then after == before + [c]
      else if before != [] && before[|before| - 1] != ".." then after == before[..|before| - 1]
      else after == (if Rooted(p) then [] else before + [".."])
    ensures Components("/") == []
  {
    SplitSnoc(p, c);
    assert Rooted(p + "/" + c) == Rooted(p);
    PushAllConcat([], Split(p, '/'), [c], Rooted(p));
    ComponentsPlain(p);
    var before := Components(p);
    assert [c][1..] == [];
    if |before| > 0 { assert before[|before| - 1] in before; }
    assert Split("/", '/') == ["", ""] by { assert "/"[1..] == ""; }
    assert ["", ""][1..] == [""] && [""][1..] == [];
  }

  /** Components spelled out with a separator before each: "/a/b". */
  function Spell(cs: seq<string>): string {
    if |cs| == 0 then "" else "/" + cs[0] + Spell(cs[1..])
  }

  lemma {:induction false} SpellJoin(cs: seq<string>)
    requires |cs| > 0
    ensures "/" + Join(cs, '/') == Spell(cs)
  {
    if |cs| == 1 {
      assert cs[1..] == [];
    } else {
      SpellJoin(cs[1..]);
      assert Spell(cs) == "/" + cs[0] + ("/" + Join(cs[1..], '/'));
    }
  }

  lemma {:induction false} SpellConcat(xs: seq<string>, ys: seq<string>)
    ensures Spell(xs + ys) == Spell(xs) + Spell(ys)
  {
    if |xs| == 0 {
      assert xs + ys == ys;
    } else {
      assert (xs + ys)[1..] == xs[1..] + ys;
      SpellConcat(xs[1..], ys);
    }
  }

  lemma SplitSlash(t: string)
    ensures Split("/" + t, '/') == [""] + Split(t, '/')
  {
    assert ("/" + t)[1..] == t;
  }

  lemma Unslash(x: seq<string>, y: seq<string>)
    requires [""] + x == [""] + y
    ensures x == y
  {
    assert x == ([""] + x)[1..] && y == ([""] + y)[1..];
  }

  lemma {:induction false} SplitSpell(cs: seq<string>, t: string)
    requires forall c :: c in cs ==> SlashFree(c)
    ensures Split(Spell(cs) + "/" + t, '/') == [""] + (cs + Split(t, '/'))
  {
    if |cs| == 0 {
      assert Spell(cs) + "/" + t == "/" + t;
      SplitSlash(t);
      assert cs + Split(t, '/') == Split(t, '/');
    } else {
      SplitSpell(cs[1..], t);
      SplitSpellStep(cs, t);
    }
  }

  lemma SplitSpellStep(cs: seq<string>, t: string)
    requires |cs| > 0 && SlashFree(cs[0])
    requires Split(Spell(cs[1..]) + "/" + t, '/') == [""] + (cs[1..] + Split(t, '/'))
    ensures Split(Spell(cs) + "/" + t, '/') == [""] + (cs + Split(t, '/'))
  {
    hide Split;
    var rest := Spell(cs[1..]) + "/" + t;
    assert rest[0] == '/' by { if |cs[1..]| > 0 { assert Spell(cs[1..])[0] == '/'; } }
    var more := rest[1..];
    assert rest == "/" + more;
    SplitSlash(more);
    Unslash(Split(more, '/'), cs[1..] + Split(t, '/'));
    SplitAt(cs[0], more, '/');
    assert Spell(cs) + "/" + t == "/" + (cs[0] + ['/'] + more);
    SplitSlash(cs[0] + ['/'] + more);
    assert [cs[0]] + (cs[1..] + Split(t, '/')) == cs + Split(t, '/');
  }

  lemma SpellOne(c: string)
    ensures Spell([c]) == "/" + c
  {
    assert [c][1..] == [];
    assert "/" + c + "" == "/" + c;
  }

  lemma SpellLast(cs: seq<string>)
    requires |cs| > 0
    ensures Spell(cs) == Spell(cs[..|cs| - 1]) + "/" + cs[|cs| - 1]
  {
    hide Spell;
    var front, last := cs[..|cs| - 1], cs[|cs| - 1];
    assert cs == front + [last];
    SpellConcat(front, [last]);
    SpellOne(last);
    assert Spell(front) + ("/" + last) == Spell(front) + "/" + last;
  }

  lemma SplitSpelled(cs: seq<string>)
    requires |cs| > 0 && forall c :: c in cs ==> SlashFree(c)
    ensures Split(Spell(cs), '/') == [""] + cs
  {
    hide Split, Spell, SlashFree;
    var n := |cs| - 1;
    var front, last := cs[..n], cs[n];
    assert cs == front + [last] && last in cs;
    assert forall c :: c in front ==> c in cs;
    SpellLast(cs);
    SplitSpell(front, last);
    assert Split(last, '/') == [last] by { SlashFreeMeans(last); SplitPlain(last, '/'); }
  }

  lemma SlashFreeMeans(c: string)
    ensures SlashFree(c) <==> '/' !in c
  {}

  lemma SpellInjective(xs: seq<string>, ys: seq<string>)
    requires |xs| > 0 && |ys| > 0 && PlainAll(xs, true) && PlainAll(ys, true)
    ensures Spell(xs) == Spell(ys) <==> xs == ys
  {
    SplitSpelled(xs);
    SplitSpelled(ys);
    if Spell(xs) == Spell(ys) {
      assert ([""] + xs)[1..] == xs && ([""] + ys)[1..] == ys;
    }
  }

  lemma PrefixSplits(d: seq<string>, t: seq<string>)
    requires |t| > 0 && PlainAll(d, true) && PlainAll(t, true) && Spell(d) + "/" <= Spell(t)
    ensures d < t
  {
    hide Split, Spell, SlashFree;
    var rest := Spell(t)[|Spell(d)| + 1..];
    assert Spell(t) == Spell(d) + "/" + rest;
    SplitSpell(d, rest);
    SplitSpelled(t);
    Unslash(t, d + Split(rest, '/'));
  }

  /** On separator boundaries a string prefix is a prefix of components. */
  lemma SpellPrefix(d: seq<string>, t: seq<string>)
    requires |t| > 0 && PlainAll(d, true) && PlainAll(t, true)
    ensures Spell(d) + "/" <= Spell(t) <==> d < t
  {
    if Spell(d) + "/" <= Spell(t) {
      PrefixSplits(d, t);
    }
    if d < t {
      var e := t[|d|..];
      assert t == d + e;
      SpellConcat(d, e);
      assert Spell(e)[0] == '/';
    }
  }

  lemma {:induction false} DirPartOf(p: string, c: string)
    requires '/' !in c
    ensures DirPart(p + "/" + c) == p + "/"
  {
    var s := p + "/" + c;
    if |c| == 0 {
      assert s == p + "/";
    } else {
      assert s[..|s| - 1] == p + "/" + c[..|c| - 1];
      assert s[|s| - 1] == c[|c| - 1] && c[|c| - 1] in c;
      DirPartOf(p, c[..|c| - 1]);
    }
  }

  lemma CleanSpelled(cs: seq<string>)
    requires PlainAll(cs, true)
    ensures Components(Spell(cs) + "/") == cs && Rooted(Spell(cs) + "/")
  {
    SplitSpell(cs, "");
    assert [""] + (cs + [""]) == [""] + cs + [""];
    assert Spell(cs) + "/" + "" == Spell(cs) + "/";
    assert Rooted(Spell(cs) + "/");
    PushAllConcat([], [""], cs + [""], true);
    PushAllConcat([], cs, [""], true);
    PushAllKeeps([], cs);
    assert [""] + cs + [""] == [""] + (cs + [""]);
    assert [""][1..] == [];
    assert PushAll([], [""], true) == [] && PushAll(cs, [""], true) == cs;
  }

  // ----- the guard -----

  /** How a rooted component list reads as a clean path. */
  function Abs(cs: seq<string>): string { "/" + Join(cs, '/') }

  lemma AbsSpell(cs: seq<string>)
    ensures Abs(cs) == if |cs| == 0 then "/" else Spell(cs)
  {
    if |cs| > 0 { SpellJoin(cs); }
  }

  /** The parent of a clean rooted path drops its last component. */
  lemma DirOfAbs(t: seq<string>)
    requires PlainAll(t, true)
    ensures Dir(Abs(t)) == Abs(if |t| == 0 then [] else t[..|t| - 1])
  {
    AbsSpell(t);
    if |t| == 0 {
      assert DirPart("/") == "/";
      CleanSpelled([]);
      assert Spell([]) + "/" == "/";
    } else {
      var n := |t| - 1;
      assert t == t[..n] + [t[n]] && t[n] in t && [t[n]][1..] == [];
      SpellLast(t);
      DirPartOf(Spell(t[..n]), t[n]);
      CleanSpelled(t[..n]);
    }
  }

  lemma AbsAncestor(d: seq<string>, t: seq<string>)
    requires PlainAll(d, true) && PlainAll(t, true)
    ensures IsAncestorDir(Abs(d), Abs(t)) <==> d < t
    ensures Abs(d) == Abs(t) <==> d == t
  {
    AbsSpell(d);
    AbsSpell(t);
    if |d| > 0 && |t| > 0 {
      SpellInjective(d, t);
      SpellPrefix(d, t);
      NotRoot(d);
    }
    if |t| > 0 { NotRoot(t); }
    if |d| > 0 { NotRoot(d); }
  }

  lemma NotRoot(cs: seq<string>)
    requires |cs| > 0 && PlainAll(cs, true)
    ensures |Spell(cs)| > 1 && Spell(cs)[0] == '/'
  {
    assert cs[0] in cs;
  }

  lemma RelativeNeverCovers(destination: string, sharedPath: string)
    requires Rooted(sharedPath) && !Rooted(destination)
    ensures !Covers(destination, sharedPath)
  {
    ComponentsPlain(destination);
    ComponentsPlain(sharedPath);
    var cs := Components(destination);
    var dest := Clean(destination);
    assert |dest| > 0 && dest[0] != '/' by {
      if |cs| > 0 {
        assert cs[0] in cs;
        assert dest[0] == cs[0][0];
        assert cs[0][0] in cs[0];
      }
    }
    var t := Components(sharedPath);
    assert Clean(sharedPath) == Abs(t);
    DirOfAbs(t);
    assert Abs(t)[0] == '/' && Dir(Abs(t))[0] == '/';
    assert dest != "/" && (dest + "/")[0] == dest[0];
  }

  /** A mount covers the shared path exactly when it is rooted and its components are a prefix
      of the shared path's: "/config" covers "/config/otelcol.yaml", "/con" does not. */
  lemma CoversExact(destination: string, sharedPath: string)
    requires Rooted(sharedPath)
    ensures Covers(destination, sharedPath) <==>
      Rooted(destination) && Components(destination) <= Components(sharedPath)
  {
    if !Rooted(destination) {
      RelativeNeverCovers(destination, sharedPath);
    } else {
      var d, t := Components(destination), Components(sharedPath);
      ComponentsPlain(destination);
      ComponentsPlain(sharedPath);
      DirOfAbs(t);
      AbsAncestor(d, t);
      var parent := if |t| == 0 then [] else t[..|t| - 1];
      AbsAncestor(d, parent);
      assert parent <= t;
      assert Clean(destination) == Abs(d) && Clean(sharedPath) == Abs(t);
    }
  }

  lemma MountGuardExact(mounts: seq<Mount>, sharedPath: string)
    requires Rooted(sharedPath)
    ensures MountsSharedPath(mounts, sharedPath) <==>
      exists m :: m in mounts && Rooted(m.destination) && Components(m.destination) <= Components(sharedPath)
  {
    forall m: Mount { CoversExact(m.destination, sharedPath); }
  }
}
