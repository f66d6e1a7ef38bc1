/** The string operations of the Go standard library that bilgeline leans on. */
module Strings {
  import opened Wrappers
  import opened Sorting

  // ----- order -----

  /** Code-point order, which is Go's byte order on UTF-8 strings. */
  predicate StrLe(a: string, b: string) {
    |a| == 0 || (|b| > 0 && (a[0] < b[0] || (a[0] == b[0] && StrLe(a[1..], b[1..]))))
  }

  ghost predicate FirstDifference(a: string, b: string, i: int) {
    0 <= i < |a| && i < |b| && a[i] != b[i] && a[..i] == b[..i]
  }

  lemma DifferenceStep(a: string, b: string, i: int)
    requires |a| > 0 && |b| > 0 && a[0] == b[0] && i >= 0
    ensures FirstDifference(a, b, i + 1) <==> FirstDifference(a[1..], b[1..], i)
    ensures !FirstDifference(a, b, 0)
  {
    if i < |a| - 1 && i < |b| - 1 {
      assert a[..i + 1] == [a[0]] + a[1..][..i] && b[..i + 1] == [b[0]] + b[1..][..i];
      assert a[1..][..i] == a[..i + 1][1..] && b[1..][..i] == b[..i + 1][1..];
    }
  }

  lemma PrefixStep(a: string, b: string)
    requires |a| > 0 && |b| > 0 && a[0] == b[0]
    ensures a <= b <==> a[1..] <= b[1..]
  {
    assert a == [a[0]] + a[1..] && b == [b[0]] + b[1..];
  }

  /** Lexicographic: a prefix comes first, else the first difference decides. */
  lemma {:induction false} StrLeExact(a: string, b: string)
    ensures StrLe(a, b) <==> a <= b || exists i :: FirstDifference(a, b, i) && a[i] < b[i]
  {
    if |a| > 0 && |b| > 0 && a[0] == b[0] {
      StrLeExact(a[1..], b[1..]);
      PrefixStep(a, b);
      forall i | i >= 0 { DifferenceStep(a, b, i); }
      DifferenceStep(a, b, 0);
      if i :| FirstDifference(a[1..], b[1..], i) && a[1..][i] < b[1..][i] {
        assert FirstDifference(a, b, i + 1);
      }
      if i :| FirstDifference(a, b, i) && a[i] < b[i] {
        assert FirstDifference(a[1..], b[1..], i - 1);
      }
    } else if |a| > 0 && |b| > 0 {
      assert FirstDifference(a, b, 0);
    }
  }

  lemma {:induction false} StrLeTotal(a: string, b: string)
    ensures StrLe(a, b) || StrLe(b, a)
  {
    if |a| > 0 && |b| > 0 && a[0] == b[0] { StrLeTotal(a[1..], b[1..]); }
  }

  lemma {:induction false} StrLeAntisym(a: string, b: string)
    requires StrLe(a, b) && StrLe(b, a)
    ensures a == b
  {
    if |a| > 0 {
      StrLeAntisym(a[1..], b[1..]);
      assert a == [a[0]] + a[1..] && b == [b[0]] + b[1..];
    }
  }

  lemma {:induction false} StrLeTrans(a: string, b: string, c: string)
    requires StrLe(a, b) && StrLe(b, c)
    ensures StrLe(a, c)
  {
    if |a| > 0 && a[0] == b[0] == c[0] { StrLeTrans(a[1..], b[1..], c[1..]); }
  }

  lemma StrLeLinear()
    ensures Linear(StrLe)
  {
    forall a, b ensures StrLe(a, b) || StrLe(b, a) { StrLeTotal(a, b); }
    forall a, b, c | StrLe(a, b) && StrLe(b, c) ensures StrLe(a, c) { StrLeTrans(a, b, c); }
  }

  /** The sorted listing of a set of strings: what de-duplicating and sorting produce. */
  ghost function SortedSet(s: set<string>): seq<string> {
    if s == {} then [] else var x :| x in s; Insert(x, SortedSet(s - {x}), StrLe)
  }

  lemma {:induction false} SortedSetFacts(s: set<string>)
    ensures Ordered(SortedSet(s), StrLe) && NoDup(SortedSet(s))
    ensures multiset(SortedSet(s)) == multiset(s)
    ensures forall x :: x in SortedSet(s) <==> x in s
    ensures |SortedSet(s)| == |s|
  {
    SortedSetPerm(s);
    assert forall x :: x in SortedSet(s) <==> x in multiset(SortedSet(s));
    assert Elems(SortedSet(s)) == s;
    NoDupMultiset(SortedSet(s));
    assert |multiset(SortedSet(s))| == |SortedSet(s)| && |multiset(s)| == |s|;
  }

  lemma SortedSetMembers(s: set<string>)
    ensures forall j :: 0 <= j < |SortedSet(s)| ==> SortedSet(s)[j] in s
  {
    SortedSetFacts(s);
    forall j | 0 <= j < |SortedSet(s)| ensures SortedSet(s)[j] in s {
      assert SortedSet(s)[j] in SortedSet(s);
    }
  }

  lemma {:induction false} SortedSetPerm(s: set<string>)
    ensures Ordered(SortedSet(s), StrLe) && multiset(SortedSet(s)) == multiset(s)
  {
    if s != {} {
      var x :| x in s && SortedSet(s) == Insert(x, SortedSet(s - {x}), StrLe);
      SortedSetPerm(s - {x});
      StrLeLinear();
      InsertPerm(x, SortedSet(s - {x}), StrLe);
      InsertOrdered(x, SortedSet(s - {x}), StrLe);
      assert multiset(s) == multiset{x} + multiset(s - {x});
    }
  }

  /** Sorting a list without repetitions gives the sorted listing of its elements. */
  lemma SortIsSortedSet(xs: seq<string>)
    requires NoDup(xs)
    ensures Sort(xs, StrLe) == SortedSet(Elems(xs))
  {
    StrLeLinear();
    SortPerm(xs, StrLe);
    SortOrdered(xs, StrLe);
    SortedSetFacts(Elems(xs));
    NoDupMultiset(xs);
    forall a, b | StrLe(a, b) && StrLe(b, a) ensures a == b { StrLeAntisym(a, b); }
    OrderedUnique(Sort(xs, StrLe), SortedSet(Elems(xs)), StrLe);
  }

  // ----- prefixes, splitting and joining -----

  function CutPrefix(s: string, p: string): Option<string> {
    if p <= s then Some(s[|p|..]) else None
  }

  lemma CutPrefixExact(s: string, p: string, t: string)
    ensures CutPrefix(s, p) == Some(t) <==> s == p + t
  {}

  lemma CutPrefixConcat(p: string, t: string)
    ensures CutPrefix(p + t, p) == Some(t)
  {
    assert p <= p + t;
    assert (p + t)[|p|..] == t;
  }

  function Split(s: string, c: char): (r: seq<string>)
    ensures |r| >= 1
  {
    if |s| == 0 then [""]
    else if s[0] == c then [""] + Split(s[1..], c)
    else var r := Split(s[1..], c); [[s[0]] + r[0]] + r[1..]
  }

  function Join(xs: seq<string>, c: char): string {
    if |xs| == 0 then ""
    else if |xs| == 1 then xs[0]
    else xs[0] + [c] + Join(xs[1..], c)
  }

  lemma {:induction false} SplitPlain(s: string, c: char)
    requires c !in s
    ensures Split(s, c) == [s]
  {
    if |s| > 0 {
      SplitPlain(s[1..], c);
      assert [s[0]] + s[1..] == s;
    }
  }

  lemma {:induction false} SplitAt(x: string, t: string, c: char)
    requires c !in x
    ensures Split(x + [c] + t, c) == [x] + Split(t, c)
  {
    var s := x + [c] + t;
    if |x| == 0 {
      assert s == [c] + t;
    } else {
      assert s[1..] == x[1..] + [c] + t;
      SplitAt(x[1..], t, c);
      assert [x[0]] + x[1..] == x;
    }
  }

  /** Splitting a joined list recovers it, when no item holds the separator. */
  lemma {:induction false} SplitJoin(xs: seq<string>, c: char)
    requires |xs| > 0 && forall x :: x in xs ==> c !in x
    ensures Split(Join(xs, c), c) == xs
  {
    assert xs[0] in xs;
    if |xs| == 1 {
      SplitPlain(xs[0], c);
    } else {
      SplitJoin(xs[1..], c);
      SplitAt(xs[0], Join(xs[1..], c), c);
    }
  }

  lemma {:induction false} SplitFree(s: string, c: char)
    ensures forall x :: x in Split(s, c) ==> c !in x
  {
    if |s| > 0 {
      SplitFree(s[1..], c);
      var r := Split(s[1..], c);
      assert r[0] in r;
    }
  }

  lemma {:induction false} JoinSplit(s: string, c: char)
    ensures Join(Split(s, c), c) == s
  {
    if |s| > 0 {
      JoinSplit(s[1..], c);
      var r := Split(s[1..], c);
      if s[0] == c {
        assert ([""] + r)[1..] == r;
      } else {
        assert ([[s[0]] + r[0]] + r[1..])[1..] == r[1..];
      }
    }
  }

  // ----- trimming -----

  function TrimSlash(s: string): string { if "/" <= s then s[1..] else s }

  /** `name` is `n`, with a leading slash or without. */
  predicate Slashed(name: string, n: string) { name == "/" + n || (name == n && !("/" <= n)) }

  lemma SlashedExact(name: string)
    ensures forall n :: Slashed(name, n) <==> n == TrimSlash(name)
  {
    assert "/" <= name ==> name == "/" + name[1..];
    forall n ensures Slashed(name, n) <==> n == TrimSlash(name) {
      assert ("/" + n)[1..] == n;
    }
  }

  predicate IsSpace(c: char) {
    || '\t' <= c <= '\r' || c == ' ' || c == '\U{85}' || c == '\U{A0}' || c == '\U{1680}'
    || '\U{2000}' <= c <= '\U{200A}' || c == '\U{2028}' || c == '\U{2029}'
    || c == '\U{202F}' || c == '\U{205F}' || c == '\U{3000}'
  }

  function TrimLeft(s: string): (r: string)
    ensures |r| == 0 || !IsSpace(r[0])
    ensures forall c :: c in r ==> c in s
  {
    if |s| > 0 && IsSpace(s[0]) then TrimLeft(s[1..]) else s
  }

  function TrimRight(s: string): (r: string)
    ensures r <= s
    ensures |r| == 0 || !IsSpace(r[|r| - 1])
  {
    if |s| > 0 && IsSpace(s[|s| - 1]) then TrimRight(s[..|s| - 1]) else s
  }

  function TrimSpace(s: string): (r: string)
    ensures |r| > 0 ==> !IsSpace(r[0]) && !IsSpace(r[|r| - 1])
    ensures forall c :: c in r ==> c in s
  {
    TrimRight(TrimLeft(s))
  }

  lemma TrimSpaceStable(s: string)
    requires |s| > 0 ==> !IsSpace(s[0]) && !IsSpace(s[|s| - 1])
    ensures TrimSpace(s) == s
  {}

  predicate AllSpace(s: string) { forall c :: c in s ==> IsSpace(c) }

  lemma {:induction false} TrimLeftOf(l: string, m: string)
    requires AllSpace(l) && |m| > 0 && !IsSpace(m[0])
    ensures TrimLeft(l + m) == m
  {
    if |l| == 0 {
      assert l + m == m;
    } else {
      assert l[0] in l && (l + m)[1..] == l[1..] + m;
      TrimLeftOf(l[1..], m);
    }
  }

  lemma {:induction false} TrimRightOf(m: string, r: string)
    requires AllSpace(r) && |m| > 0 && !IsSpace(m[|m| - 1])
    ensures TrimRight(m + r) == m
  {
    if |r| == 0 {
      assert m + r == m;
    } else {
      var n := |r| - 1;
      assert r[n] in r && (m + r)[|m + r| - 1] == r[n] && (m + r)[..|m + r| - 1] == m + r[..n];
      TrimRightOf(m, r[..n]);
    }
  }

  lemma {:induction false} TrimLeftParts(s: string) returns (l: string)
    ensures s == l + TrimLeft(s) && AllSpace(l)
  {
    l := "";
    if |s| > 0 && IsSpace(s[0]) {
      var t := TrimLeftParts(s[1..]);
      l := [s[0]] + t;
      assert s == [s[0]] + s[1..];
    }
  }

  lemma {:induction false} TrimRightParts(s: string) returns (r: string)
    ensures s == TrimRight(s) + r && AllSpace(r)
  {
    r := "";
    if |s| > 0 && IsSpace(s[|s| - 1]) {
      var n := |s| - 1;
      var t := TrimRightParts(s[..n]);
      r := t + [s[n]];
      assert s == s[..n] + [s[n]];
    }
  }

  /** `m` is `s` without the space around it. */
  ghost predicate Trimmed(s: string, m: string) {
    && (|m| > 0 ==> !IsSpace(m[0]) && !IsSpace(m[|m| - 1]))
    && exists l, r :: AllSpace(l) && AllSpace(r) && s == l + m + r
  }

  /** Trimming takes away exactly the space at both ends. */
  lemma TrimSpaceExact(s: string, m: string)
    ensures TrimSpace(s) == m <==> Trimmed(s, m)
  {
    var l := TrimLeftParts(s);
    var r := TrimRightParts(TrimLeft(s));
    assert s == l + TrimSpace(s) + r;
    assert Trimmed(s, TrimSpace(s));
    if Trimmed(s, m) {
      var l', r' :| AllSpace(l') && AllSpace(r') && s == l' + m + r';
      if |m| > 0 {
        assert s == l' + (m + r');
        TrimLeftOf(l', m + r');
        TrimRightOf(m, r');
      } else {
        assert AllSpace(s);
      }
    }
  }

  // ----- scalars -----

  /** Lower case, as far as it can yield an ASCII letter. */
  function Lower(c: char): char {
    if 'A' <= c <= 'Z' then c - 'A' + 'a'
    else if c == '\U{130}' then 'i'
    else if c == '\U{212A}' then 'k'
    else c
  }

  function ToLower(s: string): string { Map(s, Lower) }

  predicate LowerLetters(w: string) { forall i :: 0 <= i < |w| ==> 'a' <= w[i] <= 'z' }

  /** A letter in either case; the Kelvin sign and the dotted capital I are capitals too. */
  predicate SameLetter(c: char, w: char) {
    || c == w
    || (c < w && w as int - c as int == 32)
    || (c == '\U{212A}' && w == 'k')
    || (c == '\U{130}' && w == 'i')
  }

  /** The text reads `w` in any case, with any space around it. */
  ghost predicate Reads(s: string, w: string) {
    exists m :: Trimmed(s, m) && |m| == |w| && forall i :: 0 <= i < |w| ==> SameLetter(m[i], w[i])
  }

  lemma LowerExact(c: char, w: char)
    requires 'a' <= w <= 'z'
    ensures Lower(c) == w <==> SameLetter(c, w)
  {}

  lemma LowersTo(m: string, w: string)
    requires LowerLetters(w)
    ensures ToLower(m) == w <==> |m| == |w| && forall i :: 0 <= i < |w| ==> SameLetter(m[i], w[i])
  {
    hide Lower, SameLetter;
    if |m| == |w| {
      forall i | 0 <= i < |w| ensures ToLower(m)[i] == w[i] <==> SameLetter(m[i], w[i]) { LowerExact(m[i], w[i]); }
    }
  }

  lemma ReadsExact(s: string, w: string)
    requires LowerLetters(w)
    ensures Reads(s, w) <==> ToLower(TrimSpace(s)) == w
  {
    hide TrimSpace, ToLower, Trimmed, SameLetter;
    TrimSpaceExact(s, TrimSpace(s));
    LowersTo(TrimSpace(s), w);
    if Reads(s, w) {
      var m :| Trimmed(s, m) && |m| == |w| && forall i :: 0 <= i < |w| ==> SameLetter(m[i], w[i]);
      TrimSpaceExact(s, m);
    }
  }

  /** strconv.ParseBool. */
  function ParseBool(s: string): Option<bool> {
    if s in ["1", "t", "T", "TRUE", "true", "True"] then Some(true)
    else if s in ["0", "f", "F", "FALSE", "false", "False"] then Some(false)
    else None
  }

  predicate IsDigit(c: char) { '0' <= c <= '9' }

  function Digits(s: string): nat
    requires forall c :: c in s ==> IsDigit(c)
  {
    if |s| == 0 then 0
    else
      assert IsDigit(s[|s| - 1]);
      Digits(s[..|s| - 1]) * 10 + (s[|s| - 1] as int - '0' as int)
  }

  const MAX_INT64: int := 0x7fff_ffff_ffff_ffff

  /** strconv.Atoi on a 64-bit platform: an optional sign, digits, and a range check. */
  function Atoi(s: string): Option<int> {
    var neg := |s| > 0 && s[0] == '-';
    var body := if |s| > 0 && (s[0] == '-' || s[0] == '+') then s[1..] else s;
    if |body| == 0 || exists c :: c in body && !IsDigit(c) then None
    else
      var n: int := if neg then 0 - Digits(body) else Digits(body);
      if -MAX_INT64 - 1 <= n <= MAX_INT64 then Some(n) else None
  }

  function Decimal(n: nat): string {
    if n < 10 then ['0' + n as char] else Decimal(n / 10) + ['0' + (n % 10) as char]
  }

  lemma {:induction false} DecimalDigits(n: nat)
    ensures |Decimal(n)| > 0 && forall c :: c in Decimal(n) ==> IsDigit(c)
    ensures Digits(Decimal(n)) == n
  {
    if n < 10 {
      assert Decimal(n)[..0] == "";
    } else {
      DecimalDigits(n / 10);
      var d := ['0' + (n % 10) as char];
      assert Decimal(n)[..|Decimal(n)| - 1] == Decimal(n / 10);
    }
  }

  /** Atoi reads back every printed number of its range, under either sign, and refuses the rest. */
  lemma AtoiPrinted(n: int)
    requires n >= 0
    ensures Atoi(Decimal(n)) == Atoi("+" + Decimal(n)) == if n <= MAX_INT64 then Some(n) else None
    ensures Atoi("-" + Decimal(n)) == if n <= MAX_INT64 + 1 then Some(-n) else None
  {
    DecimalDigits(n);
    assert Decimal(n)[0] in Decimal(n);
    assert ("+" + Decimal(n))[1..] == Decimal(n) && ("-" + Decimal(n))[1..] == Decimal(n);
  }

  /** What is no number: nothing but a sign, or anything that is not a digit. */
  lemma AtoiRefuses(s: string)
    ensures Atoi("").None? && Atoi("-").None? && Atoi("+").None?
    ensures |s| > 0 && (exists c :: c in s[1..] && !IsDigit(c)) ==> Atoi(s).None?
  {
    assert "-"[1..] == "" && "+"[1..] == "";
    if |s| > 0 { assert s == [s[0]] + s[1..]; }
  }
}
