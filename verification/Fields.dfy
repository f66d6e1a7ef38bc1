/** internal/discovery/fields.go: reading typed values out of normalized labels. */
module Fields {
  import opened Wrappers
  import opened Sorting
  import opened Strings

  function Lookup(m: map<string, string>, k: string): string {
    if k in m then m[k] else ""
  }

  /** parseBool with a default for an absent or empty label; None on an invalid value. */
  function ParseBoolOr(m: map<string, string>, k: string, def: bool): Option<bool> {
    if Lookup(m, k) == "" then Some(def) else ParseBool(m[k])
  }

  // ----- comma-separated lists -----

  predicate NonEmpty(s: string) { |s| > 0 }

  function CSV(v: string): seq<string> {
    Filter(Map(Split(v, ','), TrimSpace), NonEmpty)
  }

  lemma CSVEmpty()
    ensures CSV("") == []
  {
    assert Split("", ',') == [""];
    assert Map([""], TrimSpace) == [""];
  }

  method SplitCSV(v: string) returns (out: seq<string>)
    ensures out == CSV(v)
  {
    if v == "" {
      CSVEmpty();
      return [];
    }
    var fields := Split(v, ',');
    ghost var trimmed := Map(fields, TrimSpace);
    out := [];
    for i := 0 to |fields|
      invariant out == Filter(trimmed[..i], NonEmpty)
    {
      var f := TrimSpace(fields[i]);
      assert trimmed[..i + 1] == trimmed[..i] + [f];
      FilterSnoc(trimmed[..i], f, NonEmpty);
      if f != "" {
        out := out + [f];
      }
    }
    assert trimmed[..|fields|] == trimmed;
  }

  /** A list item as splitCSV can produce it. */
  predicate Item(s: string) {
    |s| > 0 && ',' !in s && !IsSpace(s[0]) && !IsSpace(s[|s| - 1])
  }

  lemma CSVItems(v: string)
    ensures forall x :: x in CSV(v) ==> Item(x)
  {
    SplitFree(v, ',');
    forall x | x in CSV(v) ensures Item(x) {
      assert x in Map(Split(v, ','), TrimSpace);
      var i :| 0 <= i < |Split(v, ',')| && x == TrimSpace(Split(v, ',')[i]);
      assert Split(v, ',')[i] in Split(v, ',');
    }
  }

  /** The items are what is between the commas, trimmed, where anything is left. */
  lemma CSVExact(v: string, x: string)
    ensures x in CSV(v) <==> x != "" && exists part :: part in Split(v, ',') && Trimmed(part, x)
  {
    hide TrimSpace, Trimmed, Split;
    var parts := Split(v, ',');
    var trimmed := Map(parts, TrimSpace);
    assert x in CSV(v) <==> x in trimmed && x != "";
    forall part { TrimSpaceExact(part, x); }
    if part :| part in parts && Trimmed(part, x) {
      var i :| 0 <= i < |parts| && parts[i] == part;
      assert trimmed[i] == x;
    }
    if x in trimmed {
      var i :| 0 <= i < |parts| && trimmed[i] == x;
      assert parts[i] in parts && Trimmed(parts[i], x);
    }
  }

  /** Joining any list of items and splitting it again loses nothing. */
  lemma CSVRoundTrip(xs: seq<string>)
    requires forall x :: x in xs ==> Item(x)
    ensures CSV(Join(xs, ',')) == xs
  {
    if |xs| == 0 {
      assert Split("", ',') == [""];
      assert Map([""], TrimSpace) == [""];
    } else {
      SplitJoin(xs, ',');
      forall i | 0 <= i < |xs| ensures TrimSpace(xs[i]) == xs[i] {
        assert xs[i] in xs;
        TrimSpaceStable(xs[i]);
      }
      assert Map(xs, TrimSpace) == xs;
      FilterAll(xs);
    }
  }

  lemma {:induction false} FilterAll(xs: seq<string>)
    requires forall x :: x in xs ==> NonEmpty(x)
    ensures Filter(xs, NonEmpty) == xs
  {
    if |xs| > 0 {
      assert xs[0] in xs;
      FilterAll(xs[1..]);
      assert xs == [xs[0]] + xs[1..];
    }
  }

  // ----- indexed escape-hatch labels -----

  datatype Indexed = Indexed(idx: int, val: string)

  predicate ByIndex(a: Indexed, b: Indexed) { a.idx <= b.idx }

  /** The label `k` read as "<prefix>.<n>". */
  function IndexOf(prefix: string, k: string): Option<int> {
    match CutPrefix(k, prefix + ".")
    case None => None
    case Some(rest) => Atoi(rest)
  }

  function ItemAt(m: map<string, string>, prefix: string): string -> seq<Indexed> {
    (k: string) =>
      if k in m && IndexOf(prefix, k).Some? then [Indexed(IndexOf(prefix, k).value, m[k])] else []
  }

  function ValOf(i: Indexed): string { i.val }

  /** The indexed values in ascending index order. `order` is the order the label map is
      walked in, which settles ties between spellings such as "1" and "01". */
  function IndexedIn(m: map<string, string>, prefix: string, order: seq<string>): seq<string> {
    Map(Sort(FlatMap(order, ItemAt(m, prefix)), ByIndex), ValOf)
  }

  method IndexedValues(m: map<string, string>, prefix: string, order: seq<string>)
      returns (out: seq<string>)
    requires NoDup(order) && Elems(order) == m.Keys
    ensures out == IndexedIn(m, prefix, order)
  {
    hide Atoi, CutPrefix;
    var items: seq<Indexed> := [];
    for i := 0 to |order|
      invariant items == FlatMap(order[..i], ItemAt(m, prefix))
    {
      var k := order[i];
      assert k in Elems(order);
      assert order[..i + 1] == order[..i] + [k];
      FlatMapSnoc(order[..i], k, ItemAt(m, prefix));
      match CutPrefix(k, prefix + ".") {
        case None =>
        case Some(rest) =>
          match Atoi(rest) {
            case None =>
            case Some(n) => items := items + [Indexed(n, m[k])];
          }
      }
    }
    assert order[..|order|] == order;
    var sorted := Sort(items, ByIndex);
    out := [];
    for i := 0 to |sorted|
      invariant out == Map(sorted, ValOf)[..i]
    {
      out := out + [sorted[i].val];
    }
  }

  /** The label `k` spells "<prefix>.<n>". */
  ghost predicate Numbered(prefix: string, k: string, n: int) {
    exists rest :: k == prefix + "." + rest && Atoi(rest) == Some(n)
  }

  lemma NumberedExact(prefix: string, k: string, n: int)
    ensures IndexOf(prefix, k) == Some(n) <==> Numbered(prefix, k, n)
  {
    hide Atoi;
    forall rest { CutPrefixExact(k, prefix + ".", rest); }
  }

  lemma {:induction false} ItemsOf(m: map<string, string>, prefix: string, order: seq<string>)
    ensures forall i :: i in FlatMap(order, ItemAt(m, prefix)) <==>
      exists k :: k in order && k in m && Numbered(prefix, k, i.idx) && m[k] == i.val
  {
    hide IndexOf, Numbered;
    FlatMapElems(order, ItemAt(m, prefix));
    forall k, n { NumberedExact(prefix, k, n); }
  }

  function IdxOf(i: Indexed): int { i.idx }

  predicate Ascending(ns: seq<int>) { forall i, j :: 0 <= i < j < |ns| ==> ns[i] <= ns[j] }

  /** Some label spells the number `n` and carries `v`. */
  ghost predicate SpelledBy(m: map<string, string>, prefix: string, n: int, v: string) {
    exists k :: k in m && Numbered(prefix, k, n) && m[k] == v
  }

  /** Each value carries a number of a label it belongs to, and the numbers ascend. */
  ghost predicate InOrder(m: map<string, string>, prefix: string, vs: seq<string>) {
    exists ns: seq<int> :: |ns| == |vs| && Ascending(ns) && (forall i :: 0 <= i < |vs| ==> SpelledBy(m, prefix, ns[i], vs[i]))
  }

  /** The values are those of the numbered labels, smaller numbers first. */
  lemma IndexedExact(m: map<string, string>, prefix: string, order: seq<string>)
    requires Walks(order, m)
    ensures forall v :: v in IndexedIn(m, prefix, order) <==> exists n :: SpelledBy(m, prefix, n, v)
    ensures InOrder(m, prefix, IndexedIn(m, prefix, order))
  {
    hide Numbered, IndexOf, ItemAt, Sort, SpelledBy;
    var items := FlatMap(order, ItemAt(m, prefix));
    var sorted := Sort(items, ByIndex);
    SortPerm(items, ByIndex);
    SortOrdered(items, ByIndex);
    SameElems(sorted, items);
    forall i: Indexed ensures i in sorted <==> SpelledBy(m, prefix, i.idx, i.val) { ItemSpelled(m, prefix, order, i); }
    var ns, vs := Map(sorted, IdxOf), Map(sorted, ValOf);
    forall i | 0 <= i < |ns| ensures SpelledBy(m, prefix, ns[i], vs[i]) {
      assert sorted[i] in sorted;
    }
    assert Ascending(ns);
    forall v, n | SpelledBy(m, prefix, n, v) ensures v in vs {
      assert Indexed(n, v) in sorted;
      var i :| 0 <= i < |sorted| && sorted[i] == Indexed(n, v);
      assert vs[i] == v;
    }
    forall v | v in vs ensures exists n :: SpelledBy(m, prefix, n, v) {
      var i :| 0 <= i < |vs| && vs[i] == v;
      assert SpelledBy(m, prefix, ns[i], v);
    }
  }

  lemma ItemSpelled(m: map<string, string>, prefix: string, order: seq<string>, i: Indexed)
    requires Walks(order, m)
    ensures i in FlatMap(order, ItemAt(m, prefix)) <==> SpelledBy(m, prefix, i.idx, i.val)
  {
    hide Numbered, IndexOf, ItemAt;
    ItemsOf(m, prefix, order);
    assert forall k :: k in order <==> k in m by { assert forall k :: k in Elems(order) <==> k in m.Keys; }
  }

  /** Labels that spell the same index carry the same value. */
  ghost predicate TiesAgree(m: map<string, string>, prefix: string) {
    forall a, b | a in m && b in m && IndexOf(prefix, a).Some? ::
      IndexOf(prefix, a) == IndexOf(prefix, b) ==> m[a] == m[b]
  }

  ghost predicate Walks(order: seq<string>, m: map<string, string>) {
    NoDup(order) && Elems(order) == m.Keys
  }

  /** When ties agree the walk order of the label map does not show. */
  lemma IndexedOrderFree(m: map<string, string>, prefix: string, o1: seq<string>, o2: seq<string>)
    requires Walks(o1, m) && Walks(o2, m) && TiesAgree(m, prefix)
    ensures IndexedIn(m, prefix, o1) == IndexedIn(m, prefix, o2)
  {
    var f := ItemAt(m, prefix);
    var i1, i2 := FlatMap(o1, f), FlatMap(o2, f);
    NoDupMultiset(o1);
    NoDupMultiset(o2);
    FlatMapPerm(o1, o2, f);
    SortPerm(i1, ByIndex);
    SortPerm(i2, ByIndex);
    SortOrdered(i1, ByIndex);
    SortOrdered(i2, ByIndex);
    SameElems(Sort(i1, ByIndex), i1);
    ItemsSeparate(m, prefix, o1);
    OrderedUnique(Sort(i1, ByIndex), Sort(i2, ByIndex), ByIndex);
  }

  lemma ItemsSeparate(m: map<string, string>, prefix: string, order: seq<string>)
    requires TiesAgree(m, prefix)
    ensures forall a, b | a in FlatMap(order, ItemAt(m, prefix)) && b in FlatMap(order, ItemAt(m, prefix)) ::
      ByIndex(a, b) && ByIndex(b, a) ==> a == b
  {
    hide IndexOf;
    var f := ItemAt(m, prefix);
    FlatMapElems(order, f);
    forall a, b | a in FlatMap(order, f) && b in FlatMap(order, f) && ByIndex(a, b) && ByIndex(b, a)
      ensures a == b
    {
      var x :| x in order && a in f(x);
      var y :| y in order && b in f(y);
      assert IndexOf(prefix, x) == Some(a.idx) == Some(b.idx) == IndexOf(prefix, y);
    }
  }

  /** Of two items with one index, the one met first comes out first. */
  lemma {:induction false} TieShows(x: Indexed, y: Indexed, s: seq<Indexed>) returns (k: nat)
    requires x.idx == y.idx
    ensures k < |s| + 2
    ensures |Insert(x, Insert(y, s, ByIndex), ByIndex)| == |Insert(y, Insert(x, s, ByIndex), ByIndex)| == |s| + 2
    ensures Insert(x, Insert(y, s, ByIndex), ByIndex)[k] == x
    ensures Insert(y, Insert(x, s, ByIndex), ByIndex)[k] == y
  {
    if |s| == 0 || ByIndex(x, s[0]) {
      k := 0;
    } else {
      var j := TieShows(x, y, s[1..]);
      assert Insert(x, s, ByIndex)[1..] == Insert(x, s[1..], ByIndex);
      assert Insert(y, s, ByIndex)[1..] == Insert(y, s[1..], ByIndex);
      k := j + 1;
    }
  }

  /** Exactly when the indexed values do not depend on the walk order: "drop.1" beside "drop.01"
      is harmless only if both carry the same value. */
  lemma OrderFreeExact(m: map<string, string>, prefix: string)
    ensures TiesAgree(m, prefix) <==>
      forall o1, o2 :: Walks(o1, m) && Walks(o2, m) ==> IndexedIn(m, prefix, o1) == IndexedIn(m, prefix, o2)
  {
    hide IndexOf, IndexedIn, Walks;
    if TiesAgree(m, prefix) {
      forall o1, o2 | Walks(o1, m) && Walks(o2, m) ensures IndexedIn(m, prefix, o1) == IndexedIn(m, prefix, o2) {
        IndexedOrderFree(m, prefix, o1, o2);
      }
    } else {
      var a, b :| a in m && b in m && IndexOf(prefix, a).Some? && IndexOf(prefix, a) == IndexOf(prefix, b)
                  && m[a] != m[b];
      var rest := SortedSet(m.Keys - {a, b});
      BothWalk(m, a, b);
      TieDiffers(m, prefix, a, b, rest);
    }
  }

  lemma BothWalk(m: map<string, string>, a: string, b: string)
    requires a in m && b in m && a != b
    ensures var rest := SortedSet(m.Keys - {a, b});
      Walks([a, b] + rest, m) && Walks([b, a] + rest, m)
  {
    SortedSetFacts(m.Keys - {a, b});
    hide SortedSet;
    PairWalks(m, a, b, SortedSet(m.Keys - {a, b}));
    PairWalks(m, b, a, SortedSet(m.Keys - {a, b}));
  }

  lemma PairWalks(m: map<string, string>, a: string, b: string, rest: seq<string>)
    requires a in m && b in m && a != b
    requires NoDup(rest) && forall x :: x in rest <==> x in m && x != a && x != b
    ensures Walks([a, b] + rest, m)
  {
    assert Elems([a, b] + rest) == m.Keys;
  }

  /** Two spellings of one index. */
  lemma OneSpelledTwice()
    ensures IndexOf("drop", "drop.1") == IndexOf("drop", "drop.01") == Some(1)
  {
    assert "drop" + "." == "drop.";
    assert "drop." <= "drop.1" && "drop.1"[5..] == "1";
    assert "drop." <= "drop.01" && "drop.01"[5..] == "01";
    assert Atoi("1") == Some(1) by { assert Digits("1") == 1 by { assert "1"[..0] == ""; } }
    assert Atoi("01") == Some(1) by {
      assert "01"[..1] == "0" && "0"[..0] == "";
      assert Digits("0") == 0;
      assert Digits("01") == 1;
    }
  }

  /** So a container with both, carrying different patterns, has its drops in the order its labels
      happened to be walked. */
  lemma DropOneTwice(x: string, y: string)
    requires x != y
    ensures var m := map["drop.1" := x, "drop.01" := y];
      IndexedIn(m, "drop", ["drop.1", "drop.01"]) != IndexedIn(m, "drop", ["drop.01", "drop.1"])
  {
    OneSpelledTwice();
    assert "drop.1" != "drop.01" by { assert |"drop.1"| != |"drop.01"|; }
    TieDiffers(map["drop.1" := x, "drop.01" := y], "drop", "drop.1", "drop.01", []);
    assert ["drop.1", "drop.01"] + [] == ["drop.1", "drop.01"];
    assert ["drop.01", "drop.1"] + [] == ["drop.01", "drop.1"];
  }

  lemma TieDiffers(m: map<string, string>, prefix: string, a: string, b: string, rest: seq<string>)
    requires a in m && b in m && IndexOf(prefix, a).Some? && IndexOf(prefix, a) == IndexOf(prefix, b)
    requires m[a] != m[b]
    ensures IndexedIn(m, prefix, [a, b] + rest) != IndexedIn(m, prefix, [b, a] + rest)
  {
    hide IndexOf;
    var f := ItemAt(m, prefix);
    var x, y := Indexed(IndexOf(prefix, a).value, m[a]), Indexed(IndexOf(prefix, b).value, m[b]);
    var s := Sort(FlatMap(rest, f), ByIndex);
    HeadsInserted(a, b, rest, f, x, y);
    HeadsInserted(b, a, rest, f, y, x);
    var k := TieShows(x, y, s);
    assert IndexedIn(m, prefix, [a, b] + rest)[k] == x.val;
    assert IndexedIn(m, prefix, [b, a] + rest)[k] == y.val;
  }

  lemma HeadsInserted(a: string, b: string, rest: seq<string>, f: string -> seq<Indexed>, x: Indexed, y: Indexed)
    requires f(a) == [x] && f(b) == [y]
    ensures Sort(FlatMap([a, b] + rest, f), ByIndex)
            == Insert(x, Insert(y, Sort(FlatMap(rest, f), ByIndex), ByIndex), ByIndex)
  {
    assert ([a, b] + rest)[1..] == [b] + rest && ([b] + rest)[1..] == rest;
    var tail := FlatMap(rest, f);
    assert FlatMap([b] + rest, f) == [y] + tail;
    assert FlatMap([a, b] + rest, f) == [x] + ([y] + tail);
    assert ([x] + ([y] + tail))[1..] == [y] + tail && ([y] + tail)[1..] == tail;
  }

  // ----- unions -----

  method UnionStrings(base: seq<string>, add: seq<string>) returns (out: seq<string>)
    ensures out == Dedup(base + add, {})
  {
    if |base| == 0 && |add| == 0 {
      return [];
    }
    var all := base + add;
    var seen: set<string> := {};
    out := [];
    for i := 0 to |all|
      invariant seen == Elems(all[..i])
      invariant out == Dedup(all[..i], {})
    {
      assert all[..i + 1] == all[..i] + [all[i]];
      DedupSnoc(all[..i], all[i], {});
      if all[i] !in seen {
        out := out + [all[i]];
      }
      seen := seen + {all[i]};
    }
    assert all[..|all|] == all;
  }
}
