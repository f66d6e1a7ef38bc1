/** internal/discovery/labels.go: two prefixes, one label grammar. */
module Labels {
  import opened Wrappers
  import opened Sorting
  import opened Strings

  const PRIMARY := "bilgeline."
  const ALIAS := "tagwright.log."

  /** The suffix a recognized label key carries. */
  function StripPrefix(key: string): Option<string> {
    if PRIMARY < key then Some(key[|PRIMARY|..])
    else if ALIAS < key then Some(key[|ALIAS|..])
    else None
  }

  lemma StripPrefixExact(key: string, suffix: string)
    ensures StripPrefix(key) == Some(suffix)
            <==> suffix != "" && (key == "bilgeline." + suffix || key == "tagwright.log." + suffix)
  {
    assert PRIMARY == "bilgeline." && ALIAS == "tagwright.log.";
    if key == PRIMARY + suffix {
      assert PRIMARY <= key && key[|PRIMARY|..] == suffix;
    }
    if key == ALIAS + suffix {
      assert ALIAS <= key && key[|ALIAS|..] == suffix;
      assert key[0] == 't';
    }
    if PRIMARY < key { assert key == PRIMARY + key[|PRIMARY|..]; }
    if ALIAS < key { assert key == ALIAS + key[|ALIAS|..]; }
  }

  /** Two label keys spelling one suffix with different values. */
  ghost predicate Clash(labels: map<string, string>, a: string, b: string) {
    && a in labels && b in labels
    && StripPrefix(a).Some? && StripPrefix(a) == StripPrefix(b)
    && labels[a] != labels[b]
  }

  /** The clash reported: its later key comes first among all later keys. */
  ghost predicate FirstClash(labels: map<string, string>, p: (string, string)) {
    && Clash(labels, p.0, p.1) && StrLe(p.0, p.1)
    && forall a, b :: Clash(labels, a, b) && StrLe(a, b) ==> StrLe(p.1, b)
  }

  ghost predicate Consistent(labels: map<string, string>) {
    forall a, b :: !Clash(labels, a, b)
  }

  /** The suffix-to-value map of consistent labels. */
  ghost function SuffixMap(labels: map<string, string>): map<string, string> {
    map s | s in Suffixes(labels) :: ValueOf(labels, s)
  }

  ghost function Suffixes(labels: map<string, string>): set<string> {
    set k | k in labels && StripPrefix(k).Some? :: StripPrefix(k).value
  }

  ghost function ValueOf(labels: map<string, string>, s: string): string
    requires s in Suffixes(labels)
  {
    var k :| k in labels && StripPrefix(k) == Some(s);
    labels[k]
  }

  lemma SuffixMapAt(labels: map<string, string>, k: string)
    requires Consistent(labels) && k in labels && StripPrefix(k).Some?
    ensures StripPrefix(k).value in SuffixMap(labels)
    ensures SuffixMap(labels)[StripPrefix(k).value] == labels[k]
  {
    var k' :| k' in labels && StripPrefix(k') == StripPrefix(k)
              && ValueOf(labels, StripPrefix(k).value) == labels[k'];
    assert !Clash(labels, k, k');
  }

  /** The suffix map of consistent labels, the least clash otherwise. */
  ghost function Normalized(labels: map<string, string>): Result<map<string, string>, (string, string)> {
    if Consistent(labels) then Ok(SuffixMap(labels))
    else if exists p :: FirstClash(labels, p) then
      var p :| FirstClash(labels, p); Err(p)
    else Err(("", ""))
  }

  lemma FirstClashUnique(labels: map<string, string>, p: (string, string), q: (string, string))
    requires FirstClash(labels, p) && FirstClash(labels, q)
    ensures p == q
  {
    StrLeAntisym(p.1, q.1);
    var s := StripPrefix(p.1).value;
    StripPrefixExact(p.0, s);
    StripPrefixExact(q.0, s);
    StripPrefixExact(p.1, s);
  }

  /** What the walk knows after the keys in `done`: no clash so far, and `norm` says so. */
  ghost predicate Walked(labels: map<string, string>, done: seq<string>,
                         norm: map<string, string>, firstKey: map<string, string>)
  {
    && norm.Keys == firstKey.Keys
    && (forall k :: k in done ==> k in labels)
    && (forall s :: s in firstKey ==>
          firstKey[s] in done && firstKey[s] in labels
          && StripPrefix(firstKey[s]) == Some(s) && norm[s] == labels[firstKey[s]])
    && (forall k :: k in done && StripPrefix(k).Some? ==>
          StripPrefix(k).value in norm && norm[StripPrefix(k).value] == labels[k])
  }

  method NormalizeLabels(labels: map<string, string>, order: seq<string>)
      returns (r: Result<map<string, string>, (string, string)>)
    requires NoDup(order) && Elems(order) == labels.Keys
    ensures r.Ok? ==> Consistent(labels) && r.value == SuffixMap(labels)
    ensures r.Err? ==> FirstClash(labels, r.error)
  {
    hide StripPrefix, StrLe, Consistent, SuffixMap, FirstClash;
    var keys := SortedKeys(order);
    var norm: map<string, string> := map[];
    var firstKey: map<string, string> := map[];
    for i := 0 to |keys|
      invariant Walked(labels, keys[..i], norm, firstKey)
    {
      assert keys[i] in Elems(keys);
      assert keys[..i + 1] == keys[..i] + [keys[i]];
      var stripped := StripPrefix(keys[i]);
      if stripped.Some? && stripped.value in firstKey && norm[stripped.value] != labels[keys[i]] {
        FirstClashAt(labels, keys, i, stripped.value, norm, firstKey);
        return Err((firstKey[stripped.value], keys[i]));
      }
      WalkedStep(labels, keys[..i], keys[i], norm, firstKey);
      if stripped.Some? && stripped.value !in firstKey {
        norm := norm[stripped.value := labels[keys[i]]];
        firstKey := firstKey[stripped.value := keys[i]];
      }
    }
    assert keys[..|keys|] == keys;
    WalkedAll(labels, keys, norm, firstKey);
    return Ok(norm);
  }

  lemma WalkedStep(labels: map<string, string>, done: seq<string>, k: string,
                   norm: map<string, string>, firstKey: map<string, string>)
    requires k in labels && Walked(labels, done, norm, firstKey)
    ensures StripPrefix(k).None? ==> Walked(labels, done + [k], norm, firstKey)
    ensures StripPrefix(k).Some? ==>
      var s := StripPrefix(k).value;
      if s in firstKey
      then norm[s] == labels[k] ==> Walked(labels, done + [k], norm, firstKey)
      else Walked(labels, done + [k], norm[s := labels[k]], firstKey[s := k])
  {}

  method SortedKeys(order: seq<string>) returns (keys: seq<string>)
    ensures Ordered(keys, StrLe) && Elems(keys) == Elems(order) && multiset(keys) == multiset(order)
  {
    keys := Sort(order, StrLe);
    SortPerm(order, StrLe);
    StrLeLinear();
    SortOrdered(order, StrLe);
    SameElems(keys, order);
  }

  lemma WalkedAll(labels: map<string, string>, keys: seq<string>,
                  norm: map<string, string>, firstKey: map<string, string>)
    requires Elems(keys) == labels.Keys && Walked(labels, keys, norm, firstKey)
    ensures Consistent(labels) && norm == SuffixMap(labels)
  {
    forall a, b | a in labels && b in labels ensures !Clash(labels, a, b) {
      assert a in Elems(keys) && b in Elems(keys);
    }
    forall s | s in norm ensures s in SuffixMap(labels) && SuffixMap(labels)[s] == norm[s] {
      SuffixMapAt(labels, firstKey[s]);
    }
    forall s | s in SuffixMap(labels) ensures s in norm {
      var k :| k in labels && StripPrefix(k) == Some(s);
      assert k in Elems(keys);
    }
    assert norm == SuffixMap(labels);
  }

  lemma FirstClashReported(labels: map<string, string>, p: (string, string))
    requires FirstClash(labels, p)
    ensures Normalized(labels) == Err(p)
  {
    var q :| FirstClash(labels, q) && Normalized(labels) == Err(q);
    FirstClashUnique(labels, p, q);
  }

  /** The first repeated suffix with a new value, walking keys in order, is the first clash. */
  lemma FirstClashAt(labels: map<string, string>, keys: seq<string>, i: nat, suffix: string,
                     norm: map<string, string>, firstKey: map<string, string>)
    requires Ordered(keys, StrLe) && Elems(keys) == labels.Keys && i < |keys|
    requires Walked(labels, keys[..i], norm, firstKey)
    requires keys[i] in labels && StripPrefix(keys[i]) == Some(suffix)
    requires suffix in firstKey && norm[suffix] != labels[keys[i]]
    ensures FirstClash(labels, (firstKey[suffix], keys[i]))
  {
    var first := firstKey[suffix];
    assert Clash(labels, first, keys[i]);
    var f :| 0 <= f < i && keys[..i][f] == first;
    assert StrLe(keys[f], keys[i]);
    forall a, b | Clash(labels, a, b) && StrLe(a, b) ensures StrLe(keys[i], b) {
      assert a in Elems(keys) && b in Elems(keys);
      var m :| 0 <= m < |keys| && keys[m] == a;
      var n :| 0 <= n < |keys| && keys[n] == b;
      assert n < i ==> b in keys[..i];
      assert m < i ==> a in keys[..i];
      if n < i && m >= i { assert StrLe(keys[n], keys[m]); StrLeAntisym(a, b); }
      if n == i { StrLeTotal(b, b); }
    }
  }

  ghost predicate Spells(labels: map<string, string>, suffix: string, v: string) {
    exists k :: k in labels && StripPrefix(k) == Some(suffix) && labels[k] == v
  }

  /** A container is accepted exactly when no suffix carries two values, and then every
      recognized label is represented and nothing else is. */
  lemma NormalizedExact(labels: map<string, string>)
    ensures Normalized(labels).Ok? <==> Consistent(labels)
    ensures Normalized(labels).Ok? ==> forall s, v :: Spells(labels, s, v) <==>
      (s in Normalized(labels).value && Normalized(labels).value[s] == v)
  {
    if Consistent(labels) {
      forall s, v | Spells(labels, s, v)
        ensures s in SuffixMap(labels) && SuffixMap(labels)[s] == v
      {
        var k :| k in labels && StripPrefix(k) == Some(s) && labels[k] == v;
        SuffixMapAt(labels, k);
      }
    }
  }

  /** A boolean marker read off the raw labels, under either prefix. */
  predicate RawBool(labels: map<string, string>, suffix: string) {
    || (PRIMARY + suffix in labels && ParseBool(labels[PRIMARY + suffix]) == Some(true))
    || (ALIAS + suffix in labels && ParseBool(labels[ALIAS + suffix]) == Some(true))
  }

  /** The marker spelled out: either prefix, any spelling of true. */
  lemma RawBoolExact(labels: map<string, string>, suffix: string)
    ensures RawBool(labels, suffix) <==> SaysTrue(labels, "bilgeline." + suffix) || SaysTrue(labels, "tagwright.log." + suffix)
  {
    assert PRIMARY == "bilgeline." && ALIAS == "tagwright.log.";
  }

  predicate SaysTrue(labels: map<string, string>, key: string) {
    key in labels && labels[key] in {"1", "t", "T", "true", "TRUE", "True"}
  }

  /** On consistent labels the raw marker agrees with the normalized value. */
  lemma RawBoolAgrees(labels: map<string, string>, suffix: string)
    requires Consistent(labels) && suffix != ""
    ensures RawBool(labels, suffix) <==>
      suffix in SuffixMap(labels) && ParseBool(SuffixMap(labels)[suffix]) == Some(true)
  {
    StripPrefixExact(PRIMARY + suffix, suffix);
    StripPrefixExact(ALIAS + suffix, suffix);
    if PRIMARY + suffix in labels { SuffixMapAt(labels, PRIMARY + suffix); }
    if ALIAS + suffix in labels { SuffixMapAt(labels, ALIAS + suffix); }
    if suffix in SuffixMap(labels) {
      var k :| k in labels && StripPrefix(k) == Some(suffix);
      StripPrefixExact(k, suffix);
    }
  }
}
