/** The OpenTelemetry Transformation Language, as far as bilgeline writes it: the text the
    renderer prints, and the reader a collector applies to that text. */
module Ottl {
  import opened Wrappers
  import opened Strings

  // ----- string literals -----

  function Escape(s: string): string {
    if |s| == 0 then ""
    else if s[0] == '\\' then "\\\\" + Escape(s[1..])
    else if s[0] == '"' then "\\\"" + Escape(s[1..])
    else [s[0]] + Escape(s[1..])
  }

  /** ottlString: a double-quoted literal. */
  function Literal(s: string): string { "\"" + Escape(s) + "\"" }

  /** Read up to the closing quote, undoing escapes: the value and what follows it. */
  function ReadBody(t: string): Option<(string, string)> {
    if |t| == 0 then None
    else if t[0] == '"' then Some(("", t[1..]))
    else if t[0] == '\\' then
      if |t| >= 2 && (t[1] == '\\' || t[1] == '"') then
        match ReadBody(t[2..])
        case None => None
        case Some(p) => Some(([t[1]] + p.0, p.1))
      else None
    else
      match ReadBody(t[1..])
      case None => None
      case Some(p) => Some(([t[0]] + p.0, p.1))
  }

  function ReadLiteral(t: string): Option<(string, string)> {
    if |t| > 0 && t[0] == '"' then ReadBody(t[1..]) else None
  }

  lemma {:induction false} ReadBodyEscaped(s: string, t: string)
    ensures ReadBody(Escape(s) + "\"" + t) == Some((s, t))
  {
    var u := Escape(s) + "\"" + t;
    if |s| == 0 {
      assert u == "\"" + t && u[1..] == t;
    } else {
      ReadBodyEscaped(s[1..], t);
      var rest := Escape(s[1..]) + "\"" + t;
      assert s == [s[0]] + s[1..];
      if s[0] == '\\' || s[0] == '"' {
        assert u == ['\\', s[0]] + rest && u[2..] == rest;
      } else {
        assert u == [s[0]] + rest && u[1..] == rest;
      }
    }
  }

  /** Whatever follows a printed literal, reading takes back exactly the value and leaves
      exactly the rest: no embedded text can escape its literal. */
  lemma ReadLiteralPrinted(s: string, t: string)
    ensures ReadLiteral(Literal(s) + t) == Some((s, t))
  {
    ReadBodyEscaped(s, t);
    assert (Literal(s) + t)[1..] == Escape(s) + "\"" + t;
  }

  /** Printed literals form a prefix code. */
  lemma LiteralPrefixCode(s: string, t: string, s': string, t': string)
    requires Literal(s) + t == Literal(s') + t'
    ensures s == s' && t == t'
  {
    ReadLiteralPrinted(s, t);
    ReadLiteralPrinted(s', t');
  }

  // ----- decimal numbers -----

  /** Read digits onto `acc` for as long as there are any. */
  function ReadNumber(t: string, acc: nat): (nat, string) {
    if |t| > 0 && IsDigit(t[0])
    then ReadNumber(t[1..], acc * 10 + (t[0] as nat - '0' as nat))
    else (acc, t)
  }

  lemma {:induction false} ReadNumberPrinted(n: nat, t: string)
    ensures ReadNumber(Decimal(n) + t, 0) == ReadNumber(t, n)
  {
    if n < 10 {
      assert (Decimal(n) + t)[1..] == t;
    } else {
      var d := ['0' + (n % 10) as char];
      assert Decimal(n) + t == Decimal(n / 10) + (d + t);
      ReadNumberPrinted(n / 10, d + t);
      assert (d + t)[1..] == t;
    }
  }

  // ----- conditions -----

  datatype Atom =
    | AttrIs(key: string, val: string)
    | SeveritySet
    | SeverityBelow(floor: nat)
    | BodyMatches(pattern: string)

  const ATTRIBUTES := "attributes["
  const EQUALS := "] == "
  const SEVERITY_SET := "severity_number != 0"
  const SEVERITY_BELOW := "severity_number < "
  const IS_MATCH := "IsMatch(body, "
  const AND := " and "

  function PrintAtom(a: Atom): string {
    match a
    case AttrIs(k, v) => ATTRIBUTES + Literal(k) + EQUALS + Literal(v)
    case SeveritySet => SEVERITY_SET
    case SeverityBelow(n) => SEVERITY_BELOW + Decimal(n)
    case BodyMatches(p) => IS_MATCH + Literal(p) + ")"
  }

  /** The atoms and statements as the collector's language writes them. */
  lemma TextExact(k: string, v: string, n: nat)
    ensures PrintAtom(AttrIs(k, v)) == "attributes[" + Literal(k) + "] == " + Literal(v)
    ensures PrintAtom(SeveritySet) == "severity_number != 0"
    ensures PrintAtom(SeverityBelow(n)) == "severity_number < " + Decimal(n)
    ensures PrintAtom(BodyMatches(v)) == "IsMatch(body, " + Literal(v) + ")"
    ensures PrintSet(k, v) == "set(resource.attributes[" + Literal(k) + "], " + Literal(v) + ")"
    ensures AND == " and " && Literal("") == "\"\""
  {}

  /** A condition is a conjunction of atoms. */
  function PrintCondition(atoms: seq<Atom>): string
    requires |atoms| > 0
  {
    if |atoms| == 1 then PrintAtom(atoms[0])
    else PrintAtom(atoms[0]) + (AND + PrintCondition(atoms[1..]))
  }

  function ReadAttr(t: string): Option<(Atom, string)> {
    match CutPrefix(t, ATTRIBUTES)
    case None => None
    case Some(t1) =>
      match ReadLiteral(t1)
      case None => None
      case Some((k, t2)) =>
        match CutPrefix(t2, EQUALS)
        case None => None
        case Some(t3) =>
          match ReadLiteral(t3)
          case None => None
          case Some((v, t4)) => Some((AttrIs(k, v), t4))
  }

  function ReadSeverity(t: string): Option<(Atom, string)> {
    match CutPrefix(t, SEVERITY_SET)
    case Some(rest) => Some((SeveritySet, rest))
    case None =>
      match CutPrefix(t, SEVERITY_BELOW)
      case Some(rest) =>
        if |rest| > 0 && IsDigit(rest[0])
        then Some((SeverityBelow(ReadNumber(rest, 0).0), ReadNumber(rest, 0).1)) else None
      case None => None
  }

  function ReadMatch(t: string): Option<(Atom, string)> {
    match CutPrefix(t, IS_MATCH)
    case None => None
    case Some(t1) =>
      match ReadLiteral(t1)
      case None => None
      case Some((p, t2)) =>
        match CutPrefix(t2, ")")
        case None => None
        case Some(t3) => Some((BodyMatches(p), t3))
  }

  function ReadAtom(t: string): Option<(Atom, string)> {
    if |t| == 0 then None
    else if t[0] == 'a' then ReadAttr(t)
    else if t[0] == 's' then ReadSeverity(t)
    else ReadMatch(t)
  }

  function ReadCondition(t: string): Option<seq<Atom>>
    decreases |t|
  {
    match ReadAtom(t)
    case None => None
    case Some((a, rest)) =>
      if rest == "" then Some([a])
      else
        match CutPrefix(rest, AND)
        case None => None
        case Some(more) =>
          if |more| >= |t| then None
          else
            match ReadCondition(more)
            case None => None
            case Some(atoms) => Some([a] + atoms)
  }

  lemma ReadAttrPrinted(k: string, v: string, t: string)
    ensures ReadAttr(PrintAtom(AttrIs(k, v)) + t) == Some((AttrIs(k, v), t))
  {
    var t3 := Literal(v) + t;
    var t2 := EQUALS + t3;
    var t1 := Literal(k) + t2;
    assert PrintAtom(AttrIs(k, v)) + t == ATTRIBUTES + t1;
    CutPrefixConcat(ATTRIBUTES, t1);
    ReadLiteralPrinted(k, t2);
    CutPrefixConcat(EQUALS, t3);
    ReadLiteralPrinted(v, t);
  }

  lemma ReadMatchPrinted(p: string, t: string)
    ensures ReadMatch(PrintAtom(BodyMatches(p)) + t) == Some((BodyMatches(p), t))
  {
    assert PrintAtom(BodyMatches(p)) + t == IS_MATCH + (Literal(p) + (")" + t));
    CutPrefixConcat(IS_MATCH, Literal(p) + (")" + t));
    ReadLiteralPrinted(p, ")" + t);
    CutPrefixConcat(")", t);
  }

  lemma {:induction false} DecimalStarts(n: nat)
    ensures |Decimal(n)| > 0 && IsDigit(Decimal(n)[0])
  {
    if n >= 10 { DecimalStarts(n / 10); }
  }

  lemma ReadSeverityPrinted(n: nat, t: string)
    requires |t| > 0 ==> !IsDigit(t[0])
    ensures ReadSeverity(PrintAtom(SeveritySet) + t) == Some((SeveritySet, t))
    ensures ReadSeverity(PrintAtom(SeverityBelow(n)) + t) == Some((SeverityBelow(n), t))
  {
    CutPrefixConcat(SEVERITY_SET, t);
    var u := PrintAtom(SeverityBelow(n)) + t;
    assert u == SEVERITY_BELOW + (Decimal(n) + t);
    assert u[16] == '<' && SEVERITY_SET[16] == '!';
    assert CutPrefix(u, SEVERITY_SET).None?;
    CutPrefixConcat(SEVERITY_BELOW, Decimal(n) + t);
    DecimalStarts(n);
    ReadNumberPrinted(n, t);
  }

  lemma ReadAtomPrinted(a: Atom, t: string)
    requires |t| > 0 ==> !IsDigit(t[0])
    ensures ReadAtom(PrintAtom(a) + t) == Some((a, t))
  {
    hide ReadAttr, ReadSeverity, ReadMatch, Literal;
    match a
    case AttrIs(k, v) => ReadAttrPrinted(k, v, t);
    case SeveritySet => ReadSeverityPrinted(0, t);
    case SeverityBelow(n) => ReadSeverityPrinted(n, t);
    case BodyMatches(p) => ReadMatchPrinted(p, t);
  }

  /** Reading a printed condition gives back its atoms, whatever text they embed. */
  lemma {:induction false} ReadConditionPrinted(atoms: seq<Atom>)
    requires |atoms| > 0
    ensures ReadCondition(PrintCondition(atoms)) == Some(atoms)
  {
    hide ReadAtom, PrintAtom;
    if |atoms| == 1 {
      ReadAtomPrinted(atoms[0], "");
      assert PrintAtom(atoms[0]) + "" == PrintAtom(atoms[0]);
      assert atoms == [atoms[0]];
    } else {
      var more := PrintCondition(atoms[1..]);
      ReadAtomPrinted(atoms[0], AND + more);
      CutPrefixConcat(AND, more);
      ReadConditionPrinted(atoms[1..]);
      assert atoms == [atoms[0]] + atoms[1..];
    }
  }

  // ----- statements -----

  const SET_RESOURCE := "set(resource.attributes["
  const COMMA := "], "

  function PrintSet(k: string, v: string): string {
    SET_RESOURCE + Literal(k) + COMMA + Literal(v) + ")"
  }

  function ReadSet(t: string): Option<(string, string)> {
    match CutPrefix(t, SET_RESOURCE)
    case None => None
    case Some(t1) =>
      match ReadLiteral(t1)
      case None => None
      case Some((k, t2)) =>
        match CutPrefix(t2, COMMA)
        case None => None
        case Some(t3) =>
          match ReadLiteral(t3)
          case None => None
          case Some((v, t4)) => if t4 == ")" then Some((k, v)) else None
  }

  lemma ReadSetPrinted(k: string, v: string)
    ensures ReadSet(PrintSet(k, v)) == Some((k, v))
  {
    var t3 := Literal(v) + ")";
    var t2 := COMMA + t3;
    var t1 := Literal(k) + t2;
    assert PrintSet(k, v) == SET_RESOURCE + t1;
    CutPrefixConcat(SET_RESOURCE, t1);
    ReadLiteralPrinted(k, t2);
    CutPrefixConcat(COMMA, t3);
    ReadLiteralPrinted(v, ")");
  }
}
