/**
 * JSON objects as RFC 8259 writes them (section 2 for whitespace and structure, 4 for objects, 6 for
 * numbers, 7 for strings), and the proof that extraction gives back what was written.
 */
module Json {
  import opened Basics
  import opened Text
  import opened JsonExtract

  /** Section 7: a character of a string is written as itself, behind a backslash, or as four hex digits. */
  datatype Unit = Raw(c: char) | Escape(c: char) | Hex(h: seq<char>)

  predicate IsHex(c: char) { IsDigit(c) || 'a' <= c <= 'f' || 'A' <= c <= 'F' }

  predicate UnitOk(u: Unit) {
    match u
    case Raw(c) => c as int >= 0x20 && c != '"' && c != '\\'
    case Escape(c) => c in "\"\\/bfnrt"
    case Hex(h) => |h| == 4 && forall i :: 0 <= i < 4 ==> IsHex(h[i])
  }

  predicate UnitsOk(s: seq<Unit>) {
    forall i :: 0 <= i < |s| ==> UnitOk(s[i])
  }

  /** Section 6. */
  datatype Number = Number(minus: bool, whole: string, frac: Option<string>, exp: Option<Exponent>)

  datatype Exponent = Exponent(e: char, sign: string, digits: string)

  predicate Digits(s: string) { s != "" && forall i :: 0 <= i < |s| ==> IsDigit(s[i]) }

  predicate NumberOk(n: Number) {
    && Digits(n.whole) && (n.whole[0] == '0' ==> |n.whole| == 1)
    && (n.frac.Some? ==> Digits(n.frac.value))
    && (n.exp.Some? ==>
          && (n.exp.value.e == 'e' || n.exp.value.e == 'E')
          && (n.exp.value.sign == "" || n.exp.value.sign == "+" || n.exp.value.sign == "-")
          && Digits(n.exp.value.digits))
  }

  /** Values with the whitespace that may stand around every structural character (section 2). */
  datatype Value =
    | Null | True | False
    | Num(number: Number)
    | Str(units: seq<Unit>)
    | Arr(space: string, elements: Elements)
    | Obj(space: string, members: Members)

  datatype Elements = NoElements | Element(before: string, value: Value, after: string, more: Elements)

  datatype Members =
    | NoMembers
    | Member(before: string, key: seq<Unit>, colon0: string, colon1: string, value: Value, after: string, more: Members)

  predicate Space(s: string) { forall i :: 0 <= i < |s| ==> s[i] in " \t\n\r" }

  predicate ValueOk(v: Value) {
    match v
    case Num(n) => NumberOk(n)
    case Str(units) => UnitsOk(units)
    case Arr(space, elements) => Space(space) && ElementsOk(elements)
    case Obj(space, members) => Space(space) && MembersOk(members)
    case _ => true
  }

  predicate ElementsOk(es: Elements) {
    match es
    case NoElements => true
    case Element(before, value, after, more) => Space(before) && ValueOk(value) && Space(after) && ElementsOk(more)
  }

  predicate MembersOk(ms: Members) {
    match ms
    case NoMembers => true
    case Member(before, key, colon0, colon1, value, after, more) =>
      Space(before) && UnitsOk(key) && Space(colon0) && Space(colon1) && ValueOk(value) && Space(after) && MembersOk(more)
  }

  // ---------------------------------------------------------------------------------------------
  // Writing

  function PrintUnit(u: Unit): string {
    match u
    case Raw(c) => [c]
    case Escape(c) => ['\\', c]
    case Hex(h) => ['\\', 'u'] + h
  }

  function PrintUnits(units: seq<Unit>): string {
    if units == [] then "" else PrintUnit(units[0]) + PrintUnits(units[1..])
  }

  function PrintString(units: seq<Unit>): string { ['"'] + PrintUnits(units) + ['"'] }

  function PrintNumber(n: Number): string {
    (if n.minus then "-" else "") + n.whole
    + (if n.frac.Some? then "." + n.frac.value else "")
    + (if n.exp.Some? then [n.exp.value.e] + n.exp.value.sign + n.exp.value.digits else "")
  }

  function Print(v: Value): string {
    match v
    case Null => "null"
    case True => "true"
    case False => "false"
    case Num(n) => PrintNumber(n)
    case Str(units) => PrintString(units)
    case Arr(space, elements) => ['['] + space + PrintElements(elements) + [']']
    case Obj(space, members) => ['{'] + (space + PrintMembers(members)) + ['}']
  }

  function PrintElements(es: Elements): string {
    match es
    case NoElements => ""
    case Element(before, value, after, more) =>
      before + Print(value) + after + (if more.NoElements? then "" else ",") + PrintElements(more)
  }

  function PrintMembers(ms: Members): string {
    match ms
    case NoMembers => ""
    case Member(before, key, colon0, colon1, value, after, more) =>
      before + PrintString(key) + colon0 + [':'] + colon1 + Print(value) + after
      + (if more.NoMembers? then "" else ",") + PrintMembers(more)
  }

  // ---------------------------------------------------------------------------------------------
  // What is written is balanced

  /** Characters that neither open nor close anything. */
  predicate Inert(s: string) {
    forall i :: 0 <= i < |s| ==> s[i] != '"' && s[i] != '{' && s[i] != '}'
  }

  /** `s` in front of balanced text. */
  function Prepend(s: string, rest: Items): (r: Items)
    requires Inert(s)
    ensures Write(r) == s + Write(rest)
    ensures ItemsOk(rest) ==> ItemsOk(r)
  {
    if s == "" then rest else Char(s[0], Prepend(s[1..], rest))
  }

  /** A character of a string in front of the rest of it. */
  lemma WriteQuotedCons(q: Quoted, rest: seq<Quoted>)
    ensures WriteQuoted([q] + rest) == (if q.Plain? then [q.c] else ['\\', q.c]) + WriteQuoted(rest)
  {
    assert ([q] + rest)[1..] == rest;
  }

  /** Characters of a string that need no backslash, in front of the rest of it. */
  function PrependPlain(s: string, rest: seq<Quoted>): (r: seq<Quoted>)
    requires forall i :: 0 <= i < |s| ==> s[i] != '"' && s[i] != '\\'
    requires QuotedOk(rest)
    ensures QuotedOk(r) && WriteQuoted(r) == s + WriteQuoted(rest)
  {
    hide WriteQuoted;
    if s == "" then rest
    else
      WriteQuotedCons(Plain(s[0]), PrependPlain(s[1..], rest));
      assert s == [s[0]] + s[1..];
      [Plain(s[0])] + PrependPlain(s[1..], rest)
  }

  function QuotedUnit(u: Unit, rest: seq<Quoted>): (q: seq<Quoted>)
    requires UnitOk(u) && QuotedOk(rest)
    ensures QuotedOk(q) && WriteQuoted(q) == PrintUnit(u) + WriteQuoted(rest)
  {
    hide WriteQuoted, PrependPlain;
    match u
    case Raw(c) => PrependPlain([c], rest)
    case Escape(c) =>
      WriteQuotedCons(Behind(c), rest);
      [Behind(c)] + rest
    case Hex(h) =>
      WriteQuotedCons(Behind('u'), PrependPlain(h, rest));
      [Behind('u')] + PrependPlain(h, rest)
  }

  function QuotedUnits(units: seq<Unit>): (q: seq<Quoted>)
    requires UnitsOk(units)
    ensures QuotedOk(q) && WriteQuoted(q) == PrintUnits(units)
  {
    hide WriteQuoted, QuotedUnit;
    if units == [] then WrittenNothing(); []
    else
      assert UnitOk(units[0]);
      QuotedUnit(units[0], QuotedUnits(units[1..]))
  }

  lemma WrittenNothing()
    ensures WriteQuoted([]) == ""
  {}

  lemma NumbersAreInert(n: Number)
    requires NumberOk(n)
    ensures Inert(PrintNumber(n))
  {}

  lemma SpaceIsInert(s: string)
    requires Space(s)
    ensures Inert(s)
  {
    forall i | 0 <= i < |s| ensures s[i] != '"' && s[i] != '{' && s[i] != '}' {
      assert s[i] in " \t\n\r";
    }
  }

  /** A value in front of balanced text, and what is written for it. */
  function ValueItems(v: Value, rest: Items): (r: Items)
    requires ValueOk(v) && ItemsOk(rest)
    ensures ItemsOk(r) && Write(r) == Print(v) + Write(rest)
    decreases v, 0
  {
    hide Prepend, PrintString, PrintMembers, PrintElements;
    match v
    case Null => Prepend("null", rest)
    case True => Prepend("true", rest)
    case False => Prepend("false", rest)
    case Num(n) => NumbersAreInert(n); Prepend(PrintNumber(n), rest)
    case Str(units) => StringItems(units, rest)
    case Arr(space, elements) => ArrayItems(space, elements, rest)
    case Obj(space, members) => Braces(ObjectItems(space, members), rest)
  }

  function ArrayItems(space: string, elements: Elements, rest: Items): (r: Items)
    requires Space(space) && ElementsOk(elements) && ItemsOk(rest)
    ensures ItemsOk(r) && Write(r) == (['['] + space + PrintElements(elements) + [']']) + Write(rest)
    decreases elements, 1
  {
    hide Prepend, Write;
    SpaceIsInert(space);
    Prepend(['['] + space, ElementItems(elements, Prepend([']'], rest)))
  }

  function ObjectItems(space: string, members: Members): (r: Items)
    requires Space(space) && MembersOk(members)
    ensures ItemsOk(r) && Write(r) == space + PrintMembers(members)
    decreases members, 1
  {
    SpaceIsInert(space);
    Prepend(space, MemberItems(members, End))
  }

  function StringItems(units: seq<Unit>, rest: Items): (r: Items)
    requires UnitsOk(units) && ItemsOk(rest)
    ensures ItemsOk(r) && Write(r) == PrintString(units) + Write(rest)
  {
    Quote(QuotedUnits(units), rest)
  }

  lemma ElementJoin(before: string, value: string, after: string, separator: string, more: string, rest: string)
    ensures before + (value + ((after + separator) + (more + rest))) == (before + value + after + separator + more) + rest
  {}

  lemma MemberJoin(before: string, key: string, colon0: string, colon1: string, value: string, after: string,
        separator: string, more: string, rest: string)
    ensures var tail := (colon0 + [':'] + colon1) + (value + ((after + separator) + (more + rest)));
      before + (key + tail) == (before + key + colon0 + [':'] + colon1 + value + after + separator + more) + rest
  {}

  function ElementItems(es: Elements, rest: Items): (r: Items)
    requires ElementsOk(es) && ItemsOk(rest)
    ensures ItemsOk(r) && Write(r) == PrintElements(es) + Write(rest)
    decreases es, 0
  {
    match es
    case NoElements => rest
    case Element(before, value, after, more) =>
      SpaceIsInert(before);
      SpaceIsInert(after);
      var separator := if more.NoElements? then "" else ",";
      ElementJoin(before, Print(value), after, separator, PrintElements(more), Write(rest));
      Prepend(before, ValueItems(value, Prepend(after + separator, ElementItems(more, rest))))
  }

  /** What follows a key: the colon, the value and what separates it from the next member. */
  function PairItems(colon0: string, colon1: string, value: Value, after: string, separator: string, tail: Items): (r: Items)
    requires Space(colon0) && Space(colon1) && ValueOk(value) && Space(after) && Inert(separator) && ItemsOk(tail)
    ensures ItemsOk(r)
    ensures Write(r) == (colon0 + [':'] + colon1) + (Print(value) + ((after + separator) + Write(tail)))
    decreases value, 1
  {
    SpaceIsInert(colon0);
    SpaceIsInert(colon1);
    SpaceIsInert(after);
    Prepend(colon0 + [':'] + colon1, ValueItems(value, Prepend(after + separator, tail)))
  }

  function MemberItems(ms: Members, rest: Items): (r: Items)
    requires MembersOk(ms) && ItemsOk(rest)
    ensures ItemsOk(r) && Write(r) == PrintMembers(ms) + Write(rest)
    decreases ms, 0
  {
    match ms
    case NoMembers => rest
    case Member(before, key, colon0, colon1, value, after, more) =>
      SpaceIsInert(before);
      var separator := if more.NoMembers? then "" else ",";
      var tail := PairItems(colon0, colon1, value, after, separator, MemberItems(more, rest));
      MemberJoin(before, PrintString(key), colon0, colon1, Print(value), after, separator, PrintMembers(more), Write(rest));
      Prepend(before, StringItems(key, tail))
  }

  /**
   * Extraction is a left inverse of writing: an object written in any way RFC 8259 allows comes back
   * exactly as it was written, behind any text without a brace and before any text at all.
   */
  lemma ExtractPrinted(pre: string, space: string, members: Members, post: string)
    requires '{' !in pre && ValueOk(Obj(space, members))
    ensures Extract(pre + Print(Obj(space, members)) + post) == Some(Print(Obj(space, members)))
  {
    ExtractFinds(pre, ObjectItems(space, members), post);
  }
}
