/** The wiring between workflow steps, after `src/workflows/template.ts`. */
module Template {
  import opened Basics
  import opened Text

  predicate IsLetter(c: char) { 'a' <= c <= 'z' || 'A' <= c <= 'Z' }

  predicate IsNameChar(c: char) { IsLetter(c) || IsDigit(c) || c == '.' || c == '_' || c == '-' }

  function SkipSpaces(t: string, i: nat): (j: nat)
    requires i <= |t|
    ensures i <= j <= |t|
    decreases |t| - i
  {
    if i < |t| && IsSpace(t[i]) then SkipSpaces(t, i + 1) else i
  }

  function SkipName(t: string, i: nat): (j: nat)
    requires i <= |t|
    ensures i <= j <= |t|
    decreases |t| - i
  {
    if i < |t| && IsNameChar(t[i]) then SkipName(t, i + 1) else i
  }

  datatype Placeholder = Placeholder(name: string, end: nat)

  /**
   * The placeholder starting at `i`, if there is one: two braces, spaces, a name, spaces, two braces.
   * The three character classes are disjoint, so the pattern never has to back up.
   */
  function MatchAt(t: string, i: nat): (m: Option<Placeholder>)
    requires i <= |t|
    ensures m.Some? ==> i < m.value.end <= |t|
  {
    if i + 2 <= |t| && t[i..i + 2] == "{{" then
      var start := SkipSpaces(t, i + 2);
      if start < |t| && IsLetter(t[start]) then
        var stop := SkipName(t, start + 1);
        var close := SkipSpaces(t, stop);
        if close + 2 <= |t| && t[close..close + 2] == "}}"
        then Some(Placeholder(t[start..stop], close + 2))
        else None
      else None
    else None
  }

  /** A template is text with holes; `raw` is how the hole was written. */
  datatype Piece = Plain(c: char) | Hole(name: string, raw: string)

  /** The piece at `i`, and where the next one starts. */
  function Next(t: string, i: nat): (r: (Piece, nat))
    requires i < |t|
    ensures i < r.1 <= |t| && Written(r.0) == t[i..r.1]
  {
    match MatchAt(t, i)
    case Some(p) => (Hole(p.name, t[i..p.end]), p.end)
    case None => (Plain(t[i]), i + 1)
  }

  function Pieces(t: string, i: nat): seq<Piece>
    requires i <= |t|
    decreases |t| - i
  {
    if i == |t| then [] else [Next(t, i).0] + Pieces(t, Next(t, i).1)
  }

  function Written(p: Piece): string {
    match p case Plain(c) => [c] case Hole(_, raw) => raw
  }

  function WrittenAll(ps: seq<Piece>): string {
    if ps == [] then [] else Written(ps[0]) + WrittenAll(ps[1..])
  }

  /** The pieces are the template: nothing is lost and nothing is read twice. */
  lemma {:induction false} PiecesAreTheTemplate(t: string, i: nat)
    requires i <= |t|
    ensures WrittenAll(Pieces(t, i)) == t[i..]
    decreases |t| - i
  {
    hide Next;
    if i < |t| {
      var j := Next(t, i).1;
      PiecesAreTheTemplate(t, j);
      assert t[i..] == t[i..j] + t[j..];
    }
  }

  /** Every name the template asks for. */
  function Names(t: string): set<string> {
    NamesOf(Pieces(t, 0))
  }

  function NamesOf(ps: seq<Piece>): set<string> {
    set p | p in ps && p.Hole? :: p.name
  }

  lemma NamesOfPush(ps: seq<Piece>, p: Piece)
    ensures NamesOf(ps + [p]) == NamesOf(ps) + (if p.Hole? then {p.name} else {})
  {
    assert (ps + [p])[|ps|] == p;
    assert forall q :: q in ps + [p] <==> q in ps || q == p;
  }

  /** Pieces filled from left to right; the first name without a value stops it. */
  function Fill(ps: seq<Piece>, values: map<string, string>): Result<string, string> {
    if ps == [] then Ok("")
    else if ps[0].Hole? && ps[0].name !in values then Err(ps[0].name)
    else match Fill(ps[1..], values)
      case Err(name) => Err(name)
      case Ok(rest) => Ok((if ps[0].Hole? then values[ps[0].name] else [ps[0].c]) + rest)
  }

  function Render(t: string, values: map<string, string>): Result<string, string> {
    Fill(Pieces(t, 0), values)
  }

  lemma {:induction false} FillTotal(ps: seq<Piece>, values: map<string, string>)
    ensures Fill(ps, values).Ok? <==> NamesOf(ps) <= values.Keys
    ensures Fill(ps, values).Err? ==> Fill(ps, values).error in NamesOf(ps) - values.Keys
  {
    if ps != [] {
      FillTotal(ps[1..], values);
      assert forall p :: p in ps <==> p == ps[0] || p in ps[1..];
      assert NamesOf(ps) == NamesOf(ps[1..]) + (if ps[0].Hole? then {ps[0].name} else {});
    }
  }

  /** Rendering succeeds exactly when every name asked for has a value; otherwise it names one that has none. */
  lemma RenderTotal(t: string, values: map<string, string>)
    ensures Render(t, values).Ok? <==> Names(t) <= values.Keys
    ensures Render(t, values).Err? ==> Render(t, values).error in Names(t) - values.Keys
  {
    FillTotal(Pieces(t, 0), values);
  }

  /** What a piece is filled with: itself, or the value of its name. */
  predicate FillsPiece(p: Piece, values: map<string, string>, part: string) {
    match p
    case Plain(c) => part == [c]
    case Hole(name, _) => name in values && part == values[name]
  }

  /** The text rendered is the pieces one after another, each hole replaced by its value, and nothing else. */
  lemma {:induction false} FillIs(ps: seq<Piece>, values: map<string, string>) returns (parts: seq<string>)
    requires Fill(ps, values).Ok?
    ensures |parts| == |ps| && (forall n :: 0 <= n < |ps| ==> FillsPiece(ps[n], values, parts[n]))
    ensures Fill(ps, values).value == Flatten(parts)
  {
    if ps == [] {
      parts := [];
    } else {
      var rest := FillIs(ps[1..], values);
      parts := [if ps[0].Hole? then values[ps[0].name] else [ps[0].c]] + rest;
      assert parts[1..] == rest;
    }
  }

  /** The name a refusal gives is that of the first hole without a value. */
  lemma {:induction false} FillStopsAtTheFirst(ps: seq<Piece>, values: map<string, string>) returns (n: nat)
    requires Fill(ps, values).Err?
    ensures n < |ps| && ps[n].Hole? && ps[n].name == Fill(ps, values).error && ps[n].name !in values
    ensures forall k :: 0 <= k < n && ps[k].Hole? ==> ps[k].name in values
  {
    if ps[0].Hole? && ps[0].name !in values {
      n := 0;
    } else {
      var m := FillStopsAtTheFirst(ps[1..], values);
      n := m + 1;
    }
  }

  // ---------------------------------------------------------------------------------------------
  // What a placeholder is

  /** Two braces, spaces, a name, spaces, two braces: from `i` up to `end`. */
  ghost predicate IsHole(t: string, i: nat, name: string, end: nat) {
    && i <= end <= |t|
    && exists before, after :: Braces(t[i..end], before, name, after)
  }

  ghost predicate Braces(raw: string, before: string, name: string, after: string) {
    && raw == "{{" + before + name + after + "}}"
    && (forall c :: c in before ==> IsSpace(c)) && (forall c :: c in after ==> IsSpace(c))
    && name != "" && IsLetter(name[0]) && forall c :: c in name ==> IsNameChar(c)
  }

  lemma {:induction false} SkipSpacesIs(t: string, i: nat)
    requires i <= |t|
    ensures var j := SkipSpaces(t, i);
      (forall k :: i <= k < j ==> IsSpace(t[k])) && (j < |t| ==> !IsSpace(t[j]))
    decreases |t| - i
  {
    if i < |t| && IsSpace(t[i]) { SkipSpacesIs(t, i + 1); }
  }

  lemma {:induction false} SkipNameIs(t: string, i: nat)
    requires i <= |t|
    ensures var j := SkipName(t, i);
      (forall k :: i <= k < j ==> IsNameChar(t[k])) && (j < |t| ==> !IsNameChar(t[j]))
    decreases |t| - i
  {
    if i < |t| && IsNameChar(t[i]) { SkipNameIs(t, i + 1); }
  }

  /** Where a stretch of spaces ends, seen from inside the text. */
  lemma {:induction false} SkipSpacesTo(t: string, i: nat, j: nat)
    requires i <= j <= |t| && (forall k :: i <= k < j ==> IsSpace(t[k])) && (j < |t| ==> !IsSpace(t[j]))
    ensures SkipSpaces(t, i) == j
    decreases j - i
  {
    if i < j { SkipSpacesTo(t, i + 1, j); }
  }

  lemma {:induction false} SkipNameTo(t: string, i: nat, j: nat)
    requires i <= j <= |t| && (forall k :: i <= k < j ==> IsNameChar(t[k])) && (j < |t| ==> !IsNameChar(t[j]))
    ensures SkipName(t, i) == j
    decreases j - i
  {
    if i < j { SkipNameTo(t, i + 1, j); }
  }

  /** A placeholder by its four places. */
  ghost predicate Stands(t: string, i: nat, start: nat, stop: nat, close: nat) {
    && i + 2 <= start < stop <= close && close + 2 <= |t|
    && t[i] == '{' && t[i + 1] == '{' && t[close] == '}' && t[close + 1] == '}'
    && (forall k :: i + 2 <= k < start ==> IsSpace(t[k]))
    && IsLetter(t[start]) && (forall k :: start <= k < stop ==> IsNameChar(t[k]))
    && (forall k :: stop <= k < close ==> IsSpace(t[k]))
  }

  lemma StandsIsHole(t: string, i: nat, start: nat, stop: nat, close: nat)
    requires Stands(t, i, start, stop, close)
    ensures IsHole(t, i, t[start..stop], close + 2)
  {
    hide IsSpace, IsNameChar, IsLetter;
    var before, name, after := t[i + 2..start], t[start..stop], t[stop..close];
    assert t[i..i + 2] == "{{" && t[close..close + 2] == "}}";
    assert t[i..close + 2] == t[i..i + 2] + before + name + after + t[close..close + 2];
    forall c | c in before ensures IsSpace(c) { var k :| 0 <= k < |before| && before[k] == c; assert c == t[i + 2 + k]; }
    forall c | c in name ensures IsNameChar(c) { var k :| 0 <= k < |name| && name[k] == c; assert c == t[start + k]; }
    forall c | c in after ensures IsSpace(c) { var k :| 0 <= k < |after| && after[k] == c; assert c == t[stop + k]; }
    assert Braces(t[i..close + 2], before, name, after);
  }

  /** The parts of a placeholder, and where they stand in it. */
  lemma HoleParts(t: string, i: nat, name: string, end: nat) returns (before: string, after: string)
    requires IsHole(t, i, name, end)
    ensures i < end <= |t| && end - i == 4 + |before| + |name| + |after|
    ensures Apart(t[i..end], before, name, after)
    ensures name != "" && IsLetter(name[0]) && forall c :: c in name ==> IsNameChar(c)
    ensures forall c :: c in before + after ==> IsSpace(c)
  {
    hide IsSpace, IsNameChar, IsLetter;
    before, after :| Braces(t[i..end], before, name, after);
    PlaceOf(t[i..end], before, name, after);
  }

  lemma HoleStands(t: string, i: nat, name: string, end: nat) returns (start: nat, stop: nat, close: nat)
    requires IsHole(t, i, name, end)
    ensures Stands(t, i, start, stop, close) && name == t[start..stop] && end == close + 2
  {
    hide IsSpace, IsNameChar, IsLetter, IsHole;
    var before, after := HoleParts(t, i, name, end);
    start := i + 2 + |before|;
    stop := start + |name|;
    close := stop + |after|;
    PartAt(t, i, end, 0, "{{", c => c == '{');
    PartAt(t, i, end, 2, before, IsSpace);
    PartAt(t, i, end, 2 + |before|, name, IsNameChar);
    PartAt(t, i, end, 2 + |before| + |name|, after, IsSpace);
    PartAt(t, i, end, 2 + |before| + |name| + |after|, "}}", c => c == '}');
  }

  lemma PartAt(t: string, i: nat, end: nat, from: nat, part: string, good: char -> bool)
    requires i <= end <= |t| && from + |part| <= end - i && t[i..end][from..from + |part|] == part
    requires forall c :: c in part ==> good(c)
    ensures t[i + from..i + from + |part|] == part
    ensures part != "" ==> t[i + from] == part[0]
    ensures forall k :: i + from <= k < i + from + |part| ==> good(t[k])
  {
    forall k | i + from <= k < i + from + |part| ensures t[k] == part[k - i - from] && good(t[k]) {
      assert t[k] == t[i..end][k - i] == t[i..end][from..from + |part|][k - i - from];
    }
  }

  predicate Apart(raw: string, before: string, name: string, after: string) {
    var from, to := 2 + |before|, 2 + |before| + |name|;
    && |raw| == 4 + |before| + |name| + |after|
    && raw[0..2] == "{{" && raw[2..from] == before && raw[from..to] == name && raw[to..to + |after|] == after
    && raw[to + |after|..to + |after| + 2] == "}}"
  }

  lemma PlaceOf(raw: string, before: string, name: string, after: string)
    requires raw == "{{" + before + name + after + "}}"
    ensures Apart(raw, before, name, after)
  {}

  lemma MatchIsHole(t: string, i: nat)
    requires i <= |t| && MatchAt(t, i).Some?
    ensures IsHole(t, i, MatchAt(t, i).value.name, MatchAt(t, i).value.end)
  {
    hide SkipSpaces, SkipName, IsSpace, IsNameChar, IsHole;
    var start := SkipSpaces(t, i + 2);
    var stop := SkipName(t, start + 1);
    var close := SkipSpaces(t, stop);
    SkipSpacesIs(t, i + 2);
    SkipNameIs(t, start + 1);
    SkipSpacesIs(t, stop);
    LettersAreNameChars(t[start]);
    assert t[i] == t[i..i + 2][0] && t[i + 1] == t[i..i + 2][1] && t[close] == t[close..close + 2][0] && t[close + 1] == t[close..close + 2][1];
    StandsIsHole(t, i, start, stop, close);
  }

  lemma LettersAreNameChars(c: char)
    requires IsLetter(c)
    ensures IsNameChar(c)
  {}

  lemma NameCharsAreNoSpaces(c: char)
    ensures IsNameChar(c) ==> !IsSpace(c) && c != '}'
    ensures IsSpace(c) ==> c != '}'
  {}

  lemma HoleIsMatch(t: string, i: nat, name: string, end: nat)
    requires IsHole(t, i, name, end)
    ensures MatchAt(t, i) == Some(Placeholder(name, end))
  {
    hide SkipSpaces, SkipName, IsSpace, IsNameChar, IsHole;
    var start, stop, close := HoleStands(t, i, name, end);
    NameCharsAreNoSpaces(t[start]);
    NameCharsAreNoSpaces(t[close]);
    NameCharsAreNoSpaces('}');
    LettersAreNameChars(t[start]);
    if stop < close { SpacesAreNoNameChars(t[stop]); }
    SkipSpacesTo(t, i + 2, start);
    SkipNameTo(t, start + 1, stop);
    SkipSpacesTo(t, stop, close);
    assert t[i..i + 2] == "{{" && t[close..close + 2] == "}}";
  }

  lemma SpacesAreNoNameChars(c: char)
    requires IsSpace(c)
    ensures !IsNameChar(c)
  {}

  /** A placeholder is found at a position exactly when one stands there, and all of it. */
  lemma MatchAtIff(t: string, i: nat, name: string, end: nat)
    requires i <= |t|
    ensures MatchAt(t, i) == Some(Placeholder(name, end)) <==> IsHole(t, i, name, end)
  {
    hide MatchAt, IsHole;
    if MatchAt(t, i) == Some(Placeholder(name, end)) { MatchIsHole(t, i); }
    if IsHole(t, i, name, end) { HoleIsMatch(t, i, name, end); }
  }

  /** Pieces read off the template from `i` on: a placeholder wherever one stands, a single character where none does. */
  ghost predicate Reads(t: string, i: nat, ps: seq<Piece>)
    requires i <= |t|
    decreases |ps|
  {
    if ps == [] then i == |t|
    else i < |t| && exists j :: i < j <= |t| && ReadAt(t, i, j, ps[0]) && Reads(t, j, ps[1..])
  }

  lemma {:induction false} PiecesAreRead(t: string, i: nat)
    requires i <= |t|
    ensures Reads(t, i, Pieces(t, i))
    decreases |t| - i
  {
    hide Next, ReadAt;
    if i < |t| {
      var j := Next(t, i).1;
      PiecesAreRead(t, j);
      NextIsRead(t, i);
      assert Pieces(t, i)[1..] == Pieces(t, j);
    }
  }

  ghost predicate ReadAt(t: string, i: nat, j: nat, p: Piece)
    requires i < |t|
  {
    match p
    case Hole(name, raw) => IsHole(t, i, name, j)
    case Plain(c) => c == t[i] && j == i + 1 && forall name, end :: !IsHole(t, i, name, end)
  }

  lemma NextIsRead(t: string, i: nat)
    requires i < |t|
    ensures ReadAt(t, i, Next(t, i).1, Next(t, i).0)
  {
    hide MatchAt, IsHole;
    forall name, end: nat ensures MatchAt(t, i) == Some(Placeholder(name, end)) <==> IsHole(t, i, name, end) {
      MatchAtIff(t, i, name, end);
    }
  }

  lemma {:induction false} FillDependsOnNames(ps: seq<Piece>, a: map<string, string>, b: map<string, string>)
    requires forall name :: name in NamesOf(ps) ==> name in a && name in b && a[name] == b[name]
    ensures Fill(ps, a) == Fill(ps, b)
  {
    if ps != [] {
      assert ps[0] in ps;
      assert forall p :: p in ps[1..] ==> p in ps;
      if ps[0].Hole? { assert ps[0].name in NamesOf(ps); }
      FillDependsOnNames(ps[1..], a, b);
    }
  }

  /** `found` lists exactly `names`, each once. */
  ghost predicate Lists(found: seq<string>, names: set<string>) {
    NoRepeats(found) && (set name | name in found) == names
  }

  lemma ListsOneMore(found: seq<string>, names: set<string>, name: string)
    requires Lists(found, names)
    ensures Lists(if name in found then found else found + [name], names + {name})
  {
    var next := if name in found then found else found + [name];
    assert forall x :: x in next <==> x in found || x == name;
  }

  /** Every name, at the place it is first asked for. */
  function Asked(ps: seq<Piece>): seq<string> {
    if ps == [] then []
    else
      var before, last := Asked(ps[..|ps| - 1]), ps[|ps| - 1];
      if last.Hole? && last.name !in before then before + [last.name] else before
  }

  /** The names in the order they are first asked for, without repeats. */
  method References(t: string) returns (found: seq<string>)
    ensures Lists(found, Names(t)) && found == Asked(Pieces(t, 0))
  {
    hide Next;
    found := [];
    var i := 0;
    ghost var seen: seq<Piece> := [];
    while i < |t|
      invariant 0 <= i <= |t|
      invariant Pieces(t, 0) == seen + Pieces(t, i)
      invariant Lists(found, NamesOf(seen)) && found == Asked(seen)
    {
      var (piece, next) := Next(t, i);
      NamesOfPush(seen, piece);
      assert seen + Pieces(t, i) == (seen + [piece]) + Pieces(t, next);
      assert (seen + [piece])[..|seen|] == seen;
      seen := seen + [piece];
      if piece.Hole? {
        ListsOneMore(found, NamesOf(seen[..|seen| - 1]), piece.name);
        if piece.name !in found {
          found := found + [piece.name];
        }
      }
      i := next;
    }
    assert seen == Pieces(t, 0);
  }
}
