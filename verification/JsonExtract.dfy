/** Pulling the first balanced object out of a model's reply, after `extractJsonObject` in `src/router/router.ts`. */
module JsonExtract {
  import opened Basics
  import Text

  // ---------------------------------------------------------------------------------------------
  // The scan

  /** Outside strings braces nest; inside one, a backslash protects the next character. */
  datatype Scan = Scan(depth: int, inString: bool, escaped: bool)

  function Next(s: Scan, c: char): Scan {
    if s.inString then
      if s.escaped then s.(escaped := false)
      else if c == '\\' then s.(escaped := true)
      else if c == '"' then s.(inString := false)
      else s
    else if c == '"' then s.(inString := true)
    else if c == '{' then s.(depth := s.depth + 1)
    else if c == '}' then s.(depth := s.depth - 1)
    else s
  }

  /** How many characters it takes to close everything that is open, if that happens. */
  function Close(text: string, s: Scan): (n: Option<nat>)
    ensures n.Some? ==> 0 < n.value <= |text|
  {
    if text == [] then None
    else if !s.inString && text[0] == '}' && s.depth == 1 then Some(1)
    else match Close(text[1..], Next(s, text[0]))
      case None => None
      case Some(n) => Some(n + 1)
  }

  function IndexOf(text: string, c: char): (i: nat)
    ensures i <= |text| && c !in text[..i] && (i < |text| ==> text[i] == c)
  {
    if text == [] || text[0] == c then 0 else 1 + IndexOf(text[1..], c)
  }

  const OUTSIDE := Scan(0, false, false)

  /** The slice from the first opening brace to the brace that closes it. */
  function Extract(text: string): Option<string> {
    var start := IndexOf(text, '{');
    match Close(text[start..], OUTSIDE)
    case None => None
    case Some(n) => Some(text[start..start + n])
  }

  method ExtractJsonObject(text: string) returns (json: Option<string>)
    ensures json == Extract(text)
  {
    var start := IndexOf(text, '{');
    if start == |text| {
      return None;
    }
    var depth, inString, escaped := 0, false, false;
    var index := start;
    while index < |text|
      invariant start <= index <= |text|
      invariant if index == start then depth == 0 && !inString && text[start] == '{' else depth >= 1
      invariant Close(text[start..], OUTSIDE) ==
        match Close(text[index..], Scan(depth, inString, escaped))
        case None => None
        case Some(n) => Some(index - start + n)
    {
      var c := text[index];
      assert text[index..][1..] == text[index + 1..] && text[index..][0] == c;
      index := index + 1;
      if inString {
        if escaped {
          escaped := false;
        } else if c == '\\' {
          escaped := true;
        } else if c == '"' {
          inString := false;
        }
        continue;
      }
      if c == '"' {
        inString := true;
      } else if c == '{' {
        depth := depth + 1;
      } else if c == '}' {
        depth := depth - 1;
        if depth == 0 {
          return Some(text[start..index]);
        }
      }
    }
    return None;
  }

  // ---------------------------------------------------------------------------------------------
  // Balanced text, defined without the scan

  /** A character of a quoted string: plain, or any character behind a backslash. */
  datatype Quoted = Plain(c: char) | Behind(c: char)

  /** Text in which braces outside strings nest. */
  datatype Items =
    | End
    | Char(c: char, rest: Items)
    | Quote(body: seq<Quoted>, rest: Items)
    | Braces(inside: Items, rest: Items)

  predicate QuotedOk(body: seq<Quoted>) {
    forall i :: 0 <= i < |body| && body[i].Plain? ==> body[i].c != '"' && body[i].c != '\\'
  }

  predicate ItemsOk(items: Items) {
    match items
    case End => true
    case Char(c, rest) => c != '"' && c != '{' && c != '}' && ItemsOk(rest)
    case Quote(body, rest) => QuotedOk(body) && ItemsOk(rest)
    case Braces(inside, rest) => ItemsOk(inside) && ItemsOk(rest)
  }

  function WriteQuoted(body: seq<Quoted>): string {
    if body == [] then ""
    else (if body[0].Plain? then [body[0].c] else ['\\', body[0].c]) + WriteQuoted(body[1..])
  }

  function Write(items: Items): string {
    match items
    case End => ""
    case Char(c, rest) => [c] + Write(rest)
    case Quote(body, rest) => ['"'] + WriteQuoted(body) + ['"'] + Write(rest)
    case Braces(inside, rest) => ['{'] + Write(inside) + ['}'] + Write(rest)
  }

  ghost predicate Balanced(text: string) {
    exists items :: ItemsOk(items) && text == ['{'] + Write(items) + ['}']
  }

  // ---------------------------------------------------------------------------------------------
  // Balanced text is what the scan finds

  function Shift(n: Option<nat>, k: nat): Option<nat> {
    match n case None => None case Some(m) => Some(m + k)
  }

  lemma CloseOne(c: char, rest: string, s: Scan)
    requires s.inString || c != '}' || s.depth != 1
    ensures Close([c] + rest, s) == Shift(Close(rest, Next(s, c)), 1)
  {
    assert ([c] + rest)[1..] == rest;
  }

  lemma {:induction false} CloseSkipsQuoted(body: seq<Quoted>, rest: string, depth: int)
    requires QuotedOk(body) && depth >= 1
    ensures var s := WriteQuoted(body) + ['"'];
      Close(s + rest, Scan(depth, true, false)) == Shift(Close(rest, Scan(depth, false, false)), |s|)
  {
    hide Close;
    var s := WriteQuoted(body) + ['"'];
    if body == [] {
      assert s == ['"'];
      CloseOne('"', rest, Scan(depth, true, false));
    } else {
      var c, s' := body[0].c, WriteQuoted(body[1..]) + ['"'];
      CloseSkipsQuoted(body[1..], rest, depth);
      if body[0].Plain? {
        assert s + rest == [c] + (s' + rest);
        CloseOne(c, s' + rest, Scan(depth, true, false));
      } else {
        assert s + rest == ['\\'] + ([c] + (s' + rest));
        CloseOne('\\', [c] + (s' + rest), Scan(depth, true, false));
        CloseOne(c, s' + rest, Scan(depth, true, true));
      }
    }
  }

  /** What follows an opening quote up to its closing one does not move the depth. */
  lemma CloseSkipsQuote(body: seq<Quoted>, after: string, depth: int)
    requires QuotedOk(body) && depth >= 1
    ensures var s := ['"'] + WriteQuoted(body) + ['"'];
      Close(s + after, Scan(depth, false, false)) == Shift(Close(after, Scan(depth, false, false)), |s|)
  {
    var q := WriteQuoted(body) + ['"'];
    assert ['"'] + WriteQuoted(body) + ['"'] + after == ['"'] + (q + after);
    assert (['"'] + (q + after))[1..] == q + after;
    CloseSkipsQuoted(body, after, depth);
  }

  lemma ShiftZero(n: Option<nat>)
    ensures Shift(n, 0) == n
  {}

  lemma ShiftTwice(n: Option<nat>, a: nat, b: nat)
    ensures Shift(Shift(n, a), b) == Shift(n, a + b)
  {}

  lemma {:induction false} CloseSkips(items: Items, rest: string, depth: int)
    requires ItemsOk(items) && depth >= 1
    ensures Close(Write(items) + rest, Scan(depth, false, false)) == Shift(Close(rest, Scan(depth, false, false)), |Write(items)|)
    decreases items
  {
    hide Close, Shift;
    var s := Write(items);
    match items {
      case End =>
        assert s + rest == rest;
        ShiftZero(Close(rest, Scan(depth, false, false)));
      case Char(c, more) =>
        CloseSkips(more, rest, depth);
        assert s + rest == [c] + (Write(more) + rest);
        CloseOne(c, Write(more) + rest, Scan(depth, false, false));
        ShiftTwice(Close(rest, Scan(depth, false, false)), |Write(more)|, 1);
      case Quote(body, more) =>
        CloseSkips(more, rest, depth);
        assert s + rest == ['"'] + WriteQuoted(body) + ['"'] + (Write(more) + rest);
        CloseSkipsQuote(body, Write(more) + rest, depth);
        ShiftTwice(Close(rest, Scan(depth, false, false)), |Write(more)|, |['"'] + WriteQuoted(body) + ['"']|);
      case Braces(inside, more) =>
        var after := Write(more) + rest;
        CloseSkips(more, rest, depth);
        CloseSkips(inside, ['}'] + after, depth + 1);
        var n := Close(rest, Scan(depth, false, false));
        CloseOne('}', after, Scan(depth + 1, false, false));
        CloseOne('{', Write(inside) + (['}'] + after), Scan(depth, false, false));
        assert s + rest == ['{'] + (Write(inside) + (['}'] + after));
        ShiftTwice(n, |Write(more)|, 1);
        ShiftTwice(n, |Write(more)| + 1, |Write(inside)|);
        ShiftTwice(n, |Write(more)| + 1 + |Write(inside)|, 1);
    }
  }

  lemma {:induction false} IndexOfFirst(pre: string, c: char, rest: string)
    requires c !in pre
    ensures IndexOf(pre + [c] + rest, c) == |pre|
  {
    if pre != "" {
      assert (pre + [c] + rest)[1..] == pre[1..] + [c] + rest;
      assert pre[0] in pre;
      IndexOfFirst(pre[1..], c, rest);
    }
  }

  /** A balanced object is found wherever it is the first thing with a brace, whatever surrounds it. */
  lemma ExtractFinds(pre: string, items: Items, post: string)
    requires '{' !in pre && ItemsOk(items)
    ensures var json := ['{'] + Write(items) + ['}'];
      Extract(pre + json + post) == Some(json)
  {
    hide Close, IndexOf, Write;
    var json := ['{'] + Write(items) + ['}'];
    var text, tail := pre + json + post, Write(items) + (['}'] + post);
    assert text == pre + ['{'] + tail;
    IndexOfFirst(pre, '{', tail);
    assert text[|pre|..] == ['{'] + tail;
    CloseOne('{', tail, OUTSIDE);
    CloseSkips(items, ['}'] + post, 1);
    CloseNow(post);
    assert text[|pre|..|pre| + |json|] == json;
  }

  lemma CloseNow(post: string)
    ensures Close(['}'] + post, Scan(1, false, false)) == Some(1)
  {}

  // ---------------------------------------------------------------------------------------------
  // What the scan finds is balanced text

  /** The texts of the levels that are still open, innermost first, each closed by its brace. */
  function WriteLevels(levels: seq<Items>): string {
    if levels == [] then "" else Write(levels[0]) + ['}'] + WriteLevels(levels[1..])
  }

  ghost predicate LevelsOk(levels: seq<Items>) {
    forall i :: 0 <= i < |levels| ==> ItemsOk(levels[i])
  }

  /** Where a string that is being read ends. */
  lemma {:induction false} QuotedFound(text: string, depth: nat, escaped: bool, n: nat)
    returns (k: nat, body: seq<Quoted>)
    requires depth >= 1 && Close(text, Scan(depth, true, escaped)) == Some(n)
    ensures k <= n && k <= |text| && QuotedOk(body)
    ensures !escaped ==> text[..k] == WriteQuoted(body) + ['"']
    ensures escaped ==> ['\\'] + text[..k] == WriteQuoted(body) + ['"']
    ensures k < n && Close(text[k..], Scan(depth, false, false)) == Some(n - k)
    decreases |text|
  {
    var c := text[0];
    var m := Close(text[1..], Next(Scan(depth, true, escaped), c)).value;
    if !escaped && c == '"' {
      k, body := 1, [];
      assert text[..1] == ['"'];
    } else {
      var k', body' := QuotedFound(text[1..], depth, !escaped && c == '\\', n - 1);
      k := k' + 1;
      assert text[..k] == [c] + text[1..][..k'];
      assert text[k..] == text[1..][k'..];
      if escaped {
        body := [Behind(c)] + body';
        assert body[1..] == body';
        assert ['\\'] + text[..k] == ['\\', c] + text[1..][..k'];
      } else if c == '\\' {
        body := body';
      } else {
        body := [Plain(c)] + body';
        assert body[1..] == body';
      }
    }
  }

  lemma LevelsWithQuote(body: seq<Quoted>, levels: seq<Items>)
    requires levels != []
    ensures WriteLevels([Quote(body, levels[0])] + levels[1..]) == ['"'] + WriteQuoted(body) + ['"'] + WriteLevels(levels)
  {
    assert ([Quote(body, levels[0])] + levels[1..])[1..] == levels[1..];
  }

  lemma LevelsWithChar(c: char, levels: seq<Items>)
    requires levels != []
    ensures WriteLevels([Char(c, levels[0])] + levels[1..]) == [c] + WriteLevels(levels)
  {
    assert ([Char(c, levels[0])] + levels[1..])[1..] == levels[1..];
  }

  lemma BracesJoin(first: string, second: string, rest: string)
    ensures (['{'] + first + ['}'] + second) + ['}'] + rest == ['{'] + (first + ['}'] + (second + ['}'] + rest))
  {}

  lemma LevelsWithBraces(levels: seq<Items>)
    requires |levels| >= 2
    ensures WriteLevels([Braces(levels[0], levels[1])] + levels[2..]) == ['{'] + WriteLevels(levels)
  {
    hide Write;
    var merged := [Braces(levels[0], levels[1])] + levels[2..];
    assert merged[1..] == levels[2..] == levels[1..][1..];
    var first, second, rest := Write(levels[0]), Write(levels[1]), WriteLevels(levels[2..]);
    assert Write(merged[0]) == ['{'] + first + ['}'] + second by { WriteBraces(levels[0], levels[1]); }
    assert WriteLevels(levels) == first + ['}'] + WriteLevels(levels[1..]);
    assert WriteLevels(levels[1..]) == second + ['}'] + rest;
    BracesJoin(first, second, rest);
  }

  lemma WriteBraces(inside: Items, rest: Items)
    ensures Write(Braces(inside, rest)) == ['{'] + Write(inside) + ['}'] + Write(rest)
  {}

  lemma LevelsWithEnd(levels: seq<Items>)
    ensures WriteLevels([End] + levels) == ['}'] + WriteLevels(levels)
  {
    assert ([End] + levels)[1..] == levels;
  }

  lemma QuoteSplit(text: string, k: nat, n: nat)
    requires text != "" && text[0] == '"' && k + 1 <= n <= |text|
    ensures text[..n] == ['"'] + text[1..][..k] + text[1..][k..][..n - 1 - k]
  {}

  lemma {:induction false} LevelsFound(text: string, depth: nat, n: nat) returns (levels: seq<Items>)
    requires depth >= 1 && Close(text, Scan(depth, false, false)) == Some(n)
    ensures |levels| == depth && LevelsOk(levels) && text[..n] == WriteLevels(levels)
    decreases |text|, 1
  {
    assert WriteLevels([]) == "";
    hide WriteLevels, WriteQuoted, Write;
    var c := text[0];
    if c == '"' {
      var k, body := QuotedFound(text[1..], depth, false, n - 1);
      var rest := LevelsFound(text[1..][k..], depth, n - 1 - k);
      LevelsWithQuote(body, rest);
      levels := [Quote(body, rest[0])] + rest[1..];
      QuoteSplit(text, k, n);
    } else if c == '}' && depth == 1 {
      LevelsWithEnd([]);
      levels := [End] + [];
      assert text[..1] == ['}'];
    } else {
      levels := LevelsFoundAt(text, depth, n);
    }
  }

  lemma {:induction false} LevelsFoundAt(text: string, depth: nat, n: nat) returns (levels: seq<Items>)
    requires depth >= 1 && Close(text, Scan(depth, false, false)) == Some(n)
    requires text[0] != '"' && !(text[0] == '}' && depth == 1)
    ensures |levels| == depth && LevelsOk(levels) && text[..n] == WriteLevels(levels)
    decreases |text|, 0
  {
    var c := text[0];
    assert text[..n] == [c] + text[1..][..n - 1];
    if c == '{' {
      var rest := LevelsFound(text[1..], depth + 1, n - 1);
      LevelsWithBraces(rest);
      levels := [Braces(rest[0], rest[1])] + rest[2..];
    } else if c == '}' {
      var rest := LevelsFound(text[1..], depth - 1, n - 1);
      LevelsWithEnd(rest);
      levels := [End] + rest;
    } else {
      var rest := LevelsFound(text[1..], depth, n - 1);
      LevelsWithChar(c, rest);
      levels := [Char(c, rest[0])] + rest[1..];
    }
  }

  /** Whatever comes back is a balanced object, and the first brace of the text is its own. */
  lemma ExtractIsBalanced(text: string)
    requires Extract(text).Some?
    ensures Balanced(Extract(text).value)
    ensures var start := IndexOf(text, '{');
      start + |Extract(text).value| <= |text| && text[start..start + |Extract(text).value|] == Extract(text).value
  {
    var start := IndexOf(text, '{');
    var n := Close(text[start..], OUTSIDE).value;
    assert text[start..][1..] == text[start + 1..];
    var levels := LevelsFound(text[start + 1..], 1, n - 1);
    assert WriteLevels(levels) == Write(levels[0]) + ['}'] + WriteLevels(levels[1..]);
    assert text[start..start + n] == ['{'] + text[start + 1..][..n - 1];
    assert text[start..start + n] == ['{'] + Write(levels[0]) + ['}'];
  }

  /** The text has a balanced object at its first brace: `found`, with no brace before it. */
  ghost predicate FirstObject(text: string, pre: string, found: string) {
    '{' !in pre && Balanced(found) && pre + found <= text
  }

  /**
   * Extraction, said without the scan: it returns exactly the balanced object that starts at the first
   * brace of the text, and nothing when there is none.
   */
  lemma ExtractSpec(text: string)
    ensures forall pre, found :: FirstObject(text, pre, found) ==> Extract(text) == Some(found)
    ensures Extract(text).Some? ==> FirstObject(text, text[..IndexOf(text, '{')], Extract(text).value)
  {
    forall pre, found | FirstObject(text, pre, found) ensures Extract(text) == Some(found) {
      var items :| ItemsOk(items) && found == ['{'] + Write(items) + ['}'];
      ExtractFinds(pre, items, text[|pre + found|..]);
      assert text == pre + found + text[|pre + found|..];
    }
    if Extract(text).Some? {
      ExtractIsBalanced(text);
      var start := IndexOf(text, '{');
      assert text[..start] + Extract(text).value == text[..start + |Extract(text).value|];
    }
  }

  /** No shorter slice from the same brace is balanced. */
  lemma ExtractIsShortest(text: string, m: nat)
    requires Extract(text).Some? && m < |Extract(text).value|
    ensures !Balanced(Extract(text).value[..m])
  {
    ExtractSpec(text);
    var found, start := Extract(text).value, IndexOf(text, '{');
    if Balanced(found[..m]) {
      assert text[..start] + found[..m] <= text;
      assert FirstObject(text, text[..start], found[..m]);
    }
  }
}
