/**
 * The line engines, after `src/compression/engines/whitespace-engine.ts` and
 * `src/compression/engines/tool-result-engine.ts`.
 */
module Engines {
  import opened Basics
  import opened Lines

  // ---------------------------------------------------------------------------------------------
  // Whitespace: trim each line, cap runs of blank ones

  predicate IsBlank(c: char) { c == ' ' || c == '\t' || c == '\r' || c as int == 11 || c as int == 12 }

  function Trimmed(line: string): (r: string)
    ensures r <= line && (r == "" || !IsBlank(r[|r| - 1]))
    ensures forall i :: |r| <= i < |line| ==> IsBlank(line[i])
  {
    if line == "" || !IsBlank(line[|line| - 1]) then line else Trimmed(line[..|line| - 1])
  }

  method TrimTrailing(line: string) returns (r: string)
    ensures r == Trimmed(line)
  {
    var end := |line|;
    while end > 0 && IsBlank(line[end - 1])
      invariant 0 <= end <= |line| && Trimmed(line) == Trimmed(line[..end])
    {
      assert line[..end][..end - 1] == line[..end - 1];
      end := end - 1;
    }
    return line[..end];
  }

  /** `run` blank lines went before. */
  function Capped(lines: seq<string>, run: nat, most: nat): seq<string> {
    if lines == [] then []
    else
      var line := Trimmed(lines[0]);
      if line != "" then [line] + Capped(lines[1..], 0, most)
      else if run + 1 <= most then [line] + Capped(lines[1..], run + 1, most)
      else Capped(lines[1..], run + 1, most)
  }

  function Collapsed(text: string, most: nat): string { Join(Capped(Split(text), 0, most)) }

  method Collapse(text: string, most: nat) returns (r: string)
    ensures r == Collapsed(text, most)
  {
    var lines, kept: seq<string>, run := Split(text), [], 0;
    for i := 0 to |lines|
      invariant Capped(lines, 0, most) == kept + Capped(lines[i..], run, most)
    {
      assert lines[i..][1..] == lines[i + 1..];
      var trimmed := TrimTrailing(lines[i]);
      if trimmed == "" {
        run := run + 1;
        if run <= most {
          kept := kept + [trimmed];
        }
      } else {
        run := 0;
        kept := kept + [trimmed];
      }
    }
    assert lines[|lines|..] == [] && kept + [] == kept;
    return Join(kept);
  }

  lemma {:induction false} SameWhenFull(lines: seq<string>, run: nat, run': nat, most: nat)
    requires run >= most && run' >= most
    ensures Capped(lines, run, most) == Capped(lines, run', most)
  {
    if lines != [] && Trimmed(lines[0]) == "" {
      SameWhenFull(lines[1..], run + 1, run' + 1, most);
    }
  }

  lemma {:induction false} CappedTwice(lines: seq<string>, run: nat, most: nat)
    ensures Capped(Capped(lines, run, most), run, most) == Capped(lines, run, most)
  {
    if lines != [] {
      var line := Trimmed(lines[0]);
      TrimmedTwice(lines[0]);
      if line != "" {
        CappedTwice(lines[1..], 0, most);
        var rest := Capped(lines[1..], 0, most);
        assert ([line] + rest)[1..] == rest;
      } else if run + 1 <= most {
        CappedTwice(lines[1..], run + 1, most);
        var rest := Capped(lines[1..], run + 1, most);
        assert ([line] + rest)[1..] == rest;
      } else {
        CappedTwice(lines[1..], run + 1, most);
        SameWhenFull(Capped(lines[1..], run + 1, most), run, run + 1, most);
      }
    }
  }

  lemma TrimmedTwice(line: string)
    ensures Trimmed(Trimmed(line)) == Trimmed(line)
  {}

  lemma {:induction false} CappedAreLines(lines: seq<string>, run: nat, most: nat)
    requires AreLines(lines)
    ensures AreLines(Capped(lines, run, most))
  {
    if lines != [] {
      assert Trimmed(lines[0]) <= lines[0];
      CappedAreLines(lines[1..], 0, most);
      CappedAreLines(lines[1..], run + 1, most);
    }
  }

  /** Collapsing twice is collapsing once, on the text itself. */
  lemma CollapseIsIdempotent(text: string, most: nat)
    ensures Collapsed(Collapsed(text, most), most) == Collapsed(text, most)
  {
    hide Split, Join;
    var kept := Capped(Split(text), 0, most);
    SplitGivesLines(text);
    CappedAreLines(Split(text), 0, most);
    if kept != [] {
      SplitOfJoin(kept);
      CappedTwice(Split(text), 0, most);
    } else {
      NothingKept(text, most);
    }
  }

  lemma NothingKept(text: string, most: nat)
    requires Capped(Split(text), 0, most) == []
    ensures most == 0 && Collapsed(text, most) == "" && Capped(Split(""), 0, most) == []
  {
    assert Capped(Split("")[1..], 1, most) == [];
  }

  /** The lines that say something, trimmed. */
  function Said(lines: seq<string>): seq<string> {
    if lines == [] then [] else (if Trimmed(lines[0]) != "" then [Trimmed(lines[0])] else []) + Said(lines[1..])
  }

  /** Nothing that says something is lost or moved, and every line that is left was trimmed. */
  lemma {:induction false} CollapseKeepsWhatIsSaid(lines: seq<string>, run: nat, most: nat)
    ensures Said(Capped(lines, run, most)) == Said(lines)
  {
    if lines != [] {
      var line := Trimmed(lines[0]);
      TrimmedTwice(lines[0]);
      CollapseKeepsWhatIsSaid(lines[1..], 0, most);
      CollapseKeepsWhatIsSaid(lines[1..], run + 1, most);
      assert ([line] + Capped(lines[1..], 0, most))[1..] == Capped(lines[1..], 0, most);
      assert ([line] + Capped(lines[1..], run + 1, most))[1..] == Capped(lines[1..], run + 1, most);
    }
  }

  /** No run of blank lines is longer than allowed, `run` of them having gone before. */
  ghost predicate RunsAtMost(lines: seq<string>, run: nat, most: nat) {
    lines == [] ||
    (if lines[0] == "" then run + 1 <= most && RunsAtMost(lines[1..], run + 1, most) else RunsAtMost(lines[1..], 0, most))
  }

  lemma {:induction false} RunsFromFewer(lines: seq<string>, run: nat, fewer: nat, most: nat)
    requires RunsAtMost(lines, run, most) && fewer <= run
    ensures RunsAtMost(lines, fewer, most)
  {
    if lines != [] && lines[0] == "" { RunsFromFewer(lines[1..], run + 1, fewer + 1, most); }
  }

  lemma {:induction false} CollapseCapsRuns(lines: seq<string>, run: nat, most: nat)
    ensures RunsAtMost(Capped(lines, run, most), run, most)
  {
    if lines != [] {
      var line := Trimmed(lines[0]);
      CollapseCapsRuns(lines[1..], 0, most);
      CollapseCapsRuns(lines[1..], run + 1, most);
      assert ([line] + Capped(lines[1..], 0, most))[1..] == Capped(lines[1..], 0, most);
      assert ([line] + Capped(lines[1..], run + 1, most))[1..] == Capped(lines[1..], run + 1, most);
      if line == "" && run + 1 > most {
        RunsFromFewer(Capped(lines[1..], run + 1, most), run + 1, run, most);
      }
    }
  }

  // ---------------------------------------------------------------------------------------------
  // Tool results: one of each run of equal lines

  function Deduped(lines: seq<string>, previous: Option<string>): seq<string> {
    if lines == [] then []
    else (if Some(lines[0]) != previous then [lines[0]] else []) + Deduped(lines[1..], Some(lines[0]))
  }

  function DedupedText(text: string): string { Join(Deduped(Split(text), None)) }

  method DedupeConsecutive(text: string) returns (r: string)
    ensures r == DedupedText(text)
  {
    var lines, kept: seq<string>, previous: Option<string> := Split(text), [], None;
    for i := 0 to |lines|
      invariant Deduped(lines, None) == kept + Deduped(lines[i..], previous)
    {
      assert lines[i..][1..] == lines[i + 1..];
      if Some(lines[i]) != previous {
        kept := kept + [lines[i]];
      }
      previous := Some(lines[i]);
    }
    assert lines[|lines|..] == [] && kept + [] == kept;
    return Join(kept);
  }

  /** Reading the kept lines, each once or more, gives the lines back. */
  ghost predicate Stutters(kept: seq<string>, lines: seq<string>, previous: Option<string>) {
    if lines == [] then kept == []
    else if kept != [] && kept[0] == lines[0] && previous != Some(lines[0]) then Stutters(kept[1..], lines[1..], Some(lines[0]))
    else previous == Some(lines[0]) && Stutters(kept, lines[1..], previous)
  }

  lemma {:induction false} DedupeStutters(lines: seq<string>, previous: Option<string>)
    ensures Stutters(Deduped(lines, previous), lines, previous)
  {
    if lines != [] {
      DedupeStutters(lines[1..], Some(lines[0]));
      var rest := Deduped(lines[1..], Some(lines[0]));
      assert ([lines[0]] + rest)[1..] == rest && [] + rest == rest;
    }
  }

  lemma {:induction false} NoEqualNeighbours(lines: seq<string>, previous: Option<string>)
    ensures var kept := Deduped(lines, previous);
      && (kept != [] ==> Some(kept[0]) != previous)
      && forall i :: 0 <= i < |kept| - 1 ==> kept[i] != kept[i + 1]
  {
    if lines != [] {
      NoEqualNeighbours(lines[1..], Some(lines[0]));
    }
  }

  lemma {:induction false} DedupedStays(lines: seq<string>, previous: Option<string>)
    requires lines != [] ==> Some(lines[0]) != previous
    requires forall i :: 0 <= i < |lines| - 1 ==> lines[i] != lines[i + 1]
    ensures Deduped(lines, previous) == lines
  {
    if lines != [] {
      DedupedStays(lines[1..], Some(lines[0]));
    }
  }

  lemma {:induction false} DedupedAreLines(lines: seq<string>, previous: Option<string>)
    requires AreLines(lines)
    ensures AreLines(Deduped(lines, previous)) && (lines != [] && previous.None? ==> Deduped(lines, previous) != [])
  {
    if lines != [] {
      DedupedAreLines(lines[1..], Some(lines[0]));
    }
  }

  /** Deduplicating twice is deduplicating once, on the text itself. */
  lemma DedupeIsIdempotent(text: string)
    ensures DedupedText(DedupedText(text)) == DedupedText(text)
  {
    hide Split, Join, Deduped;
    var kept := Deduped(Split(text), None);
    SplitGivesLines(text);
    DedupedAreLines(Split(text), None);
    SplitOfJoin(kept);
    NoEqualNeighbours(Split(text), None);
    DedupedStays(kept, None);
  }

  // ---------------------------------------------------------------------------------------------
  // Tool results: head, tail and error lines

  const ELIDED := "[… elided …]"

  /** A line of the output is a line of the input, or stands for a dropped run. */
  type Origins = seq<Option<nat>>

  predicate Keeps(lines: seq<string>, isError: string -> bool, head: nat, tail: nat, i: nat)
    requires i < |lines|
  {
    i < head || i >= |lines| - tail || isError(lines[i])
  }

  function Elided(keep: seq<bool>, i: nat, eliding: bool): Origins
    requires i <= |keep|
    decreases |keep| - i
  {
    if i == |keep| then []
    else if keep[i] then [Some(i)] + Elided(keep, i + 1, false)
    else if eliding then Elided(keep, i + 1, true)
    else [None] + Elided(keep, i + 1, true)
  }

  predicate Before(x: Option<nat>, y: Option<nat>) { x.Some? && y.Some? ==> x.value < y.value }

  /** Exactly the kept lines from `i` on, in order. */
  ghost predicate ShowsKept(keep: seq<bool>, i: nat, origins: Origins) {
    && (forall a, b :: 0 <= a < b < |origins| ==> Before(origins[a], origins[b]))
    && (forall o :: o in origins && o.Some? ==> i <= o.value < |keep| && keep[o.value])
    && (forall k :: i <= k < |keep| && keep[k] ==> Some(k) in origins)
  }

  /** Two neighbours of the output: a marker is followed by a line, a line by a marker exactly when the next line was dropped. */
  predicate Neighbours(keep: seq<bool>, x: Option<nat>, y: Option<nat>) {
    if x.None? then y.Some? else y.None? <==> x.value + 1 < |keep| && !keep[x.value + 1]
  }

  /** One marker for each run of dropped lines, from `i` on; `eliding` when the run at `i` has its marker already. */
  ghost predicate MarksDropped(keep: seq<bool>, i: nat, eliding: bool, origins: Origins) {
    && (if origins == [] then i >= |keep| || eliding else origins[0].None? <==> i < |keep| && !keep[i] && !eliding)
    && (forall a, b :: 0 <= a && b == a + 1 && b < |origins| ==> Neighbours(keep, origins[a], origins[b]))
    && (origins != [] && origins[|origins| - 1].Some? ==> origins[|origins| - 1].value == |keep| - 1)
  }

  ghost predicate IsElision(keep: seq<bool>, i: nat, eliding: bool, origins: Origins) {
    ShowsKept(keep, i, origins) && MarksDropped(keep, i, eliding, origins)
  }

  lemma {:induction false} ElidedIsElision(keep: seq<bool>, i: nat, eliding: bool)
    requires i <= |keep|
    ensures IsElision(keep, i, eliding, Elided(keep, i, eliding))
    ensures |Elided(keep, i, eliding)| <= |keep| - i
    decreases |keep| - i
  {
    if i < |keep| {
      var after := keep[i] == false;
      ElidedIsElision(keep, i + 1, after);
      var rest := Elided(keep, i + 1, after);
      if keep[i] {
        ShownFirst(keep, i, eliding, rest);
      } else if !eliding {
        MarkerFirst(keep, i, rest);
      } else {
        NothingFirst(keep, i, rest);
      }
    }
  }

  lemma ShownFirst(keep: seq<bool>, i: nat, eliding: bool, rest: Origins)
    requires i < |keep| && keep[i] && IsElision(keep, i + 1, false, rest)
    ensures IsElision(keep, i, eliding, [Some(i)] + rest)
  {
    assert ShowsKept(keep, i, [Some(i)] + rest) by { ShowsMore(keep, i, Some(i), rest); }
    var all := [Some(i)] + rest;
    forall a, b | 0 <= a && b == a + 1 && b < |all| ensures Neighbours(keep, all[a], all[b]) {
      if a > 0 { assert Neighbours(keep, rest[a - 1], rest[b - 1]); }
    }
  }

  lemma ShowsMore(keep: seq<bool>, i: nat, o: Option<nat>, rest: Origins)
    requires i < |keep| && ShowsKept(keep, i + 1, rest) && o == (if keep[i] then Some(i) else None)
    ensures ShowsKept(keep, i, [o] + rest)
  {
    var all := [o] + rest;
    forall a, b | 0 <= a < b < |all| ensures Before(all[a], all[b]) {
      assert all[b] == rest[b - 1] && rest[b - 1] in rest;
      if a > 0 { assert Before(rest[a - 1], rest[b - 1]); }
    }
    forall k | i <= k < |keep| && keep[k] ensures Some(k) in all {
      if k > i { assert Some(k) in rest; } else { assert all[0] == Some(k); }
    }
  }

  lemma MarkerFirst(keep: seq<bool>, i: nat, rest: Origins)
    requires i < |keep| && !keep[i] && IsElision(keep, i + 1, true, rest)
    ensures IsElision(keep, i, false, [None] + rest)
  {
    assert ShowsKept(keep, i, [None] + rest) by { ShowsMore(keep, i, None, rest); }
    var all := [None] + rest;
    forall a, b | 0 <= a && b == a + 1 && b < |all| ensures Neighbours(keep, all[a], all[b]) {
      if a > 0 { assert Neighbours(keep, rest[a - 1], rest[b - 1]); }
    }
  }

  lemma NothingFirst(keep: seq<bool>, i: nat, rest: Origins)
    requires i < |keep| && !keep[i] && IsElision(keep, i + 1, true, rest)
    ensures IsElision(keep, i, true, rest)
  {}

  function KeepAll(lines: seq<string>, isError: string -> bool, head: nat, tail: nat): (keep: seq<bool>)
    ensures |keep| == |lines| && forall i :: 0 <= i < |lines| ==> keep[i] == Keeps(lines, isError, head, tail, i)
  {
    seq(|lines|, i requires 0 <= i < |lines| => Keeps(lines, isError, head, tail, i))
  }

  ghost predicate Within(origins: Origins, n: nat) {
    forall o :: o in origins && o.Some? ==> o.value < n
  }

  ghost function Show(lines: seq<string>, origins: Origins): (shown: seq<string>)
    requires Within(origins, |lines|)
    ensures |shown| == |origins|
    ensures forall a :: 0 <= a < |origins| ==> shown[a] == if origins[a].Some? then lines[origins[a].value] else ELIDED
  {
    if origins == [] then []
    else
      assert origins[0] in origins;
      [if origins[0].Some? then lines[origins[0].value] else ELIDED] + Show(lines, origins[1..])
  }

  ghost function Truncated(text: string, isError: string -> bool, head: nat, tail: nat): string {
    var lines := Split(text);
    if |lines| <= head + tail then text
    else
      var keep := KeepAll(lines, isError, head, tail);
      ElidedIsElision(keep, 0, false);
      ElisionIsWithin(keep, Elided(keep, 0, false));
      Join(Show(lines, Elided(keep, 0, false)))
  }

  lemma {:induction false} ShowPush(lines: seq<string>, origins: Origins, o: Option<nat>)
    requires Within(origins, |lines|) && (o.Some? ==> o.value < |lines|)
    ensures Within(origins + [o], |lines|)
    ensures Show(lines, origins + [o]) == Show(lines, origins) + [if o.Some? then lines[o.value] else ELIDED]
  {
    hide Show;
    var all := origins + [o];
    forall x | x in all && x.Some? ensures x.value < |lines| {
      if x != o { assert x in origins; }
    }
    var longer, shorter := Show(lines, all), Show(lines, origins);
    assert all[|origins|] == o && forall a :: 0 <= a < |origins| ==> all[a] == origins[a];
    assert forall a :: 0 <= a < |origins| ==> longer[a] == shorter[a];
  }

  method Truncate(text: string, isError: string -> bool, head: nat, tail: nat) returns (r: string)
    ensures r == Truncated(text, isError, head, tail)
  {
    var lines := Split(text);
    if |lines| <= head + tail {
      return text;
    }
    var keep := MarkKept(lines, isError, head, tail);
    ghost var marks := KeepAll(lines, isError, head, tail);
    assert keep[..] == marks;
    ElidedIsElision(marks, 0, false);
    ElisionIsWithin(marks, Elided(marks, 0, false));
    r := Elide(lines, keep, marks);
  }

  method Elide(lines: seq<string>, keep: array<bool>, ghost marks: seq<bool>) returns (r: string)
    requires keep[..] == marks && |marks| == |lines| && Within(Elided(marks, 0, false), |lines|)
    ensures r == Join(Show(lines, Elided(marks, 0, false)))
  {
    hide Within, Show, Join, Elided;
    var out: seq<string>, eliding := [], false;
    ghost var origins: Origins := [];
    assert Within(origins, |lines|) && Show(lines, origins) == [] by { ShowNothing(lines); }
    for i := 0 to |lines|
      invariant Elided(marks, 0, false) == origins + Elided(marks, i, eliding)
      invariant Within(origins, |lines|) && out == Show(lines, origins)
    {
      assert keep[i] == marks[i];
      ElidedStep(marks, i, eliding);
      if keep[i] {
        ShowPush(lines, origins, Some(i));
        origins := origins + [Some(i)];
        out := out + [lines[i]];
        eliding := false;
      } else if !eliding {
        ShowPush(lines, origins, None);
        origins := origins + [None];
        out := out + [ELIDED];
        eliding := true;
      }
    }
    assert Elided(marks, |lines|, eliding) == [] by { ElidedStep(marks, |lines|, eliding); }
    assert origins + [] == origins;
    return Join(out);
  }

  lemma ElidedStep(keep: seq<bool>, i: nat, eliding: bool)
    requires i <= |keep|
    ensures i == |keep| ==> Elided(keep, i, eliding) == []
    ensures i < |keep| && keep[i] ==> Elided(keep, i, eliding) == [Some(i)] + Elided(keep, i + 1, false)
    ensures i < |keep| && !keep[i] ==> Elided(keep, i, eliding) == (if eliding then [] else [None]) + Elided(keep, i + 1, true)
  {}

  lemma ShowNothing(lines: seq<string>)
    ensures Within([], |lines|) && Show(lines, []) == []
  {}

  method MarkKept(lines: seq<string>, isError: string -> bool, head: nat, tail: nat) returns (keep: array<bool>)
    requires |lines| > head + tail
    ensures fresh(keep) && keep[..] == KeepAll(lines, isError, head, tail)
  {
    keep := new bool[|lines|](_ => false);
    for i := 0 to head
      invariant forall k :: 0 <= k < |lines| ==> keep[k] == (k < i)
    {
      keep[i] := true;
    }
    for i := |lines| - tail to |lines|
      invariant forall k :: 0 <= k < |lines| ==> keep[k] == (k < head || |lines| - tail <= k < i)
    {
      keep[i] := true;
    }
    for i := 0 to |lines|
      invariant forall k :: 0 <= k < |lines| ==> keep[k] == (k < head || |lines| - tail <= k || (k < i && isError(lines[k])))
    {
      if isError(lines[i]) {
        keep[i] := true;
      }
    }
  }

  /**
   * A truncated result shows exactly its head, its tail and its error lines, in order, with one marker for
   * each run of dropped lines, and has no more lines than before.
   */
  lemma TruncationIsExact(text: string, isError: string -> bool, head: nat, tail: nat) returns (origins: Origins)
    requires |Split(text)| > head + tail
    ensures var lines := Split(text);
      && Within(origins, |lines|) && Truncated(text, isError, head, tail) == Join(Show(lines, origins))
      && IsElision(KeepAll(lines, isError, head, tail), 0, false, origins)
      && |Split(Truncated(text, isError, head, tail))| == |origins| <= |lines|
  {
    hide Split, Join, IsElision;
    var keep := KeepAll(Split(text), isError, head, tail);
    ElidedIsElision(keep, 0, false);
    origins := Elided(keep, 0, false);
    assert Within(origins, |Split(text)|) by { ElisionIsWithin(keep, origins); }
    assert origins != [] by { ElisionIsSomething(keep, origins); }
    ShownAreLines(text, origins);
    SplitOfJoin(Show(Split(text), origins));
  }

  lemma ElisionIsSomething(keep: seq<bool>, origins: Origins)
    requires IsElision(keep, 0, false, origins) && keep != []
    ensures origins != []
  {}

  lemma ShownAreLines(text: string, origins: Origins)
    requires Within(origins, |Split(text)|)
    ensures AreLines(Show(Split(text), origins))
  {
    hide Split, Show;
    SplitGivesLines(text);
    forall a | 0 <= a < |origins| ensures LF !in Show(Split(text), origins)[a] {
      assert origins[a] in origins;
    }
  }

  lemma ElisionIsWithin(keep: seq<bool>, origins: Origins)
    requires IsElision(keep, 0, false, origins)
    ensures Within(origins, |keep|)
  {}
}
