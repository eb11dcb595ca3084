/** Stripping control sequences, after `stripAnsi` in `src/compression/engines/tool-result-engine.ts`. */
module Ansi {
  const ESC := 0x1b as char

  /** An escape and a bracket introduce a sequence. */
  predicate Introduces(text: string, i: nat) {
    i + 1 < |text| && text[i] == ESC && text[i + 1] == '['
  }

  /** A character from '@' to '~' ends one. */
  predicate IsFinal(c: char) { '@' <= c <= '~' }

  function Final(text: string, j: nat): (k: nat)
    requires j <= |text|
    ensures j <= k <= |text| && (forall i :: j <= i < k ==> !IsFinal(text[i])) && (k < |text| ==> IsFinal(text[k]))
    decreases |text| - j
  {
    if j < |text| && !IsFinal(text[j]) then Final(text, j + 1) else j
  }

  /** Where the sequence introduced at `i` ends: behind its final character, or with the text. */
  function End(text: string, i: nat): (e: nat)
    requires Introduces(text, i)
    ensures i + 2 <= e <= |text|
  {
    var k := Final(text, i + 2);
    if k < |text| then k + 1 else k
  }

  function Stripped(text: string, i: nat): string
    requires i <= |text|
    decreases |text| - i
  {
    if i == |text| then ""
    else if Introduces(text, i) then Stripped(text, End(text, i))
    else [text[i]] + Stripped(text, i + 1)
  }

  method StripAnsi(text: string) returns (result: string)
    ensures result == Stripped(text, 0)
  {
    hide Stripped;
    result := "";
    var start, i := 0, 0;
    while i < |text|
      invariant 0 <= start <= i <= |text|
      invariant Stripped(text, 0) == result + text[start..i] + Stripped(text, i)
      decreases |text| - i
    {
      StrippedStep(text, i);
      if Introduces(text, i) {
        result := result + text[start..i];
        var j := i + 2;
        while j < |text| && !IsFinal(text[j])
          invariant i + 2 <= j <= |text| && Final(text, i + 2) == Final(text, j)
        {
          j := j + 1;
        }
        i := if j < |text| then j + 1 else j;
        start := i;
      } else {
        assert text[start..i] + [text[i]] == text[start..i + 1];
        i := i + 1;
      }
    }
    StrippedStep(text, i);
    result := result + text[start..];
    assert text[start..i] == text[start..];
  }

  lemma StrippedStep(text: string, i: nat)
    requires i <= |text|
    ensures Stripped(text, i) ==
      if i == |text| then ""
      else if Introduces(text, i) then Stripped(text, End(text, i))
      else [text[i]] + Stripped(text, i + 1)
  {}

  // ---------------------------------------------------------------------------------------------
  // What goes and what stays

  /** A stretch of the text that is a whole sequence. */
  predicate IsSequence(text: string, from: nat, to: nat) {
    && from + 2 <= to <= |text| && Introduces(text, from)
    && (forall i :: from + 2 <= i < to - 1 ==> !IsFinal(text[i]))
    && (to < |text| ==> from + 3 <= to && IsFinal(text[to - 1]))
  }

  /** Position by position: kept characters stay in order, and what is between them is whole sequences. */
  ghost predicate Strips(text: string, i: nat, kept: seq<nat>)
    requires i <= |text|
    decreases |text| - i
  {
    if i == |text| then kept == []
    else if kept != [] && kept[0] == i then !Introduces(text, i) && Strips(text, i + 1, kept[1..])
    else exists to :: i < to <= |text| && IsSequence(text, i, to) && Strips(text, to, kept)
  }

  ghost predicate Shows(text: string, kept: seq<nat>, result: string) {
    |result| == |kept| && forall k :: 0 <= k < |kept| ==> kept[k] < |text| && result[k] == text[kept[k]]
  }

  /** What is removed is whole control sequences, each from its introducer on, and everything else stays, in order. */
  lemma {:induction false} StrippingIsExact(text: string, i: nat) returns (kept: seq<nat>)
    requires i <= |text|
    ensures Strips(text, i, kept) && Shows(text, kept, Stripped(text, i))
    ensures forall k :: k in kept ==> i <= k
    decreases |text| - i
  {
    if i == |text| {
      kept := [];
    } else if Introduces(text, i) {
      var to := End(text, i);
      kept := StrippingIsExact(text, to);
      assert IsSequence(text, i, to);
      assert kept != [] ==> kept[0] in kept;
    } else {
      var rest := StrippingIsExact(text, i + 1);
      kept := [i] + rest;
      assert kept[1..] == rest;
    }
  }

  lemma {:induction false} StrippedIsNoLonger(text: string, i: nat)
    requires i <= |text|
    ensures |Stripped(text, i)| <= |text| - i
    ensures |Stripped(text, i)| == |text| - i <==> forall k :: i <= k < |text| ==> !Introduces(text, k)
    decreases |text| - i
  {
    if i < |text| {
      if Introduces(text, i) {
        StrippedIsNoLonger(text, End(text, i));
      } else {
        StrippedIsNoLonger(text, i + 1);
      }
    }
  }

  lemma {:induction false} StrippedSame(text: string, i: nat)
    requires i <= |text| && forall k :: i <= k < |text| ==> !Introduces(text, k)
    ensures Stripped(text, i) == text[i..]
    decreases |text| - i
  {
    if i < |text| { StrippedSame(text, i + 1); }
  }

  /** A text is left alone exactly when nothing in it introduces a sequence. */
  lemma StripsNothingIff(text: string)
    ensures Stripped(text, 0) == text <==> forall k :: 0 <= k < |text| ==> !Introduces(text, k)
  {
    hide Introduces;
    StrippedIsNoLonger(text, 0);
    if forall k :: 0 <= k < |text| ==> !Introduces(text, k) {
      StrippedSame(text, 0);
    }
  }

  // ---------------------------------------------------------------------------------------------
  // Stripping twice

  /** Where what is kept from `i` on begins: behind the sequences that stand at `i`, one behind another. */
  function Past(text: string, i: nat): (p: nat)
    requires i <= |text|
    ensures i <= p <= |text| && !Introduces(text, p)
    decreases |text| - i
  {
    if Introduces(text, i) then Past(text, End(text, i)) else i
  }

  /** Somewhere from `i` on, an escape is kept and a bracket stands behind the sequences removed after it. */
  predicate Splices(text: string, i: nat)
    requires i <= |text|
    decreases |text| - i
  {
    if i == |text| then false
    else if Introduces(text, i) then Splices(text, End(text, i))
    else (text[i] == ESC && Past(text, i + 1) < |text| && text[Past(text, i + 1)] == '[') || Splices(text, i + 1)
  }

  lemma {:induction false} StrippedStartsPast(text: string, i: nat)
    requires i <= |text|
    ensures Stripped(text, i) == "" <==> Past(text, i) == |text|
    ensures Stripped(text, i) != "" ==> Stripped(text, i)[0] == text[Past(text, i)]
    decreases |text| - i
  {
    if i < |text| && Introduces(text, i) {
      StrippedStartsPast(text, End(text, i));
    }
  }

  lemma {:induction false} SplicedIntroduces(text: string, i: nat)
    requires i <= |text|
    ensures (exists k: nat :: Introduces(Stripped(text, i), k)) <==> Splices(text, i)
    decreases |text| - i
  {
    hide Introduces, End;
    if i == |text| {
      if k: nat :| Introduces("", k) { IntroducesWithin("", k); }
    } else if Introduces(text, i) {
      SplicedIntroduces(text, End(text, i));
      assert Stripped(text, i) == Stripped(text, End(text, i));
    } else {
      SplicedIntroduces(text, i + 1);
      StrippedStartsPast(text, i + 1);
      IntroducedBehind(text[i], Stripped(text, i + 1));
      assert Stripped(text, i) == [text[i]] + Stripped(text, i + 1);
    }
  }

  lemma IntroducedBehind(first: char, rest: string)
    ensures (exists k: nat :: Introduces([first] + rest, k)) <==>
      (first == ESC && rest != "" && rest[0] == '[') || exists k: nat :: Introduces(rest, k)
  {
    var all := [first] + rest;
    if k: nat :| Introduces(all, k) {
      if k > 0 { assert Introduces(rest, k - 1); }
    }
    if first == ESC && rest != "" && rest[0] == '[' { assert Introduces(all, 0); }
    if k: nat :| Introduces(rest, k) { assert Introduces(all, k + 1); }
  }

  /**
   * Stripping a stripped text again changes nothing exactly when no kept escape is followed, behind the
   * sequences removed after it, by a bracket.
   */
  lemma StrippingTwiceIff(text: string)
    ensures Stripped(Stripped(text, 0), 0) == Stripped(text, 0) <==> !Splices(text, 0)
  {
    hide Stripped, Splices, Introduces;
    StripsNothingIff(Stripped(text, 0));
    SplicedIntroduces(text, 0);
    if k: nat :| Introduces(Stripped(text, 0), k) { IntroducesWithin(Stripped(text, 0), k); }
  }

  lemma IntroducesWithin(text: string, k: nat)
    requires Introduces(text, k)
    ensures k < |text|
  {}

  /** A text that does splice: what stood around a removed sequence closes up into another. */
  lemma StrippingTwiceDiffers()
    ensures var text := [ESC] + [ESC, '[', 'm'] + ['[', 'm'];
      Stripped(text, 0) == [ESC, '[', 'm'] && Stripped(Stripped(text, 0), 0) == ""
  {
    var text := [ESC] + [ESC, '[', 'm'] + ['[', 'm'];
    assert Introduces(text, 1) && !Introduces(text, 0) && !Introduces(text, 4) && !Introduces(text, 5);
    assert Final(text, 3) == 3 && End(text, 1) == 4;
    assert Stripped(text, 6) == "";
    assert Stripped(text, 5) == ['m'];
    assert Stripped(text, 4) == ['[', 'm'];
    assert Stripped(text, 1) == ['[', 'm'];
    var once := [ESC, '[', 'm'];
    assert Stripped(text, 0) == once;
    assert Introduces(once, 0) && Final(once, 2) == 2 && End(once, 0) == 3;
    assert Stripped(once, 3) == "";
  }
}
