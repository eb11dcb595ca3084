/** Where a document is cut, read off its text: how `src/memory/chunking.ts` normalises and splits. */
module ChunkLayout {
  import opened Basics
  import opened Text
  import opened Chunking

  // ---------------------------------------------------------------------------------------------
  // Normalising

  predicate AllSpace(s: string) { forall i :: 0 <= i < |s| ==> IsSpace(s[i]) }

  /** What is left between the white space at both ends. */
  ghost predicate IsTrimmed(r: string, text: string) {
    exists from: nat, to: nat :: Trims(r, text, from, to)
  }

  ghost predicate Trims(r: string, text: string, from: nat, to: nat) {
    && from <= to <= |text| && r == text[from..to]
    && AllSpace(text[..from]) && AllSpace(text[to..])
    && (r != "" ==> !IsSpace(r[0]) && !IsSpace(r[|r| - 1]))
  }

  /** The text without each carriage return that stands before a line feed. */
  ghost predicate IsUnix(r: string, text: string) {
    exists left: seq<string> :: Drops(r, text, left)
  }

  ghost predicate Drops(r: string, text: string, left: seq<string>) {
    && r == Flatten(left) && |left| == |text|
    && forall i :: 0 <= i < |text| ==> left[i] == LeftAt(text, i)
  }

  function LeftAt(text: string, i: nat): string
    requires i < |text|
  {
    if text[i] == '\r' && i + 1 < |text| && text[i + 1] == '\n' then "" else [text[i]]
  }

  ghost predicate IsNormalised(r: string, text: string) {
    exists feeds :: IsUnix(feeds, text) && IsTrimmed(r, feeds)
  }

  lemma {:induction false} UnixIs(text: string)
    ensures IsUnix(Unix(text), text)
  {
    var left := UnixDrops(text);
  }

  lemma {:induction false} UnixDrops(text: string) returns (left: seq<string>)
    ensures Drops(Unix(text), text, left)
  {
    if text == "" {
      left := [];
    } else {
      var rest := UnixDrops(text[1..]);
      left := [LeftAt(text, 0)] + rest;
      assert left[1..] == rest;
      forall i | 1 <= i < |text| ensures left[i] == LeftAt(text, i) {
        assert left[i] == rest[i - 1] == LeftAt(text[1..], i - 1);
      }
      if LeftAt(text, 0) == "" {
        assert text[1..][1..] == text[2..];
      }
    }
  }

  lemma {:induction false} TrimStartIs(text: string) returns (from: nat)
    ensures from <= |text| && TrimStart(text) == text[from..] && AllSpace(text[..from])
    ensures from < |text| ==> !IsSpace(text[from])
  {
    if text != "" && IsSpace(text[0]) {
      var k := TrimStartIs(text[1..]);
      from := k + 1;
      assert text[..from] == [text[0]] + text[1..][..k];
    } else {
      from := 0;
    }
  }

  lemma {:induction false} TrimEndIs(text: string)
    ensures |TrimEnd(text)| <= |text| && TrimEnd(text) == text[..|TrimEnd(text)|] && AllSpace(text[|TrimEnd(text)|..])
  {
    if text != "" && IsSpace(text[|text| - 1]) {
      var front, to := text[..|text| - 1], |TrimEnd(text)|;
      TrimEndIs(front);
      assert text[to..] == front[to..] + [text[|text| - 1]] && text[..to] == front[..to];
    }
  }

  lemma TrimIs(text: string)
    ensures IsTrimmed(Trim(text), text)
  {
    hide TrimStart, TrimEnd;
    var from := TrimStartIs(text);
    var rest := text[from..];
    TrimEndIs(rest);
    TrimEndIsTrimmed(rest);
    var to := from + |TrimEnd(rest)|;
    assert text[to..] == rest[|TrimEnd(rest)|..] && text[from..to] == rest[..|TrimEnd(rest)|];
    assert Trims(Trim(text), text, from, to);
  }

  lemma NormalisedIs(text: string)
    ensures IsNormalised(Normalised(text), text)
  {
    hide Unix, Trim, IsUnix, IsTrimmed;
    UnixIs(text);
    TrimIs(Unix(text));
  }

  // ---------------------------------------------------------------------------------------------
  // Splitting at gaps

  /** Parts with the gaps between them. */
  ghost function Woven(parts: seq<string>, gaps: seq<string>): string
    requires |parts| == |gaps| + 1
  {
    if gaps == [] then parts[0] else parts[0] + gaps[0] + Woven(parts[1..], gaps[1..])
  }

  /** Blocks are what stands between runs, whole ones, of two line feeds or more. */
  ghost predicate IsBlocks(blocks: seq<string>, gaps: seq<string>, text: string) {
    && |blocks| == |gaps| + 1 && text == Woven(blocks, gaps)
    && (forall i :: 0 <= i < |gaps| ==> IsBreak(gaps[i]))
    && forall i :: 0 <= i < |blocks| ==> IsBlock(blocks[i], i > 0, i < |gaps|)
  }

  predicate IsBreak(gap: string) {
    |gap| >= 2 && forall i :: 0 <= i < |gap| ==> gap[i] == '\n'
  }

  /** No two line feeds follow each other, and none stands at an end where there is a gap. */
  predicate IsBlock(block: string, behind: bool, before: bool) {
    && (forall i :: 0 <= i < |block| - 1 ==> !(block[i] == '\n' && block[i + 1] == '\n'))
    && (behind && block != "" ==> block[0] != '\n')
    && (before && block != "" ==> block[|block| - 1] != '\n')
  }

  /** Sentences are what stands between runs, whole ones, of the white space behind a full stop or the like. */
  ghost predicate IsSentences(sentences: seq<string>, gaps: seq<string>, text: string) {
    && |sentences| == |gaps| + 1 && text == Woven(sentences, gaps)
    && (forall i :: 0 <= i < |gaps| ==> gaps[i] != "" && AllSpace(gaps[i]))
    && forall i :: 0 <= i < |sentences| ==> IsSentence(sentences[i], i > 0, i < |gaps|)
  }

  predicate IsMark(c: char) { c == '.' || c == '!' || c == '?' }

  /** It ends with a mark where there is a gap, and no white space stands behind a mark in it. */
  predicate IsSentence(sentence: string, behind: bool, before: bool) {
    && (forall i :: 0 <= i < |sentence| - 1 ==> !(IsMark(sentence[i]) && IsSpace(sentence[i + 1])))
    && (behind && sentence != "" ==> !IsSpace(sentence[0]))
    && (before ==> sentence != "" && IsMark(sentence[|sentence| - 1]))
  }

  lemma WovenFirst(part: string, gap: string, parts: seq<string>, gaps: seq<string>)
    requires |parts| == |gaps| + 1
    ensures Woven([part] + parts, [gap] + gaps) == part + gap + Woven(parts, gaps)
  {
    assert ([part] + parts)[1..] == parts && ([gap] + gaps)[1..] == gaps;
  }

  lemma WovenOne(part: string)
    ensures Woven([part], []) == part
  {}

  lemma {:induction false} SkipFeedsIs(text: string) returns (k: nat)
    ensures k <= |text| && SkipFeeds(text) == text[k..] && forall i :: 0 <= i < k ==> text[i] == '\n'
    ensures k < |text| ==> text[k] != '\n'
  {
    if text != "" && text[0] == LF {
      var rest := SkipFeedsIs(text[1..]);
      k := rest + 1;
      forall i | 1 <= i < k ensures text[i] == '\n' { assert text[i] == text[1..][i - 1]; }
    } else {
      k := 0;
    }
  }

  lemma {:induction false} SkipSpacesIs(text: string) returns (k: nat)
    ensures k <= |text| && SkipSpaces(text) == text[k..] && AllSpace(text[..k])
    ensures k < |text| ==> !IsSpace(text[k])
  {
    if text != "" && IsSpace(text[0]) {
      var rest := SkipSpacesIs(text[1..]);
      k := rest + 1;
      assert text[..k] == [text[0]] + text[1..][..rest];
    } else {
      k := 0;
    }
  }

  lemma {:induction false} BlocksFrom(text: string, current: string) returns (gaps: seq<string>)
    requires IsBlock(current, false, text != "" && text[0] == '\n')
    ensures IsBlocks(Blocks(text, current), gaps, current + text)
    ensures Blocks(text, current)[0] <= current + text
    decreases |text|
  {
    hide Woven, SkipFeeds, IsBlock, IsBlocks, IsBreak;
    if text == "" {
      gaps := [];
      OneBlock(current);
      assert current + text == current;
    } else if |text| >= 2 && text[0] == LF && text[1] == LF {
      var gap, rest := FeedGap(text);
      assert IsBlock("", false, false) by { NoBlock(); }
      var more := BlocksFrom(rest, "");
      assert "" + rest == rest;
      gaps := [gap] + more;
      assert current + gap + rest == current + (gap + rest);
      FirstBlock(current, gap, Blocks(rest, ""), more, rest);
    } else {
      BlockPush(current, text);
      gaps := BlocksFrom(text[1..], current + [text[0]]);
      assert current + [text[0]] + text[1..] == current + text;
    }
  }

  lemma FeedGap(text: string) returns (gap: string, rest: string)
    requires |text| >= 2 && text[0] == text[1] == '\n'
    ensures text == gap + rest && rest == SkipFeeds(text[2..]) && IsBreak(gap)
    ensures rest != "" ==> rest[0] != '\n'
  {
    hide SkipFeeds;
    var k := SkipFeedsIs(text[2..]);
    gap, rest := ['\n', '\n'] + text[2..][..k], text[2..][k..];
  }

  lemma NoBlock()
    ensures IsBlock("", false, false) && IsBlock("", false, true)
  {}

  lemma OneBlock(block: string)
    requires IsBlock(block, false, false)
    ensures IsBlocks([block], [], block)
  {}

  lemma BlockPush(block: string, text: string)
    requires text != "" && IsBlock(block, false, text[0] == '\n') && !(|text| >= 2 && text[0] == '\n' && text[1] == '\n')
    ensures IsBlock(block + [text[0]], false, text[1..] != "" && text[1..][0] == '\n')
  {}

  lemma FirstBlock(block: string, gap: string, blocks: seq<string>, gaps: seq<string>, rest: string)
    requires IsBlock(block, false, true) && IsBreak(gap) && IsBlocks(blocks, gaps, rest) && blocks[0] <= rest
    requires rest != "" ==> rest[0] != '\n'
    ensures IsBlocks([block] + blocks, [gap] + gaps, block + gap + rest)
  {
    hide Woven, IsBreak;
    WovenFirst(block, gap, blocks, gaps);
    forall i | 1 <= i < |blocks| + 1 ensures IsBlock(([block] + blocks)[i], i > 0, i < |gaps| + 1) {
      assert ([block] + blocks)[i] == blocks[i - 1];
    }
  }

  lemma {:induction false} SentencesFrom(text: string, current: string) returns (gaps: seq<string>)
    requires IsSentence(current, false, false)
    ensures IsSentences(Sentences(text, current), gaps, current + text)
    ensures Sentences(text, current)[0] <= current + text
    decreases |text|
  {
    hide Woven, SkipSpaces, IsSentence, IsSentences, AllSpace, Ends, IsSpace;
    if text == "" {
      gaps := [];
      OneSentence(current);
      assert current + text == current;
    } else if Ends(current) && IsSpace(text[0]) {
      var gap, rest := SpaceGap(text);
      assert IsSentence("", false, false) by { NoSentence(); }
      var more := SentencesFrom(rest, "");
      assert "" + rest == rest;
      gaps := [gap] + more;
      assert current + gap + rest == current + (gap + rest);
      SentenceEnds(current);
      FirstSentence(current, gap, Sentences(rest, ""), more, rest);
    } else {
      SentencePush(current, text[0]);
      gaps := SentencesFrom(text[1..], current + [text[0]]);
      assert current + [text[0]] + text[1..] == current + text;
    }
  }

  /** The gap a text starts with, and what stands behind it. */
  lemma SpaceGap(text: string) returns (gap: string, rest: string)
    requires text != "" && IsSpace(text[0])
    ensures text == gap + rest && rest == SkipSpaces(text[1..]) && gap != "" && AllSpace(gap)
    ensures rest != "" ==> !IsSpace(rest[0])
  {
    hide IsSpace, SkipSpaces;
    var k := SkipSpacesIs(text[1..]);
    gap, rest := [text[0]] + text[1..][..k], text[1..][k..];
  }

  lemma NoSentence()
    ensures IsSentence("", false, false)
  {}

  lemma OneSentence(sentence: string)
    requires IsSentence(sentence, false, false)
    ensures IsSentences([sentence], [], sentence)
  {}

  lemma SentenceEnds(sentence: string)
    requires IsSentence(sentence, false, false) && Ends(sentence)
    ensures IsSentence(sentence, false, true)
  {}

  lemma SentencePush(sentence: string, c: char)
    requires IsSentence(sentence, false, false) && !(Ends(sentence) && IsSpace(c))
    ensures IsSentence(sentence + [c], false, false)
  {
    hide IsSpace;
  }

  lemma FirstSentence(sentence: string, gap: string, sentences: seq<string>, gaps: seq<string>, rest: string)
    requires IsSentence(sentence, false, true) && gap != "" && AllSpace(gap)
    requires IsSentences(sentences, gaps, rest) && sentences[0] <= rest && (rest != "" ==> !IsSpace(rest[0]))
    ensures IsSentences([sentence] + sentences, [gap] + gaps, sentence + gap + rest)
  {
    hide Woven, AllSpace, IsSpace;
    WovenFirst(sentence, gap, sentences, gaps);
    forall i | 1 <= i < |sentences| + 1 ensures IsSentence(([sentence] + sentences)[i], i > 0, i < |gaps| + 1) {
      assert ([sentence] + sentences)[i] == sentences[i - 1];
    }
  }

  // ---------------------------------------------------------------------------------------------
  // Pieces

  /** A sentence that fits stays whole; another is cut into stretches of the whole size and what is left. */
  ghost predicate CutsSentence(pieces: seq<string>, sentence: string, size: nat) {
    if |sentence| <= size then pieces == [sentence]
    else
      && Flatten(pieces) == sentence
      && forall i :: 0 <= i < |pieces| ==>
          if i < |pieces| - 1 then |pieces[i]| == size else 1 <= |pieces[i]| <= size
  }

  /** A paragraph that fits stays whole; another is cut at its sentences. */
  ghost predicate CutsParagraph(pieces: seq<string>, paragraph: string, size: nat) {
    if paragraph == "" then pieces == []
    else if |paragraph| <= size then pieces == [paragraph]
    else exists sentences, gaps, cuts :: IsSentences(sentences, gaps, paragraph) && AreCuts(cuts, sentences, size) && pieces == Flatten(cuts)
  }

  ghost predicate AreCuts(cuts: seq<seq<string>>, sentences: seq<string>, size: nat) {
    && |cuts| == |sentences|
    && forall i :: 0 <= i < |cuts| ==> CutsSentence(cuts[i], sentences[i], size)
  }

  ghost predicate CutsBlock(pieces: seq<string>, block: string, size: nat) {
    exists paragraph :: IsTrimmed(paragraph, block) && CutsParagraph(pieces, paragraph, size)
  }

  ghost predicate AreBlockCuts(cuts: seq<seq<string>>, blocks: seq<string>, size: nat) {
    && |cuts| == |blocks|
    && forall i :: 0 <= i < |cuts| ==> CutsBlock(cuts[i], blocks[i], size)
  }

  /** A text is cut at its blank lines, and block by block. */
  ghost predicate CutsText(pieces: seq<string>, text: string, size: nat) {
    exists blocks, gaps, cuts :: IsBlocks(blocks, gaps, text) && AreBlockCuts(cuts, blocks, size) && pieces == Flatten(cuts)
  }

  lemma {:induction false} CutsAre(text: string, size: nat)
    requires size >= 1
    ensures forall i :: 0 <= i < |Cuts(text, size)| ==>
      if i < |Cuts(text, size)| - 1 then |Cuts(text, size)[i]| == size else 1 <= |Cuts(text, size)[i]| <= size
  {
    if text != "" {
      var k := Min(size, |text|);
      CutsAre(text[k..], size);
      var cuts, rest := Cuts(text, size), Cuts(text[k..], size);
      assert cuts == [text[..k]] + rest;
      forall i | 1 <= i < |cuts| ensures if i < |cuts| - 1 then |cuts[i]| == size else 1 <= |cuts[i]| <= size {
        assert cuts[i] == rest[i - 1];
      }
    }
  }

  lemma {:induction false} SentencePiecesAre(sentences: seq<string>, size: nat) returns (cuts: seq<seq<string>>)
    requires size >= 1
    ensures AreCuts(cuts, sentences, size) && SentencePieces(sentences, size) == Flatten(cuts)
  {
    hide Cuts, CutsSentence;
    if sentences == [] {
      cuts := [];
    } else {
      var first := if |sentences[0]| <= size then [sentences[0]] else Cuts(sentences[0], size);
      OneCut(sentences[0], first, size);
      var rest := SentencePiecesAre(sentences[1..], size);
      cuts := [first] + rest;
      assert cuts[1..] == rest;
      assert forall i :: 1 <= i < |cuts| ==> cuts[i] == rest[i - 1] && sentences[i] == sentences[1..][i - 1];
    }
  }

  lemma OneCut(sentence: string, pieces: seq<string>, size: nat)
    requires size >= 1 && pieces == if |sentence| <= size then [sentence] else Cuts(sentence, size)
    ensures CutsSentence(pieces, sentence, size)
  {
    hide Cuts;
    CutsJoin(sentence, size);
    CutsAre(sentence, size);
  }

  lemma BlockPiecesAre(block: string, size: nat)
    requires size >= 1
    ensures CutsBlock(BlockPieces(block, size), block, size)
  {
    hide Trim, IsTrimmed, Sentences, SentencePieces, IsSentences, AreCuts;
    var paragraph := Trim(block);
    TrimIs(block);
    if |paragraph| > size {
      var gaps := SentencesFrom(paragraph, "");
      assert "" + paragraph == paragraph;
      var cuts := SentencePiecesAre(Sentences(paragraph, ""), size);
    }
    assert CutsParagraph(BlockPieces(block, size), paragraph, size);
  }

  lemma {:induction false} ParagraphPiecesAre(blocks: seq<string>, size: nat) returns (cuts: seq<seq<string>>)
    requires size >= 1
    ensures AreBlockCuts(cuts, blocks, size) && ParagraphPieces(blocks, size) == Flatten(cuts)
  {
    hide BlockPieces, CutsBlock;
    if blocks == [] {
      cuts := [];
    } else {
      BlockPiecesAre(blocks[0], size);
      var rest := ParagraphPiecesAre(blocks[1..], size);
      cuts := [BlockPieces(blocks[0], size)] + rest;
      assert cuts[1..] == rest;
      assert forall i :: 1 <= i < |cuts| ==> cuts[i] == rest[i - 1] && blocks[i] == blocks[1..][i - 1];
    }
  }

  /** The pieces of a text are cut where its own structure says. */
  lemma PiecesAre(text: string, size: nat)
    requires size >= 1
    ensures CutsText(Pieces(text, size), text, size)
  {
    hide Blocks, ParagraphPieces, IsBlocks, AreBlockCuts;
    var gaps := BlocksFrom(text, "");
    assert "" + text == text;
    var cuts := ParagraphPiecesAre(Blocks(text, ""), size);
  }

  /**
   * The chunks of any document: none of white space alone, a short one whole, and else its pieces in order and
   * each once, as many to a chunk as fit, every chunk but the first behind the tail of the one before it.
   */
  lemma ChunksAre(text: string, size: nat, asked: int) returns (normalised: string, pieces: seq<string>, runs: seq<seq<string>>)
    requires size >= 1
    ensures IsNormalised(normalised, text)
    ensures normalised == "" ==> Chunks(text, size, asked) == []
    ensures 1 <= |normalised| <= size ==> Chunks(text, size, asked) == [normalised]
    ensures |normalised| > size ==>
      && CutsText(pieces, normalised, size) && Flatten(runs) == pieces
      && AreRuns(Chunks(text, size, asked), runs, "", size, Min(asked, size / 2))
  {
    hide Normalised, IsNormalised, Pieces, CutsText, AreRuns, Packed, Ink;
    normalised := Normalised(text);
    NormalisedIs(text);
    pieces := Pieces(normalised, size);
    PiecesAre(normalised, size);
    runs := ChunksAreRuns(text, size, asked);
    InkNormalised(text);
  }
}
