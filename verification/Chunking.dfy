/** Cutting a document into pieces and packing them into chunks, after `src/memory/chunking.ts`. */
module Chunking {
  import opened Basics
  import opened Text

  const LF := '\n'
  const GAP := "\n\n"

  // ---------------------------------------------------------------------------------------------
  // Normalising

  /** Every CR LF becomes LF. */
  function Unix(text: string): string {
    if text == "" then ""
    else if |text| >= 2 && text[0] == '\r' && text[1] == LF then [LF] + Unix(text[2..])
    else [text[0]] + Unix(text[1..])
  }

  function TrimStart(text: string): string {
    if text != "" && IsSpace(text[0]) then TrimStart(text[1..]) else text
  }

  function TrimEnd(text: string): (r: string)
    ensures |r| <= |text|
  {
    if text != "" && IsSpace(text[|text| - 1]) then TrimEnd(text[..|text| - 1]) else text
  }

  function Trim(text: string): string { TrimEnd(TrimStart(text)) }

  function Normalised(text: string): string { Trim(Unix(text)) }

  // ---------------------------------------------------------------------------------------------
  // Pieces: paragraphs, then sentences, then a hard cut

  function SkipFeeds(text: string): (r: string)
    ensures |r| <= |text|
  {
    if text != "" && text[0] == LF then SkipFeeds(text[1..]) else text
  }

  /** Split at every run of two line feeds or more; `current` is the block being read. */
  function Blocks(text: string, current: string): seq<string>
    decreases |text|
  {
    if text == "" then [current]
    else if |text| >= 2 && text[0] == LF && text[1] == LF then [current] + Blocks(SkipFeeds(text[2..]), "")
    else Blocks(text[1..], current + [text[0]])
  }

  function SkipSpaces(text: string): (r: string)
    ensures |r| <= |text| && (r != "" ==> !IsSpace(r[0]))
  {
    if text != "" && IsSpace(text[0]) then SkipSpaces(text[1..]) else text
  }

  predicate Ends(current: string) { current != "" && current[|current| - 1] in ".!?" }

  /** Split at every run of white space behind a full stop, an exclamation or a question mark. */
  function Sentences(text: string, current: string): seq<string>
    decreases |text|
  {
    if text == "" then [current]
    else if Ends(current) && IsSpace(text[0]) then [current] + Sentences(SkipSpaces(text[1..]), "")
    else Sentences(text[1..], current + [text[0]])
  }

  /** Stretches of `size` characters. */
  function Cuts(text: string, size: nat): seq<string>
    requires size >= 1
  {
    if text == "" then [] else [text[..Min(size, |text|)]] + Cuts(text[Min(size, |text|)..], size)
  }

  function SentencePieces(sentences: seq<string>, size: nat): seq<string>
    requires size >= 1
  {
    if sentences == [] then []
    else (if |sentences[0]| <= size then [sentences[0]] else Cuts(sentences[0], size)) + SentencePieces(sentences[1..], size)
  }

  /** Paragraphs are blocks, trimmed, that are not empty. */
  function BlockPieces(block: string, size: nat): seq<string>
    requires size >= 1
  {
    var paragraph := Trim(block);
    if paragraph == "" then [] else if |paragraph| <= size then [paragraph] else SentencePieces(Sentences(paragraph, ""), size)
  }

  function ParagraphPieces(blocks: seq<string>, size: nat): seq<string>
    requires size >= 1
  {
    if blocks == [] then [] else BlockPieces(blocks[0], size) + ParagraphPieces(blocks[1..], size)
  }

  function Pieces(text: string, size: nat): seq<string>
    requires size >= 1
  {
    ParagraphPieces(Blocks(text, ""), size)
  }

  // ---------------------------------------------------------------------------------------------
  // Chunks

  function IndexOf(text: string, c: char): (i: nat)
    ensures i <= |text|
  {
    if text == "" || text[0] == c then 0 else 1 + IndexOf(text[1..], c)
  }

  /** The last `length` characters, from behind their first space if they have one. */
  function Tail(text: string, length: nat): (r: string)
    ensures |r| <= length && |r| <= |text| && r == text[|text| - |r|..]
  {
    var slice := text[Max(0, |text| - length)..];
    var space := IndexOf(slice, ' ');
    if space == |slice| then slice else slice[space + 1..]
  }

  /** What a chunk starts with, after the one before it. */
  function Lead(before: string, overlap: int): string {
    if overlap > 0 then Tail(before, overlap) + GAP else ""
  }

  /** `current` is the chunk being filled. */
  function Packed(pieces: seq<string>, current: string, size: nat, overlap: int): seq<string> {
    if pieces == [] then [current]
    else if |current| + |pieces[0]| + 2 <= size then Packed(pieces[1..], current + GAP + pieces[0], size, overlap)
    else [current] + Packed(pieces[1..], Lead(current, overlap) + pieces[0], size, overlap)
  }

  function Overlap(asked: int, size: nat): int { Min(asked, size / 2) }

  function Chunks(text: string, size: nat, asked: int): seq<string>
    requires size >= 1
  {
    var normalised := Normalised(text);
    if normalised == "" then []
    else if |normalised| <= size then [normalised]
    else
      var pieces := Pieces(normalised, size);
      if pieces == [] then [] else Packed(pieces[1..], pieces[0], size, Overlap(asked, size))
  }

  // ---------------------------------------------------------------------------------------------
  // No character but white space is lost

  function Ink(text: string): string {
    if text == "" then "" else (if IsSpace(text[0]) then "" else [text[0]]) + Ink(text[1..])
  }

  lemma {:induction false} InkJoin(a: string, b: string)
    ensures Ink(a + b) == Ink(a) + Ink(b)
  {
    if a == "" {
      assert a + b == b;
    } else {
      assert (a + b)[0] == a[0] && (a + b)[1..] == a[1..] + b;
      InkJoin(a[1..], b);
    }
  }

  lemma InkOne(c: char)
    ensures Ink([c]) == if IsSpace(c) then "" else [c]
  {
    assert [c][1..] == "";
  }

  lemma {:induction false} InkUnix(text: string)
    ensures Ink(Unix(text)) == Ink(text)
  {
    if text == "" {
    } else if |text| >= 2 && text[0] == '\r' && text[1] == LF {
      InkUnix(text[2..]);
      assert text[1..][1..] == text[2..];
      assert ([LF] + Unix(text[2..]))[1..] == Unix(text[2..]);
    } else {
      InkUnix(text[1..]);
      assert ([text[0]] + Unix(text[1..]))[1..] == Unix(text[1..]);
    }
  }

  lemma InkTrim(text: string)
    ensures Ink(TrimStart(text)) == Ink(text) && Ink(TrimEnd(text)) == Ink(text)
    ensures Ink(SkipSpaces(text)) == Ink(text) && Ink(SkipFeeds(text)) == Ink(text)
  {
    hide Ink;
    InkTrimStart(text);
    InkTrimEnd(text);
  }

  lemma {:induction false} InkTrimStart(text: string)
    ensures Ink(TrimStart(text)) == Ink(SkipSpaces(text)) == Ink(SkipFeeds(text)) == Ink(text)
  {
    if text != "" {
      InkTrimStart(text[1..]);
    }
  }

  lemma {:induction false} InkTrimEnd(text: string)
    ensures Ink(TrimEnd(text)) == Ink(text)
  {
    hide Ink;
    if text != "" {
      var front, last := text[..|text| - 1], text[|text| - 1];
      InkTrimEnd(front);
      assert text == front + [last];
      InkJoin(front, [last]);
      InkOne(last);
    }
  }

  lemma InkSkip(text: string)
    requires text != "" && IsSpace(text[0])
    ensures Ink(text) == Ink(text[1..])
  {}

  /** A block that ends, before blocks with the ink of the rest. */
  lemma InkCut(current: string, rest: seq<string>, text: string)
    requires Ink(Flatten(rest)) == Ink(text)
    ensures Ink(Flatten([current] + rest)) == Ink(current + text)
  {
    hide Ink, Flatten;
    FlattenFirst(current, rest);
    InkJoin(current, Flatten(rest));
    InkJoin(current, text);
  }

  lemma InkEnd(current: string)
    ensures Ink(Flatten([current])) == Ink(current + "")
  {
    hide Ink, Flatten;
    FlattenOne(current);
    assert current + "" == current;
  }

  lemma {:induction false} InkBlocks(text: string, current: string)
    ensures Ink(Flatten(Blocks(text, current))) == Ink(current + text)
    decreases |text|
  {
    hide Ink, Flatten;
    if text == "" {
      InkEnd(current);
    } else if |text| >= 2 && text[0] == LF && text[1] == LF {
      var rest := SkipFeeds(text[2..]);
      InkBlocks(rest, "");
      assert "" + rest == rest && text[1..][1..] == text[2..];
      InkTrim(text[2..]);
      InkSkip(text);
      InkSkip(text[1..]);
      InkCut(current, Blocks(rest, ""), text);
    } else {
      InkBlocks(text[1..], current + [text[0]]);
      assert current + [text[0]] + text[1..] == current + text;
    }
  }

  lemma FlattenFirst(first: string, rest: seq<string>)
    ensures Flatten([first] + rest) == first + Flatten(rest)
  {
    assert ([first] + rest)[1..] == rest;
  }

  lemma {:induction false} InkSentences(text: string, current: string)
    ensures Ink(Flatten(Sentences(text, current))) == Ink(current + text)
    decreases |text|
  {
    hide Ink, Ends, Flatten;
    if text == "" {
      InkEnd(current);
    } else if Ends(current) && IsSpace(text[0]) {
      var rest := SkipSpaces(text[1..]);
      InkSentences(rest, "");
      assert "" + rest == rest;
      InkTrim(text[1..]);
      InkSkip(text);
      InkCut(current, Sentences(rest, ""), text);
    } else {
      InkSentences(text[1..], current + [text[0]]);
      assert current + [text[0]] + text[1..] == current + text;
    }
  }

  lemma {:induction false} CutsJoin(text: string, size: nat)
    requires size >= 1
    ensures Flatten(Cuts(text, size)) == text
  {
    if text != "" {
      var k := Min(size, |text|);
      CutsJoin(text[k..], size);
      FlattenFirst(text[..k], Cuts(text[k..], size));
      assert text[..k] + text[k..] == text;
    }
  }

  lemma {:induction false} InkSentencePieces(sentences: seq<string>, size: nat)
    requires size >= 1
    ensures Ink(Flatten(SentencePieces(sentences, size))) == Ink(Flatten(sentences))
  {
    hide Ink, Cuts;
    if sentences != [] {
      var first := sentences[0];
      InkSentencePieces(sentences[1..], size);
      var cut := if |first| <= size then [first] else Cuts(first, size);
      FlattenOne(first);
      CutsJoin(first, size);
      FlattenAppend(cut, SentencePieces(sentences[1..], size));
      InkJoin(first, Flatten(SentencePieces(sentences[1..], size)));
      InkJoin(first, Flatten(sentences[1..]));
    }
  }

  lemma {:induction false} InkParagraphPieces(blocks: seq<string>, size: nat)
    requires size >= 1
    ensures Ink(Flatten(ParagraphPieces(blocks, size))) == Ink(Flatten(blocks))
  {
    hide Ink, Sentences, SentencePieces, TrimStart, TrimEnd;
    if blocks != [] {
      var paragraph := Trim(blocks[0]);
      InkTrim(blocks[0]);
      InkTrim(TrimStart(blocks[0]));
      InkParagraphPieces(blocks[1..], size);
      var cut := BlockPieces(blocks[0], size);
      FlattenOne(paragraph);
      InkSentencePieces(Sentences(paragraph, ""), size);
      InkSentences(paragraph, "");
      assert "" + paragraph == paragraph;
      assert Ink(Flatten(cut)) == Ink(paragraph);
      FlattenAppend(cut, ParagraphPieces(blocks[1..], size));
      InkJoin(Flatten(cut), Flatten(ParagraphPieces(blocks[1..], size)));
      InkJoin(blocks[0], Flatten(blocks[1..]));
    }
  }

  /** The pieces, one after another, are the document up to white space. */
  lemma PiecesKeepTheInk(text: string, size: nat)
    requires size >= 1
    ensures Ink(Flatten(Pieces(Normalised(text), size))) == Ink(text)
  {
    hide Ink, Blocks, ParagraphPieces, TrimStart, TrimEnd, Unix;
    InkNormalised(text);
    InkParagraphPieces(Blocks(Normalised(text), ""), size);
    InkBlocks(Normalised(text), "");
    assert "" + Normalised(text) == Normalised(text);
  }

  lemma InkNormalised(text: string)
    ensures Ink(Normalised(text)) == Ink(text)
    ensures Normalised(text) == "" <==> Ink(text) == ""
  {
    hide Ink, TrimStart, TrimEnd, Unix;
    InkUnix(text);
    InkTrim(Unix(text));
    InkTrim(TrimStart(Unix(text)));
    TrimEndIsTrimmed(TrimStart(Unix(text)));
    var normalised := Normalised(text);
    if normalised == "" {
      assert Ink("") == "" by { NoInk(); }
    } else {
      var front, last := normalised[..|normalised| - 1], normalised[|normalised| - 1];
      assert normalised == front + [last];
      InkJoin(front, [last]);
      InkOne(last);
    }
  }

  // ---------------------------------------------------------------------------------------------
  // Pieces are neither empty nor too long

  ghost predicate Sized(pieces: seq<string>, size: nat) {
    forall p :: p in pieces ==> 1 <= |p| <= size
  }

  lemma {:induction false} CutsAreSized(text: string, size: nat)
    requires size >= 1
    ensures Sized(Cuts(text, size), size)
  {
    if text != "" {
      CutsAreSized(text[Min(size, |text|)..], size);
    }
  }

  lemma {:induction false} SentencesAreNotEmpty(text: string, current: string)
    requires text != "" ==> !IsSpace(text[|text| - 1])
    requires current != "" || text != ""
    ensures forall s :: s in Sentences(text, current) ==> s != ""
    decreases |text|
  {
    hide Ends;
    if text != "" {
      if Ends(current) && IsSpace(text[0]) {
        assert current != "" by { EndsSomething(current); }
        var rest := SkipSpaces(text[1..]);
        SkipLeavesTheEnd(text[1..]);
        SentencesAreNotEmpty(rest, "");
      } else {
        SentencesAreNotEmpty(text[1..], current + [text[0]]);
      }
    }
  }

  lemma EndsSomething(current: string)
    requires Ends(current)
    ensures current != ""
  {}

  lemma {:induction false} SkipLeavesTheEnd(text: string)
    requires text != "" && !IsSpace(text[|text| - 1])
    ensures SkipSpaces(text) != "" && SkipSpaces(text)[|SkipSpaces(text)| - 1] == text[|text| - 1]
  {
    if IsSpace(text[0]) {
      SkipLeavesTheEnd(text[1..]);
    }
  }

  lemma {:induction false} TrimEndIsTrimmed(text: string)
    ensures TrimEnd(text) != "" ==> !IsSpace(TrimEnd(text)[|TrimEnd(text)| - 1])
  {
    if text != "" && IsSpace(text[|text| - 1]) {
      TrimEndIsTrimmed(text[..|text| - 1]);
    }
  }

  lemma {:induction false} SentencePiecesAreSized(sentences: seq<string>, size: nat)
    requires size >= 1 && forall s :: s in sentences ==> s != ""
    ensures Sized(SentencePieces(sentences, size), size)
  {
    if sentences != [] {
      assert forall s :: s in sentences[1..] ==> s in sentences;
      SentencePiecesAreSized(sentences[1..], size);
      CutsAreSized(sentences[0], size);
      assert sentences[0] in sentences;
    }
  }

  lemma {:induction false} ParagraphPiecesAreSized(blocks: seq<string>, size: nat)
    requires size >= 1
    ensures Sized(ParagraphPieces(blocks, size), size)
  {
    hide Sentences, SentencePieces, TrimEnd, TrimStart;
    if blocks != [] {
      ParagraphPiecesAreSized(blocks[1..], size);
      var paragraph := Trim(blocks[0]);
      TrimEndIsTrimmed(TrimStart(blocks[0]));
      if paragraph != "" {
        SentencesAreNotEmpty(paragraph, "");
        SentencePiecesAreSized(Sentences(paragraph, ""), size);
      }
    }
  }

  // ---------------------------------------------------------------------------------------------
  // Chunks are runs of pieces, each behind the tail of the chunk before it

  function Joined(run: seq<string>): string {
    if run == [] then "" else if |run| == 1 then run[0] else Joined(run[..|run| - 1]) + GAP + run[|run| - 1]
  }

  /** The last `length` characters of a text, all of a shorter one, from behind the first space among them. */
  ghost predicate IsTail(tail: string, text: string, length: nat) {
    var end := text[Max(0, |text| - length)..];
    if ' ' !in end then tail == end
    else exists i: nat :: i < |end| && end[i] == ' ' && ' ' !in end[..i] && tail == end[i + 1..]
  }

  /** A chunk is its run, behind a tail of the chunk before it when there is an overlap. */
  ghost predicate Follows(chunk: string, before: string, run: seq<string>, overlap: int) {
    if overlap <= 0 then chunk == Joined(run)
    else exists tail :: IsTail(tail, before, overlap) && chunk == tail + "\n\n" + Joined(run)
  }

  /**
   * Chunk by chunk: what it starts with, then its run. A chunk of several pieces is within the size, and the
   * piece after a chunk would have made it longer than that.
   */
  ghost predicate AreRuns(chunks: seq<string>, runs: seq<seq<string>>, lead: string, size: nat, overlap: int) {
    && |chunks| == |runs| >= 1
    && (forall i :: 0 <= i < |runs| ==> runs[i] != [] && (|runs[i]| > 1 ==> |chunks[i]| <= size))
    && chunks[0] == lead + Joined(runs[0])
    && forall i :: 1 <= i < |chunks| ==>
        Follows(chunks[i], chunks[i - 1], runs[i], overlap) && |chunks[i - 1]| + 2 + |runs[i][0]| > size
  }

  lemma {:induction false} IndexOfIs(text: string, c: char)
    ensures IndexOf(text, c) == |text| <==> c !in text
    ensures c !in text[..IndexOf(text, c)]
    ensures IndexOf(text, c) < |text| ==> text[IndexOf(text, c)] == c
  {
    if text != "" && text[0] != c {
      IndexOfIs(text[1..], c);
      var i := IndexOf(text, c);
      assert text == [text[0]] + text[1..] && text[..i] == [text[0]] + text[1..][..i - 1];
    }
  }

  lemma TailIs(text: string, length: nat)
    ensures IsTail(Tail(text, length), text, length)
  {
    var end := text[Max(0, |text| - length)..];
    IndexOfIs(end, ' ');
  }

  lemma LeadFollows(before: string, run: seq<string>, overlap: int)
    ensures Follows(Lead(before, overlap) + Joined(run), before, run, overlap)
  {
    hide IsTail, Tail, Joined;
    if overlap > 0 {
      TailIs(before, overlap);
    } else {
      assert "" + Joined(run) == Joined(run);
    }
  }

  lemma {:induction false} PackedAreRuns(pieces: seq<string>, run: seq<string>, lead: string, size: nat, overlap: int) returns (runs: seq<seq<string>>)
    requires run != [] && (|run| > 1 ==> |lead + Joined(run)| <= size)
    ensures AreRuns(Packed(pieces, lead + Joined(run), size, overlap), runs, lead, size, overlap)
    ensures runs[0][0] == run[0] && Flatten(runs) == run + pieces
    decreases |pieces|
  {
    hide Joined, Lead, Follows;
    var current := lead + Joined(run);
    if pieces == [] {
      runs := [run];
      FlattenOne(run);
      assert run + [] == run;
    } else if |current| + |pieces[0]| + 2 <= size {
      JoinedPush(run, pieces[0]);
      assert lead + Joined(run) + GAP + pieces[0] == lead + Joined(run + [pieces[0]]);
      runs := PackedAreRuns(pieces[1..], run + [pieces[0]], lead, size, overlap);
      assert run + [pieces[0]] + pieces[1..] == run + pieces;
    } else {
      JoinedOne(pieces[0]);
      var rest := PackedAreRuns(pieces[1..], [pieces[0]], Lead(current, overlap), size, overlap);
      runs := [run] + rest;
      assert runs[1..] == rest;
      assert run + ([pieces[0]] + pieces[1..]) == run + pieces by { assert [pieces[0]] + pieces[1..] == pieces; }
      RunsFirst(current, Packed(pieces[1..], Lead(current, overlap) + pieces[0], size, overlap), run, rest, lead, size, overlap);
    }
  }

  lemma RunsFirst(current: string, chunks: seq<string>, run: seq<string>, rest: seq<seq<string>>, lead: string, size: nat, overlap: int)
    requires run != [] && current == lead + Joined(run) && (|run| > 1 ==> |current| <= size)
    requires AreRuns(chunks, rest, Lead(current, overlap), size, overlap) && |current| + 2 + |rest[0][0]| > size
    ensures AreRuns([current] + chunks, [run] + rest, lead, size, overlap)
  {
    hide Joined, Lead, Follows;
    var all, runs := [current] + chunks, [run] + rest;
    LeadFollows(current, rest[0], overlap);
    forall i | 0 <= i < |runs| ensures runs[i] != [] && (|runs[i]| > 1 ==> |all[i]| <= size) {
      if i > 0 { assert all[i] == chunks[i - 1] && runs[i] == rest[i - 1]; }
    }
    forall i | 1 <= i < |all| ensures Follows(all[i], all[i - 1], runs[i], overlap) && |all[i - 1]| + 2 + |runs[i][0]| > size {
      assert all[i] == chunks[i - 1] && runs[i] == rest[i - 1];
      if i > 1 { assert all[i - 1] == chunks[i - 2]; }
    }
  }

  lemma JoinedPush(run: seq<string>, piece: string)
    requires run != []
    ensures Joined(run + [piece]) == Joined(run) + GAP + piece
  {
    assert (run + [piece])[..|run|] == run;
  }

  lemma JoinedOne(piece: string)
    ensures Joined([piece]) == piece
  {}

  lemma {:induction false} PackedAreSized(pieces: seq<string>, current: string, size: nat, overlap: int)
    requires Sized(pieces, size) && 1 <= |current| <= size + Max(overlap, 0) + 2
    ensures forall c :: c in Packed(pieces, current, size, overlap) ==> 1 <= |c| <= size + Max(overlap, 0) + 2
    decreases |pieces|
  {
    hide Tail;
    if pieces != [] {
      assert 1 <= |pieces[0]| <= size by { assert pieces[0] in pieces; }
      if |current| + |pieces[0]| + 2 <= size {
        PackedAreSized(pieces[1..], current + GAP + pieces[0], size, overlap);
      } else {
        PackedAreSized(pieces[1..], Lead(current, overlap) + pieces[0], size, overlap);
      }
    }
  }

  /** No chunk is empty, and none is longer than its size, its overlap and the gap between them. */
  lemma ChunksAreSized(text: string, size: nat, asked: int)
    requires size >= 1
    ensures forall c :: c in Chunks(text, size, asked) ==> 1 <= |c| <= size + Max(Min(asked, size / 2), 0) + 2
  {
    hide Packed, Normalised, Blocks, ParagraphPieces;
    var pieces := Pieces(Normalised(text), size);
    ParagraphPiecesAreSized(Blocks(Normalised(text), ""), size);
    if pieces != [] {
      assert pieces[0] in pieces;
      PackedAreSized(pieces[1..], pieces[0], size, Overlap(asked, size));
    }
  }

  /** What the chunks of a document are made of: the document itself while it is short, else its pieces. */
  function Parts(text: string, size: nat): seq<string>
    requires size >= 1
  {
    var normalised := Normalised(text);
    if normalised == "" then [] else if |normalised| <= size then [normalised] else Pieces(normalised, size)
  }

  /**
   * The chunks of a document are its parts, in order and each once, cut into runs as long as fit; every chunk but
   * the first starts with the tail of the one before it, which is at most half the size. There are none exactly
   * when the document is white space.
   */
  lemma ChunksAreRuns(text: string, size: nat, asked: int) returns (runs: seq<seq<string>>)
    requires size >= 1
    ensures Flatten(runs) == Parts(text, size)
    ensures Ink(Flatten(Flatten(runs))) == Ink(text)
    ensures Chunks(text, size, asked) == [] <==> Ink(text) == ""
    ensures Chunks(text, size, asked) != [] ==> AreRuns(Chunks(text, size, asked), runs, "", size, Min(asked, size / 2))
  {
    hide Packed, Normalised, Pieces, Ink, AreRuns, Joined;
    var normalised := Normalised(text);
    InkNormalised(text);
    NoInk();
    if normalised == "" {
      runs := [];
    } else if |normalised| <= size {
      runs := [[normalised]];
      FlattenOne([normalised]);
      FlattenOne(normalised);
      OneRun(normalised, size, Overlap(asked, size));
    } else {
      runs := LongChunksAreRuns(text, size, asked);
    }
  }

  lemma LongChunksAreRuns(text: string, size: nat, asked: int) returns (runs: seq<seq<string>>)
    requires size >= 1 && |Normalised(text)| > size
    ensures Flatten(runs) == Pieces(Normalised(text), size)
    ensures Ink(Flatten(Flatten(runs))) == Ink(text) != ""
    ensures Chunks(text, size, asked) != [] && AreRuns(Chunks(text, size, asked), runs, "", size, Min(asked, size / 2))
  {
    hide Packed, Normalised, Pieces, Ink, AreRuns, Joined;
    var pieces := Pieces(Normalised(text), size);
    InkNormalised(text);
    PiecesKeepTheInk(text, size);
    NoInk();
    assert pieces != [];
    JoinedOne(pieces[0]);
    assert "" + Joined([pieces[0]]) == pieces[0];
    runs := PackedAreRuns(pieces[1..], [pieces[0]], "", size, Overlap(asked, size));
    assert [pieces[0]] + pieces[1..] == pieces;
    PackedIsSomething(pieces[1..], pieces[0], size, Overlap(asked, size));
  }

  lemma OneRun(chunk: string, size: nat, overlap: int)
    ensures AreRuns([chunk], [[chunk]], "", size, overlap)
  {
    JoinedOne(chunk);
  }

  lemma NoInk()
    ensures Ink("") == "" && Ink(Flatten<char>([])) == ""
  {}

  lemma {:induction false} PackedIsSomething(pieces: seq<string>, current: string, size: nat, overlap: int)
    ensures Packed(pieces, current, size, overlap) != []
    decreases |pieces|
  {
    if pieces != [] && |current| + |pieces[0]| + 2 <= size {
      PackedIsSomething(pieces[1..], current + GAP + pieces[0], size, overlap);
    }
  }

  // ---------------------------------------------------------------------------------------------
  // The loops

  method SplitText(text: string, size: nat) returns (pieces: seq<string>)
    requires size >= 1
    ensures pieces == Pieces(text, size)
  {
    hide Blocks, BlockPieces;
    pieces := [];
    var blocks := Blocks(text, "");
    for i := 0 to |blocks|
      invariant pieces + ParagraphPieces(blocks[i..], size) == ParagraphPieces(blocks, size)
    {
      assert blocks[i..][1..] == blocks[i + 1..];
      pieces := CutBlock(pieces, blocks[i], size);
    }
    assert blocks[|blocks|..] == [] && pieces + [] == pieces;
  }

  method CutBlock(before: seq<string>, block: string, size: nat) returns (pieces: seq<string>)
    requires size >= 1
    ensures pieces == before + BlockPieces(block, size)
  {
    hide Trim, Sentences, SentencePieces;
    var paragraph := Trim(block);
    if paragraph == "" {
      return before;
    }
    if |paragraph| <= size {
      return before + [paragraph];
    }
    pieces := CutSentences(before, Sentences(paragraph, ""), size);
  }

  method CutSentences(before: seq<string>, sentences: seq<string>, size: nat) returns (pieces: seq<string>)
    requires size >= 1
    ensures pieces == before + SentencePieces(sentences, size)
  {
    hide Cuts;
    pieces := before;
    for i := 0 to |sentences|
      invariant pieces + SentencePieces(sentences[i..], size) == before + SentencePieces(sentences, size)
    {
      assert sentences[i..][1..] == sentences[i + 1..];
      if |sentences[i]| <= size {
        pieces := pieces + [sentences[i]];
        continue;
      }
      pieces := HardCut(pieces, sentences[i], size);
    }
    assert sentences[|sentences|..] == [] && pieces + [] == pieces;
  }

  method HardCut(before: seq<string>, sentence: string, size: nat) returns (pieces: seq<string>)
    requires size >= 1
    ensures pieces == before + Cuts(sentence, size)
  {
    pieces := before;
    var start := 0;
    while start < |sentence|
      invariant 0 <= start
      invariant pieces + Cuts(sentence[Min(start, |sentence|)..], size) == before + Cuts(sentence, size)
    {
      var end := Min(start + size, |sentence|);
      var rest := sentence[start..];
      assert rest[..Min(size, |rest|)] == sentence[start..end] && rest[Min(size, |rest|)..] == sentence[end..];
      pieces := pieces + [sentence[start..end]];
      start := start + size;
    }
    assert pieces + [] == pieces;
  }

  method Chunk(text: string, size: nat, asked: int) returns (chunks: seq<string>)
    requires size >= 1
    ensures chunks == Chunks(text, size, asked)
  {
    hide Normalised, Pieces, Tail, Lead;
    var overlap := Overlap(asked, size);
    var normalised := Normalised(text);
    if normalised == "" {
      return [];
    }
    if |normalised| <= size {
      return [normalised];
    }
    chunks := [];
    var pieces := SplitText(normalised, size);
    PiecesAreNotEmpty(normalised, size);
    var current := "";
    for i := 0 to |pieces|
      invariant i > 0 <==> current != ""
      invariant i > 0 ==> chunks + Packed(pieces[i..], current, size, overlap) == Chunks(text, size, asked)
      invariant i == 0 ==> chunks == []
    {
      assert pieces[i..][1..] == pieces[i + 1..] && pieces[i] != "";
      if current == "" {
        current := pieces[i];
        assert chunks + Packed(pieces[1..], current, size, overlap) == Packed(pieces[1..], pieces[0], size, overlap);
        continue;
      }
      if |current| + |pieces[i]| + 2 <= size {
        current := current + GAP + pieces[i];
        continue;
      }
      ghost var rest := Packed(pieces[i + 1..], Lead(current, overlap) + pieces[i], size, overlap);
      assert chunks + ([current] + rest) == chunks + [current] + rest;
      chunks := chunks + [current];
      LeadIs(current, overlap);
      assert "" + pieces[i] == pieces[i];
      current := if overlap > 0 then Tail(current, overlap) + GAP + pieces[i] else pieces[i];
    }
    if current != "" {
      chunks := chunks + [current];
    }
  }

  lemma LeadIs(current: string, overlap: int)
    ensures Lead(current, overlap) == if overlap > 0 then Tail(current, overlap) + GAP else ""
  {
    hide Tail;
  }

  lemma PiecesAreNotEmpty(text: string, size: nat)
    requires size >= 1
    ensures forall i :: 0 <= i < |Pieces(text, size)| ==> Pieces(text, size)[i] != ""
  {
    hide Blocks, ParagraphPieces;
    ParagraphPiecesAreSized(Blocks(text, ""), size);
    forall i | 0 <= i < |Pieces(text, size)| ensures Pieces(text, size)[i] != "" {
      assert Pieces(text, size)[i] in Pieces(text, size);
    }
  }
}
