/** Splitting text into lines and joining them again, as `split` and `join` of JavaScript strings do with a line feed. */
module Lines {
  import opened Basics

  const LF := '\n'

  function Split(text: string): (lines: seq<string>)
    ensures |lines| >= 1
  {
    if text == "" then [""]
    else if text[0] == LF then [""] + Split(text[1..])
    else
      var rest := Split(text[1..]);
      [[text[0]] + rest[0]] + rest[1..]
  }

  function Join(lines: seq<string>): string {
    if lines == [] then "" else if |lines| == 1 then lines[0] else lines[0] + [LF] + Join(lines[1..])
  }

  ghost predicate AreLines(lines: seq<string>) {
    forall i :: 0 <= i < |lines| ==> LF !in lines[i]
  }

  lemma {:induction false} SplitGivesLines(text: string)
    ensures AreLines(Split(text))
  {
    if text != "" {
      SplitGivesLines(text[1..]);
    }
  }

  lemma JoinPush(first: string, rest: seq<string>)
    requires rest != []
    ensures Join([first] + rest) == first + [LF] + Join(rest)
  {
    assert ([first] + rest)[1..] == rest;
  }

  lemma {:induction false} JoinOfSplit(text: string)
    ensures Join(Split(text)) == text
  {
    if text != "" {
      JoinOfSplit(text[1..]);
      var rest := Split(text[1..]);
      if text[0] == LF {
        JoinPush("", rest);
        assert Split(text) == [""] + rest;
      } else {
        var c := text[0];
        assert Split(text) == [[c] + rest[0]] + rest[1..];
        if |rest| > 1 {
          JoinPush([c] + rest[0], rest[1..]);
          JoinPush(rest[0], rest[1..]);
          assert rest == [rest[0]] + rest[1..];
        }
      }
    }
  }

  lemma {:induction false} SplitOfLine(line: string, rest: string)
    requires LF !in line
    ensures Split(line) == [line]
    ensures Split(line + [LF] + rest) == [line] + Split(rest)
    decreases |line|
  {
    var text := line + [LF] + rest;
    if line == "" {
      assert text[0] == LF && text[1..] == rest;
    } else {
      SplitOfLine(line[1..], rest);
      assert text[0] == line[0] && text[1..] == line[1..] + [LF] + rest;
      assert [line[0]] + line[1..] == line;
    }
  }

  lemma {:induction false} SplitOfJoin(lines: seq<string>)
    requires lines != [] && AreLines(lines)
    ensures Split(Join(lines)) == lines
  {
    if |lines| == 1 {
      SplitOfLine(lines[0], "");
    } else {
      SplitOfJoin(lines[1..]);
      SplitOfLine(lines[0], Join(lines[1..]));
      assert lines == [lines[0]] + lines[1..];
    }
  }
}
