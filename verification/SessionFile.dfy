/** Reading a session file: chunks of text into lines, lines into entries, and
    entries into a checked tree with completion evidence. */
module SessionFile {
  import opened Common
  import opened Domain

  // ---------------------------------------------------------------- lines

  /** The complete lines of a text and what follows the last newline. */
  datatype Split = Split(lines: seq<string>, rest: string)

  function Newline(text: string): (i: int)
    ensures -1 <= i < |text|
    ensures i >= 0 ==> text[i] == '\n' && '\n' !in text[..i]
    ensures i < 0 ==> '\n' !in text
  {
    if text == "" then -1
    else if text[0] == '\n' then 0
    else
      var i := Newline(text[1..]);
      assert text == [text[0]] + text[1..];
      if i < 0 then -1 else assert text[..i + 1] == [text[0]] + text[1..][..i]; i + 1
  }

  ghost function SplitLines(text: string): Split
    decreases |text|
  {
    var i := Newline(text);
    if i < 0 then Split([], text)
    else
      var tail := SplitLines(text[i + 1..]);
      Split([text[..i]] + tail.lines, tail.rest)
  }

  ghost function Flatten(chunks: seq<string>): string {
    if |chunks| == 0 then "" else Flatten(chunks[..|chunks| - 1]) + chunks[|chunks| - 1]
  }

  ghost function JoinLines(lines: seq<string>): string {
    if |lines| == 0 then "" else lines[0] + "\n" + JoinLines(lines[1..])
  }

  lemma {:induction false} NewlineIsFirst(line: string, text: string)
    requires '\n' !in line
    ensures Newline(line + "\n" + text) == |line|
    decreases |line|
  {
    var whole := line + "\n" + text;
    if line != "" {
      NewlineIsFirst(line[1..], text);
      assert whole[1..] == line[1..] + "\n" + text;
    }
  }

  /** One line and its newline, put before a text. */
  ghost function Prepend(line: string, text: string): string {
    line + "\n" + text
  }

  lemma SplitCons(line: string, text: string)
    requires '\n' !in line
    ensures SplitLines(Prepend(line, text)) == Split([line] + SplitLines(text).lines, SplitLines(text).rest)
  {
    var whole := line + "\n" + text;
    NewlineIsFirst(line, text);
    assert whole[..|line|] == line && whole[|line| + 1..] == text;
  }

  lemma FirstLine(text: string) returns (line: string, tail: string)
    requires Newline(text) >= 0
    ensures text == Prepend(line, tail) && '\n' !in line && |tail| < |text|
  {
    var i := Newline(text);
    line, tail := text[..i], text[i + 1..];
  }

  ghost predicate NewlineFree(lines: seq<string>) {
    forall i | 0 <= i < |lines| :: '\n' !in lines[i]
  }

  lemma PrependAssociates(line: string, a: string, b: string)
    ensures Prepend(line, a) + b == Prepend(line, a + b)
  {
  }

  lemma JoinCons(line: string, lines: seq<string>)
    ensures JoinLines([line] + lines) == Prepend(line, JoinLines(lines))
  {
    assert ([line] + lines)[1..] == lines;
  }

  lemma {:induction false} SplitLosesNothing(text: string)
    ensures var s := SplitLines(text); text == JoinLines(s.lines) + s.rest && '\n' !in s.rest && NewlineFree(s.lines)
    decreases |text|
  {
    if Newline(text) >= 0 {
      var line, tail := FirstLine(text);
      SplitCons(line, tail);
      SplitLosesNothing(tail);
      var s := SplitLines(tail);
      JoinCons(line, s.lines);
      PrependAssociates(line, JoinLines(s.lines), s.rest);
      hide Newline, SplitLines, JoinLines, Prepend;
    } else {
      assert JoinLines([]) + text == text;
    }
  }

  lemma {:induction false} SplitInventsNothing(lines: seq<string>, rest: string)
    requires NewlineFree(lines) && '\n' !in rest
    ensures SplitLines(JoinLines(lines) + rest) == Split(lines, rest)
    decreases |lines|
  {
    if |lines| == 0 {
      assert "" + rest == rest;
    } else {
      assert lines == [lines[0]] + lines[1..];
      SplitInventsNothing(lines[1..], rest);
      SplitCons(lines[0], JoinLines(lines[1..]) + rest);
      JoinCons(lines[0], lines[1..]);
      PrependAssociates(lines[0], JoinLines(lines[1..]), rest);
      hide Newline, SplitLines, JoinLines, Prepend;
    }
  }

  /** Splitting is the one way to write a text as newline-free lines, each
      ended by a newline, and a newline-free remainder. */
  lemma SplitIsExact(text: string, lines: seq<string>, rest: string)
    ensures SplitLines(text) == Split(lines, rest) <==>
            text == JoinLines(lines) + rest && '\n' !in rest && NewlineFree(lines)
  {
    SplitLosesNothing(text);
    if text == JoinLines(lines) + rest && '\n' !in rest && NewlineFree(lines) {
      SplitInventsNothing(lines, rest);
    }
  }

  /** More text after a remainder only extends the lines. */
  lemma {:induction false} SplitExtends(text: string, more: string)
    ensures SplitLines(text + more) ==
            Split(SplitLines(text).lines + SplitLines(SplitLines(text).rest + more).lines,
                SplitLines(SplitLines(text).rest + more).rest)
    decreases |text|
  {
    if Newline(text) < 0 {
      var b := SplitLines(text + more);
      assert [] + b.lines == b.lines;
    } else {
      var line, tail := FirstLine(text);
      hide Newline, SplitLines, Prepend;
      SplitCons(line, tail);
      SplitCons(line, tail + more);
      PrependAssociates(line, tail, more);
      SplitExtends(tail, more);
      var a, b := SplitLines(tail), SplitLines(SplitLines(tail).rest + more);
      assert SplitLines(text) == Split([line] + a.lines, a.rest);
      assert SplitLines(text + more) == Split([line] + (a.lines + b.lines), b.rest);
      ConsAssociates(line, a.lines, b.lines);
    }
  }

  lemma ConsAssociates(line: string, a: seq<string>, b: seq<string>)
    ensures ([line] + a) + b == [line] + (a + b)
  {
  }
}
