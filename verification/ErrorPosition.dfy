/** The byte position that a JSON error at a line and column is reported at. */
module ErrorPosition {
  import opened Lists

  type Text = seq<char>

  /** The lines of a text, split at every newline; there is always at least one. */
  function Split(text: Text): (lines: seq<Text>)
    ensures lines != []
  {
    if text == [] then [[]]
    else
      var rest := Split(text[1..]);
      if text[0] == '\n' then [[]] + rest else [[text[0]] + rest[0]] + rest[1..]
  }

  function Join(lines: seq<Text>): Text
    requires lines != []
  {
    if |lines| == 1 then lines[0] else lines[0] + ['\n'] + Join(lines[1..])
  }

  function Newlines(text: Text): nat {
    if text == [] then 0 else (if text[0] == '\n' then 1 else 0) + Newlines(text[1..])
  }

  /** Whole lines count with their newline; within the line the position is the column, one less before its end. */
  function ErrorPos(lines: seq<Text>, line: nat, column: nat): nat {
    if line == 0 || lines == [] then 0
    else if line == 1 then
      if column == |lines[0]| then column else if column == 0 then 0 else column - 1
    else |lines[0]| + 1 + ErrorPos(lines[1..], line - 1, column)
  }

  function LineStart(lines: seq<Text>, line: nat): nat {
    if line <= 1 || lines == [] then 0 else |lines[0]| + 1 + LineStart(lines[1..], line - 1)
  }

  predicate NoNewlines(lines: seq<Text>) {
    forall l <- lines :: '\n' !in l
  }

  lemma JoinNewline(lines: seq<Text>)
    requires lines != []
    ensures Join([[]] + lines) == ['\n'] + Join(lines)
  {
    assert ([[]] + lines)[1..] == lines;
  }

  lemma JoinPrepend(c: char, lines: seq<Text>)
    requires lines != []
    ensures Join([[c] + lines[0]] + lines[1..]) == [c] + Join(lines)
  {
    assert ([[c] + lines[0]] + lines[1..])[1..] == lines[1..];
    if |lines| > 1 {
      Associative([c], lines[0], ['\n'] + Join(lines[1..]));
      Associative(lines[0], ['\n'], Join(lines[1..]));
      Associative([c] + lines[0], ['\n'], Join(lines[1..]));
    }
  }

  lemma {:induction false} SplitJoin(text: Text)
    ensures Join(Split(text)) == text
  {
    if text != [] {
      var rest := Split(text[1..]);
      SplitJoin(text[1..]);
      if text[0] == '\n' {
        JoinNewline(rest);
      } else {
        JoinPrepend(text[0], rest);
      }
    }
  }

  lemma {:induction false} SplitNoNewlines(text: Text)
    ensures NoNewlines(Split(text))
  {
    if text != [] {
      var rest := Split(text[1..]);
      SplitNoNewlines(text[1..]);
      assert rest[0] in rest;
      assert forall l <- rest[1..] :: l in rest;
    }
  }

  lemma {:induction false} NewlinesConcat(a: Text, b: Text)
    ensures Newlines(a + b) == Newlines(a) + Newlines(b)
  {
    if a == [] {
      assert a + b == b;
    } else {
      NewlinesConcat(a[1..], b);
      assert (a + b)[1..] == a[1..] + b;
    }
  }

  lemma {:induction false} NoneWithin(text: Text)
    requires '\n' !in text
    ensures Newlines(text) == 0
  {
    if text != [] {
      NoneWithin(text[1..]);
    }
  }

  lemma {:induction false} OnLine(lines: seq<Text>, line: nat, column: nat)
    requires NoNewlines(lines) && 1 <= line <= |lines| && column <= |lines[line - 1]|
    ensures var p := ErrorPos(lines, line, column);
            && p <= |Join(lines)| && Newlines(Join(lines)[..p]) == line - 1
            && p <= LineStart(lines, line) + column <= p + 1
            && (p == LineStart(lines, line) + column <==> column == |lines[line - 1]| || column == 0)
  {
    var p := ErrorPos(lines, line, column);
    assert lines[0] in lines;
    if line == 1 {
      assert Join(lines)[..p] == lines[0][..p];
      NoneWithin(lines[0][..p]);
    } else {
      assert NoNewlines(lines[1..]) by {
        assert forall l <- lines[1..] :: l in lines;
      }
      OnLine(lines[1..], line - 1, column);
      var q := ErrorPos(lines[1..], line - 1, column);
      var first := lines[0] + ['\n'];
      assert Join(lines)[..p] == first + Join(lines[1..])[..q];
      NewlinesConcat(first, Join(lines[1..])[..q]);
      NewlinesConcat(lines[0], ['\n']);
      NoneWithin(lines[0]);
    }
  }

  /** The reported position lies in the text, on the right line, and at most one byte before the column. */
  lemma ErrorPositionOnItsLine(text: Text, line: nat, column: nat)
    requires 1 <= line <= |Split(text)| && column <= |Split(text)[line - 1]|
    ensures var p := ErrorPos(Split(text), line, column);
            && p <= |text| && Newlines(text[..p]) == line - 1
            && p <= LineStart(Split(text), line) + column <= p + 1
            && (p == LineStart(Split(text), line) + column <==> column == |Split(text)[line - 1]| || column == 0)
  {
    SplitJoin(text);
    SplitNoNewlines(text);
    OnLine(Split(text), line, column);
  }
}
