/** A log file read back, line by line. */
module LogFile {
  import opened Sequences
  import opened Framing
  import opened LogTask

  /** What a reader takes a line of the file for: the stamp up to the first closing bracket,
      and behind it, after a blank, the text. */
  function ReadLine(line: string): Line
  {
    var close := UpToBracket(line);
    if line != "" && line[0] == '[' && close + 2 <= |line| then Line(line[1..close], line[close + 2..]) else Line("", line)
  }

  /** The place of the first closing bracket. */
  function UpToBracket(line: string): (n: nat)
    ensures n <= |line|
  {
    if line == "" || line[0] == ']' then 0 else 1 + UpToBracket(line[1..])
  }

  function ReadLines(lines: seq<string>): seq<Line> {
    if lines == [] then [] else ReadLines(lines[..|lines| - 1]) + [ReadLine(lines[|lines| - 1])]
  }

  /** A stamp without a closing bracket, and both parts on one line. */
  predicate Plain(line: Line) {
    ']' !in line.timestamp && '\n' !in line.timestamp && '\n' !in line.text
  }

  lemma {:induction false} BracketAt(front: string, rest: string)
    requires ']' !in front
    ensures UpToBracket(front + "]" + rest) == |front|
  {
    if front == "" {
      assert (front + "]" + rest)[0] == ']';
    } else {
      assert (front + "]" + rest)[1..] == front[1..] + "]" + rest;
      BracketAt(front[1..], rest);
    }
  }

  lemma LineReadBack(line: Line)
    requires Plain(line)
    ensures Printed(line) == Printed(line)[..|Printed(line)| - 1] + "\n"
    ensures '\n' !in Printed(line)[..|Printed(line)| - 1] && ReadLine(Printed(line)[..|Printed(line)| - 1]) == line
  {
    var shown := "[" + line.timestamp + "] " + line.text;
    assert Printed(line) == shown + "\n";
    assert shown == ("[" + line.timestamp) + "]" + (" " + line.text);
    BracketAt("[" + line.timestamp, " " + line.text);
    assert shown[1..|line.timestamp| + 1] == line.timestamp && shown[|line.timestamp| + 3..] == line.text;
  }

  lemma ReadNext(lines: seq<string>, line: string)
    ensures ReadLines(lines + [line]) == ReadLines(lines) + [ReadLine(line)]
  {
    assert (lines + [line])[..|lines|] == lines;
  }

  /** The file reads back as these entries. */
  ghost predicate ReadsBack(file: string, lines: seq<Line>) {
    ReadLines(Frame(file).lines) == lines && Frame(file).rest == ""
  }

  lemma OneMoreLine(file: string, lines: seq<Line>, last: Line)
    requires ReadsBack(file, lines) && Plain(last)
    ensures ReadsBack(file + Printed(last), lines + [last])
  {
    var shown := Printed(last)[..|Printed(last)| - 1];
    LineReadBack(last);
    assert file + Printed(last) == file + shown + "\n";
    FrameLine(file, shown);
    ReadNext(Frame(file).lines, shown);
  }

  /** The entries that a log file holds can be read back from it: one line each, in order, with
      the stamp and the text of each, when no stamp has a closing bracket and no line feed
      came with the data. */
  lemma {:induction false} LogReadBack(lines: seq<Line>)
    requires forall l :: l in lines ==> Plain(l)
    ensures ReadsBack(FlatMap(Printed, lines), lines)
  {
    if lines != [] {
      LogReadBack(lines[..|lines| - 1]);
      OneMoreLine(FlatMap(Printed, lines[..|lines| - 1]), lines[..|lines| - 1], lines[|lines| - 1]);
      assert lines[..|lines| - 1] + [lines[|lines| - 1]] == lines;
    }
  }
}
