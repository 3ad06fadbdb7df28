/** Newline framing of a byte stream: the naive reading, one character at a time, and
    what it makes of chunks and of whole printed lines. */
module Framing {
  import opened Sequences
  import opened Matching

  datatype Framed = Framed(lines: seq<string>, rest: string)

  function Frame(s: string): Framed {
    if s == "" then Framed([], "")
    else
      var before := Frame(s[..|s| - 1]);
      var c := s[|s| - 1];
      if c == '\n' then Framed(before.lines + [before.rest], "") else Framed(before.lines, before.rest + [c])
  }

  function Joined(lines: seq<string>): string {
    if lines == [] then "" else Joined(lines[..|lines| - 1]) + lines[|lines| - 1] + "\n"
  }

  /** Framing can be done in pieces: what was left over goes in front of what follows. */
  lemma {:induction false} FrameAppend(a: string, b: string)
    ensures Frame(a + b) == Framed(Frame(a).lines + Frame(Frame(a).rest + b).lines, Frame(Frame(a).rest + b).rest)
  {
    var r := Frame(a).rest;
    if b == "" {
      assert a + b == a && r + b == r;
      RestFrame(a);
    } else {
      FrameAppend(a, b[..|b| - 1]);
      assert (a + b)[..|a + b| - 1] == a + b[..|b| - 1];
      assert (r + b)[..|r + b| - 1] == r + b[..|b| - 1];
    }
  }

  lemma {:induction false} RestFrame(s: string)
    ensures '\n' !in Frame(s).rest && Frame(Frame(s).rest) == Framed([], Frame(s).rest)
    ensures forall l :: l in Frame(s).lines ==> '\n' !in l
  {
    if s != "" {
      RestFrame(s[..|s| - 1]);
    }
    FrameNoNewline(Frame(s).rest);
  }

  lemma {:induction false} FrameNoNewline(s: string)
    requires '\n' !in s
    ensures Frame(s) == Framed([], s)
  {
    if s != "" {
      FrameNoNewline(s[..|s| - 1]);
      assert s[|s| - 1] in s;
    }
  }

  lemma OneLine(line: string)
    requires '\n' !in line
    ensures Frame(line + "\n") == Framed([line], "")
  {
    FrameNoNewline(line);
    assert (line + "\n")[..|line|] == line;
  }

  lemma SplitBehind(s: string, pos: nat)
    requires pos < |s|
    ensures s == (s[..pos] + [s[pos]]) + s[pos + 1..]
  {
  }

  /** The first line of a buffer is what stands before its first line feed. */
  lemma FrameFirst(s: string, pos: nat)
    requires pos < |s| && s[pos] == '\n' && '\n' !in s[..pos]
    ensures Frame(s) == Framed([s[..pos]] + Frame(s[pos + 1..]).lines, Frame(s[pos + 1..]).rest)
  {
    OneLine(s[..pos]);
    SplitBehind(s, pos);
    assert "" + s[pos + 1..] == s[pos + 1..];
    FrameAppend(s[..pos] + "\n", s[pos + 1..]);
  }

  lemma FrameLine(s: string, line: string)
    requires Frame(s).rest == "" && '\n' !in line
    ensures Frame(s + line + "\n") == Framed(Frame(s).lines + [line], "")
  {
    FrameAppend(s, line);
    assert "" + line == line;
    FrameNoNewline(line);
    assert (s + line + "\n")[..|s + line + "\n"| - 1] == s + line;
    assert Frame(s).lines + [] == Frame(s).lines;
  }

  lemma {:induction false} FrameWhole(lines: seq<string>)
    requires forall l :: l in lines ==> '\n' !in l
    ensures Frame(Joined(lines)) == Framed(lines, "")
  {
    if lines != [] {
      FrameWhole(lines[..|lines| - 1]);
      FrameLine(Joined(lines[..|lines| - 1]), lines[|lines| - 1]);
    }
  }

  /** Searching for a line feed finds the first one. */
  lemma FirstLineFeed(s: string)
    ensures var pos := FindSubslice(s, "\n");
      if pos.None? then '\n' !in s else pos.value < |s| && s[pos.value] == '\n' && '\n' !in s[..pos.value]
  {
    var pos := FindSubslice(s, "\n");
    forall i | 0 <= i < |s| ensures OccursAt(s, "\n", i) <==> s[i] == '\n' {
      assert s[i..i + 1] == [s[i]];
    }
  }

  /** Whole lines come back as they were written, and a partial last line is held back. */
  lemma FrameJoined(lines: seq<string>, partial: string)
    requires (forall l :: l in lines ==> '\n' !in l) && '\n' !in partial
    ensures Frame(Joined(lines) + partial) == Framed(lines, partial)
  {
    FrameWhole(lines);
    FrameAppend(Joined(lines), partial);
    assert "" + partial == partial;
    FrameNoNewline(partial);
  }

  /** Every prefix of the stream gives a prefix of the lines. */
  lemma FramePrefix(a: string, b: string)
    ensures IsPrefix(Frame(a).lines, Frame(a + b).lines)
  {
    FrameAppend(a, b);
  }
}
