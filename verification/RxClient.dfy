/** The receiving side of the C++ client: it cuts the stream into lines, picks out the
    rx_data notifications and calls back with their fields. */
module RxClient {
  import opened Sequences
  import opened Matching
  import opened Scanner
  import opened Framing

  datatype RxData = RxData(port: string, timestamp: string, ascii: string, hex: string)

  const NUL: char := 0 as char

  /** What appending a C string keeps of it: the part before the first NUL. */
  function CString(s: string): string {
    if s == "" || s[0] == NUL then "" else [s[0]] + CString(s[1..])
  }

  function TrimFront(s: string): string {
    if s != "" && (s[0] == ' ' || s[0] == '\r') then TrimFront(s[1..]) else s
  }

  function TrimBack(s: string): string {
    if s != "" && (s[|s| - 1] == ' ' || s[|s| - 1] == '\r') then TrimBack(s[..|s| - 1]) else s
  }

  function Trim(s: string): string {
    TrimBack(TrimFront(s))
  }

  predicate TrimmedChar(c: char) {
    c == ' ' || c == '\r'
  }

  lemma {:induction false} TrimFrontCuts(s: string) returns (lo: nat)
    ensures lo <= |s| && TrimFront(s) == s[lo..] && (forall i :: 0 <= i < lo ==> TrimmedChar(s[i]))
    ensures lo < |s| ==> !TrimmedChar(s[lo])
  {
    if s != "" && TrimmedChar(s[0]) {
      lo := TrimFrontCuts(s[1..]);
      assert s[1..][lo..] == s[lo + 1..];
      lo := lo + 1;
    } else {
      lo := 0;
    }
  }

  lemma {:induction false} TrimBackCuts(s: string) returns (hi: nat)
    ensures hi <= |s| && TrimBack(s) == s[..hi] && (forall i :: hi <= i < |s| ==> TrimmedChar(s[i]))
    ensures 0 < hi ==> !TrimmedChar(s[hi - 1])
  {
    if s != "" && TrimmedChar(s[|s| - 1]) {
      hi := TrimBackCuts(s[..|s| - 1]);
      assert s[..|s| - 1][..hi] == s[..hi];
    } else {
      hi := |s|;
    }
  }

  /** Trimming takes the blanks and carriage returns off both ends, and nothing else. */
  lemma TrimStrips(s: string)
    ensures Stripped(TrimmedChar, s, Trim(s))
  {
    var lo := TrimFrontCuts(s);
    var hi := TrimBackCuts(s[lo..]);
    assert s[lo..][..hi] == s[lo..lo + hi];
    assert forall i :: lo + hi <= i < |s| ==> s[i] == s[lo..][i - lo];
    assert StrippedTo(TrimmedChar, s, Trim(s), lo, lo + hi);
  }

  /** What a C string keeps is what stands before the first NUL. */
  lemma {:induction false} CStringIsFront(s: string)
    ensures var n := |CString(s)|; n <= |s| && CString(s) == s[..n] && NUL !in CString(s) && (n == |s| || s[n] == NUL)
  {
    if s != "" && s[0] != NUL {
      CStringIsFront(s[1..]);
    }
  }

  predicate LooksLikeRxData(line: string) {
    FindSubslice(line, "\"notify\"").Some? && FindSubslice(line, "\"rx_data\"").Some?
  }

  function Fields(line: string): RxData {
    RxData(CString(Extract(line, "port")), CString(Extract(line, "timestamp")),
           CString(Extract(line, "ascii")), CString(Extract(line, "hex")))
  }

  /** The callbacks of one line of the stream: none or one. */
  function CallsOfLine(line: string): seq<RxData> {
    if Trim(line) != "" && LooksLikeRxData(Trim(line)) then [Fields(Trim(line))] else []
  }

  function CallsOf(lines: seq<string>): seq<RxData> {
    FlatMap(CallsOfLine, lines)
  }

  function Received(chunks: seq<string>): string {
    if chunks == [] then "" else Received(chunks[..|chunks| - 1]) + CString(chunks[|chunks| - 1])
  }

  method ParseNotification(line: string) returns (calls: seq<RxData>)
    ensures calls == if LooksLikeRxData(line) then [Fields(line)] else []
  {
    calls := [];
    if FindSubslice(line, "\"notify\"").None? { return; }
    if FindSubslice(line, "\"rx_data\"").None? { return; }
    var port := ExtractJsonString(line, "port");
    var timestamp := ExtractJsonString(line, "timestamp");
    var ascii := ExtractJsonString(line, "ascii");
    var hex := ExtractJsonString(line, "hex");
    calls := [RxData(CString(port), CString(timestamp), CString(ascii), CString(hex))];
  }

  method TrimLoop(line: string) returns (trimmed: string)
    ensures trimmed == Trim(line)
  {
    trimmed := line;
    while trimmed != "" && (trimmed[0] == ' ' || trimmed[0] == '\r')
      invariant TrimFront(trimmed) == TrimFront(line)
      decreases |trimmed|
    {
      trimmed := trimmed[1..];
    }
    while trimmed != "" && (trimmed[|trimmed| - 1] == ' ' || trimmed[|trimmed| - 1] == '\r')
      invariant TrimBack(trimmed) == Trim(line)
      decreases |trimmed|
    {
      trimmed := trimmed[..|trimmed| - 1];
    }
  }

  /** The inner loop: cut off complete lines while there is a line feed. */
  method TakeLines(received: string) returns (calls: seq<RxData>, buffer: string)
    ensures calls == CallsOf(Frame(received).lines) && buffer == Frame(received).rest
  {
    buffer := received;
    calls := [];
    ghost var done: seq<string> := [];
    var pos := FindSubslice(buffer, "\n");
    while pos.Some?
      invariant pos == FindSubslice(buffer, "\n")
      invariant calls == CallsOf(done)
      invariant Frame(received) == Framed(done + Frame(buffer).lines, Frame(buffer).rest)
      decreases |buffer|
    {
      FirstLineFeed(buffer);
      FrameFirst(buffer, pos.value);
      var line := buffer[..pos.value];
      buffer := buffer[pos.value + 1..];
      assert done + ([line] + Frame(buffer).lines) == done + [line] + Frame(buffer).lines;
      FlatMapAppend(CallsOfLine, done, [line]);
      FlatMapOne(CallsOfLine, line);
      done := done + [line];
      line := TrimLoop(line);
      if line != "" {
        var called := ParseNotification(line);
        calls := calls + called;
      }
      pos := FindSubslice(buffer, "\n");
    }
    FirstLineFeed(buffer);
    FrameNoNewline(buffer);
    assert done + [] == done;
  }

  /** `RecvLoop`: for every chunking, the callbacks are those of the complete lines
      received so far, in order, and the incomplete last line waits in the buffer. */
  method RecvLoop(chunks: seq<string>) returns (calls: seq<RxData>, buffer: string)
    ensures calls == CallsOf(Frame(Received(chunks)).lines)
    ensures buffer == Frame(Received(chunks)).rest
  {
    buffer := "";
    calls := [];
    var n := 0;
    while n < |chunks|
      invariant 0 <= n <= |chunks|
      invariant calls == CallsOf(Frame(Received(chunks[..n])).lines)
      invariant buffer == Frame(Received(chunks[..n])).rest
    {
      assert chunks[..n + 1][..n] == chunks[..n];
      FrameAppend(Received(chunks[..n]), CString(chunks[n]));
      FlatMapAppend(CallsOfLine, Frame(Received(chunks[..n])).lines, Frame(buffer + CString(chunks[n])).lines);
      buffer := buffer + CString(chunks[n]);
      var called;
      called, buffer := TakeLines(buffer);
      calls := calls + called;
      n := n + 1;
    }
    assert chunks[..|chunks|] == chunks;
  }
}
