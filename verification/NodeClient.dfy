/** The Node client of the daemon: it cuts the received text into lines, files the
    notifications and resolves its pending requests first in, first out. */
module NodeClient {
  import opened Sequences
  import opened Framing
  import opened Matching
  import opened JsWhitespace

  const MAX_RX_STREAM_ENTRIES: nat := 500

  /** What JSON.parse makes of a line, as far as the handler looks: it has a `notify`
      member (with the port and data of the two kinds that are kept), it does not, or
      it is no JSON. The decoding itself is a parameter. */
  datatype Kind = Response | RxData(port: string, data: string) | FilterHit(port: string, data: string) | OtherNotice | Invalid

  datatype Outcome = Answer(line: string) | Disconnected

  /** The i-th send was resolved with this outcome. */
  datatype Resolution = Resolution(id: nat, outcome: Outcome)

  /** `sent` counts the requests, `pending` holds the numbers of the unresolved ones. */
  datatype State = State(buffer: string, sent: nat, pending: seq<nat>, resolutions: seq<Resolution>,
                         rxStreamBuffers: map<string, seq<string>>, filterHits: map<string, seq<string>>)

  predicate JsSpace(c: char) {
    Whitespace(c as int)
  }

  function JsTrimFront(s: string): string {
    if s != "" && JsSpace(s[0]) then JsTrimFront(s[1..]) else s
  }

  function JsTrimBack(s: string): string {
    if s != "" && JsSpace(s[|s| - 1]) then JsTrimBack(s[..|s| - 1]) else s
  }

  function JsTrim(s: string): string {
    JsTrimBack(JsTrimFront(s))
  }

  lemma {:induction false} JsTrimFrontCuts(s: string) returns (lo: nat)
    ensures lo <= |s| && JsTrimFront(s) == s[lo..] && (forall i :: 0 <= i < lo ==> JsSpace(s[i]))
    ensures lo < |s| ==> !JsSpace(s[lo])
  {
    if s != "" && JsSpace(s[0]) {
      lo := JsTrimFrontCuts(s[1..]);
      assert s[1..][lo..] == s[lo + 1..];
      lo := lo + 1;
    } else {
      lo := 0;
    }
  }

  lemma {:induction false} JsTrimBackCuts(s: string) returns (hi: nat)
    ensures hi <= |s| && JsTrimBack(s) == s[..hi] && (forall i :: hi <= i < |s| ==> JsSpace(s[i]))
    ensures 0 < hi ==> !JsSpace(s[hi - 1])
  {
    if s != "" && JsSpace(s[|s| - 1]) {
      hi := JsTrimBackCuts(s[..|s| - 1]);
      assert s[..|s| - 1][..hi] == s[..hi];
    } else {
      hi := |s|;
    }
  }

  /** `trim` takes the white space off both ends, and nothing else. */
  lemma JsTrimStrips(s: string)
    ensures Stripped(JsSpace, s, JsTrim(s))
  {
    var lo := JsTrimFrontCuts(s);
    var hi := JsTrimBackCuts(s[lo..]);
    assert s[lo..][..hi] == s[lo..lo + hi];
    assert forall i :: lo + hi <= i < |s| ==> s[i] == s[lo..][i - lo];
    assert StrippedTo(JsSpace, s, JsTrim(s), lo, lo + hi);
  }

  /** Push and drop the oldest beyond 500, for a port that has a buffer. */
  function Filed(buffers: map<string, seq<string>>, port: string, data: string): map<string, seq<string>> {
    if port != "" && port in buffers
    then buffers[port := TakeLast(buffers[port] + [data], MAX_RX_STREAM_ENTRIES)]
    else buffers
  }

  function HandleLine(decode: string -> Kind, s: State, raw: string): State {
    var line := JsTrim(raw);
    if line == "" then s
    else
      match decode(line)
      case RxData(port, data) => s.(rxStreamBuffers := Filed(s.rxStreamBuffers, port, data))
      case FilterHit(port, data) => s.(filterHits := Filed(s.filterHits, port, data))
      case OtherNotice => s
      case Invalid => s
      case Response =>
        if s.pending == [] then s
        else s.(pending := s.pending[1..], resolutions := s.resolutions + [Resolution(s.pending[0], Answer(line))])
  }

  function HandleLines(decode: string -> Kind, s: State, lines: seq<string>): State {
    if lines == [] then s
    else HandleLine(decode, HandleLines(decode, s, lines[..|lines| - 1]), lines[|lines| - 1])
  }

  function OnDataOf(decode: string -> Kind, s: State, chunk: string): State {
    var framed := Frame(s.buffer + chunk);
    HandleLines(decode, s, framed.lines).(buffer := framed.rest)
  }

  function SendOf(s: State): State {
    s.(sent := s.sent + 1, pending := s.pending + [s.sent])
  }

  function Rejections(ids: seq<nat>): (r: seq<Resolution>)
    ensures |r| == |ids|
  {
    seq(|ids|, i requires 0 <= i < |ids| => Resolution(ids[i], Disconnected))
  }

  function OnCloseOf(s: State): State {
    s.(pending := [], resolutions := s.resolutions + Rejections(s.pending))
  }

  /** The client object; its event handlers update its fields. */
  class DaemonClient {
    var buffer: string
    var sent: nat
    var pending: seq<nat>
    var resolutions: seq<Resolution>
    var rxStreamBuffers: map<string, seq<string>>
    var filterHits: map<string, seq<string>>

    ghost function Value(): State
      reads this
    {
      State(buffer, sent, pending, resolutions, rxStreamBuffers, filterHits)
    }

    constructor ()
      ensures Value() == State("", 0, [], [], map[], map[])
    {
      buffer, sent, pending, resolutions, rxStreamBuffers, filterHits := "", 0, [], [], map[], map[];
    }

    method Send() returns (id: nat)
      modifies this`sent, this`pending
      ensures Value() == SendOf(old(Value())) && id == old(sent)
    {
      id := sent;
      pending := pending + [id];
      sent := sent + 1;
    }

    /** The body of the loop for one cut line. */
    method OnLine(decode: string -> Kind, raw: string)
      modifies this
      ensures Value() == HandleLine(decode, old(Value()), raw)
    {
      var line := JsTrim(raw);
      if line == "" {
        return;
      }
      match decode(line) {
        case RxData(port, data) =>
          if port != "" && port in rxStreamBuffers {
            var buf := Pushed(rxStreamBuffers[port], data);
            rxStreamBuffers := rxStreamBuffers[port := buf];
          }
        case FilterHit(port, data) =>
          if port != "" && port in filterHits {
            var buf := Pushed(filterHits[port], data);
            filterHits := filterHits[port := buf];
          }
        case OtherNotice =>
        case Invalid =>
        case Response =>
          if |pending| > 0 {
            var id := pending[0];
            pending := pending[1..];
            resolutions := resolutions + [Resolution(id, Answer(line))];
          }
      }
    }

    method OnData(decode: string -> Kind, chunk: string)
      modifies this
      ensures Value() == OnDataOf(decode, old(Value()), chunk)
    {
      ghost var start := Value();
      var text := buffer + chunk;
      buffer := text;
      ghost var done: seq<string> := [];
      var idx := FindSubslice(buffer, "\n");
      while idx.Some?
        invariant idx == FindSubslice(buffer, "\n")
        invariant Frame(text) == Framed(done + Frame(buffer).lines, Frame(buffer).rest)
        invariant Value() == HandleLines(decode, start, done).(buffer := buffer)
        decreases |buffer|
      {
        FirstLineFeed(buffer);
        FrameFirst(buffer, idx.value);
        var line := buffer[..idx.value];
        ghost var next := buffer[idx.value + 1..];
        assert done + ([line] + Frame(next).lines) == done + [line] + Frame(next).lines;
        HandleLinesNext(decode, start, done, line, buffer, next);
        buffer := buffer[idx.value + 1..];
        OnLine(decode, line);
        done := done + [line];
        idx := FindSubslice(buffer, "\n");
      }
      FirstLineFeed(buffer);
      FrameNoNewline(buffer);
      assert done + [] == done;
    }

    /** Every request still waiting is resolved with the disconnect error. */
    method OnClose()
      modifies this`pending, this`resolutions
      ensures Value() == OnCloseOf(old(Value()))
    {
      var n := 0;
      while n < |pending|
        invariant 0 <= n <= |pending| && pending == old(pending)
        invariant resolutions == old(resolutions) + Rejections(old(pending))[..n]
      {
        resolutions := resolutions + [Resolution(pending[n], Disconnected)];
        n := n + 1;
      }
      pending := [];
    }
  }

  /** buf.push, then splice off the front what exceeds the bound. */
  method Pushed(entries: seq<string>, data: string) returns (kept: seq<string>)
    ensures kept == TakeLast(entries + [data], MAX_RX_STREAM_ENTRIES)
  {
    kept := entries + [data];
    if |kept| > MAX_RX_STREAM_ENTRIES {
      kept := kept[|kept| - MAX_RX_STREAM_ENTRIES..];
    }
  }

  /** Handling a line neither reads nor writes the buffer. */
  lemma HandleLinesNext(decode: string -> Kind, s: State, done: seq<string>, line: string, buffer: string, next: string)
    ensures HandleLine(decode, HandleLines(decode, s, done).(buffer := next), line)
      == HandleLines(decode, s, done + [line]).(buffer := next)
  {
    assert (done + [line])[..|done|] == done;
  }

  // ---- the bounded notification buffers ----

  /** The data of the rx_data notifications for one port, in order. */
  function RxDataFor(decode: string -> Kind, lines: seq<string>, port: string): seq<string> {
    FlatMap(l => RxDataIn(decode, l, port), lines)
  }

  function RxDataIn(decode: string -> Kind, raw: string, port: string): seq<string> {
    var line := JsTrim(raw);
    if line == "" then []
    else
      match decode(line)
      case RxData(p, data) => if p == port then [data] else []
      case _ => []
  }

  function HitsFor(decode: string -> Kind, lines: seq<string>, port: string): seq<string> {
    FlatMap(l => HitsIn(decode, l, port), lines)
  }

  function HitsIn(decode: string -> Kind, raw: string, port: string): seq<string> {
    var line := JsTrim(raw);
    if line == "" then []
    else
      match decode(line)
      case FilterHit(p, data) => if p == port then [data] else []
      case _ => []
  }

  /** Nothing is filed under the empty name: a notification that names no port is dropped. */
  lemma {:induction false} NothingWithoutPort(decode: string -> Kind, s: State, lines: seq<string>)
    ensures var s' := HandleLines(decode, s, lines);
      && ("" in s.rxStreamBuffers <==> "" in s'.rxStreamBuffers) && ("" in s.filterHits <==> "" in s'.filterHits)
      && ("" in s.rxStreamBuffers ==> s'.rxStreamBuffers[""] == s.rxStreamBuffers[""])
      && ("" in s.filterHits ==> s'.filterHits[""] == s.filterHits[""])
  {
    if lines != [] {
      NothingWithoutPort(decode, s, lines[..|lines| - 1]);
    }
  }

  /** A subscribed port's buffers hold exactly the newest 500 of what was there and
      what the lines bring for it, in order; the other ports' lines change nothing. */
  lemma {:induction false} BuffersKeepNewest(decode: string -> Kind, s: State, lines: seq<string>, port: string)
    requires port != ""
    ensures var s' := HandleLines(decode, s, lines);
      && s'.rxStreamBuffers.Keys == s.rxStreamBuffers.Keys && s'.filterHits.Keys == s.filterHits.Keys
      && (port in s.rxStreamBuffers && |s.rxStreamBuffers[port]| <= MAX_RX_STREAM_ENTRIES ==>
            s'.rxStreamBuffers[port] == TakeLast(s.rxStreamBuffers[port] + RxDataFor(decode, lines, port), MAX_RX_STREAM_ENTRIES))
      && (port in s.filterHits && |s.filterHits[port]| <= MAX_RX_STREAM_ENTRIES ==>
            s'.filterHits[port] == TakeLast(s.filterHits[port] + HitsFor(decode, lines, port), MAX_RX_STREAM_ENTRIES))
  {
    if lines != [] {
      var before := lines[..|lines| - 1];
      var last := lines[|lines| - 1];
      BuffersKeepNewest(decode, s, before, port);
      if port in s.rxStreamBuffers {
        FiledNewest(s.rxStreamBuffers[port], RxDataFor(decode, before, port), RxDataIn(decode, last, port));
      }
      if port in s.filterHits {
        FiledNewest(s.filterHits[port], HitsFor(decode, before, port), HitsIn(decode, last, port));
      }
    }
  }

  lemma FiledNewest(start: seq<string>, before: seq<string>, added: seq<string>)
    ensures TakeLast(TakeLast(start + before, MAX_RX_STREAM_ENTRIES) + added, MAX_RX_STREAM_ENTRIES)
      == TakeLast(start + (before + added), MAX_RX_STREAM_ENTRIES)
  {
    TakeLastAppend(start + before, added, MAX_RX_STREAM_ENTRIES);
    assert start + before + added == start + (before + added);
  }
}
