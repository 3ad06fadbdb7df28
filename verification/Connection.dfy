/** One connection between the Node client and the daemon: requests go out as lines,
    the daemon answers each non-blank line with one line, and writes notification lines
    in between, every line whole under the writer's lock. */
module Connection {
  import opened Sequences
  import opened Framing
  import opened NodeClient

  /** `toDaemon` and `toClient` are all the text ever written in each direction, `read`
      the number of request lines the daemon has taken, `answered` those it answered with
      the answers, `delivered` how much of toClient the client has received. History:
      `requests` are the request lines and `written` the lines of toClient, in order. */
  datatype Conn = Conn(client: State, requests: seq<string>, toDaemon: string, read: nat,
                       answered: seq<(string, string)>, toClient: string, written: seq<string>,
                       delivered: nat, open: bool)

  datatype Event =
    | Send(request: string)
    | Reply(text: string)
    | Notify(text: string)
    | Deliver(n: nat)
    | Close

  /** What JSON text on one line is: no line feed, and no blank to trim away. */
  predicate JsonLine(s: string) {
    s != "" && '\n' !in s && JsTrim(s) == s
  }

  /** Spaces and carriage returns at the ends do not make a request: blank lines are skipped. */
  predicate Blank(s: string) {
    JsTrim(s) == ""
  }

  predicate IsNotice(k: Kind) {
    k.RxData? || k.FilterHit? || k.OtherNotice?
  }

  function Initial(client: State): Conn {
    Conn(client, [], "", 0, [], "", [], 0, true)
  }

  /** The daemon's request loop: take the next complete line; skip it if it is blank,
      otherwise write one answer line. */
  function ReplyStep(decode: string -> Kind, c: Conn, text: string): Conn {
    var lines := Frame(c.toDaemon).lines;
    if c.read >= |lines| then c
    else if Blank(lines[c.read]) then c.(read := c.read + 1)
    else if JsonLine(text) && decode(text).Response? then
      c.(read := c.read + 1, answered := c.answered + [(lines[c.read], text)],
         toClient := c.toClient + text + "\n", written := c.written + [text])
    else c
  }

  function Step(decode: string -> Kind, c: Conn, ev: Event): Conn {
    if !c.open then c
    else
      match ev
      case Send(request) =>
        if JsonLine(request)
        then c.(client := SendOf(c.client), requests := c.requests + [request], toDaemon := c.toDaemon + request + "\n")
        else c
      case Reply(text) => ReplyStep(decode, c, text)
      case Notify(text) =>
        if JsonLine(text) && IsNotice(decode(text))
        then c.(toClient := c.toClient + text + "\n", written := c.written + [text])
        else c
      case Deliver(n) =>
        if c.delivered + n <= |c.toClient|
        then c.(client := OnDataOf(decode, c.client, c.toClient[c.delivered..c.delivered + n]), delivered := c.delivered + n)
        else c
      case Close => c.(client := OnCloseOf(c.client), open := false)
  }

  function Run(decode: string -> Kind, start: State, evs: seq<Event>): Conn {
    if evs == [] then Initial(start)
    else Step(decode, Run(decode, start, evs[..|evs| - 1]), evs[|evs| - 1])
  }

  // ---- what the client makes of a list of lines ----

  /** The response lines among the given ones, in order. */
  function Responses(decode: string -> Kind, lines: seq<string>): seq<string> {
    if lines == [] then []
    else
      var before := Responses(decode, lines[..|lines| - 1]);
      var line := JsTrim(lines[|lines| - 1]);
      if line != "" && decode(line).Response? then before + [line] else before
  }

  function Range(lo: nat, hi: nat): (r: seq<nat>)
    requires lo <= hi
    ensures |r| == hi - lo && forall i :: 0 <= i < |r| ==> r[i] == lo + i
  {
    seq(hi - lo, i requires 0 <= i < hi - lo => lo + i)
  }

  function Paired(answers: seq<string>): (r: seq<Resolution>)
    ensures |r| == |answers| && forall i :: 0 <= i < |r| ==> r[i] == Resolution(i, Answer(answers[i]))
  {
    seq(|answers|, i requires 0 <= i < |answers| => Resolution(i, Answer(answers[i])))
  }

  /** The first answers went to the first requests, and the others are waiting in order. */
  ghost predicate InStep(s: State, answers: seq<string>) {
    |answers| <= s.sent && s.resolutions == Paired(answers) && s.pending == Range(|answers|, s.sent)
  }

  lemma HandleLineInStep(decode: string -> Kind, s: State, answers: seq<string>, raw: string)
    requires InStep(s, answers)
    requires var line := JsTrim(raw); line != "" && decode(line).Response? ==> |answers| < s.sent
    ensures var line := JsTrim(raw); var s' := HandleLine(decode, s, raw);
      s'.sent == s.sent && InStep(s', if line != "" && decode(line).Response? then answers + [line] else answers)
  {
    var line := JsTrim(raw);
    if line != "" && decode(line).Response? {
      assert s.pending[0] == |answers|;
      assert Paired(answers + [line]) == Paired(answers) + [Resolution(|answers|, Answer(line))];
    }
  }

  lemma {:induction false} HandleLinesInStep(decode: string -> Kind, s: State, answers: seq<string>, lines: seq<string>)
    requires InStep(s, answers) && |answers| + |Responses(decode, lines)| <= s.sent
    ensures var s' := HandleLines(decode, s, lines);
      s'.sent == s.sent && InStep(s', answers + Responses(decode, lines))
  {
    if lines == [] {
      assert answers + [] == answers;
    } else {
      var before := lines[..|lines| - 1];
      var line := JsTrim(lines[|lines| - 1]);
      HandleLinesInStep(decode, s, answers, before);
      HandleLineInStep(decode, HandleLines(decode, s, before), answers + Responses(decode, before), lines[|lines| - 1]);
      assert answers + (Responses(decode, before) + [line]) == answers + Responses(decode, before) + [line];
    }
  }

  lemma {:induction false} ResponsesAppend(decode: string -> Kind, a: seq<string>, b: seq<string>)
    ensures Responses(decode, a + b) == Responses(decode, a) + Responses(decode, b)
  {
    if b == [] {
      assert a + b == a;
    } else {
      ResponsesAppend(decode, a, b[..|b| - 1]);
      assert (a + b)[..|a + b| - 1] == a + b[..|b| - 1];
    }
  }

  // ---- the invariant of an open connection ----

  function Texts(answered: seq<(string, string)>): (r: seq<string>)
    ensures |r| == |answered| && forall i :: 0 <= i < |r| ==> r[i] == answered[i].1
  {
    seq(|answered|, i requires 0 <= i < |answered| => answered[i].1)
  }

  /** The lines the client has cut so far. */
  function Cut(c: Conn): seq<string>
    requires c.delivered <= |c.toClient|
  {
    Frame(c.toClient[..c.delivered]).lines
  }

  ghost predicate DaemonSide(decode: string -> Kind, c: Conn) {
    && (forall r :: r in c.requests ==> JsonLine(r))
    && c.toDaemon == Joined(c.requests)
    && c.read == |c.answered| <= |c.requests|
    && (forall i :: 0 <= i < |c.answered| ==> c.answered[i].0 == c.requests[i])
  }

  ghost predicate WireSide(decode: string -> Kind, c: Conn) {
    && (forall l :: l in c.written ==> JsonLine(l))
    && c.toClient == Joined(c.written)
    && Responses(decode, c.written) == Texts(c.answered)
  }

  ghost predicate ClientSide(decode: string -> Kind, c: Conn) {
    && c.delivered <= |c.toClient|
    && c.client.sent == |c.requests|
    && c.client.buffer == Frame(c.toClient[..c.delivered]).rest
    && InStep(c.client, Responses(decode, Cut(c)))
  }

  ghost predicate Sound(decode: string -> Kind, c: Conn) {
    DaemonSide(decode, c) && WireSide(decode, c) && ClientSide(decode, c)
  }

  lemma {:induction false} JoinedNext(lines: seq<string>, line: string)
    ensures Joined(lines + [line]) == Joined(lines) + line + "\n"
  {
    assert (lines + [line])[..|lines|] == lines;
  }

  lemma RequestsFramed(decode: string -> Kind, c: Conn)
    requires DaemonSide(decode, c)
    ensures Frame(c.toDaemon).lines == c.requests
  {
    FrameWhole(c.requests);
  }

  /** What the client has cut is the beginning of what was written. */
  lemma CutIsPrefix(decode: string -> Kind, c: Conn, n: nat)
    requires WireSide(decode, c) && n <= |c.toClient|
    ensures IsPrefix(Frame(c.toClient[..n]).lines, c.written)
    ensures |Responses(decode, Frame(c.toClient[..n]).lines)| <= |c.answered|
    ensures Responses(decode, Frame(c.toClient[..n]).lines) == Texts(c.answered)[..|Responses(decode, Frame(c.toClient[..n]).lines)|]
  {
    var lines := Frame(c.toClient[..n]).lines;
    FrameWhole(c.written);
    assert c.toClient == c.toClient[..n] + c.toClient[n..];
    FramePrefix(c.toClient[..n], c.toClient[n..]);
    assert c.written == lines + c.written[|lines|..];
    ResponsesAppend(decode, lines, c.written[|lines|..]);
  }

  lemma WriteKeepsClient(decode: string -> Kind, c: Conn, line: string)
    requires ClientSide(decode, c)
    ensures ClientSide(decode, c.(toClient := c.toClient + line + "\n", written := c.written + [line]))
  {
    assert (c.toClient + line + "\n")[..c.delivered] == c.toClient[..c.delivered];
  }

  lemma WriteKeepsWire(decode: string -> Kind, c: Conn, line: string, answered: seq<(string, string)>)
    requires WireSide(decode, c) && JsonLine(line)
    requires if decode(line).Response? then |answered| == |c.answered| + 1 && answered[..|c.answered|] == c.answered && answered[|c.answered|].1 == line
             else answered == c.answered
    ensures WireSide(decode, c.(toClient := c.toClient + line + "\n", written := c.written + [line], answered := answered))
  {
    JoinedNext(c.written, line);
    assert (c.written + [line])[..|c.written|] == c.written;
    if decode(line).Response? {
      forall i | 0 <= i < |answered| ensures Texts(answered)[i] == (Texts(c.answered) + [line])[i] {
        if i < |c.answered| { assert answered[i] == answered[..|c.answered|][i]; }
      }
      assert Texts(answered) == Texts(c.answered) + [line];
    }
  }

  lemma SendInStep(s: State, answers: seq<string>)
    requires InStep(s, answers)
    ensures InStep(SendOf(s), answers)
  {
    assert Range(|answers|, s.sent + 1) == Range(|answers|, s.sent) + [s.sent];
  }

  lemma SendSound(decode: string -> Kind, c: Conn, request: string)
    requires Sound(decode, c) && c.open
    ensures Sound(decode, Step(decode, c, Send(request)))
  {
    if JsonLine(request) {
      JoinedNext(c.requests, request);
      SendInStep(c.client, Responses(decode, Cut(c)));
      var c' := Step(decode, c, Send(request));
      assert DaemonSide(decode, c');
      assert WireSide(decode, c');
      assert ClientSide(decode, c');
    }
  }

  lemma AnswerKeepsDaemon(decode: string -> Kind, c: Conn, c': Conn, text: string)
    requires DaemonSide(decode, c) && c.read < |c.requests|
    requires c'.requests == c.requests && c'.toDaemon == c.toDaemon && c'.read == c.read + 1
    requires c'.answered == c.answered + [(c.requests[c.read], text)]
    ensures DaemonSide(decode, c')
  {
  }

  lemma SameClientSide(decode: string -> Kind, c: Conn, c': Conn)
    requires ClientSide(decode, c) && c'.client == c.client && c'.requests == c.requests
    requires c'.delivered == c.delivered && c'.toClient == c.toClient
    ensures ClientSide(decode, c')
  {
  }

  lemma AnswerSound(decode: string -> Kind, c: Conn, text: string)
    requires Sound(decode, c) && c.read < |c.requests| && JsonLine(text) && decode(text).Response?
    ensures Sound(decode, c.(read := c.read + 1, answered := c.answered + [(c.requests[c.read], text)],
                             toClient := c.toClient + text + "\n", written := c.written + [text]))
  {
    var answered := c.answered + [(c.requests[c.read], text)];
    var wrote := c.(toClient := c.toClient + text + "\n", written := c.written + [text]);
    var c' := wrote.(read := c.read + 1, answered := answered);
    AnswerKeepsDaemon(decode, c, c', text);
    WriteKeepsClient(decode, c, text);
    SameClientSide(decode, wrote, c');
    WriteKeepsWire(decode, c, text, answered);
  }

  lemma ReplySound(decode: string -> Kind, c: Conn, text: string)
    requires Sound(decode, c) && c.open
    ensures Sound(decode, Step(decode, c, Reply(text)))
  {
    RequestsFramed(decode, c);
    if c.read < |c.requests| {
      assert JsonLine(c.requests[c.read]);
      if JsonLine(text) && decode(text).Response? {
        AnswerSound(decode, c, text);
      }
    }
  }

  lemma NotifySound(decode: string -> Kind, c: Conn, text: string)
    requires Sound(decode, c) && c.open
    ensures Sound(decode, Step(decode, c, Notify(text)))
  {
    if JsonLine(text) && IsNotice(decode(text)) {
      WriteKeepsClient(decode, c, text);
      WriteKeepsWire(decode, c, text, c.answered);
    }
  }

  lemma DeliveredLines(decode: string -> Kind, before: string, chunk: string)
    ensures var more := Frame(Frame(before).rest + chunk);
      && Frame(before + chunk).rest == more.rest
      && Responses(decode, Frame(before + chunk).lines) == Responses(decode, Frame(before).lines) + Responses(decode, more.lines)
  {
    FrameAppend(before, chunk);
    ResponsesAppend(decode, Frame(before).lines, Frame(Frame(before).rest + chunk).lines);
  }

  /** The client after one more chunk of the text. */
  lemma ChunkInStep(decode: string -> Kind, s: State, before: string, chunk: string)
    requires s.buffer == Frame(before).rest && InStep(s, Responses(decode, Frame(before).lines))
    requires |Responses(decode, Frame(before + chunk).lines)| <= s.sent
    ensures var s' := OnDataOf(decode, s, chunk);
      && s'.sent == s.sent && s'.buffer == Frame(before + chunk).rest
      && InStep(s', Responses(decode, Frame(before + chunk).lines))
  {
    DeliveredLines(decode, before, chunk);
    var more := Frame(s.buffer + chunk);
    HandleLinesInStep(decode, s, Responses(decode, Frame(before).lines), more.lines);
  }

  lemma DeliverKeepsClient(decode: string -> Kind, c: Conn, n: nat)
    requires WireSide(decode, c) && ClientSide(decode, c) && DaemonSide(decode, c)
    requires c.delivered + n <= |c.toClient|
    ensures ClientSide(decode, c.(client := OnDataOf(decode, c.client, c.toClient[c.delivered..c.delivered + n]),
                                  delivered := c.delivered + n))
  {
    var chunk := c.toClient[c.delivered..c.delivered + n];
    var before := c.toClient[..c.delivered];
    assert c.toClient[..c.delivered + n] == before + chunk;
    CutIsPrefix(decode, c, c.delivered + n);
    ChunkInStep(decode, c.client, before, chunk);
  }

  lemma OtherSidesKept(decode: string -> Kind, c: Conn, client: State, delivered: nat)
    requires DaemonSide(decode, c) && WireSide(decode, c)
    ensures DaemonSide(decode, c.(client := client, delivered := delivered))
    ensures WireSide(decode, c.(client := client, delivered := delivered))
  {
  }

  lemma DeliverSound(decode: string -> Kind, c: Conn, n: nat)
    requires Sound(decode, c) && c.open
    ensures Sound(decode, Step(decode, c, Deliver(n)))
  {
    if c.delivered + n <= |c.toClient| {
      var client := OnDataOf(decode, c.client, c.toClient[c.delivered..c.delivered + n]);
      var c' := c.(client := client, delivered := c.delivered + n);
      assert Step(decode, c, Deliver(n)) == c';
      DeliverKeepsClient(decode, c, n);
      OtherSidesKept(decode, c, client, c.delivered + n);
      SidesTogether(decode, c');
    }
  }

  lemma SidesTogether(decode: string -> Kind, c: Conn)
    requires DaemonSide(decode, c) && WireSide(decode, c) && ClientSide(decode, c)
    ensures Sound(decode, c)
  {
  }

  lemma StepSound(decode: string -> Kind, c: Conn, ev: Event)
    requires c.open && Sound(decode, c) && !ev.Close?
    ensures Sound(decode, Step(decode, c, ev))
  {
    match ev
    case Send(request) => SendSound(decode, c, request);
    case Reply(text) => ReplySound(decode, c, text);
    case Notify(text) => NotifySound(decode, c, text);
    case Deliver(n) => DeliverSound(decode, c, n);
  }

  /** What is promised of a closed connection: every request was resolved exactly once, in
      order, by the daemon's answer to that request or by the disconnect error. */
  ghost predicate Settled(c: Conn) {
    && |c.client.resolutions| == |c.requests| == c.client.sent && c.client.pending == []
    && forall i :: 0 <= i < |c.requests| ==>
      && c.client.resolutions[i].id == i
      && (c.client.resolutions[i].outcome.Answer? ==>
            i < |c.answered| && c.answered[i] == (c.requests[i], c.client.resolutions[i].outcome.line))
  }

  lemma CloseSettles(decode: string -> Kind, c: Conn)
    requires c.open && Sound(decode, c)
    ensures Settled(Step(decode, c, Close))
  {
    CutIsPrefix(decode, c, c.delivered);
  }

  /** A fresh client, with whatever notification buffers it has. */
  ghost predicate Unused(s: State) {
    s.buffer == "" && s.sent == 0 && s.pending == [] && s.resolutions == []
  }

  ghost predicate Kept(decode: string -> Kind, c: Conn) {
    if c.open then Sound(decode, c) else Settled(c)
  }

  lemma StepKept(decode: string -> Kind, c: Conn, ev: Event)
    requires Kept(decode, c)
    ensures Kept(decode, Step(decode, c, ev))
  {
    if c.open {
      if ev.Close? { CloseSettles(decode, c); } else { StepSound(decode, c, ev); }
    }
  }

  lemma {:induction false} RunSound(decode: string -> Kind, start: State, evs: seq<Event>)
    requires Unused(start)
    ensures Kept(decode, Run(decode, start, evs))
  {
    if evs != [] {
      RunSound(decode, start, evs[..|evs| - 1]);
      StepKept(decode, Run(decode, start, evs[..|evs| - 1]), evs[|evs| - 1]);
    }
  }

  /** Main theorem. For any interleaving of requests, answers, notification lines and
      deliveries cut anywhere: the i-th send that has been resolved was resolved with the
      daemon's answer to the i-th request, requests sent equal requests resolved plus
      those pending, and none is resolved twice. */
  lemma AnswersMatchRequests(decode: string -> Kind, start: State, evs: seq<Event>)
    requires Unused(start) && Run(decode, start, evs).open
    ensures var c := Run(decode, start, evs);
      && |c.requests| == |c.client.resolutions| + |c.client.pending|
      && |c.client.resolutions| <= |c.answered|
      && (forall i :: 0 <= i < |c.client.resolutions| ==>
            c.client.resolutions[i] == Resolution(i, Answer(c.answered[i].1)) && c.answered[i].0 == c.requests[i])
      && c.client.pending == Range(|c.client.resolutions|, |c.requests|)
  {
    RunSound(decode, start, evs);
    var c := Run(decode, start, evs);
    CutIsPrefix(decode, c, c.delivered);
  }

  /** And after the close every request has been resolved exactly once. */
  lemma CloseResolvesAll(decode: string -> Kind, start: State, evs: seq<Event>)
    requires Unused(start) && !Run(decode, start, evs).open
    ensures Settled(Run(decode, start, evs))
  {
    RunSound(decode, start, evs);
  }
}
