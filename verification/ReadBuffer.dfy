/** The per-client receive buffer behind `read_port`: drained from the broadcast
    channel on demand, at most 200 entries. */
module ReadBuffer {
  import opened Sequences
  import opened Broadcast
  import opened KeywordFilter

  const MAX_BUFFER_ENTRIES: nat := 200

  /** The effect of one drain. It stops at any error, `Lagged` included: a receiver
      that fell behind is moved to the retained window, but nothing is read yet. */
  function Drain(ch: Channel<RxEntry>, cursor: nat, buffer: seq<RxEntry>): (r: (seq<RxEntry>, nat))
    requires cursor <= |ch.sent|
    ensures cursor <= r.1 <= |ch.sent|
  {
    if cursor < Oldest(ch) then (buffer, Oldest(ch))
    else (TakeLast(buffer + ch.sent[cursor..], MAX_BUFFER_ENTRIES), |ch.sent|)
  }

  /** The buffer when the entries from start to below cursor have been pushed onto it. */
  function Window(kept: seq<RxEntry>, sent: seq<RxEntry>, start: nat, cursor: nat): seq<RxEntry>
    requires start <= cursor <= |sent|
  {
    TakeLast(kept + sent[start..cursor], MAX_BUFFER_ENTRIES)
  }

  lemma WindowStart(kept: seq<RxEntry>, sent: seq<RxEntry>, start: nat)
    requires start <= |sent| && |kept| <= MAX_BUFFER_ENTRIES
    ensures Window(kept, sent, start, start) == kept
    ensures Window(kept, sent, start, |sent|) == TakeLast(kept + sent[start..], MAX_BUFFER_ENTRIES)
  {
    assert kept + sent[start..start] == kept && sent[start..|sent|] == sent[start..];
  }

  lemma PopFront(buffer: seq<RxEntry>)
    requires |buffer| <= MAX_BUFFER_ENTRIES + 1
    ensures TakeLast(buffer, MAX_BUFFER_ENTRIES) == if |buffer| > MAX_BUFFER_ENTRIES then buffer[1..] else buffer
  {
  }

  function Push(buffer: seq<RxEntry>, entry: RxEntry): seq<RxEntry> {
    var pushed := buffer + [entry];
    if |pushed| > MAX_BUFFER_ENTRIES then pushed[1..] else pushed
  }

  lemma WindowNext(kept: seq<RxEntry>, sent: seq<RxEntry>, start: nat, cursor: nat)
    requires start <= cursor < |sent|
    ensures Window(kept, sent, start, cursor + 1) == Push(Window(kept, sent, start, cursor), sent[cursor])
  {
    var upTo := kept + sent[start..cursor];
    assert kept + sent[start..cursor + 1] == upTo + [sent[cursor]];
    TakeLastAppend(upTo, [sent[cursor]], MAX_BUFFER_ENTRIES);
    PopFront(TakeLast(upTo, MAX_BUFFER_ENTRIES) + [sent[cursor]]);
  }

  /** The receives from start to cursor have turned `kept` into the buffer. */
  ghost predicate Received(ch: Channel<RxEntry>, start: nat, cursor: nat, kept: seq<RxEntry>, buffer: seq<RxEntry>) {
    && start <= cursor <= |ch.sent| && (start < Oldest(ch) ==> cursor == start)
    && buffer == Window(kept, ch.sent, start, cursor)
  }

  lemma ReceivedNext(ch: Channel<RxEntry>, start: nat, cursor: nat, kept: seq<RxEntry>, buffer: seq<RxEntry>)
    requires |kept| <= MAX_BUFFER_ENTRIES && Received(ch, start, cursor, kept, buffer)
    ensures var (outcome, next) := TryRecv(ch, cursor);
      if outcome.Got? then Received(ch, start, next, kept, Push(buffer, outcome.value)) else (buffer, next) == Drain(ch, start, kept)
  {
    WindowStart(kept, ch.sent, start);
    if cursor < |ch.sent| {
      WindowNext(kept, ch.sent, start, cursor);
    }
  }

  /** The loop: push each received entry and drop the oldest beyond 200. */
  method DrainLoop(ch: Channel<RxEntry>, start: nat, kept: seq<RxEntry>) returns (buffer: seq<RxEntry>, cursor: nat)
    requires start <= |ch.sent| && |kept| <= MAX_BUFFER_ENTRIES
    ensures (buffer, cursor) == Drain(ch, start, kept)
  {
    buffer, cursor := kept, start;
    WindowStart(kept, ch.sent, start);
    while true
      invariant cursor <= |ch.sent| && Received(ch, start, cursor, kept, buffer)
      decreases |ch.sent| - cursor
    {
      ReceivedNext(ch, start, cursor, kept, buffer);
      var r := TryRecv(ch, cursor);
      cursor := r.1;
      match r.0 {
        case Got(entry) =>
          buffer := buffer + [entry];
          if |buffer| > MAX_BUFFER_ENTRIES {
            buffer := buffer[1..];
          }
        case Lagged(_) => return;
        case Empty => return;
        case Closed => return;
      }
    }
  }

  ghost predicate Ascending(s: seq<RxEntry>) {
    forall i, j :: 0 <= i < j < |s| ==> s[i].stamp < s[j].stamp
  }

  /** A drain brings the buffer up to date exactly when the receiver is not behind. */
  lemma DrainCompleteIff(ch: Channel<RxEntry>, cursor: nat, buffer: seq<RxEntry>)
    requires cursor <= |ch.sent| && Ascending(buffer + ch.sent[cursor..])
    ensures Drain(ch, cursor, buffer).0 == TakeLast(buffer + ch.sent[cursor..], MAX_BUFFER_ENTRIES)
      <==> |ch.sent| - cursor <= BROADCAST_CAPACITY
  {
    var all := buffer + ch.sent[cursor..];
    if cursor < Oldest(ch) {
      var recent := TakeLast(all, MAX_BUFFER_ENTRIES);
      assert recent[|recent| - 1] == all[|all| - 1];
      assert 0 < |buffer| ==> all[|buffer| - 1].stamp < all[|all| - 1].stamp;
    }
  }

  /** A drain that was behind leaves the buffer as it was, and the next one, if nothing comes in
      between, brings in everything that is retained. */
  lemma SecondDrainCatchesUp(ch: Channel<RxEntry>, cursor: nat, buffer: seq<RxEntry>)
    requires cursor < Oldest(ch)
    ensures var (first, cursor') := Drain(ch, cursor, buffer);
      && first == buffer && cursor' <= |ch.sent|
      && Drain(ch, cursor', first) == (TakeLast(buffer + ch.sent[Oldest(ch)..], MAX_BUFFER_ENTRIES), |ch.sent|)
  {
  }

  /** One client's use of one port: entries arrive, the port closes, the client reads. */
  datatype Event = Arrive(entry: RxEntry) | Shut | Read(clear: bool)

  /** `mark` is the number of entries sent before the subscription or the last
      clearing read, `taken` what clearing reads have handed out, `answer` the last reply. */
  datatype State = State(ch: Channel<RxEntry>, cursor: nat, buffer: seq<RxEntry>,
                         mark: nat, taken: seq<RxEntry>, answer: seq<RxEntry>)

  function Step(s: State, ev: Event): (s': State)
    requires s.cursor <= |s.ch.sent|
    ensures s'.cursor <= |s'.ch.sent|
  {
    match ev
    case Arrive(e) => if s.ch.closed then s else s.(ch := s.ch.(sent := s.ch.sent + [e]))
    case Shut => s.(ch := s.ch.(closed := true))
    case Read(clear) =>
      var (buffer, cursor) := Drain(s.ch, s.cursor, s.buffer);
      if clear then State(s.ch, cursor, [], |s.ch.sent|, s.taken + buffer, buffer)
      else State(s.ch, cursor, buffer, s.mark, s.taken, buffer)
  }

  function Subscribed(ch: Channel<RxEntry>): State {
    State(ch, |ch.sent|, [], |ch.sent|, [], [])
  }

  function Run(ch: Channel<RxEntry>, evs: seq<Event>): (s: State)
    ensures s.cursor <= |s.ch.sent|
  {
    if evs == [] then Subscribed(ch) else Step(Run(ch, evs[..|evs| - 1]), evs[|evs| - 1])
  }

  ghost predicate KeepsUp(ch: Channel<RxEntry>, evs: seq<Event>) {
    evs == [] ||
    (KeepsUp(ch, evs[..|evs| - 1]) &&
     var s := Run(ch, evs[..|evs| - 1]);
     evs[|evs| - 1].Read? ==> |s.ch.sent| - s.cursor <= BROADCAST_CAPACITY)
  }

  ghost predicate Recent(s: State)
    requires s.cursor <= |s.ch.sent|
  {
    s.mark <= s.cursor && s.buffer == TakeLast(s.ch.sent[s.mark..s.cursor], MAX_BUFFER_ENTRIES)
  }

  lemma DrainRecent(s: State)
    requires s.cursor <= |s.ch.sent| && Recent(s)
    requires |s.ch.sent| - s.cursor <= BROADCAST_CAPACITY
    ensures Drain(s.ch, s.cursor, s.buffer) == (TakeLast(s.ch.sent[s.mark..], MAX_BUFFER_ENTRIES), |s.ch.sent|)
  {
    TakeLastAppend(s.ch.sent[s.mark..s.cursor], s.ch.sent[s.cursor..], MAX_BUFFER_ENTRIES);
    SplitSuffix(s.ch.sent, s.mark, s.cursor);
  }

  lemma SplitSuffix(sent: seq<RxEntry>, mark: nat, cursor: nat)
    requires mark <= cursor <= |sent|
    ensures sent[mark..cursor] + sent[cursor..] == sent[mark..]
  {
  }

  lemma StepRecent(s: State, ev: Event)
    requires s.cursor <= |s.ch.sent| && Recent(s)
    requires ev.Read? ==> |s.ch.sent| - s.cursor <= BROADCAST_CAPACITY
    ensures Recent(Step(s, ev))
  {
    match ev
    case Arrive(e) => assert (s.ch.sent + [e])[s.mark..s.cursor] == s.ch.sent[s.mark..s.cursor];
    case Shut =>
    case Read(clear) =>
      DrainRecent(s);
      assert s.ch.sent[s.mark..] == s.ch.sent[s.mark..|s.ch.sent|];
  }

  lemma {:induction false} RunRecent(ch: Channel<RxEntry>, evs: seq<Event>)
    requires KeepsUp(ch, evs)
    ensures Recent(Run(ch, evs))
  {
    if evs != [] {
      RunRecent(ch, evs[..|evs| - 1]);
      StepRecent(Run(ch, evs[..|evs| - 1]), evs[|evs| - 1]);
    }
  }

  /** While at most 256 entries arrive between drains, every read answers with exactly
      the last min(200, n) of the n entries that arrived since the subscription or the
      last clearing read, in order. */
  lemma ReadIsRecent(ch: Channel<RxEntry>, evs: seq<Event>, clear: bool)
    requires KeepsUp(ch, evs + [Read(clear)])
    ensures var s := Run(ch, evs);
      s.mark <= |s.ch.sent|
      && Run(ch, evs + [Read(clear)]).answer == TakeLast(s.ch.sent[s.mark..], MAX_BUFFER_ENTRIES)
  {
    assert (evs + [Read(clear)])[..|evs|] == evs;
    RunRecent(ch, evs);
    DrainRecent(Run(ch, evs));
  }

  /** More than 256 entries since the subscription, and the first read answers nothing. */
  lemma LateReadIsEmpty(ch: Channel<RxEntry>, evs: seq<Event>, clear: bool)
    requires !ch.closed && |evs| > BROADCAST_CAPACITY && forall k :: 0 <= k < |evs| ==> evs[k].Arrive?
    ensures Run(ch, evs + [Read(clear)]).answer == []
  {
    assert (evs + [Read(clear)])[..|evs|] == evs;
    OnlyArrivals(ch, evs);
  }

  lemma {:induction false} OnlyArrivals(ch: Channel<RxEntry>, evs: seq<Event>)
    requires !ch.closed && forall k :: 0 <= k < |evs| ==> evs[k].Arrive?
    ensures var s := Run(ch, evs); s.cursor == |ch.sent| && s.buffer == [] && !s.ch.closed && |s.ch.sent| == |ch.sent| + |evs|
  {
    if evs != [] {
      OnlyArrivals(ch, evs[..|evs| - 1]);
    }
  }

  /** Arriving entries carry ever larger stamps. */
  ghost predicate Stamped(ch: Channel<RxEntry>, evs: seq<Event>) {
    if evs == [] then Ascending(ch.sent)
    else
      && Stamped(ch, evs[..|evs| - 1])
      && (evs[|evs| - 1].Arrive? ==> Ascending(Run(ch, evs[..|evs| - 1]).ch.sent + [evs[|evs| - 1].entry]))
  }

  lemma DrainAscending(taken: seq<RxEntry>, ch: Channel<RxEntry>, cursor: nat, buffer: seq<RxEntry>)
    requires cursor <= |ch.sent| && Ascending(taken + buffer + ch.sent[cursor..])
    ensures var (buffer', cursor') := Drain(ch, cursor, buffer);
      Ascending(taken + buffer' + ch.sent[cursor'..])
      && forall e :: e in buffer' ==> e in buffer || e in ch.sent
  {
    var all := taken + buffer + ch.sent[cursor..];
    var (buffer', cursor') := Drain(ch, cursor, buffer);
    var all' := taken + buffer' + ch.sent[cursor'..];
    var gap := |all| - |all'|;
    var cut := |taken| + (if cursor < Oldest(ch) then |buffer| else 0);
    forall i | 0 <= i < |all'| ensures all'[i] == all[if i < cut then i else i + gap] {
    }
  }

  ghost predicate InOrder(s: State)
    requires s.cursor <= |s.ch.sent|
  {
    && Ascending(s.ch.sent)
    && Ascending(s.taken + s.buffer + s.ch.sent[s.cursor..])
    && (forall e :: e in s.taken || e in s.buffer ==> e in s.ch.sent)
  }

  lemma ArriveInOrder(all: seq<RxEntry>, sent: seq<RxEntry>, e: RxEntry)
    requires Ascending(all) && Ascending(sent + [e]) && forall x :: x in all ==> x in sent
    ensures Ascending(all + [e])
  {
    forall i | 0 <= i < |all| ensures all[i].stamp < e.stamp {
      assert all[i] in all;
      var k :| 0 <= k < |sent| && sent[k] == all[i];
      assert (sent + [e])[k].stamp < (sent + [e])[|sent|].stamp;
    }
  }

  lemma StepInOrder(s: State, ev: Event)
    requires s.cursor <= |s.ch.sent| && InOrder(s)
    requires ev.Arrive? ==> Ascending(s.ch.sent + [ev.entry])
    ensures InOrder(Step(s, ev))
  {
    var s' := Step(s, ev);
    match ev
    case Arrive(e) =>
      if !s.ch.closed {
        ArriveInOrder(s.taken + s.buffer + s.ch.sent[s.cursor..], s.ch.sent, e);
        assert s'.taken + s'.buffer + s'.ch.sent[s'.cursor..] == s.taken + s.buffer + s.ch.sent[s.cursor..] + [e];
      }
    case Shut =>
    case Read(clear) =>
      DrainAscending(s.taken, s.ch, s.cursor, s.buffer);
      assert s.taken + s'.answer + [] == s.taken + s'.answer;
  }

  /** Even a client that falls behind is never handed an entry twice or out of order:
      the clearing reads, put together, are a strictly ascending part of what was sent. */
  lemma {:induction false} ClearingReadsInOrder(ch: Channel<RxEntry>, evs: seq<Event>)
    requires Stamped(ch, evs)
    ensures InOrder(Run(ch, evs))
    ensures Ascending(Run(ch, evs).taken)
  {
    if evs != [] {
      ClearingReadsInOrder(ch, evs[..|evs| - 1]);
      StepInOrder(Run(ch, evs[..|evs| - 1]), evs[|evs| - 1]);
    }
    TakenAscending(Run(ch, evs));
  }

  lemma TakenAscending(s: State)
    requires s.cursor <= |s.ch.sent| && InOrder(s)
    ensures Ascending(s.taken)
  {
    var all := s.taken + s.buffer + s.ch.sent[s.cursor..];
    assert forall i :: 0 <= i < |s.taken| ==> s.taken[i] == all[i];
  }
}
