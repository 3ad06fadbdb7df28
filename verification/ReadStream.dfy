/** The read_port answers of one session for one port, in the whole daemon: among all the
    other clients it is served as if it were alone with the port's channel. */
module ReadStream {
  import opened Sequences
  import opened Broadcast
  import opened KeywordFilter
  import opened Session
  import opened Streaming
  import Separation
  import RxStream
  import ReadBuffer

  /** The answers to read_port for a port, in order. */
  function AnswersFor(replies: seq<(Port, Reply)>, p: Port): seq<seq<RxEntry>> {
    if replies == [] then []
    else
      var last := replies[|replies| - 1];
      AnswersFor(replies[..|replies| - 1], p) + (if last.0 == p && last.1.Entries? then [last.1.entries] else [])
  }

  /** The answers of a session alone with the channel. */
  function AnswersAlone(ch: Channel<RxEntry>, evs: seq<ReadBuffer.Event>): seq<seq<RxEntry>> {
    if evs == [] then []
    else
      AnswersAlone(ch, evs[..|evs| - 1]) + (if evs[|evs| - 1].Read? then [ReadBuffer.Run(ch, evs).answer] else [])
  }

  /** What an event of the daemon is to the session's reading of the port. */
  function Seen(s: System, ev: Event, i: nat, p: Port, chan: nat): seq<ReadBuffer.Event> {
    match ev
    case Arrived(ch, timestamp, data) => if ch == chan then [ReadBuffer.Arrive(RxEntry(s.daemon.clock, timestamp, data))] else []
    case Ended(ch) => if ch == chan && (forall q :: q in s.daemon.open ==> s.daemon.open[q] != chan) then [ReadBuffer.Shut] else []
    case Local(client, action) =>
      if client == i && i in s.clients && Idle(s.clients[i]) && action.Handle? && action.request.Read? && action.request.port == p
      then [ReadBuffer.Read(action.request.clear)]
      else []
    case Opened(_) => []
    case Removed(_) => []
  }

  function SeenRun(clients: set<nat>, before: seq<Event>, after: seq<Event>, i: nat, p: Port, chan: nat): seq<ReadBuffer.Event> {
    if after == [] then []
    else
      SeenRun(clients, before, after[..|after| - 1], i, p, chan)
      + Seen(Run(clients, before + after[..|after| - 1]), after[|after| - 1], i, p, chan)
  }

  /** The step does not make the session forget the port. */
  predicate Keeps(c: Client, a: Action, p: Port) {
    !(a.FinishClose? && c.closing == Some(p) && c.outbox == [])
  }

  ghost predicate KeepsRun(clients: set<nat>, before: seq<Event>, after: seq<Event>, i: nat, p: Port) {
    after == [] ||
    (var last := after[|after| - 1];
     var s := Run(clients, before + after[..|after| - 1]);
     KeepsRun(clients, before, after[..|after| - 1], i, p)
     && (last.Local? && last.client == i && i in s.clients ==> Keeps(s.clients[i], last.action, p)))
  }

  /** The session stands for the port where a session alone would, after the same events. */
  ghost predicate Reads(c: Client, d: Daemon, p: Port, chan: nat, base: nat, ch: Channel<RxEntry>, evs: seq<ReadBuffer.Event>) {
    var r := ReadBuffer.Run(ch, evs);
    && chan < |d.chans| && r.ch == d.chans[chan]
    && p in c.session.receivers && c.session.receivers[p] == Receiver(chan, r.cursor)
    && p in c.session.buffers && c.session.buffers[p] == r.buffer
    && base <= |c.replies| && AnswersFor(c.replies[base..], p) == AnswersAlone(ch, evs)
    && ReadBuffer.Stamped(ch, evs)
  }

  // ---- one step ----

  lemma AnswersForNext(replies: seq<(Port, Reply)>, base: nat, reply: (Port, Reply), p: Port)
    requires base <= |replies|
    ensures AnswersFor((replies + [reply])[base..], p)
      == AnswersFor(replies[base..], p) + (if reply.0 == p && reply.1.Entries? then [reply.1.entries] else [])
  {
    assert (replies + [reply])[base..] == replies[base..] + [reply];
    assert (replies[base..] + [reply])[..|replies[base..]|] == replies[base..];
  }

  lemma AloneNext(ch: Channel<RxEntry>, evs: seq<ReadBuffer.Event>, ev: ReadBuffer.Event)
    ensures ReadBuffer.Run(ch, evs + [ev]) == ReadBuffer.Step(ReadBuffer.Run(ch, evs), ev)
    ensures AnswersAlone(ch, evs + [ev])
      == AnswersAlone(ch, evs) + (if ev.Read? then [ReadBuffer.Step(ReadBuffer.Run(ch, evs), ev).answer] else [])
  {
    assert (evs + [ev])[..|evs|] == evs;
  }

  lemma StampedNext(ch: Channel<RxEntry>, evs: seq<ReadBuffer.Event>, ev: ReadBuffer.Event)
    requires ReadBuffer.Stamped(ch, evs)
    requires ev.Arrive? ==> ReadBuffer.Ascending(ReadBuffer.Run(ch, evs).ch.sent + [ev.entry])
    ensures ReadBuffer.Stamped(ch, evs + [ev])
  {
    assert (evs + [ev])[..|evs|] == evs;
  }

  lemma SharedReads(c: Client, s: System, ev: Event, i: nat, p: Port, chan: nat, base: nat, ch: Channel<RxEntry>, evs: seq<ReadBuffer.Event>)
    requires DaemonOk(s.daemon) && !ev.Local? && Reads(c, s.daemon, p, chan, base, ch, evs)
    ensures Reads(c, SharedStep(s.daemon, ev), p, chan, base, ch, evs + Seen(s, ev, i, p, chan))
  {
    var now := Seen(s, ev, i, p, chan);
    if now == [] {
      assert evs + now == evs;
    } else {
      assert ChannelOk(s.daemon.chans[chan], s.daemon.clock);
      AloneNext(ch, evs, now[0]);
      StampedNext(ch, evs, now[0]);
      assert now == [now[0]];
    }
  }

  lemma ReadReads(c: Client, d: Daemon, clear: bool, p: Port, chan: nat, base: nat, ch: Channel<RxEntry>, evs: seq<ReadBuffer.Event>)
    requires DaemonOk(d) && SessionOk(c.session, d) && Reads(c, d, p, chan, base, ch, evs)
    ensures Reads(HandlerStep(c, Request.Read(p, clear), d), d, p, chan, base, ch, evs + [ReadBuffer.Read(clear)])
  {
    var (session, reply) := ReadPort(c.session, p, clear, d);
    AloneNext(ch, evs, ReadBuffer.Read(clear));
    StampedNext(ch, evs, ReadBuffer.Read(clear));
    AnswersForNext(c.replies, base, (p, reply), p);
  }

  /** Steps that leave the session's part for the port alone and answer no read of it. */
  lemma AsideReads(c: Client, c': Client, d: Daemon, p: Port, chan: nat, base: nat, ch: Channel<RxEntry>, evs: seq<ReadBuffer.Event>)
    requires Reads(c, d, p, chan, base, ch, evs)
    requires p in c'.session.receivers && c'.session.receivers[p] == c.session.receivers[p]
    requires p in c'.session.buffers && c'.session.buffers[p] == c.session.buffers[p]
    requires c'.replies == c.replies
      || (|c'.replies| == |c.replies| + 1 && c'.replies[..|c.replies|] == c.replies
          && (c'.replies[|c.replies|].0 != p || !c'.replies[|c.replies|].1.Entries?))
    ensures Reads(c', d, p, chan, base, ch, evs)
  {
    if c'.replies != c.replies {
      AnswersForNext(c.replies, base, c'.replies[|c.replies|], p);
      assert c'.replies == c.replies + [c'.replies[|c.replies|]];
    }
  }

  lemma HandlerReads(c: Client, r: Request, d: Daemon, p: Port, chan: nat, base: nat, ch: Channel<RxEntry>, evs: seq<ReadBuffer.Event>)
    requires DaemonOk(d) && SessionOk(c.session, d) && Reads(c, d, p, chan, base, ch, evs)
    ensures Reads(HandlerStep(c, r, d), d, p, chan, base, ch,
                  evs + (if r.Read? && r.port == p then [ReadBuffer.Read(r.clear)] else []))
  {
    assert evs + [] == evs;
    match r
    case Ensure(_) => AsideReads(c, HandlerStep(c, r, d), d, p, chan, base, ch, evs);
    case Read(q, clear) =>
      if q == p { ReadReads(c, d, clear, p, chan, base, ch, evs); } else { AsideReads(c, HandlerStep(c, r, d), d, p, chan, base, ch, evs); }
    case Close(_) => AsideReads(c, HandlerStep(c, r, d), d, p, chan, base, ch, evs);
    case Command(what) =>
      Separation.EffectKeepsReading(c.session, what, d);
      CommandNoEntries(c.session, what, d);
      AsideReads(c, HandlerStep(c, r, d), d, p, chan, base, ch, evs);
  }

  lemma CommandNoEntries(s: Session, what: Dispatch, d: Daemon)
    requires DaemonOk(d)
    ensures !EffectOf(s, what, d).reply.Entries?
  {
  }

  lemma LocalReads(c: Client, a: Action, s: System, i: nat, p: Port, chan: nat, base: nat, ch: Channel<RxEntry>, evs: seq<ReadBuffer.Event>)
    requires SystemOk(s) && i in s.clients && s.clients[i] == c && Keeps(c, a, p)
    requires Reads(c, s.daemon, p, chan, base, ch, evs)
    ensures Reads(LocalStep(c, a, s.daemon), s.daemon, p, chan, base, ch, evs + Seen(s, Local(i, a), i, p, chan))
  {
    assert evs + [] == evs;
    if a.Handle? {
      if Idle(c) { HandlerReads(c, a.request, s.daemon, p, chan, base, ch, evs); }
    } else {
      OtherActionReads(c, a, s.daemon, p);
      AsideReads(c, LocalStep(c, a, s.daemon), s.daemon, p, chan, base, ch, evs);
    }
  }

  lemma OtherActionReads(c: Client, a: Action, d: Daemon, p: Port)
    requires DaemonOk(d) && ClientOk(c, d) && !a.Handle? && Keeps(c, a, p)
    ensures var c' := LocalStep(c, a, d);
      && c'.replies == c.replies
      && (p in c.session.receivers ==> p in c'.session.receivers && c'.session.receivers[p] == c.session.receivers[p])
      && (p in c.session.buffers ==> p in c'.session.buffers && c'.session.buffers[p] == c.session.buffers[p])
  {
    match a {
      case FinishClose =>
      case SendNext =>
      case ApplyNext =>
      case PollRx(q) => if q in c.task.rxReceivers { assert PollRxStep(c, q, d).session == c.session; }
      case PollFilter(q) => if q in c.task.filters { assert PollFilterStep(c, q, d).session == c.session; }
    }
  }

  ghost predicate ReadsIn(s: System, i: nat, p: Port, chan: nat, base: nat, ch: Channel<RxEntry>, evs: seq<ReadBuffer.Event>) {
    i in s.clients && Reads(s.clients[i], s.daemon, p, chan, base, ch, evs)
  }

  lemma StepReads(s: System, ev: Event, i: nat, p: Port, chan: nat, base: nat, ch: Channel<RxEntry>, evs: seq<ReadBuffer.Event>)
    requires SystemOk(s) && ReadsIn(s, i, p, chan, base, ch, evs)
    requires ev.Local? && ev.client == i ==> Keeps(s.clients[i], ev.action, p)
    ensures ReadsIn(Step(s, ev), i, p, chan, base, ch, evs + Seen(s, ev, i, p, chan))
  {
    assert evs + [] == evs;
    if !ev.Local? {
      SharedReads(s.clients[i], s, ev, i, p, chan, base, ch, evs);
    } else if ev.client == i {
      LocalReads(s.clients[i], ev.action, s, i, p, chan, base, ch, evs);
    }
  }

  // ---- a whole run ----

  /** The session has just subscribed to the port and read nothing. */
  ghost predicate JustSubscribed(s: System, i: nat, p: Port, chan: nat) {
    && i in s.clients && chan < |s.daemon.chans|
    && p in s.clients[i].session.receivers && p in s.clients[i].session.buffers
    && s.clients[i].session.receivers[p] == Receiver(chan, |s.daemon.chans[chan].sent|) && s.clients[i].session.buffers[p] == []
  }

  lemma StartReads(s: System, i: nat, p: Port, chan: nat)
    requires SystemOk(s) && JustSubscribed(s, i, p, chan)
    ensures ReadsIn(s, i, p, chan, |s.clients[i].replies|, s.daemon.chans[chan], [])
  {
    assert ChannelOk(s.daemon.chans[chan], s.daemon.clock);
    assert s.clients[i].replies[|s.clients[i].replies|..] == [];
  }

  /** While the session keeps the port, it reads as if it were alone with the channel. */
  lemma {:induction false} RunReads(clients: set<nat>, before: seq<Event>, after: seq<Event>, i: nat, p: Port, chan: nat)
    requires i in clients && JustSubscribed(Run(clients, before), i, p, chan) && KeepsRun(clients, before, after, i, p)
    ensures var s := Run(clients, before);
      ReadsIn(Run(clients, before + after), i, p, chan, |s.clients[i].replies|, s.daemon.chans[chan],
              SeenRun(clients, before, after, i, p, chan))
  {
    if after == [] {
      assert before + after == before;
      StartReads(Run(clients, before), i, p, chan);
    } else {
      RunReads(clients, before, after[..|after| - 1], i, p, chan);
      RxStream.LastStep(clients, before, after);
      KeepsLast(clients, before, after, i, p);
      StepReads(Run(clients, before + after[..|after| - 1]), after[|after| - 1], i, p, chan,
                |Run(clients, before).clients[i].replies|, Run(clients, before).daemon.chans[chan],
                SeenRun(clients, before, after[..|after| - 1], i, p, chan));
    }
  }

  lemma KeepsLast(clients: set<nat>, before: seq<Event>, after: seq<Event>, i: nat, p: Port)
    requires i in clients && after != [] && KeepsRun(clients, before, after, i, p)
    ensures var s := Run(clients, before + after[..|after| - 1]); var last := after[|after| - 1];
      last.Local? && last.client == i && i in s.clients ==> Keeps(s.clients[i], last.action, p)
  {
  }

  /** Main theorem, in any run of the whole daemon: a session that subscribed to a port and
      never lets more than 256 entries pass between its reads is answered exactly the last
      min(200, n) of the n entries that came in since it subscribed or last read clearing. */
  lemma SessionReadIsRecent(clients: set<nat>, before: seq<Event>, after: seq<Event>, i: nat, p: Port, chan: nat, clear: bool)
    requires i in clients && JustSubscribed(Run(clients, before), i, p, chan) && KeepsRun(clients, before, after, i, p)
    requires var ch := Run(clients, before).daemon.chans[chan];
      ReadBuffer.KeepsUp(ch, SeenRun(clients, before, after, i, p, chan) + [ReadBuffer.Read(clear)])
    ensures var s := Run(clients, before + after);
      var mark := ReadBuffer.Run(Run(clients, before).daemon.chans[chan], SeenRun(clients, before, after, i, p, chan)).mark;
      && i in s.clients && chan < |s.daemon.chans| && mark <= |s.daemon.chans[chan].sent|
      && ReadPort(s.clients[i].session, p, clear, s.daemon).1
        == Entries(TakeLast(s.daemon.chans[chan].sent[mark..], ReadBuffer.MAX_BUFFER_ENTRIES))
  {
    var ch := Run(clients, before).daemon.chans[chan];
    var evs := SeenRun(clients, before, after, i, p, chan);
    RunReads(clients, before, after, i, p, chan);
    ReadBuffer.ReadIsRecent(ch, evs, clear);
    var s := Run(clients, before + after);
    NextAnswer(s.clients[i], s.daemon, clear, p, chan, |Run(clients, before).clients[i].replies|, ch, evs);
  }

  /** What a read would be answered now. */
  lemma NextAnswer(c: Client, d: Daemon, clear: bool, p: Port, chan: nat, base: nat, ch: Channel<RxEntry>, evs: seq<ReadBuffer.Event>)
    requires SessionOk(c.session, d) && Reads(c, d, p, chan, base, ch, evs)
    ensures ReadPort(c.session, p, clear, d).1 == Entries(ReadBuffer.Run(ch, evs + [ReadBuffer.Read(clear)]).answer)
  {
    AloneNext(ch, evs, ReadBuffer.Read(clear));
  }

  /** Of the reads among the events, which clear, in order. */
  function Clears(evs: seq<ReadBuffer.Event>): seq<bool> {
    if evs == [] then []
    else Clears(evs[..|evs| - 1]) + (if evs[|evs| - 1].Read? then [evs[|evs| - 1].clear] else [])
  }

  /** The answers to clearing reads, put together. */
  function Handed(answers: seq<seq<RxEntry>>, clears: seq<bool>): seq<RxEntry>
    requires |answers| == |clears|
  {
    if answers == [] then []
    else Handed(answers[..|answers| - 1], clears[..|clears| - 1]) + (if clears[|clears| - 1] then answers[|answers| - 1] else [])
  }

  lemma HandedNext(answers: seq<seq<RxEntry>>, clears: seq<bool>, answer: seq<RxEntry>, clear: bool)
    requires |answers| == |clears|
    ensures Handed(answers + [answer], clears + [clear]) == Handed(answers, clears) + (if clear then answer else [])
  {
    assert (answers + [answer])[..|answers|] == answers && (clears + [clear])[..|clears|] == clears;
  }

  lemma TakenNext(s: ReadBuffer.State, clear: bool)
    requires s.cursor <= |s.ch.sent|
    ensures var s' := ReadBuffer.Step(s, ReadBuffer.Read(clear)); s'.taken == s.taken + (if clear then s'.answer else [])
  {
    assert s.taken + [] == s.taken;
  }

  lemma {:induction false} HandedIsTaken(ch: Channel<RxEntry>, evs: seq<ReadBuffer.Event>)
    ensures |AnswersAlone(ch, evs)| == |Clears(evs)|
    ensures Handed(AnswersAlone(ch, evs), Clears(evs)) == ReadBuffer.Run(ch, evs).taken
  {
    if evs != [] {
      var init := evs[..|evs| - 1];
      var last := evs[|evs| - 1];
      HandedIsTaken(ch, init);
      if last.Read? {
        HandedNext(AnswersAlone(ch, init), Clears(init), ReadBuffer.Run(ch, evs).answer, last.clear);
        assert AnswersAlone(ch, evs) == AnswersAlone(ch, init) + [ReadBuffer.Run(ch, evs).answer];
        assert Clears(evs) == Clears(init) + [last.clear];
        TakenNext(ReadBuffer.Run(ch, init), last.clear);
      } else {
        assert AnswersAlone(ch, evs) == AnswersAlone(ch, init) && Clears(evs) == Clears(init);
      }
    }
  }

  /** Even with lag, and however clearing reads and others alternate, the answers to the
      clearing ones are, put together, a strictly ascending part of what the channel was
      sent: nothing twice or out of order. */
  lemma SessionClearingReadsInOrder(clients: set<nat>, before: seq<Event>, after: seq<Event>, i: nat, p: Port, chan: nat)
    requires i in clients && JustSubscribed(Run(clients, before), i, p, chan) && KeepsRun(clients, before, after, i, p)
    ensures var s := Run(clients, before); var s' := Run(clients, before + after);
      var clears := Clears(SeenRun(clients, before, after, i, p, chan));
      && i in s'.clients && |s.clients[i].replies| <= |s'.clients[i].replies| && chan < |s'.daemon.chans|
      && var answers := AnswersFor(s'.clients[i].replies[|s.clients[i].replies|..], p);
        && |answers| == |clears|
        && ReadBuffer.Ascending(Handed(answers, clears))
        && forall e :: e in Handed(answers, clears) ==> e in s'.daemon.chans[chan].sent
  {
    var ch := Run(clients, before).daemon.chans[chan];
    var evs := SeenRun(clients, before, after, i, p, chan);
    RunReads(clients, before, after, i, p, chan);
    ReadBuffer.ClearingReadsInOrder(ch, evs);
    HandedIsTaken(ch, evs);
  }
}
