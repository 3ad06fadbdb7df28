/** How much of a port's stream a filter is given, in the whole daemon: the task's filter
    follows a single receiver, and what it hits is what that receiver has let through. */
module FilterCoverage {
  import opened Sequences
  import opened Matching
  import opened Broadcast
  import opened KeywordFilter
  import opened FilterTheorems
  import opened Session
  import opened Streaming
  import opened Separation
  import opened FilterStream
  import FilterPolling
  import RxStream

  /** What an event of the daemon is to the filter that client i's task has for the port. */
  function FilterSeen(d: Daemon, ev: Event, i: nat, p: Port, chan: nat): seq<ReaderEvent<RxEntry>> {
    if ev.Local? then (if ev.client == i && ev.action == PollFilter(p) then [Poll] else [])
    else RxStream.Seen(d, ev, i, p, chan)
  }

  function FilterSeenRun(clients: set<nat>, before: seq<Event>, after: seq<Event>, i: nat, p: Port, chan: nat): seq<ReaderEvent<RxEntry>> {
    if after == [] then []
    else
      FilterSeenRun(clients, before, after[..|after| - 1], i, p, chan)
      + FilterSeen(Run(clients, before + after[..|after| - 1]).daemon, after[|after| - 1], i, p, chan)
  }

  /** The filter, held or held last, stands where the reader does and was given what the
      reader delivered. */
  ghost predicate Trails(c: Client, d: Daemon, p: Port, chan: nat, f: FilterTask, r: Reader<RxEntry>) {
    && chan < |d.chans| && r.ch == d.chans[chan] && r.cursor <= |r.ch.sent|
    && (r.dropped <==> p !in c.task.filters)
    && (p in c.task.filters ==> c.task.filters[p] == f)
    && f.rx == Receiver(chan, r.cursor) && f.delivered == Delivered(r.answers)
  }

  ghost predicate TrailsIn(s: System, i: nat, p: Port, chan: nat, f: FilterTask, r: Reader<RxEntry>) {
    i in s.clients && Trails(s.clients[i], s.daemon, p, chan, f, r)
  }

  // ---- one step ----

  /** The filter after a step of its client. */
  function Now(c: Client, p: Port, earlier: FilterTask): FilterTask {
    if p in c.task.filters then c.task.filters[p] else earlier
  }

  lemma PollTrails(c: Client, d: Daemon, p: Port, chan: nat, f: FilterTask, r: Reader<RxEntry>)
    requires TaskOk(c.task, d) && Trails(c, d, p, chan, f, r) && p in c.task.filters
    ensures var c' := PollFilterStep(c, p, d); Trails(c', d, p, chan, Now(c', p, f), ReaderStep(r, Poll))
  {
    var outcome := TryRecv(r.ch, r.cursor).0;
    match outcome {
      case Got(_) => RxStream.DeliveredNext(r.answers, Entry(r.cursor));
      case Lagged(n) => RxStream.DeliveredNext(r.answers, Gap(n));
      case Empty =>
      case Closed =>
    }
  }

  lemma OtherPollTrails(c: Client, d: Daemon, q: Port, p: Port, chan: nat, f: FilterTask, r: Reader<RxEntry>)
    requires TaskOk(c.task, d) && Trails(c, d, p, chan, f, r) && q in c.task.filters && q != p
    ensures var c' := PollFilterStep(c, q, d); Trails(c', d, p, chan, Now(c', p, f), r)
  {
    var c' := PollFilterStep(c, q, d);
    assert (p in c'.task.filters <==> p in c.task.filters) && (p in c.task.filters ==> c'.task.filters[p] == c.task.filters[p]);
  }

  lemma ApplyTrails(c: Client, d: Daemon, p: Port, chan: nat, f: FilterTask, r: Reader<RxEntry>)
    requires c.queue != [] && Trails(c, d, p, chan, f, r) && FilterSteady(c, ApplyNext, p)
    ensures var c' := c.(task := ApplyCmd(c.task, c.queue[0]), queue := c.queue[1..]); Trails(c', d, p, chan, Now(c', p, f), r)
  {
  }

  lemma AsideTrails(c: Client, a: Action, d: Daemon, p: Port, chan: nat, f: FilterTask, r: Reader<RxEntry>)
    requires DaemonOk(d) && ClientOk(c, d) && Trails(c, d, p, chan, f, r) && !a.PollFilter? && !a.ApplyNext?
    ensures Trails(LocalStep(c, a, d), d, p, chan, Now(LocalStep(c, a, d), p, f), r)
  {
    assert LocalStep(c, a, d).task.filters == c.task.filters;
  }

  lemma LocalTrails(c: Client, a: Action, d: Daemon, p: Port, chan: nat, f: FilterTask, r: Reader<RxEntry>)
    requires DaemonOk(d) && ClientOk(c, d) && Trails(c, d, p, chan, f, r) && FilterSteady(c, a, p)
    ensures var c' := LocalStep(c, a, d);
      Trails(c', d, p, chan, Now(c', p, f), RxStream.ReaderSteps(r, if a == PollFilter(p) then [Poll] else []))
  {
    match a {
      case PollFilter(q) =>
        if q in c.task.filters {
          if q == p { PollTrails(c, d, p, chan, f, r); } else { OtherPollTrails(c, d, q, p, chan, f, r); }
        }
      case ApplyNext => if c.queue != [] { ApplyTrails(c, d, p, chan, f, r); }
      case PollRx(_) => AsideTrails(c, a, d, p, chan, f, r);
      case Handle(_) => AsideTrails(c, a, d, p, chan, f, r);
      case FinishClose => AsideTrails(c, a, d, p, chan, f, r);
      case SendNext => AsideTrails(c, a, d, p, chan, f, r);
    }
  }

  lemma SharedTrails(c: Client, d: Daemon, ev: Event, i: nat, p: Port, chan: nat, f: FilterTask, r: Reader<RxEntry>)
    requires DaemonOk(d) && !ev.Local? && Trails(c, d, p, chan, f, r)
    ensures Trails(c, SharedStep(d, ev), p, chan, f, RxStream.ReaderSteps(r, RxStream.Seen(d, ev, i, p, chan)))
  {
    assert RxStream.ReaderSteps(r, RxStream.Seen(d, ev, i, p, chan)).ch == SharedStep(d, ev).chans[chan];
  }

  lemma StepTrails(s: System, ev: Event, i: nat, p: Port, chan: nat, f: FilterTask, r: Reader<RxEntry>)
    requires SystemOk(s) && TrailsIn(s, i, p, chan, f, r)
    requires ev.Local? && ev.client == i ==> FilterSteady(s.clients[i], ev.action, p)
    ensures TrailsIn(Step(s, ev), i, p, chan, Latest(Step(s, ev), i, p, f),
                     RxStream.ReaderSteps(r, FilterSeen(s.daemon, ev, i, p, chan)))
  {
    if !ev.Local? {
      SharedTrails(s.clients[i], s.daemon, ev, i, p, chan, f, r);
    } else if ev.client == i {
      LocalTrails(s.clients[i], ev.action, s.daemon, p, chan, f, r);
    }
  }

  // ---- a whole registration ----

  lemma LastSeen(clients: set<nat>, before: seq<Event>, after: seq<Event>, i: nat, p: Port, chan: nat, start: Reader<RxEntry>)
    requires after != [] && start.cursor <= |start.ch.sent|
    ensures var init := after[..|after| - 1];
      var now := FilterSeen(Run(clients, before + init).daemon, after[|after| - 1], i, p, chan);
      ReaderRun(start, FilterSeenRun(clients, before, after, i, p, chan))
        == RxStream.ReaderSteps(ReaderRun(start, FilterSeenRun(clients, before, init, i, p, chan)), now)
  {
    var init := after[..|after| - 1];
    RxStream.ReaderRunNext(start, FilterSeenRun(clients, before, init, i, p, chan),
                           FilterSeen(Run(clients, before + init).daemon, after[|after| - 1], i, p, chan));
  }

  lemma FilterSteadyLast(clients: set<nat>, before: seq<Event>, after: seq<Event>, i: nat, p: Port)
    requires after != [] && FilterSteadyRun(clients, before, after, i, p)
    ensures var s := Run(clients, before + after[..|after| - 1]); var last := after[|after| - 1];
      last.Local? && last.client == i && i in s.clients ==> FilterSteady(s.clients[i], last.action, p)
  {
  }

  ghost predicate TrailsSince(clients: set<nat>, before: seq<Event>, after: seq<Event>, i: nat, p: Port, chan: nat, first: FilterTask,
                              start: Reader<RxEntry>)
    requires start.cursor <= |start.ch.sent|
  {
    TrailsIn(Run(clients, before + after), i, p, chan, LastFilter(clients, before, after, i, p, first),
             ReaderRun(start, FilterSeenRun(clients, before, after, i, p, chan)))
  }

  lemma TrailsNext(clients: set<nat>, before: seq<Event>, after: seq<Event>, i: nat, p: Port, chan: nat, first: FilterTask,
                   start: Reader<RxEntry>)
    requires start.cursor <= |start.ch.sent| && after != []
    requires TrailsSince(clients, before, after[..|after| - 1], i, p, chan, first, start)
    requires FilterSteadyRun(clients, before, after, i, p)
    ensures TrailsSince(clients, before, after, i, p, chan, first, start)
  {
    var init := after[..|after| - 1];
    RxStream.LastStep(clients, before, after);
    LastSeen(clients, before, after, i, p, chan, start);
    FilterSteadyLast(clients, before, after, i, p);
    StepTrails(Run(clients, before + init), after[|after| - 1], i, p, chan, LastFilter(clients, before, init, i, p, first),
               ReaderRun(start, FilterSeenRun(clients, before, init, i, p, chan)));
  }

  lemma {:induction false} RunTrails(clients: set<nat>, before: seq<Event>, after: seq<Event>, i: nat, p: Port, chan: nat,
                                     first: FilterTask, start: Reader<RxEntry>)
    requires start.cursor <= |start.ch.sent| && TrailsIn(Run(clients, before), i, p, chan, first, start)
    requires FilterSteadyRun(clients, before, after, i, p)
    ensures TrailsSince(clients, before, after, i, p, chan, first, start)
  {
    if after == [] {
      assert before + [] == before;
    } else {
      RunTrails(clients, before, after[..|after| - 1], i, p, chan, first, start);
      TrailsNext(clients, before, after, i, p, chan, first, start);
    }
  }

  // ---- nothing left out ----

  /** Without a gap the numbers delivered are consecutive. */
  lemma {:induction false} DeliveredConsecutive(from: nat, answers: seq<Answer>)
    requires Gapless(from, answers) && Missed(answers) == 0
    ensures var d := Delivered(answers); from + |d| == Reach(from, answers) && forall k :: 0 <= k < |d| ==> d[k] == from + k
  {
    if answers != [] {
      DeliveredConsecutive(from, answers[..|answers| - 1]);
    }
  }

  lemma {:induction false} StreamOfConsecutive(sent: seq<RxEntry>, delivered: seq<nat>, from: nat)
    requires from + |delivered| <= |sent| && forall k :: 0 <= k < |delivered| ==> delivered[k] == from + k
    ensures StreamFrom(sent, delivered) == Concat(DataOf(sent[from..from + |delivered|]))
  {
    if delivered == [] {
      assert DataOf(sent[from..from]) == [];
    } else {
      StreamOfConsecutive(sent, delivered[..|delivered| - 1], from);
      FilterPolling.DataNext(sent, from, from + |delivered| - 1);
    }
  }

  /** All bytes that came in from the entry numbered `from` on, up to the entry before `to`. */
  function Received(sent: seq<RxEntry>, from: nat, to: nat): Bytes {
    if from <= to <= |sent| then Concat(DataOf(sent[from..to])) else []
  }

  lemma WholeStretch(from: nat, answers: seq<Answer>, sent: seq<RxEntry>)
    requires Gapless(from, answers) && Missed(answers) == 0 && Reach(from, answers) <= |sent|
    requires forall k :: 0 <= k < |Delivered(answers)| ==> Delivered(answers)[k] < |sent|
    ensures StreamFrom(sent, Delivered(answers)) == Received(sent, from, Reach(from, answers))
  {
    DeliveredConsecutive(from, answers);
    StreamOfConsecutive(sent, Delivered(answers), from);
  }

  lemma NothingLeftOut(ch: Channel<RxEntry>, from: nat, evs: seq<ReaderEvent<RxEntry>>, sent: seq<RxEntry>, delivered: seq<nat>)
    requires from <= |ch.sent|
    requires var r := ReaderRun(Reader(ch, from, [], false), evs); r.ch.sent == sent && delivered == Delivered(r.answers)
    ensures var r := ReaderRun(Reader(ch, from, [], false), evs);
      && from <= r.cursor && |delivered| <= r.cursor - from
      && (forall k :: 0 <= k < |delivered| ==> delivered[k] < |sent|)
      && (|delivered| == r.cursor - from <==> NeverBehind(Reader(ch, from, [], false), evs))
      && (NeverBehind(Reader(ch, from, [], false), evs) ==> StreamFrom(sent, delivered) == Received(sent, from, r.cursor))
  {
    var r := ReaderRun(Reader(ch, from, [], false), evs);
    ReceiverAccounts(ch, from, evs);
    NothingMissedIff(ch, from, evs);
    if Missed(r.answers) == 0 {
      RunGapless(ch, from, evs);
      WholeStretch(from, r.answers, sent);
    }
  }

  /** The receiver an AddFilter brings, alone with its channel. */
  function Lone(d: Daemon, rx: Receiver): Reader<RxEntry>
    requires rx.chan < |d.chans|
  {
    Reader(d.chans[rx.chan], rx.cursor, [], false)
  }

  /** The AddFilter at the head of client i's queue. */
  ghost predicate Registers(s: System, i: nat, cmd: Command) {
    i in s.clients && s.clients[i].queue != [] && s.clients[i].queue[0] == cmd && cmd.AddFilter?
  }

  lemma RegistrationTrails(clients: set<nat>, before: seq<Event>, i: nat, cmd: Command)
    requires Registers(Run(clients, before), i, cmd)
    ensures var s := Run(clients, before + [Local(i, ApplyNext)]);
      && cmd.rx.chan < |s.daemon.chans| && cmd.rx.cursor <= |s.daemon.chans[cmd.rx.chan].sent|
      && TrailsIn(s, i, cmd.port, cmd.rx.chan, FilterTask(cmd.rx, Start(cmd.keywords), []), Lone(s.daemon, cmd.rx))
  {
    var s := Run(clients, before);
    RunNext(clients, before, Local(i, ApplyNext));
    assert CommandPoints(s.clients[i].queue[0], s.daemon);
  }

  /** Where the filter of the AddFilter stands after the run, against the lone receiver: it was
      given every entry up to there exactly when the receiver is never behind, and a filter
      that the task has dropped was read out. */
  ghost predicate Stands(s: System, i: nat, rx: Receiver, p: Port, f: FilterTask, r: Reader<RxEntry>, neverBehind: bool) {
    && i in s.clients && rx.chan < |s.daemon.chans| && r.ch == s.daemon.chans[rx.chan] && rx.cursor <= r.cursor <= |r.ch.sent|
    && (p in s.clients[i].task.filters ==> s.clients[i].task.filters[p] == f && f.rx == Receiver(rx.chan, r.cursor))
    && (p !in s.clients[i].task.filters <==> r.dropped) && (r.dropped ==> r.ch.closed && r.cursor == |r.ch.sent|)
    && |f.delivered| <= r.cursor - rx.cursor
    && (|f.delivered| == r.cursor - rx.cursor <==> neverBehind)
    && (neverBehind ==> f.tracker.stream == Received(r.ch.sent, rx.cursor, r.cursor))
  }

  lemma TrailsStands(s: System, i: nat, p: Port, f: FilterTask, ch: Channel<RxEntry>, rx: Receiver, evs: seq<ReaderEvent<RxEntry>>)
    requires rx.cursor <= |ch.sent| && OneOpening(f, p, s.daemon)
    requires TrailsIn(s, i, p, rx.chan, f, ReaderRun(Reader(ch, rx.cursor, [], false), evs))
    ensures var start := Reader(ch, rx.cursor, [], false);
      Stands(s, i, rx, p, f, ReaderRun(start, evs), NeverBehind(start, evs))
  {
    ReceiverAccounts(ch, rx.cursor, evs);
    NothingLeftOut(ch, rx.cursor, evs, s.daemon.chans[rx.chan].sent, f.delivered);
  }

  /** From s, where the AddFilter has just been taken, to s', with what the filter saw. */
  ghost predicate Covers(s: System, s': System, i: nat, cmd: Command, base: nat, seen: seq<ReaderEvent<RxEntry>>, f: FilterTask)
    requires cmd.AddFilter?
  {
    && cmd.rx.chan < |s.daemon.chans| && cmd.rx.cursor <= |s.daemon.chans[cmd.rx.chan].sent|
    && var lone := Lone(s.daemon, cmd.rx);
      var r := ReaderRun(lone, seen);
      && Stands(s', i, cmd.rx, cmd.port, f, r, NeverBehind(lone, seen))
      && (NeverBehind(lone, seen) ==>
            SearchedAll(s'.clients[i].output, base, cmd.port, cmd.keywords, Received(r.ch.sent, cmd.rx.cursor, r.cursor)))
  }

  /** The hits notified since `base` are those of a naive search of the bytes. */
  ghost predicate SearchedAll(output: seq<Output>, base: nat, p: Port, keywords: seq<Bytes>, bytes: Bytes) {
    && base <= |output|
    && forall j: nat :: j < |keywords| ==> PositionsOf(HitsFound(output[base..], p), j) == Positions(bytes, keywords[j], 0, |bytes|)
  }

  /** Main theorem, for any run of the whole daemon: when the task never polls the filter with
      more than 256 entries unread, the filter_hit notifications tell, for each keyword of
      the AddFilter, exactly the places where a naive search finds it in all the bytes that
      came in from the AddFilter's receiver on, up to where the filter has been read: to the
      very end of the opening when the task has dropped it. Otherwise some were skipped. */
  lemma HitsCoverChannel(clients: set<nat>, before: seq<Event>, after: seq<Event>, i: nat, cmd: Command) returns (f: FilterTask)
    requires i in clients && Registers(Run(clients, before), i, cmd)
    requires FilterSteadyRun(clients, before + [Local(i, ApplyNext)], after, i, cmd.port)
    ensures var start := before + [Local(i, ApplyNext)];
      f == LastFilter(clients, start, after, i, cmd.port, FilterTask(cmd.rx, Start(cmd.keywords), []))
    ensures var start := before + [Local(i, ApplyNext)];
      HitsExact(Run(clients, start + after), i, cmd.port, |Run(clients, before).clients[i].output|, cmd.keywords, f)
    ensures var start := before + [Local(i, ApplyNext)];
      Covers(Run(clients, start), Run(clients, start + after), i, cmd, |Run(clients, before).clients[i].output|,
             FilterSeenRun(clients, start, after, i, cmd.port, cmd.rx.chan), f)
  {
    var start := before + [Local(i, ApplyNext)];
    var first := FilterTask(cmd.rx, Start(cmd.keywords), []);
    f := NotifiedHitsExact(clients, before, after, i);
    RegistrationTrails(clients, before, i, cmd);
    RunTrails(clients, start, after, i, cmd.port, cmd.rx.chan, first, Lone(Run(clients, start).daemon, cmd.rx));
    TrailsStands(Run(clients, start + after), i, cmd.port, f, Run(clients, start).daemon.chans[cmd.rx.chan], cmd.rx,
                 FilterSeenRun(clients, start, after, i, cmd.port, cmd.rx.chan));
  }
}
