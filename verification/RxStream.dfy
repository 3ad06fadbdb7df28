/** The rx_data notifications of one subscription, in the whole daemon: a client's task
    among all the others does what a single receiver of the port's channel does. */
module RxStream {
  import opened Sequences
  import opened Broadcast
  import opened KeywordFilter
  import opened Session
  import opened Streaming
  import FilterTheorems

  /** The entry numbers of the rx_data notifications for a port, in order. */
  function RxIndices(output: seq<Output>, p: Port): seq<nat> {
    if output == [] then []
    else
      var last := output[|output| - 1];
      RxIndices(output[..|output| - 1], p) + (if last.RxData? && last.port == p then [last.index] else [])
  }

  /** An rx_data notification for the port shows the entry of that number. */
  predicate Genuine(out: Output, p: Port, chan: nat, sent: seq<RxEntry>) {
    out.RxData? && out.port == p ==> out.chan == chan && out.index < |sent| && out.entry == sent[out.index]
  }

  /** The step does not exchange the receiver the task has for the port. */
  predicate Steady(c: Client, a: Action, p: Port) {
    a.ApplyNext? && c.queue != [] ==> !(c.queue[0].Subscribe? || c.queue[0].Unsubscribe?) || c.queue[0].port != p
  }

  ghost predicate SteadyRun(clients: set<nat>, before: seq<Event>, after: seq<Event>, i: nat, p: Port)
    requires i in clients
  {
    after == [] ||
    (var last := after[|after| - 1];
     var s := Run(clients, before + after[..|after| - 1]);
     SteadyRun(clients, before, after[..|after| - 1], i, p)
     && (last.Local? && last.client == i && i in s.clients ==> Steady(s.clients[i], last.action, p)))
  }

  /** What an event of the daemon is to one receiver of client i's task. */
  function Seen(d: Daemon, ev: Event, i: nat, p: Port, chan: nat): seq<ReaderEvent<RxEntry>> {
    match ev
    case Arrived(ch, timestamp, data) => if ch == chan then [Send(RxEntry(d.clock, timestamp, data))] else []
    case Ended(ch) => if ch == chan && (forall q :: q in d.open ==> d.open[q] != chan) then [Shut] else []
    case Local(client, action) => if client == i && action == PollRx(p) then [Poll] else []
    case Opened(_) => []
    case Removed(_) => []
  }

  function SeenRun(clients: set<nat>, before: seq<Event>, after: seq<Event>, i: nat, p: Port, chan: nat): seq<ReaderEvent<RxEntry>> {
    if after == [] then []
    else
      SeenRun(clients, before, after[..|after| - 1], i, p, chan)
      + Seen(Run(clients, before + after[..|after| - 1]).daemon, after[|after| - 1], i, p, chan)
  }

  /** The task's receiver for p is the reader's, and the notifications since `base` are
      what the reader delivered. */
  ghost predicate Follows(c: Client, d: Daemon, p: Port, chan: nat, base: nat, r: Reader<RxEntry>) {
    && chan < |d.chans| && r.ch == d.chans[chan] && r.cursor <= |r.ch.sent|
    && (r.dropped <==> p !in c.task.rxReceivers)
    && (p in c.task.rxReceivers ==> c.task.rxReceivers[p] == Receiver(chan, r.cursor))
    && base <= |c.output|
    && RxIndices(c.output[base..], p) == Delivered(r.answers)
    && (forall k :: base <= k < |c.output| ==> Genuine(c.output[k], p, chan, r.ch.sent))
  }

  function ReaderSteps<T>(r: Reader<T>, evs: seq<ReaderEvent<T>>): Reader<T>
    requires r.cursor <= |r.ch.sent| && |evs| <= 1
  {
    if evs == [] then r else ReaderStep(r, evs[0])
  }

  lemma RxIndicesNext(output: seq<Output>, base: nat, out: Output, p: Port)
    requires base <= |output|
    ensures RxIndices((output + [out])[base..], p)
      == RxIndices(output[base..], p) + (if out.RxData? && out.port == p then [out.index] else [])
  {
    assert (output + [out])[base..] == output[base..] + [out];
    assert (output[base..] + [out])[..|output[base..]|] == output[base..];
  }

  lemma {:induction false} NoRxAdded(output: seq<Output>, base: nat, added: seq<Output>, p: Port)
    requires base <= |output| && forall k :: 0 <= k < |added| ==> added[k].FilterHit?
    ensures RxIndices((output + added)[base..], p) == RxIndices(output[base..], p)
  {
    if added == [] {
      assert output + added == output;
    } else {
      NoRxAdded(output, base, added[..|added| - 1], p);
      assert output + added == (output + added[..|added| - 1]) + [added[|added| - 1]];
      RxIndicesNext(output + added[..|added| - 1], base, added[|added| - 1], p);
    }
  }

  lemma DeliveredNext(answers: seq<Answer>, a: Answer)
    ensures Delivered(answers + [a]) == Delivered(answers) + (if a.Entry? then [a.index] else [])
  {
    assert (answers + [a])[..|answers|] == answers;
  }

  // ---- one step ----

  lemma SharedFollows(c: Client, d: Daemon, ev: Event, i: nat, p: Port, chan: nat, base: nat, r: Reader<RxEntry>)
    requires DaemonOk(d) && !ev.Local? && Follows(c, d, p, chan, base, r)
    ensures Follows(c, SharedStep(d, ev), p, chan, base, ReaderSteps(r, Seen(d, ev, i, p, chan)))
  {
    var r' := ReaderSteps(r, Seen(d, ev, i, p, chan));
    assert r'.ch == SharedStep(d, ev).chans[chan];
    assert IsPrefix(r.ch.sent, r'.ch.sent);
    forall k | base <= k < |c.output| ensures Genuine(c.output[k], p, chan, r'.ch.sent) {
      assert Genuine(c.output[k], p, chan, r.ch.sent);
    }
  }

  /** The poll of the port's own receiver. */
  lemma PollFollows(c: Client, d: Daemon, p: Port, chan: nat, base: nat, r: Reader<RxEntry>)
    requires TaskOk(c.task, d) && Follows(c, d, p, chan, base, r) && p in c.task.rxReceivers
    ensures Follows(PollRxStep(c, p, d), d, p, chan, base, ReaderStep(r, Poll))
  {
    var c' := PollRxStep(c, p, d);
    var outcome := TryRecv(r.ch, r.cursor).0;
    match outcome {
      case Got(e) =>
        RxIndicesNext(c.output, base, RxData(p, chan, r.cursor, e), p);
        DeliveredNext(r.answers, Entry(r.cursor));
      case Lagged(n) => DeliveredNext(r.answers, Gap(n));
      case Empty =>
      case Closed =>
    }
  }

  /** A client's steps that leave the port's receiver alone and add no rx_data for it. */
  lemma AsideFollows(c: Client, c': Client, d: Daemon, p: Port, chan: nat, base: nat, r: Reader<RxEntry>)
    requires Follows(c, d, p, chan, base, r)
    requires p in c'.task.rxReceivers <==> p in c.task.rxReceivers
    requires p in c.task.rxReceivers ==> c'.task.rxReceivers[p] == c.task.rxReceivers[p]
    requires |c.output| <= |c'.output| && c'.output[..|c.output|] == c.output
    requires RxIndices(c'.output[base..], p) == RxIndices(c.output[base..], p)
    requires forall k :: |c.output| <= k < |c'.output| ==> c'.output[k].FilterHit? || c'.output[k].port != p
    ensures Follows(c', d, p, chan, base, r)
  {
    forall k | base <= k < |c'.output| ensures Genuine(c'.output[k], p, chan, r.ch.sent) {
      if k < |c.output| {
        assert c'.output[k] == c'.output[..|c.output|][k];
      }
    }
  }

  lemma OtherPollFollows(c: Client, d: Daemon, q: Port, p: Port, chan: nat, base: nat, r: Reader<RxEntry>)
    requires TaskOk(c.task, d) && Follows(c, d, p, chan, base, r) && q in c.task.rxReceivers && q != p
    ensures Follows(PollRxStep(c, q, d), d, p, chan, base, r)
  {
    var c' := PollRxStep(c, q, d);
    if c'.output != c.output {
      RxIndicesNext(c.output, base, c'.output[|c.output|], p);
    }
    AsideFollows(c, c', d, p, chan, base, r);
  }

  lemma FilterPollFollows(c: Client, d: Daemon, q: Port, p: Port, chan: nat, base: nat, r: Reader<RxEntry>)
    requires TaskOk(c.task, d) && Follows(c, d, p, chan, base, r) && q in c.task.filters
    ensures Follows(PollFilterStep(c, q, d), d, p, chan, base, r)
  {
    var c' := PollFilterStep(c, q, d);
    var f := c.task.filters[q];
    var outcome := TryRecv(d.chans[f.rx.chan], f.rx.cursor);
    if outcome.0.Got? {
      var f' := FilterTask(f.rx.(cursor := outcome.1), FilterTheorems.Deliver(f.tracker, outcome.0.value), f.delivered + [f.rx.cursor]);
      NoRxAdded(c.output, base, HitOutputs(q, f', Reported(f.tracker.filter, outcome.0.value), FilterTheorems.WindowStart(f.tracker)), p);
    }
    AsideFollows(c, c', d, p, chan, base, r);
  }

  lemma ApplyFollows(c: Client, d: Daemon, p: Port, chan: nat, base: nat, r: Reader<RxEntry>)
    requires Follows(c, d, p, chan, base, r) && c.queue != [] && Steady(c, ApplyNext, p)
    ensures Follows(c.(task := ApplyCmd(c.task, c.queue[0]), queue := c.queue[1..]), d, p, chan, base, r)
  {
    AsideFollows(c, c.(task := ApplyCmd(c.task, c.queue[0]), queue := c.queue[1..]), d, p, chan, base, r);
  }

  lemma SessionFollows(c: Client, a: Action, d: Daemon, p: Port, chan: nat, base: nat, r: Reader<RxEntry>)
    requires DaemonOk(d) && ClientOk(c, d) && Follows(c, d, p, chan, base, r)
    requires a.Handle? || a.FinishClose? || a.SendNext?
    ensures Follows(LocalStep(c, a, d), d, p, chan, base, r)
  {
    var c' := LocalStep(c, a, d);
    assert c'.task == c.task && c'.output == c.output;
  }

  lemma LocalFollows(c: Client, a: Action, d: Daemon, i: nat, p: Port, chan: nat, base: nat, r: Reader<RxEntry>)
    requires DaemonOk(d) && ClientOk(c, d) && Follows(c, d, p, chan, base, r) && Steady(c, a, p)
    ensures Follows(LocalStep(c, a, d), d, p, chan, base, ReaderSteps(r, Seen(d, Local(i, a), i, p, chan)))
  {
    match a {
      case PollRx(q) =>
        if q in c.task.rxReceivers {
          if q == p { PollFollows(c, d, p, chan, base, r); } else { OtherPollFollows(c, d, q, p, chan, base, r); }
        }
      case PollFilter(q) => if q in c.task.filters { FilterPollFollows(c, d, q, p, chan, base, r); }
      case ApplyNext => if c.queue != [] { ApplyFollows(c, d, p, chan, base, r); }
      case Handle(_) => SessionFollows(c, a, d, p, chan, base, r);
      case FinishClose => SessionFollows(c, a, d, p, chan, base, r);
      case SendNext => SessionFollows(c, a, d, p, chan, base, r);
    }
  }

  ghost predicate FollowsIn(s: System, i: nat, p: Port, chan: nat, base: nat, r: Reader<RxEntry>) {
    i in s.clients && Follows(s.clients[i], s.daemon, p, chan, base, r)
  }

  lemma StepFollows(s: System, ev: Event, i: nat, p: Port, chan: nat, base: nat, r: Reader<RxEntry>)
    requires SystemOk(s) && FollowsIn(s, i, p, chan, base, r)
    requires ev.Local? && ev.client == i ==> Steady(s.clients[i], ev.action, p)
    ensures FollowsIn(Step(s, ev), i, p, chan, base, ReaderSteps(r, Seen(s.daemon, ev, i, p, chan)))
  {
    if !ev.Local? {
      SharedFollows(s.clients[i], s.daemon, ev, i, p, chan, base, r);
    } else if ev.client == i {
      LocalFollows(s.clients[i], ev.action, s.daemon, i, p, chan, base, r);
    }
  }

  // ---- a whole subscription ----

  function StartReader(s: System, i: nat, p: Port): Reader<RxEntry>
    requires SystemOk(s) && i in s.clients && p in s.clients[i].task.rxReceivers
  {
    var rx := s.clients[i].task.rxReceivers[p];
    Reader(s.daemon.chans[rx.chan], rx.cursor, [], false)
  }

  /** The state after the run follows a receiver that started as `start` and saw the same
      events. */
  ghost predicate FollowsSince(clients: set<nat>, before: seq<Event>, after: seq<Event>, i: nat, p: Port, chan: nat, base: nat,
                               start: Reader<RxEntry>)
    requires start.cursor <= |start.ch.sent|
  {
    FollowsIn(Run(clients, before + after), i, p, chan, base, ReaderRun(start, SeenRun(clients, before, after, i, p, chan)))
  }

  lemma StartFollows(s: System, i: nat, p: Port)
    requires SystemOk(s) && i in s.clients && p in s.clients[i].task.rxReceivers
    ensures FollowsIn(s, i, p, s.clients[i].task.rxReceivers[p].chan, |s.clients[i].output|, StartReader(s, i, p))
  {
    assert s.clients[i].output[|s.clients[i].output|..] == [];
  }

  lemma LastStep(clients: set<nat>, before: seq<Event>, after: seq<Event>)
    requires after != []
    ensures Run(clients, before + after) == Step(Run(clients, before + after[..|after| - 1]), after[|after| - 1])
  {
    assert before + after == (before + after[..|after| - 1]) + [after[|after| - 1]];
    RunNext(clients, before + after[..|after| - 1], after[|after| - 1]);
  }

  lemma LastSeen(clients: set<nat>, before: seq<Event>, after: seq<Event>, i: nat, p: Port, chan: nat, start: Reader<RxEntry>)
    requires after != [] && start.cursor <= |start.ch.sent|
    ensures var init := after[..|after| - 1];
      var now := Seen(Run(clients, before + init).daemon, after[|after| - 1], i, p, chan);
      ReaderRun(start, SeenRun(clients, before, after, i, p, chan))
        == ReaderSteps(ReaderRun(start, SeenRun(clients, before, init, i, p, chan)), now)
  {
    var init := after[..|after| - 1];
    ReaderRunNext(start, SeenRun(clients, before, init, i, p, chan),
                  Seen(Run(clients, before + init).daemon, after[|after| - 1], i, p, chan));
  }

  lemma SteadyLast(clients: set<nat>, before: seq<Event>, after: seq<Event>, i: nat, p: Port)
    requires i in clients && after != [] && SteadyRun(clients, before, after, i, p)
    ensures var s := Run(clients, before + after[..|after| - 1]); var last := after[|after| - 1];
      last.Local? && last.client == i && i in s.clients ==> Steady(s.clients[i], last.action, p)
  {
  }

  lemma FollowsNext(clients: set<nat>, before: seq<Event>, after: seq<Event>, i: nat, p: Port, chan: nat, base: nat,
                    start: Reader<RxEntry>)
    requires i in clients && start.cursor <= |start.ch.sent|
    requires after != [] && FollowsSince(clients, before, after[..|after| - 1], i, p, chan, base, start)
    requires SteadyRun(clients, before, after, i, p)
    ensures FollowsSince(clients, before, after, i, p, chan, base, start)
  {
    var init := after[..|after| - 1];
    LastStep(clients, before, after);
    LastSeen(clients, before, after, i, p, chan, start);
    SteadyLast(clients, before, after, i, p);
    StepFollows(Run(clients, before + init), after[|after| - 1], i, p, chan, base,
                ReaderRun(start, SeenRun(clients, before, init, i, p, chan)));
  }

  lemma {:induction false} RunFollowsFrom(clients: set<nat>, before: seq<Event>, after: seq<Event>, i: nat, p: Port, chan: nat,
                                          base: nat, start: Reader<RxEntry>)
    requires i in clients && start.cursor <= |start.ch.sent| && FollowsIn(Run(clients, before), i, p, chan, base, start)
    requires SteadyRun(clients, before, after, i, p)
    ensures FollowsSince(clients, before, after, i, p, chan, base, start)
  {
    if after == [] {
      assert before + [] == before;
    } else {
      RunFollowsFrom(clients, before, after[..|after| - 1], i, p, chan, base, start);
      FollowsNext(clients, before, after, i, p, chan, base, start);
    }
  }

  /** The client's task follows a single receiver, whatever else goes on. */
  lemma RunFollows(clients: set<nat>, before: seq<Event>, after: seq<Event>, i: nat, p: Port)
    requires i in clients && i in Run(clients, before).clients && p in Run(clients, before).clients[i].task.rxReceivers
    requires SteadyRun(clients, before, after, i, p)
    ensures var s := Run(clients, before);
      FollowsSince(clients, before, after, i, p, s.clients[i].task.rxReceivers[p].chan, |s.clients[i].output|, StartReader(s, i, p))
  {
    var s := Run(clients, before);
    StartFollows(s, i, p);
    RunFollowsFrom(clients, before, after, i, p, s.clients[i].task.rxReceivers[p].chan, |s.clients[i].output|, StartReader(s, i, p));
  }

  lemma ReaderRunNext<T>(start: Reader<T>, evs: seq<ReaderEvent<T>>, now: seq<ReaderEvent<T>>)
    requires start.cursor <= |start.ch.sent| && |now| <= 1
    ensures ReaderRun(start, evs + now) == ReaderSteps(ReaderRun(start, evs), now)
  {
    if now == [] {
      assert evs + now == evs;
    } else {
      assert (evs + now)[..|evs|] == evs;
    }
  }

  /** Main theorem: while a client's subscription to a port lasts, in any run of the whole
      daemon, its rx_data notifications show entries of the port's channel, in order and
      none twice, from the subscription on; none is left out exactly when the task never
      polls with more than 256 entries unread; and when the task drops the receiver, the
      channel is closed and everything in it was delivered or reported missing. */
  lemma SubscriptionStream(clients: set<nat>, before: seq<Event>, after: seq<Event>, i: nat, p: Port)
    requires i in clients && i in Run(clients, before).clients && p in Run(clients, before).clients[i].task.rxReceivers
    requires SteadyRun(clients, before, after, i, p)
    ensures var s := Run(clients, before); var s' := Run(clients, before + after);
      i in s'.clients && |s.clients[i].output| <= |s'.clients[i].output|
    ensures var s := Run(clients, before); var s' := Run(clients, before + after); var rx := s.clients[i].task.rxReceivers[p];
      rx.chan < |s'.daemon.chans| && forall k :: |s.clients[i].output| <= k < |s'.clients[i].output| ==>
        Genuine(s'.clients[i].output[k], p, rx.chan, s'.daemon.chans[rx.chan].sent)
    ensures var s := Run(clients, before); var s' := Run(clients, before + after); var rx := s.clients[i].task.rxReceivers[p];
      var shown := RxIndices(s'.clients[i].output[|s.clients[i].output|..], p);
      var reader := ReaderRun(StartReader(s, i, p), SeenRun(clients, before, after, i, p, rx.chan));
      && (forall j, k :: 0 <= j < k < |shown| ==> shown[j] < shown[k])
      && (forall k :: 0 <= k < |shown| ==> rx.cursor <= shown[k] < reader.cursor)
      && rx.cursor + |shown| <= reader.cursor
      && (rx.cursor + |shown| == reader.cursor <==> NeverBehind(StartReader(s, i, p), SeenRun(clients, before, after, i, p, rx.chan)))
      && (p !in s'.clients[i].task.rxReceivers <==> reader.dropped)
      && (reader.dropped ==> reader.ch.closed && reader.cursor == |reader.ch.sent|)
      && reader.ch == s'.daemon.chans[rx.chan]
  {
    var s := Run(clients, before);
    var rx := s.clients[i].task.rxReceivers[p];
    var seen := SeenRun(clients, before, after, i, p, rx.chan);
    RunFollows(clients, before, after, i, p);
    ReceiverAccounts(s.daemon.chans[rx.chan], rx.cursor, seen);
    NothingMissedIff(s.daemon.chans[rx.chan], rx.cursor, seen);
  }
}
