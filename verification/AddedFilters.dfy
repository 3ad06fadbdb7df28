/** What an accepted add_filter_rx achieves: whether the bytes of the port's current opening
    will be searched for the new keywords. */
module AddedFilters {
  import opened Broadcast
  import opened KeywordFilter
  import opened FilterTheorems
  import opened Session
  import opened Streaming
  import opened Agreement
  import opened StaleSessions

  /** The client's task takes every command under way. */
  function Settle(c: Client, d: Daemon): Client
    requires DaemonOk(d) && ClientOk(c, d)
    decreases 2 * |c.outbox| + |c.queue|
  {
    LocalOk(c, SendNext, d);
    LocalOk(c, ApplyNext, d);
    if c.outbox != [] && |c.queue| < COMMAND_QUEUE then Settle(LocalStep(c, SendNext, d), d)
    else if c.queue != [] then Settle(LocalStep(c, ApplyNext, d), d)
    else c
  }

  lemma {:induction false} SettleApplies(c: Client, d: Daemon)
    requires DaemonOk(d) && ClientOk(c, d)
    ensures var c' := Settle(c, d); ClientOk(c', d) && c'.task == Effective(c) && c'.queue == [] && c'.outbox == []
    decreases 2 * |c.outbox| + |c.queue|
  {
    LocalOk(c, SendNext, d);
    LocalOk(c, ApplyNext, d);
    if c.outbox != [] && |c.queue| < COMMAND_QUEUE {
      assert c.queue + [c.outbox[0]] + c.outbox[1..] == c.queue + c.outbox;
      SettleApplies(LocalStep(c, SendNext, d), d);
    } else if c.queue != [] {
      assert Pending(c)[1..] == c.queue[1..] + c.outbox;
      SettleApplies(LocalStep(c, ApplyNext, d), d);
    } else {
      assert Pending(c) == [];
    }
  }

  /** And polls the port's filter until there is nothing left. */
  function PollOut(c: Client, p: Port, d: Daemon): Client
    requires TaskOk(c.task, d)
    decreases if p in c.task.filters then 1 + |d.chans[c.task.filters[p].rx.chan].sent| - c.task.filters[p].rx.cursor else 0
  {
    if p !in c.task.filters then c
    else
      var rx := c.task.filters[p].rx;
      PollFilterTaskOk(c, p, d);
      if TryRecv(d.chans[rx.chan], rx.cursor).0.Empty? then c else PollOut(PollFilterStep(c, p, d), p, d)
  }

  /** The port's filter was given entry k of the channel, with these keywords in its list. */
  ghost predicate Hears(c: Client, p: Port, chan: nat, k: nat, keywords: seq<Bytes>) {
    && p in c.task.filters && c.task.filters[p].rx.chan == chan && k in c.task.filters[p].delivered
    && forall kw :: kw in keywords ==> kw in c.task.filters[p].tracker.filter.keywords
  }

  /** f' is f, further on. */
  ghost predicate Further(f: FilterTask, f': FilterTask) {
    && f'.rx.chan == f.rx.chan && f'.tracker.filter.keywords == f.tracker.filter.keywords
    && forall k :: k in f.delivered ==> k in f'.delivered
  }

  /** One delivery, or one lag report, on the way to entry n. */
  ghost predicate Moved(f: FilterTask, f': FilterTask, n: nat) {
    Further(f, f') && f.rx.cursor < f'.rx.cursor <= n && (f'.rx.cursor == n > 0 ==> n - 1 in f'.delivered)
  }

  lemma DeliveredMoved(f: FilterTask, e: RxEntry, n: nat)
    requires f.rx.cursor < n
    ensures Moved(f, FilterTask(f.rx.(cursor := f.rx.cursor + 1), Deliver(f.tracker, e), f.delivered + [f.rx.cursor]), n)
  {
    assert (f.delivered + [f.rx.cursor])[|f.delivered|] == f.rx.cursor;
  }

  lemma PollOnce(c: Client, p: Port, d: Daemon)
    requires TaskOk(c.task, d) && p in c.task.filters && !d.chans[c.task.filters[p].rx.chan].closed
    requires !TryRecv(d.chans[c.task.filters[p].rx.chan], c.task.filters[p].rx.cursor).0.Empty?
    ensures var f := c.task.filters[p]; var c' := PollFilterStep(c, p, d);
      p in c'.task.filters && Moved(f, c'.task.filters[p], |d.chans[f.rx.chan].sent|)
  {
    var f := c.task.filters[p];
    assert FilterPoints(f, p, d);
    var (outcome, cursor) := TryRecv(d.chans[f.rx.chan], f.rx.cursor);
    match outcome {
      case Got(e) => DeliveredMoved(f, e, |d.chans[f.rx.chan].sent|);
      case Lagged(_) => assert Oldest(d.chans[f.rx.chan]) < |d.chans[f.rx.chan].sent|;
    }
  }

  lemma NothingLeft(f: FilterTask, p: Port, d: Daemon)
    requires FilterPoints(f, p, d) && !d.chans[f.rx.chan].closed && TryRecv(d.chans[f.rx.chan], f.rx.cursor).0.Empty?
    ensures f.rx.cursor == |d.chans[f.rx.chan].sent|
  {
  }

  /** The port's filter is f further on, and has been given the entry before n. */
  ghost predicate Heard(c: Client, p: Port, f: FilterTask, n: nat) {
    p in c.task.filters && Further(f, c.task.filters[p]) && (f.rx.cursor < n ==> n - 1 in c.task.filters[p].delivered)
  }

  lemma HeardOn(c: Client, p: Port, f: FilterTask, f': FilterTask, n: nat)
    requires Moved(f, f', n) && Heard(c, p, f', n)
    ensures Heard(c, p, f, n)
  {
  }

  /** A filter of a channel that goes on gets as far as its newest entry. */
  lemma {:induction false} PollOutHears(c: Client, p: Port, d: Daemon)
    requires TaskOk(c.task, d) && p in c.task.filters && !d.chans[c.task.filters[p].rx.chan].closed
    ensures var f := c.task.filters[p]; Heard(PollOut(c, p, d), p, f, |d.chans[f.rx.chan].sent|)
    decreases |d.chans[c.task.filters[p].rx.chan].sent| - c.task.filters[p].rx.cursor
  {
    var f := c.task.filters[p];
    var ch := d.chans[f.rx.chan];
    PollFilterTaskOk(c, p, d);
    if TryRecv(ch, f.rx.cursor).0.Empty? {
      NothingLeft(f, p, d);
    } else {
      var c' := PollFilterStep(c, p, d);
      PollOnce(c, p, d);
      PollOutHears(c', p, d);
      HeardOn(PollOut(c', p, d), p, f, c'.task.filters[p], |ch.sent|);
    }
  }

  /** Polling gives no filter another receiver. */
  lemma {:induction false} PollOutKeepsChannel(c: Client, p: Port, d: Daemon)
    requires TaskOk(c.task, d)
    ensures var c' := PollOut(c, p, d);
      p in c'.task.filters ==> p in c.task.filters && c'.task.filters[p].rx.chan == c.task.filters[p].rx.chan
    decreases if p in c.task.filters then 1 + |d.chans[c.task.filters[p].rx.chan].sent| - c.task.filters[p].rx.cursor else 0
  {
    if p in c.task.filters {
      var rx := c.task.filters[p].rx;
      PollFilterTaskOk(c, p, d);
      if !TryRecv(d.chans[rx.chan], rx.cursor).0.Empty? {
        PollOutKeepsChannel(PollFilterStep(c, p, d), p, d);
      }
    }
  }

  /** The task's filter for the port knows the keywords and is no further than d. */
  ghost predicate Ready(t: Task, p: Port, keywords: seq<Bytes>, d: Daemon) {
    p in t.filters ==>
      && (forall kw :: kw in keywords ==> kw in t.filters[p].tracker.filter.keywords)
      && FilterPoints(t.filters[p], p, d)
  }

  /** The filter that the task has or will have for the port is of the current opening. */
  ghost predicate ServesOpening(t: Task, p: Port, d: Daemon) {
    p in d.open && p in t.filters && t.filters[p].rx.chan == d.open[p]
  }

  lemma NewFilterReady(t: Task, p: Port, keywords: seq<Bytes>, d: Daemon)
    requires DaemonOk(d) && p in d.open
    ensures var t' := ApplyCmd(t, AddFilter(p, keywords, NewReceiver(p, d).value)); Ready(t', p, keywords, d) && ServesOpening(t', p, d)
  {
  }

  lemma MergedFilterReady(t: Task, p: Port, existing: seq<Bytes>, added: seq<Bytes>, d: Daemon)
    requires DaemonOk(d) && TaskOk(t, d) && p in d.open
    ensures var t' := ApplyCmd(t, SetFilterKeywords(p, Merged(existing, added)));
      Ready(t', p, added, d) && (ServesOpening(t', p, d) <==> ServesOpening(t, p, d))
  {
    if p in t.filters {
      assert FilterPoints(t.filters[p], p, d);
    }
  }

  lemma CommandReady(s: Session, t: Task, p: Port, requested: seq<Bytes>, wasOpen: bool, d: Daemon)
    requires DaemonOk(d) && TaskOk(t, d) && p in d.open
    requires AddFilterRx(s, p, requested, wasOpen, d).reply == Done
    ensures |AddFilterRx(s, p, requested, wasOpen, d).commands| == 1
    ensures var t' := ApplyCmd(t, AddFilterRx(s, p, requested, wasOpen, d).commands[0]);
      Ready(t', p, NonEmpty(requested), d) && (ServesOpening(t', p, d) <==> p !in s.filterSubscriptions || ServesOpening(t, p, d))
  {
    if p in s.filterSubscriptions {
      MergedFilterReady(t, p, s.filterSubscriptions[p], NonEmpty(requested), d);
    } else {
      NewFilterReady(t, p, NonEmpty(requested), d);
    }
  }

  /** One more command under way. */
  lemma EffectiveNext(c: Client, c': Client)
    requires c.outbox == [] && |c'.outbox| == 1 && c'.task == c.task && c'.queue == c.queue
    ensures Effective(c') == ApplyCmd(Effective(c), c'.outbox[0])
  {
    assert c.queue + [] == c.queue;
    assert c'.outbox == [c'.outbox[0]];
    ApplyAllAppend(c.task, c.queue, c'.outbox);
    OneCommand(Effective(c), c'.outbox[0]);
  }

  /** What the accepted add_filter_rx adds to what is under way. */
  lemma EffectiveReady(c: Client, p: Port, requested: seq<Bytes>, wasOpen: bool, d: Daemon)
    requires DaemonOk(d) && ClientOk(c, d) && Idle(c) && p in d.open
    requires AddFilterRx(c.session, p, requested, wasOpen, d).reply == Done
    ensures var t := Effective(HandlerStep(c, Command(AddFilterCmd(p, requested, wasOpen)), d));
      Ready(t, p, NonEmpty(requested), d)
      && (ServesOpening(t, p, d) <==> p !in c.session.filterSubscriptions || ServesOpening(Effective(c), p, d))
  {
    var c' := HandlerStep(c, Command(AddFilterCmd(p, requested, wasOpen)), d);
    SettleApplies(c, d);
    CommandReady(c.session, Effective(c), p, requested, wasOpen, d);
    EffectiveNext(c, c');
  }

  lemma ArrivedOn(d: Daemon, chan: nat, timestamp: string, data: Bytes)
    requires chan < |d.chans| && !d.chans[chan].closed
    ensures var d' := SharedStep(d, Arrived(chan, timestamp, data));
      chan < |d'.chans| && |d'.chans[chan].sent| == |d.chans[chan].sent| + 1 && !d'.chans[chan].closed
  {
  }

  lemma ReadyHearsIff(c: Client, p: Port, d: Daemon, chan: nat, n: nat, keywords: seq<Bytes>)
    requires TaskOk(c.task, d) && chan < |d.chans| && !d.chans[chan].closed && |d.chans[chan].sent| == n + 1
    requires p in c.task.filters ==>
      && (forall kw :: kw in keywords ==> kw in c.task.filters[p].tracker.filter.keywords)
      && (c.task.filters[p].rx.chan == chan ==> c.task.filters[p].rx.cursor <= n)
    ensures Hears(PollOut(c, p, d), p, chan, n, keywords) <==> p in c.task.filters && c.task.filters[p].rx.chan == chan
  {
    PollOutKeepsChannel(c, p, d);
    if p in c.task.filters && c.task.filters[p].rx.chan == chan {
      PollOutHears(c, p, d);
    }
  }

  /** After an add_filter_rx that answered success, with the port open: a chunk that arrives
      is searched for the new keywords, once the task has taken its commands and polled,
      exactly when the session had no filter before or the filter that the task has or
      will have is of the current opening. */
  lemma AddFilterWorksIff(c: Client, p: Port, requested: seq<Bytes>, wasOpen: bool, d: Daemon, timestamp: string, data: Bytes)
    requires DaemonOk(d) && ClientOk(c, d) && Idle(c) && p in d.open
    requires AddFilterRx(c.session, p, requested, wasOpen, d).reply == Done
    ensures var c' := HandlerStep(c, Command(AddFilterCmd(p, requested, wasOpen)), d);
      var d' := SharedStep(d, Arrived(d.open[p], timestamp, data));
      && DaemonOk(d') && ClientOk(c', d') && ClientOk(Settle(c', d'), d')
      && (Hears(PollOut(Settle(c', d'), p, d'), p, d.open[p], |d.chans[d.open[p]].sent|, NonEmpty(requested))
          <==> p !in c.session.filterSubscriptions || ServesOpening(Effective(c), p, d))
  {
    var c' := HandlerStep(c, Command(AddFilterCmd(p, requested, wasOpen)), d);
    var d' := SharedStep(d, Arrived(d.open[p], timestamp, data));
    HandlerOk(c, Command(AddFilterCmd(p, requested, wasOpen)), d);
    SharedGrows(d, Arrived(d.open[p], timestamp, data));
    ClientOkGrows(c', d, d');
    EffectiveReady(c, p, requested, wasOpen, d);
    SettleApplies(c', d');
    ArrivedOn(d, d.open[p], timestamp, data);
    ReadyHearsIff(Settle(c', d'), p, d', d.open[p], |d.chans[d.open[p]].sent|, NonEmpty(requested));
  }

  // ---- filter_rx ----

  /** The end of the channel of the port's current opening: where a new receiver starts. */
  function Here(p: Port, d: Daemon): Receiver
    requires DaemonOk(d) && p in d.open
  {
    Receiver(d.open[p], |d.chans[d.open[p]].sent|)
  }

  /** The task's filter for the port is new, begins at the end of the current opening, and has
      the request without the empty keywords for its list. */
  ghost predicate NewFilter(t: Task, p: Port, requested: seq<Bytes>, d: Daemon)
    requires DaemonOk(d)
  {
    && p in d.open && p in t.filters && t.filters[p].rx == Here(p, d)
    && t.filters[p].delivered == [] && t.filters[p].tracker.stream == [] && t.filters[p].tracker.filter.carry == []
    && WithoutEmpty(t.filters[p].tracker.filter.keywords, requested)
  }

  /** What the accepted filter_rx sends, and what the task makes of it. */
  lemma FilterRegistered(s: Session, t: Task, p: Port, requested: seq<Bytes>, wasOpen: bool, d: Daemon)
    requires DaemonOk(d) && FilterRx(s, p, requested, wasOpen, d).reply == Done
    ensures |FilterRx(s, p, requested, wasOpen, d).commands| == 1
    ensures NewFilter(ApplyCmd(t, FilterRx(s, p, requested, wasOpen, d).commands[0]), p, requested, d)
  {
    NonEmptyIsRequest(requested);
  }

  /** After a filter_rx that answered success, once its command has been taken: whatever the port
      had before, it has a new filter for what was requested. */
  lemma FilterRxRegisters(c: Client, p: Port, requested: seq<Bytes>, wasOpen: bool, d: Daemon)
    requires DaemonOk(d) && ClientOk(c, d) && Idle(c) && FilterRx(c.session, p, requested, wasOpen, d).reply == Done
    ensures NewFilter(Effective(HandlerStep(c, Command(FilterCmd(p, requested, wasOpen)), d)), p, requested, d)
  {
    FilterRegistered(c.session, Effective(c), p, requested, wasOpen, d);
    EffectiveNext(c, HandlerStep(c, Command(FilterCmd(p, requested, wasOpen)), d));
  }

  lemma PlaceIsListed(list: seq<Bytes>, requested: seq<Bytes>, places: seq<nat>, n: nat)
    requires StandsAt(list, requested, places) && n < |requested| && requested[n] != []
    ensures requested[n] in list
  {
    var j :| 0 <= j < |places| && places[j] == n;
    assert list[j] == requested[n];
  }

  lemma RequestedIsListed(list: seq<Bytes>, requested: seq<Bytes>, kw: Bytes)
    requires WithoutEmpty(list, requested) && kw in requested && kw != []
    ensures kw in list
  {
    var places :| StandsAt(list, requested, places);
    var n: nat :| n < |requested| && requested[n] == kw;
    PlaceIsListed(list, requested, places, n);
  }

  /** So every chunk that arrives is searched for every keyword of the request that is not
      empty, once the task has taken its commands and polled. */
  lemma FilterRxWorks(c: Client, p: Port, requested: seq<Bytes>, wasOpen: bool, d: Daemon, timestamp: string, data: Bytes)
    requires DaemonOk(d) && ClientOk(c, d) && Idle(c) && FilterRx(c.session, p, requested, wasOpen, d).reply == Done
    ensures p in d.open
    ensures var c' := HandlerStep(c, Command(FilterCmd(p, requested, wasOpen)), d);
      var d' := SharedStep(d, Arrived(d.open[p], timestamp, data));
      && DaemonOk(d') && ClientOk(c', d') && ClientOk(Settle(c', d'), d')
      && Hears(PollOut(Settle(c', d'), p, d'), p, d.open[p], |d.chans[d.open[p]].sent|, NonEmpty(requested))
  {
    var c' := HandlerStep(c, Command(FilterCmd(p, requested, wasOpen)), d);
    var d' := SharedStep(d, Arrived(d.open[p], timestamp, data));
    HandlerOk(c, Command(FilterCmd(p, requested, wasOpen)), d);
    SharedGrows(d, Arrived(d.open[p], timestamp, data));
    ClientOkGrows(c', d, d');
    FilterRxRegisters(c, p, requested, wasOpen, d);
    forall kw | kw in NonEmpty(requested) ensures kw in Effective(c').filters[p].tracker.filter.keywords {
      RequestedIsListed(Effective(c').filters[p].tracker.filter.keywords, requested, kw);
    }
    SettleApplies(c', d');
    ArrivedOn(d, d.open[p], timestamp, data);
    ReadyHearsIff(Settle(c', d'), p, d', d.open[p], |d.chans[d.open[p]].sent|, NonEmpty(requested));
  }

  // ---- the condition fails in reachable states ----

  /** The port was closed and opened again elsewhere and the task has dropped its filter:
      the filter is gone. */
  lemma FilterGoneIsReachable(p: Port, kw: Bytes)
    requires kw != []
    ensures var d := OpenedTwice(p); var c := Untold(p, kw);
      && Reachable(One(d, c)) && Idle(c) && p in d.open && p in c.session.filterSubscriptions
      && p !in Effective(c).filters && !ServesOpening(Effective(c), p, d)
  {
    ReachReopened(p, kw);
    assert Pending(Untold(p, kw)) == [];
  }

  /** Or it has not polled yet: the filter is there, but of the opening that ended. */
  lemma FilterOfOldOpeningIsReachable(p: Port, kw: Bytes)
    requires kw != []
    ensures var d := OpenedTwice(p); var c := Quiet(p, map[p := [kw]], map[p := Fresh(kw)], [(p, Done)]);
      && Reachable(One(d, c)) && Idle(c) && p in d.open && p in c.session.filterSubscriptions
      && p in Effective(c).filters && !ServesOpening(Effective(c), p, d)
  {
    var c := Quiet(p, map[p := [kw]], map[p := Fresh(kw)], [(p, Done)]);
    ReachRegistered(p, kw);
    ReachClosed(p, c);
    ReachOpenedTwice(p, c);
    assert Pending(c) == [];
  }
}
