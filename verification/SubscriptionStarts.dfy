/** Where subscriptions and filters begin: at the entries that come in after the request. */
module SubscriptionStarts {
  import opened Sequences
  import opened Broadcast
  import opened Session
  import opened Streaming
  import opened RepeatedPushes
  import opened Subscriptions
  import opened CommandPath
  import Agreement
  import RestingSession
  import FilterStream
  import FilterCoverage

  // ---- what came in later ----

  /** Everything that the later state has beyond the earlier one was numbered later. */
  ghost predicate Later(d: Daemon, d': Daemon) {
    && Grows(d, d')
    && forall c, j :: 0 <= c < |d.chans| && |d.chans[c].sent| <= j < |d'.chans[c].sent| ==> d.clock <= d'.chans[c].sent[j].stamp
  }

  lemma LaterNow(d: Daemon)
    requires |d.owners| == |d.chans|
    ensures Later(d, d)
  {
  }

  lemma LaterNext(d: Daemon, d': Daemon, ev: Event)
    requires Later(d, d') && DaemonOk(d')
    ensures Later(d, SharedStep(d', ev))
  {
    var d'' := SharedStep(d', ev);
    SharedGrows(d', ev);
    RestingSession.GrowsOn(d, d', d'');
    forall c, j | 0 <= c < |d.chans| && |d.chans[c].sent| <= j < |d''.chans[c].sent| ensures d.clock <= d''.chans[c].sent[j].stamp {
      if j < |d'.chans[c].sent| {
        assert d''.chans[c].sent[j] == d'.chans[c].sent[j];
      }
    }
  }

  lemma {:induction false} RunLater(clients: set<nat>, evs: seq<Event>, n: nat)
    requires n <= |evs|
    ensures Later(Run(clients, evs[..n]).daemon, Run(clients, evs).daemon)
  {
    if n == |evs| {
      assert evs[..n] == evs;
      LaterNow(Run(clients, evs).daemon);
    } else {
      var init := evs[..|evs| - 1];
      assert init[..n] == evs[..n];
      RunLater(clients, init, n);
      LaterStep(Run(clients, evs[..n]).daemon, Run(clients, init), evs[|evs| - 1]);
    }
  }

  lemma LaterStep(d: Daemon, s: System, ev: Event)
    requires SystemOk(s) && Later(d, s.daemon)
    ensures Later(d, Step(s, ev).daemon)
  {
    if !ev.Local? {
      LaterNext(d, s.daemon, ev);
    }
  }

  // ---- the subscriptions taken are those asked for ----

  function Starts(subs: seq<Subscription>): (r: seq<Receiver>)
    ensures |r| == |subs| && forall k :: 0 <= k < |r| ==> r[k] == Receiver(subs[k].chan, subs[k].start)
  {
    seq(|subs|, k requires 0 <= k < |subs| => Receiver(subs[k].chan, subs[k].start))
  }

  /** The receivers of the Subscribe commands for the port. */
  function Begins(cmds: seq<Command>, p: Port): seq<Receiver> {
    if cmds == [] then []
    else
      var last := cmds[|cmds| - 1];
      Begins(cmds[..|cmds| - 1], p) + (if last.Subscribe? && last.port == p then [last.rx] else [])
  }

  lemma {:induction false} BeginsAppend(a: seq<Command>, b: seq<Command>, p: Port)
    ensures Begins(a + b, p) == Begins(a, p) + Begins(b, p)
  {
    if b == [] {
      assert a + b == a;
    } else {
      BeginsAppend(a, b[..|b| - 1], p);
      assert (a + b)[..|a + b| - 1] == a + b[..|b| - 1];
    }
  }

  lemma BeginsOne(cmd: Command, p: Port)
    ensures Begins([cmd], p) == if cmd.Subscribe? && cmd.port == p then [cmd.rx] else []
  {
    assert [cmd][..0] == [];
  }

  lemma LeftStarts(subs: seq<Subscription>)
    ensures Starts(Left(subs)) == Starts(subs)
  {
  }

  lemma ContinuedStarts(subs: seq<Subscription>, d: Daemon, ev: Event, i: nat, p: Port)
    requires InChannel(subs)
    ensures Starts(Continued(subs, d, ev, i, p)) == Starts(subs)
  {
  }

  lemma BegunStarts(subs: seq<Subscription>, c: Client, d: Daemon, rx: Receiver)
    requires rx.chan < |d.chans|
    ensures Starts(subs + [Begun(c, d, rx)]) == Starts(subs) + [rx]
  {
  }

  lemma TakenStarts(subs: seq<Subscription>, c: Client, d: Daemon, cmd: Command, p: Port)
    requires InChannel(subs) && (cmd.Subscribe? || cmd.Unsubscribe?) && cmd.port == p
    requires cmd.Subscribe? ==> cmd.rx.chan < |d.chans|
    ensures Starts(if cmd.Subscribe? then Left(subs) + [Begun(c, d, cmd.rx)] else Left(subs)) == Starts(subs) + Begins([cmd], p)
  {
    LeftStarts(subs);
    BeginsOne(cmd, p);
    if cmd.Subscribe? { BegunStarts(Left(subs), c, d, cmd.rx); }
  }

  lemma NextStarts(subs: seq<Subscription>, s: System, ev: Event, i: nat, p: Port)
    requires SystemOk(s) && InChannel(subs)
    ensures Starts(Next(subs, s, ev, i, p)) == Starts(subs) + Begins(TakenBy(s, ev, i), p)
  {
    match Taken(s, ev, i, p)
    case None =>
      ContinuedStarts(subs, s.daemon, ev, i, p);
      if TakenBy(s, ev, i) != [] { BeginsOne(s.clients[i].queue[0], p); }
    case Some(cmd) =>
      assert CommandPoints(s.clients[i].queue[0], s.daemon);
      TakenStarts(subs, s.clients[i], s.daemon, cmd, p);
  }

  lemma {:induction false} StartsAreTaken(clients: set<nat>, evs: seq<Event>, i: nat, p: Port)
    ensures Starts(Chronicle(clients, evs, i, p)) == Begins(AllTaken(clients, evs, i), p)
  {
    if evs != [] {
      var init := evs[..|evs| - 1];
      var now := TakenBy(Run(clients, init), evs[|evs| - 1], i);
      StartsAreTaken(clients, init, i, p);
      NextStarts(Chronicle(clients, init, i, p), Run(clients, init), evs[|evs| - 1], i, p);
      BeginsAppend(AllTaken(clients, init, i), now, p);
    }
  }

  /** The accepted subscribe_rx requests of client i for the port, as the commands they sent. */
  function Asked(issued: seq<Issued>, p: Port): (r: seq<Issued>)
    ensures forall k :: 0 <= k < |r| ==> r[k] in issued && r[k].cmd.Subscribe? && r[k].cmd.port == p
  {
    if issued == [] then []
    else
      var last := issued[|issued| - 1];
      Asked(issued[..|issued| - 1], p) + (if last.cmd.Subscribe? && last.cmd.port == p then [last] else [])
  }

  lemma {:induction false} AskedBegin(issued: seq<Issued>, p: Port)
    ensures |Asked(issued, p)| == |Begins(Commands(issued), p)|
    ensures forall k :: 0 <= k < |Asked(issued, p)| ==> Asked(issued, p)[k].cmd == Subscribe(p, Begins(Commands(issued), p)[k])
  {
    if issued != [] {
      var init := issued[..|issued| - 1];
      AskedBegin(init, p);
      assert Commands(issued)[..|issued| - 1] == Commands(init);
    }
  }

  /** The k-th subscription that the task took is the k-th that was asked for. */
  lemma SubscriptionAsked(clients: set<nat>, evs: seq<Event>, i: nat, p: Port, k: nat)
    requires k < |Chronicle(clients, evs, i, p)|
    ensures var asked := Asked(AllIssued(clients, evs, i), p); var sub := Chronicle(clients, evs, i, p)[k];
      k < |asked| && asked[k].cmd == Subscribe(p, Receiver(sub.chan, sub.start))
  {
    var subs := Chronicle(clients, evs, i, p);
    var taken := AllTaken(clients, evs, i);
    StartsAreTaken(clients, evs, i, p);
    TakenInOrder(clients, evs, i);
    BeginsAppend(taken, Underway(Run(clients, evs), i), p);
    AskedBegin(AllIssued(clients, evs, i), p);
    assert Starts(subs)[k] == Begins(taken, p)[k];
  }

  /** Event n of the run is a subscribe_rx of client i for the port, and the receiver is new. */
  ghost predicate SubscribedAt(clients: set<nat>, evs: seq<Event>, n: nat, i: nat, p: Port, rx: Receiver) {
    && n < |evs| && evs[n].Local? && evs[n].client == i && evs[n].action.Handle?
    && evs[n].action.request.Command? && evs[n].action.request.what.SubscribeCmd? && evs[n].action.request.what.port == p
    && AtEnd(rx, p, Run(clients, evs[..n]).daemon)
  }

  lemma AskedAt(clients: set<nat>, evs: seq<Event>, i: nat, p: Port, it: Issued)
    requires it in AllIssued(clients, evs, i) && it.cmd.Subscribe? && it.cmd.port == p
    ensures SubscribedAt(clients, evs, it.at, i, p, it.cmd.rx)
  {
    var n: nat :| n < |AllIssued(clients, evs, i)| && AllIssued(clients, evs, i)[n] == it;
    IssuedWhenHandled(clients, evs, i, n);
    SentFits(clients, evs, it.at, i, it.cmd);
  }

  // ---- what a subscription shows ----

  /** What the subscription was pushed came in after the moment d, on the opening of that moment;
      and when no lag was reported, it is all of that which the receiver has got past. */
  ghost predicate ShowsLater(sub: Subscription, p: Port, d: Daemon, d': Daemon) {
    && AtEnd(Receiver(sub.chan, sub.start), p, d)
    && sub.chan < |d'.chans| && sub.reader.cursor <= |d'.chans[sub.chan].sent|
    && (forall j :: j in Delivered(sub.reader.answers) ==>
          j < sub.reader.cursor && d.clock <= d'.chans[sub.chan].sent[j].stamp)
    && (Missed(sub.reader.answers) == 0 ==>
          forall j: nat :: j < sub.reader.cursor ==>
            (j in Delivered(sub.reader.answers) <==> d.clock <= d'.chans[sub.chan].sent[j].stamp))
  }

  lemma StretchIsLater(sub: Subscription, p: Port, d: Daemon, d': Daemon)
    requires DaemonOk(d) && Later(d, d') && FromStart(sub) && AtEnd(Receiver(sub.chan, sub.start), p, d)
    requires sub.reader.cursor <= |d'.chans[sub.chan].sent|
    ensures ShowsLater(sub, p, d, d')
  {
    var sent, sent' := d.chans[sub.chan].sent, d'.chans[sub.chan].sent;
    assert ChannelOk(d.chans[sub.chan], d.clock);
    assert forall j :: 0 <= j < |sent| ==> sent'[..|sent|][j].stamp < d.clock;
    GaplessAscending(sub.start, sub.reader.answers);
    if Missed(sub.reader.answers) == 0 {
      AllDelivered(sub.start, sub.reader.answers);
    }
  }

  /** What a subscription's receiver has seen of its channel is the beginning of the channel. */
  ghost predicate Within(subs: seq<Subscription>, d: Daemon) {
    forall k :: 0 <= k < |subs| ==> subs[k].chan < |d.chans| && IsPrefix(subs[k].reader.ch.sent, d.chans[subs[k].chan].sent)
  }

  lemma WithinGrows(subs: seq<Subscription>, d: Daemon, d': Daemon)
    requires Within(subs, d) && Grows(d, d')
    ensures Within(subs, d')
  {
    forall k | 0 <= k < |subs| ensures IsPrefix(subs[k].reader.ch.sent, d'.chans[subs[k].chan].sent) {
      PrefixOn(subs[k].reader.ch.sent, d.chans[subs[k].chan].sent, d'.chans[subs[k].chan].sent);
    }
  }

  lemma LeftWithin(subs: seq<Subscription>, d: Daemon)
    requires Within(subs, d)
    ensures Within(Left(subs), d)
  {
  }

  lemma StepGrows(s: System, ev: Event)
    requires SystemOk(s)
    ensures Grows(s.daemon, Step(s, ev).daemon)
  {
    if !ev.Local? {
      SharedGrows(s.daemon, ev);
    }
  }

  /** All but the last subscription are as they were, and the last has seen all of its channel. */
  lemma LastWithin(subs: seq<Subscription>, subs': seq<Subscription>, d: Daemon)
    requires Within(subs, d) && |subs'| == |subs| && forall k :: 0 <= k < |subs| - 1 ==> subs'[k] == subs[k]
    requires subs' != [] ==>
      var last := subs'[|subs'| - 1]; last.chan < |d.chans| && last.reader.ch == d.chans[last.chan]
    ensures Within(subs', d)
  {
  }

  lemma ContinuedLast(s: System, i: nat, p: Port, subs: seq<Subscription>)
    requires RecordedIn(s, i, p, subs) && subs != []
    ensures var last := subs[|subs| - 1]; last.chan < |s.daemon.chans| && last.reader.ch == s.daemon.chans[last.chan]
  {
  }

  lemma ContinuedOthers(subs: seq<Subscription>, d: Daemon, ev: Event, i: nat, p: Port)
    requires InChannel(subs)
    ensures var subs' := Continued(subs, d, ev, i, p); |subs'| == |subs| && forall k :: 0 <= k < |subs| - 1 ==> subs'[k] == subs[k]
  {
  }

  lemma ContinuedWithin(s: System, ev: Event, i: nat, p: Port, subs: seq<Subscription>)
    requires SystemOk(s) && InChannel(subs) && Within(subs, s.daemon)
    requires RecordedIn(Step(s, ev), i, p, Continued(subs, s.daemon, ev, i, p))
    ensures Within(Continued(subs, s.daemon, ev, i, p), Step(s, ev).daemon)
  {
    var subs' := Continued(subs, s.daemon, ev, i, p);
    var s' := Step(s, ev);
    StepGrows(s, ev);
    WithinGrows(subs, s.daemon, s'.daemon);
    ContinuedOthers(subs, s.daemon, ev, i, p);
    if subs' != [] { ContinuedLast(s', i, p, subs'); }
    LastWithin(subs, subs', s'.daemon);
  }

  lemma TakenWithin(subs: seq<Subscription>, c: Client, d: Daemon, cmd: Command)
    requires Within(subs, d) && (cmd.Subscribe? ==> cmd.rx.chan < |d.chans|)
    ensures Within(if cmd.Subscribe? then Left(subs) + [Begun(c, d, cmd.rx)] else Left(subs), d)
  {
    LeftWithin(subs, d);
  }

  lemma StepWithin(s: System, ev: Event, i: nat, p: Port, subs: seq<Subscription>)
    requires SystemOk(s) && InChannel(subs) && RecordedIn(s, i, p, subs) && Within(subs, s.daemon)
    ensures Within(Next(subs, s, ev, i, p), Step(s, ev).daemon)
  {
    match Taken(s, ev, i, p)
    case None =>
      ContinuedRecorded(s, ev, i, p, subs);
      ContinuedWithin(s, ev, i, p, subs);
    case Some(cmd) =>
      assert CommandPoints(s.clients[i].queue[0], s.daemon);
      TakenWithin(subs, s.clients[i], s.daemon, cmd);
  }

  lemma {:induction false} RunWithin(clients: set<nat>, evs: seq<Event>, i: nat, p: Port)
    requires i in clients
    ensures Within(Chronicle(clients, evs, i, p), Run(clients, evs).daemon)
  {
    if evs != [] {
      var init := evs[..|evs| - 1];
      RunRecorded(clients, init, i, p);
      RunWithin(clients, init, i, p);
      StepWithin(Run(clients, init), evs[|evs| - 1], i, p, Chronicle(clients, init, i, p));
    }
  }

  /** Main theorem, for any run and any number of subscriptions of a client to a port: the k-th that
      its task took belongs to its k-th accepted subscribe_rx. Every entry it is pushed came in
      after that request was handled, on the opening of that moment; and as long as no lag
      is reported it is pushed all of these entries, up to where its receiver reads. */
  lemma SubscriptionStartsNow(clients: set<nat>, evs: seq<Event>, i: nat, p: Port, k: nat)
    requires i in clients && k < |Chronicle(clients, evs, i, p)|
    ensures var sub := Chronicle(clients, evs, i, p)[k]; var asked := Asked(AllIssued(clients, evs, i), p);
      && k < |asked| && SubscribedAt(clients, evs, asked[k].at, i, p, Receiver(sub.chan, sub.start))
      && ShowsLater(sub, p, Run(clients, evs[..asked[k].at]).daemon, Run(clients, evs).daemon)
  {
    var sub := Chronicle(clients, evs, i, p)[k];
    var asked := Asked(AllIssued(clients, evs, i), p);
    SubscriptionAsked(clients, evs, i, p, k);
    AskedAt(clients, evs, i, p, asked[k]);
    RunLater(clients, evs, asked[k].at);
    RunRecorded(clients, evs, i, p);
    RunWithin(clients, evs, i, p);
    StretchIsLater(sub, p, Run(clients, evs[..asked[k].at]).daemon, Run(clients, evs).daemon);
  }

  // ---- in terms of the notifications ----

  /** An rx_data shows the entry of its number. */
  ghost predicate Shown(out: Output, d: Daemon) {
    out.RxData? ==> out.chan < |d.chans| && out.index < |d.chans[out.chan].sent| && out.entry == d.chans[out.chan].sent[out.index]
  }

  ghost predicate EachShown(output: seq<Output>, d: Daemon) {
    forall k :: 0 <= k < |output| ==> Shown(output[k], d)
  }

  ghost predicate AllShown(s: System, i: nat) {
    i in s.clients && EachShown(s.clients[i].output, s.daemon)
  }

  lemma PollShown(c: Client, q: Port, d: Daemon)
    requires TaskOk(c.task, d) && q in c.task.rxReceivers
    ensures var c' := PollRxStep(c, q, d);
      IsPrefix(c.output, c'.output) && forall k :: |c.output| <= k < |c'.output| ==> Shown(c'.output[k], d)
  {
  }

  lemma HitsShown(c: Client, q: Port, d: Daemon)
    requires TaskOk(c.task, d) && q in c.task.filters
    ensures var c' := PollFilterStep(c, q, d);
      IsPrefix(c.output, c'.output) && forall k :: |c.output| <= k < |c'.output| ==> Shown(c'.output[k], d)
  {
  }

  lemma LocalShown(c: Client, a: Action, d: Daemon)
    requires DaemonOk(d) && ClientOk(c, d)
    ensures var c' := LocalStep(c, a, d);
      IsPrefix(c.output, c'.output) && forall k :: |c.output| <= k < |c'.output| ==> Shown(c'.output[k], d)
  {
    match a {
      case PollRx(q) => if q in c.task.rxReceivers { PollShown(c, q, d); }
      case PollFilter(q) => if q in c.task.filters { HitsShown(c, q, d); }
      case ApplyNext => assert LocalStep(c, a, d).output == c.output;
      case Handle(_) => assert LocalStep(c, a, d).output == c.output;
      case FinishClose => assert LocalStep(c, a, d).output == c.output;
      case SendNext => assert LocalStep(c, a, d).output == c.output;
    }
  }

  lemma ShownGrows(out: Output, d: Daemon, d': Daemon)
    requires Shown(out, d) && Grows(d, d')
    ensures Shown(out, d')
  {
    if out.RxData? {
      assert d'.chans[out.chan].sent[..|d.chans[out.chan].sent|][out.index] == d'.chans[out.chan].sent[out.index];
    }
  }

  lemma SharedShown(output: seq<Output>, d: Daemon, ev: Event)
    requires DaemonOk(d) && EachShown(output, d)
    ensures EachShown(output, SharedStep(d, ev))
  {
    SharedGrows(d, ev);
    forall k | 0 <= k < |output| ensures Shown(output[k], SharedStep(d, ev)) {
      ShownGrows(output[k], d, SharedStep(d, ev));
    }
  }

  lemma MoreShown(output: seq<Output>, output': seq<Output>, d: Daemon)
    requires EachShown(output, d) && IsPrefix(output, output')
    requires forall k :: |output| <= k < |output'| ==> Shown(output'[k], d)
    ensures EachShown(output', d)
  {
    assert forall k :: 0 <= k < |output| ==> output'[..|output|][k] == output'[k];
  }

  lemma StepShown(s: System, ev: Event, i: nat)
    requires SystemOk(s) && AllShown(s, i)
    ensures AllShown(Step(s, ev), i)
  {
    if !ev.Local? {
      SharedShown(s.clients[i].output, s.daemon, ev);
    } else if ev.client == i {
      LocalShown(s.clients[i], ev.action, s.daemon);
      MoreShown(s.clients[i].output, LocalStep(s.clients[i], ev.action, s.daemon).output, s.daemon);
    }
  }

  lemma {:induction false} RunShown(clients: set<nat>, evs: seq<Event>, i: nat)
    requires i in clients
    ensures AllShown(Run(clients, evs), i)
  {
    if evs != [] {
      RunShown(clients, evs[..|evs| - 1], i);
      StepShown(Run(clients, evs[..|evs| - 1]), evs[|evs| - 1], i);
    }
  }

  lemma {:induction false} PushedMember(output: seq<Output>, p: Port, k: nat)
    requires k < |output| && output[k].RxData? && output[k].port == p
    ensures (output[k].chan, output[k].index) in Pushed(output, p)
  {
    if k < |output| - 1 {
      PushedMember(output[..|output| - 1], p, k);
    }
  }

  /** Whose subscription a notification belongs to. */
  lemma PushedForSubscription(clients: set<nat>, evs: seq<Event>, i: nat, k: nat) returns (n: nat)
    requires i in clients && i in Run(clients, evs).clients && k < |Run(clients, evs).clients[i].output|
    requires Run(clients, evs).clients[i].output[k].RxData?
    ensures var out := Run(clients, evs).clients[i].output[k]; var subs := Chronicle(clients, evs, i, out.port);
      n < |subs| && Delivers(subs[n], (out.chan, out.index))
  {
    var out := Run(clients, evs).clients[i].output[k];
    PushedMember(Run(clients, evs).clients[i].output, out.port, k);
    AllPushedBy(clients, evs, i, out.port);
    TwiceIsTwoDeliver(Chronicle(clients, evs, i, out.port), (out.chan, out.index));
    n :| n < |Chronicle(clients, evs, i, out.port)| && Delivers(Chronicle(clients, evs, i, out.port)[n], (out.chan, out.index));
  }

  /** So every rx_data that a client is ever sent shows an entry that came in after one of its
      subscribe_rx requests for the port was handled, on the opening of that moment. */
  lemma NothingOldPushed(clients: set<nat>, evs: seq<Event>, i: nat, k: nat) returns (m: nat, rx: Receiver)
    requires i in clients && i in Run(clients, evs).clients && k < |Run(clients, evs).clients[i].output|
    requires Run(clients, evs).clients[i].output[k].RxData?
    ensures var out := Run(clients, evs).clients[i].output[k];
      SubscribedAt(clients, evs, m, i, out.port, rx) && rx.chan == out.chan
      && Run(clients, evs[..m]).daemon.clock <= out.entry.stamp
  {
    var out := Run(clients, evs).clients[i].output[k];
    var n := PushedForSubscription(clients, evs, i, k);
    var sub := Chronicle(clients, evs, i, out.port)[n];
    SubscriptionStartsNow(clients, evs, i, out.port, n);
    RunShown(clients, evs, i);
    m := Asked(AllIssued(clients, evs, i), out.port)[n].at;
    rx := Receiver(sub.chan, sub.start);
  }

  // ---- filters ----

  /** The AddFilter that client i's task takes next was sent by a filter_rx, or by an add_filter_rx
      of a session without a filter; its receiver begins at the end of the channel of that
      moment, and its list is the request without the empty keywords. */
  lemma FilterStartsNow(clients: set<nat>, before: seq<Event>, i: nat, cmd: Command) returns (m: nat)
    requires FilterCoverage.Registers(Run(clients, before), i, cmd)
    ensures HandledAt(clients, before, m, i, cmd)
    ensures var s := Run(clients, before[..m]);
      && i in s.clients && Fits(cmd, before[m].action.request, s.clients[i].session, s.daemon)
      && Later(s.daemon, Run(clients, before).daemon)
  {
    var c := Run(clients, before).clients[i];
    var n := |AllTaken(clients, before, i)|;
    TakenInOrder(clients, before, i);
    assert Agreement.Pending(c)[0] == cmd;
    assert Commands(AllIssued(clients, before, i))[n] == cmd;
    IssuedWhenHandled(clients, before, i, n);
    m := AllIssued(clients, before, i)[n].at;
    SentFits(clients, before, m, i, cmd);
    RunLater(clients, before, m);
  }

  /** Main theorem: from the handling of an accepted filter_rx (or a first add_filter_rx), for any
      run: as long as the task never polls the filter with more than 256 unread, the
      filter_hit notifications are, for every keyword of the request that is not empty, those
      of a naive search of all bytes that have come in since, up to where the filter reads. */
  lemma HitsSinceRequest(clients: set<nat>, before: seq<Event>, after: seq<Event>, i: nat, cmd: Command)
    returns (m: nat, f: FilterTask)
    requires i in clients && FilterCoverage.Registers(Run(clients, before), i, cmd)
    requires FilterStream.FilterSteadyRun(clients, before + [Take(i)], after, i, cmd.port)
    ensures HandledAt(clients, before, m, i, cmd)
    ensures var s := Run(clients, before[..m]);
      i in s.clients && Fits(cmd, before[m].action.request, s.clients[i].session, s.daemon)
    ensures var start := before + [Take(i)];
      FilterCoverage.Covers(Run(clients, start), Run(clients, start + after), i, cmd, |Run(clients, before).clients[i].output|,
                            FilterCoverage.FilterSeenRun(clients, start, after, i, cmd.port, cmd.rx.chan), f)
  {
    m := FilterStartsNow(clients, before, i, cmd);
    f := FilterCoverage.HitsCoverChannel(clients, before, after, i, cmd);
  }
}
