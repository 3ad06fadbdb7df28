/** All subscriptions of a client to a port over a whole run, however often it unsubscribed
    and subscribed again: what each was pushed, and what was pushed twice. */
module Subscriptions {
  import opened Sequences
  import opened Broadcast
  import opened KeywordFilter
  import opened Session
  import opened Streaming
  import opened RxStream
  import opened RepeatedPushes

  /** One subscription that the task took: its receiver began at entry `start` of channel
      `chan`, when `from` notifications had been written; `reader` is what it has done. */
  datatype Subscription = Subscription(chan: nat, start: nat, from: nat, reader: Reader<RxEntry>)

  ghost predicate InChannel(subs: seq<Subscription>) {
    forall k :: 0 <= k < |subs| ==> subs[k].reader.cursor <= |subs[k].reader.ch.sent|
  }

  /** The last subscription is over. */
  function Left(subs: seq<Subscription>): (r: seq<Subscription>)
    ensures |r| == |subs| && (InChannel(subs) ==> InChannel(r))
  {
    if subs == [] then []
    else
      var last := subs[|subs| - 1];
      subs[..|subs| - 1] + [last.(reader := last.reader.(dropped := true))]
  }

  /** What an event makes of the last subscription while it is not exchanged. */
  function Continued(subs: seq<Subscription>, d: Daemon, ev: Event, i: nat, p: Port): (r: seq<Subscription>)
    requires InChannel(subs)
    ensures InChannel(r)
  {
    if subs == [] then []
    else
      var last := subs[|subs| - 1];
      subs[..|subs| - 1] + [last.(reader := ReaderSteps(last.reader, Seen(d, ev, i, p, last.chan)))]
  }

  /** A subscription just taken. */
  function Begun(c: Client, d: Daemon, rx: Receiver): Subscription
    requires rx.chan < |d.chans|
  {
    Subscription(rx.chan, rx.cursor, |c.output|, Reader(d.chans[rx.chan], rx.cursor, [], false))
  }

  /** The command that client i's task takes with the event, when it is one for the port's
      subscription. */
  function Taken(s: System, ev: Event, i: nat, p: Port): Option<Command> {
    if ev == Take(i) && i in s.clients && s.clients[i].queue != [] && !Steady(s.clients[i], ApplyNext, p)
    then Some(s.clients[i].queue[0])
    else None
  }

  function Next(subs: seq<Subscription>, s: System, ev: Event, i: nat, p: Port): (r: seq<Subscription>)
    requires SystemOk(s) && InChannel(subs)
    ensures InChannel(r)
  {
    match Taken(s, ev, i, p)
    case None => Continued(subs, s.daemon, ev, i, p)
    case Some(cmd) =>
      assert CommandPoints(s.clients[i].queue[0], s.daemon);
      if cmd.Subscribe? then Left(subs) + [Begun(s.clients[i], s.daemon, cmd.rx)] else Left(subs)
  }

  /** The subscriptions of client i to port p in a run, oldest first. */
  function Chronicle(clients: set<nat>, evs: seq<Event>, i: nat, p: Port): (subs: seq<Subscription>)
    ensures InChannel(subs)
  {
    if evs == [] then []
    else Next(Chronicle(clients, evs[..|evs| - 1], i, p), Run(clients, evs[..|evs| - 1]), evs[|evs| - 1], i, p)
  }

  /** What the subscriptions were pushed, one after another. */
  function PushedBy(subs: seq<Subscription>): seq<(nat, nat)> {
    if subs == [] then []
    else
      var last := subs[|subs| - 1];
      PushedBy(subs[..|subs| - 1]) + OnChannel(last.chan, Delivered(last.reader.answers))
  }

  /** The receiver answered entry by entry from its start. */
  ghost predicate FromStart(sub: Subscription) {
    Gapless(sub.start, sub.reader.answers) && Reach(sub.start, sub.reader.answers) == sub.reader.cursor
  }

  ghost predicate AllFromStart(subs: seq<Subscription>) {
    forall k :: 0 <= k < |subs| ==> FromStart(subs[k])
  }

  /** The task's receiver for the port, if any, is the last subscription's, and what was
      pushed before that subscription is what the earlier ones were pushed. */
  ghost predicate Recorded(c: Client, d: Daemon, p: Port, subs: seq<Subscription>) {
    if subs == [] then p !in c.task.rxReceivers && Pushed(c.output, p) == []
    else
      var last := subs[|subs| - 1];
      && Follows(c, d, p, last.chan, last.from, last.reader)
      && Pushed(c.output[..last.from], p) == PushedBy(subs[..|subs| - 1])
  }

  ghost predicate RecordedIn(s: System, i: nat, p: Port, subs: seq<Subscription>) {
    i in s.clients && Recorded(s.clients[i], s.daemon, p, subs)
  }

  /** So everything pushed was pushed by the subscriptions. */
  lemma RecordedPushes(c: Client, d: Daemon, p: Port, subs: seq<Subscription>)
    requires Recorded(c, d, p, subs)
    ensures Pushed(c.output, p) == PushedBy(subs)
  {
    if subs != [] {
      var last := subs[|subs| - 1];
      assert c.output == c.output[..last.from] + c.output[last.from..];
      PushedAppend(c.output[..last.from], c.output[last.from..], p);
      PushedOnChannel(c.output[last.from..], p, last.chan, last.reader.ch.sent);
    }
  }

  lemma LeftPushes(subs: seq<Subscription>)
    ensures PushedBy(Left(subs)) == PushedBy(subs)
  {
    if subs != [] {
      assert Left(subs)[..|subs| - 1] == subs[..|subs| - 1];
    }
  }

  // ---- one step ----

  lemma {:induction false} NonePushed(output: seq<Output>, p: Port)
    requires forall k :: 0 <= k < |output| ==> output[k].FilterHit? || output[k].port != p
    ensures Pushed(output, p) == []
  {
    if output != [] {
      NonePushed(output[..|output| - 1], p);
    }
  }

  /** Nothing is added to the client's output that was pushed for the port. */
  ghost predicate NoneAdded(c: Client, c': Client, p: Port) {
    && IsPrefix(c.output, c'.output)
    && forall k :: |c.output| <= k < |c'.output| ==> c'.output[k].FilterHit? || c'.output[k].port != p
  }

  lemma PollNoneAdded(c: Client, d: Daemon, q: Port, p: Port)
    requires TaskOk(c.task, d) && q in c.task.rxReceivers && p !in c.task.rxReceivers
    ensures p !in PollRxStep(c, q, d).task.rxReceivers && NoneAdded(c, PollRxStep(c, q, d), p)
  {
  }

  lemma HitsNoneAdded(c: Client, d: Daemon, q: Port, p: Port)
    requires TaskOk(c.task, d) && q in c.task.filters
    ensures PollFilterStep(c, q, d).task.rxReceivers == c.task.rxReceivers && NoneAdded(c, PollFilterStep(c, q, d), p)
  {
  }

  /** Without a receiver for the port nothing is pushed for it. */
  lemma NothingAdded(c: Client, a: Action, d: Daemon, p: Port)
    requires DaemonOk(d) && ClientOk(c, d) && p !in c.task.rxReceivers && Steady(c, a, p)
    ensures p !in LocalStep(c, a, d).task.rxReceivers && NoneAdded(c, LocalStep(c, a, d), p)
  {
    match a {
      case PollRx(q) => if q in c.task.rxReceivers { PollNoneAdded(c, d, q, p); }
      case PollFilter(q) => if q in c.task.filters { HitsNoneAdded(c, d, q, p); }
      case ApplyNext => assert LocalStep(c, a, d).output == c.output;
      case Handle(_) => assert LocalStep(c, a, d).task == c.task && LocalStep(c, a, d).output == c.output;
      case FinishClose => assert LocalStep(c, a, d).task == c.task && LocalStep(c, a, d).output == c.output;
      case SendNext => assert LocalStep(c, a, d).task == c.task && LocalStep(c, a, d).output == c.output;
    }
  }

  lemma UnsubscribedStays(c: Client, a: Action, d: Daemon, p: Port)
    requires DaemonOk(d) && ClientOk(c, d) && Recorded(c, d, p, []) && Steady(c, a, p)
    ensures Recorded(LocalStep(c, a, d), d, p, [])
  {
    var c' := LocalStep(c, a, d);
    NothingAdded(c, a, d, p);
    assert c'.output == c.output + c'.output[|c.output|..];
    PushedAppend(c.output, c'.output[|c.output|..], p);
    NonePushed(c'.output[|c.output|..], p);
  }

  lemma ContinuedRecorded(s: System, ev: Event, i: nat, p: Port, subs: seq<Subscription>)
    requires SystemOk(s) && InChannel(subs) && RecordedIn(s, i, p, subs) && Taken(s, ev, i, p).None?
    ensures RecordedIn(Step(s, ev), i, p, Continued(subs, s.daemon, ev, i, p))
  {
    if subs == [] {
      if ev.Local? && ev.client == i { UnsubscribedStays(s.clients[i], ev.action, s.daemon, p); }
    } else {
      var last := subs[|subs| - 1];
      StepFollows(s, ev, i, p, last.chan, last.from, last.reader);
      LocalOutputGrowsIn(s, ev, i);
      var out, out' := s.clients[i].output, Step(s, ev).clients[i].output;
      assert out'[..last.from] == out'[..|out|][..last.from];
      assert Continued(subs, s.daemon, ev, i, p)[..|subs| - 1] == subs[..|subs| - 1];
    }
  }

  lemma LeftRecorded(s: System, i: nat, p: Port, subs: seq<Subscription>)
    requires SystemOk(s) && RecordedIn(s, i, p, subs) && NextIs(s, i, Unsubscribe(p))
    ensures RecordedIn(Step(s, Take(i)), i, p, Left(subs))
  {
    if subs != [] {
      var last := subs[|subs| - 1];
      UnsubscribeFollows(s, i, p, last.chan, last.from, last.reader);
      assert Left(subs)[..|subs| - 1] == subs[..|subs| - 1];
    }
  }

  lemma BegunFollows(s: System, i: nat, p: Port, rx: Receiver)
    requires SystemOk(s) && NextIs(s, i, Subscribe(p, rx)) && rx.chan < |s.daemon.chans|
    ensures FollowsIn(Step(s, Take(i)), i, p, rx.chan, |s.clients[i].output|, Begun(s.clients[i], s.daemon, rx).reader)
    ensures Step(s, Take(i)).clients[i].output == s.clients[i].output
  {
    StepOk(s, Take(i));
    SubscribeTaken(s, i, p, rx);
    StartFollows(Step(s, Take(i)), i, p);
  }

  lemma BegunRecorded(s: System, i: nat, p: Port, rx: Receiver, subs: seq<Subscription>)
    requires SystemOk(s) && RecordedIn(s, i, p, subs) && NextIs(s, i, Subscribe(p, rx)) && rx.chan < |s.daemon.chans|
    ensures RecordedIn(Step(s, Take(i)), i, p, Left(subs) + [Begun(s.clients[i], s.daemon, rx)])
  {
    var c := s.clients[i];
    BegunFollows(s, i, p, rx);
    RecordedPushes(c, s.daemon, p, subs);
    LeftPushes(subs);
    AddedRecorded(Step(s, Take(i)), i, p, Left(subs), Begun(c, s.daemon, rx));
  }

  lemma AddedRecorded(s: System, i: nat, p: Port, subs: seq<Subscription>, sub: Subscription)
    requires FollowsIn(s, i, p, sub.chan, sub.from, sub.reader)
    requires sub.from == |s.clients[i].output| && Pushed(s.clients[i].output, p) == PushedBy(subs)
    ensures RecordedIn(s, i, p, subs + [sub])
  {
    assert (subs + [sub])[..|subs|] == subs;
    assert s.clients[i].output[..sub.from] == s.clients[i].output;
  }

  lemma StepRecorded(s: System, ev: Event, i: nat, p: Port, subs: seq<Subscription>)
    requires SystemOk(s) && InChannel(subs) && RecordedIn(s, i, p, subs)
    ensures RecordedIn(Step(s, ev), i, p, Next(subs, s, ev, i, p))
  {
    match Taken(s, ev, i, p)
    case None => ContinuedRecorded(s, ev, i, p, subs);
    case Some(cmd) =>
      assert CommandPoints(s.clients[i].queue[0], s.daemon);
      if cmd.Subscribe? { BegunRecorded(s, i, p, cmd.rx, subs); } else { LeftRecorded(s, i, p, subs); }
  }

  lemma StepFromStart(s: System, ev: Event, i: nat, p: Port, subs: seq<Subscription>)
    requires SystemOk(s) && InChannel(subs) && AllFromStart(subs)
    ensures AllFromStart(Next(subs, s, ev, i, p))
  {
    if subs != [] {
      var last := subs[|subs| - 1];
      var seen := Seen(s.daemon, ev, i, p, last.chan);
      if seen != [] { StepKeepsGapless(last.start, last.reader, seen[0]); }
    }
  }

  lemma {:induction false} RunRecorded(clients: set<nat>, evs: seq<Event>, i: nat, p: Port)
    requires i in clients
    ensures RecordedIn(Run(clients, evs), i, p, Chronicle(clients, evs, i, p)) && AllFromStart(Chronicle(clients, evs, i, p))
  {
    if evs != [] {
      RunRecorded(clients, evs[..|evs| - 1], i, p);
      StepRecorded(Run(clients, evs[..|evs| - 1]), evs[|evs| - 1], i, p, Chronicle(clients, evs[..|evs| - 1], i, p));
      StepFromStart(Run(clients, evs[..|evs| - 1]), evs[|evs| - 1], i, p, Chronicle(clients, evs[..|evs| - 1], i, p));
    }
  }

  // ---- what is pushed twice ----

  ghost predicate Delivers(sub: Subscription, x: (nat, nat)) {
    x.0 == sub.chan && x.1 in Delivered(sub.reader.answers)
  }

  ghost predicate OneDelivers(subs: seq<Subscription>, x: (nat, nat)) {
    exists k :: 0 <= k < |subs| && Delivers(subs[k], x)
  }

  /** Two of the subscriptions were pushed the entry. */
  ghost predicate TwoDeliver(subs: seq<Subscription>, x: (nat, nat)) {
    exists j, k :: 0 <= j < k < |subs| && Delivers(subs[j], x) && Delivers(subs[k], x)
  }

  lemma TwiceAppend<T>(a: seq<T>, b: seq<T>, x: T)
    ensures Twice(a + b, x) <==> Twice(a, x) || Twice(b, x) || (x in a && x in b)
  {
    var all := a + b;
    if Twice(a, x) {
      var j, k :| 0 <= j < k < |a| && a[j] == x && a[k] == x;
      assert all[j] == x && all[k] == x;
    }
    if Twice(b, x) {
      var j, k :| 0 <= j < k < |b| && b[j] == x && b[k] == x;
      assert all[|a| + j] == x && all[|a| + k] == x;
    }
    if x in a && x in b {
      var j :| 0 <= j < |a| && a[j] == x;
      var k :| 0 <= k < |b| && b[k] == x;
      assert all[j] == x && all[|a| + k] == x;
    }
    if Twice(all, x) {
      var j, k :| 0 <= j < k < |all| && all[j] == x && all[k] == x;
      assert k < |a| ==> a[j] == x && a[k] == x;
      assert |a| <= j ==> b[j - |a|] == x && b[k - |a|] == x;
      assert j < |a| <= k ==> a[j] == x && b[k - |a|] == x;
    }
  }

  lemma OneDelivery(sub: Subscription, x: (nat, nat))
    requires FromStart(sub)
    ensures !Twice(OnChannel(sub.chan, Delivered(sub.reader.answers)), x)
    ensures x in OnChannel(sub.chan, Delivered(sub.reader.answers)) <==> Delivers(sub, x)
    ensures Delivers(sub, x) ==> sub.start <= x.1 < sub.reader.cursor
  {
    var numbers := Delivered(sub.reader.answers);
    GaplessAscending(sub.start, sub.reader.answers);
    if Delivers(sub, x) {
      var k :| 0 <= k < |numbers| && numbers[k] == x.1;
      assert OnChannel(sub.chan, numbers)[k] == x;
    }
  }

  lemma {:induction false} TwiceIsTwoDeliver(subs: seq<Subscription>, x: (nat, nat))
    requires AllFromStart(subs)
    ensures x in PushedBy(subs) <==> OneDelivers(subs, x)
    ensures Twice(PushedBy(subs), x) <==> TwoDeliver(subs, x)
  {
    if subs != [] {
      var init, last := subs[..|subs| - 1], subs[|subs| - 1];
      TwiceIsTwoDeliver(init, x);
      OneDelivery(last, x);
      TwiceAppend(PushedBy(init), OnChannel(last.chan, Delivered(last.reader.answers)), x);
      LastDelivers(subs, x);
    }
  }

  lemma LastDelivers(subs: seq<Subscription>, x: (nat, nat))
    requires subs != []
    ensures var init, last := subs[..|subs| - 1], subs[|subs| - 1];
      && (OneDelivers(subs, x) <==> OneDelivers(init, x) || Delivers(last, x))
      && (TwoDeliver(subs, x) <==> TwoDeliver(init, x) || (OneDelivers(init, x) && Delivers(last, x)))
  {
  }

  /** What client i was pushed for the port in a run. */
  function AllPushed(clients: set<nat>, evs: seq<Event>, i: nat, p: Port): seq<(nat, nat)> {
    var s := Run(clients, evs);
    if i in s.clients then Pushed(s.clients[i].output, p) else []
  }

  lemma AllPushedBy(clients: set<nat>, evs: seq<Event>, i: nat, p: Port)
    requires i in clients
    ensures AllPushed(clients, evs, i, p) == PushedBy(Chronicle(clients, evs, i, p)) && AllFromStart(Chronicle(clients, evs, i, p))
  {
    var s := Run(clients, evs);
    RunRecorded(clients, evs, i, p);
    RecordedPushes(s.clients[i], s.daemon, p, Chronicle(clients, evs, i, p));
  }

  /** The subscription was pushed entries of its own stretch only. */
  ghost predicate InStretch(sub: Subscription, x: (nat, nat)) {
    Delivers(sub, x) ==> sub.start <= x.1 < sub.reader.cursor
  }

  lemma AgainIff(subs: seq<Subscription>, x: (nat, nat))
    requires AllFromStart(subs)
    ensures Twice(PushedBy(subs), x) <==> TwoDeliver(subs, x)
    ensures forall k :: 0 <= k < |subs| ==> InStretch(subs[k], x)
  {
    TwiceIsTwoDeliver(subs, x);
    forall k | 0 <= k < |subs| ensures InStretch(subs[k], x) {
      OneDelivery(subs[k], x);
    }
  }

  /** Main theorem, for any run of the whole daemon and any number of subscriptions: a client is
      pushed an entry twice if and only if two of its subscriptions to the port were pushed
      it; nothing else reaches it, and each subscription is pushed an entry of its channel
      from its start to below where it has read, and none twice. */
  lemma PushedAgainIff(clients: set<nat>, evs: seq<Event>, i: nat, p: Port, x: (nat, nat))
    requires i in clients
    ensures var subs := Chronicle(clients, evs, i, p);
      && AllPushed(clients, evs, i, p) == PushedBy(subs)
      && (Twice(AllPushed(clients, evs, i, p), x) <==> TwoDeliver(subs, x))
      && (forall k :: 0 <= k < |subs| ==> InStretch(subs[k], x))
  {
    AllPushedBy(clients, evs, i, p);
    AgainIff(Chronicle(clients, evs, i, p), x);
  }

  // ---- when nothing is pushed twice ----

  /** The stretches that the two have read do not overlap. */
  predicate Apart(a: Subscription, b: Subscription) {
    a.chan != b.chan || Min(a.reader.cursor, b.reader.cursor) <= Max(a.start, b.start)
  }

  ghost predicate AllApart(subs: seq<Subscription>) {
    forall j, k :: 0 <= j < k < |subs| ==> Apart(subs[j], subs[k])
  }

  ghost predicate NoLag(subs: seq<Subscription>) {
    forall k :: 0 <= k < |subs| ==> Missed(subs[k].reader.answers) == 0
  }

  lemma DeliversStretch(sub: Subscription, x: (nat, nat))
    requires FromStart(sub) && Missed(sub.reader.answers) == 0
    ensures Delivers(sub, x) <==> x.0 == sub.chan && sub.start <= x.1 < sub.reader.cursor
  {
    AllDelivered(sub.start, sub.reader.answers);
  }

  /** The first entry that both can have read. */
  function Meeting(a: Subscription, b: Subscription): (nat, nat) {
    (a.chan, Max(a.start, b.start))
  }

  lemma ApartIff(a: Subscription, b: Subscription)
    requires FromStart(a) && FromStart(b) && Missed(a.reader.answers) == 0 && Missed(b.reader.answers) == 0
    ensures Apart(a, b) <==> !(Delivers(a, Meeting(a, b)) && Delivers(b, Meeting(a, b)))
    ensures Apart(a, b) ==> forall x :: !(Delivers(a, x) && Delivers(b, x))
  {
    DeliversStretch(a, Meeting(a, b));
    DeliversStretch(b, Meeting(a, b));
    forall x: (nat, nat) ensures Apart(a, b) ==> !(Delivers(a, x) && Delivers(b, x)) {
      DeliversStretch(a, x);
      DeliversStretch(b, x);
    }
  }

  lemma AllApartIff(subs: seq<Subscription>)
    requires AllFromStart(subs) && NoLag(subs)
    ensures AllApart(subs) <==> forall x: (nat, nat) :: !TwoDeliver(subs, x)
  {
    forall j, k | 0 <= j < k < |subs| ensures Apart(subs[j], subs[k]) ==> forall x :: !(Delivers(subs[j], x) && Delivers(subs[k], x)) {
      ApartIff(subs[j], subs[k]);
    }
    if !AllApart(subs) {
      var j, k :| 0 <= j < k < |subs| && !Apart(subs[j], subs[k]);
      ApartIff(subs[j], subs[k]);
      assert TwoDeliver(subs, Meeting(subs[j], subs[k]));
    }
  }

  lemma NothingIff(subs: seq<Subscription>)
    requires AllFromStart(subs) && NoLag(subs)
    ensures NothingTwice(PushedBy(subs)) <==> AllApart(subs)
  {
    forall x: (nat, nat) ensures Twice(PushedBy(subs), x) <==> TwoDeliver(subs, x) {
      AgainIff(subs, x);
    }
    AllApartIff(subs);
  }

  /** As long as no lag is reported, nothing is pushed twice in a run if and only if no two of
      the subscriptions, however many lie between them, have read overlapping stretches. */
  lemma NothingAgainIff(clients: set<nat>, evs: seq<Event>, i: nat, p: Port)
    requires i in clients && NoLag(Chronicle(clients, evs, i, p))
    ensures NothingTwice(AllPushed(clients, evs, i, p)) <==> AllApart(Chronicle(clients, evs, i, p))
  {
    var subs := Chronicle(clients, evs, i, p);
    AllPushedBy(clients, evs, i, p);
    NothingIff(subs);
  }
}
