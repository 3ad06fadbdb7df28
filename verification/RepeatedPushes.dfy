/** Unsubscribing and subscribing again, once: exactly which entries a client is pushed twice. */
module RepeatedPushes {
  import opened Sequences
  import opened Broadcast
  import opened KeywordFilter
  import opened Session
  import opened Streaming
  import opened RxStream

  /** The task of client i takes its next command. */
  function Take(i: nat): Event {
    Local(i, ApplyNext)
  }

  ghost predicate NextIs(s: System, i: nat, cmd: Command) {
    i in s.clients && s.clients[i].queue != [] && s.clients[i].queue[0] == cmd
  }

  /** The task holds the receiver `first` for the port while `held` happens, then takes the
      Unsubscribe; `gap` happens; then it takes the Subscribe with the receiver `second`,
      and `again` happens. */
  ghost predicate Resubscribes(clients: set<nat>, before: seq<Event>, held: seq<Event>, gap: seq<Event>, again: seq<Event>,
                               i: nat, p: Port, first: Receiver, second: Receiver) {
    var left := before + held + [Take(i)];
    var joined := left + gap + [Take(i)];
    && i in clients && i in Run(clients, before).clients
    && p in Run(clients, before).clients[i].task.rxReceivers && Run(clients, before).clients[i].task.rxReceivers[p] == first
    && SteadyRun(clients, before, held, i, p) && NextIs(Run(clients, before + held), i, Unsubscribe(p))
    && SteadyRun(clients, left, gap, i, p) && NextIs(Run(clients, left + gap), i, Subscribe(p, second))
    && SteadyRun(clients, joined, again, i, p)
  }

  /** The entries pushed for a port, in order: the channel and the number of each. */
  function Pushed(output: seq<Output>, p: Port): seq<(nat, nat)> {
    if output == [] then []
    else
      var last := output[|output| - 1];
      Pushed(output[..|output| - 1], p) + (if last.RxData? && last.port == p then [(last.chan, last.index)] else [])
  }

  ghost predicate Twice<T>(s: seq<T>, x: T) {
    exists j, k :: 0 <= j < k < |s| && s[j] == x && s[k] == x
  }

  function OnChannel(chan: nat, numbers: seq<nat>): (r: seq<(nat, nat)>)
    ensures |r| == |numbers| && forall k :: 0 <= k < |r| ==> r[k] == (chan, numbers[k])
  {
    seq(|numbers|, k requires 0 <= k < |numbers| => (chan, numbers[k]))
  }

  lemma {:induction false} PushedAppend(a: seq<Output>, b: seq<Output>, p: Port)
    ensures Pushed(a + b, p) == Pushed(a, p) + Pushed(b, p)
  {
    if b == [] {
      assert a + b == a;
    } else {
      PushedAppend(a, b[..|b| - 1], p);
      assert (a + b)[..|a + b| - 1] == a + b[..|b| - 1];
    }
  }

  lemma {:induction false} PushedOnChannel(output: seq<Output>, p: Port, chan: nat, sent: seq<RxEntry>)
    requires forall k :: 0 <= k < |output| ==> Genuine(output[k], p, chan, sent)
    ensures Pushed(output, p) == OnChannel(chan, RxIndices(output, p))
  {
    if output != [] {
      PushedOnChannel(output[..|output| - 1], p, chan, sent);
      assert Genuine(output[|output| - 1], p, chan, sent);
    }
  }

  /** Ascending numbers from lo to below hi. */
  ghost predicate InOrder(numbers: seq<nat>, lo: nat, hi: nat) {
    && (forall j, k :: 0 <= j < k < |numbers| ==> numbers[j] < numbers[k])
    && (forall k :: 0 <= k < |numbers| ==> lo <= numbers[k] < hi)
  }

  /** Of two ascending lists, one after the other, what occurs twice is what both have. */
  lemma TwiceIsInBoth(a: seq<nat>, chan: nat, b: seq<nat>, chan': nat, x: (nat, nat), lo: nat, hi: nat, lo': nat, hi': nat)
    requires InOrder(a, lo, hi) && InOrder(b, lo', hi')
    ensures Twice(OnChannel(chan, a) + OnChannel(chan', b), x) <==> x.0 == chan == chan' && x.1 in a && x.1 in b
    ensures Twice(OnChannel(chan, a) + OnChannel(chan', b), x) ==> lo' <= x.1 < hi
  {
    var all := OnChannel(chan, a) + OnChannel(chan', b);
    if x.0 == chan == chan' && x.1 in a && x.1 in b {
      var j :| 0 <= j < |a| && a[j] == x.1;
      var k :| 0 <= k < |b| && b[k] == x.1;
      assert all[j] == x && all[|a| + k] == x;
    }
    if Twice(all, x) {
      var j, k :| 0 <= j < k < |all| && all[j] == x && all[k] == x;
      assert j < |a| <= k;
      assert a[j] == x.1 && b[k - |a|] == x.1;
    }
  }

  // ---- nothing in a client's output is taken back ----

  lemma LocalOutputGrows(c: Client, a: Action, d: Daemon)
    requires DaemonOk(d) && ClientOk(c, d)
    ensures IsPrefix(c.output, LocalStep(c, a, d).output)
  {
  }

  lemma {:induction false} OutputGrows(clients: set<nat>, before: seq<Event>, after: seq<Event>, i: nat)
    requires i in Run(clients, before).clients
    ensures var s := Run(clients, before); var s' := Run(clients, before + after);
      i in s'.clients && IsPrefix(s.clients[i].output, s'.clients[i].output)
  {
    if after == [] {
      assert before + after == before;
    } else {
      var s := Run(clients, before + after[..|after| - 1]);
      OutputGrows(clients, before, after[..|after| - 1], i);
      LastStep(clients, before, after);
      LocalOutputGrowsIn(s, after[|after| - 1], i);
      PrefixOn(Run(clients, before).clients[i].output, s.clients[i].output, Run(clients, before + after).clients[i].output);
    }
  }

  lemma LocalOutputGrowsIn(s: System, ev: Event, i: nat)
    requires SystemOk(s) && i in s.clients
    ensures i in Step(s, ev).clients && IsPrefix(s.clients[i].output, Step(s, ev).clients[i].output)
  {
    if ev.Local? && ev.client == i {
      LocalOutputGrows(s.clients[i], ev.action, s.daemon);
    }
  }

  lemma PrefixOn<T>(a: seq<T>, b: seq<T>, c: seq<T>)
    requires IsPrefix(a, b) && IsPrefix(b, c)
    ensures IsPrefix(a, c)
  {
    assert c[..|a|] == c[..|b|][..|a|];
  }

  // ---- the two receivers ----

  /** Taking the Unsubscribe drops the receiver where it is. */
  lemma UnsubscribeFollows(s: System, i: nat, p: Port, chan: nat, base: nat, r: Reader<RxEntry>)
    requires SystemOk(s) && FollowsIn(s, i, p, chan, base, r) && NextIs(s, i, Unsubscribe(p))
    ensures FollowsIn(Step(s, Take(i)), i, p, chan, base, r.(dropped := true))
  {
    var c := s.clients[i];
    var c' := Step(s, Take(i)).clients[i];
    assert c'.output == c.output && p !in c'.task.rxReceivers;
  }

  lemma SubscribeTaken(s: System, i: nat, p: Port, rx: Receiver)
    requires SystemOk(s) && NextIs(s, i, Subscribe(p, rx))
    ensures Holds(Step(s, Take(i)), i, p, rx) && Step(s, Take(i)).clients[i].output == s.clients[i].output
  {
  }

  lemma {:induction false} DroppedStays(start: Reader<RxEntry>, evs: seq<ReaderEvent<RxEntry>>)
    requires start.cursor <= |start.ch.sent| && start.dropped
    ensures var r := ReaderRun(start, evs); r.dropped && r.answers == start.answers && r.cursor == start.cursor
  {
    if evs != [] {
      DroppedStays(start, evs[..|evs| - 1]);
    }
  }

  ghost predicate Holds(s: System, i: nat, p: Port, rx: Receiver) {
    i in s.clients && p in s.clients[i].task.rxReceivers && s.clients[i].task.rxReceivers[p] == rx
  }

  /** The receiver that the task holds for the port after `before`, at the end of `after`. */
  function ReaderAfter(clients: set<nat>, before: seq<Event>, after: seq<Event>, i: nat, p: Port, rx: Receiver): Reader<RxEntry>
    requires Holds(Run(clients, before), i, p, rx)
  {
    ReaderRun(StartReader(Run(clients, before), i, p), SeenRun(clients, before, after, i, p, rx.chan))
  }

  lemma HeldPushes(clients: set<nat>, before: seq<Event>, held: seq<Event>, gap: seq<Event>, again: seq<Event>,
                   i: nat, p: Port, first: Receiver, second: Receiver) returns (r: Reader<RxEntry>)
    requires Resubscribes(clients, before, held, gap, again, i, p, first, second)
    ensures r.answers == ReaderAfter(clients, before, held, i, p, first).answers
    ensures FollowsIn(Run(clients, before + held + [Take(i)] + gap), i, p, first.chan, |Run(clients, before).clients[i].output|, r)
  {
    var base := |Run(clients, before).clients[i].output|;
    var left := before + held + [Take(i)];
    var earlier := ReaderAfter(clients, before, held, i, p, first);
    RunFollows(clients, before, held, i, p);
    UnsubscribeFollows(Run(clients, before + held), i, p, first.chan, base, earlier);
    RunNext(clients, before + held, Take(i));
    var dropped := earlier.(dropped := true);
    RunFollowsFrom(clients, left, gap, i, p, first.chan, base, dropped);
    DroppedStays(dropped, SeenRun(clients, left, gap, i, p, first.chan));
    r := ReaderRun(dropped, SeenRun(clients, left, gap, i, p, first.chan));
  }

  lemma AgainPushes(clients: set<nat>, middle: seq<Event>, again: seq<Event>, i: nat, p: Port, second: Receiver)
    requires i in clients && NextIs(Run(clients, middle), i, Subscribe(p, second))
    requires SteadyRun(clients, middle + [Take(i)], again, i, p)
    ensures Holds(Run(clients, middle + [Take(i)]), i, p, second)
    ensures FollowsIn(Run(clients, middle + [Take(i)] + again), i, p, second.chan, |Run(clients, middle).clients[i].output|,
                      ReaderAfter(clients, middle + [Take(i)], again, i, p, second))
  {
    var joined := middle + [Take(i)];
    SubscribeTaken(Run(clients, middle), i, p, second);
    RunNext(clients, middle, Take(i));
    RunFollows(clients, joined, again, i, p);
    SameFollows(clients, joined, again, i, p, second, |Run(clients, middle).clients[i].output|);
  }

  lemma SameFollows(clients: set<nat>, before: seq<Event>, after: seq<Event>, i: nat, p: Port, rx: Receiver, base: nat)
    requires Holds(Run(clients, before), i, p, rx) && base == |Run(clients, before).clients[i].output|
    requires FollowsSince(clients, before, after, i, p, rx.chan, base, StartReader(Run(clients, before), i, p))
    ensures FollowsIn(Run(clients, before + after), i, p, rx.chan, base, ReaderAfter(clients, before, after, i, p, rx))
  {
  }

  lemma PushedSplit(out: seq<Output>, out': seq<Output>, from: nat, p: Port, chan: nat, sent: seq<RxEntry>, chan': nat, sent': seq<RxEntry>)
    requires from <= |out| && IsPrefix(out, out')
    requires forall k :: from <= k < |out| ==> Genuine(out[k], p, chan, sent)
    requires forall k :: |out| <= k < |out'| ==> Genuine(out'[k], p, chan', sent')
    ensures Pushed(out'[from..], p) == OnChannel(chan, RxIndices(out[from..], p)) + OnChannel(chan', RxIndices(out'[|out|..], p))
  {
    assert out' == out + out'[|out|..];
    assert out'[from..] == out[from..] + out'[|out|..];
    PushedAppend(out[from..], out'[|out|..], p);
    PushedOnChannel(out[from..], p, chan, sent);
    PushedOnChannel(out'[|out|..], p, chan', sent');
  }

  /** A client's output from `from` on, when one receiver accounts for what was pushed up to
      the state s and another for what came later. */
  lemma PushedOver(s: System, s': System, i: nat, p: Port, from: nat, chan: nat, r: Reader<RxEntry>, chan': nat, r': Reader<RxEntry>)
    requires FollowsIn(s, i, p, chan, from, r) && i in s'.clients && IsPrefix(s.clients[i].output, s'.clients[i].output)
    requires FollowsIn(s', i, p, chan', |s.clients[i].output|, r')
    ensures from <= |s'.clients[i].output|
    ensures Pushed(s'.clients[i].output[from..], p) == OnChannel(chan, Delivered(r.answers)) + OnChannel(chan', Delivered(r'.answers))
  {
    PushedSplit(s.clients[i].output, s'.clients[i].output, from, p, chan, r.ch.sent, chan', r'.ch.sent);
  }

  lemma OutputGrowsOver(clients: set<nat>, before: seq<Event>, ev: Event, after: seq<Event>, i: nat)
    requires i in Run(clients, before).clients
    ensures i in Run(clients, before + [ev] + after).clients
    ensures IsPrefix(Run(clients, before).clients[i].output, Run(clients, before + [ev] + after).clients[i].output)
  {
    OutputGrows(clients, before, [ev] + after, i);
    assert before + ([ev] + after) == before + [ev] + after;
  }

  lemma ThenAgain(clients: set<nat>, middle: seq<Event>, again: seq<Event>, i: nat, p: Port, from: nat, chan: nat,
                  r: Reader<RxEntry>, second: Receiver)
    requires i in clients && FollowsIn(Run(clients, middle), i, p, chan, from, r)
    requires NextIs(Run(clients, middle), i, Subscribe(p, second)) && SteadyRun(clients, middle + [Take(i)], again, i, p)
    ensures var joined := middle + [Take(i)];
      && Holds(Run(clients, joined), i, p, second) && i in Run(clients, joined + again).clients
      && from <= |Run(clients, joined + again).clients[i].output|
      && Pushed(Run(clients, joined + again).clients[i].output[from..], p)
        == OnChannel(chan, Delivered(r.answers)) + OnChannel(second.chan, Delivered(ReaderAfter(clients, joined, again, i, p, second).answers))
  {
    var joined := middle + [Take(i)];
    AgainPushes(clients, middle, again, i, p, second);
    OutputGrowsOver(clients, middle, Take(i), again, i);
    PushedOver(Run(clients, middle), Run(clients, joined + again), i, p, from, chan, r,
               second.chan, ReaderAfter(clients, joined, again, i, p, second));
  }

  /** The whole run, up to the second subscription taken. */
  function Joined(before: seq<Event>, held: seq<Event>, gap: seq<Event>, i: nat): seq<Event> {
    before + held + [Take(i)] + gap + [Take(i)]
  }

  /** What client i was pushed for the port between two states of a run. Its output only
      grows (OutputGrows), so the first case is the only one. */
  function PushedSince(clients: set<nat>, before: seq<Event>, until: seq<Event>, i: nat, p: Port): seq<(nat, nat)> {
    var s := Run(clients, before);
    var s' := Run(clients, until);
    if i in s.clients && i in s'.clients && |s.clients[i].output| <= |s'.clients[i].output|
    then Pushed(s'.clients[i].output[|s.clients[i].output|..], p)
    else []
  }

  lemma PushedSinceIs(clients: set<nat>, before: seq<Event>, until: seq<Event>, i: nat, p: Port, pushed: seq<(nat, nat)>)
    requires i in Run(clients, before).clients && i in Run(clients, until).clients
    requires |Run(clients, before).clients[i].output| <= |Run(clients, until).clients[i].output|
    requires Pushed(Run(clients, until).clients[i].output[|Run(clients, before).clients[i].output|..], p) == pushed
    ensures PushedSince(clients, before, until, i, p) == pushed
  {
  }

  /** Everything pushed since the first state: what the one receiver delivered, then what the
      other did. */
  lemma PushedByBoth(clients: set<nat>, before: seq<Event>, held: seq<Event>, gap: seq<Event>, again: seq<Event>,
                     i: nat, p: Port, first: Receiver, second: Receiver)
    requires Resubscribes(clients, before, held, gap, again, i, p, first, second)
    ensures Holds(Run(clients, Joined(before, held, gap, i)), i, p, second)
    ensures PushedSince(clients, before, Joined(before, held, gap, i) + again, i, p)
      == OnChannel(first.chan, Delivered(ReaderAfter(clients, before, held, i, p, first).answers))
         + OnChannel(second.chan, Delivered(ReaderAfter(clients, Joined(before, held, gap, i), again, i, p, second).answers))
  {
    var joined := Joined(before, held, gap, i);
    var r := HeldPushes(clients, before, held, gap, again, i, p, first, second);
    ThenAgain(clients, before + held + [Take(i)] + gap, again, i, p, |Run(clients, before).clients[i].output|, first.chan, r, second);
    PushedSinceIs(clients, before, joined + again, i, p,
                  OnChannel(first.chan, Delivered(r.answers))
                  + OnChannel(second.chan, Delivered(ReaderAfter(clients, joined, again, i, p, second).answers)));
  }

  lemma DeliversInOrder(clients: set<nat>, before: seq<Event>, after: seq<Event>, i: nat, p: Port, rx: Receiver)
    requires Holds(Run(clients, before), i, p, rx)
    ensures var r := ReaderAfter(clients, before, after, i, p, rx); InOrder(Delivered(r.answers), rx.cursor, r.cursor)
  {
    ReceiverAccounts(Run(clients, before).daemon.chans[rx.chan], rx.cursor, SeenRun(clients, before, after, i, p, rx.chan));
  }

  lemma TwiceOfReaders(clients: set<nat>, before: seq<Event>, held: seq<Event>, joined: seq<Event>, again: seq<Event>,
                       i: nat, p: Port, first: Receiver, second: Receiver, x: (nat, nat))
    requires Holds(Run(clients, before), i, p, first) && Holds(Run(clients, joined), i, p, second)
    ensures var earlier := ReaderAfter(clients, before, held, i, p, first); var later := ReaderAfter(clients, joined, again, i, p, second);
      var pushed := OnChannel(first.chan, Delivered(earlier.answers)) + OnChannel(second.chan, Delivered(later.answers));
      && (Twice(pushed, x) <==>
            x.0 == first.chan == second.chan && x.1 in Delivered(earlier.answers) && x.1 in Delivered(later.answers))
      && (Twice(pushed, x) ==> second.cursor <= x.1 < earlier.cursor)
  {
    var earlier := ReaderAfter(clients, before, held, i, p, first);
    var later := ReaderAfter(clients, joined, again, i, p, second);
    DeliversInOrder(clients, before, held, i, p, first);
    DeliversInOrder(clients, joined, again, i, p, second);
    TwiceIsInBoth(Delivered(earlier.answers), first.chan, Delivered(later.answers), second.chan, x,
                  first.cursor, earlier.cursor, second.cursor, later.cursor);
  }

  /** Main theorem. Across an unsubscription and a new subscription, in any run of the whole
      daemon, an entry is pushed twice if and only if both receivers delivered it; such an
      entry lies between where the new receiver started and where the old one was when
      its Unsubscribe was taken. */
  lemma PushedTwiceIff(clients: set<nat>, before: seq<Event>, held: seq<Event>, gap: seq<Event>, again: seq<Event>,
                       i: nat, p: Port, first: Receiver, second: Receiver, x: (nat, nat))
    requires Resubscribes(clients, before, held, gap, again, i, p, first, second)
    ensures Holds(Run(clients, Joined(before, held, gap, i)), i, p, second)
    ensures var joined := Joined(before, held, gap, i);
      var earlier := ReaderAfter(clients, before, held, i, p, first); var later := ReaderAfter(clients, joined, again, i, p, second);
      var pushed := PushedSince(clients, before, joined + again, i, p);
      && (Twice(pushed, x) <==>
            x.0 == first.chan == second.chan && x.1 in Delivered(earlier.answers) && x.1 in Delivered(later.answers))
      && (Twice(pushed, x) ==> second.cursor <= x.1 < earlier.cursor)
  {
    PushedByBoth(clients, before, held, gap, again, i, p, first, second);
    TwiceOfReaders(clients, before, held, Joined(before, held, gap, i), again, i, p, first, second, x);
  }

  // ---- when nothing is pushed twice ----

  /** Exactly the numbers from lo to below hi. */
  ghost predicate Spans(numbers: seq<nat>, lo: nat, hi: nat) {
    forall k: nat :: k in numbers <==> lo <= k < hi
  }

  /** A receiver that is never behind delivers every entry up to its cursor. */
  lemma DeliversAll(clients: set<nat>, before: seq<Event>, after: seq<Event>, i: nat, p: Port, rx: Receiver)
    requires Holds(Run(clients, before), i, p, rx)
    requires NeverBehind(StartReader(Run(clients, before), i, p), SeenRun(clients, before, after, i, p, rx.chan))
    ensures var r := ReaderAfter(clients, before, after, i, p, rx); Spans(Delivered(r.answers), rx.cursor, r.cursor)
  {
    var ch := Run(clients, before).daemon.chans[rx.chan];
    var seen := SeenRun(clients, before, after, i, p, rx.chan);
    RunGapless(ch, rx.cursor, seen);
    NothingMissedIff(ch, rx.cursor, seen);
    AllDelivered(rx.cursor, ReaderAfter(clients, before, after, i, p, rx).answers);
  }

  /** Neither receiver is ever more than 256 entries behind and, on the same channel, the new
      one has got as far as the old one had: it is, for one thing, once it is read out. */
  ghost predicate KeptUp(clients: set<nat>, before: seq<Event>, held: seq<Event>, joined: seq<Event>, again: seq<Event>,
                         i: nat, p: Port, first: Receiver, second: Receiver) {
    && Holds(Run(clients, before), i, p, first) && Holds(Run(clients, joined), i, p, second)
    && NeverBehind(StartReader(Run(clients, before), i, p), SeenRun(clients, before, held, i, p, first.chan))
    && NeverBehind(StartReader(Run(clients, joined), i, p), SeenRun(clients, joined, again, i, p, second.chan))
    && (first.chan == second.chan ==>
          ReaderAfter(clients, before, held, i, p, first).cursor <= ReaderAfter(clients, joined, again, i, p, second).cursor)
  }

  ghost predicate NothingTwice(pushed: seq<(nat, nat)>) {
    forall x: (nat, nat) :: !Twice(pushed, x)
  }

  /** Two full stretches, one after the other, the second reaching at least as far. */
  lemma NoneTwiceIff(a: seq<nat>, chan: nat, lo: nat, hi: nat, b: seq<nat>, chan': nat, lo': nat, hi': nat)
    requires InOrder(a, lo, hi) && Spans(a, lo, hi) && InOrder(b, lo', hi') && Spans(b, lo', hi')
    requires chan == chan' ==> hi <= hi'
    ensures NothingTwice(OnChannel(chan, a) + OnChannel(chan', b)) <==> chan != chan' || hi <= Max(lo, lo')
  {
    forall x: (nat, nat) ensures Twice(OnChannel(chan, a) + OnChannel(chan', b), x)
      <==> x.0 == chan == chan' && Max(lo, lo') <= x.1 < hi
    {
      TwiceIsInBoth(a, chan, b, chan', x, lo, hi, lo', hi');
    }
    var x := (chan, Max(lo, lo') as nat);
    assert Twice(OnChannel(chan, a) + OnChannel(chan', b), x) <==> chan == chan' && Max(lo, lo') < hi;
  }

  lemma NoneTwice(clients: set<nat>, before: seq<Event>, held: seq<Event>, joined: seq<Event>, again: seq<Event>,
                  i: nat, p: Port, first: Receiver, second: Receiver, pushed: seq<(nat, nat)>)
    requires KeptUp(clients, before, held, joined, again, i, p, first, second)
    requires pushed == OnChannel(first.chan, Delivered(ReaderAfter(clients, before, held, i, p, first).answers))
      + OnChannel(second.chan, Delivered(ReaderAfter(clients, joined, again, i, p, second).answers))
    ensures var left := ReaderAfter(clients, before, held, i, p, first).cursor;
      && (NothingTwice(pushed) <==> first.chan != second.chan || left <= Max(first.cursor, second.cursor))
      && (first.chan == second.chan && first.cursor <= second.cursor ==> (NothingTwice(pushed) <==> left <= second.cursor))
  {
    var earlier := ReaderAfter(clients, before, held, i, p, first);
    var later := ReaderAfter(clients, joined, again, i, p, second);
    DeliversInOrder(clients, before, held, i, p, first);
    DeliversInOrder(clients, joined, again, i, p, second);
    DeliversAll(clients, before, held, i, p, first);
    DeliversAll(clients, joined, again, i, p, second);
    NoneTwiceIff(Delivered(earlier.answers), first.chan, first.cursor, earlier.cursor,
                 Delivered(later.answers), second.chan, second.cursor, later.cursor);
  }

  /** Then something is pushed twice if and only if, on one channel, the old receiver went on
      past where the new one started. Seen from the start of the old subscription, nothing
      is pushed twice if and only if the old receiver, when its Unsubscribe was taken, had
      read nothing that came after the new subscription was asked for. */
  lemma NothingTwiceIff(clients: set<nat>, before: seq<Event>, held: seq<Event>, gap: seq<Event>, again: seq<Event>,
                        i: nat, p: Port, first: Receiver, second: Receiver)
    requires Resubscribes(clients, before, held, gap, again, i, p, first, second)
    requires KeptUp(clients, before, held, Joined(before, held, gap, i), again, i, p, first, second)
    ensures var left := ReaderAfter(clients, before, held, i, p, first).cursor;
      var pushed := PushedSince(clients, before, Joined(before, held, gap, i) + again, i, p);
      && (NothingTwice(pushed) <==> first.chan != second.chan || left <= Max(first.cursor, second.cursor))
      && (first.chan == second.chan && first.cursor <= second.cursor ==> (NothingTwice(pushed) <==> left <= second.cursor))
  {
    PushedByBoth(clients, before, held, gap, again, i, p, first, second);
    NoneTwice(clients, before, held, Joined(before, held, gap, i), again, i, p, first, second,
              PushedSince(clients, before, Joined(before, held, gap, i) + again, i, p));
  }
}
