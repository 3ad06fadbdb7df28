/** Clients do not disturb one another, and openings of a port are kept apart. */
module Separation {
  import opened Sequences
  import opened Broadcast
  import opened KeywordFilter
  import opened FilterTheorems
  import opened Session
  import opened Streaming
  import ReadBuffer

  // ---- client isolation ----

  /** The run without the steps of every client but one: what happens to the ports
      themselves (opened, removed, bytes received, channel ended) stays. */
  function WithoutOthers(evs: seq<Event>, me: nat): seq<Event> {
    if evs == [] then []
    else
      var before := WithoutOthers(evs[..|evs| - 1], me);
      var last := evs[|evs| - 1];
      if last.Local? && last.client != me then before else before + [last]
  }

  ghost predicate SameView(s: System, s': System, me: nat) {
    && SystemOk(s) && SystemOk(s')
    && s.daemon == s'.daemon
    && me in s.clients && me in s'.clients && s.clients[me] == s'.clients[me]
  }

  lemma StepSameView(s: System, s': System, ev: Event, me: nat)
    requires SameView(s, s', me)
    ensures SameView(Step(s, ev), if ev.Local? && ev.client != me then s' else Step(s', ev), me)
  {
    StepOk(s, ev);
    StepOk(s', ev);
  }

  lemma WithoutOthersLast(clients: set<nat>, evs: seq<Event>, me: nat)
    requires evs != []
    ensures var earlier := Run(clients, WithoutOthers(evs[..|evs| - 1], me)); var last := evs[|evs| - 1];
      Run(clients, WithoutOthers(evs, me)) == if last.Local? && last.client != me then earlier else Step(earlier, last)
  {
    RunNext(clients, WithoutOthers(evs[..|evs| - 1], me), evs[|evs| - 1]);
  }

  /** A client's whole state (session, task, replies, notifications) after a run is
      the same when every read, subscribe and filter step of the others is deleted. */
  lemma {:induction false} ClientIsolation(clients: set<nat>, evs: seq<Event>, me: nat)
    requires me in clients
    ensures SameView(Run(clients, evs), Run(clients, WithoutOthers(evs, me)), me)
  {
    if evs != [] {
      var before := evs[..|evs| - 1];
      ClientIsolation(clients, before, me);
      StepSameView(Run(clients, before), Run(clients, WithoutOthers(before, me)), evs[|evs| - 1], me);
      WithoutOthersLast(clients, evs, me);
    }
  }

  // ---- one opening at a time ----

  /** The bytes of the delivered entries of one channel, in order of delivery. */
  function StreamFrom(sent: seq<RxEntry>, delivered: seq<nat>): Bytes
    requires forall i :: 0 <= i < |delivered| ==> delivered[i] < |sent|
  {
    if delivered == [] then []
    else StreamFrom(sent, delivered[..|delivered| - 1]) + sent[delivered[|delivered| - 1]].data
  }

  /** A filter's bytes are those of ascending entries of one single channel, which was
      opened for its port. */
  ghost predicate OneOpening(f: FilterTask, p: Port, d: Daemon) {
    && FilterPoints(f, p, d)
    && (forall i, j :: 0 <= i < j < |f.delivered| ==> f.delivered[i] < f.delivered[j])
    && f.tracker.stream == StreamFrom(d.chans[f.rx.chan].sent, f.delivered)
    && CarryEnds(f.tracker.filter.carry, f.tracker.stream)
  }

  /** The entry of the filter's channel that it was given last brought the last byte of the
      match, and the hit has its timestamp. */
  ghost predicate Stamped(h: Hit, at: int, f: FilterTask, sent: seq<RxEntry>) {
    && f.delivered != [] && f.delivered[|f.delivered| - 1] < |sent|
    && BroughtBy(h, at, f.tracker.stream, sent[f.delivered[|f.delivered| - 1]])
  }

  /** A notified hit shows a keyword inside a piece of the stream of one opening, with the
      timestamp of the entry that completed the match. */
  ghost predicate HitFromOneOpening(out: Output, d: Daemon) {
    out.FilterHit? ==>
      && OneOpening(out.source, out.port, d)
      && ShowsKeyword(out.hit, out.offset, out.source.tracker.stream)
      && Stamped(out.hit, out.offset, out.source, d.chans[out.source.rx.chan].sent)
  }

  ghost predicate Separated(c: Client, d: Daemon) {
    && (forall p :: p in c.task.filters ==> OneOpening(c.task.filters[p], p, d))
    && (forall i :: 0 <= i < |c.output| ==> HitFromOneOpening(c.output[i], d))
  }

  lemma {:induction false} StreamFromGrows(sent: seq<RxEntry>, sent': seq<RxEntry>, delivered: seq<nat>)
    requires forall i :: 0 <= i < |delivered| ==> delivered[i] < |sent|
    requires IsPrefix(sent, sent')
    ensures StreamFrom(sent', delivered) == StreamFrom(sent, delivered)
  {
    if delivered != [] {
      StreamFromGrows(sent, sent', delivered[..|delivered| - 1]);
      assert sent'[delivered[|delivered| - 1]] == sent'[..|sent|][delivered[|delivered| - 1]];
    }
  }

  lemma OneOpeningGrows(f: FilterTask, p: Port, d: Daemon, d': Daemon)
    requires OneOpening(f, p, d) && Grows(d, d')
    ensures OneOpening(f, p, d')
  {
    StreamFromGrows(d.chans[f.rx.chan].sent, d'.chans[f.rx.chan].sent, f.delivered);
  }

  lemma SeparatedGrows(c: Client, d: Daemon, d': Daemon)
    requires Separated(c, d) && Grows(d, d')
    ensures Separated(c, d')
  {
    forall p | p in c.task.filters ensures OneOpening(c.task.filters[p], p, d') {
      OneOpeningGrows(c.task.filters[p], p, d, d');
    }
    forall i | 0 <= i < |c.output| ensures HitFromOneOpening(c.output[i], d') {
      var out := c.output[i];
      assert HitFromOneOpening(out, d);
      if out.FilterHit? {
        OneOpeningGrows(out.source, out.port, d, d');
      }
    }
  }

  lemma StreamFromAppend(sent: seq<RxEntry>, delivered: seq<nat>, next: nat)
    requires (forall i :: 0 <= i < |delivered| ==> delivered[i] < |sent|) && next < |sent|
    ensures StreamFrom(sent, delivered + [next]) == StreamFrom(sent, delivered) + sent[next].data
  {
    assert (delivered + [next])[..|delivered|] == delivered;
  }

  /** A filter after its receiver has delivered the entry at its cursor. */
  function AfterDelivery(f: FilterTask, e: RxEntry): FilterTask {
    FilterTask(f.rx.(cursor := f.rx.cursor + 1), Deliver(f.tracker, e), f.delivered + [f.rx.cursor])
  }

  lemma DeliveryFromOneOpening(f: FilterTask, p: Port, d: Daemon)
    requires OneOpening(f, p, d) && f.rx.cursor < |d.chans[f.rx.chan].sent|
    ensures OneOpening(AfterDelivery(f, d.chans[f.rx.chan].sent[f.rx.cursor]), p, d)
  {
    var sent := d.chans[f.rx.chan].sent;
    var e := sent[f.rx.cursor];
    WindowAfterChunk(f.tracker.stream, f.tracker.filter.carry, e.data, MaxCarry(f.tracker.filter.keywords));
    StreamFromAppend(sent, f.delivered, f.rx.cursor);
  }

  lemma OneHitShows(p: Port, f: FilterTask, e: RxEntry, h: Hit, d: Daemon)
    requires OneOpening(AfterDelivery(f, e), p, d) && CarryEnds(f.tracker.filter.carry, f.tracker.stream)
    requires f.rx.cursor < |d.chans[f.rx.chan].sent| && e == d.chans[f.rx.chan].sent[f.rx.cursor]
    requires h in Reported(f.tracker.filter, e)
    ensures HitFromOneOpening(FilterHit(p, AfterDelivery(f, e), h, WindowStart(f.tracker) + h.at), d)
  {
    DeliveredHitShows(f.tracker, e, h);
  }

  lemma HitsShow(p: Port, f: FilterTask, e: RxEntry, d: Daemon)
    requires OneOpening(AfterDelivery(f, e), p, d) && CarryEnds(f.tracker.filter.carry, f.tracker.stream)
    requires f.rx.cursor < |d.chans[f.rx.chan].sent| && e == d.chans[f.rx.chan].sent[f.rx.cursor]
    ensures forall out :: out in HitOutputs(p, AfterDelivery(f, e), Reported(f.tracker.filter, e), WindowStart(f.tracker)) ==>
      HitFromOneOpening(out, d)
  {
    var hits := Reported(f.tracker.filter, e);
    var w := WindowStart(f.tracker);
    forall i | 0 <= i < |hits| ensures HitFromOneOpening(HitOutputs(p, AfterDelivery(f, e), hits, w)[i], d) {
      assert hits[i] in hits;
      OneHitShows(p, f, e, hits[i], d);
    }
  }

  lemma FilterMoved(c: Client, p: Port, f: FilterTask, outs: seq<Output>, d: Daemon)
    requires Separated(c, d) && OneOpening(f, p, d)
    requires forall out :: out in outs ==> HitFromOneOpening(out, d)
    ensures Separated(c.(task := c.task.(filters := c.task.filters[p := f]), output := c.output + outs), d)
  {
    OutputsSeparated(c.output, outs, d);
  }

  lemma PollFilterSeparated(c: Client, p: Port, d: Daemon)
    requires TaskOk(c.task, d) && p in c.task.filters && Separated(c, d)
    ensures Separated(PollFilterStep(c, p, d), d)
  {
    var f := c.task.filters[p];
    var (outcome, cursor) := TryRecv(d.chans[f.rx.chan], f.rx.cursor);
    match outcome {
      case Got(e) =>
        DeliveryFromOneOpening(f, p, d);
        HitsShow(p, f, e, d);
        FilterMoved(c, p, AfterDelivery(f, e), HitOutputs(p, AfterDelivery(f, e), Reported(f.tracker.filter, e), WindowStart(f.tracker)), d);
      case Lagged(_) =>
        FilterMoved(c, p, f.(rx := f.rx.(cursor := cursor)), [], d);
        assert c.output + [] == c.output;
      case Empty =>
      case Closed =>
    }
  }

  lemma OutputsSeparated(earlier: seq<Output>, added: seq<Output>, d: Daemon)
    requires forall i :: 0 <= i < |earlier| ==> HitFromOneOpening(earlier[i], d)
    requires forall out :: out in added ==> HitFromOneOpening(out, d)
    ensures forall i :: 0 <= i < |earlier + added| ==> HitFromOneOpening((earlier + added)[i], d)
  {
  }

  lemma ApplySeparated(t: Task, cmd: Command, d: Daemon)
    requires TaskOk(t, d) && CommandPoints(cmd, d)
    requires forall p :: p in t.filters ==> OneOpening(t.filters[p], p, d)
    ensures forall p :: p in ApplyCmd(t, cmd).filters ==> OneOpening(ApplyCmd(t, cmd).filters[p], p, d)
  {
  }

  lemma LocalSeparated(c: Client, a: Action, d: Daemon)
    requires DaemonOk(d) && ClientOk(c, d) && Separated(c, d)
    ensures Separated(LocalStep(c, a, d), d)
  {
    match a {
      case PollFilter(p) => if p in c.task.filters { PollFilterSeparated(c, p, d); }
      case ApplyNext => if c.queue != [] { ApplySeparated(c.task, c.queue[0], d); }
      case Handle(_) => assert LocalStep(c, a, d).task == c.task && LocalStep(c, a, d).output == c.output;
      case PollRx(p) => if p in c.task.rxReceivers { PollRxSeparated(c, p, d); }
      case FinishClose => assert LocalStep(c, a, d).task == c.task && LocalStep(c, a, d).output == c.output;
      case SendNext => assert LocalStep(c, a, d).task == c.task && LocalStep(c, a, d).output == c.output;
    }
  }

  lemma PollRxSeparated(c: Client, p: Port, d: Daemon)
    requires TaskOk(c.task, d) && p in c.task.rxReceivers && Separated(c, d)
    ensures Separated(PollRxStep(c, p, d), d)
  {
    var c' := PollRxStep(c, p, d);
    assert c'.task.filters == c.task.filters;
    if c'.output != c.output {
      assert |c'.output| == |c.output| + 1 && c'.output[..|c.output|] == c.output && c'.output[|c.output|].RxData?;
      assert forall i :: 0 <= i < |c.output| ==> c'.output[i] == c.output[i];
    }
  }

  ghost predicate SeparatedFor(s: System, i: nat) {
    i in s.clients && Separated(s.clients[i], s.daemon)
  }

  lemma StepSeparated(s: System, ev: Event, i: nat)
    requires SystemOk(s) && SeparatedFor(s, i)
    ensures SeparatedFor(Step(s, ev), i)
  {
    if !ev.Local? {
      SharedGrows(s.daemon, ev);
      SeparatedGrows(s.clients[i], s.daemon, SharedStep(s.daemon, ev));
    } else if ev.client == i {
      LocalSeparated(s.clients[i], ev.action, s.daemon);
    }
  }

  /** Main theorem: no filter_hit, of any client in any run, combines bytes from two
      openings of a port. */
  lemma {:induction false} HitsNeverMixOpenings(clients: set<nat>, evs: seq<Event>, i: nat)
    requires i in clients
    ensures SeparatedFor(Run(clients, evs), i)
  {
    if evs != [] {
      HitsNeverMixOpenings(clients, evs[..|evs| - 1], i);
      StepSeparated(Run(clients, evs[..|evs| - 1]), evs[|evs| - 1], i);
    }
  }

  // ---- read_port after a close ----

  /** Everything the session can still hand out for the port is numbered k or later. */
  ghost predicate FreshFrom(s: Session, p: Port, k: nat, d: Daemon) {
    p in s.receivers ==>
      && p in s.buffers && Points(s.receivers[p], p, d)
      && NumberedFrom(s.buffers[p], k)
      && NumberedFrom(d.chans[s.receivers[p].chan].sent[s.receivers[p].cursor..], k)
  }

  ghost predicate NumberedFrom(entries: seq<RxEntry>, k: nat) {
    forall e :: e in entries ==> k <= e.stamp
  }

  lemma DrainNumbered(ch: Channel<RxEntry>, cursor: nat, buffer: seq<RxEntry>, k: nat)
    requires cursor <= |ch.sent| && NumberedFrom(buffer, k) && NumberedFrom(ch.sent[cursor..], k)
    ensures var (buffer', cursor') := ReadBuffer.Drain(ch, cursor, buffer);
      NumberedFrom(buffer', k) && NumberedFrom(ch.sent[cursor'..], k)
  {
    var cursor' := ReadBuffer.Drain(ch, cursor, buffer).1;
    assert ch.sent[cursor'..] == ch.sent[cursor..][cursor' - cursor..];
  }

  lemma ReadFresh(s: Session, q: Port, clear: bool, p: Port, k: nat, d: Daemon)
    requires SessionOk(s, d) && FreshFrom(s, p, k, d)
    ensures FreshFrom(ReadPort(s, q, clear, d).0, p, k, d)
    ensures q == p && ReadPort(s, q, clear, d).1.Entries? ==> NumberedFrom(ReadPort(s, q, clear, d).1.entries, k)
  {
    if q == p && p in s.receivers {
      DrainNumbered(d.chans[s.receivers[p].chan], s.receivers[p].cursor, s.buffers[p], k);
    }
  }

  lemma EffectKeepsReading(s: Session, what: Dispatch, d: Daemon)
    requires DaemonOk(d)
    ensures EffectOf(s, what, d).session.receivers == s.receivers && EffectOf(s, what, d).session.buffers == s.buffers
  {
  }

  lemma HandlerFresh(c: Client, r: Request, p: Port, k: nat, d: Daemon)
    requires DaemonOk(d) && SessionOk(c.session, d) && FreshFrom(c.session, p, k, d)
    ensures FreshFrom(HandlerStep(c, r, d).session, p, k, d)
  {
    match r
    case Ensure(_) =>
    case Read(q, clear) => ReadFresh(c.session, q, clear, p, k, d);
    case Close(_) =>
    case Command(what) => EffectKeepsReading(c.session, what, d);
  }

  lemma LocalFresh(c: Client, a: Action, p: Port, k: nat, d: Daemon)
    requires DaemonOk(d) && ClientOk(c, d) && FreshFrom(c.session, p, k, d)
    ensures FreshFrom(LocalStep(c, a, d).session, p, k, d)
  {
    if a.Handle? {
      HandlerFresh(c, a.request, p, k, d);
    }
  }

  lemma SharedFresh(s: Session, p: Port, k: nat, d: Daemon, ev: Event)
    requires DaemonOk(d) && FreshFrom(s, p, k, d) && k <= d.clock
    ensures FreshFrom(s, p, k, SharedStep(d, ev))
  {
    SharedGrows(d, ev);
    if p in s.receivers {
      var rx := s.receivers[p];
      var d' := SharedStep(d, ev);
      assert d'.chans[rx.chan].sent[rx.cursor..] == d.chans[rx.chan].sent[rx.cursor..]
             || d'.chans[rx.chan].sent[rx.cursor..] == d.chans[rx.chan].sent[rx.cursor..] + [RxEntry(d.clock, ev.timestamp, ev.data)];
    }
  }

  ghost predicate FreshClient(s: System, i: nat, p: Port, k: nat) {
    && SystemOk(s) && i in s.clients && k <= s.daemon.clock
    && FreshFrom(s.clients[i].session, p, k, s.daemon)
  }

  lemma StepFresh(s: System, ev: Event, i: nat, p: Port, k: nat)
    requires FreshClient(s, i, p, k)
    ensures FreshClient(Step(s, ev), i, p, k)
  {
    StepOk(s, ev);
    if !ev.Local? {
      SharedFresh(s.clients[i].session, p, k, s.daemon, ev);
      SharedGrows(s.daemon, ev);
    } else if ev.client == i {
      LocalFresh(s.clients[i], ev.action, p, k, s.daemon);
    }
  }

  lemma {:induction false} FreshForever(s: System, after: seq<Event>, i: nat, p: Port, k: nat)
    requires FreshClient(s, i, p, k)
    ensures FreshClient(RunFrom(s, after), i, p, k)
    decreases |after|
  {
    if after != [] {
      StepFresh(s, after[0], i, p, k);
      FreshForever(Step(s, after[0]), after[1..], i, p, k);
    }
  }

  /** After a client has closed a port, none of its reads, however the port is reopened
      and by whom, returns an entry received before that close was completed. */
  lemma NoReadFromBeforeClose(clients: set<nat>, before: seq<Event>, after: seq<Event>, i: nat, p: Port, clear: bool)
    requires i in Run(clients, before).clients
    requires Run(clients, before).clients[i].closing == Some(p) && Run(clients, before).clients[i].outbox == []
    ensures var s := Run(clients, before + [Local(i, FinishClose)] + after);
      i in s.clients && (var reply := ReadPort(s.clients[i].session, p, clear, s.daemon).1;
        reply.Entries? ==> NumberedFrom(reply.entries, Run(clients, before).daemon.clock))
  {
    var k := Run(clients, before).daemon.clock;
    var closed := before + [Local(i, FinishClose)];
    RunNext(clients, before, Local(i, FinishClose));
    RunContinues(clients, closed, after);
    FreshForever(Run(clients, closed), after, i, p, k);
    var s := Run(clients, closed + after);
    ReadFresh(s.clients[i].session, p, clear, p, k, s.daemon);
  }
}
