/** The filter_hit notifications of one registered filter, in the whole daemon: what the
    client is sent is what a naive search of the delivered bytes finds. */
module FilterStream {
  import opened Sequences
  import opened Matching
  import opened Broadcast
  import opened KeywordFilter
  import opened FilterTheorems
  import opened Session
  import opened Streaming
  import opened Agreement
  import opened Separation
  import RxStream

  /** The hits notified for a port, in order: list entry and place in the delivered bytes. */
  function HitsFound(output: seq<Output>, p: Port): seq<Found> {
    if output == [] then []
    else
      var last := output[|output| - 1];
      HitsFound(output[..|output| - 1], p)
      + (if last.FilterHit? && last.port == p then [Found(last.hit.index, last.offset)] else [])
  }

  /** The step does not exchange the port's filter: it may replace its keyword list. */
  predicate FilterSteady(c: Client, a: Action, p: Port) {
    a.ApplyNext? && c.queue != [] ==> !(c.queue[0].AddFilter? || c.queue[0].RemoveFilter?) || c.queue[0].port != p
  }

  ghost predicate FilterSteadyRun(clients: set<nat>, before: seq<Event>, after: seq<Event>, i: nat, p: Port) {
    after == [] ||
    (var last := after[|after| - 1];
     var s := Run(clients, before + after[..|after| - 1]);
     FilterSteadyRun(clients, before, after[..|after| - 1], i, p)
     && (last.Local? && last.client == i && i in s.clients ==> FilterSteady(s.clients[i], last.action, p)))
  }

  /** The port's filter, or the one it had last. */
  function Latest(s: System, i: nat, p: Port, earlier: FilterTask): FilterTask {
    if i in s.clients && p in s.clients[i].task.filters then s.clients[i].task.filters[p] else earlier
  }

  /** The filter as it was last in the run. */
  function LastFilter(clients: set<nat>, before: seq<Event>, after: seq<Event>, i: nat, p: Port, first: FilterTask): FilterTask {
    if after == [] then Latest(Run(clients, before), i, p, first)
    else Latest(Run(clients, before + after), i, p, LastFilter(clients, before, after[..|after| - 1], i, p, first))
  }

  /** What has been notified since `base` is what f found beyond `found`. */
  ghost predicate Notified(c: Client, p: Port, base: nat, found: seq<Found>, f: FilterTask) {
    && (p in c.task.filters ==> c.task.filters[p] == f)
    && base <= |c.output|
    && f.tracker.found == found + HitsFound(c.output[base..], p)
  }

  ghost predicate NotifiedIn(s: System, i: nat, p: Port, base: nat, found: seq<Found>, f: FilterTask) {
    i in s.clients && Notified(s.clients[i], p, base, found, f)
  }

  // ---- one step ----

  lemma HitsFoundNext(output: seq<Output>, base: nat, out: Output, p: Port)
    requires base <= |output|
    ensures HitsFound((output + [out])[base..], p)
      == HitsFound(output[base..], p) + (if out.FilterHit? && out.port == p then [Found(out.hit.index, out.offset)] else [])
  {
    assert (output + [out])[base..] == output[base..] + [out];
    assert (output[base..] + [out])[..|output[base..]|] == output[base..];
  }

  /** The hits of one delivery are notified in the order in which they were found. */
  lemma {:induction false} HitsAdded(output: seq<Output>, base: nat, q: Port, source: FilterTask, hits: seq<Hit>, w: int, p: Port)
    requires base <= |output|
    ensures HitsFound((output + HitOutputs(q, source, hits, w))[base..], p)
      == HitsFound(output[base..], p) + (if q == p then Located(hits, w) else [])
  {
    if hits == [] {
      assert output + HitOutputs(q, source, hits, w) == output;
    } else {
      var init := hits[..|hits| - 1];
      var last := FilterHit(q, source, hits[|hits| - 1], w + hits[|hits| - 1].at);
      HitsAdded(output, base, q, source, init, w, p);
      LastHit(output, q, source, hits, w);
      HitsFoundNext(output + HitOutputs(q, source, init, w), base, last, p);
    }
  }

  lemma LastHit(output: seq<Output>, q: Port, source: FilterTask, hits: seq<Hit>, w: int)
    requires hits != []
    ensures var init := hits[..|hits| - 1]; var last := hits[|hits| - 1];
      && output + HitOutputs(q, source, hits, w) == (output + HitOutputs(q, source, init, w)) + [FilterHit(q, source, last, w + last.at)]
      && Located(hits, w) == Located(init, w) + [Found(last.index, w + last.at)]
  {
  }

  /** A filter moves on and what it found is notified. */
  lemma FilterMovedNotified(c: Client, q: Port, g: FilterTask, hits: seq<Hit>, w: int, p: Port, base: nat, found: seq<Found>, f: FilterTask)
    requires q in c.task.filters && Notified(c, p, base, found, f)
    requires g.tracker.found == c.task.filters[q].tracker.found + Located(hits, w)
    ensures var c' := c.(task := c.task.(filters := c.task.filters[q := g]), output := c.output + HitOutputs(q, g, hits, w));
      Notified(c', p, base, found, if q == p then g else f)
  {
    HitsAdded(c.output, base, q, g, hits, w, p);
    var added := if q == p then Located(hits, w) else [];
    assert found + HitsFound(c.output[base..], p) + added == found + (HitsFound(c.output[base..], p) + added);
  }

  lemma PollNotified(c: Client, d: Daemon, q: Port, p: Port, base: nat, found: seq<Found>, f: FilterTask)
    requires TaskOk(c.task, d) && q in c.task.filters && Notified(c, p, base, found, f)
    ensures var c' := PollFilterStep(c, q, d);
      Notified(c', p, base, found, if p in c'.task.filters then c'.task.filters[p] else f)
  {
    var g := c.task.filters[q];
    var (outcome, cursor) := TryRecv(d.chans[g.rx.chan], g.rx.cursor);
    match outcome {
      case Got(e) =>
        var g' := FilterTask(g.rx.(cursor := cursor), Deliver(g.tracker, e), g.delivered + [g.rx.cursor]);
        FilterMovedNotified(c, q, g', Reported(g.tracker.filter, e), WindowStart(g.tracker), p, base, found, f);
      case Lagged(_) =>
      case Empty =>
      case Closed =>
    }
  }

  lemma PollRxNotified(c: Client, d: Daemon, q: Port, p: Port, base: nat, found: seq<Found>, f: FilterTask)
    requires TaskOk(c.task, d) && q in c.task.rxReceivers && Notified(c, p, base, found, f)
    ensures Notified(PollRxStep(c, q, d), p, base, found, f)
  {
    var c' := PollRxStep(c, q, d);
    if c'.output != c.output {
      HitsFoundNext(c.output, base, c'.output[|c.output|], p);
    }
  }

  lemma ApplyNotified(c: Client, p: Port, base: nat, found: seq<Found>, f: FilterTask)
    requires c.queue != [] && Notified(c, p, base, found, f) && FilterSteady(c, ApplyNext, p)
    ensures var c' := c.(task := ApplyCmd(c.task, c.queue[0]), queue := c.queue[1..]);
      Notified(c', p, base, found, if p in c'.task.filters then c'.task.filters[p] else f)
  {
  }

  lemma LocalNotified(c: Client, a: Action, d: Daemon, p: Port, base: nat, found: seq<Found>, f: FilterTask)
    requires DaemonOk(d) && ClientOk(c, d) && Notified(c, p, base, found, f) && FilterSteady(c, a, p)
    ensures var c' := LocalStep(c, a, d);
      Notified(c', p, base, found, if p in c'.task.filters then c'.task.filters[p] else f)
  {
    match a {
      case PollFilter(q) => if q in c.task.filters { PollNotified(c, d, q, p, base, found, f); }
      case PollRx(q) => if q in c.task.rxReceivers { PollRxNotified(c, d, q, p, base, found, f); }
      case ApplyNext => if c.queue != [] { ApplyNotified(c, p, base, found, f); }
      case Handle(_) => assert LocalStep(c, a, d).task == c.task && LocalStep(c, a, d).output == c.output;
      case FinishClose => assert LocalStep(c, a, d).task == c.task && LocalStep(c, a, d).output == c.output;
      case SendNext => assert LocalStep(c, a, d).task == c.task && LocalStep(c, a, d).output == c.output;
    }
  }

  lemma StepNotified(s: System, ev: Event, i: nat, p: Port, base: nat, found: seq<Found>, f: FilterTask)
    requires SystemOk(s) && NotifiedIn(s, i, p, base, found, f)
    requires ev.Local? && ev.client == i ==> FilterSteady(s.clients[i], ev.action, p)
    ensures NotifiedIn(Step(s, ev), i, p, base, found, Latest(Step(s, ev), i, p, f))
  {
    if ev.Local? && ev.client == i {
      LocalNotified(s.clients[i], ev.action, s.daemon, p, base, found, f);
    }
  }

  // ---- a whole registration ----

  /** What the keyword list of the filter began with, and its first offsets, are kept. */
  ghost predicate Continues(f: FilterTask, keywords: seq<Bytes>) {
    && Exact(f.tracker)
    && IsPrefix(keywords, f.tracker.filter.keywords) && IsPrefix(Start(keywords).birth, f.tracker.birth)
  }

  ghost predicate ContinuesIn(s: System, i: nat, p: Port, keywords: seq<Bytes>) {
    i in s.clients && (p in s.clients[i].task.filters ==> Continues(s.clients[i].task.filters[p], keywords))
  }

  lemma DeliverContinues(f: FilterTask, e: RxEntry, keywords: seq<Bytes>, rx: Receiver, delivered: seq<nat>)
    requires Continues(f, keywords)
    ensures Continues(FilterTask(rx, Deliver(f.tracker, e), delivered), keywords)
  {
    DeliverKeepsExact(f.tracker, e);
  }

  lemma RegisterContinues(f: FilterTask, list: seq<Bytes>, keywords: seq<Bytes>)
    requires Continues(f, keywords) && IsPrefix(f.tracker.filter.keywords, list)
    ensures Continues(f.(tracker := Register(f.tracker, list)), keywords)
  {
    RegisterKeepsExact(f.tracker, list);
    assert list[..|keywords|] == list[..|f.tracker.filter.keywords|][..|keywords|];
    var births := Births(f.tracker, list);
    assert births[..|f.tracker.birth|] == f.tracker.birth;
    assert births[..|keywords|] == births[..|f.tracker.birth|][..|keywords|];
  }

  lemma PollContinues(c: Client, d: Daemon, q: Port, p: Port, keywords: seq<Bytes>)
    requires TaskOk(c.task, d) && q in c.task.filters && (p in c.task.filters ==> Continues(c.task.filters[p], keywords))
    ensures var c' := PollFilterStep(c, q, d); p in c'.task.filters ==> Continues(c'.task.filters[p], keywords)
  {
    var g := c.task.filters[q];
    var (outcome, cursor) := TryRecv(d.chans[g.rx.chan], g.rx.cursor);
    if q == p && outcome.Got? {
      DeliverContinues(g, outcome.value, keywords, g.rx.(cursor := cursor), g.delivered + [g.rx.cursor]);
    }
  }

  lemma ApplyContinues(t: Task, cmd: Command, p: Port, keywords: seq<Bytes>)
    requires Extends(t, cmd) && (p in t.filters ==> Continues(t.filters[p], keywords))
    requires !(cmd.AddFilter? || cmd.RemoveFilter?) || cmd.port != p
    ensures p in ApplyCmd(t, cmd).filters ==> Continues(ApplyCmd(t, cmd).filters[p], keywords)
  {
    if cmd.SetFilterKeywords? && cmd.port == p && p in t.filters {
      RegisterContinues(t.filters[p], cmd.keywords, keywords);
    }
  }

  lemma QueueContinues(c: Client, d: Daemon, p: Port, keywords: seq<Bytes>)
    requires DaemonOk(d) && ClientOk(c, d) && Agree(c) && FilterSteady(c, ApplyNext, p)
    requires p in c.task.filters ==> Continues(c.task.filters[p], keywords)
    ensures var t := LocalStep(c, ApplyNext, d).task; p in t.filters ==> Continues(t.filters[p], keywords)
  {
    if c.queue != [] {
      assert Pending(c)[0] == c.queue[0];
      ApplyContinues(c.task, c.queue[0], p, keywords);
    }
  }

  lemma LocalContinues(c: Client, a: Action, d: Daemon, p: Port, keywords: seq<Bytes>)
    requires DaemonOk(d) && ClientOk(c, d) && Agree(c) && FilterSteady(c, a, p)
    requires p in c.task.filters ==> Continues(c.task.filters[p], keywords)
    ensures var t := LocalStep(c, a, d).task; p in t.filters ==> Continues(t.filters[p], keywords)
  {
    match a {
      case PollFilter(q) => if q in c.task.filters { PollContinues(c, d, q, p, keywords); }
      case ApplyNext => QueueContinues(c, d, p, keywords);
      case PollRx(_) => assert LocalStep(c, a, d).task.filters == c.task.filters;
      case Handle(_) => assert LocalStep(c, a, d).task == c.task;
      case FinishClose => assert LocalStep(c, a, d).task == c.task;
      case SendNext => assert LocalStep(c, a, d).task == c.task;
    }
  }

  lemma StepContinues(s: System, ev: Event, i: nat, p: Port, keywords: seq<Bytes>)
    requires SystemOk(s) && AgreeIn(s, i) && ContinuesIn(s, i, p, keywords)
    requires ev.Local? && ev.client == i ==> FilterSteady(s.clients[i], ev.action, p)
    ensures ContinuesIn(Step(s, ev), i, p, keywords)
  {
    if ev.Local? && ev.client == i {
      LocalContinues(s.clients[i], ev.action, s.daemon, p, keywords);
    }
  }

  /** Everything there is to say about the filter and what was notified for it. */
  ghost predicate Accounted(s: System, i: nat, p: Port, base: nat, keywords: seq<Bytes>, f: FilterTask) {
    NotifiedIn(s, i, p, base, [], f) && Continues(f, keywords) && OneOpening(f, p, s.daemon)
  }

  lemma StepAccounted(s: System, ev: Event, i: nat, p: Port, base: nat, keywords: seq<Bytes>, f: FilterTask)
    requires SystemOk(s) && AgreeIn(s, i) && SeparatedFor(s, i) && Accounted(s, i, p, base, keywords, f)
    requires ev.Local? && ev.client == i ==> FilterSteady(s.clients[i], ev.action, p)
    ensures Accounted(Step(s, ev), i, p, base, keywords, Latest(Step(s, ev), i, p, f))
  {
    StepNotified(s, ev, i, p, base, [], f);
    StepContinues(s, ev, i, p, keywords);
    StepSeparated(s, ev, i);
    if !ev.Local? {
      SharedGrows(s.daemon, ev);
      OneOpeningGrows(f, p, s.daemon, SharedStep(s.daemon, ev));
    }
  }

  lemma {:induction false} RunAccounted(clients: set<nat>, before: seq<Event>, after: seq<Event>, i: nat, p: Port, base: nat,
                                        keywords: seq<Bytes>, f: FilterTask)
    requires i in clients && Accounted(Run(clients, before), i, p, base, keywords, f)
    requires FilterSteadyRun(clients, before, after, i, p)
    ensures Accounted(Run(clients, before + after), i, p, base, keywords, LastFilter(clients, before, after, i, p, f))
  {
    if after == [] {
      assert before + after == before;
    } else {
      RunAccounted(clients, before, after[..|after| - 1], i, p, base, keywords, f);
      AccountedNext(clients, before, after, i, p, base, keywords, f);
    }
  }

  lemma AccountedNext(clients: set<nat>, before: seq<Event>, after: seq<Event>, i: nat, p: Port, base: nat,
                      keywords: seq<Bytes>, f: FilterTask)
    requires i in clients && after != []
    requires var init := after[..|after| - 1];
      Accounted(Run(clients, before + init), i, p, base, keywords, LastFilter(clients, before, init, i, p, f))
    requires FilterSteadyRun(clients, before, after, i, p)
    ensures Accounted(Run(clients, before + after), i, p, base, keywords, LastFilter(clients, before, after, i, p, f))
  {
    var init := after[..|after| - 1];
    RxStream.LastStep(clients, before, after);
    AlwaysAgree(clients, before + init, i);
    HitsNeverMixOpenings(clients, before + init, i);
    StepAccounted(Run(clients, before + init), after[|after| - 1], i, p, base, keywords, LastFilter(clients, before, init, i, p, f));
  }

  lemma RegistrationApplied(c: Client, d: Daemon)
    requires DaemonOk(d) && ClientOk(c, d) && c.queue != [] && c.queue[0].AddFilter?
    ensures var c' := LocalStep(c, ApplyNext, d); var cmd := c.queue[0];
      && c'.output == c.output && cmd.port in c'.task.filters
      && c'.task.filters[cmd.port] == FilterTask(cmd.rx, Start(cmd.keywords), [])
      && Notified(c', cmd.port, |c.output|, [], c'.task.filters[cmd.port])
      && Continues(c'.task.filters[cmd.port], cmd.keywords)
  {
    StartExact(c.queue[0].keywords);
    assert c.output[|c.output|..] == [];
  }

  lemma JustRegistered(clients: set<nat>, before: seq<Event>, i: nat)
    requires i in clients && i in Run(clients, before).clients
    requires var c := Run(clients, before).clients[i]; c.queue != [] && c.queue[0].AddFilter?
    ensures var c := Run(clients, before).clients[i]; var cmd := c.queue[0]; var s := Run(clients, before + [Local(i, ApplyNext)]);
      Accounted(s, i, cmd.port, |c.output|, cmd.keywords, FilterTask(cmd.rx, Start(cmd.keywords), []))
  {
    var s := Run(clients, before);
    RunNext(clients, before, Local(i, ApplyNext));
    HitsNeverMixOpenings(clients, before + [Local(i, ApplyNext)], i);
    RegistrationApplied(s.clients[i], s.daemon);
  }

  /** What a naive search of the delivered bytes gives for a list entry: an entry of the first
      list from the start, one of a later list from its first offset on. */
  function Expected(t: Tracker, keywords: seq<Bytes>, j: nat): seq<int> {
    if j < |keywords| then Positions(t.stream, keywords[j], 0, |t.stream|)
    else if j < |t.birth| && j < |t.filter.keywords| then Positions(t.stream, t.filter.keywords[j], t.birth[j], |t.stream|)
    else []
  }

  lemma FoundAsExpected(f: FilterTask, keywords: seq<Bytes>, j: nat)
    requires Continues(f, keywords)
    ensures PositionsOf(f.tracker.found, j) == Expected(f.tracker, keywords, j)
  {
    var t := f.tracker;
    if j < |t.birth| {
      assert EntryExact(t, j);
      if j < |keywords| {
        assert t.filter.keywords[j] == t.filter.keywords[..|keywords|][j];
        assert t.birth[j] == t.birth[..|keywords|][j];
        PositionsFromStart(t.stream, keywords[j]);
      }
    }
  }

  /** The notifications for the port since `base` are what a naive search finds in the bytes
      delivered to f, which are those of ascending entries of one opening of the port. */
  ghost predicate HitsExact(s: System, i: nat, p: Port, base: nat, keywords: seq<Bytes>, f: FilterTask) {
    && i in s.clients && base <= |s.clients[i].output|
    && (p in s.clients[i].task.filters ==> s.clients[i].task.filters[p] == f)
    && OneOpening(f, p, s.daemon) && IsPrefix(keywords, f.tracker.filter.keywords)
    && forall j: nat :: PositionsOf(HitsFound(s.clients[i].output[base..], p), j) == Expected(f.tracker, keywords, j)
  }

  lemma AccountedIsExact(s: System, i: nat, p: Port, base: nat, keywords: seq<Bytes>, f: FilterTask)
    requires Accounted(s, i, p, base, keywords, f)
    ensures HitsExact(s, i, p, base, keywords, f)
  {
    var hits := HitsFound(s.clients[i].output[base..], p);
    assert [] + hits == hits;
    forall j: nat {
      FoundAsExpected(f, keywords, j);
    }
  }

  /** Main theorem, end to end, for any run of the whole daemon: from the moment a client's
      task takes an AddFilter until it takes another one or a RemoveFilter for the port, the
      filter_hit notifications for the port tell, for each list entry, exactly the places
      where a naive search of the delivered bytes finds the keyword, in order and once
      each. The bytes are those delivered to the filter this AddFilter made, as it is or, after
      the port's end has made the task drop it, as it last was. */
  lemma NotifiedHitsExact(clients: set<nat>, before: seq<Event>, after: seq<Event>, i: nat) returns (f: FilterTask)
    requires i in clients && i in Run(clients, before).clients
    requires var c := Run(clients, before).clients[i];
      c.queue != [] && c.queue[0].AddFilter? && FilterSteadyRun(clients, before + [Local(i, ApplyNext)], after, i, c.queue[0].port)
    ensures var c := Run(clients, before).clients[i];
      HitsExact(Run(clients, before + [Local(i, ApplyNext)] + after), i, c.queue[0].port, |c.output|, c.queue[0].keywords, f)
    ensures var cmd := Run(clients, before).clients[i].queue[0];
      f == LastFilter(clients, before + [Local(i, ApplyNext)], after, i, cmd.port, FilterTask(cmd.rx, Start(cmd.keywords), []))
  {
    var c := Run(clients, before).clients[i];
    var cmd := c.queue[0];
    var start := before + [Local(i, ApplyNext)];
    var first := FilterTask(cmd.rx, Start(cmd.keywords), []);
    JustRegistered(clients, before, i);
    RunAccounted(clients, start, after, i, cmd.port, |c.output|, cmd.keywords, first);
    f := LastFilter(clients, start, after, i, cmd.port, first);
    AccountedIsExact(Run(clients, start + after), i, cmd.port, |c.output|, cmd.keywords, f);
  }
}
