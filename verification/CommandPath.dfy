/** The way of a command from the session handler to the streaming task, over whole runs: each
    is taken as it was sent, in order, and a receiver that comes with it begins where the
    port's channel ended when the request was handled. */
module CommandPath {
  import opened Sequences
  import opened Session
  import opened Streaming
  import opened Agreement

  /** A command and the number of the event with which the handler sent it. */
  datatype Issued = Issued(at: nat, cmd: Command)

  /** What the session handler of client i has to send after the event, when it ran. */
  function Sent(s: System, ev: Event, i: nat): seq<Command>
    requires SystemOk(s)
  {
    if ev.Local? && ev.client == i && i in s.clients && ev.action.Handle? && Idle(s.clients[i])
    then Step(s, ev).clients[i].outbox
    else []
  }

  function TakenBy(s: System, ev: Event, i: nat): seq<Command> {
    if ev == Local(i, ApplyNext) && i in s.clients && s.clients[i].queue != [] then [s.clients[i].queue[0]] else []
  }

  function Numbered(at: nat, cmds: seq<Command>): (r: seq<Issued>)
    ensures |r| == |cmds| && forall n :: 0 <= n < |r| ==> r[n] == Issued(at, cmds[n])
  {
    seq(|cmds|, n requires 0 <= n < |cmds| => Issued(at, cmds[n]))
  }

  /** All commands that client i's handler has sent in the run. */
  function AllIssued(clients: set<nat>, evs: seq<Event>, i: nat): seq<Issued> {
    if evs == [] then []
    else
      var init := evs[..|evs| - 1];
      AllIssued(clients, init, i) + Numbered(|evs| - 1, Sent(Run(clients, init), evs[|evs| - 1], i))
  }

  /** All commands that client i's task has taken in the run. */
  function AllTaken(clients: set<nat>, evs: seq<Event>, i: nat): seq<Command> {
    if evs == [] then []
    else
      var init := evs[..|evs| - 1];
      AllTaken(clients, init, i) + TakenBy(Run(clients, init), evs[|evs| - 1], i)
  }

  function Commands(issued: seq<Issued>): (r: seq<Command>)
    ensures |r| == |issued| && forall n :: 0 <= n < |r| ==> r[n] == issued[n].cmd
  {
    seq(|issued|, n requires 0 <= n < |issued| => issued[n].cmd)
  }

  // ---- in order, none lost ----

  lemma QueuePath(c: Client, a: Action, d: Daemon)
    requires DaemonOk(d) && ClientOk(c, d) && !a.Handle?
    ensures Pending(c) == (if a.ApplyNext? && c.queue != [] then [c.queue[0]] else []) + Pending(LocalStep(c, a, d))
  {
    var c' := LocalStep(c, a, d);
    match a {
      case SendNext =>
        if c.outbox != [] && |c.queue| < COMMAND_QUEUE {
          assert c.queue + [c.outbox[0]] + c.outbox[1..] == c.queue + c.outbox;
        }
      case ApplyNext =>
        if c.queue != [] {
          assert [c.queue[0]] + (c.queue[1..] + c.outbox) == c.queue + c.outbox;
        }
      case FinishClose => assert c'.queue == c.queue && c'.outbox == c.outbox;
      case PollRx(q) => assert c'.queue == c.queue && c'.outbox == c.outbox;
      case PollFilter(q) => assert c'.queue == c.queue && c'.outbox == c.outbox;
    }
  }

  lemma HandlerPath(c: Client, r: Request, d: Daemon)
    requires DaemonOk(d) && ClientOk(c, d)
    ensures var c' := LocalStep(c, Handle(r), d); Pending(c) + (if Idle(c) then c'.outbox else []) == Pending(c')
  {
  }

  function Underway(s: System, i: nat): seq<Command> {
    if i in s.clients then Pending(s.clients[i]) else []
  }

  lemma StepPath(s: System, ev: Event, i: nat)
    requires SystemOk(s)
    ensures Underway(s, i) + Sent(s, ev, i) == TakenBy(s, ev, i) + Underway(Step(s, ev), i)
  {
    if ev.Local? && ev.client == i && i in s.clients {
      if ev.action.Handle? {
        HandlerPath(s.clients[i], ev.action.request, s.daemon);
      } else {
        QueuePath(s.clients[i], ev.action, s.daemon);
      }
    }
  }

  lemma CommandsNext(issued: seq<Issued>, at: nat, cmds: seq<Command>)
    ensures Commands(issued + Numbered(at, cmds)) == Commands(issued) + cmds
  {
  }

  /** Main theorem: in any run, the commands that a client's handler has sent are those that its
      task has taken, followed by those under way: the task takes each once, in order. */
  lemma {:induction false} TakenInOrder(clients: set<nat>, evs: seq<Event>, i: nat)
    ensures Commands(AllIssued(clients, evs, i)) == AllTaken(clients, evs, i) + Underway(Run(clients, evs), i)
  {
    if evs != [] {
      var init, last := evs[..|evs| - 1], evs[|evs| - 1];
      var s := Run(clients, init);
      TakenInOrder(clients, init, i);
      StepPath(s, last, i);
      CommandsNext(AllIssued(clients, init, i), |evs| - 1, Sent(s, last, i));
      Regroup(AllTaken(clients, init, i), Underway(s, i), Sent(s, last, i), TakenBy(s, last, i), Underway(Step(s, last), i));
    }
  }

  lemma Regroup<T>(a: seq<T>, b: seq<T>, c: seq<T>, d: seq<T>, e: seq<T>)
    requires b + c == d + e
    ensures (a + b) + c == (a + d) + e
  {
    assert (a + b) + c == a + (b + c);
    assert (a + d) + e == a + (d + e);
  }

  // ---- what was handled when the command was sent ----

  /** The request that client i's handler ran with event n of the run, and the state before. */
  ghost predicate HandledAt(clients: set<nat>, evs: seq<Event>, n: nat, i: nat, cmd: Command) {
    && n < |evs| && evs[n].Local? && evs[n].client == i && evs[n].action.Handle?
    && cmd in Sent(Run(clients, evs[..n]), evs[n], i)
  }

  lemma HandledStill(clients: set<nat>, evs: seq<Event>, n: nat, i: nat, cmd: Command)
    requires evs != [] && HandledAt(clients, evs[..|evs| - 1], n, i, cmd)
    ensures HandledAt(clients, evs, n, i, cmd)
  {
    assert evs[..|evs| - 1][..n] == evs[..n];
  }

  lemma JustHandled(clients: set<nat>, evs: seq<Event>, i: nat, n: nat)
    requires evs != [] && n < |Sent(Run(clients, evs[..|evs| - 1]), evs[|evs| - 1], i)|
    ensures HandledAt(clients, evs, |evs| - 1, i, Sent(Run(clients, evs[..|evs| - 1]), evs[|evs| - 1], i)[n])
  {
  }

  lemma {:induction false} IssuedWhenHandled(clients: set<nat>, evs: seq<Event>, i: nat, n: nat)
    requires n < |AllIssued(clients, evs, i)|
    ensures var it := AllIssued(clients, evs, i)[n]; HandledAt(clients, evs, it.at, i, it.cmd)
  {
    var init := evs[..|evs| - 1];
    var before := AllIssued(clients, init, i);
    if n < |before| {
      IssuedWhenHandled(clients, init, i, n);
      HandledStill(clients, evs, before[n].at, i, before[n].cmd);
    } else {
      JustHandled(clients, evs, i, n - |before|);
    }
  }

  ghost predicate Ascending(issued: seq<Issued>, until: nat) {
    && (forall n :: 0 <= n < |issued| ==> issued[n].at < until)
    && (forall m, n :: 0 <= m < n < |issued| ==> issued[m].at <= issued[n].at)
  }

  lemma AscendingNext(issued: seq<Issued>, at: nat, cmds: seq<Command>)
    requires Ascending(issued, at)
    ensures Ascending(issued + Numbered(at, cmds), at + 1)
  {
  }

  /** What was sent later was handled later, or with the same request. */
  lemma {:induction false} IssuedInOrder(clients: set<nat>, evs: seq<Event>, i: nat)
    ensures Ascending(AllIssued(clients, evs, i), |evs|)
  {
    if evs != [] {
      var init := evs[..|evs| - 1];
      IssuedInOrder(clients, init, i);
      AscendingNext(AllIssued(clients, init, i), |evs| - 1, Sent(Run(clients, init), evs[|evs| - 1], i));
    }
  }

  /** Where a new receiver of the port begins: at the end of its current channel. */
  ghost predicate AtEnd(rx: Receiver, p: Port, d: Daemon) {
    p in d.open && d.open[p] < |d.chans| && rx == Receiver(d.open[p], |d.chans[d.open[p]].sent|)
  }

  /** What a command sent for a request must be. */
  ghost predicate Fits(cmd: Command, r: Request, s: Session, d: Daemon) {
    match cmd
    case Subscribe(p, rx) => r.Command? && r.what.SubscribeCmd? && r.what.port == p && AtEnd(rx, p, d)
    case AddFilter(p, keywords, rx) =>
      && r.Command? && (r.what.FilterCmd? || (r.what.AddFilterCmd? && p !in s.filterSubscriptions)) && r.what.port == p
      && AtEnd(rx, p, d) && WithoutEmpty(keywords, r.what.requested)
    case SetFilterKeywords(p, keywords) =>
      && r.Command? && r.what.AddFilterCmd? && r.what.port == p && p in s.filterSubscriptions
      && IsPrefix(s.filterSubscriptions[p], keywords)
      && forall k :: k in keywords <==> k in s.filterSubscriptions[p] || (k in r.what.requested && k != [])
    case Unsubscribe(p) => p in s.rxSubscriptions && ((r.Command? && r.what == UnsubscribeCmd(p)) || r == Close(p))
    case RemoveFilter(p) => p in s.filterSubscriptions && ((r.Command? && r.what == UnfilterCmd(p)) || r == Close(p))
  }

  lemma EffectFits(s: Session, what: Dispatch, d: Daemon, cmd: Command)
    requires DaemonOk(d) && cmd in EffectOf(s, what, d).commands
    ensures Fits(cmd, Command(what), s, d)
  {
    assert EffectOf(s, what, d).commands == [cmd];
    if what.FilterCmd? || what.AddFilterCmd? {
      NonEmptyIsRequest(what.requested);
    }
  }

  lemma HandlerFits(c: Client, r: Request, d: Daemon, cmd: Command)
    requires DaemonOk(d) && SessionOk(c.session, d) && c.outbox == [] && cmd in HandlerStep(c, r, d).outbox
    ensures Fits(cmd, r, c.session, d)
  {
    if r.Command? {
      EffectFits(c.session, r.what, d, cmd);
    }
  }

  /** Every command sent in a run fits its request and the state in which that was handled. */
  lemma SentFits(clients: set<nat>, evs: seq<Event>, n: nat, i: nat, cmd: Command)
    requires HandledAt(clients, evs, n, i, cmd)
    ensures var s := Run(clients, evs[..n]);
      i in s.clients && Idle(s.clients[i]) && Fits(cmd, evs[n].action.request, s.clients[i].session, s.daemon)
  {
    var s := Run(clients, evs[..n]);
    HandlerFits(s.clients[i], evs[n].action.request, s.daemon, cmd);
  }
}
