/** The session and its streaming task agree: in every reachable state, the commands
    still under way make the task's maps match the session's. */
module Agreement {
  import opened Sequences
  import opened Broadcast
  import opened KeywordFilter
  import opened FilterTheorems
  import opened Session
  import opened Streaming

  function Keywords(f: FilterTask): seq<Bytes> {
    f.tracker.filter.keywords
  }

  /** t has no more receivers and filters than u, with the same keywords on shared ports. */
  ghost predicate Below(t: Task, u: Task) {
    && t.rxReceivers.Keys <= u.rxReceivers.Keys
    && t.filters.Keys <= u.filters.Keys
    && forall p :: p in t.filters ==> Keywords(t.filters[p]) == Keywords(u.filters[p])
  }

  /** A SetFilterKeywords only adds to the list the task has at that point. */
  ghost predicate Extends(t: Task, cmd: Command) {
    cmd.SetFilterKeywords? && cmd.port in t.filters ==> IsPrefix(Keywords(t.filters[cmd.port]), cmd.keywords)
  }

  ghost predicate AllExtend(t: Task, cmds: seq<Command>)
    decreases |cmds|
  {
    cmds == [] || (Extends(t, cmds[0]) && AllExtend(ApplyCmd(t, cmds[0]), cmds[1..]))
  }

  lemma ApplyBelow(t: Task, u: Task, cmd: Command)
    requires Below(t, u)
    ensures Below(ApplyCmd(t, cmd), ApplyCmd(u, cmd))
    ensures Extends(u, cmd) ==> Extends(t, cmd)
  {
  }

  lemma {:induction false} ApplyAllBelow(t: Task, u: Task, cmds: seq<Command>)
    requires Below(t, u)
    ensures Below(ApplyAll(t, cmds), ApplyAll(u, cmds))
    ensures AllExtend(u, cmds) ==> AllExtend(t, cmds)
    decreases |cmds|
  {
    if cmds != [] {
      ApplyBelow(t, u, cmds[0]);
      ApplyAllBelow(ApplyCmd(t, cmds[0]), ApplyCmd(u, cmds[0]), cmds[1..]);
    }
  }

  lemma {:induction false} ApplyAllAppend(t: Task, cmds: seq<Command>, more: seq<Command>)
    ensures ApplyAll(t, cmds + more) == ApplyAll(ApplyAll(t, cmds), more)
    ensures AllExtend(t, cmds + more) <==> AllExtend(t, cmds) && AllExtend(ApplyAll(t, cmds), more)
    decreases |cmds|
  {
    if cmds == [] {
      assert cmds + more == more;
    } else {
      assert (cmds + more)[1..] == cmds[1..] + more;
      ApplyAllAppend(ApplyCmd(t, cmds[0]), cmds[1..], more);
    }
  }

  function Pending(c: Client): seq<Command> {
    c.queue + c.outbox
  }

  /** The task once everything under way has been applied. */
  function Effective(c: Client): Task {
    ApplyAll(c.task, Pending(c))
  }

  function ClosingPorts(c: Client): set<Port> {
    if c.closing.Some? then {c.closing.value} else {}
  }

  /** Session s matches task t, apart from ports a close is about to forget. */
  ghost predicate Matches(s: Session, t: Task, forgetting: set<Port>, exact: bool) {
    && t.rxReceivers.Keys <= s.rxSubscriptions - forgetting
    && t.filters.Keys <= s.filterSubscriptions.Keys - forgetting
    && (forall p :: p in t.filters ==> Keywords(t.filters[p]) == s.filterSubscriptions[p])
    && (exact ==> t.rxReceivers.Keys == s.rxSubscriptions - forgetting)
    && (exact ==> t.filters.Keys == s.filterSubscriptions.Keys - forgetting)
  }

  /** The agreement: inclusion always, with equal keyword lists on shared ports, and
      equality as long as no receiver of the task has answered `Closed`. */
  ghost predicate Agree(c: Client) {
    Matches(c.session, Effective(c), ClosingPorts(c), !c.sawClosed) && AllExtend(c.task, Pending(c))
  }

  lemma OneCommand(t: Task, cmd: Command)
    ensures ApplyAll(t, [cmd]) == ApplyCmd(t, cmd)
    ensures AllExtend(t, [cmd]) <==> Extends(t, cmd)
  {
    assert [cmd][1..] == [];
  }

  /** What a command sends keeps session and task matched. */
  lemma EffectMatches(s: Session, t: Task, exact: bool, what: Dispatch, d: Daemon)
    requires DaemonOk(d) && Matches(s, t, {}, exact)
    ensures var effect := EffectOf(s, what, d);
      Matches(effect.session, ApplyAll(t, effect.commands), {}, exact) && AllExtend(t, effect.commands)
  {
    var effect := EffectOf(s, what, d);
    if effect.commands != [] {
      var cmd := effect.commands[0];
      assert effect.commands == [cmd];
      OneCommand(t, cmd);
      CommandMatches(s, t, exact, what, d, cmd);
    }
  }

  lemma CommandMatches(s: Session, t: Task, exact: bool, what: Dispatch, d: Daemon, cmd: Command)
    requires DaemonOk(d) && Matches(s, t, {}, exact) && EffectOf(s, what, d).commands == [cmd]
    ensures Matches(EffectOf(s, what, d).session, ApplyCmd(t, cmd), {}, exact) && Extends(t, cmd)
  {
    assert EffectOf(s, what, d).commands[0] == cmd;
  }

  lemma CloseMatches(s: Session, t: Task, p: Port, exact: bool)
    requires Matches(s, t, {}, exact)
    ensures Matches(s, ApplyAll(t, CloseCommands(s, p)), {p}, exact)
    ensures AllExtend(t, CloseCommands(s, p))
  {
    var cmds := CloseCommands(s, p);
    if |cmds| >= 1 {
      assert ApplyAll(t, cmds) == ApplyAll(ApplyCmd(t, cmds[0]), cmds[1..]);
      if |cmds| == 2 {
        assert cmds[1..] == [cmds[1]];
        assert ApplyAll(ApplyCmd(t, cmds[0]), [cmds[1]]) == ApplyCmd(ApplyCmd(t, cmds[0]), cmds[1]);
      } else {
        assert cmds[1..] == [];
      }
    }
  }

  lemma HandlerAgrees(c: Client, r: Request, d: Daemon)
    requires DaemonOk(d) && ClientOk(c, d) && Agree(c) && Idle(c)
    ensures Agree(HandlerStep(c, r, d))
  {
    var c' := HandlerStep(c, r, d);
    assert c.queue + [] == c.queue;
    ApplyAllAppend(c.task, c.queue, c'.outbox);
    match r
    case Ensure(_) => assert Pending(c') == Pending(c);
    case Read(_, _) => assert Pending(c') == Pending(c);
    case Close(p) => CloseMatches(c.session, Effective(c), p, !c.sawClosed);
    case Command(what) => EffectMatches(c.session, Effective(c), !c.sawClosed, what, d);
  }

  /** A poll takes nothing from the task unless the receiver answers `Closed`. */
  ghost predicate PollKeeps(c: Client, c': Client) {
    && Below(c'.task, c.task)
    && (!c'.sawClosed ==> Below(c.task, c'.task) && !c.sawClosed)
    && c'.session == c.session && c'.closing == c.closing && Pending(c') == Pending(c)
  }

  lemma PollRxKeeps(c: Client, p: Port, d: Daemon)
    requires TaskOk(c.task, d) && p in c.task.rxReceivers
    ensures PollKeeps(c, PollRxStep(c, p, d))
  {
  }

  lemma PollFilterKeeps(c: Client, p: Port, d: Daemon)
    requires TaskOk(c.task, d) && p in c.task.filters
    ensures PollKeeps(c, PollFilterStep(c, p, d))
  {
    assert forall e :: Deliver(c.task.filters[p].tracker, e).filter.keywords == Keywords(c.task.filters[p]);
  }

  lemma PollAgrees(c: Client, c': Client)
    requires Agree(c) && PollKeeps(c, c')
    ensures Agree(c')
  {
    ApplyAllBelow(c'.task, c.task, Pending(c));
    if !c'.sawClosed {
      ApplyAllBelow(c.task, c'.task, Pending(c));
    }
  }

  lemma LocalAgrees(c: Client, a: Action, d: Daemon)
    requires DaemonOk(d) && ClientOk(c, d) && Agree(c)
    ensures Agree(LocalStep(c, a, d))
  {
    match a {
      case Handle(r) => if Idle(c) { HandlerAgrees(c, r, d); }
      case PollRx(p) =>
        if p in c.task.rxReceivers {
          PollRxKeeps(c, p, d);
          PollAgrees(c, PollRxStep(c, p, d));
        }
      case PollFilter(p) =>
        if p in c.task.filters {
          PollFilterKeeps(c, p, d);
          PollAgrees(c, PollFilterStep(c, p, d));
        }
      case FinishClose =>
      case SendNext => assert c.outbox != [] ==> c.queue + [c.outbox[0]] + c.outbox[1..] == c.queue + c.outbox;
      case ApplyNext => assert c.queue != [] ==> Pending(c)[1..] == c.queue[1..] + c.outbox;
    }
  }

  lemma NewClientAgrees()
    ensures Agree(NewClient())
  {
    assert Pending(NewClient()) == [];
  }

  ghost predicate AgreeIn(s: System, i: nat) {
    i in s.clients && Agree(s.clients[i])
  }

  lemma StepAgrees(s: System, ev: Event, i: nat)
    requires SystemOk(s) && AgreeIn(s, i)
    ensures AgreeIn(Step(s, ev), i)
  {
    if ev.Local? && ev.client == i {
      LocalAgrees(s.clients[i], ev.action, s.daemon);
    }
  }

  /** Main theorem: the agreement holds for every client in every reachable state. */
  lemma {:induction false} AlwaysAgree(clients: set<nat>, evs: seq<Event>, i: nat)
    requires i in clients
    ensures AgreeIn(Run(clients, evs), i)
  {
    if evs == [] {
      NewClientAgrees();
    } else {
      AlwaysAgree(clients, evs[..|evs| - 1], i);
      StepAgrees(Run(clients, evs[..|evs| - 1]), evs[|evs| - 1], i);
    }
  }

  // ---- every hit the daemon ever sends ----

  ghost predicate FiltersExact(t: Task) {
    forall p :: p in t.filters ==> Exact(t.filters[p].tracker)
  }

  lemma ApplyExact(t: Task, cmd: Command)
    requires FiltersExact(t) && Extends(t, cmd)
    ensures FiltersExact(ApplyCmd(t, cmd))
  {
    match cmd
    case AddFilter(p, keywords, rx) => StartExact(keywords);
    case SetFilterKeywords(p, keywords) =>
      if p in t.filters {
        RegisterKeepsExact(t.filters[p].tracker, keywords);
      }
    case _ =>
  }

  lemma PollExact(c: Client, p: Port, d: Daemon)
    requires TaskOk(c.task, d) && p in c.task.filters && FiltersExact(c.task)
    ensures FiltersExact(PollFilterStep(c, p, d).task)
  {
    var f := c.task.filters[p];
    var outcome := TryRecv(d.chans[f.rx.chan], f.rx.cursor).0;
    if outcome.Got? {
      DeliverKeepsExact(f.tracker, outcome.value);
    }
  }

  lemma LocalExact(c: Client, a: Action, d: Daemon)
    requires DaemonOk(d) && ClientOk(c, d) && FiltersExact(c.task) && AllExtend(c.task, Pending(c))
    ensures FiltersExact(LocalStep(c, a, d).task)
  {
    match a {
      case PollFilter(p) => if p in c.task.filters { PollExact(c, p, d); }
      case ApplyNext =>
        if c.queue != [] {
          assert Pending(c)[0] == c.queue[0];
          ApplyExact(c.task, c.queue[0]);
        }
      case Handle(_) =>
      case PollRx(_) =>
      case FinishClose =>
      case SendNext =>
    }
  }

  ghost predicate ExactIn(s: System, i: nat) {
    i in s.clients && FiltersExact(s.clients[i].task)
  }

  lemma StepExact(s: System, ev: Event, i: nat)
    requires SystemOk(s) && AgreeIn(s, i) && ExactIn(s, i)
    ensures ExactIn(Step(s, ev), i)
  {
    if ev.Local? && ev.client == i {
      LocalExact(s.clients[i], ev.action, s.daemon);
    }
  }

  /** Main theorem, end to end: in every reachable state of the whole daemon, each
      filter of each client has reported, for each list entry, exactly what a naive
      search of the bytes delivered to it finds from the entry's first offset on. */
  lemma {:induction false} AlwaysExact(clients: set<nat>, evs: seq<Event>, i: nat)
    requires i in clients
    ensures ExactIn(Run(clients, evs), i)
  {
    if evs != [] {
      AlwaysExact(clients, evs[..|evs| - 1], i);
      AlwaysAgree(clients, evs[..|evs| - 1], i);
      StepExact(Run(clients, evs[..|evs| - 1]), evs[|evs| - 1], i);
    }
  }
}
