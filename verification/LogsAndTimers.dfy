/** No work is orphaned, whatever the interleaving; and exactly when every log's port
    is open. */
module LogsAndTimers {
  import opened Sequences
  import opened SerialManager

  /** Some open port owns the read task. */
  ghost predicate Owned(w: Work, task: nat) {
    exists p :: p in w.ports && w.ports[p] == task
  }

  ghost predicate Listed(w: Work, task: nat) {
    exists p :: p in w.logs && w.logs[p].task == task
  }

  ghost predicate HeldBy(w: Work, timer: nat, token: nat) {
    exists p :: p in w.logs && w.logs[p] == Log(token, Some(timer))
  }

  /** Every running read task belongs to an open port; every running log task is listed
      or its token is cancelled; every armed timer is the one its log entry holds, and
      will cancel that entry's task. */
  ghost predicate NoOrphans(w: Work) {
    && (forall t :: t in w.reading ==> Owned(w, t))
    && (forall t :: t in w.logging ==> Listed(w, t) || t in w.cancelled)
    && (forall m :: m in w.armed ==> HeldBy(w, m, w.armed[m]))
  }

  /** Numbers in use are below `next`, and no two log entries share a task. */
  ghost predicate Numbered(w: Work) {
    && (forall m :: m in w.armed ==> m < w.next)
    && (forall p :: p in w.logs && w.logs[p].timer.Some? ==> w.logs[p].timer.value < w.next)
    && (forall p :: p in w.logs ==> w.logs[p].task < w.next)
    && (forall p, q :: p in w.logs && q in w.logs && p != q ==> w.logs[p].task != w.logs[q].task)
  }

  /** Ports change, logs and timers do not. */
  lemma PortActionKeeps(w: Work, a: Action)
    requires NoOrphans(w) && Numbered(w)
    requires a.InsertPort? || a.RemovePort? || a.DrainPorts?
    ensures NoOrphans(Perform(w, a).0) && Numbered(Perform(w, a).0)
  {
    var w' := Perform(w, a).0;
    forall t | t in w'.reading ensures Owned(w', t) {
      if t in w.reading {
        var p :| p in w.ports && w.ports[p] == t;
        assert p in w'.ports && w'.ports[p] == t;
      } else {
        assert a.InsertPort? && w'.ports[a.port] == t;
      }
    }
    forall t | t in w'.logging ensures Listed(w', t) || t in w'.cancelled {
      assert Listed(w, t) || t in w.cancelled;
    }
    forall m | m in w'.armed ensures HeldBy(w', m, w'.armed[m]) {
      assert HeldBy(w, m, w.armed[m]);
    }
  }

  lemma ReadingKept(w: Work, w': Work)
    requires NoOrphans(w) && w'.ports == w.ports && w'.reading == w.reading
    ensures forall t :: t in w'.reading ==> Owned(w', t)
  {
    forall t | t in w'.reading ensures Owned(w', t) {
      assert Owned(w, t);
    }
  }

  lemma InsertLogKeeps(w: Work, p: Port, timed: bool)
    requires NoOrphans(w) && Numbered(w) && p !in w.logs
    ensures var w' := Perform(w, InsertLog(p, timed)).0; NoOrphans(w') && Numbered(w')
  {
    var w' := Perform(w, InsertLog(p, timed)).0;
    ReadingKept(w, w');
    assert forall q :: q in w.logs ==> w'.logs[q] == w.logs[q];
    LoggingAdded(w, w', p);
    ArmedAdded(w, w', p);
    InsertedNumbered(w, p, timed);
  }

  lemma InsertedNumbered(w: Work, p: Port, timed: bool)
    requires Numbered(w) && p !in w.logs
    ensures Numbered(Perform(w, InsertLog(p, timed)).0)
  {
  }

  lemma ArmedAdded(w: Work, w': Work, p: Port)
    requires NoOrphans(w) && p in w'.logs
    requires forall q :: q in w.logs ==> q in w'.logs && w'.logs[q] == w.logs[q]
    requires forall m :: m in w'.armed ==> (m in w.armed && w'.armed[m] == w.armed[m]) || w'.logs[p] == Log(w'.armed[m], Some(m))
    ensures forall m :: m in w'.armed ==> HeldBy(w', m, w'.armed[m])
  {
    forall m | m in w'.armed ensures HeldBy(w', m, w'.armed[m]) {
      if w'.logs[p] != Log(w'.armed[m], Some(m)) {
        var q :| q in w.logs && w.logs[q] == Log(w.armed[m], Some(m));
        assert w'.logs[q] == Log(w'.armed[m], Some(m));
      }
    }
  }

  lemma LoggingAdded(w: Work, w': Work, p: Port)
    requires NoOrphans(w) && w'.cancelled == w.cancelled && p in w'.logs && w'.logging == w.logging + {w'.logs[p].task}
    requires forall q :: q in w.logs ==> q in w'.logs && w'.logs[q] == w.logs[q]
    ensures forall t :: t in w'.logging ==> Listed(w', t) || t in w'.cancelled
  {
    forall t | t in w'.logging ensures Listed(w', t) || t in w'.cancelled {
      if t in w.logging && Listed(w, t) {
        var q :| q in w.logs && w.logs[q].task == t;
        assert w'.logs[q].task == t;
      }
    }
  }

  lemma UpdateKeeps(w: Work, p: Port)
    requires NoOrphans(w) && Numbered(w) && p in w.logs
    ensures var w' := Perform(w, UpdateEntry(p, true)).0; NoOrphans(w') && Numbered(w')
  {
    var w' := Perform(w, UpdateEntry(p, true)).0;
    var l := w.logs[p];
    ReadingKept(w, w');
    assert w'.logs[p] == Log(l.task, Some(w.next));
    forall t | t in w'.logging ensures Listed(w', t) || t in w'.cancelled {
      if Listed(w, t) {
        var q :| q in w.logs && w.logs[q].task == t;
        assert w'.logs[q].task == t;
      }
    }
    forall m | m in w'.armed ensures HeldBy(w', m, w'.armed[m]) {
      if m == w.next {
        assert w'.logs[p] == Log(w'.armed[m], Some(m));
      } else {
        var q :| q in w.logs && w.logs[q] == Log(w.armed[m], Some(m));
        assert q == p ==> m in TimerSet(l);
        assert w'.logs[q] == Log(w'.armed[m], Some(m));
      }
    }
  }

  lemma DropLogKeeps(w: Work, p: Port)
    requires NoOrphans(w) && Numbered(w) && p in w.logs
    ensures var w' := Perform(w, DropLog(p)).0; NoOrphans(w') && Numbered(w')
  {
    var w' := Perform(w, DropLog(p)).0;
    ReadingKept(w, w');
    LoggingDropped(w, w', p);
    ArmedDropped(w, w', p);
  }

  lemma LoggingDropped(w: Work, w': Work, p: Port)
    requires NoOrphans(w) && p in w.logs && w'.logs == w.logs - {p} && w'.logging == w.logging
    requires w'.cancelled == w.cancelled + {w.logs[p].task}
    ensures forall t :: t in w'.logging ==> Listed(w', t) || t in w'.cancelled
  {
    forall t | t in w'.logging ensures Listed(w', t) || t in w'.cancelled {
      if Listed(w, t) {
        var q :| q in w.logs && w.logs[q].task == t;
        assert q != p ==> w'.logs[q].task == t;
      }
    }
  }

  lemma ArmedDropped(w: Work, w': Work, p: Port)
    requires NoOrphans(w) && p in w.logs && w'.logs == w.logs - {p} && w'.armed == w.armed - TimerSet(w.logs[p])
    ensures forall m :: m in w'.armed ==> HeldBy(w', m, w'.armed[m])
  {
    var stopped := TimerSet(w.logs[p]);
    forall m | m in w'.armed ensures HeldBy(w', m, w'.armed[m]) {
      var q :| q in w.logs && w.logs[q] == Log(w.armed[m], Some(m));
      assert q == p ==> m in stopped;
      assert w'.logs[q] == Log(w'.armed[m], Some(m));
    }
  }

  lemma DrainLogsKeeps(w: Work)
    requires NoOrphans(w) && Numbered(w)
    ensures var w' := Perform(w, DrainLogs).0; NoOrphans(w') && Numbered(w') && w'.armed == map[]
  {
    var w' := Perform(w, DrainLogs).0;
    ReadingKept(w, w');
    forall t | t in w'.logging ensures t in w'.cancelled {
      if Listed(w, t) {
        var q :| q in w.logs && w.logs[q].task == t;
        assert w.logs[q].task in w'.cancelled;
      }
    }
    forall m | m in w.armed ensures m !in w'.armed {
      var q :| q in w.logs && w.logs[q] == Log(w.armed[m], Some(m));
      assert m in TimerSet(w.logs[q]);
    }
  }

  lemma PerformKeeps(w: Work, a: Action)
    requires NoOrphans(w) && Numbered(w)
    ensures NoOrphans(Perform(w, a).0) && Numbered(Perform(w, a).0)
  {
    match a {
      case InsertPort(_, _) => PortActionKeeps(w, a);
      case RemovePort(_) => PortActionKeeps(w, a);
      case DrainPorts => PortActionKeeps(w, a);
      case InsertLog(p, timed) => if p !in w.logs { InsertLogKeeps(w, p, timed); }
      case UpdateEntry(p, timed) => if p in w.logs && timed { UpdateKeeps(w, p); }
      case DropLog(p) => if p in w.logs { DropLogKeeps(w, p); }
      case DrainLogs => DrainLogsKeeps(w);
      case NeedPort(_) =>
      case WriteBytes =>
      case AwaitLogTask =>
      case ReadMaps =>
    }
  }

  lemma BackgroundKeeps(w: Work, w': Work)
    requires NoOrphans(w) && Numbered(w)
    requires w'.ports == w.ports && w'.logs == w.logs && w'.next == w.next
    requires w'.reading <= w.reading && w'.logging <= w.logging && w.cancelled <= w'.cancelled
    requires w'.armed.Keys <= w.armed.Keys && forall m :: m in w'.armed ==> w'.armed[m] == w.armed[m]
    ensures NoOrphans(w') && Numbered(w')
  {
    forall t | t in w'.reading ensures Owned(w', t) {
      assert Owned(w, t);
    }
    forall t | t in w'.logging ensures Listed(w', t) || t in w'.cancelled {
      assert Listed(w, t) || t in w.cancelled;
    }
    forall m | m in w'.armed ensures HeldBy(w', m, w'.armed[m]) {
      assert HeldBy(w, m, w.armed[m]);
    }
  }

  lemma StepKeeps(m: Manager, ev: Event)
    requires NoOrphans(m.work) && Numbered(m.work)
    ensures NoOrphans(Step(m, ev).work) && Numbered(Step(m, ev).work)
  {
    match ev {
      case Begin(_) =>
      case Advance(i) =>
        if CanAdvance(m, i) && m.handlers[i].script[0].Act? {
          PerformKeeps(m.work, m.handlers[i].script[0].action);
        }
      case ReaderEnds(_) => BackgroundKeeps(m.work, Step(m, ev).work);
      case LogEnds(_) => BackgroundKeeps(m.work, Step(m, ev).work);
      case TimerFires(_) => BackgroundKeeps(m.work, Step(m, ev).work);
    }
  }

  /** Main theorem: in every reachable state, under any interleaving of the handlers'
      steps with each other and with tasks ending and timers firing, nothing is orphaned. */
  lemma {:induction false} NothingOrphaned(evs: seq<Event>)
    ensures NoOrphans(Run(evs).work) && Numbered(Run(evs).work)
  {
    if evs != [] {
      NothingOrphaned(evs[..|evs| - 1]);
      StepKeeps(Run(evs[..|evs| - 1]), evs[|evs| - 1]);
    }
  }

  /** So a log, and with it a port, has at most one armed timer: two timers that would
      cancel the same log are one. */
  lemma OneTimerPerLog(evs: seq<Event>, a: nat, b: nat)
    requires var w := Run(evs).work; a in w.armed && b in w.armed && w.armed[a] == w.armed[b]
    ensures a == b
  {
    var w := Run(evs).work;
    NothingOrphaned(evs);
    var p :| p in w.logs && w.logs[p] == Log(w.armed[a], Some(a));
    var q :| q in w.logs && w.logs[q] == Log(w.armed[b], Some(b));
    assert w.logs[p].task == w.logs[q].task;
  }

  // ---- is every log's port open? ----

  ghost predicate LogsOpen(w: Work) {
    w.logs.Keys <= w.ports.Keys
  }

  /** The guards that keep it so: a log is entered only for a port that is still open, a
      port is removed only when it has no log, and all of them only when there are no logs. */
  predicate ActionGuarded(w: Work, a: Action) {
    match a
    case InsertLog(p, _) => p in w.logs || p in w.ports
    case RemovePort(p) => p !in w.logs
    case DrainPorts => w.logs == map[]
    case _ => true
  }

  predicate Guarded(m: Manager, ev: Event) {
    ev.Advance? && CanAdvance(m, ev.handler) && m.handlers[ev.handler].script[0].Act? ==>
      ActionGuarded(m.work, m.handlers[ev.handler].script[0].action)
  }

  lemma StepLogsOpenIff(m: Manager, ev: Event)
    requires LogsOpen(m.work)
    ensures LogsOpen(Step(m, ev).work) <==> Guarded(m, ev)
  {
    assert forall w: Work, t: nat, b: bool :: Armed(w, t, b).0.ports == w.ports && Armed(w, t, b).0.logs == w.logs;
    if ev.Advance? && CanAdvance(m, ev.handler) && m.handlers[ev.handler].script[0].Act? {
      var a := m.handlers[ev.handler].script[0].action;
      var w := m.work;
      var w' := Perform(w, a).0;
      if a.InsertLog? && a.port !in w.logs {
        assert a.port in w'.logs && w'.ports == w.ports;
      } else if a.RemovePort? && a.port in w.logs {
        assert a.port in w'.logs && a.port !in w'.ports;
      } else if a.DrainPorts? && w.logs != map[] {
        var p :| p in w.logs;
        assert p in w'.logs && p !in w'.ports;
      }
    }
  }

  ghost predicate AlwaysOpen(evs: seq<Event>) {
    LogsOpen(Run(evs).work) && (evs == [] || AlwaysOpen(evs[..|evs| - 1]))
  }

  ghost predicate AlwaysGuarded(evs: seq<Event>) {
    evs == [] || (AlwaysGuarded(evs[..|evs| - 1]) && Guarded(Run(evs[..|evs| - 1]), evs[|evs| - 1]))
  }

  /** Every log's port is open throughout a run if and only if every step of the run met
      its guard; interleaved handlers need not. */
  lemma {:induction false} LogsOpenIff(evs: seq<Event>)
    ensures AlwaysOpen(evs) <==> AlwaysGuarded(evs)
  {
    if evs != [] {
      var before := evs[..|evs| - 1];
      LogsOpenIff(before);
      if AlwaysOpen(before) {
        StepLogsOpenIff(Run(before), evs[|evs| - 1]);
      }
    }
  }

  // ---- one command at a time ----

  /** Running the script from w, with nothing in between, meets every guard. */
  ghost predicate GuardedScript(w: Work, script: seq<Op>)
    decreases |script|
  {
    if script == [] then true
    else if script[0].Act? then
      ActionGuarded(w, script[0].action)
      && (Perform(w, script[0].action).1 ==> GuardedScript(Perform(w, script[0].action).0, script[1..]))
    else GuardedScript(w, script[1..])
  }

  lemma GuardedHead(w: Work, op: Op, rest: seq<Op>)
    ensures GuardedScript(w, [op] + rest) <==>
      if op.Act? then ActionGuarded(w, op.action) && (Perform(w, op.action).1 ==> GuardedScript(Perform(w, op.action).0, rest))
      else GuardedScript(w, rest)
  {
    assert ([op] + rest)[1..] == rest;
  }

  predicate Harmless(op: Op) {
    op.Act? ==> !(op.action.InsertLog? || op.action.RemovePort? || op.action.DrainPorts?)
  }

  lemma {:induction false} HarmlessGuarded(w: Work, script: seq<Op>)
    requires forall i :: 0 <= i < |script| ==> Harmless(script[i])
    ensures GuardedScript(w, script)
    decreases |script|
  {
    if script != [] {
      HarmlessGuarded(w, script[1..]);
      if script[0].Act? {
        HarmlessGuarded(Perform(w, script[0].action).0, script[1..]);
      }
    }
  }

  /** A section under one lock whose second half needs a guard. */
  lemma SectionGuarded(w: Work, l: Lock, a: Action)
    requires ActionGuarded(w, a)
    ensures GuardedScript(w, [Acquire(l), Act(a), Release(l)])
  {
    assert [Acquire(l), Act(a), Release(l)] == [Acquire(l)] + ([Act(a)] + [Release(l)]);
    HarmlessGuarded(Perform(w, a).0, [Release(l)]);
    GuardedHead(w, Act(a), [Release(l)]);
    GuardedHead(w, Acquire(l), [Act(a)] + [Release(l)]);
  }

  lemma StartLogGuarded(w: Work, p: Port, timed: bool)
    ensures GuardedScript(w, Script(StartLog(p, timed)))
  {
    var second := [Acquire(LogsLock), Act(InsertLog(p, timed)), Release(LogsLock)];
    assert Script(StartLog(p, timed)) == [Acquire(PortsLock)] + ([Act(NeedPort(p))] + ([Release(PortsLock)] + second));
    if p in w.ports {
      SectionGuarded(w, LogsLock, InsertLog(p, timed));
    }
    GuardedHead(w, Release(PortsLock), second);
    GuardedHead(w, Act(NeedPort(p)), [Release(PortsLock)] + second);
    GuardedHead(w, Acquire(PortsLock), [Act(NeedPort(p))] + ([Release(PortsLock)] + second));
  }

  lemma ClosePortGuarded(w: Work, p: Port)
    ensures GuardedScript(w, Script(ClosePort(p)))
  {
    var second := [Acquire(PortsLock), Act(RemovePort(p)), Release(PortsLock)];
    var tail := [Act(AwaitLogTask)] + ([Release(LogsLock)] + second);
    assert Script(ClosePort(p)) == [Acquire(LogsLock)] + ([Act(DropLog(p))] + tail);
    var w' := Perform(w, DropLog(p)).0;
    SectionGuarded(w', PortsLock, RemovePort(p));
    GuardedHead(w', Release(LogsLock), second);
    GuardedHead(w', Act(AwaitLogTask), [Release(LogsLock)] + second);
    GuardedHead(w, Act(DropLog(p)), tail);
    GuardedHead(w, Acquire(LogsLock), [Act(DropLog(p))] + tail);
  }

  lemma CloseAllGuarded(w: Work)
    ensures GuardedScript(w, Script(CloseAll))
  {
    var second := [Acquire(PortsLock), Act(DrainPorts), Release(PortsLock)];
    assert Script(CloseAll) == [Acquire(LogsLock)] + ([Act(DrainLogs)] + ([Release(LogsLock)] + second));
    var w' := Perform(w, DrainLogs).0;
    SectionGuarded(w', PortsLock, DrainPorts);
    GuardedHead(w', Release(LogsLock), second);
    GuardedHead(w, Act(DrainLogs), [Release(LogsLock)] + second);
    GuardedHead(w, Acquire(LogsLock), [Act(DrainLogs)] + ([Release(LogsLock)] + second));
  }

  lemma ScriptGuarded(w: Work, r: Request)
    ensures GuardedScript(w, Script(r))
  {
    match r {
      case StartLog(p, timed) => StartLogGuarded(w, p, timed);
      case ClosePort(p) => ClosePortGuarded(w, p);
      case CloseAll => CloseAllGuarded(w);
      case OpenPort(_, _) => HarmlessGuarded(w, Script(r));
      case WritePort(_) => HarmlessGuarded(w, Script(r));
      case Subscribe(_) => HarmlessGuarded(w, Script(r));
      case UpdateLog(_, _) => HarmlessGuarded(w, Script(r));
      case StopLog(_) => HarmlessGuarded(w, Script(r));
      case PortStatus => HarmlessGuarded(w, Script(r));
    }
  }

  ghost predicate SameMaps(w: Work, w': Work) {
    w.ports == w'.ports && w.logs == w'.logs && w.next == w'.next
  }

  lemma PerformSameMaps(w: Work, w': Work, a: Action)
    requires SameMaps(w, w')
    ensures SameMaps(Perform(w, a).0, Perform(w', a).0) && Perform(w, a).1 == Perform(w', a).1
  {
  }

  lemma {:induction false} GuardedSameMaps(w: Work, w': Work, script: seq<Op>)
    requires SameMaps(w, w') && GuardedScript(w, script)
    ensures GuardedScript(w', script)
    decreases |script|
  {
    if script != [] {
      if script[0].Act? {
        PerformSameMaps(w, w', script[0].action);
        if Perform(w, script[0].action).1 {
          GuardedSameMaps(Perform(w, script[0].action).0, Perform(w', script[0].action).0, script[1..]);
        }
      } else {
        GuardedSameMaps(w, w', script[1..]);
      }
    }
  }

  lemma {:induction false} BailHarmless(held: seq<Lock>)
    ensures forall i :: 0 <= i < |Bail(held)| ==> Harmless(Bail(held)[i])
    decreases |held|
  {
    if held != [] {
      BailHarmless(held[..|held| - 1]);
    }
  }

  /** Commands one at a time: a handler begins when all the others have finished. */
  ghost predicate Serial(evs: seq<Event>) {
    evs == [] ||
    (Serial(evs[..|evs| - 1]) && (evs[|evs| - 1].Begin? ==> AllDone(Run(evs[..|evs| - 1]))))
  }

  ghost predicate SerialState(m: Manager) {
    && LogsOpen(m.work)
    && (forall i :: 0 <= i < |m.handlers| ==> GuardedScript(m.work, m.handlers[i].script))
    && (forall i, j :: 0 <= i < j < |m.handlers| ==> !Unfinished(m.handlers[i]) || !Unfinished(m.handlers[j]))
  }

  lemma AdvanceSerial(m: Manager, i: nat)
    requires SerialState(m) && CanAdvance(m, i)
    ensures SerialState(AdvanceStep(m, i))
  {
    var h := m.handlers[i];
    var m' := AdvanceStep(m, i);
    StepLogsOpenIff(m, Advance(i));
    assert GuardedScript(m.work, h.script);
    assert m'.handlers == m.handlers[i := m'.handlers[i]];
    BailHarmless(h.held);
    HarmlessGuarded(m'.work, Bail(h.held));
    assert GuardedScript(m'.work, m'.handlers[i].script);
  }

  lemma BackgroundSerial(m: Manager, m': Manager)
    requires SerialState(m) && m'.handlers == m.handlers && SameMaps(m.work, m'.work)
    ensures SerialState(m')
  {
    forall i | 0 <= i < |m'.handlers| ensures GuardedScript(m'.work, m'.handlers[i].script) {
      GuardedSameMaps(m.work, m'.work, m.handlers[i].script);
    }
  }

  lemma StepSerial(m: Manager, ev: Event)
    requires SerialState(m) && (ev.Begin? ==> AllDone(m))
    ensures SerialState(Step(m, ev))
  {
    match ev {
      case Begin(r) => ScriptGuarded(m.work, r);
      case Advance(i) => if CanAdvance(m, i) { AdvanceSerial(m, i); }
      case ReaderEnds(_) => BackgroundSerial(m, Step(m, ev));
      case LogEnds(_) => BackgroundSerial(m, Step(m, ev));
      case TimerFires(_) => BackgroundSerial(m, Step(m, ev));
    }
  }

  /** In every run that takes commands one at a time, tasks and timers going on beside
      them, every log's port is open. */
  lemma {:induction false} SerialLogsOpen(evs: seq<Event>)
    requires Serial(evs)
    ensures SerialState(Run(evs)) && LogsOpen(Run(evs).work)
  {
    if evs != [] {
      SerialLogsOpen(evs[..|evs| - 1]);
      StepSerial(Run(evs[..|evs| - 1]), evs[|evs| - 1]);
    }
  }

  // ---- and when they are not ----

  ghost predicate Reachable(m: Manager) {
    exists evs :: Run(evs) == m
  }

  lemma ReachNext(m: Manager, ev: Event)
    requires Reachable(m)
    ensures Reachable(Step(m, ev))
  {
    var evs :| Run(evs) == m;
    assert (evs + [ev])[..|evs|] == evs;
    assert Run(evs + [ev]) == Step(m, ev);
  }

  lemma ReachBegin(w: Work, hs: seq<Handler>, r: Request)
    requires Reachable(Manager(w, hs))
    ensures Reachable(Manager(w, hs + [Handler(Script(r), [])]))
  {
    ReachNext(Manager(w, hs), Begin(r));
  }

  /** No handler holds a lock. */
  predicate Idle(handlers: seq<Handler>) {
    forall i :: 0 <= i < |handlers| ==> handlers[i].held == []
  }

  /** One handler passes a section of its script while the others hold nothing. */
  lemma ReachSection(w: Work, hs: seq<Handler>, i: nat, l: Lock, a: Action, rest: seq<Op>)
    requires Reachable(Manager(w, hs)) && Idle(hs) && i < |hs| && Perform(w, a).1
    requires hs[i].script == [Acquire(l)] + ([Act(a)] + ([Release(l)] + rest))
    ensures Reachable(Manager(Perform(w, a).0, hs[i := Handler(rest, [])]))
  {
    var w' := Perform(w, a).0;
    var taken := hs[i := Handler([Act(a)] + ([Release(l)] + rest), [l])];
    ReachTake(w, hs, i, l, [Act(a)] + ([Release(l)] + rest));
    ReachAct(w, taken, i, a, [Release(l)] + rest);
    var done := hs[i := Handler([Release(l)] + rest, [l])];
    assert taken[i := Handler([Release(l)] + rest, [l])] == done;
    ReachGive(w', done, i, l, rest);
    assert done[i := Handler(rest, [])] == hs[i := Handler(rest, [])];
  }

  lemma ReachTake(w: Work, hs: seq<Handler>, i: nat, l: Lock, rest: seq<Op>)
    requires Reachable(Manager(w, hs)) && Idle(hs) && i < |hs| && hs[i].script == [Acquire(l)] + rest
    ensures Reachable(Manager(w, hs[i := Handler(rest, [l])]))
  {
    ReachNext(Manager(w, hs), Advance(i));
    assert hs[i].script[1..] == rest && hs[i].held + [l] == [l];
  }

  lemma ReachAct(w: Work, hs: seq<Handler>, i: nat, a: Action, rest: seq<Op>)
    requires Reachable(Manager(w, hs)) && i < |hs| && hs[i].script == [Act(a)] + rest && Perform(w, a).1
    ensures Reachable(Manager(Perform(w, a).0, hs[i := Handler(rest, hs[i].held)]))
  {
    ReachNext(Manager(w, hs), Advance(i));
    assert hs[i].script[1..] == rest;
  }

  lemma ReachGive(w: Work, hs: seq<Handler>, i: nat, l: Lock, rest: seq<Op>)
    requires Reachable(Manager(w, hs)) && i < |hs| && hs[i] == Handler([Release(l)] + rest, [l])
    ensures Reachable(Manager(w, hs[i := Handler(rest, [])]))
  {
    ReachNext(Manager(w, hs), Advance(i));
    assert hs[i].script[1..] == rest && [l][..0] == [];
  }

  const DONE := Handler([], [])

  function Inserting(p: Port): seq<Op> {
    [Acquire(LogsLock)] + ([Act(InsertLog(p, false))] + ([Release(LogsLock)] + []))
  }

  function JustOpened(p: Port): Work {
    Work(map[p := 0], map[], {0}, {}, {}, map[], 1)
  }

  lemma FirstPort(p: Port)
    ensures Perform(NOTHING, InsertPort(p, true)) == (JustOpened(p), true)
  {
    assert NOTHING.reading + {0} == {0};
  }

  lemma ReachOpened(p: Port)
    ensures Reachable(Manager(JustOpened(p), [DONE]))
  {
    assert Run([]) == Manager(NOTHING, []);
    ReachBegin(NOTHING, [], OpenPort(p, true));
    assert Script(OpenPort(p, true)) == [Acquire(PortsLock)] + ([Act(InsertPort(p, true))] + ([Release(PortsLock)] + []));
    assert [] + [Handler(Script(OpenPort(p, true)), [])] == [Handler(Script(OpenPort(p, true)), [])];
    FirstPort(p);
    ReachSection(NOTHING, [Handler(Script(OpenPort(p, true)), [])], 0, PortsLock, InsertPort(p, true), []);
  }

  /** `start_log` has seen the port open and given `ports` back. */
  lemma ReachChecked(p: Port)
    ensures Reachable(Manager(JustOpened(p), [DONE, Handler(Inserting(p), [])]))
  {
    ReachOpened(p);
    ReachBegin(JustOpened(p), [DONE], StartLog(p, false));
    assert Script(StartLog(p, false)) == [Acquire(PortsLock)] + ([Act(NeedPort(p))] + ([Release(PortsLock)] + Inserting(p)));
    ReachSection(JustOpened(p), [DONE, Handler(Script(StartLog(p, false)), [])], 1, PortsLock, NeedPort(p), Inserting(p));
  }

  function Removing(p: Port): seq<Op> {
    [Acquire(PortsLock)] + ([Act(RemovePort(p))] + ([Release(PortsLock)] + []))
  }

  /** Another client's `close_port` begins: there is no log yet to drop. */
  lemma ReachDropping(p: Port)
    ensures var waiting := [Act(AwaitLogTask)] + ([Release(LogsLock)] + Removing(p));
      Reachable(Manager(JustOpened(p), [DONE, Handler(Inserting(p), []), Handler(waiting, [LogsLock])]))
  {
    var waiting := [Act(AwaitLogTask)] + ([Release(LogsLock)] + Removing(p));
    var w := JustOpened(p);
    var other := Handler(Inserting(p), []);
    ReachChecked(p);
    ReachBegin(w, [DONE, other], ClosePort(p));
    assert Script(ClosePort(p)) == [Acquire(LogsLock)] + ([Act(DropLog(p))] + waiting);
    ReachTake(w, [DONE, other, Handler(Script(ClosePort(p)), [])], 2, LogsLock, [Act(DropLog(p))] + waiting);
    ReachAct(w, [DONE, other, Handler([Act(DropLog(p))] + waiting, [LogsLock])], 2, DropLog(p), waiting);
  }

  lemma ReachClosing(p: Port)
    ensures Reachable(Manager(JustOpened(p), [DONE, Handler(Inserting(p), []), Handler(Removing(p), [])]))
  {
    var waiting := [Act(AwaitLogTask)] + ([Release(LogsLock)] + Removing(p));
    var w := JustOpened(p);
    var other := Handler(Inserting(p), []);
    ReachDropping(p);
    ReachAct(w, [DONE, other, Handler(waiting, [LogsLock])], 2, AwaitLogTask, [Release(LogsLock)] + Removing(p));
    ReachGive(w, [DONE, other, Handler([Release(LogsLock)] + Removing(p), [LogsLock])], 2, LogsLock, Removing(p));
  }

  /** The port is gone before `start_log` goes on. */
  lemma ReachClosed(p: Port)
    ensures Reachable(Manager(NOTHING.(next := 1), [DONE, Handler(Inserting(p), []), DONE]))
  {
    ReachClosing(p);
    ReachSection(JustOpened(p), [DONE, Handler(Inserting(p), []), Handler(Removing(p), [])], 2, PortsLock, RemovePort(p), []);
    assert map[p := 0] - {p} == map[];
  }

  /** Interleaved, `start_log` and `close_port` can leave a running log on a closed port. */
  lemma LogOnClosedPort(p: Port)
    ensures exists m :: Reachable(m) && AllDone(m) && p in m.work.logs && p !in m.work.ports && !LogsOpen(m.work)
  {
    var w := NOTHING.(next := 1);
    var hs := [DONE, Handler(Inserting(p), []), DONE];
    ReachClosed(p);
    ReachSection(w, hs, 1, LogsLock, InsertLog(p, false), []);
    var m := Manager(Perform(w, InsertLog(p, false)).0, hs[1 := DONE]);
    assert Reachable(m) && AllDone(m) && p in m.work.logs;
  }
}
