/** Which interleavings keep every log's port open: no port is closed between the moment a
    start_log saw it open and its entry of the log, and no log is entered between the
    moment a close dropped the logs and its removal of the port. */
module LogWindows {
  import opened SerialManager
  import opened LogsAndTimers

  /** An action is still to come. */
  predicate Ahead(script: seq<Op>, a: Action) {
    Act(a) in script
  }

  predicate Inserts(script: seq<Op>, p: Port) {
    Ahead(script, InsertLog(p, true)) || Ahead(script, InsertLog(p, false))
  }

  predicate Unchecked(script: seq<Op>) {
    exists k :: 0 <= k < |script| && script[k].Act? && script[k].action.NeedPort?
  }

  /** start_log has seen the port open and has not entered the log. */
  predicate SawOpen(script: seq<Op>, p: Port) {
    Inserts(script, p) && !Unchecked(script)
  }

  /** close_port has dropped the log and has not removed the port. */
  predicate DroppedLog(script: seq<Op>, p: Port) {
    Ahead(script, RemovePort(p)) && !Ahead(script, DropLog(p))
  }

  /** close_all has stopped the logs and has not closed the ports. */
  predicate DroppedAll(script: seq<Op>) {
    Ahead(script, DrainPorts) && !Ahead(script, DrainLogs)
  }

  /** The step leaves the other handlers' windows alone. */
  ghost predicate Apart(m: Manager, ev: Event) {
    ev.Advance? && CanAdvance(m, ev.handler) && m.handlers[ev.handler].script[0].Act? ==>
      var a := m.handlers[ev.handler].script[0].action;
      forall j :: 0 <= j < |m.handlers| && j != ev.handler ==> LeavesAlone(a, m.handlers[j].script)
  }

  ghost predicate LeavesAlone(a: Action, script: seq<Op>) {
    match a
    case RemovePort(p) => !SawOpen(script, p)
    case DrainPorts => forall p :: !SawOpen(script, p)
    case InsertLog(p, _) => !DroppedLog(script, p) && !DroppedAll(script)
    case InsertPort(_, _) => true
    case NeedPort(_) => true
    case WriteBytes => true
    case UpdateEntry(_, _) => true
    case DropLog(_) => true
    case AwaitLogTask => true
    case ReadMaps => true
    case DrainLogs => true
  }

  ghost predicate AlwaysApart(evs: seq<Event>) {
    evs == [] || (AlwaysApart(evs[..|evs| - 1]) && Apart(Run(evs[..|evs| - 1]), evs[|evs| - 1]))
  }

  // ---- the scripts ----

  /** What an operation says of the rest of its script. */
  ghost predicate HeadPaired(op: Op, rest: seq<Op>) {
    op.Act? ==>
      match op.action
      case NeedPort(q) => forall p :: SawOpen(rest, p) ==> p == q
      case DropLog(q) => forall p :: DroppedLog(rest, p) ==> p == q
      case InsertLog(q, _) => !Unchecked(rest) && !DroppedLog(rest, q) && !DroppedAll(rest)
      case RemovePort(q) => !Ahead(rest, DropLog(q)) && forall p :: !SawOpen(rest, p)
      case DrainPorts => !Ahead(rest, DrainLogs) && forall p :: !SawOpen(rest, p)
      case InsertPort(_, _) => true
      case WriteBytes => true
      case UpdateEntry(_, _) => true
      case AwaitLogTask => true
      case ReadMaps => true
      case DrainLogs => true
  }

  ghost predicate Paired(script: seq<Op>)
    decreases |script|
  {
    script == [] || (HeadPaired(script[0], script[1..]) && Paired(script[1..]))
  }

  predicate Quiet(op: Op) {
    op.Act? ==> !(op.action.NeedPort? || op.action.DropLog? || op.action.InsertLog? || op.action.RemovePort? || op.action.DrainPorts?)
  }

  lemma PairedHead(op: Op, rest: seq<Op>)
    requires HeadPaired(op, rest) && Paired(rest)
    ensures Paired([op] + rest)
  {
    assert ([op] + rest)[1..] == rest;
  }

  lemma {:induction false} QuietPaired(script: seq<Op>)
    requires forall k :: 0 <= k < |script| ==> Quiet(script[k])
    ensures Paired(script)
    decreases |script|
  {
    if script != [] {
      QuietPaired(script[1..]);
    }
  }

  lemma {:induction false} QuietBefore(quiet: seq<Op>, rest: seq<Op>)
    requires Paired(rest) && forall k :: 0 <= k < |quiet| ==> Quiet(quiet[k])
    ensures Paired(quiet + rest)
  {
    if quiet == [] {
      assert quiet + rest == rest;
    } else {
      QuietBefore(quiet[1..], rest);
      assert quiet + rest == [quiet[0]] + (quiet[1..] + rest);
      PairedHead(quiet[0], quiet[1..] + rest);
    }
  }

  /** One action and the lock given back, behind operations that do not matter. */
  lemma LastAction(quiet: seq<Op>, a: Action, l: Lock)
    requires forall k :: 0 <= k < |quiet| ==> Quiet(quiet[k])
    requires HeadPaired(Act(a), [Release(l)])
    ensures Paired(quiet + [Act(a), Release(l)])
  {
    QuietPaired([Release(l)]);
    PairedHead(Act(a), [Release(l)]);
    assert [Act(a)] + [Release(l)] == [Act(a), Release(l)];
    QuietBefore(quiet, [Act(a), Release(l)]);
  }

  lemma OnlyAction(quiet: seq<Op>, a: Action, l: Lock, b: Action)
    requires Act(b) in quiet + [Act(a), Release(l)]
    requires forall k :: 0 <= k < |quiet| ==> Quiet(quiet[k])
    requires !Quiet(Act(b))
    ensures b == a
  {
  }

  lemma StartLogPaired(p: Port, timed: bool)
    ensures Paired(Script(StartLog(p, timed)))
  {
    var quiet := [Release(PortsLock), Acquire(LogsLock)];
    var rest := quiet + [Act(InsertLog(p, timed)), Release(LogsLock)];
    LastAction(quiet, InsertLog(p, timed), LogsLock);
    forall q | SawOpen(rest, q) ensures p == q {
      OnlyAction(quiet, InsertLog(p, timed), LogsLock, if Ahead(rest, InsertLog(q, true)) then InsertLog(q, true) else InsertLog(q, false));
    }
    PairedHead(Act(NeedPort(p)), rest);
    PairedHead(Acquire(PortsLock), [Act(NeedPort(p))] + rest);
    assert Script(StartLog(p, timed)) == [Acquire(PortsLock)] + ([Act(NeedPort(p))] + rest);
  }

  lemma ClosePortPaired(p: Port)
    ensures Paired(Script(ClosePort(p)))
  {
    var quiet := [Act(AwaitLogTask), Release(LogsLock), Acquire(PortsLock)];
    var rest := quiet + [Act(RemovePort(p)), Release(PortsLock)];
    LastAction(quiet, RemovePort(p), PortsLock);
    forall q | DroppedLog(rest, q) ensures p == q {
      OnlyAction(quiet, RemovePort(p), PortsLock, RemovePort(q));
    }
    PairedHead(Act(DropLog(p)), rest);
    PairedHead(Acquire(LogsLock), [Act(DropLog(p))] + rest);
    assert Script(ClosePort(p)) == [Acquire(LogsLock)] + ([Act(DropLog(p))] + rest);
  }

  lemma CloseAllPaired()
    ensures Paired(Script(CloseAll))
  {
    var quiet := [Release(LogsLock), Acquire(PortsLock)];
    LastAction([Acquire(LogsLock), Act(DrainLogs)] + quiet, DrainPorts, PortsLock);
    assert Script(CloseAll) == [Acquire(LogsLock), Act(DrainLogs)] + quiet + [Act(DrainPorts), Release(PortsLock)];
  }

  lemma StopLogPaired(p: Port)
    ensures Paired(Script(StopLog(p)))
  {
    var rest := [Act(AwaitLogTask), Release(LogsLock)];
    QuietPaired(rest);
    PairedHead(Act(DropLog(p)), rest);
    PairedHead(Acquire(LogsLock), [Act(DropLog(p))] + rest);
    assert Script(StopLog(p)) == [Acquire(LogsLock)] + ([Act(DropLog(p))] + rest);
  }

  lemma WritePortPaired(p: Port)
    ensures Paired(Script(WritePort(p)))
  {
    var rest := [Acquire(WriterLock(p)), Act(WriteBytes), Release(WriterLock(p)), Release(PortsLock)];
    QuietPaired(rest);
    PairedHead(Act(NeedPort(p)), rest);
    PairedHead(Acquire(PortsLock), [Act(NeedPort(p))] + rest);
    assert Script(WritePort(p)) == [Acquire(PortsLock)] + ([Act(NeedPort(p))] + rest);
  }

  lemma ScriptPaired(r: Request)
    ensures Paired(Script(r))
  {
    match r {
      case StartLog(p, timed) => StartLogPaired(p, timed);
      case ClosePort(p) => ClosePortPaired(p);
      case CloseAll => CloseAllPaired();
      case StopLog(p) => StopLogPaired(p);
      case WritePort(p) => WritePortPaired(p);
      case OpenPort(_, _) => QuietPaired(Script(r));
      case Subscribe(_) => QuietPaired(Script(r));
      case UpdateLog(_, _) => QuietPaired(Script(r));
      case PortStatus => QuietPaired(Script(r));
    }
  }

  lemma {:induction false} BailPaired(held: seq<Lock>)
    ensures Paired(Bail(held)) && forall k :: 0 <= k < |Bail(held)| ==> Bail(held)[k].Release?
    decreases |held|
  {
    if held != [] {
      BailPaired(held[..|held| - 1]);
      PairedHead(Release(held[|held| - 1]), Bail(held[..|held| - 1]));
    }
  }

  // ---- the windows hold what was seen ----

  /** What a handler inside a window relies on. */
  ghost predicate Relied(w: Work, script: seq<Op>) {
    && (forall p :: SawOpen(script, p) ==> p in w.ports)
    && (forall p :: DroppedLog(script, p) ==> p !in w.logs)
    && (DroppedAll(script) ==> w.logs == map[])
  }

  ghost predicate WindowsOk(m: Manager) {
    && LogsOpen(m.work)
    && forall i :: 0 <= i < |m.handlers| ==> Paired(m.handlers[i].script) && Relied(m.work, m.handlers[i].script)
  }

  /** The windows of a script and of what is left of it. */
  lemma WindowsOfRest(op: Op, rest: seq<Op>)
    ensures forall b :: Ahead([op] + rest, b) <==> op == Act(b) || Ahead(rest, b)
    ensures Unchecked([op] + rest) <==> (op.Act? && op.action.NeedPort?) || Unchecked(rest)
  {
    var script := [op] + rest;
    assert script[0] == op && forall k :: 0 < k < |script| ==> script[k] == rest[k - 1];
    if Unchecked(rest) {
      var k :| 0 <= k < |rest| && rest[k].Act? && rest[k].action.NeedPort?;
      assert script[k + 1] == rest[k];
    }
  }

  /** The handler's own action is what its window asks for. */
  lemma OwnActionGuarded(w: Work, a: Action, rest: seq<Op>)
    requires Relied(w, [Act(a)] + rest) && HeadPaired(Act(a), rest)
    ensures ActionGuarded(w, a)
  {
    var script := [Act(a)] + rest;
    WindowsOfRest(Act(a), rest);
    assert Ahead(script, a);
    assert a.InsertLog? ==> SawOpen(script, a.port);
    assert a.RemovePort? ==> DroppedLog(script, a.port);
    assert a.DrainPorts? ==> DroppedAll(script);
  }

  /** And it keeps what the rest of the handler relies on. */
  lemma OwnActionRelied(w: Work, a: Action, rest: seq<Op>)
    requires Relied(w, [Act(a)] + rest) && HeadPaired(Act(a), rest) && Perform(w, a).1
    ensures Relied(Perform(w, a).0, rest)
  {
    var script := [Act(a)] + rest;
    WindowsOfRest(Act(a), rest);
    PerformMaps(w, a);
    forall p | SawOpen(rest, p) ensures p in Perform(w, a).0.ports {
      assert !a.NeedPort? ==> SawOpen(script, p);
    }
    forall p | DroppedLog(rest, p) ensures p !in Perform(w, a).0.logs {
      assert a != DropLog(p) ==> DroppedLog(script, p);
    }
    assert DroppedAll(rest) && a != DrainLogs ==> DroppedAll(script);
  }

  /** What an action does to the keys of the two maps. */
  lemma PerformMaps(w: Work, a: Action)
    ensures var w' := Perform(w, a).0;
      && (forall p :: p in w'.ports <==> (p in w.ports && a != RemovePort(p) && a != DrainPorts) || a == InsertPort(p, true))
      && (forall p :: p in w'.logs <==> (p in w.logs && a != DropLog(p) && a != DrainLogs) || (a.InsertLog? && a.port == p))
      && (a.NeedPort? && Perform(w, a).1 ==> a.port in w.ports)
  {
  }

  lemma OtherRelied(w: Work, a: Action, script: seq<Op>)
    requires Relied(w, script) && LeavesAlone(a, script)
    ensures Relied(Perform(w, a).0, script)
  {
    PerformMaps(w, a);
  }

  lemma LockRelied(w: Work, op: Op, rest: seq<Op>)
    requires Relied(w, [op] + rest) && !op.Act?
    ensures Relied(w, rest)
  {
    WindowsOfRest(op, rest);
    assert forall p :: SawOpen(rest, p) ==> SawOpen([op] + rest, p);
    assert forall p :: DroppedLog(rest, p) ==> DroppedLog([op] + rest, p);
  }

  lemma NothingAhead(w: Work, script: seq<Op>)
    requires forall k :: 0 <= k < |script| ==> script[k].Release?
    ensures Relied(w, script)
  {
  }

  lemma ScriptRelied(w: Work, r: Request)
    ensures Relied(w, Script(r))
  {
    var script := Script(r);
    assert r.StartLog? ==> script[1] == Act(NeedPort(r.port));
    assert r.ClosePort? ==> script[1] == Act(DropLog(r.port));
    assert r.CloseAll? ==> script[1] == Act(DrainLogs);
  }

  lemma SameMapsRelied(w: Work, w': Work, script: seq<Op>)
    requires Relied(w, script) && w'.ports == w.ports && w'.logs == w.logs
    ensures Relied(w', script)
  {
  }

  lemma AdvanceWindows(m: Manager, i: nat)
    requires WindowsOk(m) && CanAdvance(m, i) && Apart(m, Advance(i))
    ensures WindowsOk(AdvanceStep(m, i))
  {
    var h := m.handlers[i];
    var op := h.script[0];
    var rest := h.script[1..];
    var m' := AdvanceStep(m, i);
    assert h.script == [op] + rest && Paired(h.script);
    StepLogsOpenIff(m, Advance(i));
    BailPaired(h.held);
    NothingAhead(m'.work, Bail(h.held));
    if op.Act? {
      OwnActionGuarded(m.work, op.action, rest);
      if Perform(m.work, op.action).1 { OwnActionRelied(m.work, op.action, rest); }
      forall j | 0 <= j < |m.handlers| && j != i ensures Relied(m'.work, m'.handlers[j].script) {
        OtherRelied(m.work, op.action, m.handlers[j].script);
      }
    } else {
      LockRelied(m.work, op, rest);
    }
  }

  lemma StepWindows(m: Manager, ev: Event)
    requires WindowsOk(m) && Apart(m, ev)
    ensures WindowsOk(Step(m, ev))
  {
    match ev {
      case Begin(r) =>
        ScriptPaired(r);
        ScriptRelied(m.work, r);
      case Advance(i) => if CanAdvance(m, i) { AdvanceWindows(m, i); }
      case ReaderEnds(_) => BackgroundWindows(m, Step(m, ev));
      case LogEnds(_) => BackgroundWindows(m, Step(m, ev));
      case TimerFires(_) => BackgroundWindows(m, Step(m, ev));
    }
  }

  lemma BackgroundWindows(m: Manager, m': Manager)
    requires WindowsOk(m) && m'.handlers == m.handlers && m'.work.ports == m.work.ports && m'.work.logs == m.work.logs
    ensures WindowsOk(m')
  {
    forall i | 0 <= i < |m'.handlers| ensures Relied(m'.work, m'.handlers[i].script) {
      SameMapsRelied(m.work, m'.work, m.handlers[i].script);
    }
  }

  /** Main theorem: in every run in which no port is closed inside another handler's
      start_log, and no log is entered inside another handler's close, every log's port is
      open throughout, however else the handlers interleave. */
  lemma {:induction false} ApartLogsOpen(evs: seq<Event>)
    requires AlwaysApart(evs)
    ensures WindowsOk(Run(evs)) && AlwaysOpen(evs)
  {
    if evs != [] {
      ApartLogsOpen(evs[..|evs| - 1]);
      StepWindows(Run(evs[..|evs| - 1]), evs[|evs| - 1]);
    }
  }
}
