/** The serial manager's handlers as interleaved processes: each is a script of lock
    operations and actions on the shared maps, cut at the points where it may wait. */
module SerialManager {
  import opened Sequences

  type Port = string

  datatype Lock = PortsLock | LogsLock | WriterLock(port: Port)

  /** What a handler does under its locks. */
  datatype Action =
    | InsertPort(port: Port, opens: bool)
    | RemovePort(port: Port)
    | NeedPort(port: Port)
    | WriteBytes
    | InsertLog(port: Port, timed: bool)
    | UpdateEntry(port: Port, timed: bool)
    | DropLog(port: Port)
    | AwaitLogTask
    | ReadMaps
    | DrainLogs
    | DrainPorts

  datatype Op = Acquire(lock: Lock) | Release(lock: Lock) | Act(action: Action)

  datatype Request =
    | OpenPort(port: Port, opens: bool)
    | ClosePort(port: Port)
    | WritePort(port: Port)
    | Subscribe(port: Port)
    | StartLog(port: Port, timed: bool)
    | UpdateLog(port: Port, timed: bool)
    | StopLog(port: Port)
    | PortStatus
    | CloseAll

  /** The steps of each handler, in source order. */
  function Script(r: Request): seq<Op> {
    match r
    case OpenPort(p, opens) => [Acquire(PortsLock), Act(InsertPort(p, opens)), Release(PortsLock)]
    case ClosePort(p) =>
      [Acquire(LogsLock), Act(DropLog(p)), Act(AwaitLogTask), Release(LogsLock),
       Acquire(PortsLock), Act(RemovePort(p)), Release(PortsLock)]
    case WritePort(p) =>
      [Acquire(PortsLock), Act(NeedPort(p)), Acquire(WriterLock(p)), Act(WriteBytes), Release(WriterLock(p)), Release(PortsLock)]
    case Subscribe(p) => [Acquire(PortsLock), Act(ReadMaps), Release(PortsLock)]
    case StartLog(p, timed) =>
      [Acquire(PortsLock), Act(NeedPort(p)), Release(PortsLock), Acquire(LogsLock), Act(InsertLog(p, timed)), Release(LogsLock)]
    case UpdateLog(p, timed) => [Acquire(LogsLock), Act(UpdateEntry(p, timed)), Release(LogsLock)]
    case StopLog(p) => [Acquire(LogsLock), Act(DropLog(p)), Act(AwaitLogTask), Release(LogsLock)]
    case PortStatus => [Acquire(PortsLock), Acquire(LogsLock), Act(ReadMaps), Release(LogsLock), Release(PortsLock)]
    case CloseAll =>
      [Acquire(LogsLock), Act(DrainLogs), Release(LogsLock), Acquire(PortsLock), Act(DrainPorts), Release(PortsLock)]
  }

  /** A log entry: its task, whose number also names its cancel token, and its timer. */
  datatype Log = Log(task: nat, timer: Option<nat>)

  /** The shared maps and the background tasks. `reading`, `logging` are the running
      read and log tasks, `cancelled` the cancelled tokens, `armed` the running timers
      with the token each will cancel; `next` numbers tasks and timers. */
  datatype Work = Work(ports: map<Port, nat>, logs: map<Port, Log>, reading: set<nat>, logging: set<nat>,
                       cancelled: set<nat>, armed: map<nat, nat>, next: nat)

  /** `held` lists the locks a handler holds, the last taken last. */
  datatype Handler = Handler(script: seq<Op>, held: seq<Lock>)

  datatype Manager = Manager(work: Work, handlers: seq<Handler>)

  datatype Event =
    | Begin(request: Request)
    | Advance(handler: nat)
    | ReaderEnds(task: nat)
    | LogEnds(task: nat)
    | TimerFires(timer: nat)

  function TimerSet(l: Log): set<nat> {
    if l.timer.Some? then {l.timer.value} else {}
  }

  /** A timer started under the lock, when the request asks for one. */
  function Armed(w: Work, token: nat, timed: bool): (r: (Work, Option<nat>)) {
    if timed then (w.(armed := w.armed[w.next := token], next := w.next + 1), Some(w.next)) else (w, None)
  }

  /** The effect of an action, and whether the handler goes on after it. */
  function Perform(w: Work, a: Action): (Work, bool) {
    match a
    case InsertPort(p, opens) =>
      if p in w.ports || !opens then (w, false)
      else (w.(ports := w.ports[p := w.next], reading := w.reading + {w.next}, next := w.next + 1), true)
    case RemovePort(p) =>
      if p in w.ports then (w.(ports := w.ports - {p}, reading := w.reading - {w.ports[p]}), true) else (w, false)
    case NeedPort(p) => (w, p in w.ports)
    case WriteBytes => (w, true)
    case InsertLog(p, timed) =>
      if p in w.logs then (w, false)
      else
        var task := w.next;
        var (w', timer) := Armed(w.(logging := w.logging + {task}, next := w.next + 1), task, timed);
        (w'.(logs := w'.logs[p := Log(task, timer)]), true)
    case UpdateEntry(p, timed) =>
      if p !in w.logs then (w, false)
      else if !timed then (w, true)
      else
        var l := w.logs[p];
        var (w', timer) := Armed(w.(armed := w.armed - TimerSet(l)), l.task, true);
        (w'.(logs := w'.logs[p := l.(timer := timer)]), true)
    case DropLog(p) =>
      if p in w.logs then
        (w.(logs := w.logs - {p}, cancelled := w.cancelled + {w.logs[p].task}, armed := w.armed - TimerSet(w.logs[p])), true)
      else (w, true)
    case AwaitLogTask => (w, true)
    case ReadMaps => (w, true)
    case DrainLogs =>
      (w.(logs := map[], cancelled := w.cancelled + (set p | p in w.logs :: w.logs[p].task),
          armed := w.armed - (set p, m | p in w.logs && m in TimerSet(w.logs[p]) :: m)), true)
    case DrainPorts =>
      (w.(ports := map[], reading := w.reading - (set p | p in w.ports :: w.ports[p])), true)
  }

  /** An error return drops the guards, the last taken first. */
  function Bail(held: seq<Lock>): seq<Op>
    decreases |held|
  {
    if held == [] then [] else [Release(held[|held| - 1])] + Bail(held[..|held| - 1])
  }

  predicate Free(m: Manager, l: Lock) {
    forall i :: 0 <= i < |m.handlers| ==> l !in m.handlers[i].held
  }

  predicate Unfinished(h: Handler) {
    h.script != []
  }

  ghost predicate AllDone(m: Manager) {
    forall i :: 0 <= i < |m.handlers| ==> !Unfinished(m.handlers[i])
  }

  predicate CanAdvance(m: Manager, i: nat) {
    i < |m.handlers| && Unfinished(m.handlers[i])
    && (m.handlers[i].script[0].Acquire? ==> Free(m, m.handlers[i].script[0].lock))
  }

  function Without(held: seq<Lock>, l: Lock): seq<Lock> {
    if held == [] then [] else if held[|held| - 1] == l then held[..|held| - 1] else Without(held[..|held| - 1], l) + [held[|held| - 1]]
  }

  function AdvanceStep(m: Manager, i: nat): Manager
    requires CanAdvance(m, i)
  {
    var h := m.handlers[i];
    var rest := h.script[1..];
    match h.script[0]
    case Acquire(l) => m.(handlers := m.handlers[i := Handler(rest, h.held + [l])])
    case Release(l) => m.(handlers := m.handlers[i := Handler(rest, Without(h.held, l))])
    case Act(a) =>
      var (w, goOn) := Perform(m.work, a);
      Manager(w, m.handlers[i := if goOn then Handler(rest, h.held) else Handler(Bail(h.held), h.held)])
  }

  function Step(m: Manager, ev: Event): Manager {
    match ev
    case Begin(r) => m.(handlers := m.handlers + [Handler(Script(r), [])])
    case Advance(i) => if CanAdvance(m, i) then AdvanceStep(m, i) else m
    case ReaderEnds(t) => m.(work := m.work.(reading := m.work.reading - {t}))
    case LogEnds(t) => m.(work := m.work.(logging := m.work.logging - {t}))
    case TimerFires(t) =>
      if t in m.work.armed
      then m.(work := m.work.(armed := m.work.armed - {t}, cancelled := m.work.cancelled + {m.work.armed[t]}))
      else m
  }

  const NOTHING := Work(map[], map[], {}, {}, {}, map[], 0)

  function Run(evs: seq<Event>): Manager {
    if evs == [] then Manager(NOTHING, []) else Step(Run(evs[..|evs| - 1]), evs[|evs| - 1])
  }

  // ---- deadlock freedom ----

  /** Ports come before logs, and ports before a port's writer. */
  function Rank(l: Lock): nat {
    if l.PortsLock? then 0 else 1
  }

  ghost predicate Above(l: Lock, held: seq<Lock>) {
    forall i :: 0 <= i < |held| ==> Rank(held[i]) < Rank(l)
  }

  ghost predicate Allowed(op: Op, held: seq<Lock>) {
    match op
    case Acquire(l) => Above(l, held)
    case Release(l) => held != [] && held[|held| - 1] == l
    case Act(_) => true
  }

  function HeldAfter(op: Op, held: seq<Lock>): seq<Lock> {
    match op
    case Acquire(l) => held + [l]
    case Release(l) => Without(held, l)
    case Act(_) => held
  }

  /** The rest of a script takes locks in rank order and gives back what is held. */
  ghost predicate Ordered(script: seq<Op>, held: seq<Lock>)
    decreases |script|
  {
    if script == [] then held == []
    else Allowed(script[0], held) && Ordered(script[1..], HeldAfter(script[0], held))
  }

  ghost predicate Holds(m: Manager, i: nat, l: Lock) {
    i < |m.handlers| && l in m.handlers[i].held
  }

  /** Every lock has at most one holder, and every handler keeps to the order. */
  ghost predicate Disciplined(m: Manager) {
    && (forall i :: 0 <= i < |m.handlers| ==> Ordered(m.handlers[i].script, m.handlers[i].held))
    && (forall i: nat, j: nat, l :: Holds(m, i, l) && Holds(m, j, l) ==> i == j)
  }

  lemma OrderedHead(op: Op, rest: seq<Op>, held: seq<Lock>)
    ensures Ordered([op] + rest, held) <==> Allowed(op, held) && Ordered(rest, HeldAfter(op, held))
  {
    assert ([op] + rest)[1..] == rest;
  }

  lemma {:induction false} BailOrdered(held: seq<Lock>)
    ensures Ordered(Bail(held), held)
    decreases |held|
  {
    if held != [] {
      BailOrdered(held[..|held| - 1]);
      OrderedHead(Release(held[|held| - 1]), Bail(held[..|held| - 1]), held);
    }
  }

  lemma AcquireFirst(l: Lock, rest: seq<Op>)
    ensures Ordered([Acquire(l)] + rest, []) <==> Ordered(rest, [l])
  {
    OrderedHead(Acquire(l), rest, []);
    assert [] + [l] == [l];
  }

  lemma ReleaseLast(l: Lock, rest: seq<Op>)
    ensures Ordered([Release(l)] + rest, [l]) <==> Ordered(rest, [])
  {
    OrderedHead(Release(l), rest, [l]);
    assert [l][..0] == [];
  }

  /** One lock taken, some actions, and the lock given back. */
  lemma Section(l: Lock, actions: seq<Op>, rest: seq<Op>)
    requires forall i :: 0 <= i < |actions| ==> actions[i].Act?
    ensures Ordered([Acquire(l)] + actions + [Release(l)] + rest, []) <==> Ordered(rest, [])
  {
    AcquireFirst(l, actions + [Release(l)] + rest);
    assert [Acquire(l)] + actions + [Release(l)] + rest == [Acquire(l)] + (actions + [Release(l)] + rest);
    ActionsKeep(actions, [Release(l)] + rest, [l]);
    assert actions + [Release(l)] + rest == actions + ([Release(l)] + rest);
    ReleaseLast(l, rest);
  }

  lemma {:induction false} ActionsKeep(actions: seq<Op>, rest: seq<Op>, held: seq<Lock>)
    requires forall i :: 0 <= i < |actions| ==> actions[i].Act?
    ensures Ordered(actions + rest, held) <==> Ordered(rest, held)
  {
    if actions == [] {
      assert actions + rest == rest;
    } else {
      ActionsKeep(actions[1..], rest, held);
      assert (actions + rest)[1..] == actions[1..] + rest;
    }
  }

  /** What is left of two nested locks when the outer one is held. */
  lemma InnerOrdered(outer: Lock, inner: Lock, action: Op)
    requires Rank(outer) < Rank(inner) && action.Act?
    ensures Ordered([Acquire(inner), action, Release(inner), Release(outer)], [outer])
  {
    assert [Acquire(inner), action, Release(inner), Release(outer)] == [Acquire(inner)] + ([action] + ([Release(inner)] + [Release(outer)]));
    OrderedHead(Acquire(inner), [action] + ([Release(inner)] + [Release(outer)]), [outer]);
    OrderedHead(action, [Release(inner)] + [Release(outer)], [outer, inner]);
    OrderedHead(Release(inner), [Release(outer)], [outer, inner]);
    assert [outer] + [inner] == [outer, inner] && [outer, inner][..1] == [outer];
    assert [Release(outer)] + [] == [Release(outer)];
    ReleaseLast(outer, []);
  }

  /** Two nested locks. */
  lemma Nested(outer: Lock, first: seq<Op>, inner: Lock, action: Op)
    requires Rank(outer) < Rank(inner) && action.Act? && forall i :: 0 <= i < |first| ==> first[i].Act?
    ensures Ordered([Acquire(outer)] + first + [Acquire(inner), action, Release(inner), Release(outer)], [])
  {
    var tail := [Acquire(inner), action, Release(inner), Release(outer)];
    assert [Acquire(outer)] + first + tail == [Acquire(outer)] + (first + tail);
    InnerOrdered(outer, inner, action);
    ActionsKeep(first, tail, [outer]);
    AcquireFirst(outer, first + tail);
  }

  lemma TwoSections(l: Lock, first: seq<Op>, l': Lock, second: seq<Op>)
    requires forall i :: 0 <= i < |first| ==> first[i].Act?
    requires forall i :: 0 <= i < |second| ==> second[i].Act?
    ensures Ordered([Acquire(l)] + first + [Release(l)] + ([Acquire(l')] + second + [Release(l')]), [])
  {
    OneSection(l', second);
    Section(l, first, [Acquire(l')] + second + [Release(l')]);
  }

  lemma OneSection(l: Lock, actions: seq<Op>)
    requires forall i :: 0 <= i < |actions| ==> actions[i].Act?
    ensures Ordered([Acquire(l)] + actions + [Release(l)], [])
  {
    Section(l, actions, []);
    assert [Acquire(l)] + actions + [Release(l)] + [] == [Acquire(l)] + actions + [Release(l)];
  }

  /** The scripts of two sections, section by section. */
  lemma TwoSectionScripts(p: Port, timed: bool)
    ensures Script(ClosePort(p)) == [Acquire(LogsLock)] + [Act(DropLog(p)), Act(AwaitLogTask)] + [Release(LogsLock)]
      + ([Acquire(PortsLock)] + [Act(RemovePort(p))] + [Release(PortsLock)])
    ensures Script(StartLog(p, timed)) == [Acquire(PortsLock)] + [Act(NeedPort(p))] + [Release(PortsLock)]
      + ([Acquire(LogsLock)] + [Act(InsertLog(p, timed))] + [Release(LogsLock)])
    ensures Script(CloseAll) == [Acquire(LogsLock)] + [Act(DrainLogs)] + [Release(LogsLock)]
      + ([Acquire(PortsLock)] + [Act(DrainPorts)] + [Release(PortsLock)])
  {
  }

  lemma OneSectionScripts(r: Request)
    requires r.OpenPort? || r.Subscribe? || r.UpdateLog? || r.StopLog?
    ensures Ordered(Script(r), [])
  {
    match r
    case OpenPort(p, opens) =>
      OneSection(PortsLock, [Act(InsertPort(p, opens))]);
      assert Script(r) == [Acquire(PortsLock)] + [Act(InsertPort(p, opens))] + [Release(PortsLock)];
    case Subscribe(p) =>
      OneSection(PortsLock, [Act(ReadMaps)]);
      assert Script(r) == [Acquire(PortsLock)] + [Act(ReadMaps)] + [Release(PortsLock)];
    case UpdateLog(p, timed) =>
      OneSection(LogsLock, [Act(UpdateEntry(p, timed))]);
      assert Script(r) == [Acquire(LogsLock)] + [Act(UpdateEntry(p, timed))] + [Release(LogsLock)];
    case StopLog(p) =>
      OneSection(LogsLock, [Act(DropLog(p)), Act(AwaitLogTask)]);
      assert Script(r) == [Acquire(LogsLock)] + [Act(DropLog(p)), Act(AwaitLogTask)] + [Release(LogsLock)];
  }

  /** Every handler of the source keeps to the order. */
  lemma ScriptsOrdered(r: Request)
    ensures Ordered(Script(r), [])
  {
    match r
    case WritePort(p) =>
      Nested(PortsLock, [Act(NeedPort(p))], WriterLock(p), Act(WriteBytes));
      assert Script(r) == [Acquire(PortsLock)] + [Act(NeedPort(p))]
                          + [Acquire(WriterLock(p)), Act(WriteBytes), Release(WriterLock(p)), Release(PortsLock)];
    case PortStatus =>
      Nested(PortsLock, [], LogsLock, Act(ReadMaps));
      assert Script(r) == [Acquire(PortsLock)] + [] + [Acquire(LogsLock), Act(ReadMaps), Release(LogsLock), Release(PortsLock)];
    case ClosePort(p) =>
      TwoSectionScripts(p, false);
      TwoSections(LogsLock, [Act(DropLog(p)), Act(AwaitLogTask)], PortsLock, [Act(RemovePort(p))]);
    case StartLog(p, timed) =>
      TwoSectionScripts(p, timed);
      TwoSections(PortsLock, [Act(NeedPort(p))], LogsLock, [Act(InsertLog(p, timed))]);
    case CloseAll =>
      TwoSectionScripts("", false);
      TwoSections(LogsLock, [Act(DrainLogs)], PortsLock, [Act(DrainPorts)]);
    case OpenPort(_, _) => OneSectionScripts(r);
    case Subscribe(_) => OneSectionScripts(r);
    case UpdateLog(_, _) => OneSectionScripts(r);
    case StopLog(_) => OneSectionScripts(r);
  }
}
