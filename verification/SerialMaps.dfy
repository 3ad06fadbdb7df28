/** The manager's two maps updated in place: the body of each handler, between taking a
    lock and giving it back. */
module SerialMaps {
  import opened Sequences
  import opened SerialManager

  class Maps {
    var ports: map<Port, nat>
    var logs: map<Port, Log>
    var reading: set<nat>
    var logging: set<nat>
    var cancelled: set<nat>
    var armed: map<nat, nat>
    var next: nat

    ghost function Value(): Work
      reads this
    {
      Work(ports, logs, reading, logging, cancelled, armed, next)
    }

    constructor ()
      ensures Value() == NOTHING
    {
      ports, logs, reading, logging, cancelled, armed, next := map[], map[], {}, {}, {}, map[], 0;
    }

    method OpenPort(p: Port, opens: bool) returns (ok: bool)
      modifies this
      ensures (Value(), ok) == Perform(old(Value()), InsertPort(p, opens))
    {
      if p in ports || !opens {
        return false;
      }
      reading, ports, next := reading + {next}, ports[p := next], next + 1;
      ok := true;
    }

    method ClosePort(p: Port) returns (ok: bool)
      modifies this
      ensures (Value(), ok) == Perform(old(Value()), RemovePort(p))
    {
      if p !in ports {
        return false;
      }
      reading, ports := reading - {ports[p]}, ports - {p};
      ok := true;
    }

    method StartTimer(token: nat) returns (timer: nat)
      modifies this`armed, this`next
      ensures (Value(), Some(timer)) == Armed(old(Value()), token, true)
    {
      timer := next;
      armed, next := armed[timer := token], next + 1;
    }

    method StartLog(p: Port, timed: bool) returns (ok: bool)
      modifies this
      ensures (Value(), ok) == Perform(old(Value()), InsertLog(p, timed))
      ensures ok <==> p !in old(logs)
      ensures ok ==> p in logs && logs[p].task in logging && (logs[p].timer.Some? <==> timed)
      ensures ok ==> armed == if timed then old(armed)[logs[p].timer.value := logs[p].task] else old(armed)
    {
      if p in logs {
        return false;
      }
      var task := next;
      logging, next := logging + {task}, next + 1;
      var duration := None;
      if timed {
        var timer := StartTimer(task);
        duration := Some(timer);
      }
      logs := logs[p := Log(task, duration)];
      ok := true;
    }

    /** The old timer is aborted and the new one takes its place. */
    method UpdateLog(p: Port, timed: bool) returns (ok: bool)
      modifies this
      ensures (Value(), ok) == Perform(old(Value()), UpdateEntry(p, timed))
      ensures ok <==> p in old(logs)
      ensures !timed ==> logs == old(logs) && armed == old(armed)
      ensures ok && timed ==>
        && p in logs && logs[p].task == old(logs)[p].task && logs[p].timer.Some?
        && armed == (old(armed) - TimerSet(old(logs)[p]))[logs[p].timer.value := logs[p].task]
    {
      if p !in logs {
        return false;
      }
      if timed {
        armed := armed - TimerSet(logs[p]);
        var timer := StartTimer(logs[p].task);
        logs := logs[p := logs[p].(timer := Some(timer))];
      }
      ok := true;
    }

    method StopLog(p: Port)
      modifies this
      ensures Value() == Perform(old(Value()), DropLog(p)).0
    {
      if p in logs {
        var log := logs[p];
        logs := logs - {p};
        cancelled := cancelled + {log.task};
        armed := armed - TimerSet(log);
      }
    }

    /** close_all's first half, one entry after another, in any order. */
    method StopAllLogs()
      modifies this
      ensures Value() == Perform(old(Value()), SerialManager.DrainLogs).0
    {
      ghost var was := Value();
      while logs != map[]
        invariant Perform(Value(), SerialManager.DrainLogs).0 == Perform(was, SerialManager.DrainLogs).0
        decreases |logs|
      {
        var p :| p in logs;
        LogDroppedBefore(Value(), p);
        StopLog(p);
      }
      NoLogsLeft(Value());
    }

    /** Its second half. */
    method CloseAllPorts()
      modifies this
      ensures Value() == Perform(old(Value()), SerialManager.DrainPorts).0
    {
      ghost var was := Value();
      while ports != map[]
        invariant Perform(Value(), SerialManager.DrainPorts).0 == Perform(was, SerialManager.DrainPorts).0
        decreases |ports|
      {
        var p :| p in ports;
        PortClosedBefore(Value(), p);
        reading, ports := reading - {ports[p]}, ports - {p};
      }
      NoPortsLeft(Value());
    }
  }

  /** When an action succeeds; a refused one changes nothing. */
  lemma AnsweredIff(w: Work, a: Action)
    ensures Perform(w, a).1 <==>
      match a
      case InsertPort(p, opens) => opens && p !in w.ports
      case RemovePort(p) => p in w.ports
      case NeedPort(p) => p in w.ports
      case InsertLog(p, _) => p !in w.logs
      case UpdateEntry(p, _) => p in w.logs
      case DropLog(_) => true
      case WriteBytes => true
      case AwaitLogTask => true
      case ReadMaps => true
      case DrainLogs => true
      case DrainPorts => true
    ensures !Perform(w, a).1 ==> Perform(w, a).0 == w
  {
  }

  /** Which ports are open and which logs are listed after a successful action. */
  lemma ListedAfter(w: Work, a: Action)
    requires Perform(w, a).1
    ensures var w' := Perform(w, a).0;
      && w'.ports.Keys == (if a.InsertPort? then w.ports.Keys + {a.port} else if a.RemovePort? then w.ports.Keys - {a.port}
                           else if a.DrainPorts? then {} else w.ports.Keys)
      && w'.logs.Keys == (if a.InsertLog? then w.logs.Keys + {a.port} else if a.DropLog? then w.logs.Keys - {a.port}
                          else if a.DrainLogs? then {} else w.logs.Keys)
  {
  }

  /** Opening a port and closing it again leaves the open ports and the read tasks as they were. */
  lemma CloseUndoesOpen(w: Work, p: Port)
    requires p !in w.ports && w.next !in w.reading
    ensures var w' := Perform(w, InsertPort(p, true)).0; var w'' := Perform(w', RemovePort(p)).0;
      p in w'.ports && w'.reading == w.reading + {w'.ports[p]} && w'' == w.(next := w''.next)
  {
    var w' := Perform(w, InsertPort(p, true)).0;
    assert w'.ports - {p} == w.ports && w'.reading - {w'.ports[p]} == w.reading;
  }

  /** Stopping one log first makes no difference to stopping them all. */
  lemma LogDroppedBefore(w: Work, p: Port)
    requires p in w.logs
    ensures Perform(Perform(w, DropLog(p)).0, DrainLogs).0 == Perform(w, DrainLogs).0
  {
    var w' := Perform(w, DropLog(p)).0;
    var tasks := set q | q in w.logs :: w.logs[q].task;
    var tasks' := set q | q in w'.logs :: w'.logs[q].task;
    assert tasks == {w.logs[p].task} + tasks' by {
      forall t | t in tasks ensures t == w.logs[p].task || t in tasks' {
        var q :| q in w.logs && w.logs[q].task == t;
        assert q != p ==> w'.logs[q].task == t;
      }
    }
    assert w'.cancelled + tasks' == w.cancelled + tasks;
    TimersDropped(w, p);
  }

  lemma TimersDropped(w: Work, p: Port)
    requires p in w.logs
    ensures Perform(Perform(w, DropLog(p)).0, DrainLogs).0.armed == Perform(w, DrainLogs).0.armed
  {
    var w' := Perform(w, DropLog(p)).0;
    var timers := set q, m | q in w.logs && m in TimerSet(w.logs[q]) :: m;
    var timers' := set q, m | q in w'.logs && m in TimerSet(w'.logs[q]) :: m;
    assert timers == TimerSet(w.logs[p]) + timers' by {
      forall m | m in timers ensures m in TimerSet(w.logs[p]) || m in timers' {
        var q :| q in w.logs && m in TimerSet(w.logs[q]);
        assert q != p ==> q in w'.logs && m in TimerSet(w'.logs[q]);
      }
    }
    assert w'.armed - timers' == w.armed - timers;
  }

  lemma NoLogsLeft(w: Work)
    requires w.logs == map[]
    ensures Perform(w, DrainLogs).0 == w
  {
    assert w.armed - (set p, m | p in w.logs && m in TimerSet(w.logs[p]) :: m) == w.armed;
  }

  lemma PortClosedBefore(w: Work, p: Port)
    requires p in w.ports
    ensures Perform(Perform(w, RemovePort(p)).0, DrainPorts).0 == Perform(w, DrainPorts).0
  {
    var w' := Perform(w, RemovePort(p)).0;
    var tasks := set q | q in w.ports :: w.ports[q];
    var tasks' := set q | q in w'.ports :: w'.ports[q];
    assert tasks == {w.ports[p]} + tasks' by {
      forall t | t in tasks ensures t == w.ports[p] || t in tasks' {
        var q :| q in w.ports && w.ports[q] == t;
        assert q != p ==> w'.ports[q] == t;
      }
    }
    assert w'.reading - tasks' == w.reading - tasks;
  }

  lemma NoPortsLeft(w: Work)
    requires w.ports == map[]
    ensures Perform(w, DrainPorts).0 == w
  {
  }
}
