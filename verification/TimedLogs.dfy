/** The background work is exactly what the commands asked for and what has not ended by
    itself: read tasks, log tasks, timers and cancelled tokens, over whole runs. */
module TimedLogs {
  import opened Sequences
  import opened SerialManager
  import opened LogsAndTimers

  /** What has ended by itself: the timers that fired with the tokens they cancelled, the
      read tasks and the log tasks. */
  datatype Past = Past(timers: set<nat>, tokens: set<nat>, readers: set<nat>, logs: set<nat>)

  function PastNext(h: Past, w: Work, ev: Event): Past {
    match ev
    case TimerFires(t) => if t in w.armed then h.(timers := h.timers + {t}, tokens := h.tokens + {w.armed[t]}) else h
    case ReaderEnds(t) => if t in w.reading then h.(readers := h.readers + {t}) else h
    case LogEnds(t) => if t in w.logging then h.(logs := h.logs + {t}) else h
    case Begin(_) => h
    case Advance(_) => h
  }

  function PastOf(evs: seq<Event>): Past {
    if evs == [] then Past({}, {}, {}, {})
    else PastNext(PastOf(evs[..|evs| - 1]), Run(evs[..|evs| - 1]).work, evs[|evs| - 1])
  }

  /** The log's timer is armed until it fires, for the log's own token; the token is cancelled
      once a timer for it has fired; the log task runs until it ends. */
  ghost predicate LogExact(w: Work, l: Log, h: Past) {
    && (l.timer.Some? ==> if l.timer.value in h.timers then l.timer.value !in w.armed && l.task in h.tokens
                          else l.timer.value in w.armed && w.armed[l.timer.value] == l.task)
    && (l.task in w.cancelled <==> l.task in h.tokens)
    && (l.task in w.logging <==> l.task !in h.logs)
  }

  /** Every open port's read task runs until it ends, and every listed log is exact. */
  ghost predicate WorkExact(w: Work, h: Past) {
    && (forall p :: p in w.ports ==> (w.ports[p] in w.reading <==> w.ports[p] !in h.readers))
    && (forall p :: p in w.logs ==> LogExact(w, w.logs[p], h))
  }

  /** All numbers given out are below `next`, and open ports have different read tasks. */
  ghost predicate Below(w: Work, h: Past) {
    && (forall n :: n in w.reading || n in w.logging || n in w.cancelled || n in w.armed ==> n < w.next)
    && (forall n :: n in h.timers || n in h.tokens || n in h.readers || n in h.logs ==> n < w.next)
    && (forall m :: m in w.armed ==> w.armed[m] < w.next && m !in h.timers)
    && (forall p :: p in w.ports ==> w.ports[p] < w.next)
    && (forall p, q :: p in w.ports && q in w.ports && p != q ==> w.ports[p] != w.ports[q])
  }

  ghost predicate Kept(w: Work, h: Past) {
    NoOrphans(w) && Numbered(w) && WorkExact(w, h) && Below(w, h)
  }

  // ---- the handlers' actions ----

  lemma PortsKept(w: Work, a: Action, h: Past)
    requires Kept(w, h) && (a.InsertPort? || a.RemovePort? || a.DrainPorts?)
    ensures WorkExact(Perform(w, a).0, h) && Below(Perform(w, a).0, h)
  {
    var w' := Perform(w, a).0;
    forall p | p in w'.logs ensures LogExact(w', w'.logs[p], h) {
      assert LogExact(w, w.logs[p], h);
    }
  }

  lemma InsertLogExact(w: Work, p: Port, timed: bool, h: Past)
    requires Kept(w, h) && p !in w.logs
    ensures WorkExact(Perform(w, InsertLog(p, timed)).0, h) && Below(Perform(w, InsertLog(p, timed)).0, h)
  {
    var w' := Perform(w, InsertLog(p, timed)).0;
    forall q | q in w'.logs ensures LogExact(w', w'.logs[q], h) {
      if q != p {
        assert LogExact(w, w.logs[q], h) && w'.logs[q] == w.logs[q] && w.logs[q].task < w.next;
      }
    }
  }

  /** Only the entry's own timer is aborted with it. */
  lemma OthersArmed(w: Work, p: Port, q: Port, h: Past)
    requires Kept(w, h) && p in w.logs && q in w.logs && p != q && w.logs[q].timer.Some?
    requires w.logs[q].timer.value !in h.timers
    ensures w.logs[q].timer.value !in TimerSet(w.logs[p])
  {
    assert LogExact(w, w.logs[q], h) && LogExact(w, w.logs[p], h);
    assert w.logs[p].task != w.logs[q].task;
  }

  lemma UpdateExact(w: Work, p: Port, h: Past)
    requires Kept(w, h) && p in w.logs
    ensures WorkExact(Perform(w, UpdateEntry(p, true)).0, h) && Below(Perform(w, UpdateEntry(p, true)).0, h)
  {
    var w' := Perform(w, UpdateEntry(p, true)).0;
    forall q | q in w'.logs ensures LogExact(w', w'.logs[q], h) {
      assert LogExact(w, w.logs[q], h);
      if q != p && w.logs[q].timer.Some? && w.logs[q].timer.value !in h.timers {
        OthersArmed(w, p, q, h);
      }
    }
  }

  lemma DropLogExact(w: Work, p: Port, h: Past)
    requires Kept(w, h) && p in w.logs
    ensures WorkExact(Perform(w, DropLog(p)).0, h) && Below(Perform(w, DropLog(p)).0, h)
  {
    var w' := Perform(w, DropLog(p)).0;
    forall q | q in w'.logs ensures LogExact(w', w'.logs[q], h) {
      assert LogExact(w, w.logs[q], h);
      if w.logs[q].timer.Some? && w.logs[q].timer.value !in h.timers {
        OthersArmed(w, p, q, h);
      }
    }
  }

  lemma PerformExact(w: Work, a: Action, h: Past)
    requires Kept(w, h)
    ensures Kept(Perform(w, a).0, h)
  {
    PerformKeeps(w, a);
    match a {
      case InsertPort(_, _) => PortsKept(w, a, h);
      case RemovePort(_) => PortsKept(w, a, h);
      case DrainPorts => PortsKept(w, a, h);
      case InsertLog(p, timed) => if p !in w.logs { InsertLogExact(w, p, timed, h); }
      case UpdateEntry(p, timed) => if p in w.logs && timed { UpdateExact(w, p, h); }
      case DropLog(p) => if p in w.logs { DropLogExact(w, p, h); }
      case DrainLogs => assert Perform(w, a).0.logs == map[];
      case NeedPort(_) =>
      case WriteBytes =>
      case AwaitLogTask =>
      case ReadMaps =>
    }
  }

  // ---- what ends by itself ----

  lemma TimerFiresExact(m: Manager, t: nat, h: Past)
    requires Kept(m.work, h) && t in m.work.armed
    ensures var w' := Step(m, TimerFires(t)).work; var h' := PastNext(h, m.work, TimerFires(t)); WorkExact(w', h') && Below(w', h')
  {
    var w := m.work;
    var w' := Step(m, TimerFires(t)).work;
    var h' := PastNext(h, w, TimerFires(t));
    forall p | p in w'.logs ensures LogExact(w', w'.logs[p], h') {
      assert LogExact(w, w.logs[p], h);
      if w.logs[p].timer == Some(t) { FiredIsOwn(w, p, t, h); }
    }
  }

  /** The timer of an entry that has not fired cancels this entry's token. */
  lemma FiredIsOwn(w: Work, p: Port, t: nat, h: Past)
    requires Kept(w, h) && p in w.logs && t in w.armed && w.logs[p].timer == Some(t)
    ensures w.armed[t] == w.logs[p].task
  {
    assert LogExact(w, w.logs[p], h);
  }

  lemma TasksEndExact(m: Manager, ev: Event, h: Past)
    requires Kept(m.work, h) && (ev.ReaderEnds? || ev.LogEnds?)
    ensures var w' := Step(m, ev).work; var h' := PastNext(h, m.work, ev); WorkExact(w', h') && Below(w', h')
  {
    var w' := Step(m, ev).work;
    var h' := PastNext(h, m.work, ev);
    forall p | p in w'.logs ensures LogExact(w', w'.logs[p], h') {
      assert LogExact(m.work, m.work.logs[p], h);
    }
  }

  lemma StepExact(m: Manager, ev: Event, h: Past)
    requires Kept(m.work, h)
    ensures Kept(Step(m, ev).work, PastNext(h, m.work, ev))
  {
    StepKeeps(m, ev);
    match ev {
      case Begin(_) =>
      case Advance(i) =>
        if CanAdvance(m, i) && m.handlers[i].script[0].Act? {
          PerformExact(m.work, m.handlers[i].script[0].action, h);
        }
      case TimerFires(t) => if t in m.work.armed { TimerFiresExact(m, t, h); }
      case ReaderEnds(_) => TasksEndExact(m, ev, h);
      case LogEnds(_) => TasksEndExact(m, ev, h);
    }
  }

  /** Main theorem, in every reachable state, under any interleaving: an open port's read task
      and a listed log's task run unless they have ended by themselves; a log's timer is armed
      unless it has fired; and a listed log's token is cancelled exactly when a timer for it
      has fired. */
  lemma {:induction false} WorkIsExact(evs: seq<Event>)
    ensures Kept(Run(evs).work, PastOf(evs))
  {
    if evs != [] {
      WorkIsExact(evs[..|evs| - 1]);
      StepExact(Run(evs[..|evs| - 1]), evs[|evs| - 1], PastOf(evs[..|evs| - 1]));
    }
  }

  // ---- durations ----

  /** The armed timers that would cancel the token: the given one and no other. */
  ghost predicate OnlyTimer(w: Work, token: nat, timer: Option<nat>) {
    forall m :: m in w.armed && w.armed[m] == token <==> timer == Some(m)
  }

  /** A listed log has no armed timer but the one in its entry. */
  lemma EntryTimerOnly(w: Work, p: Port, h: Past)
    requires Kept(w, h) && p in w.logs && (w.logs[p].timer.Some? ==> w.logs[p].timer.value !in h.timers)
    ensures OnlyTimer(w, w.logs[p].task, w.logs[p].timer)
  {
    assert LogExact(w, w.logs[p], h);
    forall m | m in w.armed && w.armed[m] == w.logs[p].task ensures w.logs[p].timer == Some(m) {
      var q :| q in w.logs && w.logs[q] == Log(w.armed[m], Some(m));
      assert q == p;
    }
  }

  /** Handler i of the run is about to do the action. */
  ghost predicate About(m: Manager, i: nat, a: Action) {
    CanAdvance(m, i) && m.handlers[i].script[0] == Act(a)
  }

  lemma AdvanceRun(evs: seq<Event>, i: nat, a: Action)
    requires About(Run(evs), i, a)
    ensures Run(evs + [Advance(i)]).work == Perform(Run(evs).work, a).0 && PastOf(evs + [Advance(i)]) == PastOf(evs)
  {
    assert (evs + [Advance(i)])[..|evs|] == evs;
  }

  /** When start_log enters its log, the log's task runs, and exactly one armed timer would cancel
      it if a duration was given, none otherwise. */
  lemma StartLogTimer(evs: seq<Event>, i: nat, p: Port, timed: bool)
    requires About(Run(evs), i, InsertLog(p, timed)) && p !in Run(evs).work.logs
    ensures var w := Run(evs).work; var w' := Run(evs + [Advance(i)]).work;
      && p in w'.logs && w'.logs[p].task !in w.logging && w'.logs[p].task in w'.logging && w'.logs[p].task !in w'.cancelled
      && (w'.logs[p].timer.Some? <==> timed) && OnlyTimer(w', w'.logs[p].task, w'.logs[p].timer)
      && w'.logs - {p} == w.logs
  {
    AdvanceRun(evs, i, InsertLog(p, timed));
    WorkIsExact(evs);
    WorkIsExact(evs + [Advance(i)]);
    InsertedEntry(Run(evs).work, p, timed, PastOf(evs));
    EntryTimerOnly(Run(evs + [Advance(i)]).work, p, PastOf(evs));
  }

  lemma InsertedEntry(w: Work, p: Port, timed: bool, h: Past)
    requires Kept(w, h) && p !in w.logs
    ensures var w' := Perform(w, InsertLog(p, timed)).0;
      && p in w'.logs && w'.logs[p].task == w.next && w'.logs[p].task in w'.logging && w'.logs[p].task !in w'.cancelled
      && (w'.logs[p].timer.Some? <==> timed) && (timed ==> w'.logs[p].timer.value !in h.timers)
      && w'.logs - {p} == w.logs
  {
    assert w.logs[p := Perform(w, InsertLog(p, timed)).0.logs[p]] - {p} == w.logs;
  }

  /** update_log with a duration gives the same log a new timer, the only one that would cancel
      it; without one it leaves everything as it is, the old timer with it. */
  lemma UpdateLogTimer(evs: seq<Event>, i: nat, p: Port, timed: bool)
    requires About(Run(evs), i, UpdateEntry(p, timed)) && p in Run(evs).work.logs
    ensures var w := Run(evs).work; var w' := Run(evs + [Advance(i)]).work;
      && (!timed ==> w' == w)
      && p in w'.logs && w'.logs[p].task == w.logs[p].task && w'.logs - {p} == w.logs - {p}
      && (timed ==> w'.logs[p].timer.Some? && w'.logs[p].timer.value !in w.armed && OnlyTimer(w', w'.logs[p].task, w'.logs[p].timer))
  {
    AdvanceRun(evs, i, UpdateEntry(p, timed));
    WorkIsExact(evs);
    WorkIsExact(evs + [Advance(i)]);
    if timed {
      UpdatedEntry(Run(evs).work, p, PastOf(evs));
      EntryTimerOnly(Run(evs + [Advance(i)]).work, p, PastOf(evs));
    }
  }

  lemma UpdatedEntry(w: Work, p: Port, h: Past)
    requires Kept(w, h) && p in w.logs
    ensures var w' := Perform(w, UpdateEntry(p, true)).0;
      && p in w'.logs && w'.logs[p] == Log(w.logs[p].task, Some(w.next)) && w.next !in h.timers && w.next !in w.armed
      && w'.logs - {p} == w.logs - {p}
  {
    assert w.logs[p := Log(w.logs[p].task, Some(w.next))] - {p} == w.logs - {p};
  }

  /** When a log's timer fires, its token is cancelled and no other timer is left for it. */
  lemma TimerStopsLog(evs: seq<Event>, p: Port, t: nat)
    requires var w := Run(evs).work; p in w.logs && w.logs[p].timer == Some(t) && t in w.armed
    ensures var w := Run(evs).work; var w' := Run(evs + [TimerFires(t)]).work;
      w'.logs == w.logs && w'.cancelled == w.cancelled + {w.logs[p].task} && OnlyTimer(w', w.logs[p].task, None)
  {
    var w := Run(evs).work;
    assert (evs + [TimerFires(t)])[..|evs|] == evs;
    WorkIsExact(evs);
    FiredIsOwn(w, p, t, PastOf(evs));
    EntryTimerOnly(w, p, PastOf(evs));
  }

  /** Whether the last start_log or update_log with a duration for the port's present log had one. */
  ghost predicate Timed(evs: seq<Event>, p: Port) {
    if evs == [] then false
    else
      var init := evs[..|evs| - 1];
      var m := Run(init);
      var last := evs[|evs| - 1];
      if last.Advance? && About(m, last.handler, InsertLog(p, true)) && p !in m.work.logs then true
      else if last.Advance? && About(m, last.handler, InsertLog(p, false)) && p !in m.work.logs then false
      else if last.Advance? && About(m, last.handler, UpdateEntry(p, true)) then true
      else Timed(init, p)
  }

  /** A listed log has a timer in its entry exactly when it was started with a duration or has been
      updated with one. */
  lemma {:induction false} TimedIff(evs: seq<Event>, p: Port)
    requires p in Run(evs).work.logs
    ensures Run(evs).work.logs[p].timer.Some? <==> Timed(evs, p)
  {
    if evs != [] {
      var init := evs[..|evs| - 1];
      if p in Run(init).work.logs { TimedIff(init, p); }
      TimedNext(Run(init), evs[|evs| - 1], p);
    }
  }

  lemma TimedNext(m: Manager, ev: Event, p: Port)
    requires p in Step(m, ev).work.logs
    ensures var w, w' := m.work, Step(m, ev).work;
      if p !in w.logs then
        exists timed :: ev.Advance? && About(m, ev.handler, InsertLog(p, timed)) && (w'.logs[p].timer.Some? <==> timed)
      else
        w'.logs[p].timer.Some? <==> w.logs[p].timer.Some? || (ev.Advance? && About(m, ev.handler, UpdateEntry(p, true)))
  {
    if ev.Advance? && CanAdvance(m, ev.handler) && m.handlers[ev.handler].script[0].Act? {
      PerformTimed(m.work, m.handlers[ev.handler].script[0].action, p);
      assert forall timed :: About(m, ev.handler, InsertLog(p, timed)) <==> m.handlers[ev.handler].script[0].action == InsertLog(p, timed);
    }
  }

  lemma PerformTimed(w: Work, a: Action, p: Port)
    requires p in Perform(w, a).0.logs
    ensures var w' := Perform(w, a).0;
      if p !in w.logs then a.InsertLog? && a.port == p && (w'.logs[p].timer.Some? <==> a.timed)
      else w'.logs[p].timer.Some? <==> w.logs[p].timer.Some? || a == UpdateEntry(p, true)
  {
  }
}
