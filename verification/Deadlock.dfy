/** No set of concurrent serial-manager handlers can block each other for good. */
module Deadlock {
  import opened SerialManager

  /** Locks held by a disciplined handler are given back by steps still to come. */
  lemma {:induction false} OrderedGivesBack(script: seq<Op>, held: seq<Lock>)
    requires Ordered(script, held)
    ensures |held| <= |script|
    decreases |script|
  {
    if script != [] {
      OrderedGivesBack(script[1..], HeldAfter(script[0], held));
    }
  }

  lemma {:induction false} BailLength(held: seq<Lock>)
    ensures |Bail(held)| == |held|
    decreases |held|
  {
    if held != [] {
      BailLength(held[..|held| - 1]);
    }
  }

  /** The handler after a step of its own. */
  function Advanced(w: Work, h: Handler): Handler
    requires Unfinished(h)
  {
    match h.script[0]
    case Acquire(l) => Handler(h.script[1..], h.held + [l])
    case Release(l) => Handler(h.script[1..], Without(h.held, l))
    case Act(a) => if Perform(w, a).1 then Handler(h.script[1..], h.held) else Handler(Bail(h.held), h.held)
  }

  lemma AdvancedKeepsOrder(w: Work, h: Handler)
    requires Unfinished(h) && Ordered(h.script, h.held)
    ensures Ordered(Advanced(w, h).script, Advanced(w, h).held)
    ensures |Advanced(w, h).script| < |h.script|
  {
    BailOrdered(h.held);
    BailLength(h.held);
    OrderedGivesBack(h.script[1..], HeldAfter(h.script[0], h.held));
  }

  /** A step only adds the lock it acquires. */
  lemma AdvancedHolds(w: Work, h: Handler, l: Lock)
    requires Unfinished(h) && Ordered(h.script, h.held) && l in Advanced(w, h).held
    ensures l in h.held || (h.script[0].Acquire? && h.script[0].lock == l)
  {
  }

  lemma HeldBefore(m: Manager, i: nat, j: nat, l: Lock)
    requires Disciplined(m) && CanAdvance(m, i)
    requires AdvanceStep(m, i).handlers == m.handlers[i := Advanced(m.work, m.handlers[i])]
    requires Holds(AdvanceStep(m, i), j, l)
    ensures Holds(m, j, l) || (j == i && m.handlers[i].script[0] == Acquire(l))
  {
    if j == i {
      AdvancedHolds(m.work, m.handlers[i], l);
    }
  }

  lemma AdvanceKeepsDiscipline(m: Manager, i: nat)
    requires Disciplined(m) && CanAdvance(m, i)
    ensures Disciplined(AdvanceStep(m, i))
    ensures AdvanceStep(m, i).handlers == m.handlers[i := Advanced(m.work, m.handlers[i])]
  {
    var m' := AdvanceStep(m, i);
    AdvancedKeepsOrder(m.work, m.handlers[i]);
    forall j: nat, k: nat, l | Holds(m', j, l) && Holds(m', k, l) ensures j == k {
      HeldBefore(m, i, j, l);
      HeldBefore(m, i, k, l);
      if Holds(m, j, l) && Holds(m, k, l) {
        OneHolder(m, j, k, l);
      }
    }
  }

  lemma OneHolder(m: Manager, j: nat, k: nat, l: Lock)
    requires Disciplined(m) && Holds(m, j, l) && Holds(m, k, l)
    ensures j == k
  {
  }

  lemma BeginKeepsDiscipline(m: Manager, r: Request)
    requires Disciplined(m)
    ensures Disciplined(Step(m, Begin(r)))
  {
    var m' := Step(m, Begin(r));
    ScriptsOrdered(r);
    forall j: nat, k: nat, l | Holds(m', j, l) && Holds(m', k, l) ensures j == k {
      assert m'.handlers[|m.handlers|].held == [];
      OneHolder(m, j, k, l);
    }
  }

  lemma StepKeepsDiscipline(m: Manager, ev: Event)
    requires Disciplined(m)
    ensures Disciplined(Step(m, ev))
  {
    match ev {
      case Begin(r) => BeginKeepsDiscipline(m, r);
      case Advance(i) => if CanAdvance(m, i) { AdvanceKeepsDiscipline(m, i); }
      case ReaderEnds(_) => SameHandlers(m, Step(m, ev));
      case LogEnds(_) => SameHandlers(m, Step(m, ev));
      case TimerFires(_) => SameHandlers(m, Step(m, ev));
    }
  }

  lemma SameHandlers(m: Manager, m': Manager)
    requires Disciplined(m) && m'.handlers == m.handlers
    ensures Disciplined(m')
  {
    assert forall j: nat, l :: Holds(m', j, l) ==> Holds(m, j, l);
  }

  lemma {:induction false} AlwaysDisciplined(evs: seq<Event>)
    ensures Disciplined(Run(evs))
  {
    if evs != [] {
      AlwaysDisciplined(evs[..|evs| - 1]);
      StepKeepsDiscipline(Run(evs[..|evs| - 1]), evs[|evs| - 1]);
    }
  }

  /** How high the lock is that a handler is about to take. */
  function Wanted(h: Handler): nat {
    if Unfinished(h) && h.script[0].Acquire? then Rank(h.script[0].lock) else 2
  }

  /** Follow the holders: each one waits for a lock of a higher rank, so one can step. */
  lemma {:induction false} SomeoneCanAdvance(m: Manager, i: nat) returns (k: nat)
    requires Disciplined(m) && i < |m.handlers| && Unfinished(m.handlers[i])
    ensures CanAdvance(m, k)
    decreases 2 - Wanted(m.handlers[i])
  {
    if CanAdvance(m, i) {
      return i;
    }
    var l := m.handlers[i].script[0].lock;
    var j: nat :| j < |m.handlers| && l in m.handlers[j].held;
    assert Unfinished(m.handlers[j]) by {
      assert Ordered(m.handlers[j].script, m.handlers[j].held);
    }
    assert Wanted(m.handlers[j]) > Rank(l) by {
      assert Ordered(m.handlers[j].script, m.handlers[j].held);
    }
    k := SomeoneCanAdvance(m, j);
  }

  /** Main theorem: in every reachable state, for any number of concurrent handlers, if
      some handler has not finished then some handler can step. */
  lemma NeverDeadlocked(evs: seq<Event>)
    ensures var m := Run(evs);
      (exists i :: 0 <= i < |m.handlers| && Unfinished(m.handlers[i])) ==> exists k :: CanAdvance(m, k)
  {
    var m := Run(evs);
    AlwaysDisciplined(evs);
    if i :| 0 <= i < |m.handlers| && Unfinished(m.handlers[i]) {
      var k := SomeoneCanAdvance(m, i);
    }
  }

  // ---- and they all finish ----

  function Remaining(handlers: seq<Handler>): nat {
    if handlers == [] then 0 else Remaining(handlers[..|handlers| - 1]) + |handlers[|handlers| - 1].script|
  }

  lemma {:induction false} RemainingUpdate(handlers: seq<Handler>, i: nat, h: Handler)
    requires i < |handlers|
    ensures Remaining(handlers[i := h]) == Remaining(handlers) - |handlers[i].script| + |h.script|
  {
    var last := |handlers| - 1;
    if i < last {
      assert handlers[i := h][..last] == handlers[..last][i := h];
      RemainingUpdate(handlers[..last], i, h);
    } else {
      assert handlers[i := h][..last] == handlers[..last];
    }
  }

  /** Each step of a handler leaves less to do, so however the handlers are scheduled,
      they finish after at most `Remaining` of their own steps. */
  lemma StepLeavesLess(m: Manager, i: nat)
    requires Disciplined(m) && CanAdvance(m, i)
    ensures Remaining(AdvanceStep(m, i).handlers) < Remaining(m.handlers)
  {
    AdvanceKeepsDiscipline(m, i);
    AdvancedKeepsOrder(m.work, m.handlers[i]);
    RemainingUpdate(m.handlers, i, Advanced(m.work, m.handlers[i]));
  }

  function Schedule(m: Manager, steps: seq<nat>): Manager
    decreases |steps|
  {
    if steps == [] then m else Schedule(Step(m, Advance(steps[0])), steps[1..])
  }

  /** From every disciplined state the handlers can all be run to their end. */
  lemma {:induction false} AllCanFinish(m: Manager) returns (steps: seq<nat>)
    requires Disciplined(m)
    ensures AllDone(Schedule(m, steps)) && |steps| <= Remaining(m.handlers)
    decreases Remaining(m.handlers)
  {
    if AllDone(m) {
      return [];
    }
    var i: nat :| i < |m.handlers| && Unfinished(m.handlers[i]);
    var k := SomeoneCanAdvance(m, i);
    StepLeavesLess(m, k);
    AdvanceKeepsDiscipline(m, k);
    var rest := AllCanFinish(AdvanceStep(m, k));
    steps := [k] + rest;
    assert steps[1..] == rest;
  }
}
