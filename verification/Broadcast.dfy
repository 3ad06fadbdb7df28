/** A bounded broadcast channel as its readers see it: everything ever sent, of which
    the last 256 entries are retained, and one cursor per receiver. */
module Broadcast {
  import opened Sequences

  const BROADCAST_CAPACITY: nat := 256

  datatype Channel<T> = Channel(sent: seq<T>, closed: bool)

  datatype Outcome<T> = Got(value: T) | Lagged(missed: nat) | Empty | Closed

  function Oldest<T>(ch: Channel<T>): nat {
    Max(0, |ch.sent| - BROADCAST_CAPACITY)
  }

  /** One `try_recv`. A receiver that fell out of the retained window is moved to its
      start; `Closed` is only answered once everything has been read. */
  function TryRecv<T>(ch: Channel<T>, cursor: nat): (r: (Outcome<T>, nat))
    requires cursor <= |ch.sent|
    ensures cursor <= r.1 <= |ch.sent|
    ensures r.0.Closed? ==> cursor == |ch.sent|
  {
    if cursor < Oldest(ch) then (Lagged(Oldest(ch) - cursor), Oldest(ch))
    else if cursor < |ch.sent| then (Got(ch.sent[cursor]), cursor + 1)
    else if ch.closed then (Closed, cursor)
    else (Empty, cursor)
  }

  /** The polling loop of the streaming task for one port, when nothing new is sent
      meanwhile: it retries after `Lagged` and stops at `Empty` or `Closed`, so it
      runs through the unread entries, and a receiver that is dropped was read out. */
  method PollAll<T>(ch: Channel<T>, start: nat) returns (got: seq<T>, cursor: nat, closed: bool)
    requires start <= |ch.sent|
    ensures got == ch.sent[Max(start, Oldest(ch))..]
    ensures cursor == |ch.sent| && closed == ch.closed
  {
    got, cursor, closed := [], start, false;
    while true
      invariant start <= cursor <= |ch.sent|
      invariant cursor == start || cursor >= Oldest(ch)
      invariant got == ch.sent[Min(cursor, Max(start, Oldest(ch)))..cursor]
      decreases |ch.sent| - cursor
    {
      var r := TryRecv(ch, cursor);
      cursor := r.1;
      match r.0
      case Got(value) => got := got + [value];
      case Lagged(_) =>
      case Empty => return;
      case Closed => closed := true; return;
    }
  }

  /** What can happen to a channel and one of its receivers. */
  datatype ReaderEvent<T> = Send(value: T) | Shut | Poll

  /** One answer of the receiver: the entry numbered index, or a gap of n entries. */
  datatype Answer = Entry(index: nat) | Gap(n: nat)

  datatype Reader<T> = Reader(ch: Channel<T>, cursor: nat, answers: seq<Answer>, dropped: bool)

  function ReaderStep<T>(r: Reader<T>, ev: ReaderEvent<T>): (r': Reader<T>)
    requires r.cursor <= |r.ch.sent|
    ensures r'.cursor <= |r'.ch.sent|
  {
    match ev
    case Send(x) => if r.ch.closed then r else r.(ch := r.ch.(sent := r.ch.sent + [x]))
    case Shut => r.(ch := r.ch.(closed := true))
    case Poll =>
      if r.dropped then r
      else
        var (outcome, cursor') := TryRecv(r.ch, r.cursor);
        match outcome
        case Got(_) => r.(cursor := cursor', answers := r.answers + [Entry(r.cursor)])
        case Lagged(n) => r.(cursor := cursor', answers := r.answers + [Gap(n)])
        case Empty => r
        case Closed => r.(dropped := true)
  }

  function ReaderRun<T>(start: Reader<T>, evs: seq<ReaderEvent<T>>): (r: Reader<T>)
    requires start.cursor <= |start.ch.sent|
    ensures r.cursor <= |r.ch.sent|
  {
    if evs == [] then start else ReaderStep(ReaderRun(start, evs[..|evs| - 1]), evs[|evs| - 1])
  }

  /** Where a reader that began at `from` is after its answers. */
  function Reach(from: nat, answers: seq<Answer>): nat {
    if answers == [] then from
    else
      var last := answers[|answers| - 1];
      Reach(from, answers[..|answers| - 1]) + (if last.Entry? then 1 else last.n)
  }

  /** The numbers of the entries delivered, in order of delivery. */
  function Delivered(answers: seq<Answer>): seq<nat> {
    if answers == [] then []
    else
      var before := Delivered(answers[..|answers| - 1]);
      var last := answers[|answers| - 1];
      if last.Entry? then before + [last.index] else before
  }

  function Missed(answers: seq<Answer>): nat {
    if answers == [] then 0
    else
      var last := answers[|answers| - 1];
      Missed(answers[..|answers| - 1]) + (if last.Gap? then last.n else 0)
  }

  /** The answers follow one another without overlap or hole: each delivered entry is
      the next one after everything answered before it. */
  ghost predicate Gapless(from: nat, answers: seq<Answer>) {
    answers == [] ||
    (Gapless(from, answers[..|answers| - 1]) &&
     (answers[|answers| - 1].Entry? ==> answers[|answers| - 1].index == Reach(from, answers[..|answers| - 1])))
  }

  lemma {:induction false} StepKeepsGapless<T>(from: nat, r: Reader<T>, ev: ReaderEvent<T>)
    requires r.cursor <= |r.ch.sent|
    requires Gapless(from, r.answers) && Reach(from, r.answers) == r.cursor
    ensures var r' := ReaderStep(r, ev); Gapless(from, r'.answers) && Reach(from, r'.answers) == r'.cursor
  {
    var r' := ReaderStep(r, ev);
    if r'.answers != r.answers {
      assert r'.answers[..|r'.answers| - 1] == r.answers;
    }
  }

  lemma {:induction false} GaplessAscending(from: nat, answers: seq<Answer>)
    requires Gapless(from, answers)
    ensures var d := Delivered(answers);
      && (forall i, j :: 0 <= i < j < |d| ==> d[i] < d[j])
      && (forall i :: 0 <= i < |d| ==> from <= d[i] < Reach(from, answers))
      && from + |d| + Missed(answers) == Reach(from, answers)
  {
    if answers != [] {
      GaplessAscending(from, answers[..|answers| - 1]);
    }
  }

  /** Without a gap the entries delivered are all from the first to the cursor. */
  lemma {:induction false} AllDelivered(from: nat, answers: seq<Answer>)
    requires Gapless(from, answers) && Missed(answers) == 0
    ensures forall k: nat :: k in Delivered(answers) <==> from <= k < Reach(from, answers)
  {
    if answers != [] {
      AllDelivered(from, answers[..|answers| - 1]);
      GaplessAscending(from, answers[..|answers| - 1]);
    }
  }

  /** For every run of sends, close and polls: what a receiver at `from` delivers is an
      in-order, duplicate-free subsequence of what was sent from there on; delivered
      entries and reported gaps together account for everything up to the cursor; and
      a receiver is dropped only when nothing sent is left unread. */
  lemma {:induction false} ReceiverAccounts<T>(ch: Channel<T>, from: nat, evs: seq<ReaderEvent<T>>)
    requires from <= |ch.sent|
    ensures var r := ReaderRun(Reader(ch, from, [], false), evs); var d := Delivered(r.answers);
      && Gapless(from, r.answers)
      && (forall i, j :: 0 <= i < j < |d| ==> d[i] < d[j])
      && (forall i :: 0 <= i < |d| ==> from <= d[i] < r.cursor)
      && from + |d| + Missed(r.answers) == r.cursor <= |r.ch.sent|
      && (r.dropped ==> r.ch.closed && r.cursor == |r.ch.sent|)
  {
    RunGapless(ch, from, evs);
    GaplessAscending(from, ReaderRun(Reader(ch, from, [], false), evs).answers);
  }

  lemma {:induction false} RunGapless<T>(ch: Channel<T>, from: nat, evs: seq<ReaderEvent<T>>)
    requires from <= |ch.sent|
    ensures var r := ReaderRun(Reader(ch, from, [], false), evs);
      Gapless(from, r.answers) && Reach(from, r.answers) == r.cursor
        && (r.dropped ==> r.ch.closed && r.cursor == |r.ch.sent|)
  {
    if evs != [] {
      RunGapless(ch, from, evs[..|evs| - 1]);
      StepKeepsGapless(from, ReaderRun(Reader(ch, from, [], false), evs[..|evs| - 1]), evs[|evs| - 1]);
    }
  }

  /** Nothing is missed exactly when no poll comes with more than 256 entries unread. */
  ghost predicate NeverBehind<T>(start: Reader<T>, evs: seq<ReaderEvent<T>>)
    requires start.cursor <= |start.ch.sent|
  {
    evs == [] ||
    (NeverBehind(start, evs[..|evs| - 1]) &&
     var r := ReaderRun(start, evs[..|evs| - 1]);
     evs[|evs| - 1].Poll? ==> |r.ch.sent| - r.cursor <= BROADCAST_CAPACITY)
  }

  lemma StepMisses<T>(r: Reader<T>, ev: ReaderEvent<T>)
    requires r.cursor <= |r.ch.sent| && (r.dropped ==> r.cursor == |r.ch.sent|)
    ensures Missed(r.answers) <= Missed(ReaderStep(r, ev).answers)
    ensures Missed(ReaderStep(r, ev).answers) == Missed(r.answers)
      <==> (ev.Poll? ==> |r.ch.sent| - r.cursor <= BROADCAST_CAPACITY)
  {
    var r' := ReaderStep(r, ev);
    if r'.answers != r.answers {
      assert r'.answers[..|r'.answers| - 1] == r.answers;
    }
  }

  lemma {:induction false} NothingMissedIff<T>(ch: Channel<T>, from: nat, evs: seq<ReaderEvent<T>>)
    requires from <= |ch.sent|
    ensures var start := Reader(ch, from, [], false);
      Missed(ReaderRun(start, evs).answers) == 0 <==> NeverBehind(start, evs)
  {
    if evs != [] {
      var start := Reader(ch, from, [], false);
      var before := evs[..|evs| - 1];
      NothingMissedIff(ch, from, before);
      RunGapless(ch, from, before);
      StepMisses(ReaderRun(start, before), evs[|evs| - 1]);
    }
  }

  function Polls<T>(n: nat): seq<ReaderEvent<T>> {
    if n == 0 then [] else Polls(n - 1) + [Poll]
  }

  lemma PollsNext<T>(r: Reader<T>, n: nat)
    requires 0 < n && r.cursor <= |r.ch.sent|
    ensures ReaderRun(r, Polls(n)) == ReaderStep(ReaderRun(r, Polls(n - 1)), Poll)
  {
    assert Polls<T>(n)[..|Polls<T>(n)| - 1] == Polls<T>(n - 1);
  }

  /** A receiver that is polled once more than it has entries unread has read everything out, and
      is dropped if and only if its channel was closed. */
  lemma {:induction false} ReadOutDrops<T>(r: Reader<T>, n: nat)
    requires !r.dropped && r.cursor <= |r.ch.sent|
    ensures var r' := ReaderRun(r, Polls(n));
      && r'.ch == r.ch && Min(|r.ch.sent|, r.cursor + n) <= r'.cursor <= |r.ch.sent|
      && (r'.dropped ==> r.ch.closed && r'.cursor == |r.ch.sent|)
      && (|r.ch.sent| - r.cursor < n ==> (r'.dropped <==> r.ch.closed))
  {
    if n > 0 {
      ReadOutDrops(r, n - 1);
      PollsNext(r, n);
      PollMoves(ReaderRun(r, Polls(n - 1)));
    }
  }

  lemma PollMoves<T>(r: Reader<T>)
    requires r.cursor <= |r.ch.sent|
    ensures var r' := ReaderStep(r, Poll);
      && r'.ch == r.ch && r.cursor <= r'.cursor && (!r.dropped && r.cursor < |r.ch.sent| ==> r.cursor < r'.cursor)
      && (r'.dropped <==> r.dropped || (r.ch.closed && r.cursor == |r.ch.sent|))
  {
  }
}
