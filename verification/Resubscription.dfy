/** Unsubscribing and subscribing again can repeat rx_data: the new receiver starts when
    the request is handled, the old one stops when the task takes its command. */
module Resubscription {
  import opened Sequences
  import opened Broadcast
  import opened KeywordFilter
  import opened Session
  import opened Streaming
  import opened StaleSessions
  import opened RxStream

  /** A client of the port's first opening, without filters. */
  function Streamer(p: Port, subscribed: set<Port>, outbox: seq<Command>, queue: seq<Command>,
                    receivers: map<Port, Receiver>, answers: nat, output: seq<Output>): Client {
    Client(Session(map[p := Receiver(0, 0)], map[p := []], subscribed, map[]), outbox, None, queue,
           Task(receivers, map[]), false, Answers(p, answers), output)
  }

  function Answers(p: Port, n: nat): seq<(Port, Reply)> {
    if n == 0 then [] else Answers(p, n - 1) + [(p, Done)]
  }

  function Join(p: Port): Command {
    Subscribe(p, Receiver(0, 0))
  }

  lemma HandleSubscribe(p: Port, queue: seq<Command>, receivers: map<Port, Receiver>, n: nat)
    requires Reachable(One(OpenedOnce(p), Streamer(p, {}, [], queue, receivers, n, [])))
    ensures Reachable(One(OpenedOnce(p), Streamer(p, {p}, [Join(p)], queue, receivers, n + 1, [])))
  {
    assert {} + {p} == {p};
    ReachLocal(OpenedOnce(p), Streamer(p, {}, [], queue, receivers, n, []), Handle(Command(SubscribeCmd(p, true))),
               Streamer(p, {p}, [Join(p)], queue, receivers, n + 1, []));
  }

  lemma HandleUnsubscribe(p: Port, receivers: map<Port, Receiver>, n: nat)
    requires Reachable(One(OpenedOnce(p), Streamer(p, {p}, [], [], receivers, n, [])))
    ensures Reachable(One(OpenedOnce(p), Streamer(p, {}, [Unsubscribe(p)], [], receivers, n + 1, [])))
  {
    assert {p} - {p} == {};
    ReachLocal(OpenedOnce(p), Streamer(p, {p}, [], [], receivers, n, []), Handle(Command(UnsubscribeCmd(p))),
               Streamer(p, {}, [Unsubscribe(p)], [], receivers, n + 1, []));
  }

  lemma SendOne(p: Port, subscribed: set<Port>, cmd: Command, queue: seq<Command>, receivers: map<Port, Receiver>, n: nat)
    requires Reachable(One(OpenedOnce(p), Streamer(p, subscribed, [cmd], queue, receivers, n, []))) && |queue| < 2
    ensures Reachable(One(OpenedOnce(p), Streamer(p, subscribed, [], queue + [cmd], receivers, n, [])))
  {
    assert [cmd][1..] == [];
    ReachLocal(OpenedOnce(p), Streamer(p, subscribed, [cmd], queue, receivers, n, []), SendNext,
               Streamer(p, subscribed, [], queue + [cmd], receivers, n, []));
  }

  lemma ApplyOne(d: Daemon, p: Port, cmd: Command, rest: seq<Command>, receivers: map<Port, Receiver>, n: nat, output: seq<Output>)
    requires Reachable(One(d, Streamer(p, {p}, [], [cmd] + rest, receivers, n, output)))
    requires cmd.Subscribe? || cmd.Unsubscribe?
    ensures Reachable(One(d, Streamer(p, {p}, [], rest, ApplyCmd(Task(receivers, map[]), cmd).rxReceivers, n, output)))
  {
    assert ([cmd] + rest)[1..] == rest;
    ReachLocal(d, Streamer(p, {p}, [], [cmd] + rest, receivers, n, output), ApplyNext,
               Streamer(p, {p}, [], rest, ApplyCmd(Task(receivers, map[]), cmd).rxReceivers, n, output));
  }

  function Received(p: Port, e: RxEntry): Daemon {
    Daemon([Channel([e], false)], [p], map[p := 0], 1)
  }

  /** A poll that gets the channel's only entry. */
  lemma PollGets(c: Client, p: Port, e: RxEntry)
    requires TaskOk(c.task, Received(p, e)) && c.task.rxReceivers == map[p := Receiver(0, 0)]
    ensures PollRxStep(c, p, Received(p, e))
      == c.(task := Task(map[p := Receiver(0, 1)], c.task.filters), output := c.output + [RxData(p, 0, 0, e)])
  {
    assert TryRecv(Channel([e], false), 0) == (Got(e), 1);
    assert map[p := Receiver(0, 0)][p := Receiver(0, 1)] == map[p := Receiver(0, 1)];
  }

  lemma PollFirst(p: Port, e: RxEntry, queue: seq<Command>, n: nat, output: seq<Output>)
    requires Reachable(One(Received(p, e), Streamer(p, {p}, [], queue, map[p := Receiver(0, 0)], n, output)))
    ensures Reachable(One(Received(p, e), Streamer(p, {p}, [], queue, map[p := Receiver(0, 1)], n, output + [RxData(p, 0, 0, e)])))
  {
    var c := Streamer(p, {p}, [], queue, map[p := Receiver(0, 0)], n, output);
    ReachableOk(Received(p, e), c);
    PollGets(c, p, e);
    ReachLocal(Received(p, e), c, PollRx(p),
               Streamer(p, {p}, [], queue, map[p := Receiver(0, 1)], n, output + [RxData(p, 0, 0, e)]));
  }

  lemma ReachUnsubscribed(p: Port)
    ensures Reachable(One(OpenedOnce(p), Streamer(p, {}, [], [], NO_RECEIVERS, 0, [])))
  {
    ReachOpened(p);
    assert Quiet(p, map[], map[], []) == Streamer(p, {}, [], [], NO_RECEIVERS, 0, []);
  }

  const NO_RECEIVERS: map<Port, Receiver> := map[]

  lemma ReachAsked(p: Port)
    ensures Reachable(One(OpenedOnce(p), Streamer(p, {p}, [Join(p)], [], NO_RECEIVERS, 1, [])))
  {
    ReachUnsubscribed(p);
    HandleSubscribe(p, [], NO_RECEIVERS, 0);
  }

  lemma ReachJoining(p: Port)
    ensures Reachable(One(OpenedOnce(p), Streamer(p, {p}, [], [Join(p)], NO_RECEIVERS, 1, [])))
  {
    ReachAsked(p);
    SendOne(p, {p}, Join(p), [], NO_RECEIVERS, 1);
    assert [] + [Join(p)] == [Join(p)];
  }

  lemma ReachSubscribed(p: Port)
    ensures Reachable(One(OpenedOnce(p), Streamer(p, {p}, [], [], map[p := Receiver(0, 0)], 1, [])))
  {
    ReachJoining(p);
    assert [Join(p)] == [Join(p)] + [];
    ApplyOne(OpenedOnce(p), p, Join(p), [], NO_RECEIVERS, 1, []);
  }

  lemma ReachLeaving(p: Port)
    ensures Reachable(One(OpenedOnce(p), Streamer(p, {}, [], [Unsubscribe(p)], map[p := Receiver(0, 0)], 2, [])))
  {
    ReachSubscribed(p);
    HandleUnsubscribe(p, map[p := Receiver(0, 0)], 1);
    SendOne(p, {}, Unsubscribe(p), [], map[p := Receiver(0, 0)], 2);
    assert [] + [Unsubscribe(p)] == [Unsubscribe(p)];
  }

  /** Subscribed, unsubscribed and subscribed again; the last two commands still queued. */
  lemma ReachResubscribed(p: Port)
    ensures Reachable(One(OpenedOnce(p), Streamer(p, {p}, [], [Unsubscribe(p), Join(p)], map[p := Receiver(0, 0)], 3, [])))
  {
    ReachLeaving(p);
    HandleSubscribe(p, [Unsubscribe(p)], map[p := Receiver(0, 0)], 2);
    SendOne(p, {p}, Join(p), [Unsubscribe(p)], map[p := Receiver(0, 0)], 3);
    assert [Unsubscribe(p)] + [Join(p)] == [Unsubscribe(p), Join(p)];
  }

  lemma FirstArrival(p: Port, e: RxEntry)
    requires e.stamp == 0
    ensures SharedStep(OpenedOnce(p), Arrived(0, e.timestamp, e.data)) == Received(p, e)
  {
    assert [] + [e] == [e];
    assert [OPEN][0 := Channel([e], false)] == [Channel([e], false)];
  }

  /** The entry that arrives now is pushed by the old receiver. */
  lemma ReachPushedOnce(p: Port, e: RxEntry)
    requires e.stamp == 0
    ensures Reachable(One(Received(p, e), Streamer(p, {p}, [], [Unsubscribe(p), Join(p)], map[p := Receiver(0, 1)], 3, [RxData(p, 0, 0, e)])))
  {
    ReachResubscribed(p);
    FirstArrival(p, e);
    ReachShared(OpenedOnce(p), Streamer(p, {p}, [], [Unsubscribe(p), Join(p)], map[p := Receiver(0, 0)], 3, []),
                Arrived(0, e.timestamp, e.data), Received(p, e));
    PollFirst(p, e, [Unsubscribe(p), Join(p)], 3, []);
    assert [] + [RxData(p, 0, 0, e)] == [RxData(p, 0, 0, e)];
  }

  lemma ReachRejoined(p: Port, e: RxEntry)
    requires e.stamp == 0
    ensures Reachable(One(Received(p, e), Streamer(p, {p}, [], [], map[p := Receiver(0, 0)], 3, [RxData(p, 0, 0, e)])))
  {
    ReachPushedOnce(p, e);
    assert [Unsubscribe(p), Join(p)] == [Unsubscribe(p)] + [Join(p)];
    ApplyOne(Received(p, e), p, Unsubscribe(p), [Join(p)], map[p := Receiver(0, 1)], 3, [RxData(p, 0, 0, e)]);
    assert map[p := Receiver(0, 1)] - {p} == map[];
    assert [Join(p)] == [Join(p)] + [];
    ApplyOne(Received(p, e), p, Join(p), [], map[], 3, [RxData(p, 0, 0, e)]);
  }

  /** And once more by the new one. */
  lemma EntryPushedTwice(p: Port, e: RxEntry)
    requires e.stamp == 0
    ensures exists c :: Reachable(One(Received(p, e), c)) && RxIndices(c.output, p) == [0, 0]
  {
    ReachRejoined(p, e);
    PollFirst(p, e, [], 3, [RxData(p, 0, 0, e)]);
    var c := Streamer(p, {p}, [], [], map[p := Receiver(0, 1)], 3, [RxData(p, 0, 0, e)] + [RxData(p, 0, 0, e)]);
    assert c.output[0..] == c.output;
    RxIndicesNext([RxData(p, 0, 0, e)], 0, RxData(p, 0, 0, e), p);
    RxIndicesNext([], 0, RxData(p, 0, 0, e), p);
    assert [] + [RxData(p, 0, 0, e)] == [RxData(p, 0, 0, e)];
  }
}
