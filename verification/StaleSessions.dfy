/** Runs in which another client closes a port and opens it again without this client being
    told: its receivers and keyword lists stay as they were. */
module StaleSessions {
  import opened Sequences
  import opened Broadcast
  import opened KeywordFilter
  import opened FilterTheorems
  import opened Session
  import opened Streaming
  import opened Agreement

  ghost predicate Reachable(s: System) {
    exists evs :: Run({0}, evs) == s
  }

  function One(d: Daemon, c: Client): System {
    System(d, map[0 := c])
  }

  lemma ReachableOk(d: Daemon, c: Client)
    requires Reachable(One(d, c))
    ensures SystemOk(One(d, c)) && DaemonOk(d) && ClientOk(c, d)
  {
    assert One(d, c).clients[0] == c;
  }

  lemma ReachLocal(d: Daemon, c: Client, a: Action, c': Client)
    requires Reachable(One(d, c)) && (DaemonOk(d) && ClientOk(c, d) ==> c' == LocalStep(c, a, d))
    ensures Reachable(One(d, c'))
  {
    ReachableOk(d, c);
    StepLocal(d, c, a);
    var evs :| Run({0}, evs) == One(d, c);
    RunNext({0}, evs, Local(0, a));
  }

  lemma StepLocal(d: Daemon, c: Client, a: Action)
    requires SystemOk(One(d, c)) && DaemonOk(d) && ClientOk(c, d)
    ensures Step(One(d, c), Local(0, a)) == One(d, LocalStep(c, a, d))
  {
    var c' := LocalStep(c, a, d);
    assert map[0 := c][0 := c'] == map[0 := c'];
  }

  lemma ReachShared(d: Daemon, c: Client, ev: Event, d': Daemon)
    requires Reachable(One(d, c)) && !ev.Local? && d' == SharedStep(d, ev)
    ensures Reachable(One(d', c))
  {
    var evs :| Run({0}, evs) == One(d, c);
    RunNext({0}, evs, ev);
  }

  const OPEN: Channel<RxEntry> := Channel([], false)
  const ENDED: Channel<RxEntry> := Channel([], true)

  function OpenedOnce(p: Port): Daemon {
    Daemon([OPEN], [p], map[p := 0], 0)
  }

  /** A client that opened the port as channel 0, with nothing running. */
  function Quiet(p: Port, keywords: map<Port, seq<Bytes>>, filters: map<Port, FilterTask>, replies: seq<(Port, Reply)>): Client {
    Client(Session(map[p := Receiver(0, 0)], map[p := []], {}, keywords), [], None, [], Task(map[], filters), false, replies, [])
  }

  function Fresh(kw: Bytes): FilterTask {
    FilterTask(Receiver(0, 0), Start([kw]), [])
  }

  lemma ReachOpened(p: Port)
    ensures Reachable(One(OpenedOnce(p), Quiet(p, map[], map[], [])))
  {
    assert Run({0}, []) == Initial({0});
    assert Initial({0}) == One(Daemon([], [], map[], 0), NewClient());
    ReachShared(Daemon([], [], map[], 0), NewClient(), Opened(p), OpenedOnce(p));
    ReachLocal(OpenedOnce(p), NewClient(), Handle(Ensure(p)), Quiet(p, map[], map[], []));
  }

  lemma RegistrationStep(p: Port, kw: Bytes)
    requires kw != []
    ensures FilterRx(Quiet(p, map[], map[], []).session, p, [kw], true, OpenedOnce(p))
      == Effect(Quiet(p, map[p := [kw]], map[], []).session, Done, [AddFilter(p, [kw], Receiver(0, 0))])
  {
    assert NonEmpty([kw]) == [kw];
  }

  /** The handler has answered and holds the command for the task. */
  lemma ReachAnswered(p: Port, kw: Bytes)
    requires kw != []
    ensures Reachable(One(OpenedOnce(p), Quiet(p, map[p := [kw]], map[], [(p, Done)]).(outbox := [AddFilter(p, [kw], Receiver(0, 0))])))
  {
    var c := Quiet(p, map[], map[], []);
    var c' := Quiet(p, map[p := [kw]], map[], [(p, Done)]).(outbox := [AddFilter(p, [kw], Receiver(0, 0))]);
    ReachOpened(p);
    RegistrationStep(p, kw);
    assert DaemonOk(OpenedOnce(p)) && ClientOk(c, OpenedOnce(p)) ==>
      LocalStep(c, Handle(Command(FilterCmd(p, [kw], true))), OpenedOnce(p)) == c';
    ReachLocal(OpenedOnce(p), c, Handle(Command(FilterCmd(p, [kw], true))), c');
  }

  lemma ReachQueued(p: Port, kw: Bytes)
    requires kw != []
    ensures Reachable(One(OpenedOnce(p), Quiet(p, map[p := [kw]], map[], [(p, Done)]).(queue := [AddFilter(p, [kw], Receiver(0, 0))])))
  {
    var c := Quiet(p, map[p := [kw]], map[], [(p, Done)]);
    var add := AddFilter(p, [kw], Receiver(0, 0));
    ReachAnswered(p, kw);
    ReachLocal(OpenedOnce(p), c.(outbox := [add]), SendNext, c.(queue := [add]));
  }

  lemma ReachRegistered(p: Port, kw: Bytes)
    requires kw != []
    ensures Reachable(One(OpenedOnce(p), Quiet(p, map[p := [kw]], map[p := Fresh(kw)], [(p, Done)])))
  {
    var c := Quiet(p, map[p := [kw]], map[], [(p, Done)]);
    var add := AddFilter(p, [kw], Receiver(0, 0));
    ReachQueued(p, kw);
    ReachLocal(OpenedOnce(p), c.(queue := [add]), ApplyNext, c.(task := Task(map[], map[p := Fresh(kw)])));
  }

  function ClosedOnce(p: Port): Daemon {
    Daemon([ENDED], [p], map[], 0)
  }

  lemma ReachClosed(p: Port, c: Client)
    requires Reachable(One(OpenedOnce(p), c))
    ensures Reachable(One(ClosedOnce(p), c))
  {
    var removed := Daemon([OPEN], [p], map[], 0);
    assert map[p := 0] - {p} == map[];
    ReachShared(OpenedOnce(p), c, Removed(p), removed);
    assert removed.chans[0 := removed.chans[0].(closed := true)] == [ENDED];
    ReachShared(removed, c, Ended(0), ClosedOnce(p));
  }

  /** The task's poll answers `Closed`, and the filter is dropped. */
  lemma ReachDropped(p: Port, c: Client, f: FilterTask)
    requires Reachable(One(ClosedOnce(p), c)) && c.task == Task(map[], map[p := f]) && f.rx == Receiver(0, 0)
    ensures Reachable(One(ClosedOnce(p), c.(task := Task(map[], map[]), sawClosed := true)))
  {
    assert map[p := f] - {p} == map[];
    ReachLocal(ClosedOnce(p), c, PollFilter(p), c.(task := Task(map[], map[]), sawClosed := true));
  }

  function OpenedTwice(p: Port): Daemon {
    Daemon([ENDED, OPEN], [p, p], map[p := 1], 0)
  }

  lemma ReachOpenedTwice(p: Port, c: Client)
    requires Reachable(One(ClosedOnce(p), c))
    ensures Reachable(One(OpenedTwice(p), c))
  {
    ReachShared(ClosedOnce(p), c, Opened(p), OpenedTwice(p));
  }

  /** The port is open again, as channel 1; the client was not told. */
  function Untold(p: Port, kw: Bytes): Client {
    Quiet(p, map[p := [kw]], map[p := Fresh(kw)], [(p, Done)]).(task := Task(map[], map[]), sawClosed := true)
  }

  lemma ReachReopened(p: Port, kw: Bytes)
    requires kw != []
    ensures Reachable(One(OpenedTwice(p), Untold(p, kw)))
  {
    var c := Quiet(p, map[p := [kw]], map[p := Fresh(kw)], [(p, Done)]);
    ReachRegistered(p, kw);
    ReachClosed(p, c);
    ReachDropped(p, c, Fresh(kw));
    ReachOpenedTwice(p, Untold(p, kw));
  }

  /** One client opens a port and registers a filter; another closes the port and opens
      it again. In the state reached, the port is open and the client idle, but its
      receiver belongs to the old opening and its session lists a filter that the task
      no longer has. */
  lemma StaleStateIsReachable(p: Port, kw: Bytes)
    requires kw != []
    ensures Reachable(One(OpenedTwice(p), Untold(p, kw)))
    ensures var d := OpenedTwice(p); var c := Untold(p, kw);
      && p in d.open && p in c.session.receivers && c.session.receivers[p].chan != d.open[p]
      && Idle(c) && p in c.session.filterSubscriptions && p !in Effective(c).filters
  {
    ReachReopened(p, kw);
    assert Pending(Untold(p, kw)) == [];
  }
}
