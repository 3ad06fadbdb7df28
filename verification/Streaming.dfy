/** The daemon with its clients: each client has a session, a bounded command queue
    and a streaming task; the open ports and their channels are shared. Every step of
    every process is one event, and runs interleave them freely. */
module Streaming {
  import opened Sequences
  import opened Broadcast
  import opened KeywordFilter
  import opened FilterTheorems
  import opened Session

  const COMMAND_QUEUE: nat := 16

  /** One registered filter in the task: its receiver, the filter with its history, and
      which of its channel's entries were delivered to it. */
  datatype FilterTask = FilterTask(rx: Receiver, tracker: Tracker, delivered: seq<nat>)

  datatype Task = Task(rxReceivers: map<Port, Receiver>, filters: map<Port, FilterTask>)

  /** Notifications. History: the number of the entry shown; the filter after the delivery
      that hit, and where in its delivered bytes the match lies. */
  datatype Output =
    | RxData(port: Port, chan: nat, index: nat, entry: RxEntry)
    | FilterHit(port: Port, source: FilterTask, hit: Hit, offset: int)

  /** `outbox` holds what the running handler still has to send, `closing` the port of a
      close_port that has not yet forgotten it, `sawClosed` whether a receiver of the
      task ever answered `Closed`. */
  datatype Client = Client(session: Session, outbox: seq<Command>, closing: Option<Port>,
                           queue: seq<Command>, task: Task, sawClosed: bool,
                           replies: seq<(Port, Reply)>, output: seq<Output>)

  /** The dispatch arms that send commands to the streaming task. */
  datatype Dispatch =
    | SubscribeCmd(port: Port, wasOpen: bool)
    | UnsubscribeCmd(port: Port)
    | FilterCmd(port: Port, requested: seq<Bytes>, wasOpen: bool)
    | AddFilterCmd(port: Port, requested: seq<Bytes>, wasOpen: bool)
    | UnfilterCmd(port: Port)

  /** What the session handler is asked: to subscribe after an open, to read, to clean
      up after a close, or to dispatch. */
  datatype Request = Ensure(port: Port) | Read(port: Port, clear: bool) | Close(port: Port) | Command(what: Dispatch)

  datatype Action =
    | Handle(request: Request)
    | FinishClose
    | SendNext
    | ApplyNext
    | PollRx(port: Port)
    | PollFilter(port: Port)

  datatype Event =
    | Opened(port: Port)
    | Removed(port: Port)
    | Arrived(chan: nat, timestamp: string, data: Bytes)
    | Ended(chan: nat)
    | Local(client: nat, action: Action)

  datatype System = System(daemon: Daemon, clients: map<nat, Client>)

  // ---- the task ----

  function ApplyCmd(t: Task, cmd: Command): Task {
    match cmd
    case Subscribe(p, rx) => t.(rxReceivers := t.rxReceivers[p := rx])
    case Unsubscribe(p) => t.(rxReceivers := t.rxReceivers - {p})
    case AddFilter(p, keywords, rx) => t.(filters := t.filters[p := FilterTask(rx, Start(keywords), [])])
    case RemoveFilter(p) => t.(filters := t.filters - {p})
    case SetFilterKeywords(p, keywords) =>
      if p in t.filters
      then t.(filters := t.filters[p := t.filters[p].(tracker := Register(t.filters[p].tracker, keywords))])
      else t
  }

  function ApplyAll(t: Task, cmds: seq<Command>): Task
    decreases |cmds|
  {
    if cmds == [] then t else ApplyAll(ApplyCmd(t, cmds[0]), cmds[1..])
  }

  predicate FilterPoints(f: FilterTask, p: Port, d: Daemon) {
    && Points(f.rx, p, d)
    && forall i :: 0 <= i < |f.delivered| ==> f.delivered[i] < f.rx.cursor
  }

  predicate CommandPoints(cmd: Command, d: Daemon) {
    match cmd
    case Subscribe(p, rx) => Points(rx, p, d)
    case AddFilter(p, _, rx) => Points(rx, p, d)
    case _ => true
  }

  ghost predicate TaskOk(t: Task, d: Daemon) {
    && (forall p :: p in t.rxReceivers ==> Points(t.rxReceivers[p], p, d))
    && (forall p :: p in t.filters ==> FilterPoints(t.filters[p], p, d))
  }

  ghost predicate ClientOk(c: Client, d: Daemon) {
    && SessionOk(c.session, d)
    && TaskOk(c.task, d)
    && (forall i :: 0 <= i < |c.queue| ==> CommandPoints(c.queue[i], d))
    && (forall i :: 0 <= i < |c.outbox| ==> CommandPoints(c.outbox[i], d))
  }

  /** One `try_recv` of the rx polling loop, with the removal that follows a close. */
  function PollRxStep(c: Client, p: Port, d: Daemon): Client
    requires TaskOk(c.task, d) && p in c.task.rxReceivers
  {
    var rx := c.task.rxReceivers[p];
    var (outcome, cursor) := TryRecv(d.chans[rx.chan], rx.cursor);
    var moved := c.(task := c.task.(rxReceivers := c.task.rxReceivers[p := rx.(cursor := cursor)]));
    match outcome
    case Got(e) => moved.(output := c.output + [RxData(p, rx.chan, rx.cursor, e)])
    case Lagged(_) => moved
    case Empty => c
    case Closed => c.(task := c.task.(rxReceivers := c.task.rxReceivers - {p}), sawClosed := true)
  }

  function HitOutputs(p: Port, source: FilterTask, hits: seq<Hit>, windowStart: int): (r: seq<Output>)
    ensures |r| == |hits|
  {
    seq(|hits|, i requires 0 <= i < |hits| => FilterHit(p, source, hits[i], windowStart + hits[i].at))
  }

  /** One `try_recv` of the filter polling loop: a delivered entry goes through the
      keyword filter and its hits are written out. */
  function PollFilterStep(c: Client, p: Port, d: Daemon): Client
    requires TaskOk(c.task, d) && p in c.task.filters
  {
    var f := c.task.filters[p];
    var (outcome, cursor) := TryRecv(d.chans[f.rx.chan], f.rx.cursor);
    match outcome
    case Got(e) =>
      var f' := FilterTask(f.rx.(cursor := cursor), Deliver(f.tracker, e), f.delivered + [f.rx.cursor]);
      c.(task := c.task.(filters := c.task.filters[p := f']),
         output := c.output + HitOutputs(p, f', Reported(f.tracker.filter, e), WindowStart(f.tracker)))
    case Lagged(_) =>
      c.(task := c.task.(filters := c.task.filters[p := f.(rx := f.rx.(cursor := cursor))]))
    case Empty => c
    case Closed => c.(task := c.task.(filters := c.task.filters - {p}), sawClosed := true)
  }

  // ---- one client ----

  /** A session handler runs only when the previous one has sent everything. */
  predicate Idle(c: Client) {
    c.outbox == [] && c.closing.None?
  }

  function EffectOf(s: Session, what: Dispatch, d: Daemon): Effect
    requires DaemonOk(d)
  {
    match what
    case SubscribeCmd(p, wasOpen) => SubscribeRx(s, p, wasOpen, d)
    case UnsubscribeCmd(p) => UnsubscribeRx(s, p)
    case FilterCmd(p, requested, wasOpen) => FilterRx(s, p, requested, wasOpen, d)
    case AddFilterCmd(p, requested, wasOpen) => AddFilterRx(s, p, requested, wasOpen, d)
    case UnfilterCmd(p) => UnfilterRx(s, p)
  }

  /** A request reaching the session handler. */
  function HandlerStep(c: Client, r: Request, d: Daemon): Client
    requires DaemonOk(d) && SessionOk(c.session, d)
  {
    match r
    case Ensure(p) => c.(session := EnsureSubscribed(c.session, p, d))
    case Read(p, clear) =>
      var (session, reply) := ReadPort(c.session, p, clear, d);
      c.(session := session, replies := c.replies + [(p, reply)])
    case Close(p) => c.(outbox := CloseCommands(c.session, p), closing := Some(p))
    case Command(what) =>
      var effect := EffectOf(c.session, what, d);
      c.(session := effect.session, outbox := effect.commands, replies := c.replies + [(what.port, effect.reply)])
  }

  function LocalStep(c: Client, a: Action, d: Daemon): Client
    requires DaemonOk(d) && ClientOk(c, d)
  {
    match a
    case Handle(r) => if Idle(c) then HandlerStep(c, r, d) else c
    case FinishClose =>
      if c.closing.Some? && c.outbox == []
      then c.(session := OnPortClosed(c.session, c.closing.value), closing := None)
      else c
    case SendNext =>
      if c.outbox != [] && |c.queue| < COMMAND_QUEUE
      then c.(queue := c.queue + [c.outbox[0]], outbox := c.outbox[1..])
      else c
    case ApplyNext =>
      if c.queue != [] then c.(task := ApplyCmd(c.task, c.queue[0]), queue := c.queue[1..]) else c
    case PollRx(p) => if p in c.task.rxReceivers then PollRxStep(c, p, d) else c
    case PollFilter(p) => if p in c.task.filters then PollFilterStep(c, p, d) else c
  }

  // ---- the shared part ----

  function SharedStep(d: Daemon, ev: Event): Daemon {
    match ev
    case Opened(p) =>
      if p in d.open then d
      else d.(chans := d.chans + [Channel([], false)], owners := d.owners + [p], open := d.open[p := |d.chans|])
    case Removed(p) => d.(open := d.open - {p})
    case Arrived(chan, timestamp, data) =>
      if chan < |d.chans| && !d.chans[chan].closed
      then
        var ch := d.chans[chan];
        Daemon(d.chans[chan := ch.(sent := ch.sent + [RxEntry(d.clock, timestamp, data)])], d.owners, d.open, d.clock + 1)
      else d
    case Ended(chan) =>
      if chan < |d.chans| && (forall p :: p in d.open ==> d.open[p] != chan)
      then d.(chans := d.chans[chan := d.chans[chan].(closed := true)])
      else d
    case Local(_, _) => d
  }

  function Step(s: System, ev: Event): System
    requires SystemOk(s)
  {
    if ev.Local? then
      if ev.client in s.clients
      then s.(clients := s.clients[ev.client := LocalStep(s.clients[ev.client], ev.action, s.daemon)])
      else s
    else s.(daemon := SharedStep(s.daemon, ev))
  }

  ghost predicate SystemOk(s: System) {
    DaemonOk(s.daemon) && forall i :: i in s.clients ==> ClientOk(s.clients[i], s.daemon)
  }

  function NewClient(): Client {
    Client(Session(map[], map[], {}, map[]), [], None, [], Task(map[], map[]), false, [], [])
  }

  function Initial(clients: set<nat>): System {
    System(Daemon([], [], map[], 0), map i | i in clients :: NewClient())
  }

  function Run(clients: set<nat>, evs: seq<Event>): (s: System)
    ensures SystemOk(s)
  {
    if evs == [] then Initial(clients)
    else
      var s := Run(clients, evs[..|evs| - 1]);
      StepOk(s, evs[|evs| - 1]);
      Step(s, evs[|evs| - 1])
  }

  lemma RunNext(clients: set<nat>, evs: seq<Event>, ev: Event)
    ensures Run(clients, evs + [ev]) == Step(Run(clients, evs), ev)
  {
    assert (evs + [ev])[..|evs|] == evs;
  }

  function RunFrom(s: System, evs: seq<Event>): (r: System)
    requires SystemOk(s)
    ensures SystemOk(r)
    decreases |evs|
  {
    if evs == [] then s
    else
      StepOk(s, evs[0]);
      RunFrom(Step(s, evs[0]), evs[1..])
  }

  lemma {:induction false} RunContinues(clients: set<nat>, before: seq<Event>, after: seq<Event>)
    ensures Run(clients, before + after) == RunFrom(Run(clients, before), after)
    decreases |after|
  {
    if after == [] {
      assert before + after == before;
    } else {
      assert before + after == before + [after[0]] + after[1..];
      RunNext(clients, before, after[0]);
      RunContinues(clients, before + [after[0]], after[1..]);
    }
  }

  // ---- every step is well defined ----

  /** The shared state only grows: nothing a receiver points at goes away. */
  ghost predicate Grows(d: Daemon, d': Daemon) {
    && |d.chans| <= |d'.chans| && |d'.owners| == |d'.chans| && IsPrefix(d.owners, d'.owners) && d.clock <= d'.clock
    && forall c :: 0 <= c < |d.chans| ==> IsPrefix(d.chans[c].sent, d'.chans[c].sent)
  }

  lemma ArrivedGrows(d: Daemon, chan: nat, timestamp: string, data: Bytes)
    requires DaemonOk(d) && chan < |d.chans| && !d.chans[chan].closed
    ensures var d' := SharedStep(d, Arrived(chan, timestamp, data)); DaemonOk(d') && Grows(d, d')
  {
    var d' := SharedStep(d, Arrived(chan, timestamp, data));
    forall c | 0 <= c < |d.chans| ensures ChannelOk(d'.chans[c], d'.clock) && IsPrefix(d.chans[c].sent, d'.chans[c].sent) {
      assert ChannelOk(d.chans[c], d.clock);
    }
  }

  lemma SharedGrows(d: Daemon, ev: Event)
    requires DaemonOk(d)
    ensures DaemonOk(SharedStep(d, ev)) && Grows(d, SharedStep(d, ev))
  {
    match ev
    case Arrived(chan, timestamp, data) =>
      if chan < |d.chans| && !d.chans[chan].closed { ArrivedGrows(d, chan, timestamp, data); }
    case Opened(_) =>
    case Removed(_) =>
    case Ended(chan) =>
      if chan < |d.chans| { assert ChannelOk(d.chans[chan], d.clock); }
    case Local(_, _) =>
  }

  lemma ClientOkGrows(c: Client, d: Daemon, d': Daemon)
    requires ClientOk(c, d) && Grows(d, d')
    ensures ClientOk(c, d')
  {
  }

  lemma ApplyCmdOk(t: Task, cmd: Command, d: Daemon)
    requires TaskOk(t, d) && CommandPoints(cmd, d)
    ensures TaskOk(ApplyCmd(t, cmd), d)
  {
  }

  lemma PollFilterTaskOk(c: Client, p: Port, d: Daemon)
    requires TaskOk(c.task, d) && p in c.task.filters
    ensures TaskOk(PollFilterStep(c, p, d).task, d)
  {
    var f := c.task.filters[p];
    assert FilterPoints(f, p, d);
    var (outcome, cursor) := TryRecv(d.chans[f.rx.chan], f.rx.cursor);
    match outcome {
      case Got(e) => FilterReplaced(c.task, p, FilterTask(f.rx.(cursor := cursor), Deliver(f.tracker, e), f.delivered + [f.rx.cursor]), d);
      case Lagged(_) => FilterReplaced(c.task, p, f.(rx := f.rx.(cursor := cursor)), d);
      case Empty =>
      case Closed =>
    }
  }

  lemma PollFilterOk(c: Client, p: Port, d: Daemon)
    requires ClientOk(c, d) && p in c.task.filters
    ensures ClientOk(PollFilterStep(c, p, d), d)
  {
    var c' := PollFilterStep(c, p, d);
    PollFilterTaskOk(c, p, d);
    assert c'.session == c.session && c'.queue == c.queue && c'.outbox == c.outbox;
  }

  lemma FilterReplaced(t: Task, p: Port, f: FilterTask, d: Daemon)
    requires TaskOk(t, d) && FilterPoints(f, p, d)
    ensures TaskOk(t.(filters := t.filters[p := f]), d)
  {
  }

  lemma PollRxOk(c: Client, p: Port, d: Daemon)
    requires ClientOk(c, d) && p in c.task.rxReceivers
    ensures ClientOk(PollRxStep(c, p, d), d)
  {
  }

  lemma EffectOk(s: Session, what: Dispatch, d: Daemon)
    requires DaemonOk(d) && SessionOk(s, d)
    ensures var effect := EffectOf(s, what, d);
      SessionOk(effect.session, d) && forall i :: 0 <= i < |effect.commands| ==> CommandPoints(effect.commands[i], d)
  {
  }

  lemma HandlerOk(c: Client, r: Request, d: Daemon)
    requires DaemonOk(d) && ClientOk(c, d)
    ensures ClientOk(HandlerStep(c, r, d), d)
  {
    match r
    case Ensure(_) =>
    case Read(p, clear) => ReadPortOk(c.session, p, clear, d);
    case Close(_) =>
    case Command(what) => EffectOk(c.session, what, d);
  }

  lemma QueueOk(c: Client, a: Action, d: Daemon)
    requires DaemonOk(d) && ClientOk(c, d) && (a.FinishClose? || a.SendNext? || a.ApplyNext?)
    ensures ClientOk(LocalStep(c, a, d), d)
  {
    if a.ApplyNext? && c.queue != [] {
      ApplyCmdOk(c.task, c.queue[0], d);
    }
  }

  lemma LocalOk(c: Client, a: Action, d: Daemon)
    requires DaemonOk(d) && ClientOk(c, d)
    ensures ClientOk(LocalStep(c, a, d), d)
  {
    match a {
      case Handle(r) => HandlerOk(c, r, d);
      case PollRx(p) => if p in c.task.rxReceivers { PollRxOk(c, p, d); }
      case PollFilter(p) => if p in c.task.filters { PollFilterOk(c, p, d); }
      case FinishClose => QueueOk(c, a, d);
      case SendNext => QueueOk(c, a, d);
      case ApplyNext => QueueOk(c, a, d);
    }
  }

  lemma StepOk(s: System, ev: Event)
    requires SystemOk(s)
    ensures SystemOk(Step(s, ev))
  {
    if ev.Local? {
      if ev.client in s.clients {
        LocalOk(s.clients[ev.client], ev.action, s.daemon);
      }
    } else {
      SharedGrows(s.daemon, ev);
      forall i | i in s.clients ensures ClientOk(s.clients[i], SharedStep(s.daemon, ev)) {
        ClientOkGrows(s.clients[i], s.daemon, SharedStep(s.daemon, ev));
      }
    }
  }
}
