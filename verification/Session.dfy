/** One client's session in the daemon: the maps it keeps per port, the operations on
    them, and the commands these send to the client's streaming task. */
module Session {
  import opened Sequences
  import opened Broadcast
  import opened KeywordFilter
  import ReadBuffer

  type Port = string

  /** A receiver is a cursor into one channel; every opening of a port has its own. */
  datatype Receiver = Receiver(chan: nat, cursor: nat)

  /** What all clients share: the channels ever created and the open ports. History:
      `owners` tells which port a channel was opened for, `clock` numbers the entries. */
  datatype Daemon = Daemon(chans: seq<Channel<RxEntry>>, owners: seq<Port>, open: map<Port, nat>, clock: nat)

  datatype Command =
    | Subscribe(port: Port, rx: Receiver)
    | Unsubscribe(port: Port)
    | AddFilter(port: Port, keywords: seq<Bytes>, rx: Receiver)
    | RemoveFilter(port: Port)
    | SetFilterKeywords(port: Port, keywords: seq<Bytes>)

  datatype Reply = Refused | Done | Entries(entries: seq<RxEntry>)

  datatype Session = Session(receivers: map<Port, Receiver>, buffers: map<Port, seq<RxEntry>>,
                             rxSubscriptions: set<Port>, filterSubscriptions: map<Port, seq<Bytes>>)

  /** What a dispatched command does: the new session, the reply, and what is sent on. */
  datatype Effect = Effect(session: Session, reply: Reply, commands: seq<Command>)

  /** The receiver belongs to an opening of the port, and its cursor is inside. */
  predicate Points(rx: Receiver, port: Port, d: Daemon) {
    && rx.chan < |d.chans| == |d.owners|
    && rx.cursor <= |d.chans[rx.chan].sent|
    && d.owners[rx.chan] == port
  }

  ghost predicate ChannelOk(ch: Channel<RxEntry>, clock: nat) {
    && ReadBuffer.Ascending(ch.sent)
    && forall i :: 0 <= i < |ch.sent| ==> ch.sent[i].stamp < clock
  }

  ghost predicate DaemonOk(d: Daemon) {
    && |d.owners| == |d.chans|
    && (forall p :: p in d.open ==> d.open[p] < |d.chans| && d.owners[d.open[p]] == p && !d.chans[d.open[p]].closed)
    && (forall c :: 0 <= c < |d.chans| ==> ChannelOk(d.chans[c], d.clock))
  }

  ghost predicate SessionOk(s: Session, d: Daemon) {
    && s.receivers.Keys == s.buffers.Keys
    && (forall p :: p in s.receivers ==> Points(s.receivers[p], p, d))
    && (forall p :: p in s.buffers ==> |s.buffers[p]| <= ReadBuffer.MAX_BUFFER_ENTRIES)
    && (forall p :: p in s.buffers ==> forall e :: e in s.buffers[p] ==> e.stamp < d.clock)
  }

  /** `serial.subscribe`: a receiver at the end of the port's current channel. */
  function NewReceiver(port: Port, d: Daemon): (r: Option<Receiver>)
    requires DaemonOk(d)
    ensures r.Some? <==> port in d.open
    ensures r.Some? ==> Points(r.value, port, d) && r.value.chan == d.open[port]
    ensures r.Some? ==> r.value.cursor == |d.chans[d.open[port]].sent|
  {
    if port in d.open then Some(Receiver(d.open[port], |d.chans[d.open[port]].sent|)) else None
  }

  function EnsureSubscribed(s: Session, port: Port, d: Daemon): Session
    requires DaemonOk(d)
  {
    match (port in s.receivers, NewReceiver(port, d))
    case (false, Some(rx)) => s.(receivers := s.receivers[port := rx], buffers := s.buffers[port := []])
    case _ => s
  }

  function ReadPort(s: Session, port: Port, clear: bool, d: Daemon): (Session, Reply)
    requires SessionOk(s, d)
  {
    if port !in s.receivers then (s, Refused)
    else
      var rx := s.receivers[port];
      var (buffer, cursor) := ReadBuffer.Drain(d.chans[rx.chan], rx.cursor, s.buffers[port]);
      (s.(receivers := s.receivers[port := rx.(cursor := cursor)],
          buffers := s.buffers[port := if clear then [] else buffer]),
       Entries(buffer))
  }

  lemma DrainedEntries(ch: Channel<RxEntry>, cursor: nat, buffer: seq<RxEntry>, clock: nat)
    requires cursor <= |ch.sent| && ChannelOk(ch, clock) && |buffer| <= ReadBuffer.MAX_BUFFER_ENTRIES
    requires forall e :: e in buffer ==> e.stamp < clock
    ensures var drained := ReadBuffer.Drain(ch, cursor, buffer).0;
      && |drained| <= ReadBuffer.MAX_BUFFER_ENTRIES
      && forall e :: e in drained ==> (e in buffer || e in ch.sent[cursor..]) && e.stamp < clock
  {
    forall e | e in ch.sent[cursor..] ensures e.stamp < clock {
      var i :| 0 <= i < |ch.sent[cursor..]| && ch.sent[cursor..][i] == e;
      assert ch.sent[cursor + i] == e;
    }
  }

  lemma ReadPortOk(s: Session, port: Port, clear: bool, d: Daemon)
    requires DaemonOk(d) && SessionOk(s, d)
    ensures SessionOk(ReadPort(s, port, clear, d).0, d)
    ensures ReadPort(s, port, clear, d).1.Entries? ==> port in s.receivers
    ensures ReadPort(s, port, clear, d).1.Entries? ==> forall e :: e in ReadPort(s, port, clear, d).1.entries ==>
      e in s.buffers[port] || e in d.chans[s.receivers[port].chan].sent[s.receivers[port].cursor..]
  {
    if port in s.receivers {
      var rx := s.receivers[port];
      assert ChannelOk(d.chans[rx.chan], d.clock);
      DrainedEntries(d.chans[rx.chan], rx.cursor, s.buffers[port], d.clock);
    }
  }

  function OnPortClosed(s: Session, port: Port): Session {
    Session(s.receivers - {port}, s.buffers - {port}, s.rxSubscriptions - {port}, s.filterSubscriptions - {port})
  }

  /** The commands close_port sends before it forgets the port. */
  function CloseCommands(s: Session, port: Port): seq<Command> {
    (if port in s.rxSubscriptions then [Unsubscribe(port)] else [])
    + (if port in s.filterSubscriptions then [RemoveFilter(port)] else [])
  }

  /** The dispatch arms. `wasOpen` is what is_port_open answered earlier: another
      client may have closed or reopened the port since. */
  function SubscribeRx(s: Session, port: Port, wasOpen: bool, d: Daemon): Effect
    requires DaemonOk(d)
  {
    if !wasOpen || port in s.rxSubscriptions then Effect(s, Refused, [])
    else
      match NewReceiver(port, d)
      case None => Effect(s, Refused, [])
      case Some(rx) => Effect(s.(rxSubscriptions := s.rxSubscriptions + {port}), Done, [Subscribe(port, rx)])
  }

  function UnsubscribeRx(s: Session, port: Port): Effect {
    if port !in s.rxSubscriptions then Effect(s, Refused, [])
    else Effect(s.(rxSubscriptions := s.rxSubscriptions - {port}), Done, [Unsubscribe(port)])
  }

  function NonEmpty(keywords: seq<Bytes>): (r: seq<Bytes>)
    ensures forall k :: k in r <==> k in keywords && k != []
  {
    if keywords == [] then []
    else
      assert forall k :: k in keywords <==> k == keywords[0] || k in keywords[1..];
      (if keywords[0] == [] then [] else [keywords[0]]) + NonEmpty(keywords[1..])
  }

  lemma {:induction false} NonEmptyAppend(a: seq<Bytes>, b: seq<Bytes>)
    ensures NonEmpty(a + b) == NonEmpty(a) + NonEmpty(b)
  {
    if a == [] {
      assert a + b == b;
    } else {
      assert (a + b)[1..] == a[1..] + b;
      NonEmptyAppend(a[1..], b);
    }
  }

  /** The list is the request without its empty keywords: its entries stand in the request at
      these places, from front to back, and what stands elsewhere is empty. */
  ghost predicate StandsAt(list: seq<Bytes>, requested: seq<Bytes>, places: seq<nat>) {
    && |places| == |list|
    && (forall j :: 0 <= j < |list| ==> places[j] < |requested| && requested[places[j]] == list[j] && list[j] != [])
    && (forall i, j :: 0 <= i < j < |places| ==> places[i] < places[j])
    && (forall n: nat :: n < |requested| && requested[n] != [] ==> n in places)
  }

  ghost predicate WithoutEmpty(list: seq<Bytes>, requested: seq<Bytes>) {
    exists places :: StandsAt(list, requested, places)
  }

  /** What filter_rx and add_filter_rx keep of a request: every keyword that is not empty, as
      often and in the order in which it was given. */
  lemma {:induction false} NonEmptyIsRequest(requested: seq<Bytes>)
    ensures WithoutEmpty(NonEmpty(requested), requested)
  {
    if requested == [] {
      NothingStands(requested);
    } else {
      var init, last := requested[..|requested| - 1], requested[|requested| - 1];
      NonEmptyIsRequest(init);
      NonEmptySplit(requested);
      OneMore(NonEmpty(init), init, last);
    }
  }

  lemma NothingStands(requested: seq<Bytes>)
    requires requested == []
    ensures WithoutEmpty(NonEmpty(requested), requested)
  {
    assert StandsAt(NonEmpty(requested), requested, []);
  }

  lemma NonEmptySplit(requested: seq<Bytes>)
    requires requested != []
    ensures var init, last := requested[..|requested| - 1], requested[|requested| - 1];
      requested == init + [last] && NonEmpty(requested) == if last == [] then NonEmpty(init) else NonEmpty(init) + [last]
  {
    var init, last := requested[..|requested| - 1], requested[|requested| - 1];
    assert requested == init + [last];
    NonEmptyLast(init, last);
  }

  lemma OneMore(list: seq<Bytes>, init: seq<Bytes>, last: Bytes)
    requires WithoutEmpty(list, init)
    ensures WithoutEmpty(if last == [] then list else list + [last], init + [last])
  {
    var places :| StandsAt(list, init, places);
    if last == [] {
      assert StandsAt(list, init + [last], places);
    } else {
      PlacesNext(list, init, places, last);
    }
  }

  lemma NonEmptyLast(init: seq<Bytes>, last: Bytes)
    ensures NonEmpty(init + [last]) == if last == [] then NonEmpty(init) else NonEmpty(init) + [last]
  {
    NonEmptyAppend(init, [last]);
    assert [last][1..] == [];
  }

  lemma PlacesNext(list: seq<Bytes>, init: seq<Bytes>, places: seq<nat>, last: Bytes)
    requires StandsAt(list, init, places) && last != []
    ensures WithoutEmpty(list + [last], init + [last])
  {
    var all := places + [|init|];
    forall n: nat | n < |init + [last]| && (init + [last])[n] != [] ensures n in all {
      if n == |init| {
        assert all[|places|] == n;
      } else {
        assert n in places;
      }
    }
    assert StandsAt(list + [last], init + [last], all);
  }

  function FilterRx(s: Session, port: Port, requested: seq<Bytes>, wasOpen: bool, d: Daemon): Effect
    requires DaemonOk(d)
  {
    var keywords := NonEmpty(requested);
    if keywords == [] || !wasOpen then Effect(s, Refused, [])
    else
      match NewReceiver(port, d)
      case None => Effect(s, Refused, [])
      case Some(rx) =>
        Effect(s.(filterSubscriptions := s.filterSubscriptions[port := keywords]), Done, [AddFilter(port, keywords, rx)])
  }

  /** Old keywords first and unchanged, then each new one that is not there yet. */
  function Merged(existing: seq<Bytes>, added: seq<Bytes>): (r: seq<Bytes>)
    ensures IsPrefix(existing, r)
    ensures forall k :: k in r <==> k in existing || k in added
    ensures forall i, j :: |existing| <= i < j < |r| ==> r[i] != r[j]
    ensures forall i, j :: 0 <= i < |existing| <= j < |r| ==> r[i] != r[j]
    decreases |added|
  {
    if added == [] then existing
    else
      var before := Merged(existing, added[..|added| - 1]);
      var last := added[|added| - 1];
      assert forall k :: k in added <==> k in added[..|added| - 1] || k == last;
      if last in before then before else before + [last]
  }

  function AddFilterRx(s: Session, port: Port, requested: seq<Bytes>, wasOpen: bool, d: Daemon): Effect
    requires DaemonOk(d)
  {
    var added := NonEmpty(requested);
    if added == [] || !wasOpen then Effect(s, Refused, [])
    else if port in s.filterSubscriptions then
      var merged := Merged(s.filterSubscriptions[port], added);
      Effect(s.(filterSubscriptions := s.filterSubscriptions[port := merged]), Done, [SetFilterKeywords(port, merged)])
    else
      match NewReceiver(port, d)
      case None => Effect(s, Refused, [])
      case Some(rx) =>
        Effect(s.(filterSubscriptions := s.filterSubscriptions[port := added]), Done, [AddFilter(port, added, rx)])
  }

  function UnfilterRx(s: Session, port: Port): Effect {
    if port !in s.filterSubscriptions then Effect(s, Refused, [])
    else Effect(s.(filterSubscriptions := s.filterSubscriptions - {port}), Done, [RemoveFilter(port)])
  }

  /** The session object of the daemon, its maps updated in place. */
  class ClientSession {
    var receivers: map<Port, Receiver>
    var buffers: map<Port, seq<RxEntry>>
    var rxSubscriptions: set<Port>
    var filterSubscriptions: map<Port, seq<Bytes>>

    ghost function Value(): Session
      reads this
    {
      Session(receivers, buffers, rxSubscriptions, filterSubscriptions)
    }

    constructor ()
      ensures Value() == Session(map[], map[], {}, map[])
    {
      receivers, buffers, rxSubscriptions, filterSubscriptions := map[], map[], {}, map[];
    }

    method Ensure(port: Port, d: Daemon)
      requires DaemonOk(d)
      modifies this
      ensures Value() == EnsureSubscribed(old(Value()), port, d)
    {
      if port !in receivers {
        var rx := NewReceiver(port, d);
        if rx.Some? {
          receivers := receivers[port := rx.value];
          buffers := buffers[port := []];
        }
      }
    }

    method Read(port: Port, clear: bool, d: Daemon) returns (reply: Reply)
      requires SessionOk(Value(), d)
      modifies this
      ensures (Value(), reply) == ReadPort(old(Value()), port, clear, d)
    {
      if port in receivers {
        var rx := receivers[port];
        var buffer, cursor := ReadBuffer.DrainLoop(d.chans[rx.chan], rx.cursor, buffers[port]);
        receivers := receivers[port := rx.(cursor := cursor)];
        buffers := buffers[port := if clear then [] else buffer];
        reply := Entries(buffer);
      } else {
        reply := Refused;
      }
    }

    method Forget(port: Port)
      modifies this
      ensures Value() == OnPortClosed(old(Value()), port)
    {
      receivers := receivers - {port};
      buffers := buffers - {port};
      rxSubscriptions := rxSubscriptions - {port};
      filterSubscriptions := filterSubscriptions - {port};
    }

    method SubscribePort(port: Port, wasOpen: bool, d: Daemon) returns (reply: Reply, commands: seq<Command>)
      requires DaemonOk(d)
      modifies this
      ensures Effect(Value(), reply, commands) == SubscribeRx(old(Value()), port, wasOpen, d)
      ensures reply == Done <==> wasOpen && port in d.open && port !in old(rxSubscriptions)
      ensures reply == Done ==> commands == [Subscribe(port, Receiver(d.open[port], |d.chans[d.open[port]].sent|))]
    {
      reply, commands := Refused, [];
      if !wasOpen || port in rxSubscriptions {
        return;
      }
      var rx := NewReceiver(port, d);
      if rx.Some? {
        rxSubscriptions := rxSubscriptions + {port};
        reply, commands := Done, [Subscribe(port, rx.value)];
      }
    }

    method UnsubscribePort(port: Port) returns (reply: Reply, commands: seq<Command>)
      modifies this
      ensures Effect(Value(), reply, commands) == UnsubscribeRx(old(Value()), port)
    {
      reply, commands := Refused, [];
      if port in rxSubscriptions {
        rxSubscriptions := rxSubscriptions - {port};
        reply, commands := Done, [Unsubscribe(port)];
      }
    }

    method SetFilter(port: Port, requested: seq<Bytes>, wasOpen: bool, d: Daemon)
      returns (reply: Reply, commands: seq<Command>)
      requires DaemonOk(d)
      modifies this
      ensures Effect(Value(), reply, commands) == FilterRx(old(Value()), port, requested, wasOpen, d)
      ensures reply == Done ==>
        && port in d.open && port in filterSubscriptions && WithoutEmpty(filterSubscriptions[port], requested)
        && commands == [AddFilter(port, filterSubscriptions[port], Receiver(d.open[port], |d.chans[d.open[port]].sent|))]
    {
      var keywords := NonEmpty(requested);
      NonEmptyIsRequest(requested);
      reply, commands := Refused, [];
      if keywords == [] || !wasOpen {
        return;
      }
      var rx := NewReceiver(port, d);
      if rx.Some? {
        filterSubscriptions := filterSubscriptions[port := keywords];
        reply, commands := Done, [AddFilter(port, keywords, rx.value)];
      }
    }

    method DropFilter(port: Port) returns (reply: Reply, commands: seq<Command>)
      modifies this
      ensures Effect(Value(), reply, commands) == UnfilterRx(old(Value()), port)
    {
      reply, commands := Refused, [];
      if port in filterSubscriptions {
        filterSubscriptions := filterSubscriptions - {port};
        reply, commands := Done, [RemoveFilter(port)];
      }
    }

    /** add_filter_rx, with its loop over the requested keywords. */
    method AddKeywords(port: Port, requested: seq<Bytes>, wasOpen: bool, d: Daemon)
      returns (reply: Reply, commands: seq<Command>)
      requires DaemonOk(d)
      modifies this
      ensures Effect(Value(), reply, commands) == AddFilterRx(old(Value()), port, requested, wasOpen, d)
    {
      var added := NonEmpty(requested);
      reply, commands := Refused, [];
      if added == [] || !wasOpen {
        return;
      }
      if port in filterSubscriptions {
        var merged := MergeLoop(filterSubscriptions[port], added);
        filterSubscriptions := filterSubscriptions[port := merged];
        reply, commands := Done, [SetFilterKeywords(port, merged)];
      } else {
        var rx := NewReceiver(port, d);
        if rx.Some? {
          filterSubscriptions := filterSubscriptions[port := added];
          reply, commands := Done, [AddFilter(port, added, rx.value)];
        }
      }
    }
  }

  method MergeLoop(existing: seq<Bytes>, added: seq<Bytes>) returns (merged: seq<Bytes>)
    ensures merged == Merged(existing, added)
  {
    merged := existing;
    for i := 0 to |added|
      invariant merged == Merged(existing, added[..i])
    {
      assert added[..i + 1][..i] == added[..i];
      if added[i] !in merged {
        merged := merged + [added[i]];
      }
    }
    assert added[..|added|] == added;
  }
}
