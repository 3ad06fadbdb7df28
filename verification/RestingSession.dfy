/** What a session reads when it next asks, after anything has happened to the ports. A port
    closed and reopened elsewhere leaves the session's receiver on the old opening. */
module RestingSession {
  import opened Sequences
  import opened Broadcast
  import opened KeywordFilter
  import opened Session
  import opened Streaming
  import ReadBuffer

  /** What happens to the ports while a session rests. */
  function SharedRun(d: Daemon, evs: seq<Event>): (r: Daemon)
    requires DaemonOk(d)
    ensures DaemonOk(r)
  {
    if evs == [] then d
    else
      var before := SharedRun(d, evs[..|evs| - 1]);
      SharedGrows(before, evs[|evs| - 1]);
      SharedStep(before, evs[|evs| - 1])
  }

  /** Entry j of channel c has the number n. */
  ghost predicate Has(d: Daemon, c: int, j: int, n: nat) {
    0 <= c < |d.chans| && 0 <= j < |d.chans[c].sent| && d.chans[c].sent[j].stamp == n
  }

  /** Entries numbered k or later are told apart by their numbers, across all channels. */
  ghost predicate DistinctFrom(d: Daemon, k: nat) {
    forall c, c', j, j', n: nat :: k <= n && Has(d, c, j, n) && Has(d, c', j', n) ==> c == c' && j == j'
  }

  lemma NumbersBelowClock(d: Daemon, c: int, j: int, n: nat)
    requires DaemonOk(d) && Has(d, c, j, n)
    ensures n < d.clock
  {
    assert ChannelOk(d.chans[c], d.clock);
  }

  lemma HasBefore(d: Daemon, ev: Event, c: int, j: int, n: nat)
    requires DaemonOk(d) && Has(SharedStep(d, ev), c, j, n)
    ensures Has(d, c, j, n) || (n == d.clock && ev.Arrived? && c == ev.chan && c < |d.chans| && j == |d.chans[c].sent|)
  {
  }

  lemma StepDistinct(d: Daemon, ev: Event, k: nat)
    requires DaemonOk(d) && DistinctFrom(d, k)
    ensures DistinctFrom(SharedStep(d, ev), k)
  {
    var d' := SharedStep(d, ev);
    forall c, c', j, j', n: nat | k <= n && Has(d', c, j, n) && Has(d', c', j', n) ensures c == c' && j == j' {
      HasBefore(d, ev, c, j, n);
      HasBefore(d, ev, c', j', n);
      if Has(d, c, j, n) { NumbersBelowClock(d, c, j, n); }
      if Has(d, c', j', n) { NumbersBelowClock(d, c', j', n); }
    }
  }

  lemma {:induction false} SharedRunGrows(d: Daemon, evs: seq<Event>)
    requires DaemonOk(d)
    ensures Grows(d, SharedRun(d, evs)) && DistinctFrom(SharedRun(d, evs), d.clock)
  {
    if evs == [] {
      forall c, j, n: nat | Has(d, c, j, n) ensures n < d.clock {
        NumbersBelowClock(d, c, j, n);
      }
    } else {
      var before := SharedRun(d, evs[..|evs| - 1]);
      SharedRunGrows(d, evs[..|evs| - 1]);
      SharedGrows(before, evs[|evs| - 1]);
      GrowsOn(d, before, SharedRun(d, evs));
      StepDistinct(before, evs[|evs| - 1], d.clock);
    }
  }

  lemma GrowsOn(a: Daemon, b: Daemon, c: Daemon)
    requires Grows(a, b) && Grows(b, c)
    ensures Grows(a, c)
  {
    assert c.owners[..|a.owners|] == c.owners[..|b.owners|][..|a.owners|];
    forall i | 0 <= i < |a.chans| ensures IsPrefix(a.chans[i].sent, c.chans[i].sent) {
      assert c.chans[i].sent[..|a.chans[i].sent|] == c.chans[i].sent[..|b.chans[i].sent|][..|a.chans[i].sent|];
    }
  }

  /** A drain keeps the entry numbered k when it is not behind and k is among the last 200. */
  lemma DrainKeepsIff(ch: Channel<RxEntry>, cursor: nat, buffer: seq<RxEntry>, k: nat)
    requires cursor <= k < |ch.sent| && ReadBuffer.Ascending(ch.sent)
    requires forall e :: e in buffer ==> e.stamp < ch.sent[k].stamp
    ensures ch.sent[k] in ReadBuffer.Drain(ch, cursor, buffer).0
      <==> |ch.sent| - cursor <= BROADCAST_CAPACITY && |ch.sent| - k <= ReadBuffer.MAX_BUFFER_ENTRIES
  {
    if cursor >= Oldest(ch) {
      var all := buffer + ch.sent[cursor..];
      var place := |buffer| + k - cursor;
      assert all[place] == ch.sent[k];
      assert forall i :: 0 <= i < |all| && i != place ==> all[i].stamp != ch.sent[k].stamp;
      KeptIff(all, place, ReadBuffer.MAX_BUFFER_ENTRIES);
    }
  }

  lemma KeptIff(all: seq<RxEntry>, place: nat, n: nat)
    requires place < |all| && forall i :: 0 <= i < |all| && i != place ==> all[i].stamp != all[place].stamp
    ensures all[place] in TakeLast(all, n) <==> |all| - place <= n
  {
    var kept := TakeLast(all, n);
    var from := |all| - |kept|;
    assert forall i :: 0 <= i < |kept| ==> kept[i] == all[from + i];
    if place >= from {
      assert kept[place - from] == all[place];
    }
  }

  /** An entry that the session has not been offered yet: it came in after the session's
      last step. */
  lemma ArrivedLater(d: Daemon, d': Daemon, chan: nat, k: nat, cursor: nat)
    requires DaemonOk(d) && Grows(d, d') && chan < |d.chans| && cursor <= |d.chans[chan].sent|
    requires k < |d'.chans[chan].sent| && d.clock <= d'.chans[chan].sent[k].stamp
    ensures cursor <= k
  {
    assert ChannelOk(d.chans[chan], d.clock);
    assert IsPrefix(d.chans[chan].sent, d'.chans[chan].sent);
    assert forall j :: 0 <= j < |d.chans[chan].sent| ==> d'.chans[chan].sent[..|d.chans[chan].sent|][j].stamp < d.clock;
  }

  /** What another opening's receiver drains has none of it. */
  lemma OtherDrained(d: Daemon, from: nat, rx: Receiver, p: Port, buffer: seq<RxEntry>, chan: nat, k: nat)
    requires Points(rx, p, d) && DistinctFrom(d, from) && chan < |d.chans| && chan != rx.chan && k < |d.chans[chan].sent|
    requires from <= d.chans[chan].sent[k].stamp && forall e :: e in buffer ==> e.stamp < from
    ensures d.chans[chan].sent[k] !in ReadBuffer.Drain(d.chans[rx.chan], rx.cursor, buffer).0
  {
    var ch := d.chans[rx.chan];
    var e := d.chans[chan].sent[k];
    forall i | 0 <= i < |ch.sent| ensures ch.sent[i] != e {
      assert Has(d, rx.chan, i, ch.sent[i].stamp) && Has(d, chan, k, e.stamp);
    }
    assert e !in ch.sent[rx.cursor..];
    assert e !in buffer + ch.sent[rx.cursor..];
  }

  /** The session rests while anything happens to the ports, then it reads. An entry that
      came in meanwhile on the port's current opening, as number k of that opening, is part
      of the answer if and only if the session's receiver belongs to that opening, at
      most 256 entries are unread, and it is among the last 200. */
  lemma ArrivalIsReadIff(session: Session, start: Daemon, evs: seq<Event>, p: Port, k: nat, clear: bool)
    requires DaemonOk(start) && SessionOk(session, start) && p in session.receivers
    requires var d := SharedRun(start, evs);
      p in d.open && k < |d.chans[d.open[p]].sent| && start.clock <= d.chans[d.open[p]].sent[k].stamp
    ensures var d := SharedRun(start, evs); var rx := session.receivers[p]; var sent := d.chans[d.open[p]].sent;
      SessionOk(session, d) && (var reply := ReadPort(session, p, clear, d).1;
        && reply.Entries?
        && (sent[k] in reply.entries
            <==> rx.chan == d.open[p] && |sent| - rx.cursor <= BROADCAST_CAPACITY && |sent| - k <= ReadBuffer.MAX_BUFFER_ENTRIES))
  {
    var d := SharedRun(start, evs);
    var rx := session.receivers[p];
    SharedRunGrows(start, evs);
    SessionOkGrows(session, start, d);
    if rx.chan == d.open[p] {
      ArrivedLater(start, d, rx.chan, k, rx.cursor);
      assert ChannelOk(d.chans[rx.chan], d.clock);
      DrainKeepsIff(d.chans[rx.chan], rx.cursor, session.buffers[p], k);
    } else {
      OtherDrained(d, start.clock, rx, p, session.buffers[p], d.open[p], k);
    }
  }

  lemma SessionOkGrows(s: Session, d: Daemon, d': Daemon)
    requires SessionOk(s, d) && Grows(d, d')
    ensures SessionOk(s, d')
  {
  }
}
