/** The filter polling loop over one receiver and the filter object it feeds, against the
    naive search of everything that was delivered. */
module FilterPolling {
  import opened Sequences
  import opened Matching
  import opened Broadcast
  import opened KeywordFilter
  import opened FilterTheorems

  /** The object is where the tracker's history says, and everything was found so far. That
      the carry ends the delivered bytes is the object's own invariant. */
  ghost predicate Tracks(f: FilterState, t: Tracker)
    reads f
  {
    && t.filter == f.Value() && t.stream == f.stream && |t.birth| == |f.keywords|
    && (forall i: nat :: i < |t.birth| ==> EntryExact(t, i))
    && (forall i: nat :: |t.birth| <= i ==> PositionsOf(t.found, i) == [])
  }

  lemma ValidTracksExact(f: FilterState, t: Tracker)
    requires f.Valid() && Tracks(f, t)
    ensures Exact(t)
  {
  }

  /** The hit is of a keyword of the list, and shows it at the place found. */
  ghost predicate HitAt(hit: Hit, f: Found, keywords: seq<Bytes>, text: Bytes) {
    && f.index == hit.index < |keywords| && hit.keyword == keywords[hit.index]
    && ShowsKeyword(hit, f.pos, text)
  }

  /** The hits are those found since `from`, in order, each at its place. */
  ghost predicate HitsAt(hits: seq<Hit>, from: nat, t: Tracker) {
    |t.found| == from + |hits|
    && forall k :: 0 <= k < |hits| ==> HitAt(hits[k], t.found[from + k], t.filter.keywords, t.stream)
  }

  lemma NextHitsAt(hits: seq<Hit>, from: nat, t: Tracker, e: RxEntry)
    requires HitsAt(hits, from, t) && CarryEnds(t.filter.carry, t.stream)
    ensures HitsAt(hits + Reported(t.filter, e), from, Deliver(t, e))
  {
    var added := Reported(t.filter, e);
    var t' := Deliver(t, e);
    forall k | 0 <= k < |hits + added| ensures HitAt((hits + added)[k], t'.found[from + k], t.filter.keywords, t'.stream) {
      if k < |hits| {
        assert HitAt(hits[k], t.found[from + k], t.filter.keywords, t.stream);
        ShownStays(hits[k], t.found[from + k].pos, t.stream, e.data);
      } else {
        assert added[k - |hits|] in added;
        DeliveredHitShows(t, e, added[k - |hits|]);
      }
    }
  }

  lemma DataNext(sent: seq<RxEntry>, from: nat, to: nat)
    requires from <= to < |sent|
    ensures Concat(DataOf(sent[from..to + 1])) == Concat(DataOf(sent[from..to])) + sent[to].data
  {
    assert sent[from..to + 1][..to - from] == sent[from..to];
    assert DataOf(sent[from..to + 1])[..to - from] == DataOf(sent[from..to]);
  }

  /** The history t when these entries have been delivered. */
  function DeliverOver(t: Tracker, entries: seq<RxEntry>): Tracker {
    if entries == [] then t else Deliver(DeliverOver(t, entries[..|entries| - 1]), entries[|entries| - 1])
  }

  /** What the entries report, one after another, each with its own timestamp. */
  function ReportedOver(t: Tracker, entries: seq<RxEntry>): seq<Hit> {
    if entries == [] then []
    else
      ReportedOver(t, entries[..|entries| - 1])
      + Reported(DeliverOver(t, entries[..|entries| - 1]).filter, entries[|entries| - 1])
  }

  lemma OverNext(t: Tracker, entries: seq<RxEntry>, e: RxEntry)
    ensures DeliverOver(t, entries + [e]) == Deliver(DeliverOver(t, entries), e)
    ensures ReportedOver(t, entries + [e]) == ReportedOver(t, entries) + Reported(DeliverOver(t, entries).filter, e)
  {
    assert (entries + [e])[..|entries|] == entries;
  }

  lemma {:induction false} StreamOver(t: Tracker, entries: seq<RxEntry>)
    ensures DeliverOver(t, entries).stream == t.stream + Concat(DataOf(entries))
  {
    if entries == [] {
      assert DataOf(entries) == [];
    } else {
      var init, last := entries[..|entries| - 1], entries[|entries| - 1];
      StreamOver(t, init);
      DataLast(entries);
      Longer(DeliverOver(t, init), last, t.stream, Concat(DataOf(init)));
    }
  }

  lemma DataLast(entries: seq<RxEntry>)
    requires entries != []
    ensures Concat(DataOf(entries)) == Concat(DataOf(entries[..|entries| - 1])) + entries[|entries| - 1].data
  {
    assert DataOf(entries)[..|entries| - 1] == DataOf(entries[..|entries| - 1]);
  }

  lemma Longer(t: Tracker, e: RxEntry, front: Bytes, back: Bytes)
    requires t.stream == front + back
    ensures Deliver(t, e).stream == front + (back + e.data)
  {
  }

  /** Since the history t these entries were delivered, and these hits reported. */
  ghost predicate Gathered(hits: seq<Hit>, entries: seq<RxEntry>, t: Tracker, t': Tracker) {
    && t'.birth == t.birth && IsPrefix(t.found, t'.found) && HitsAt(hits, |t.found|, t')
    && t' == DeliverOver(t, entries) && hits == ReportedOver(t, entries)
  }

  lemma GatheredNext(hits: seq<Hit>, entries: seq<RxEntry>, t: Tracker, t': Tracker, e: RxEntry)
    requires Gathered(hits, entries, t, t') && CarryEnds(t'.filter.carry, t'.stream)
    ensures Gathered(hits + Reported(t'.filter, e), entries + [e], t, Deliver(t', e))
  {
    NextHitsAt(hits, |t.found|, t', e);
    OverNext(t, entries, e);
    assert Deliver(t', e).found[..|t.found|] == t'.found[..|t.found|];
  }

  /** And the filter is now where t' says. */
  ghost predicate Collected(f: FilterState, hits: seq<Hit>, entries: seq<RxEntry>, t: Tracker, t': Tracker)
    reads f
  {
    f.Valid() && Tracks(f, t') && Gathered(hits, entries, t, t')
  }

  lemma CollectedPositions(f: FilterState, hits: seq<Hit>, entries: seq<RxEntry>, t: Tracker, t': Tracker)
    requires Collected(f, hits, entries, t, t')
    ensures f.stream == t.stream + Concat(DataOf(entries))
    ensures forall i: nat :: i < |f.keywords| ==>
      PositionsOf(t'.found, i) == Positions(f.stream, f.keywords[i], t.birth[i], |f.stream|)
  {
    StreamOver(t, entries);
    forall i: nat | i < |f.keywords| ensures PositionsOf(t'.found, i) == Positions(f.stream, f.keywords[i], t.birth[i], |f.stream|) {
      assert EntryExact(t', i);
    }
  }

  /** One entry through the filter object. */
  method Feed(f: FilterState, entry: RxEntry, collected: seq<Hit>, ghost entries: seq<RxEntry>, ghost start: Tracker, ghost t: Tracker)
    returns (hits: seq<Hit>, ghost t': Tracker)
    requires Collected(f, collected, entries, start, t)
    modifies f
    ensures f.keywords == old(f.keywords)
    ensures Collected(f, hits, entries + [entry], start, t')
  {
    ValidTracksExact(f, t);
    DeliverKeepsExact(t, entry);
    GatheredNext(collected, entries, start, t, entry);
    t' := Deliver(t, entry);
    var reported := f.Receive(entry);
    hits := collected + reported;
  }

  /** The polls from start to cursor have fetched these entries: none until the cursor is in the
      retained window, then all from its beginning on. */
  ghost predicate Fetched(ch: Channel<RxEntry>, start: nat, cursor: nat, entries: seq<RxEntry>) {
    var first := Max(start, Oldest(ch));
    && start <= cursor <= |ch.sent| && (cursor == start || cursor >= Oldest(ch))
    && entries == if cursor < first then [] else ch.sent[first..cursor]
  }

  /** One more poll. */
  lemma FetchedNext(ch: Channel<RxEntry>, start: nat, cursor: nat, entries: seq<RxEntry>)
    requires Fetched(ch, start, cursor, entries)
    ensures var (outcome, next) := TryRecv(ch, cursor);
      && (outcome.Got? ==> Fetched(ch, start, next, entries + [outcome.value]))
      && (outcome.Lagged? ==> Fetched(ch, start, next, entries))
  {
  }

  lemma AllFetched(ch: Channel<RxEntry>, start: nat, entries: seq<RxEntry>)
    requires Fetched(ch, start, |ch.sent|, entries)
    ensures entries == ch.sent[Max(start, Oldest(ch))..]
  {
  }

  lemma NothingYet(f: FilterState, t: Tracker, ch: Channel<RxEntry>, start: nat)
    requires start <= |ch.sent| && f.Valid() && Tracks(f, t)
    ensures Fetched(ch, start, start, []) && Collected(f, [], [], t, t)
  {
  }

  /** Receive until nothing is left, put every entry through the filter and collect what it
      reports: afterwards every keyword has been reported at every place where a naive
      search of all delivered bytes finds it from the keyword's first offset on. */
  method PollFilter(f: FilterState, ch: Channel<RxEntry>, start: nat, ghost t: Tracker)
    returns (hits: seq<Hit>, cursor: nat, closed: bool, ghost t': Tracker)
    requires start <= |ch.sent| && f.Valid() && Tracks(f, t)
    modifies f
    ensures f.Valid() && f.keywords == old(f.keywords)
    ensures f.stream == old(f.stream) + Concat(DataOf(ch.sent[Max(start, Oldest(ch))..]))
    ensures cursor == |ch.sent| && closed == ch.closed
    ensures Collected(f, hits, ch.sent[Max(start, Oldest(ch))..], t, t')
    ensures forall i: nat :: i < |f.keywords| ==>
      PositionsOf(t'.found, i) == Positions(f.stream, f.keywords[i], t.birth[i], |f.stream|)
  {
    hits, cursor, closed, t' := [], start, false, t;
    ghost var entries: seq<RxEntry> := [];
    NothingYet(f, t, ch, start);
    while true
      invariant cursor <= |ch.sent| && Fetched(ch, start, cursor, entries)
      invariant f.keywords == old(f.keywords) && Collected(f, hits, entries, t, t')
      decreases |ch.sent| - cursor
    {
      FetchedNext(ch, start, cursor, entries);
      var r := TryRecv(ch, cursor);
      cursor := r.1;
      match r.0 {
        case Got(entry) =>
          hits, t' := Feed(f, entry, hits, entries, t, t');
          entries := entries + [entry];
        case Lagged(_) =>
        case Empty => break;
        case Closed => closed := true; break;
      }
    }
    AllFetched(ch, start, entries);
    CollectedPositions(f, hits, entries, t, t');
  }
}
