/** What the keyword filter reports over whole runs, against a naive search of the
    whole stream of delivered bytes. */
module FilterTheorems {
  import opened Sequences
  import opened Matching
  import opened KeywordFilter

  datatype FilterEvent = Chunk(entry: RxEntry) | SetKeywords(keywords: seq<Bytes>)

  /** A reported match: which list entry, and where in the delivered stream. */
  datatype Found = Found(index: nat, pos: int)

  /** A filter with its history: the bytes delivered to it, the matches it has
      reported, and for each list entry the first offset it answers for. */
  datatype Tracker = Tracker(filter: Filter, stream: Bytes, birth: seq<int>, found: seq<Found>)

  /** Where the carry begins in the delivered stream. */
  function WindowStart(t: Tracker): int {
    |t.stream| - |t.filter.carry|
  }

  /** The first offset at which a keyword added now can still be reported: inside
      the window, and with its last byte yet to come. */
  function FirstOffset(t: Tracker, kw: Bytes): int {
    Max(WindowStart(t), |t.stream| + 1 - |kw|)
  }

  function Births(t: Tracker, keywords: seq<Bytes>): (r: seq<int>)
    ensures |r| == |keywords|
  {
    seq(|keywords|, i requires 0 <= i < |keywords| =>
      if i < |t.birth| then t.birth[i] else FirstOffset(t, keywords[i]))
  }

  function Register(t: Tracker, keywords: seq<Bytes>): Tracker {
    Tracker(t.filter.(keywords := keywords), t.stream, Births(t, keywords), t.found)
  }

  function Start(keywords: seq<Bytes>): Tracker {
    Register(Tracker(Filter([], []), [], [], []), keywords)
  }

  function Located(hits: seq<Hit>, windowStart: int): (r: seq<Found>)
    ensures |r| == |hits|
  {
    seq(|hits|, i requires 0 <= i < |hits| => Found(hits[i].index, windowStart + hits[i].at))
  }

  function Deliver(t: Tracker, e: RxEntry): Tracker {
    Tracker(Advanced(t.filter, e), t.stream + e.data, t.birth,
            t.found + Located(Reported(t.filter, e), WindowStart(t)))
  }

  function TrackStep(t: Tracker, ev: FilterEvent): Tracker {
    match ev
    case Chunk(e) => Deliver(t, e)
    case SetKeywords(list) => Register(t, list)
  }

  function Track(keywords: seq<Bytes>, evs: seq<FilterEvent>): Tracker {
    if evs == [] then Start(keywords)
    else TrackStep(Track(keywords, evs[..|evs| - 1]), evs[|evs| - 1])
  }

  /** The stream offsets reported for list entry i, in the order of emission. */
  function PositionsOf(found: seq<Found>, i: nat): seq<int> {
    PositionsIn(found, i, |found|)
  }

  function PositionsIn(found: seq<Found>, i: nat, n: nat): seq<int>
    requires n <= |found|
  {
    if n == 0 then []
    else if found[n - 1].index == i then PositionsIn(found, i, n - 1) + [found[n - 1].pos]
    else PositionsIn(found, i, n - 1)
  }

  /** Every later list keeps the entries that were there: what add_filter_rx sends. */
  ghost predicate Growing(keywords: seq<Bytes>, evs: seq<FilterEvent>) {
    evs == [] ||
    (Growing(keywords, evs[..|evs| - 1]) &&
     (evs[|evs| - 1].SetKeywords? ==>
        IsPrefix(Track(keywords, evs[..|evs| - 1]).filter.keywords, evs[|evs| - 1].keywords)))
  }

  /** One list entry has reported exactly the naive search from its first offset on,
      and the carry reaches back far enough for the matches it may still complete. */
  ghost predicate EntryExact(t: Tracker, i: nat)
    requires i < |t.filter.keywords| && |t.birth| == |t.filter.keywords|
  {
    var kw := t.filter.keywords[i];
    && PositionsOf(t.found, i) == Positions(t.stream, kw, t.birth[i], |t.stream|)
    && t.birth[i] <= |t.stream| + 1
    && Max(t.birth[i], |t.stream| + 1 - |kw|) == FirstOffset(t, kw)
  }

  ghost predicate CarryEnds(carry: Bytes, stream: Bytes) {
    |carry| <= |stream| && carry == stream[|stream| - |carry|..]
  }

  ghost predicate Exact(t: Tracker) {
    && |t.birth| == |t.filter.keywords|
    && CarryEnds(t.filter.carry, t.stream)
    && (forall i: nat :: i < |t.birth| ==> EntryExact(t, i))
    && (forall i: nat :: |t.birth| <= i ==> PositionsOf(t.found, i) == [])
  }

  lemma {:induction false} PositionsInSame(a: seq<Found>, b: seq<Found>, i: nat, n: nat)
    requires n <= |a| <= |b| && b[..|a|] == a
    ensures PositionsIn(b, i, n) == PositionsIn(a, i, n)
  {
    if n > 0 {
      PositionsInSame(a, b, i, n - 1);
      assert b[n - 1] == b[..|a|][n - 1];
    }
  }

  lemma {:induction false} PositionsInAppend(a: seq<Found>, b: seq<Found>, i: nat, n: nat)
    requires n <= |b|
    ensures PositionsIn(a + b, i, |a| + n) == PositionsIn(a, i, |a|) + PositionsIn(b, i, n)
  {
    if n > 0 {
      PositionsInAppend(a, b, i, n - 1);
    } else {
      PositionsInSame(a, a + b, i, |a|);
    }
  }

  lemma PositionsOfAppend(a: seq<Found>, b: seq<Found>, i: nat)
    ensures PositionsOf(a + b, i) == PositionsOf(a, i) + PositionsOf(b, i)
  {
    PositionsInAppend(a, b, i, |b|);
  }

  lemma LocatedAppend(a: seq<Hit>, b: seq<Hit>, w: int, i: nat)
    ensures PositionsOf(Located(a + b, w), i) == PositionsOf(Located(a, w), i) + PositionsOf(Located(b, w), i)
  {
    assert Located(a + b, w) == Located(a, w) + Located(b, w);
    PositionsOfAppend(Located(a, w), Located(b, w), i);
  }

  lemma LocatedOne(hit: Hit, w: int, i: nat)
    ensures PositionsOf(Located([hit], w), i) == if hit.index == i then [w + hit.at] else []
  {
    var one := Located([hit], w);
    assert PositionsIn(one, i, 0) == [];
    assert PositionsIn(one, i, 1) == if one[0].index == i then [one[0].pos] else [];
  }

  lemma KeywordFoundStep(hay: Bytes, w: nat, carryLen: nat, ts: string, kws: seq<Bytes>, n: nat, i: nat, hi: nat)
    requires n < |kws| && hi > 0
    ensures PositionsOf(Located(KeywordHits(hay, carryLen, ts, kws, n, hi), w), i)
      == PositionsOf(Located(KeywordHits(hay, carryLen, ts, kws, n, hi - 1), w), i)
         + (if i == n && OccursAt(hay, kws[n], hi - 1) && hi - 1 + |kws[n]| > carryLen then [w + hi - 1] else [])
  {
    if OccursAt(hay, kws[n], hi - 1) && hi - 1 + |kws[n]| > carryLen {
      var hit := HitAt(hay, ts, kws, n, hi - 1);
      LocatedAppend(KeywordHits(hay, carryLen, ts, kws, n, hi - 1), [hit], w, i);
      LocatedOne(hit, w, i);
    }
  }

  lemma PositionsNext(text: Bytes, kw: Bytes, w: nat, carryLen: nat, hi: nat)
    requires w <= |text| && hi > 0
    ensures var lo := Max(w, w + carryLen + 1 - |kw|);
      Positions(text, kw, lo, w + hi) == Positions(text, kw, lo, w + hi - 1)
        + (if OccursAt(text[w..], kw, hi - 1) && hi - 1 + |kw| > carryLen then [w + hi - 1] else [])
  {
    OccursDrop(text, kw, w, hi - 1);
  }

  /** One keyword's hits on one chunk, read as stream offsets. */
  lemma {:induction false} KeywordFound(text: Bytes, w: nat, carryLen: nat, ts: string, kws: seq<Bytes>, n: nat, i: nat, hi: nat)
    requires n < |kws| && w <= |text|
    ensures FoundUpTo(text, w, carryLen, ts, kws, n, i, hi)
    decreases hi
  {
    if hi > 0 {
      KeywordFound(text, w, carryLen, ts, kws, n, i, hi - 1);
      KeywordFoundNext(text, w, carryLen, ts, kws, n, i, hi);
    }
  }

  ghost predicate FoundUpTo(text: Bytes, w: nat, carryLen: nat, ts: string, kws: seq<Bytes>, n: nat, i: nat, hi: nat)
    requires n < |kws| && w <= |text|
  {
    PositionsOf(Located(KeywordHits(text[w..], carryLen, ts, kws, n, hi), w), i)
      == if i == n then Positions(text, kws[n], Max(w, w + carryLen + 1 - |kws[n]|), w + hi) else []
  }

  lemma KeywordFoundNext(text: Bytes, w: nat, carryLen: nat, ts: string, kws: seq<Bytes>, n: nat, i: nat, hi: nat)
    requires n < |kws| && w <= |text| && hi > 0 && FoundUpTo(text, w, carryLen, ts, kws, n, i, hi - 1)
    ensures FoundUpTo(text, w, carryLen, ts, kws, n, i, hi)
  {
    KeywordFoundStep(text[w..], w, carryLen, ts, kws, n, i, hi);
    PositionsNext(text, kws[n], w, carryLen, hi);
  }

  /** The matches of a keyword that begin inside the window and end past what was seen. */
  function Share(text: Bytes, kw: Bytes, w: int, seen: int): seq<int> {
    Positions(text, kw, Max(w, seen + 1 - |kw|), |text|)
  }

  /** The matches that the last chunk of a text brings for one list entry. */
  function Brought(t: Tracker, text: Bytes, i: nat): seq<int> {
    if i < |t.filter.keywords| then Share(text, t.filter.keywords[i], WindowStart(t), |t.stream|) else []
  }

  lemma ChunkFoundStep(hay: Bytes, w: nat, carryLen: nat, ts: string, kws: seq<Bytes>, n: nat, i: nat)
    requires 0 < n <= |kws|
    ensures PositionsOf(Located(ChunkHits(hay, carryLen, ts, kws, n), w), i)
      == PositionsOf(Located(ChunkHits(hay, carryLen, ts, kws, n - 1), w), i)
         + PositionsOf(Located(KeywordHits(hay, carryLen, ts, kws, n - 1, |hay|), w), i)
  {
    LocatedAppend(ChunkHits(hay, carryLen, ts, kws, n - 1), KeywordHits(hay, carryLen, ts, kws, n - 1, |hay|), w, i);
  }

  /** One keyword's hits on the whole of a chunk. */
  lemma KeywordShare(text: Bytes, w: nat, carryLen: nat, ts: string, kws: seq<Bytes>, n: nat, i: nat)
    requires n < |kws| && w <= |text|
    ensures PositionsOf(Located(KeywordHits(text[w..], carryLen, ts, kws, n, |text[w..]|), w), i)
      == if i == n then Share(text, kws[n], w, w + carryLen) else []
  {
    KeywordFound(text, w, carryLen, ts, kws, n, i, |text| - w);
    assert FoundUpTo(text, w, carryLen, ts, kws, n, i, |text[w..]|);
  }

  lemma {:induction false} ChunkFound(text: Bytes, w: nat, carryLen: nat, ts: string, kws: seq<Bytes>, n: nat, i: nat)
    requires n <= |kws| && w <= |text|
    ensures PositionsOf(Located(ChunkHits(text[w..], carryLen, ts, kws, n), w), i)
      == if i < n then Share(text, kws[i], w, w + carryLen) else []
    decreases n
  {
    if n > 0 {
      ChunkFound(text, w, carryLen, ts, kws, n - 1, i);
      ChunkFoundStep(text[w..], w, carryLen, ts, kws, n, i);
      KeywordShare(text, w, carryLen, ts, kws, n - 1, i);
    }
  }

  lemma DeliveredFound(t: Tracker, e: RxEntry, i: nat)
    requires CarryEnds(t.filter.carry, t.stream)
    ensures PositionsOf(Deliver(t, e).found, i) == PositionsOf(t.found, i) + Brought(t, t.stream + e.data, i)
  {
    var w := WindowStart(t);
    SuffixAppend(t.stream, w, e.data);
    ChunkFound(t.stream + e.data, w, |t.filter.carry|, e.timestamp, t.filter.keywords, |t.filter.keywords|, i);
    PositionsOfAppend(t.found, Located(Reported(t.filter, e), w), i);
  }

  lemma WindowAfterChunk(stream: Bytes, carry: Bytes, data: Bytes, n: nat)
    requires CarryEnds(carry, stream)
    ensures var carry' := TakeLast(carry + data, n);
      && CarryEnds(carry', stream + data)
      && |stream + data| - |carry'| == Max(|stream| - |carry|, |stream + data| - n)
  {
    SuffixAppend(stream, |stream| - |carry|, data);
    TakeLastOfSuffix(stream + data, |stream| - |carry|, n);
  }

  lemma FirstOffsetAfterChunk(t: Tracker, e: RxEntry, i: nat)
    requires |t.birth| == |t.filter.keywords| && i < |t.birth|
    requires CarryEnds(t.filter.carry, t.stream) && EntryExact(t, i)
    ensures var t' := Deliver(t, e); var kw := t.filter.keywords[i];
      Max(t.birth[i], |t'.stream| + 1 - |kw|) == FirstOffset(t', kw)
  {
    WindowAfterChunk(t.stream, t.filter.carry, e.data, MaxCarry(t.filter.keywords));
    assert t.filter.keywords[i] in t.filter.keywords;
  }

  lemma FoundAfterChunk(t: Tracker, e: RxEntry, i: nat)
    requires |t.birth| == |t.filter.keywords| && i < |t.birth|
    requires CarryEnds(t.filter.carry, t.stream) && EntryExact(t, i)
    ensures var t' := Deliver(t, e);
      PositionsOf(t'.found, i) == Positions(t'.stream, t.filter.keywords[i], t.birth[i], |t'.stream|)
  {
    DeliveredFound(t, e, i);
    PositionsGrow(t.stream, e.data, t.filter.keywords[i], t.birth[i]);
  }

  lemma EntryAfterChunk(t: Tracker, e: RxEntry, i: nat)
    requires |t.birth| == |t.filter.keywords| && i < |t.birth|
    requires CarryEnds(t.filter.carry, t.stream) && EntryExact(t, i)
    ensures EntryExact(Deliver(t, e), i)
  {
    FoundAfterChunk(t, e, i);
    FirstOffsetAfterChunk(t, e, i);
  }

  lemma DeliverKeepsExact(t: Tracker, e: RxEntry)
    requires Exact(t)
    ensures Exact(Deliver(t, e))
  {
    WindowAfterChunk(t.stream, t.filter.carry, e.data, MaxCarry(t.filter.keywords));
    forall i: nat | i < |t.birth| ensures EntryExact(Deliver(t, e), i) {
      EntryAfterChunk(t, e, i);
    }
    forall i: nat | |t.birth| <= i ensures PositionsOf(Deliver(t, e).found, i) == [] {
      DeliveredFound(t, e, i);
    }
  }

  lemma BroughtExact(t: Tracker, data: Bytes, i: nat, p: int)
    requires i < |t.filter.keywords| && |t.birth| == |t.filter.keywords| && EntryExact(t, i)
    ensures var text := t.stream + data; var kw := t.filter.keywords[i];
      p in Brought(t, text, i) <==> OccursAt(text, kw, p) && t.birth[i] <= p && |t.stream| < p + |kw| <= |text|
  {
    PositionsExact(t.stream + data, t.filter.keywords[i], FirstOffset(t, t.filter.keywords[i]), |t.stream + data|);
  }

  /** A chunk makes a list entry report the matches whose last byte it brings,
      apart from those that begin before the entry's first offset. */
  lemma ReportedWithLastByte(t: Tracker, e: RxEntry, i: nat, p: int)
    requires Exact(t) && i < |t.filter.keywords|
    ensures var kw := t.filter.keywords[i]; var t' := Deliver(t, e);
      exists added :: PositionsOf(t'.found, i) == PositionsOf(t.found, i) + added
        && (p in added <==> OccursAt(t'.stream, kw, p) && t.birth[i] <= p && |t.stream| < p + |kw| <= |t'.stream|)
  {
    DeliveredFound(t, e, i);
    assert EntryExact(t, i);
    BroughtExact(t, e.data, i, p);
  }

  lemma RegisterKeepsExact(t: Tracker, list: seq<Bytes>)
    requires Exact(t) && IsPrefix(t.filter.keywords, list)
    ensures Exact(Register(t, list))
  {
    var t' := Register(t, list);
    forall i: nat | i < |list| ensures EntryExact(t', i) {
      if i < |t.birth| {
        assert list[i] == list[..|t.birth|][i] == t.filter.keywords[i];
        assert EntryExact(t, i);
      } else {
        PositionsNone(t.stream, list[i], t'.birth[i], |t.stream|);
      }
    }
  }

  lemma StartExact(keywords: seq<Bytes>)
    ensures Exact(Start(keywords))
  {
    RegisterKeepsExact(Tracker(Filter([], []), [], [], []), keywords);
  }

  /** Main theorem. Under any interleaving of chunks with growing keyword lists,
      every list entry has been reported at exactly the offsets a naive search of
      the whole delivered stream finds from its first offset on, ascending, once each. */
  lemma {:induction false} RunExact(keywords: seq<Bytes>, evs: seq<FilterEvent>)
    requires Growing(keywords, evs)
    ensures Exact(Track(keywords, evs))
  {
    if evs == [] {
      StartExact(keywords);
    } else {
      var before := evs[..|evs| - 1];
      RunExact(keywords, before);
      match evs[|evs| - 1]
      case Chunk(e) => DeliverKeepsExact(Track(keywords, before), e);
      case SetKeywords(list) => RegisterKeepsExact(Track(keywords, before), list);
    }
  }

  function Chunks(entries: seq<RxEntry>): (evs: seq<FilterEvent>)
    ensures |evs| == |entries|
  {
    seq(|entries|, i requires 0 <= i < |entries| => Chunk(entries[i]))
  }

  function DataOf(entries: seq<RxEntry>): seq<Bytes> {
    seq(|entries|, i requires 0 <= i < |entries| => entries[i].data)
  }

  lemma {:induction false} ChunksTrack(keywords: seq<Bytes>, entries: seq<RxEntry>)
    ensures var t := Track(keywords, Chunks(entries));
      && Growing(keywords, Chunks(entries))
      && t.filter.keywords == keywords
      && t.stream == Concat(DataOf(entries))
      && t.birth == Start(keywords).birth
  {
    if entries != [] {
      var before := entries[..|entries| - 1];
      ChunksTrack(keywords, before);
      assert Chunks(entries)[..|entries| - 1] == Chunks(before);
      assert DataOf(entries)[..|entries| - 1] == DataOf(before);
    }
  }

  lemma PositionsFromStart(text: Bytes, kw: Bytes)
    ensures Positions(text, kw, Max(0, 1 - |kw|), |text|) == Positions(text, kw, 0, |text|)
  {
    if kw == [] {
      PositionsNone(text, kw, 1, |text|);
      PositionsNone(text, kw, 0, |text|);
    }
  }

  lemma ExactFromStart(t: Tracker, i: nat)
    requires Exact(t) && i < |t.birth| && t.birth == Start(t.filter.keywords).birth
    ensures PositionsOf(t.found, i) == Positions(t.stream, t.filter.keywords[i], 0, |t.stream|)
  {
    assert EntryExact(t, i);
    PositionsFromStart(t.stream, t.filter.keywords[i]);
  }

  /** For a fixed keyword list and every way of cutting the bytes into chunks, each
      list entry reports all overlapping occurrences in the concatenation. */
  lemma FixedListExact(keywords: seq<Bytes>, entries: seq<RxEntry>, i: nat)
    requires i < |keywords|
    ensures var text := Concat(DataOf(entries));
      PositionsOf(Track(keywords, Chunks(entries)).found, i) == Positions(text, keywords[i], 0, |text|)
  {
    ChunksTrack(keywords, entries);
    RunExact(keywords, Chunks(entries));
    ExactFromStart(Track(keywords, Chunks(entries)), i);
  }

  /** With a fixed list the carry is the end of everything delivered, one byte shorter than
      the longest keyword: just what can begin a match that is still to be completed. */
  lemma {:induction false} CarryIsTail(keywords: seq<Bytes>, entries: seq<RxEntry>)
    ensures var t := Track(keywords, Chunks(entries));
      t.filter.keywords == keywords && t.stream == Concat(DataOf(entries))
      && t.filter.carry == TakeLast(Concat(DataOf(entries)), MaxCarry(keywords))
  {
    if entries == [] {
      assert Chunks(entries) == [] && DataOf(entries) == [];
    } else {
      var init, last := entries[..|entries| - 1], entries[|entries| - 1];
      CarryIsTail(keywords, init);
      assert Chunks(entries)[..|entries| - 1] == Chunks(init) && DataOf(entries)[..|entries| - 1] == DataOf(init);
      TakeLastAppend(Concat(DataOf(init)), last.data, MaxCarry(keywords));
    }
  }

  /** So where the chunk borders fall does not matter. */
  lemma ChunkingIrrelevant(keywords: seq<Bytes>, a: seq<RxEntry>, b: seq<RxEntry>, i: nat)
    requires i < |keywords| && Concat(DataOf(a)) == Concat(DataOf(b))
    ensures PositionsOf(Track(keywords, Chunks(a)).found, i) == PositionsOf(Track(keywords, Chunks(b)).found, i)
  {
    FixedListExact(keywords, a, i);
    FixedListExact(keywords, b, i);
  }

  /** An entry keeps its keyword and its first offset for the rest of the run. */
  lemma {:induction false} EntryKept(keywords: seq<Bytes>, before: seq<FilterEvent>, after: seq<FilterEvent>, i: nat)
    requires Growing(keywords, before + after)
    requires i < |Track(keywords, before).filter.keywords|
    ensures Growing(keywords, before)
    ensures var t := Track(keywords, before); var t' := Track(keywords, before + after);
      && |t.filter.keywords| == |t.birth| <= |t'.birth| == |t'.filter.keywords|
      && t'.filter.keywords[i] == t.filter.keywords[i]
      && t'.birth[i] == t.birth[i]
  {
    var evs := before + after;
    if after == [] {
      assert evs == before;
      RunExact(keywords, before);
    } else {
      assert evs[..|evs| - 1] == before + after[..|after| - 1];
      EntryKept(keywords, before, after[..|after| - 1], i);
      StepKeepsEntry(Track(keywords, evs[..|evs| - 1]), evs[|evs| - 1], i);
    }
  }

  lemma StepKeepsEntry(t: Tracker, ev: FilterEvent, i: nat)
    requires i < |t.filter.keywords| == |t.birth|
    requires ev.SetKeywords? ==> IsPrefix(t.filter.keywords, ev.keywords)
    ensures var t' := TrackStep(t, ev);
      && |t.birth| <= |t'.birth| == |t'.filter.keywords|
      && t'.filter.keywords[i] == t.filter.keywords[i] && t'.birth[i] == t.birth[i]
  {
    if ev.SetKeywords? {
      assert ev.keywords[i] == ev.keywords[..|t.filter.keywords|][i];
    }
  }

  /** A keyword added in mid-stream is reported at exactly the occurrences that end
      after the addition and begin no earlier than the carry did at the addition,
      however the list grows afterwards. */
  lemma LateKeywordExact(keywords: seq<Bytes>, before: seq<FilterEvent>, list: seq<Bytes>, after: seq<FilterEvent>, i: nat, p: int)
    requires Growing(keywords, before + [SetKeywords(list)] + after)
    requires |Track(keywords, before).filter.keywords| <= i < |list|
    ensures var t := Track(keywords, before); var t' := Track(keywords, before + [SetKeywords(list)] + after);
      p in PositionsOf(t'.found, i)
      <==> OccursAt(t'.stream, list[i], p) && WindowStart(t) <= p && |t.stream| < p + |list[i]|
  {
    var added := before + [SetKeywords(list)];
    var t := Track(keywords, before);
    var t' := Track(keywords, added + after);
    assert added[..|added| - 1] == before;
    assert Track(keywords, added) == Register(t, list);
    EntryKept(keywords, added, after, i);
    assert Exact(t) by { RunExact(keywords, before); }
    assert EntryExact(t', i) by { RunExact(keywords, added + after); }
    PositionsExact(t'.stream, list[i], FirstOffset(t, list[i]), |t'.stream|);
  }

  /** After any chunks under the first list, a keyword added is reported at the occurrences
      that end after the addition and begin at most the longest old keyword's length, less
      one, before it. */
  lemma LateKeywordAfterChunks(keywords: seq<Bytes>, entries: seq<RxEntry>, list: seq<Bytes>, after: seq<FilterEvent>, i: nat, p: int)
    requires Growing(keywords, Chunks(entries) + [SetKeywords(list)] + after) && |keywords| <= i < |list|
    ensures var seen := |Concat(DataOf(entries))|; var t' := Track(keywords, Chunks(entries) + [SetKeywords(list)] + after);
      p in PositionsOf(t'.found, i)
      <==> OccursAt(t'.stream, list[i], p) && seen - MaxCarry(keywords) <= p && seen < p + |list[i]|
  {
    CarryIsTail(keywords, entries);
    LateKeywordExact(keywords, Chunks(entries), list, after, i, p);
  }

  /** One hit is reported before another: its list entry comes first or, for the same entry,
      its match begins first. */
  predicate Earlier(h: Hit, h': Hit) {
    h.index < h'.index || (h.index == h'.index && h.at < h'.at)
  }

  ghost predicate InOrder(hits: seq<Hit>) {
    forall i, j :: 0 <= i < j < |hits| ==> Earlier(hits[i], hits[j])
  }

  lemma OrderAppend(a: seq<Hit>, b: seq<Hit>)
    requires InOrder(a) && InOrder(b) && forall h, h' :: h in a && h' in b ==> Earlier(h, h')
    ensures InOrder(a + b)
  {
    forall i, j | 0 <= i < j < |a + b| ensures Earlier((a + b)[i], (a + b)[j]) {
      assert i < |a| <= j ==> a[i] in a && b[j - |a|] in b;
    }
  }

  lemma {:induction false} KeywordHitsInOrder(hay: Bytes, carryLen: nat, ts: string, kws: seq<Bytes>, n: nat, hi: nat)
    requires n < |kws|
    ensures InOrder(KeywordHits(hay, carryLen, ts, kws, n, hi))
    ensures forall h :: h in KeywordHits(hay, carryLen, ts, kws, n, hi) ==> h.index == n && h.at < hi
    decreases hi
  {
    if hi > 0 {
      KeywordHitsInOrder(hay, carryLen, ts, kws, n, hi - 1);
      if OccursAt(hay, kws[n], hi - 1) {
        OrderAppend(KeywordHits(hay, carryLen, ts, kws, n, hi - 1), [HitAt(hay, ts, kws, n, hi - 1)]);
      }
    }
  }

  lemma {:induction false} ChunkHitsInOrder(hay: Bytes, carryLen: nat, ts: string, kws: seq<Bytes>, n: nat)
    requires n <= |kws|
    ensures InOrder(ChunkHits(hay, carryLen, ts, kws, n))
    ensures forall h :: h in ChunkHits(hay, carryLen, ts, kws, n) ==> h.index < n
    decreases n
  {
    if n > 0 {
      ChunkHitsInOrder(hay, carryLen, ts, kws, n - 1);
      KeywordHitsInOrder(hay, carryLen, ts, kws, n - 1, |hay|);
      OrderAppend(ChunkHits(hay, carryLen, ts, kws, n - 1), KeywordHits(hay, carryLen, ts, kws, n - 1, |hay|));
    }
  }

  /** What one chunk reports comes list entry by list entry, each from front to back. */
  lemma ReportedInOrder(f: Filter, e: RxEntry)
    ensures InOrder(Reported(f, e))
  {
    ChunkHitsInOrder(f.carry + e.data, |f.carry|, e.timestamp, f.keywords, |f.keywords|);
  }

  lemma ContextOfSuffix(text: Bytes, w: nat, at: nat, len: nat)
    requires w <= |text| && at + len <= |text| - w
    ensures Context(text[w..], at, len)
      == text[Max(w, w + at - CONTEXT_BYTES)..Min(w + at + len + CONTEXT_BYTES, |text|)]
  {
    var lo := Max(0, at - CONTEXT_BYTES);
    var hi := Min(at + len + CONTEXT_BYTES, |text| - w);
    assert text[w..][lo..hi] == text[w + lo..w + hi];
  }

  /** A hit carries the timestamp of the chunk that brought the match's last byte. The context
      sent with it is a piece of the delivered stream, the match with at most 20 bytes on each
      side, cut at the carry and at the end of the chunk. */
  lemma HitShowsStream(t: Tracker, e: RxEntry, h: Hit)
    requires CarryEnds(t.filter.carry, t.stream) && h in Reported(t.filter, e)
    ensures var text := t.stream + e.data; var p := WindowStart(t) + h.at;
      && h.at >= 0 && h.index < |t.filter.keywords| && h.keyword == t.filter.keywords[h.index]
      && OccursAt(text, h.keyword, p) && |t.stream| < p + |h.keyword| && h.timestamp == e.timestamp
      && h.context == text[Max(WindowStart(t), p - CONTEXT_BYTES)..Min(p + |h.keyword| + CONTEXT_BYTES, |text|)]
  {
    var text := t.stream + e.data;
    var w := WindowStart(t);
    SuffixAppend(t.stream, w, e.data);
    ChunkHitsSound(text[w..], |t.filter.carry|, e.timestamp, t.filter.keywords, |t.filter.keywords|, h);
    OccursDrop(text, h.keyword, w, h.at);
    ContextOfSuffix(text, w, h.at, |h.keyword|);
  }

  /** The hit shows the keyword where it lies in the text, with at most 20 bytes of the text
      on each side. */
  ghost predicate ShowsKeyword(h: Hit, at: int, text: Bytes) {
    OccursAt(text, h.keyword, at) && exists lo, hi :: ContextBounds(lo, hi, at, |h.keyword|, |text|) && h.context == text[lo..hi]
  }

  predicate ContextBounds(lo: int, hi: int, at: int, width: nat, length: nat) {
    0 <= lo <= at <= lo + CONTEXT_BYTES && at + width <= hi <= at + width + CONTEXT_BYTES && hi <= length
  }

  /** The entry at the end of the text brought the last byte of the match, and the hit has its
      timestamp. */
  predicate BroughtBy(h: Hit, at: int, text: Bytes, e: RxEntry) {
    && h.timestamp == e.timestamp
    && |e.data| <= |text| && text[|text| - |e.data|..] == e.data
    && |text| - |e.data| < at + |h.keyword| <= |text|
  }

  lemma DeliveredHitShows(t: Tracker, e: RxEntry, h: Hit)
    requires CarryEnds(t.filter.carry, t.stream) && h in Reported(t.filter, e)
    ensures h.index < |t.filter.keywords| && h.keyword == t.filter.keywords[h.index]
    ensures ShowsKeyword(h, WindowStart(t) + h.at, t.stream + e.data)
    ensures BroughtBy(h, WindowStart(t) + h.at, t.stream + e.data, e)
  {
    var text := t.stream + e.data;
    var p := WindowStart(t) + h.at;
    HitShowsStream(t, e, h);
    var lo := Max(WindowStart(t), p - CONTEXT_BYTES);
    var hi := Min(p + |h.keyword| + CONTEXT_BYTES, |text|);
    assert ContextBounds(lo, hi, p, |h.keyword|, |text|) && h.context == text[lo..hi];
  }

  /** What a hit shows stays in the stream as it grows. */
  lemma ShownStays(h: Hit, at: int, text: Bytes, more: Bytes)
    requires ShowsKeyword(h, at, text)
    ensures ShowsKeyword(h, at, text + more)
  {
    OccursPrefix(text, more, h.keyword, at);
    var lo, hi :| ContextBounds(lo, hi, at, |h.keyword|, |text|) && h.context == text[lo..hi];
    assert (text + more)[lo..hi] == text[lo..hi];
    assert ContextBounds(lo, hi, at, |h.keyword|, |text + more|);
  }
}
