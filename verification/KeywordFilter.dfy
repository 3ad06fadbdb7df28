/** The streaming keyword filter of the daemon: bytes arrive in chunks, a tail of
    the bytes already seen is kept in front of the next chunk, and every keyword is
    searched in tail plus chunk. */
module KeywordFilter {
  import opened Sequences
  import opened Matching

  newtype Byte = x: int | 0 <= x < 256
  type Bytes = seq<Byte>

  /** One received chunk. `stamp` numbers the chunks the daemon reads, in order;
      it is a history variable of the model, the daemon does not store it. */
  datatype RxEntry = RxEntry(stamp: nat, timestamp: string, data: Bytes)

  /** One `filter_hit`: `index` is the place in the keyword list, `at` the offset in
      carry plus chunk, which the daemon computes but does not send. */
  datatype Hit = Hit(index: nat, at: int, keyword: Bytes, timestamp: string, context: Bytes)

  /** The value part of a filter: its keyword list and the kept tail. */
  datatype Filter = Filter(keywords: seq<Bytes>, carry: Bytes)

  const CONTEXT_BYTES: nat := 20

  /** `max_carry`: longest keyword minus one, and 0 for an empty list. */
  function MaxCarry(keywords: seq<Bytes>): (r: nat)
    ensures forall k :: k in keywords ==> |k| <= r + 1
    ensures r > 0 ==> exists k :: k in keywords && |k| == r + 1
  {
    if keywords == [] then 0
    else
      var rest := MaxCarry(keywords[1..]);
      var r := Max(|keywords[0]| - 1, rest);
      assert forall k :: k in keywords ==> k == keywords[0] || k in keywords[1..];
      assert r > 0 && r != rest ==> keywords[0] in keywords;
      r
  }

  /** Up to 20 bytes on each side of a match, within carry plus chunk. */
  function Context(hay: Bytes, at: int, len: nat): (r: Bytes)
    requires 0 <= at && at + len <= |hay|
  {
    hay[Max(0, at - CONTEXT_BYTES)..Min(at + len + CONTEXT_BYTES, |hay|)]
  }

  function HitAt(hay: Bytes, timestamp: string, keywords: seq<Bytes>, i: nat, at: int): Hit
    requires i < |keywords| && OccursAt(hay, keywords[i], at)
  {
    Hit(i, at, keywords[i], timestamp, Context(hay, at, |keywords[i]|))
  }

  /** What one keyword reports on one chunk: its matches that reach past the carry. */
  function KeywordHits(hay: Bytes, carryLen: nat, timestamp: string, keywords: seq<Bytes>, i: nat, hi: int): seq<Hit>
    requires i < |keywords|
    decreases hi
  {
    if hi <= 0 then []
    else
      var before := KeywordHits(hay, carryLen, timestamp, keywords, i, hi - 1);
      if OccursAt(hay, keywords[i], hi - 1) && hi - 1 + |keywords[i]| > carryLen
      then before + [HitAt(hay, timestamp, keywords, i, hi - 1)]
      else before
  }

  /** What the first n keywords report on one chunk, keyword by keyword. */
  function ChunkHits(hay: Bytes, carryLen: nat, timestamp: string, keywords: seq<Bytes>, n: nat): seq<Hit>
    requires n <= |keywords|
  {
    if n == 0 then []
    else
      ChunkHits(hay, carryLen, timestamp, keywords, n - 1)
      + KeywordHits(hay, carryLen, timestamp, keywords, n - 1, |hay|)
  }

  function Reported(f: Filter, e: RxEntry): seq<Hit> {
    ChunkHits(f.carry + e.data, |f.carry|, e.timestamp, f.keywords, |f.keywords|)
  }

  function Advanced(f: Filter, e: RxEntry): Filter {
    f.(carry := TakeLast(f.carry + e.data, MaxCarry(f.keywords)))
  }

  lemma {:induction false} KeywordHitsSound(hay: Bytes, carryLen: nat, ts: string, kws: seq<Bytes>, n: nat, hi: nat, h: Hit)
    requires n < |kws| && h in KeywordHits(hay, carryLen, ts, kws, n, hi)
    ensures h.index == n && OccursAt(hay, kws[n], h.at) && h.at + |kws[n]| > carryLen && h == HitAt(hay, ts, kws, n, h.at)
    ensures h.keyword == kws[n] && h.timestamp == ts
    decreases hi
  {
    if h in KeywordHits(hay, carryLen, ts, kws, n, hi - 1) {
      KeywordHitsSound(hay, carryLen, ts, kws, n, hi - 1, h);
    }
  }

  /** The hit is a match of the keyword that reaches past the carry, with the given timestamp. */
  predicate ReportsMatch(h: Hit, hay: Bytes, carryLen: nat, timestamp: string, keywords: seq<Bytes>, i: nat)
    requires i < |keywords|
  {
    && h.index == i && h.keyword == keywords[i] && h.timestamp == timestamp
    && OccursAt(hay, keywords[i], h.at) && h.at + |keywords[i]| > carryLen
    && h.context == Context(hay, h.at, |keywords[i]|)
  }

  lemma HitsReportMatches(hay: Bytes, carryLen: nat, timestamp: string, keywords: seq<Bytes>, i: nat)
    requires i < |keywords|
    ensures forall h :: h in KeywordHits(hay, carryLen, timestamp, keywords, i, |hay|) ==>
      ReportsMatch(h, hay, carryLen, timestamp, keywords, i)
  {
    forall h | h in KeywordHits(hay, carryLen, timestamp, keywords, i, |hay|)
      ensures ReportsMatch(h, hay, carryLen, timestamp, keywords, i)
    {
      KeywordHitsSound(hay, carryLen, timestamp, keywords, i, |hay|, h);
    }
  }

  lemma {:induction false} ChunkHitsSound(hay: Bytes, carryLen: nat, ts: string, kws: seq<Bytes>, n: nat, h: Hit)
    requires n <= |kws| && h in ChunkHits(hay, carryLen, ts, kws, n)
    ensures h.index < n && OccursAt(hay, kws[h.index], h.at) && h.at + |kws[h.index]| > carryLen
    ensures h == HitAt(hay, ts, kws, h.index, h.at) && h.keyword == kws[h.index] && h.timestamp == ts
    decreases n
  {
    if h in ChunkHits(hay, carryLen, ts, kws, n - 1) {
      ChunkHitsSound(hay, carryLen, ts, kws, n - 1, h);
    } else {
      KeywordHitsSound(hay, carryLen, ts, kws, n - 1, |hay|, h);
    }
  }

  lemma TailKept(stream: Bytes, carry: Bytes, data: Bytes, n: nat)
    requires |carry| <= |stream| && carry == stream[|stream| - |carry|..]
    ensures var hay := carry + data; var kept := hay[|hay| - Min(n, |hay|)..];
      kept == TakeLast(hay, n) && |kept| <= |stream + data| && kept == (stream + data)[|stream + data| - |kept|..]
  {
    SuffixAppend(stream, |stream| - |carry|, data);
  }

  /** The filter as the streaming task holds it, with the bytes delivered so far. */
  class FilterState {
    var keywords: seq<Bytes>
    var carry: Bytes
    ghost var stream: Bytes

    /** The carry is always the end of what was delivered. */
    ghost predicate Valid()
      reads this
    {
      |carry| <= |stream| && carry == stream[|stream| - |carry|..]
    }

    ghost function Value(): Filter
      reads this
    {
      Filter(keywords, carry)
    }

    constructor (keywords: seq<Bytes>)
      ensures Valid() && Value() == Filter(keywords, []) && stream == []
    {
      this.keywords, this.carry, this.stream := keywords, [], [];
    }

    /** One delivered chunk: search carry plus chunk, then keep a tail of it. */
    method Receive(entry: RxEntry) returns (hits: seq<Hit>)
      requires Valid()
      modifies this
      ensures Valid() && stream == old(stream) + entry.data
      ensures hits == Reported(old(Value()), entry)
      ensures Value() == Advanced(old(Value()), entry)
    {
      var maxCarry := MaxCarry(keywords);
      var hay := carry;
      carry := [];
      var carryLen := |hay|;
      hay := hay + entry.data;
      hits := SearchAll(hay, carryLen, entry.timestamp, keywords);
      carry := hay[|hay| - Min(maxCarry, |hay|)..];
      TailKept(stream, old(carry), entry.data, maxCarry);
      stream := stream + entry.data;
    }

    /** `SetFilterKeywords`: the list is replaced, the carry stays. */
    method SetKeywords(list: seq<Bytes>)
      requires Valid()
      modifies this`keywords
      ensures Valid() && Value() == old(Value()).(keywords := list)
    {
      keywords := list;
    }
  }

  /** The loop over the keyword list. */
  method SearchAll(hay: Bytes, carryLen: nat, timestamp: string, keywords: seq<Bytes>) returns (hits: seq<Hit>)
    ensures hits == ChunkHits(hay, carryLen, timestamp, keywords, |keywords|)
  {
    hits := [];
    var n := 0;
    while n < |keywords|
      invariant 0 <= n <= |keywords|
      invariant hits == ChunkHits(hay, carryLen, timestamp, keywords, n)
    {
      var found := SearchKeyword(hay, carryLen, timestamp, keywords, n);
      hits := hits + found;
      n := n + 1;
    }
  }

  /** The innermost loop: restart the search one past each match, so that
      overlapping matches are all found. */
  method SearchKeyword(hay: Bytes, carryLen: nat, timestamp: string, keywords: seq<Bytes>, i: nat)
    returns (hits: seq<Hit>)
    requires i < |keywords|
    ensures hits == KeywordHits(hay, carryLen, timestamp, keywords, i, |hay|)
    ensures forall h :: h in hits ==> ReportsMatch(h, hay, carryLen, timestamp, keywords, i)
  {
    var kw := keywords[i];
    hits := [];
    var searchFrom := 0;
    var next := FindSubslice(hay, kw);
    assert hay[0..] == hay;
    while next.Some?
      invariant 0 <= searchFrom <= |hay|
      invariant next == FindSubslice(hay[searchFrom..], kw)
      invariant hits == KeywordHits(hay, carryLen, timestamp, keywords, i, searchFrom)
      decreases |hay| - searchFrom
    {
      var abs := searchFrom + next.value;
      SearchNext(hay, carryLen, timestamp, keywords, i, searchFrom);
      if abs + |kw| > carryLen {
        hits := hits + [Hit(i, abs, kw, timestamp, Context(hay, abs, |kw|))];
      }
      searchFrom := abs + 1;
      next := FindSubslice(hay[searchFrom..], kw);
    }
    SearchNext(hay, carryLen, timestamp, keywords, i, searchFrom);
    HitsReportMatches(hay, carryLen, timestamp, keywords, i);
  }

  /** A search in the rest of the text finds the first match from there on. */
  lemma FirstMatchFrom(hay: Bytes, kw: Bytes, from: nat)
    requires from <= |hay|
    ensures var next := FindSubslice(hay[from..], kw);
      && (next.Some? ==> OccursAt(hay, kw, from + next.value))
      && (forall p :: from <= p < (if next.Some? then from + next.value else |hay|) ==> !OccursAt(hay, kw, p))
  {
    var next := FindSubslice(hay[from..], kw);
    forall p | from <= p < |hay| && (next.Some? ==> p <= from + next.value)
      ensures OccursAt(hay, kw, p) <==> OccursAt(hay[from..], kw, p - from)
    {
      OccursDrop(hay, kw, from, p - from);
    }
  }

  /** One more search: the hits up to and including the match found, or all of them. */
  lemma SearchNext(hay: Bytes, carryLen: nat, timestamp: string, keywords: seq<Bytes>, i: nat, from: nat)
    requires i < |keywords| && from <= |hay|
    ensures var next := FindSubslice(hay[from..], keywords[i]); var before := KeywordHits(hay, carryLen, timestamp, keywords, i, from);
      match next
      case None => KeywordHits(hay, carryLen, timestamp, keywords, i, |hay|) == before
      case Some(n) => (
        from + n < |hay| &&
        KeywordHits(hay, carryLen, timestamp, keywords, i, from + n + 1) ==
          before + (if from + n + |keywords[i]| > carryLen then [HitAt(hay, timestamp, keywords, i, from + n)] else []))
  {
    FirstMatchFrom(hay, keywords[i], from);
    match FindSubslice(hay[from..], keywords[i])
    case None => KeywordHitsSkip(hay, carryLen, timestamp, keywords, i, from, |hay|);
    case Some(n) => KeywordHitsNext(hay, carryLen, timestamp, keywords, i, from, from + n);
  }

  lemma KeywordHitsNext(hay: Bytes, carryLen: nat, timestamp: string, keywords: seq<Bytes>, i: nat, from: nat, abs: nat)
    requires i < |keywords| && from <= abs && OccursAt(hay, keywords[i], abs)
    requires forall p :: from <= p < abs ==> !OccursAt(hay, keywords[i], p)
    ensures KeywordHits(hay, carryLen, timestamp, keywords, i, abs + 1)
      == KeywordHits(hay, carryLen, timestamp, keywords, i, from)
         + (if abs + |keywords[i]| > carryLen then [HitAt(hay, timestamp, keywords, i, abs)] else [])
  {
    KeywordHitsSkip(hay, carryLen, timestamp, keywords, i, from, abs);
  }

  lemma {:induction false} KeywordHitsSkip(hay: Bytes, carryLen: nat, timestamp: string, keywords: seq<Bytes>, i: nat, lo: nat, hi: nat)
    requires i < |keywords| && lo <= hi
    requires forall p :: lo <= p < hi ==> !OccursAt(hay, keywords[i], p)
    ensures KeywordHits(hay, carryLen, timestamp, keywords, i, hi) == KeywordHits(hay, carryLen, timestamp, keywords, i, lo)
    decreases hi
  {
    if lo < hi {
      KeywordHitsSkip(hay, carryLen, timestamp, keywords, i, lo, hi - 1);
    }
  }
}
