/** Substring search: the specification side (every place a needle lies) and the
    `find_subslice` that the filter calls. */
module Matching {
  import opened Sequences

  /** The needle lies in hay at offset p. An empty needle lies nowhere. */
  predicate OccursAt<T(==)>(hay: seq<T>, needle: seq<T>, p: int) {
    needle != [] && 0 <= p && p + |needle| <= |hay| && hay[p..p + |needle|] == needle
  }

  /** The first window equal to the needle, at or after i. */
  function FirstWindow<T(==)>(hay: seq<T>, needle: seq<T>, i: nat): (r: Option<nat>)
    requires needle != []
    ensures r.Some? ==> i <= r.value && OccursAt(hay, needle, r.value)
    ensures r.Some? ==> forall j :: i <= j < r.value ==> !OccursAt(hay, needle, j)
    ensures r.None? ==> forall j :: i <= j ==> !OccursAt(hay, needle, j)
    decreases |hay| - i
  {
    if i + |needle| > |hay| then None
    else if hay[i..i + |needle|] == needle then Some(i)
    else FirstWindow(hay, needle, i + 1)
  }

  /** `find_subslice`: the first offset at which the needle lies, if any. */
  function FindSubslice<T(==)>(hay: seq<T>, needle: seq<T>): (r: Option<nat>)
    ensures r.Some? ==> OccursAt(hay, needle, r.value)
    ensures r.Some? ==> forall j :: 0 <= j < r.value ==> !OccursAt(hay, needle, j)
    ensures r.None? ==> forall j :: !OccursAt(hay, needle, j)
  {
    if needle == [] || |hay| < |needle| then None else FirstWindow(hay, needle, 0)
  }

  /** Every offset in lo..hi at which the needle lies, in ascending order. */
  function Positions<T(==)>(hay: seq<T>, needle: seq<T>, lo: int, hi: int): seq<int>
    decreases hi - lo
  {
    if hi <= lo then []
    else Positions(hay, needle, lo, hi - 1) + (if OccursAt(hay, needle, hi - 1) then [hi - 1] else [])
  }

  /** Positions is the naive search: strictly ascending, and containing exactly
      the offsets where the needle lies. */
  lemma {:induction false} PositionsExact<T>(hay: seq<T>, needle: seq<T>, lo: int, hi: int)
    ensures forall i, j :: 0 <= i < j < |Positions(hay, needle, lo, hi)| ==>
      Positions(hay, needle, lo, hi)[i] < Positions(hay, needle, lo, hi)[j]
    ensures forall p :: p in Positions(hay, needle, lo, hi) <==> lo <= p < hi && OccursAt(hay, needle, p)
    decreases hi - lo
  {
    if lo < hi {
      PositionsExact(hay, needle, lo, hi - 1);
      var before := Positions(hay, needle, lo, hi - 1);
      assert forall i :: 0 <= i < |before| ==> before[i] in before;
    }
  }

  lemma {:induction false} PositionsSplit<T>(hay: seq<T>, needle: seq<T>, lo: int, mid: int, hi: int)
    requires lo <= mid <= hi
    ensures Positions(hay, needle, lo, hi) == Positions(hay, needle, lo, mid) + Positions(hay, needle, mid, hi)
    decreases hi - mid
  {
    if mid < hi {
      PositionsSplit(hay, needle, lo, mid, hi - 1);
    }
  }

  lemma {:induction false} PositionsNone<T>(hay: seq<T>, needle: seq<T>, lo: int, hi: int)
    requires forall p :: lo <= p < hi ==> !OccursAt(hay, needle, p)
    ensures Positions(hay, needle, lo, hi) == []
    decreases hi - lo
  {
    if lo < hi {
      PositionsNone(hay, needle, lo, hi - 1);
    }
  }

  /** Two texts with the same matches, d apart, have the same positions, d apart. */
  lemma {:induction false} PositionsShift<T>(a: seq<T>, b: seq<T>, needle: seq<T>, d: int, lo: int, hi: int)
    requires forall p :: lo <= p < hi ==> (OccursAt(a, needle, p) <==> OccursAt(b, needle, p + d))
    ensures Positions(b, needle, lo + d, hi + d) == Shift(Positions(a, needle, lo, hi), d)
    decreases hi - lo
  {
    if lo < hi {
      PositionsShift(a, b, needle, d, lo, hi - 1);
      assert OccursAt(a, needle, hi - 1) <==> OccursAt(b, needle, hi - 1 + d);
    }
  }

  /** Text added at the end leaves every match that was already complete. */
  lemma OccursPrefix<T>(hay: seq<T>, more: seq<T>, needle: seq<T>, p: int)
    requires p + |needle| <= |hay|
    ensures OccursAt(hay, needle, p) <==> OccursAt(hay + more, needle, p)
  {
    if 0 <= p {
      assert (hay + more)[p..p + |needle|] == hay[p..p + |needle|];
    }
  }

  /** Dropping the first d elements moves every later match d to the left. */
  lemma OccursDrop<T>(hay: seq<T>, needle: seq<T>, d: nat, p: int)
    requires d <= |hay| && 0 <= p
    ensures OccursAt(hay[d..], needle, p) <==> OccursAt(hay, needle, p + d)
  {
    if p + d + |needle| <= |hay| {
      assert hay[d..][p..p + |needle|] == hay[p + d..p + d + |needle|];
    }
  }

  lemma OccursBehind<T>(head: seq<T>, tail: seq<T>, needle: seq<T>, p: nat)
    ensures OccursAt(head + tail, needle, |head| + p) <==> OccursAt(tail, needle, p)
  {
    assert (head + tail)[|head|..] == tail;
    OccursDrop(head + tail, needle, |head|, p);
  }

  /** Positions of matches that were complete before the text grew. */
  lemma PositionsKept<T>(hay: seq<T>, more: seq<T>, needle: seq<T>, lo: int, hi: int)
    requires hi + |needle| <= |hay| + 1
    ensures Positions(hay + more, needle, lo, hi) == Positions(hay, needle, lo, hi)
  {
    forall p | lo <= p < hi ensures OccursAt(hay, needle, p) <==> OccursAt(hay + more, needle, p + 0) {
      OccursPrefix(hay, more, needle, p);
    }
    PositionsShift(hay, hay + more, needle, 0, lo, hi);
    assert Shift(Positions(hay, needle, lo, hi), 0) == Positions(hay, needle, lo, hi);
  }

  /** A text that grows: the positions found so far, followed by those of the
      matches whose last element is new. */
  lemma PositionsGrow<T>(hay: seq<T>, more: seq<T>, needle: seq<T>, lo: int)
    requires lo <= |hay| + 1
    ensures Positions(hay + more, needle, lo, |hay + more|)
      == Positions(hay, needle, lo, |hay|)
         + Positions(hay + more, needle, Max(lo, |hay| + 1 - |needle|), |hay + more|)
  {
    var all := hay + more;
    var mid := Max(lo, |hay| + 1 - |needle|);
    if needle == [] {
      PositionsNone(all, needle, lo, |all|);
      PositionsNone(hay, needle, lo, |hay|);
      PositionsNone(all, needle, mid, |all|);
    } else if mid > |hay| {
      assert Positions(hay, needle, lo, |hay|) == [];
    } else {
      PositionsSplit(hay, needle, lo, mid, |hay|);
      PositionsNone(hay, needle, mid, |hay|);
      assert Positions(hay, needle, lo, |hay|) == Positions(hay, needle, lo, mid);
      if lo < mid {
        PositionsKept(hay, more, needle, lo, mid);
      }
      PositionsSplit(all, needle, lo, mid, |all|);
    }
  }

  /** When nothing matches in the head, the first match is the first one of the tail. */
  lemma FindInTail<T>(head: seq<T>, tail: seq<T>, needle: seq<T>)
    requires forall p :: 0 <= p < |head| ==> !OccursAt(head + tail, needle, p)
    requires FindSubslice(tail, needle).Some?
    ensures FindSubslice(head + tail, needle) == Some(|head| + FindSubslice(tail, needle).value)
  {
    var all := head + tail;
    var i := FindSubslice(tail, needle).value;
    assert all[|head|..] == tail;
    OccursDrop(all, needle, |head|, i);
    forall p | 0 <= p < |head| + i ensures !OccursAt(all, needle, p) {
      if p >= |head| {
        OccursDrop(all, needle, |head|, p - |head|);
      }
    }
  }

  lemma OccursInside<T>(head: seq<T>, needle: seq<T>, tail: seq<T>)
    requires needle != []
    ensures OccursAt(head + needle + tail, needle, |head|)
    ensures FindSubslice(head + needle + tail, needle).Some?
  {
    var all := head + needle + tail;
    assert all[|head|..|head| + |needle|] == needle;
    assert OccursAt(all, needle, |head|);
  }
}
