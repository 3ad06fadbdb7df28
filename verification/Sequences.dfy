/** Small facts about sequences and options that the other modules share. */
module Sequences {

  datatype Option<+T> = None | Some(value: T)

  function Max(a: int, b: int): int {
    if a < b then b else a
  }

  function Min(a: int, b: int): int {
    if a < b then a else b
  }

  /** The last n elements, or all of them when there are fewer. */
  function TakeLast<T>(s: seq<T>, n: nat): seq<T> {
    if |s| <= n then s else s[|s| - n..]
  }

  function Concat<T>(parts: seq<seq<T>>): seq<T> {
    if parts == [] then [] else Concat(parts[..|parts| - 1]) + parts[|parts| - 1]
  }

  function Shift(s: seq<int>, d: int): (r: seq<int>)
    ensures |r| == |s| && forall i :: 0 <= i < |s| ==> r[i] == s[i] + d
  {
    seq(|s|, i requires 0 <= i < |s| => s[i] + d)
  }

  ghost predicate IsPrefix<T>(a: seq<T>, b: seq<T>) {
    |a| <= |b| && b[..|a|] == a
  }

  /** Trimming to a bound once per push or once at the end keeps the same tail. */
  lemma TakeLastAppend<T>(a: seq<T>, b: seq<T>, n: nat)
    ensures TakeLast(TakeLast(a, n) + b, n) == TakeLast(a + b, n)
  {
  }

  lemma SuffixAppend<T>(s: seq<T>, w: nat, more: seq<T>)
    requires w <= |s|
    ensures (s + more)[w..] == s[w..] + more
  {
  }

  lemma TakeLastOfSuffix<T>(s: seq<T>, w: nat, n: nat)
    requires w <= |s|
    ensures TakeLast(s[w..], n) == s[Max(w, |s| - n)..]
  {
  }

  function FlatMap<T, U>(f: T -> seq<U>, s: seq<T>): seq<U> {
    if s == [] then [] else FlatMap(f, s[..|s| - 1]) + f(s[|s| - 1])
  }

  lemma {:induction false} FlatMapAppend<T, U>(f: T -> seq<U>, a: seq<T>, b: seq<T>)
    ensures FlatMap(f, a + b) == FlatMap(f, a) + FlatMap(f, b)
  {
    if b == [] {
      assert a + b == a;
    } else {
      FlatMapAppend(f, a, b[..|b| - 1]);
      assert (a + b)[..|a + b| - 1] == a + b[..|b| - 1];
    }
  }

  lemma FlatMapOne<T, U>(f: T -> seq<U>, x: T)
    ensures FlatMap(f, [x]) == f(x)
  {
    assert [x][..0] == [];
  }

  /** t is s without what is blank at its ends. */
  ghost predicate Stripped<T>(blank: T -> bool, s: seq<T>, t: seq<T>) {
    exists lo, hi :: StrippedTo(blank, s, t, lo, hi)
  }

  ghost predicate StrippedTo<T>(blank: T -> bool, s: seq<T>, t: seq<T>, lo: nat, hi: nat) {
    && lo <= hi <= |s| && t == s[lo..hi]
    && (forall i :: 0 <= i < lo || hi <= i < |s| ==> blank(s[i]))
    && (lo < hi ==> !blank(s[lo]) && !blank(s[hi - 1]))
  }
}
