/** `sanitizeLabel`: a chain of rewrites over UTF-16 code units, and what it amounts to. */
module SanitizeLabel {
  import opened JsWhitespace

  type Unit = u: int | 0 <= u < 0x10000

  type Text = seq<Unit>

  const UNDERSCORE: Unit := 0x5F
  const LONGEST: nat := 40

  predicate Blank(u: Unit) {
    Whitespace(u)
  }

  /** \ / : * ? " < > | */
  predicate Forbidden(u: Unit) {
    u in [0x5C, 0x2F, 0x3A, 0x2A, 0x3F, 0x22, 0x3C, 0x3E, 0x7C]
  }

  predicate IsUnderscore(u: Unit) {
    u == UNDERSCORE
  }

  function DropFront(c: Unit -> bool, s: Text): (r: Text)
    ensures r != [] ==> !c(r[0])
    ensures |r| <= |s| && (s != [] && c(s[0]) ==> |r| < |s|)
  {
    if s != [] && c(s[0]) then DropFront(c, s[1..]) else s
  }

  lemma {:induction false} DropFrontIsSuffix(c: Unit -> bool, s: Text)
    ensures DropFront(c, s) == s[|s| - |DropFront(c, s)|..]
  {
    if s != [] && c(s[0]) {
      DropFrontIsSuffix(c, s[1..]);
      var n := |DropFront(c, s)|;
      assert s[1..][|s| - 1 - n..] == s[|s| - n..];
    }
  }

  function DropBack(c: Unit -> bool, s: Text): (r: Text)
    ensures r != [] ==> !c(r[|r| - 1])
    ensures |r| <= |s| && r == s[..|r|]
  {
    if s != [] && c(s[|s| - 1]) then DropBack(c, s[..|s| - 1]) else s
  }

  /** Every forbidden character becomes an underscore. */
  function ReplaceForbidden(s: Text): Text {
    seq(|s|, i requires 0 <= i < |s| => if Forbidden(s[i]) then UNDERSCORE else s[i])
  }

  /** Every longest run of the class becomes one underscore. */
  function Squeeze(c: Unit -> bool, s: Text): Text
    decreases |s|
  {
    if s == [] then []
    else if c(s[0]) then [UNDERSCORE] + Squeeze(c, DropFront(c, s))
    else [s[0]] + Squeeze(c, s[1..])
  }

  /** The chain of rewrites, before the cut. */
  function Cleaned(name: Text): Text {
    var trimmed := DropBack(Blank, DropFront(Blank, name));
    var squeezed := Squeeze(IsUnderscore, Squeeze(Blank, ReplaceForbidden(trimmed)));
    DropBack(IsUnderscore, DropFront(IsUnderscore, squeezed))
  }

  function Sanitize(name: Text): Text {
    if name == [] then []
    else if |Cleaned(name)| <= LONGEST then Cleaned(name) else Cleaned(name)[..LONGEST]
  }

  // ---- what it amounts to ----

  /** What separates words: blanks, forbidden characters and underscores. */
  predicate Gap(u: Unit) {
    Blank(u) || Forbidden(u) || IsUnderscore(u)
  }

  function Flush(word: Text): seq<Text> {
    if word == [] then [] else [word]
  }

  /** The words of a name, the first one already begun. */
  function Words(s: Text, word: Text): seq<Text> {
    if s == [] then Flush(word)
    else if Gap(s[0]) then Flush(word) + Words(s[1..], [])
    else Words(s[1..], word + [s[0]])
  }

  /** Words joined by single underscores. */
  function Joined(words: seq<Text>): Text {
    if words == [] then [] else if |words| == 1 then words[0]
    else words[0] + [UNDERSCORE] + Joined(words[1..])
  }

  /** Only underscores separate, no two of them meet, and none is at an end. */
  predicate Clean(s: Text) {
    && Tidy(s)
    && (s != [] ==> s[0] != UNDERSCORE && s[|s| - 1] != UNDERSCORE)
  }

  predicate Tidy(s: Text) {
    && (forall i :: 0 <= i < |s| ==> !Blank(s[i]) && !Forbidden(s[i]))
    && (forall i :: 0 < i < |s| ==> s[i - 1] != UNDERSCORE || s[i] != UNDERSCORE)
  }

  // ---- every rewrite keeps the words ----

  lemma {:induction false} FrontKeepsWords(c: Unit -> bool, s: Text)
    requires forall u :: c(u) ==> Gap(u)
    ensures Words(DropFront(c, s), []) == Words(s, [])
  {
    if s != [] && c(s[0]) {
      FrontKeepsWords(c, s[1..]);
      assert Words(s, []) == [] + Words(s[1..], []);
    }
  }

  lemma {:induction false} LastGap(s: Text, word: Text)
    requires s != [] && Gap(s[|s| - 1])
    ensures Words(s[..|s| - 1], word) == Words(s, word)
    decreases |s|
  {
    if |s| > 1 {
      assert s[..|s| - 1][1..] == s[1..][..|s[1..]| - 1];
      LastGap(s[1..], if Gap(s[0]) then [] else word + [s[0]]);
    }
  }

  lemma {:induction false} BackKeepsWords(c: Unit -> bool, s: Text)
    requires forall u :: c(u) ==> Gap(u)
    ensures Words(DropBack(c, s), []) == Words(s, [])
  {
    if s != [] && c(s[|s| - 1]) {
      LastGap(s, []);
      BackKeepsWords(c, s[..|s| - 1]);
    }
  }

  lemma {:induction false} ReplaceKeepsWords(s: Text, word: Text)
    ensures Words(ReplaceForbidden(s), word) == Words(s, word)
    decreases |s|
  {
    if s != [] {
      assert ReplaceForbidden(s)[1..] == ReplaceForbidden(s[1..]);
      ReplaceKeepsWords(s[1..], if Gap(s[0]) then [] else word + [s[0]]);
    }
  }

  lemma WordsHead(u: Unit, rest: Text, word: Text)
    ensures Words([u] + rest, word) == if Gap(u) then Flush(word) + Words(rest, []) else Words(rest, word + [u])
  {
    assert ([u] + rest)[1..] == rest;
  }

  lemma {:induction false} SqueezeKeepsWords(c: Unit -> bool, s: Text, word: Text)
    requires forall u :: c(u) ==> Gap(u)
    ensures Words(Squeeze(c, s), word) == Words(s, word)
    decreases |s|
  {
    if s == [] {
    } else if c(s[0]) {
      SqueezeKeepsWords(c, DropFront(c, s), []);
      FrontKeepsWords(c, s[1..]);
      WordsHead(UNDERSCORE, Squeeze(c, DropFront(c, s)), word);
    } else {
      SqueezeKeepsWords(c, s[1..], if Gap(s[0]) then [] else word + [s[0]]);
      WordsHead(s[0], Squeeze(c, s[1..]), word);
    }
  }

  // ---- and the result is clean ----

  /** A squeezed text has underscores and characters outside the class, the latter all
      from the text. */
  lemma {:induction false} SqueezeMembers(c: Unit -> bool, s: Text)
    ensures forall u :: u in Squeeze(c, s) ==> u == UNDERSCORE || (u in s && !c(u))
    decreases |s|
  {
    if s == [] {
    } else if c(s[0]) {
      DropFrontIsSuffix(c, s);
      SqueezeMembers(c, DropFront(c, s));
    } else {
      SqueezeMembers(c, s[1..]);
    }
  }

  lemma {:induction false} SqueezeApart(s: Text)
    ensures var r := Squeeze(IsUnderscore, s);
      && (r != [] ==> s != [] && r[0] == s[0])
      && forall i :: 0 < i < |r| ==> r[i - 1] != UNDERSCORE || r[i] != UNDERSCORE
    decreases |s|
  {
    if s == [] {
    } else if IsUnderscore(s[0]) {
      SqueezeApart(DropFront(IsUnderscore, s));
    } else {
      SqueezeApart(s[1..]);
    }
  }

  predicate Plain(s: Text) {
    forall u :: u in s ==> !Forbidden(u) && !Blank(u)
  }

  lemma SqueezedIsPlain(s: Text)
    ensures Plain(Squeeze(IsUnderscore, Squeeze(Blank, ReplaceForbidden(s))))
  {
    var replaced := ReplaceForbidden(s);
    assert forall u :: u in replaced ==> !Forbidden(u);
    SqueezeMembers(Blank, replaced);
    SqueezeMembers(IsUnderscore, Squeeze(Blank, replaced));
  }

  lemma SqueezedIsTidy(s: Text)
    requires Plain(Squeeze(IsUnderscore, s))
    ensures Tidy(Squeeze(IsUnderscore, s))
  {
    SqueezeApart(s);
    assert forall i :: 0 <= i < |Squeeze(IsUnderscore, s)| ==> Squeeze(IsUnderscore, s)[i] in Squeeze(IsUnderscore, s);
  }

  /** Dropping ends keeps a text tidy. */
  lemma SliceIsTidy(s: Text, lo: nat, hi: nat)
    requires Tidy(s) && lo <= hi <= |s|
    ensures Tidy(s[lo..hi])
  {
  }

  lemma StrippedIsClean(s: Text)
    requires Tidy(s)
    ensures Clean(DropBack(IsUnderscore, DropFront(IsUnderscore, s)))
  {
    var front := DropFront(IsUnderscore, s);
    DropFrontIsSuffix(IsUnderscore, s);
    SliceIsTidy(s, |s| - |front|, |s|);
    assert s[|s| - |front|..] == s[|s| - |front|..|s|];
    var back := DropBack(IsUnderscore, front);
    SliceIsTidy(front, 0, |back|);
    assert front[..|back|] == front[0..|back|];
    EndsAreStripped(front);
  }

  lemma EndsAreStripped(front: Text)
    requires front != [] ==> front[0] != UNDERSCORE
    ensures var back := DropBack(IsUnderscore, front);
      back != [] ==> back[0] != UNDERSCORE && back[|back| - 1] != UNDERSCORE
  {
  }

  lemma CleanedIsClean(name: Text)
    ensures Clean(Cleaned(name))
  {
    var trimmed := DropBack(Blank, DropFront(Blank, name));
    var blankless := Squeeze(Blank, ReplaceForbidden(trimmed));
    SqueezedIsPlain(trimmed);
    SqueezedIsTidy(blankless);
    StrippedIsClean(Squeeze(IsUnderscore, blankless));
  }

  /** A clean text is the join of its words. */
  lemma {:induction false} CleanIsJoined(s: Text, word: Text)
    requires Tidy(s) && (s != [] ==> s[|s| - 1] != UNDERSCORE && (word == [] ==> s[0] != UNDERSCORE))
    ensures Joined(Words(s, word)) == word + s
    decreases |s|
  {
    if s == [] {
    } else if s[0] == UNDERSCORE {
      CleanIsJoined(s[1..], []);
      assert Words(s, word) == [word] + Words(s[1..], []);
      assert Words(s, word)[1..] == Words(s[1..], []);
      assert word + s == word + [UNDERSCORE] + s[1..];
    } else {
      CleanIsJoined(s[1..], word + [s[0]]);
      assert word + s == word + [s[0]] + s[1..];
    }
  }

  /** Main theorem: the chain of rewrites gives the words of the name, in order, joined
      by single underscores, and the result is cut to 40 units. */
  lemma SanitizeIsJoinedWords(name: Text)
    ensures var joined := Joined(Words(name, []));
      Clean(joined) && Sanitize(name) == if |joined| <= LONGEST then joined else joined[..LONGEST]
  {
    CleanedIsJoined(name);
    CleanedIsClean(name);
  }

  lemma CleanedIsJoined(name: Text)
    ensures Cleaned(name) == Joined(Words(name, []))
  {
    var front := DropFront(Blank, name);
    var trimmed := DropBack(Blank, front);
    var replaced := ReplaceForbidden(trimmed);
    var blankless := Squeeze(Blank, replaced);
    var squeezed := Squeeze(IsUnderscore, blankless);
    FrontKeepsWords(Blank, name);
    BackKeepsWords(Blank, front);
    ReplaceKeepsWords(trimmed, []);
    SqueezeKeepsWords(Blank, replaced, []);
    SqueezeKeepsWords(IsUnderscore, blankless, []);
    FrontKeepsWords(IsUnderscore, squeezed);
    BackKeepsWords(IsUnderscore, DropFront(IsUnderscore, squeezed));
    CleanedIsClean(name);
    CleanIsJoined(Cleaned(name), []);
  }

  /** So it is safe as a part of a file name. */
  lemma SanitizedIsSafe(name: Text)
    ensures var r := Sanitize(name);
      && |r| <= LONGEST
      && (forall i :: 0 <= i < |r| ==> !Forbidden(r[i]) && !Blank(r[i]))
      && (forall i :: 0 < i < |r| ==> r[i - 1] != UNDERSCORE || r[i] != UNDERSCORE)
      && (r != [] ==> r[0] != UNDERSCORE)
  {
    CleanedIsClean(name);
    var r := Sanitize(name);
    if name != [] {
      SliceIsTidy(Cleaned(name), 0, |r|);
      assert r == Cleaned(name)[0..|r|];
    }
  }

  lemma CleanIsStable(s: Text)
    requires Clean(s) && |s| <= LONGEST
    ensures Sanitize(s) == s
  {
    CleanedIsJoined(s);
    CleanIsJoined(s, []);
    assert [] + s == s;
  }

  lemma LastUnderscoreDropped(s: Text)
    requires s != [] && s[|s| - 1] == UNDERSCORE && Clean(s[..|s| - 1]) && |s| <= LONGEST
    ensures Sanitize(s) == s[..|s| - 1]
  {
    CleanedIsJoined(s);
    LastGap(s, []);
    CleanIsJoined(s[..|s| - 1], []);
    assert [] + s[..|s| - 1] == s[..|s| - 1];
  }

  lemma SafeTwice(r: Text)
    requires Tidy(r) && |r| <= LONGEST && (r != [] ==> r[0] != UNDERSCORE)
    ensures Sanitize(r) == if r != [] && r[|r| - 1] == UNDERSCORE then r[..|r| - 1] else r
  {
    if r != [] && r[|r| - 1] == UNDERSCORE {
      SliceIsTidy(r, 0, |r| - 1);
      assert r[0..|r| - 1] == r[..|r| - 1];
      LastUnderscoreDropped(r);
    } else {
      CleanIsStable(r);
    }
  }

  /** A second time changes nothing but an underscore that the cut left at the end, */
  lemma SanitizeTwice(name: Text)
    ensures var r := Sanitize(name);
      Sanitize(r) == if r != [] && r[|r| - 1] == UNDERSCORE then r[..|r| - 1] else r
  {
    SanitizedIsSafe(name);
    SafeTwice(Sanitize(name));
  }

  /** so it is stable exactly when the cut did not fall right behind a separator. */
  lemma SanitizeStableIff(name: Text)
    ensures Sanitize(Sanitize(name)) == Sanitize(name) <==>
      !(|Joined(Words(name, []))| > LONGEST && Joined(Words(name, []))[LONGEST - 1] == UNDERSCORE)
  {
    SanitizeTwice(name);
    SanitizeIsJoinedWords(name);
  }

  lemma {:induction false} PlainWord(w: Text, rest: Text, word: Text)
    requires forall k :: 0 <= k < |w| ==> !Gap(w[k])
    ensures Words(w + rest, word) == Words(rest, word + w)
    decreases |w|
  {
    if w == [] {
      assert w + rest == rest && word + w == word;
    } else {
      assert w + rest == [w[0]] + (w[1..] + rest);
      WordsHead(w[0], w[1..] + rest, word);
      PlainWord(w[1..], rest, word + [w[0]]);
      assert word + [w[0]] + w[1..] == word + w;
    }
  }

  lemma TwoWords(first: Text, second: Text)
    requires first != [] && second != []
    requires (forall k :: 0 <= k < |first| ==> !Gap(first[k])) && (forall k :: 0 <= k < |second| ==> !Gap(second[k]))
    ensures Words(first + ([0x20] + second), []) == [first] + [second]
  {
    PlainWord(first, [0x20] + second, []);
    WordsHead(0x20, second, first);
    PlainWord(second, [], []);
    assert second + [] == second && [] + first == first && [] + second == second;
  }

  /** A first word of 39 units and another one: the cut leaves the separator at the end. */
  lemma CutBehindSeparator(first: Text, second: Text)
    requires |first| == LONGEST - 1 && second != []
    requires (forall k :: 0 <= k < |first| ==> !Gap(first[k])) && (forall k :: 0 <= k < |second| ==> !Gap(second[k]))
    ensures var name := first + ([0x20] + second);
      Sanitize(name) == first + [UNDERSCORE] && Sanitize(Sanitize(name)) == first
  {
    var name := first + ([0x20] + second);
    var kept := first + [UNDERSCORE];
    TwoWords(first, second);
    JoinedTwo(first, second);
    SanitizeIsJoinedWords(name);
    assert (kept + second)[..LONGEST] == kept;
    SanitizedIsSafe(name);
    SafeTwice(kept);
    assert kept[..LONGEST - 1] == first;
  }

  lemma JoinedTwo(first: Text, second: Text)
    ensures Joined([first] + [second]) == first + [UNDERSCORE] + second
  {
    assert ([first] + [second])[1..] == [second];
  }
}
