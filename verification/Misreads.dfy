/** Exactly which notification lines the C++ client's substring test takes for rx_data:
    besides those of that kind, the ones with a value that is rx_data or ends with a
    quote character and rx_data, such as a hit of the keyword rx_data. */
module Misreads {
  import opened Matching
  import opened JsonText
  import opened Scanner
  import opened RxClient

  function Quoted(word: string): string {
    "\"" + word + "\""
  }

  predicate Word(w: string) {
    w != "" && forall i :: 0 <= i < |w| ==> Ordinary(w[i])
  }

  /** The value is the word, or ends with a quote character and the word. */
  predicate EndsQuoted(value: string, word: string) {
    value == word || HasQuotedEnd(value, word)
  }

  predicate HasQuotedEnd(value: string, word: string) {
    |value| > |word| && value[|value| - |word| - 1..] == "\"" + word
  }

  lemma EscapeStart(c: char)
    ensures (EscapeChar(c) == [c] && c != '"' && c != '\\')
      || (|EscapeChar(c)| >= 2 && EscapeChar(c)[0] == '\\' && (c == '"' || '"' !in EscapeChar(c)))
    ensures c == '"' ==> EscapeChar(c) == "\\\""
  {
  }

  /** Only the word itself is escaped to the word. */
  lemma {:induction false} EscapeOrdinary(v: string, w: string)
    requires forall i :: 0 <= i < |w| ==> Ordinary(w[i])
    ensures Escape(v) == w <==> v == w
  {
    if v != "" {
      EscapeStart(v[0]);
      if w != "" {
        EscapeOrdinary(v[1..], w[1..]);
        assert Ordinary(w[0]);
        if v == w { OrdinaryIsPlain(v[0]); }
        assert EscapeChar(v[0]) == [v[0]] ==> Escape(v)[1..] == Escape(v[1..]);
      }
    }
  }

  lemma OrdinaryIsPlain(c: char)
    requires Ordinary(c)
    ensures EscapeChar(c) == [c]
  {
  }

  lemma CutAt(e: string, rest: string, w: string, i: nat)
    requires i < |e + rest| && (e + rest)[i] == '"' && (e + rest)[i + 1..] == w
    ensures if i < |e| then e[i] == '"' && e[i + 1..] + rest == w
      else i - |e| < |rest| && rest[i - |e|] == '"' && rest[i - |e| + 1..] == w
  {
    if i < |e| {
      assert (e + rest)[i + 1..] == e[i + 1..] + rest;
    } else {
      assert (e + rest)[i + 1..] == rest[i - |e| + 1..];
    }
  }

  /** A quote inside an escape is the one of an escaped quote. */
  lemma QuoteInEscape(c: char, i: nat)
    requires i < |EscapeChar(c)| && EscapeChar(c)[i] == '"'
    ensures c == '"' && EscapeChar(c)[i + 1..] == ""
  {
    EscapeStart(c);
    assert EscapeChar(c)[i] in EscapeChar(c);
  }

  lemma EscapeCut(v: string, w: string, i: nat)
    requires v != "" && Word(w) && i < |Escape(v)| && Escape(v)[i] == '"' && Escape(v)[i + 1..] == w
    ensures var e := EscapeChar(v[0]); var u := v[1..];
      if i < |e| then v[0] == '"' && u == w
      else i - |e| < |Escape(u)| && Escape(u)[i - |e|] == '"' && Escape(u)[i - |e| + 1..] == w
  {
    var e := EscapeChar(v[0]);
    CutAt(e, Escape(v[1..]), w, i);
    if i < |e| {
      QuoteInEscape(v[0], i);
      assert "" + Escape(v[1..]) == Escape(v[1..]);
      EscapeOrdinary(v[1..], w);
    }
  }

  lemma QuotedEndLater(v: string, w: string)
    requires v != "" && HasQuotedEnd(v[1..], w)
    ensures HasQuotedEnd(v, w)
  {
    var u := v[1..];
    assert u[|u| - |w| - 1..] == v[|v| - |w| - 1..];
  }

  lemma QuotedEndHere(v: string, w: string)
    requires v != "" && v[0] == '"' && v[1..] == w
    ensures HasQuotedEnd(v, w)
  {
    assert v[|v| - |w| - 1..] == v == "\"" + w;
  }

  /** A quote in escaped text, followed to the end by the word, comes from a quote in
      the value followed to the end by the word. */
  lemma {:induction false} EscapeEnds(v: string, w: string, i: nat)
    requires Word(w) && i < |Escape(v)| && Escape(v)[i] == '"' && Escape(v)[i + 1..] == w
    ensures HasQuotedEnd(v, w)
    decreases |v|
  {
    EscapeCut(v, w, i);
    if i < |EscapeChar(v[0])| {
      QuotedEndHere(v, w);
    } else {
      EscapeEnds(v[1..], w, i - |EscapeChar(v[0])|);
      QuotedEndLater(v, w);
    }
  }

  lemma {:induction false} EscapeConcat(a: string, b: string)
    ensures Escape(a + b) == Escape(a) + Escape(b)
  {
    if a == "" {
      assert a + b == b;
    } else {
      assert (a + b)[1..] == a[1..] + b;
      EscapeConcat(a[1..], b);
    }
  }

  lemma EscapeQuoted(w: string)
    requires Word(w)
    ensures Escape("\"" + w) == "\\" + ("\"" + w)
  {
    assert ("\"" + w)[1..] == w;
    EscapeStart('"');
    EscapeOrdinary(w, w);
  }

  lemma HasQuotedEndEscape(value: string, w: string)
    requires Word(w) && HasQuotedEnd(value, w)
    ensures exists front :: Escape(value) == front + ("\"" + w)
  {
    var x := value[..|value| - |w| - 1];
    assert value == x + ("\"" + w);
    EscapeConcat(x, "\"" + w);
    EscapeQuoted(w);
    assert Escape(value) == (Escape(x) + "\\") + ("\"" + w);
  }

  lemma Regroup(a: string, b: string, c: string, d: string)
    ensures a + (b + c) + d == (a + b) + (c + d)
  {
  }

  /** A value that ends with the quoted word shows it when printed. */
  lemma EndsQuotedShows(key: string, value: string, rest: string, w: string)
    requires Word(w) && EndsQuoted(value, w)
    ensures Shows(Field(key, value) + rest, w)
  {
    var opening := "\"" + key + "\":\"";
    if HasQuotedEnd(value, w) {
      HasQuotedEndEscape(value, w);
      var front :| Escape(value) == front + ("\"" + w);
      Regroup(opening, front, "\"" + w, "\"");
      ShowsInside(opening + front, w, rest);
    } else {
      EscapeOrdinary(w, w);
      var before := "\"" + key + "\":";
      assert opening == before + "\"";
      Regroup(before, "\"", w, "\"");
      assert before + "\"" + w + "\"" == before + Quoted(w);
      ShowsInside(before, w, rest);
    }
  }

  ghost predicate Shows(text: string, w: string) {
    exists p :: OccursAt(text, Quoted(w), p)
  }

  lemma ShowsInside(head: string, w: string, rest: string)
    ensures Shows(head + Quoted(w) + rest, w)
  {
    OccursInside(head, Quoted(w), rest);
  }

  lemma QuotedAt(text: string, w: string, p: nat)
    requires OccursAt(text, Quoted(w), p) && Word(w)
    ensures p + |w| + 2 <= |text| && text[p] == '"' && text[p + |w| + 1] == '"'
    ensures text[p + 1..p + 1 + |w|] == w
    ensures forall j :: p < j <= p + |w| ==> Ordinary(text[j])
  {
    var found := text[p..p + |Quoted(w)|];
    assert forall i :: 0 <= i < |Quoted(w)| ==> text[p + i] == found[i];
    assert forall i :: 0 <= i < |w| ==> Quoted(w)[1 + i] == w[i];
    forall j | p < j <= p + |w| ensures Ordinary(text[j]) {
      assert text[j] == text[p + 1..p + 1 + |w|][j - p - 1] == w[j - p - 1];
    }
  }

  /** In a printed member, a quoted word is the key, or it ends at the value's closing quote. */
  lemma QuotedPlaces(text: string, key: string, b: string, w: string, p: nat)
    requires MemberLayout(text, key, b) && SimpleKey(key) && Word(w) && QuotesGuarded(b)
    requires p <= |key| + |b| + 5 && OccursAt(text, Quoted(w), p)
    ensures p + |w| == |key| || (p + |w| == |key| + |b| + 3 && p >= |key| + 3)
  {
    var close := |key| + |b| + 4;
    var q := p + |w| + 1;
    QuotedAt(text, w, p);
    assert Ordinary(text[p + 1]) && Ordinary(text[q - 1]);
    assert text[close] == '"' && q <= close;
    assert forall i :: 0 <= i < |b| ==> text[|key| + 4 + i] == b[i];
  }

  /** So the value's text ends with it, behind a quote unless it is the whole text. */
  lemma QuotedIsEnd(text: string, key: string, b: string, w: string, p: nat)
    requires MemberLayout(text, key, b) && SimpleKey(key) && Word(w) && QuotesGuarded(b) && key != w
    requires p <= |key| + |b| + 5 && OccursAt(text, Quoted(w), p)
    ensures var i := p - |key| - 3; 0 <= i <= |b| && b[i..] == w && (i > 0 ==> b[i - 1] == '"')
  {
    QuotedPlaces(text, key, b, w, p);
    QuotedAt(text, w, p);
    KeyPartOrdinary(text, key, b);
    assert text[1..1 + |key|] == key;
    assert p + |w| == |key| + |b| + 3 && p >= |key| + 3;
    assert text[|key| + 4..|key| + 4 + |b|] == b;
    var i := p - |key| - 3;
    assert b[i..] == text[p + 1..p + 1 + |w|];
    assert i > 0 ==> b[i - 1] == text[p];
  }

  lemma QuotedInLayout(text: string, key: string, value: string, w: string, p: nat)
    requires MemberLayout(text, key, Escape(value)) && SimpleKey(key) && Word(w) && key != w
    requires p <= |key| + |Escape(value)| + 5 && OccursAt(text, Quoted(w), p)
    ensures EndsQuoted(value, w)
  {
    EscapeGuardsQuotes(value);
    QuotedIsEnd(text, key, Escape(value), w, p);
    ValueEndsQuoted(value, w, p - |key| - 3);
  }

  lemma QuotedInMember(key: string, value: string, rest: string, w: string, p: nat)
    requires SimpleKey(key) && AfterMember(rest) && Word(w) && key != w && p <= |Field(key, value)|
    requires OccursAt(Field(key, value) + rest, Quoted(w), p)
    ensures EndsQuoted(value, w)
  {
    MemberHasLayout(key, value, rest);
    QuotedInLayout(Field(key, value) + rest, key, value, w, p);
  }

  lemma ValueEndsQuoted(value: string, w: string, i: nat)
    requires Word(w) && i <= |Escape(value)| && Escape(value)[i..] == w && (i > 0 ==> Escape(value)[i - 1] == '"')
    ensures EndsQuoted(value, w)
  {
    if i == 0 {
      assert Escape(value)[0..] == Escape(value);
      EscapeOrdinary(value, w);
    } else {
      EscapeEnds(value, w, i - 1);
    }
  }

  // ---- whole lines ----

  ghost predicate SomeEndsQuoted(members: seq<Member>, w: string) {
    exists j :: 0 <= j < |members| && EndsQuoted(members[j].value, w)
  }

  /** A match at or after d in a text is a match in the rest of the text. */
  lemma ShowsLater(text: string, w: string, d: nat, p: nat)
    requires d <= p && d <= |text| && OccursAt(text, Quoted(w), p)
    ensures Shows(text[d..], w)
  {
    OccursDrop(text, Quoted(w), d, p - d);
  }

  lemma ShowsInTail(text: string, w: string, d: nat)
    requires d <= |text| && Shows(text[d..], w)
    ensures Shows(text, w)
  {
    var p :| OccursAt(text[d..], Quoted(w), p);
    OccursDrop(text, Quoted(w), d, p);
  }

  /** The text of one member, what follows it, and where the next member begins. */
  lemma FirstMemberShows(m: Member, rest: string, tail: string, w: string)
    requires Word(w) && SimpleKey(m.key) && m.key != w && AfterMember(rest)
    requires rest == tail || rest == "," + tail
    ensures Shows(Field(m.key, m.value) + rest, w) <==> EndsQuoted(m.value, w) || Shows(tail, w)
  {
    var text := Field(m.key, m.value) + rest;
    var d := |text| - |tail|;
    assert text[d..] == tail;
    if Shows(text, w) {
      var p :| OccursAt(text, Quoted(w), p);
      if p < d { QuotedInMember(m.key, m.value, rest, w, p); } else { ShowsLater(text, w, d, p); }
    }
    if EndsQuoted(m.value, w) {
      EndsQuotedShows(m.key, m.value, rest, w);
    }
    if Shows(tail, w) {
      ShowsInTail(text, w, d);
    }
  }

  lemma FirstMember(members: seq<Member>)
    requires members != []
    ensures Members(members) == Field(members[0].key, members[0].value) + After(members, 0)
  {
  }

  lemma {:induction false} MembersShowIff(members: seq<Member>, w: string)
    requires Word(w) && forall i :: 0 <= i < |members| ==> SimpleKey(members[i].key) && members[i].key != w
    ensures Shows(Members(members), w) <==> SomeEndsQuoted(members, w)
  {
    if members == [] {
      NoQuoteNoShow("}}", w);
    } else {
      var m := members[0];
      var rest := After(members, 0);
      MembersShowIff(members[1..], w);
      FirstMember(members);
      FirstMemberShows(m, rest, Members(members[1..]), w);
      assert members == [m] + members[1..];
      SomeEndsQuotedSplit(m, members[1..], w);
    }
  }

  lemma SomeEndsQuotedSplit(m: Member, tail: seq<Member>, w: string)
    ensures SomeEndsQuoted([m] + tail, w) <==> EndsQuoted(m.value, w) || SomeEndsQuoted(tail, w)
  {
    var all := [m] + tail;
    assert all[0] == m;
    assert forall j :: 0 <= j < |tail| ==> all[j + 1] == tail[j];
    if SomeEndsQuoted(all, w) {
      var j :| 0 <= j < |all| && EndsQuoted(all[j].value, w);
      assert j > 0 ==> tail[j - 1] == all[j];
    }
  }

  lemma NoQuoteNoShow(text: string, w: string)
    requires '"' !in text
    ensures !Shows(text, w)
  {
    forall p ensures !OccursAt(text, Quoted(w), p) {
      if 0 <= p && p + |Quoted(w)| <= |text| {
        assert text[p] in text && text[p..p + |Quoted(w)|][0] == text[p];
      }
    }
  }

  lemma DataKeyShows(rest: string, w: string, p: nat)
    requires Word(w) && w != "data" && p < 8
    ensures !OccursAt("\"data\":{" + rest, Quoted(w), p)
  {
    var text := "\"data\":{" + rest;
    assert text[1..5] == "data" && text[5] == '"' && text[6] == ':' && text[7] == '{';
    if OccursAt(text, Quoted(w), p) {
      QuotedAt(text, w, p);
    }
  }

  lemma DataShowsIff(members: string, w: string)
    requires Word(w) && w != "data"
    ensures Shows("\"data\":{" + members, w) <==> Shows(members, w)
  {
    var data := "\"data\":{" + members;
    assert data[8..] == members;
    if Shows(data, w) {
      var p :| OccursAt(data, Quoted(w), p);
      if p < 8 { DataKeyShows(members, w, p); } else { ShowsLater(data, w, 8, p); }
    }
    if Shows(members, w) {
      ShowsInTail(data, w, 8);
    }
  }

  lemma BraceShowsIff(inner: string, w: string)
    ensures Shows("{" + inner, w) <==> Shows(inner, w)
  {
    var line := "{" + inner;
    assert line[1..] == inner;
    if Shows(line, w) {
      var p :| OccursAt(line, Quoted(w), p);
      assert line[p..p + |Quoted(w)|][0] == line[p];
      ShowsLater(line, w, 1, p);
    }
    if Shows(inner, w) {
      ShowsInTail(line, w, 1);
    }
  }

  lemma NotificationParts(kind: string, members: seq<Member>)
    ensures Notification(kind, members) == "{" + (Field("notify", kind) + ("," + ("\"data\":{" + Members(members))))
  {
    Assemble(Field("notify", kind), "\"data\":{", Members(members));
  }

  lemma Assemble(a: string, b: string, c: string)
    ensures "{" + a + "," + b + c == "{" + (a + ("," + (b + c)))
  {
  }

  /** A printed line shows a word in quotes exactly when its kind or one of its values
      is the word or ends with a quote character and the word. */
  lemma LineShowsIff(kind: string, members: seq<Member>, w: string)
    requires Word(w) && w != "notify" && w != "data"
    requires forall i :: 0 <= i < |members| ==> SimpleKey(members[i].key) && members[i].key != w
    ensures Shows(Notification(kind, members), w) <==> EndsQuoted(kind, w) || SomeEndsQuoted(members, w)
  {
    var data := "\"data\":{" + Members(members);
    var inner := Field("notify", kind) + ("," + data);
    NotificationParts(kind, members);
    MembersShowIff(members, w);
    DataShowsIff(Members(members), w);
    FirstMemberShows(Member("notify", kind), "," + data, data, w);
    BraceShowsIff(inner, w);
  }

  lemma NotifyShown(kind: string, members: seq<Member>)
    ensures Shows(Notification(kind, members), "notify")
  {
    var rest := "," + "\"data\":{" + Members(members);
    var value := ":\"" + Escape(kind) + "\"";
    ShowsInside("{", "notify", value + rest);
    Regroup("{", Quoted("notify"), value, rest);
    assert "\":\"" == "\"" + ":\"";
    assert Field("notify", kind) == Quoted("notify") + value;
    assert Notification(kind, members) == "{" + (Quoted("notify") + value) + rest;
  }

  lemma LooksLikeIff(line: string)
    ensures LooksLikeRxData(line) <==> Shows(line, "notify") && Shows(line, "rx_data")
  {
    assert Quoted("notify") == "\"notify\"" && Quoted("rx_data") == "\"rx_data\"";
  }

  /** The exact condition: a notification of any kind is taken for rx_data if and only if
      it is one, or a value is rx_data or ends with a quote character and rx_data. */
  lemma TakenForRxDataIff(kind: string, members: seq<Member>)
    requires forall i :: 0 <= i < |members| ==> SimpleKey(members[i].key) && members[i].key != "rx_data"
    ensures LooksLikeRxData(Notification(kind, members))
      <==> EndsQuoted(kind, "rx_data") || SomeEndsQuoted(members, "rx_data")
  {
    NotifyShown(kind, members);
    LineShowsIff(kind, members, "rx_data");
    LooksLikeIff(Notification(kind, members));
  }

  /** A hit of the keyword rx_data is called back as received data. */
  lemma KeywordRxDataIsMisread(port: string, timestamp: string, context: string)
    ensures var line := Notification("filter_hit", [Member("context", context), Member("keyword", "rx_data"),
                                                    Member("port", port), Member("timestamp", timestamp)]);
      LooksLikeRxData(line)
  {
    var members := [Member("context", context), Member("keyword", "rx_data"), Member("port", port), Member("timestamp", timestamp)];
    FilterHitKeys();
    assert EndsQuoted(members[1].value, "rx_data");
    TakenForRxDataIff("filter_hit", members);
  }

  lemma FilterHitKeys()
    ensures SimpleKey("context") && SimpleKey("keyword") && SimpleKey("port") && SimpleKey("timestamp")
  {
  }
}
