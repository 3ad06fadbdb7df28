/** The C++ client's hand-written JSON string extraction against the daemon's printer:
    no payload can make the substring search for a key match in the wrong place, and
    scanning undoes escaping. */
module Scanner {
  import opened Sequences
  import opened Matching
  import opened JsonText

  function Pattern(key: string): string {
    "\"" + key + "\":\""
  }

  /** The switch over the character after a backslash. */
  function DecodeEscape(c: char): char {
    if c == 'n' then '\n' else if c == 'r' then '\r' else if c == 't' then '\t' else c
  }

  /** What the loop reads from the text after the pattern: up to the closing quote. */
  function Scan(s: string): string {
    if s == "" then ""
    else if s[0] == '\\' && |s| > 1 then [DecodeEscape(s[1])] + Scan(s[2..])
    else if s[0] == '"' then ""
    else [s[0]] + Scan(s[1..])
  }

  function Extract(json: string, key: string): string {
    match FindSubslice(json, Pattern(key))
    case None => ""
    case Some(start) => Scan(json[start + |Pattern(key)|..])
  }

  /** `ExtractJsonString`. */
  method ExtractJsonString(json: string, key: string) returns (result: string)
    ensures result == Extract(json, key)
  {
    var pattern := Pattern(key);
    var found := FindSubslice(json, pattern);
    if found.None? {
      return "";
    }
    result := ScanLoop(json, found.value + |pattern|);
  }

  method ScanLoop(json: string, start: nat) returns (result: string)
    requires start <= |json|
    ensures result == Scan(json[start..])
  {
    result := "";
    var i := start;
    while i < |json|
      invariant start <= i <= |json|
      invariant result + Scan(json[i..]) == Scan(json[start..])
    {
      ScanAt(json, i);
      var c := json[i];
      if json[i] == '\\' && i + 1 < |json| {
        i := i + 1;
        c := DecodeEscape(json[i]);
      } else if json[i] == '"' {
        return;
      }
      assert Scan(json[start..]) == result + ([c] + Scan(json[i + 1..]));
      AppendOne(result, c, Scan(json[i + 1..]));
      result := result + [c];
      i := i + 1;
    }
  }

  lemma AppendOne(a: string, c: char, b: string)
    ensures a + ([c] + b) == (a + [c]) + b
  {
  }

  lemma ScanAt(json: string, i: nat)
    requires i < |json|
    ensures Scan(json[i..]) ==
      if json[i] == '\\' && i + 1 < |json| then [DecodeEscape(json[i + 1])] + Scan(json[i + 2..])
      else if json[i] == '"' then ""
      else [json[i]] + Scan(json[i + 1..])
  {
    assert json[i..][1..] == json[i + 1..];
    if i + 1 < |json| {
      assert json[i..][2..] == json[i + 2..];
    }
  }

  // ---- the key search ----

  /** The text begins with a comma or a closing brace: what follows any member. */
  predicate AfterMember(rest: string) {
    rest != "" && (rest[0] == ',' || rest[0] == '}')
  }

  /** Where the quotes of a printed member are, with b the escaped value. */
  ghost predicate MemberLayout(text: string, key: string, b: string) {
    && |key| + |b| + 5 < |text|
    && text[0] == '"' && text[|key| + 1] == '"' && text[|key| + 2] == ':' && text[|key| + 3] == '"'
    && text[|key| + |b| + 4] == '"' && (text[|key| + |b| + 5] == ',' || text[|key| + |b| + 5] == '}')
    && (forall i :: 1 <= i <= |key| ==> text[i] == key[i - 1])
    && (forall i :: |key| + 4 <= i < |key| + |b| + 4 ==> text[i] == b[i - |key| - 4])
  }

  lemma KeyLayout(key: string, tail: string)
    ensures var text := "\"" + key + "\":\"" + tail;
      && |text| == |key| + 4 + |tail|
      && text[0] == '"' && text[|key| + 1] == '"' && text[|key| + 2] == ':' && text[|key| + 3] == '"'
      && (forall i :: 1 <= i <= |key| ==> text[i] == key[i - 1])
      && (forall i :: |key| + 4 <= i < |text| ==> text[i] == tail[i - |key| - 4])
  {
  }

  lemma MemberHasLayout(key: string, value: string, rest: string)
    requires AfterMember(rest)
    ensures MemberLayout(Field(key, value) + rest, key, Escape(value))
  {
    var tail := Escape(value) + "\"" + rest;
    assert Field(key, value) + rest == "\"" + key + "\":\"" + tail;
    KeyLayout(key, tail);
  }

  /** In a printed member and the character after it, the only quote that closes an
      ordinary word and is followed by a colon is the one that closes the key. */
  lemma ColonQuoteIsKey(text: string, key: string, b: string, k: string, p: nat)
    requires MemberLayout(text, key, b) && SimpleKey(key) && SimpleKey(k) && QuotesGuarded(b)
    requires p <= |key| + |b| + 5 && OccursAt(text, Pattern(k), p)
    ensures p + |k| == |key|
  {
    var close := |key| + |b| + 4;
    var q := p + |k| + 1;
    PatternAt(text, k, p);
    forall j | p < j < q ensures Ordinary(text[j]) {
      assert text[p + 1 + (j - p - 1)] == k[j - p - 1];
    }
    assert Ordinary(text[p + 1]) && Ordinary(text[q - 1]);
    assert text[close] == '"' && q <= close;
    KeyPartOrdinary(text, key, b);
    assert forall i :: 0 <= i < |b| ==> text[|key| + 4 + i] == b[i];
  }

  lemma KeyPartOrdinary(text: string, key: string, b: string)
    requires MemberLayout(text, key, b) && SimpleKey(key)
    ensures forall i :: 1 <= i <= |key| ==> Ordinary(text[i])
  {
    forall i | 1 <= i <= |key| ensures Ordinary(text[i]) {
      assert text[i] == key[i - 1];
    }
  }

  /** Inside a printed member and in the character after it, the search pattern of k can
      match only at the member's own key, whatever the value holds. */
  lemma MatchIsOwnKey(key: string, value: string, rest: string, k: string, p: nat)
    requires SimpleKey(key) && SimpleKey(k) && AfterMember(rest) && p <= |Field(key, value)|
    ensures OccursAt(Field(key, value) + rest, Pattern(k), p) ==> p == 0 && key == k
  {
    var text := Field(key, value) + rest;
    var b := Escape(value);
    if OccursAt(text, Pattern(k), p) {
      EscapeGuardsQuotes(value);
      MemberHasLayout(key, value, rest);
      ColonQuoteIsKey(text, key, b, k, p);
      PatternAt(text, k, p);
      KeyPartOrdinary(text, key, b);
      assert forall i :: 0 <= i < |k| ==> text[p + 1 + i] == k[i] && text[1 + i] == key[i];
    }
  }

  lemma PatternAt(text: string, k: string, p: nat)
    requires OccursAt(text, Pattern(k), p)
    ensures p + |k| + 4 <= |text|
    ensures text[p] == '"' && text[p + |k| + 1] == '"' && text[p + |k| + 2] == ':' && text[p + |k| + 3] == '"'
    ensures forall i :: 0 <= i < |k| ==> text[p + 1 + i] == k[i]
  {
    var found := text[p..p + |Pattern(k)|];
    assert found == Pattern(k);
    assert forall i :: 0 <= i < |Pattern(k)| ==> text[p + i] == found[i];
    assert forall i :: 0 <= i < |k| ==> Pattern(k)[1 + i] == k[i];
  }

  ghost predicate WellKeyed(members: seq<Member>) {
    && (forall i :: 0 <= i < |members| ==> SimpleKey(members[i].key))
    && (forall i, j :: 0 <= i < j < |members| ==> members[i].key != members[j].key)
  }

  /** What is printed after the members from 0 to j. */
  function After(members: seq<Member>, j: nat): (r: string)
    requires j < |members|
    ensures AfterMember(r)
  {
    (if j + 1 == |members| then "" else ",") + Members(members[j + 1..])
  }

  /** The search for k found its place in the text, and `rest` is what follows it. */
  ghost predicate FoundWithRest(text: string, k: string, rest: string) {
    var found := FindSubslice(text, Pattern(k));
    && found.Some?
    && found.value + |Pattern(k)| <= |text|
    && text[found.value + |Pattern(k)|..] == rest
  }

  lemma FoundAtStart(k: string, rest: string)
    ensures FoundWithRest(Pattern(k) + rest, k, rest)
  {
    var text := Pattern(k) + rest;
    assert text[..|Pattern(k)|] == Pattern(k);
    assert OccursAt(text, Pattern(k), 0);
  }

  lemma FoundLater(head: string, tail: string, k: string, rest: string)
    requires FoundWithRest(tail, k, rest)
    requires forall p :: 0 <= p < |head| ==> !OccursAt(head + tail, Pattern(k), p)
    ensures FoundWithRest(head + tail, k, rest)
  {
    FindInTail(head, tail, Pattern(k));
    var i := FindSubslice(tail, Pattern(k)).value + |Pattern(k)|;
    assert (head + tail)[|head| + i..] == tail[i..];
  }

  lemma SkipMember(m: Member, tail: string, k: string, rest: string)
    requires SimpleKey(m.key) && SimpleKey(k) && m.key != k && FoundWithRest(tail, k, rest)
    ensures FoundWithRest(Field(m.key, m.value) + "," + tail, k, rest)
  {
    var head := Field(m.key, m.value) + ",";
    forall p | 0 <= p < |head| ensures !OccursAt(head + tail, Pattern(k), p) {
      MatchIsOwnKey(m.key, m.value, "," + tail, k, p);
      assert head + tail == Field(m.key, m.value) + ("," + tail);
    }
    FoundLater(head, tail, k, rest);
  }

  lemma {:induction false} MembersFind(members: seq<Member>, j: nat)
    requires WellKeyed(members) && j < |members|
    ensures FoundWithRest(Members(members), members[j].key, Escape(members[j].value) + "\"" + After(members, j))
  {
    var m := members[0];
    if j == 0 {
      var rest := Escape(m.value) + "\"" + After(members, 0);
      assert Members(members) == Pattern(m.key) + rest;
      FoundAtStart(m.key, rest);
    } else {
      var tail := members[1..];
      MembersFind(tail, j - 1);
      assert tail[j..] == members[j + 1..];
      assert Members(members) == Field(m.key, m.value) + "," + Members(tail);
      SkipMember(m, Members(tail), members[j].key, Escape(members[j].value) + "\"" + After(members, j));
    }
  }

  /** Where a match in a brace, a field, a comma and a data key would have to lie. */
  lemma NoMatchInHead(field: string, dataKey: string, rest: string, needle: string, p: nat)
    requires needle != "" && needle[0] == '"' && p < |field| + |dataKey| + 2
    requires p > |field| + 1 ==> !OccursAt(dataKey + rest, needle, p - |field| - 2)
    requires 0 < p <= |field| + 1 ==> !OccursAt(field + ("," + dataKey + rest), needle, p - 1)
    ensures !OccursAt("{" + field + "," + dataKey + rest, needle, p)
  {
    var text := "{" + field + "," + dataKey + rest;
    if p > |field| + 1 {
      assert text == ("{" + field + ",") + (dataKey + rest);
      OccursBehind("{" + field + ",", dataKey + rest, needle, p - |field| - 2);
    } else if p > 0 {
      assert text == "{" + (field + ("," + dataKey + rest));
      OccursBehind("{", field + ("," + dataKey + rest), needle, p - 1);
    } else {
      assert text[0] == '{';
    }
  }

  /** The part of a line before its members cannot match either. */
  lemma NoMatchBeforeMembers(kind: string, rest: string, k: string, p: nat)
    requires SimpleKey(k) && k != "notify" && k != "data"
    requires p < |"{" + Field("notify", kind) + "," + "\"data\":{"|
    ensures !OccursAt("{" + Field("notify", kind) + "," + "\"data\":{" + rest, Pattern(k), p)
  {
    var field := Field("notify", kind);
    if p > |field| + 1 {
      NoMatchInDataKey(rest, k, p - |field| - 2);
    } else if p > 0 {
      MatchIsOwnKey("notify", kind, "," + "\"data\":{" + rest, k, p - 1);
    }
    NoMatchInHead(field, "\"data\":{", rest, Pattern(k), p);
  }

  lemma NoMatchInDataKey(rest: string, k: string, p: nat)
    requires SimpleKey(k) && k != "data" && p < 8
    ensures !OccursAt("\"data\":{" + rest, Pattern(k), p)
  {
    var text := "\"data\":{" + rest;
    assert text[5] == '"' && text[6] == ':' && text[7] == '{';
    if OccursAt(text, Pattern(k), p) {
      PatternAt(text, k, p);
    }
  }

  // ---- scanning undoes escaping ----

  /** What the scanner makes of one escaped character: \b, \f and \u escapes, which it
      does not know, lose their backslash. */
  function ScannedChar(c: char): string {
    if Control(c) && !PlainControl(c) then EscapeChar(c)[1..] else [c]
  }

  function Scanned(v: string): string {
    if v == "" then "" else ScannedChar(v[0]) + Scanned(v[1..])
  }

  predicate NoSpecial(s: string) {
    forall i :: 0 <= i < |s| ==> s[i] != '"' && s[i] != '\\'
  }

  lemma {:induction false} ScanPlain(plain: string, rest: string)
    requires NoSpecial(plain)
    ensures Scan(plain + rest) == plain + Scan(rest)
  {
    if plain == "" {
      assert plain + rest == rest;
    } else {
      assert (plain + rest)[1..] == plain[1..] + rest;
      ScanPlain(plain[1..], rest);
    }
  }

  /** An escape is a backslash, one character the scanner decodes, and plain text. */
  lemma EscapeShape(c: char)
    ensures var e := EscapeChar(c);
      if e == [c] then c != '"' && c != '\\' && ScannedChar(c) == [c]
      else |e| >= 2 && e[0] == '\\' && NoSpecial(e[2..]) && ScannedChar(c) == [DecodeEscape(e[1])] + e[2..]
  {
  }

  lemma ScanEscapedChar(c: char, rest: string)
    ensures Scan(EscapeChar(c) + rest) == ScannedChar(c) + Scan(rest)
  {
    var e := EscapeChar(c);
    EscapeShape(c);
    if e == [c] {
      assert (e + rest)[1..] == rest;
    } else {
      assert (e + rest)[2..] == e[2..] + rest;
      ScanPlain(e[2..], rest);
    }
  }

  lemma {:induction false} ScanEscaped(v: string, rest: string)
    ensures Scan(Escape(v) + "\"" + rest) == Scanned(v)
  {
    if v == "" {
      assert Escape(v) + "\"" + rest == "\"" + rest;
    } else {
      ScanEscaped(v[1..], rest);
      assert Escape(v) + "\"" + rest == EscapeChar(v[0]) + (Escape(v[1..]) + "\"" + rest);
      ScanEscapedChar(v[0], Escape(v[1..]) + "\"" + rest);
    }
  }

  predicate Clean(v: string) {
    forall i :: 0 <= i < |v| ==> !Control(v[i]) || PlainControl(v[i])
  }

  lemma ScannedCharIsClean(c: char)
    ensures Clean(ScannedChar(c))
    ensures !Control(c) || PlainControl(c) ==> ScannedChar(c) == [c]
  {
  }

  lemma {:induction false} ScannedIsClean(v: string)
    ensures Clean(Scanned(v))
    ensures Clean(v) ==> Scanned(v) == v
  {
    if v != "" {
      ScannedIsClean(v[1..]);
      ScannedCharIsClean(v[0]);
    }
  }

  /** Main theorem: for every notification line with distinct ordinary keys, in any
      order and whatever the values hold, extracting a key gives the scanner's reading
      of that key's own value. */
  lemma ExtractsOwnValue(kind: string, members: seq<Member>, j: nat)
    requires WellKeyed(members) && j < |members|
    requires members[j].key != "notify" && members[j].key != "data"
    ensures Extract(Notification(kind, members), members[j].key) == Scanned(members[j].value)
  {
    var k := members[j].key;
    var head := "{" + Field("notify", kind) + "," + "\"data\":{";
    var rest := Escape(members[j].value) + "\"" + After(members, j);
    assert Notification(kind, members) == head + Members(members);
    MembersFind(members, j);
    forall p | 0 <= p < |head| ensures !OccursAt(head + Members(members), Pattern(k), p) {
      NoMatchBeforeMembers(kind, Members(members), k, p);
    }
    FoundLater(head, Members(members), k, rest);
    ScanEscaped(members[j].value, After(members, j));
  }

  /** So the client reads a value exactly when its only control characters are tab, line
      feed and carriage return: embedded quotes, trailing backslashes and text that looks
      like a key make no difference. */
  lemma ValueExactIff(kind: string, members: seq<Member>, j: nat)
    requires WellKeyed(members) && j < |members|
    requires members[j].key != "notify" && members[j].key != "data"
    ensures Extract(Notification(kind, members), members[j].key) == members[j].value <==> Clean(members[j].value)
  {
    ExtractsOwnValue(kind, members, j);
    ScannedIsClean(members[j].value);
  }

  /** A backspace is printed as an escape that the scanner reads as the letter b. */
  lemma BackspaceIsMisread(kind: string, members: seq<Member>, j: nat)
    requires WellKeyed(members) && j < |members| && members[j].value == [8 as char]
    requires members[j].key != "notify" && members[j].key != "data"
    ensures Extract(Notification(kind, members), members[j].key) == "b"
  {
    ExtractsOwnValue(kind, members, j);
    var v := members[j].value;
    assert v[1..] == "";
    assert ScannedChar(v[0]) == ['b'];
    assert Scanned(v) == ScannedChar(v[0]) + Scanned(v[1..]);
  }
}
