/** The JSON text the daemon prints: string escaping as section 7 of RFC 8259 asks for,
    in the form serde_json chooses, and the notification lines. One char stands for
    one byte of the UTF-8 text. */
module JsonText {
  import opened Sequences

  predicate Control(c: char) {
    c < ' '
  }

  /** The control characters that have an escape of their own which the C++ client knows. */
  predicate PlainControl(c: char) {
    c == '\n' || c == '\r' || c == '\t'
  }

  /** The letter after the backslash, for the characters with a short escape. */
  function ShortEscape(c: char): Option<char> {
    if c == '"' then Some('"')
    else if c == '\\' then Some('\\')
    else if c == '\n' then Some('n')
    else if c == '\r' then Some('r')
    else if c == '\t' then Some('t')
    else if c == 8 as char then Some('b')
    else if c == 12 as char then Some('f')
    else None
  }

  function HexDigit(n: nat): (d: char)
    requires n < 16
    ensures '0' <= d <= '9' || 'a' <= d <= 'f'
  {
    if n < 10 then '0' + n as char else 'a' + (n - 10) as char
  }

  function EscapeChar(c: char): string {
    if ShortEscape(c).Some? then ['\\', ShortEscape(c).value]
    else if Control(c) then ['\\', 'u', '0', '0', HexDigit(c as int / 16), HexDigit(c as int % 16)]
    else [c]
  }

  function Escape(s: string): string {
    if s == "" then "" else EscapeChar(s[0]) + Escape(s[1..])
  }

  /** A key with a string value. */
  function Field(key: string, value: string): string {
    "\"" + key + "\":\"" + Escape(value) + "\""
  }

  datatype Member = Member(key: string, value: string)

  /** The members from j on, with the two closing braces of the line. */
  function Members(members: seq<Member>): string {
    if members == [] then "}}"
    else Field(members[0].key, members[0].value) + (if |members| == 1 then "" else ",") + Members(members[1..])
  }

  /** A notification line: its kind, and an object of string members. */
  function Notification(kind: string, members: seq<Member>): string {
    "{" + Field("notify", kind) + "," + "\"data\":{" + Members(members)
  }

  /** A key made of ordinary characters: what the daemon's keys are. */
  predicate SimpleKey(k: string) {
    k != "" && forall i :: 0 <= i < |k| ==> Ordinary(k[i])
  }

  predicate Ordinary(c: char) {
    !Control(c) && c != '"' && c != '\\' && c != ':' && c != ',' && c != '{' && c != '}'
  }

  /** Every quote inside the text of a string value has a backslash before it. That none of
      them ends the string early is what UnescapeEscape says: a conforming reader, which
      stops at a bare quote, reads on to the end. */
  predicate QuotesGuarded(b: string) {
    forall i :: 0 <= i < |b| && b[i] == '"' ==> i > 0 && b[i - 1] == '\\'
  }

  lemma {:induction false} EscapeGuardsQuotes(s: string)
    ensures QuotesGuarded(Escape(s))
  {
    if s != "" {
      EscapeGuardsQuotes(s[1..]);
      EscapeCharGuards(s[0]);
    }
  }

  lemma EscapeCharGuards(c: char)
    ensures EscapeChar(c) != "" && QuotesGuarded(EscapeChar(c))
    ensures forall x :: x in EscapeChar(c) ==> !Control(x)
    ensures '\\' !in EscapeChar(c) ==> EscapeChar(c) == [c] && c != '"'
  {
  }

  /** RFC 8259: escaped text holds no control character, so no line feed and no NUL. */
  lemma {:induction false} EscapeHasNoControls(s: string)
    ensures forall c :: c in Escape(s) ==> !Control(c)
  {
    if s != "" {
      EscapeHasNoControls(s[1..]);
      EscapeCharGuards(s[0]);
    }
  }

  lemma {:induction false} MembersHaveNoControls(members: seq<Member>)
    requires forall i :: 0 <= i < |members| ==> SimpleKey(members[i].key)
    ensures forall c :: c in Members(members) ==> !Control(c)
  {
    if members != [] {
      EscapeHasNoControls(members[0].value);
      MembersHaveNoControls(members[1..]);
    }
  }

  /** A printed line holds no line feed and no NUL, begins with a brace and ends with one:
      it is one line of the stream whatever its values hold. */
  lemma NotificationIsOneLine(kind: string, members: seq<Member>)
    requires forall i :: 0 <= i < |members| ==> SimpleKey(members[i].key)
    ensures var line := Notification(kind, members);
      && (forall c :: c in line ==> !Control(c))
      && line[0] == '{' && line[|line| - 1] == '}'
  {
    EscapeHasNoControls(kind);
    MembersHaveNoControls(members);
    MembersEnd(members);
  }

  lemma {:induction false} MembersEnd(members: seq<Member>)
    ensures |Members(members)| >= 2 && Members(members)[|Members(members)| - 1] == '}'
  {
    if members != [] {
      MembersEnd(members[1..]);
    }
  }

  // ---- a conforming reader ----

  function HexValue(c: char): Option<nat> {
    if '0' <= c <= '9' then Some(c as nat - '0' as nat)
    else if 'a' <= c <= 'f' then Some(c as nat - 'a' as nat + 10)
    else if 'A' <= c <= 'F' then Some(c as nat - 'A' as nat + 10)
    else None
  }

  /** The letter after a backslash, read back. */
  function Unescaped(letter: char): Option<char> {
    if letter == '"' || letter == '\\' || letter == '/' then Some(letter)
    else if letter == 'b' then Some(8 as char)
    else if letter == 'f' then Some(12 as char)
    else if letter == 'n' then Some('\n')
    else if letter == 'r' then Some('\r')
    else if letter == 't' then Some('\t')
    else None
  }

  /** Two hexadecimal digits: what a \u00 escape of one byte gives. */
  function ByteOf(high: char, low: char): Option<char> {
    match (HexValue(high), HexValue(low))
    case (Some(h), Some(l)) => Some((16 * h + l) as char)
    case _ => None
  }

  /** The text between the quotes, read as section 7 of RFC 8259 says, as far as bytes go. */
  function Unescape(s: string): Option<string> {
    if s == "" then Some("")
    else if s[0] == '"' || Control(s[0]) then None
    else if s[0] != '\\' then Prepend(Some(s[0]), Unescape(s[1..]))
    else if |s| == 1 then None
    else if s[1] != 'u' then Prepend(Unescaped(s[1]), Unescape(s[2..]))
    else if |s| < 6 || s[2] != '0' || s[3] != '0' then None
    else Prepend(ByteOf(s[4], s[5]), Unescape(s[6..]))
  }

  function Prepend(c: Option<char>, rest: Option<string>): Option<string> {
    if c.Some? && rest.Some? then Some([c.value] + rest.value) else None
  }

  lemma HexRoundTrip(n: nat)
    requires n < 16
    ensures HexValue(HexDigit(n)) == Some(n)
  {
  }

  lemma UnescapeChar(c: char, rest: string)
    ensures Unescape(EscapeChar(c) + rest) == Prepend(Some(c), Unescape(rest))
  {
    var text := EscapeChar(c) + rest;
    if ShortEscape(c).Some? {
      assert text[2..] == rest;
    } else if Control(c) {
      HexRoundTrip(c as int / 16);
      HexRoundTrip(c as int % 16);
      assert ByteOf(text[4], text[5]) == Some(c);
      assert text[6..] == rest;
    } else {
      assert text[1..] == rest;
    }
  }

  /** RFC 8259: a conforming reader gets back every string that is printed. */
  lemma {:induction false} UnescapeEscape(s: string)
    ensures Unescape(Escape(s)) == Some(s)
  {
    if s != "" {
      UnescapeEscape(s[1..]);
      UnescapeChar(s[0], Escape(s[1..]));
      assert s == [s[0]] + s[1..];
    }
  }

  lemma EscapeCharLength(c: char)
    ensures |EscapeChar(c)| <= 6 && (Unescaped('b') == Some(c) || Unescaped('f') == Some(c) ==> |EscapeChar(c)| == 2)
    ensures !Control(c) ==> |EscapeChar(c)| <= 2 && (c != '"' && c != '\\' ==> |EscapeChar(c)| == 1)
  {
  }

  /** The printed form is the shortest: no text that a conforming reader reads as the string has
      fewer characters. */
  lemma {:induction false} EscapeIsShortest(text: string, s: string)
    requires Unescape(text) == Some(s)
    ensures |Escape(s)| <= |text|
    decreases |text|, 1
  {
    if text != "" {
      EscapeCharLength(s[0]);
      if text[0] != '\\' {
        ShorterRest(text, s, 1);
      } else if text[1] != 'u' {
        ShorterRest(text, s, 2);
      } else {
        ShorterRest(text, s, 6);
      }
    }
  }

  lemma ShorterRest(text: string, s: string, n: nat)
    requires 0 < n <= |text| && s != "" && Unescape(text[n..]) == Some(s[1..]) && |EscapeChar(s[0])| <= n
    ensures |Escape(s)| <= |text|
    decreases |text|, 0
  {
    EscapeIsShortest(text[n..], s[1..]);
  }
}
