/** End to end from the daemon's printer to the C++ callback: every rx_data line is
    called back once, in order, with its own fields; and exactly which other lines the
    client's substring test takes for one. */
module RxDelivery {
  import opened Sequences
  import opened JsonText
  import opened Scanner
  import opened Framing
  import opened RxClient
  import opened Misreads

  /** A line of the stream: an rx_data notification, with its members in any order, or
      any other line (a response, another notification). */
  datatype Printed = Rx(members: seq<Member>) | Other(text: string)

  function Text(p: Printed): string {
    match p
    case Rx(members) => Notification("rx_data", members)
    case Other(text) => text
  }

  function Texts(printed: seq<Printed>): (r: seq<string>)
    ensures |r| == |printed| && forall i :: 0 <= i < |r| ==> r[i] == Text(printed[i])
  {
    seq(|printed|, i requires 0 <= i < |printed| => Text(printed[i]))
  }

  predicate Has(members: seq<Member>, key: string) {
    exists j :: 0 <= j < |members| && members[j].key == key
  }

  function ValueOf(members: seq<Member>, key: string): string {
    if members == [] then "" else if members[0].key == key then members[0].value else ValueOf(members[1..], key)
  }

  ghost predicate RxMembers(members: seq<Member>) {
    && WellKeyed(members) && !Has(members, "rx_data")
    && Has(members, "port") && Has(members, "timestamp") && Has(members, "ascii") && Has(members, "hex")
  }

  ghost predicate Wellformed(p: Printed) {
    match p
    case Rx(members) => RxMembers(members)
    case Other(text) => '\n' !in text && NUL !in text
  }

  /** The fields the callback is owed for a line. */
  function Owed(p: Printed): seq<RxData> {
    match p
    case Rx(members) =>
      [RxData(Scanned(ValueOf(members, "port")), Scanned(ValueOf(members, "timestamp")),
              Scanned(ValueOf(members, "ascii")), Scanned(ValueOf(members, "hex")))]
    case Other(text) => CallsOfLine(text)
  }

  lemma {:induction false} ValueOfMember(members: seq<Member>, j: nat)
    requires WellKeyed(members) && j < |members|
    ensures ValueOf(members, members[j].key) == members[j].value
  {
    if j > 0 {
      ValueOfMember(members[1..], j - 1);
    }
  }

  lemma {:induction false} CStringIdentity(s: string)
    requires NUL !in s
    ensures CString(s) == s
  {
    if s != "" {
      CStringIdentity(s[1..]);
    }
  }

  lemma FieldDelivered(members: seq<Member>, key: string)
    requires WellKeyed(members) && Has(members, key) && key != "notify" && key != "data"
    ensures CString(Extract(Notification("rx_data", members), key)) == Scanned(ValueOf(members, key))
  {
    var j :| 0 <= j < |members| && members[j].key == key;
    ExtractsOwnValue("rx_data", members, j);
    ValueOfMember(members, j);
    ScannedHasNoNul(members[j].value);
    CStringIdentity(Scanned(members[j].value));
  }

  lemma ScannedHasNoNul(v: string)
    ensures NUL !in Scanned(v)
  {
    ScannedIsClean(v);
  }

  lemma NoTrimNeeded(s: string)
    requires s != "" && s[0] == '{' && s[|s| - 1] == '}'
    ensures Trim(s) == s
  {
  }

  /** One rx_data line makes one callback, with the scanner's reading of its own fields. */
  lemma RxLineDelivered(members: seq<Member>)
    requires RxMembers(members)
    ensures CallsOfLine(Notification("rx_data", members)) == Owed(Rx(members))
  {
    var line := Notification("rx_data", members);
    NotificationIsOneLine("rx_data", members);
    NoTrimNeeded(line);
    TakenForRxDataIff("rx_data", members);
    FieldDelivered(members, "port");
    FieldDelivered(members, "timestamp");
    FieldDelivered(members, "ascii");
    FieldDelivered(members, "hex");
  }

  lemma LineDelivered(p: Printed)
    requires Wellformed(p)
    ensures CallsOfLine(Text(p)) == Owed(p) && '\n' !in Text(p) && NUL !in Text(p)
  {
    if p.Rx? {
      RxLineDelivered(p.members);
      NotificationIsOneLine("rx_data", p.members);
    }
  }

  lemma TextsSplit(printed: seq<Printed>)
    requires printed != []
    ensures Texts(printed) == Texts(printed[..|printed| - 1]) + [Text(printed[|printed| - 1])]
  {
  }

  lemma {:induction false} LinesDelivered(printed: seq<Printed>)
    requires forall p :: p in printed ==> Wellformed(p)
    ensures FlatMap(CallsOfLine, Texts(printed)) == FlatMap(Owed, printed)
    ensures forall l :: l in Texts(printed) ==> '\n' !in l && NUL !in l
  {
    if printed != [] {
      var before := printed[..|printed| - 1];
      var last := printed[|printed| - 1];
      LinesDelivered(before);
      LineDelivered(last);
      TextsSplit(printed);
      FlatMapAppend(CallsOfLine, Texts(before), [Text(last)]);
      FlatMapOne(CallsOfLine, Text(last));
    }
  }

  lemma {:induction false} ReceivedAll(chunks: seq<string>)
    requires NUL !in Concat(chunks)
    ensures Received(chunks) == Concat(chunks)
  {
    if chunks != [] {
      ReceivedAll(chunks[..|chunks| - 1]);
      CStringIdentity(chunks[|chunks| - 1]);
    }
  }

  lemma {:induction false} JoinedHasNoNul(lines: seq<string>)
    requires forall l :: l in lines ==> NUL !in l
    ensures NUL !in Joined(lines)
  {
    if lines != [] {
      JoinedHasNoNul(lines[..|lines| - 1]);
    }
  }

  /** Main theorem: for any chunking of the daemon's lines and a partial last line, what
      RecvLoop calls back is, line by line and in order, what each line is owed (one
      callback with its own fields for an rx_data line), and the partial line waits. */
  lemma StreamDelivered(chunks: seq<string>, printed: seq<Printed>, partial: string)
    requires forall p :: p in printed ==> Wellformed(p)
    requires '\n' !in partial && NUL !in partial
    requires Concat(chunks) == Joined(Texts(printed)) + partial
    ensures CallsOf(Frame(Received(chunks)).lines) == FlatMap(Owed, printed)
    ensures Frame(Received(chunks)).rest == partial
  {
    LinesDelivered(printed);
    JoinedHasNoNul(Texts(printed));
    ReceivedAll(chunks);
    FrameJoined(Texts(printed), partial);
  }

  // ---- when the callbacks are exactly what was printed ----

  /** The callback for an rx_data line, with the fields that were printed. */
  function Callback(p: Printed): seq<RxData> {
    match p
    case Rx(members) =>
      [RxData(ValueOf(members, "port"), ValueOf(members, "timestamp"), ValueOf(members, "ascii"), ValueOf(members, "hex"))]
    case Other(_) => []
  }

  /** The fields hold no control character but tab, line feed and carriage return, and no
      other line looks like received data. */
  ghost predicate Readable(p: Printed) {
    Wellformed(p) &&
    match p
    case Rx(members) =>
      Clean(ValueOf(members, "port")) && Clean(ValueOf(members, "timestamp"))
      && Clean(ValueOf(members, "ascii")) && Clean(ValueOf(members, "hex"))
    case Other(text) => !LooksLikeRxData(Trim(text))
  }

  lemma OwedIsPrinted(p: Printed)
    requires Readable(p)
    ensures Owed(p) == Callback(p)
  {
    if p.Rx? {
      ScannedIsClean(ValueOf(p.members, "port"));
      ScannedIsClean(ValueOf(p.members, "timestamp"));
      ScannedIsClean(ValueOf(p.members, "ascii"));
      ScannedIsClean(ValueOf(p.members, "hex"));
    }
  }

  /** Another notification is readable unless its kind or a value is rx_data or ends with a
      quote character and rx_data. */
  lemma NoticeReadableIff(kind: string, members: seq<Member>)
    requires forall i :: 0 <= i < |members| ==> SimpleKey(members[i].key) && members[i].key != "rx_data"
    ensures Readable(Other(Notification(kind, members)))
      <==> !EndsQuoted(kind, "rx_data") && !SomeEndsQuoted(members, "rx_data")
  {
    NotificationIsOneLine(kind, members);
    NoTrimNeeded(Notification(kind, members));
    TakenForRxDataIff(kind, members);
  }

  lemma {:induction false} AllOwedIsPrinted(printed: seq<Printed>)
    requires forall p :: p in printed ==> Readable(p)
    ensures FlatMap(Owed, printed) == FlatMap(Callback, printed)
  {
    if printed != [] {
      AllOwedIsPrinted(printed[..|printed| - 1]);
      OwedIsPrinted(printed[|printed| - 1]);
    }
  }

  /** Main theorem: for any chunking of a stream of readable lines, there is one callback per
      rx_data line, in order, with the fields that were printed, and no other callback. */
  lemma RxDataDelivered(chunks: seq<string>, printed: seq<Printed>, partial: string)
    requires forall p :: p in printed ==> Readable(p)
    requires '\n' !in partial && NUL !in partial
    requires Concat(chunks) == Joined(Texts(printed)) + partial
    ensures CallsOf(Frame(Received(chunks)).lines) == FlatMap(Callback, printed)
    ensures Frame(Received(chunks)).rest == partial
  {
    StreamDelivered(chunks, printed, partial);
    AllOwedIsPrinted(printed);
  }
}
