/** The log task of a port: it writes the entries its receiver delivers until a keyword,
    a cancel or the end of the port stops it. */
module LogTask {
  import opened Sequences
  import opened Matching
  import opened Broadcast

  /** The `stopKeyword` argument of a request. */
  datatype KeywordArgument = Absent | NotText | Text(value: string)

  /** A received entry: its stamp and its data decoded as text. */
  datatype Line = Line(timestamp: string, text: string)

  /** What the task meets, in order: answers of its receiver, its token, and the
      keyword that `update_log` changes behind its back. */
  datatype LogEvent = Arrived(line: Line) | Skipped(n: nat) | Updated(argument: KeywordArgument) | Cancelled | Ended

  function StartKeyword(a: KeywordArgument): Option<string> {
    if a.Text? then Some(a.value) else None
  }

  /** `update_log` takes the empty text for no keyword; `start_log` does not. */
  function UpdateKeyword(current: Option<string>, a: KeywordArgument): Option<string> {
    match a
    case Absent => current
    case NotText => None
    case Text(value) => if value == "" then None else Some(value)
  }

  predicate Contains(text: string, keyword: string) {
    keyword == "" || FindSubslice(text, keyword).Some?
  }

  /** The text is something, then the keyword, then something. */
  ghost predicate Holds(text: string, keyword: string) {
    exists head, tail :: text == head + keyword + tail
  }

  /** The search finds the keyword wherever in the text it stands, and nowhere else. */
  lemma ContainsIff(text: string, keyword: string)
    ensures Contains(text, keyword) <==> Holds(text, keyword)
  {
    if keyword == "" {
      assert text == "" + keyword + text;
    } else if FindSubslice(text, keyword).Some? {
      var at := FindSubslice(text, keyword).value;
      assert text == text[..at] + keyword + text[at + |keyword|..];
    }
    if head, tail :| text == head + keyword + tail {
      assert text[|head|..|head| + |keyword|] == keyword;
      assert keyword != "" ==> OccursAt(text, keyword, |head|);
    }
  }

  function Printed(line: Line): string {
    "[" + line.timestamp + "] " + line.text + "\n"
  }

  // ---- what a log must be ----

  /** What an event adds to the file. */
  function Written(ev: LogEvent): string {
    if ev.Arrived? then Printed(ev.line) else ""
  }

  /** The keyword in force when event i is met. */
  function InForce(evs: seq<LogEvent>, start: KeywordArgument, i: nat): Option<string>
    requires i <= |evs|
  {
    if i == 0 then StartKeyword(start)
    else if evs[i - 1].Updated? then UpdateKeyword(InForce(evs, start, i - 1), evs[i - 1].argument)
    else InForce(evs, start, i - 1)
  }

  /** Event i is an entry with the keyword then in force. */
  ghost predicate KeywordFound(evs: seq<LogEvent>, start: KeywordArgument, i: int) {
    0 <= i < |evs| && evs[i].Arrived? && InForce(evs, start, i).Some?
    && Holds(evs[i].line.text, InForce(evs, start, i).value)
  }

  ghost predicate StopsAt(evs: seq<LogEvent>, start: KeywordArgument, i: int) {
    0 <= i < |evs| && (evs[i].Cancelled? || evs[i].Ended? || KeywordFound(evs, start, i))
  }

  /** The first `taken` events were met: the last of them is the first one that stops the
      task, if any does. One notification was sent if the last of them was an entry with
      the keyword, none otherwise. */
  ghost predicate Course(evs: seq<LogEvent>, start: KeywordArgument, notified: seq<string>, taken: nat) {
    && taken <= |evs|
    && (forall i :: i + 1 < taken ==> !StopsAt(evs, start, i))
    && (taken < |evs| ==> StopsAt(evs, start, taken - 1))
    && notified == (if KeywordFound(evs, start, taken - 1) then [InForce(evs, start, taken - 1).value] else [])
  }

  /** And the file holds the entries among the events met. */
  ghost predicate LogOf(evs: seq<LogEvent>, start: KeywordArgument, file: string, notified: seq<string>, taken: nat) {
    Course(evs, start, notified, taken) && file == FlatMap(Written, evs[..taken])
  }

  lemma WrittenNext(evs: seq<LogEvent>, n: nat)
    requires n < |evs|
    ensures FlatMap(Written, evs[..n + 1]) == FlatMap(Written, evs[..n]) + Written(evs[n])
  {
    assert evs[..n + 1][..n] == evs[..n];
  }

  method Run(evs: seq<LogEvent>, start: KeywordArgument) returns (file: string, notified: seq<string>, taken: nat)
    ensures LogOf(evs, start, file, notified, taken)
  {
    var stopKeyword := StartKeyword(start);
    file, notified, taken := "", [], 0;
    while taken < |evs|
      invariant taken <= |evs| && notified == [] && stopKeyword == InForce(evs, start, taken)
      invariant forall i :: i < taken ==> !StopsAt(evs, start, i)
      invariant file == FlatMap(Written, evs[..taken])
    {
      WrittenNext(evs, taken);
      taken := taken + 1;
      match evs[taken - 1]
      case Cancelled => return;
      case Ended => return;
      case Skipped(_) =>
      case Updated(argument) => stopKeyword := UpdateKeyword(stopKeyword, argument);
      case Arrived(line) =>
        file := file + Printed(line);
        if stopKeyword.Some? { ContainsIff(line.text, stopKeyword.value); }
        if stopKeyword.Some? && Contains(line.text, stopKeyword.value) {
          notified := notified + [stopKeyword.value];
          return;
        }
    }
    assert !StopsAt(evs, start, taken - 1);
  }

  /** The events leave no choice. */
  lemma LogUnique(evs: seq<LogEvent>, start: KeywordArgument, file: string, notified: seq<string>, taken: nat,
                  file': string, notified': seq<string>, taken': nat)
    requires LogOf(evs, start, file, notified, taken) && LogOf(evs, start, file', notified', taken')
    ensures file == file' && notified == notified' && taken == taken'
  {
    assert 0 < taken < taken' ==> !StopsAt(evs, start, taken - 1);
    assert 0 < taken' < taken ==> !StopsAt(evs, start, taken' - 1);
  }

  // ---- the empty keyword ----

  /** The empty keyword is in force exactly when `start_log` was given it and no
      `update_log` has given a keyword argument since. */
  lemma {:induction false} EmptyInForceIff(evs: seq<LogEvent>, start: KeywordArgument, i: nat)
    requires i <= |evs|
    ensures InForce(evs, start, i) == Some("") <==>
      start == Text("") && forall j :: 0 <= j < i && evs[j].Updated? ==> evs[j].argument.Absent?
  {
    if i > 0 {
      EmptyInForceIff(evs, start, i - 1);
    }
  }

  /** A log started with the empty keyword ends with its first entry. */
  lemma EmptyKeywordStopsAtOnce(evs: seq<LogEvent>, first: nat, file: string, notified: seq<string>, taken: nat)
    requires LogOf(evs, Text(""), file, notified, taken)
    requires first < |evs| && evs[first].Arrived? && forall j :: 0 <= j < first ==> evs[j].Skipped?
    ensures taken == first + 1 && file == Printed(evs[first].line) && notified == [""]
  {
    EmptyStops(evs, first, notified, taken);
    NothingWritten(evs[..first]);
    assert evs[..first + 1][..first] == evs[..first];
  }

  lemma EmptyStops(evs: seq<LogEvent>, first: nat, notified: seq<string>, taken: nat)
    requires Course(evs, Text(""), notified, taken)
    requires first < |evs| && evs[first].Arrived? && forall j :: 0 <= j < first ==> evs[j].Skipped?
    ensures taken == first + 1 && notified == [""]
  {
    EmptyInForceIff(evs, Text(""), first);
    assert evs[first].line.text == "" + "" + evs[first].line.text;
    assert StopsAt(evs, Text(""), first);
    assert forall j :: j < first ==> !StopsAt(evs, Text(""), j);
  }

  lemma {:induction false} NothingWritten(evs: seq<LogEvent>)
    requires forall j :: 0 <= j < |evs| ==> !evs[j].Arrived?
    ensures FlatMap(Written, evs) == ""
  {
    if evs != [] {
      NothingWritten(evs[..|evs| - 1]);
    }
  }

  /** No update before event i, from event j on, has given a keyword argument. */
  ghost predicate NoneGiven(evs: seq<LogEvent>, j: nat, i: nat) {
    forall l :: j <= l < i && l < |evs| && evs[l].Updated? ==> evs[l].argument.Absent?
  }

  /** Update j gave the keyword, and no later one before event i gave another argument. */
  ghost predicate LastGave(evs: seq<LogEvent>, j: nat, i: nat, keyword: string) {
    j < i && j < |evs| && evs[j] == Updated(Text(keyword)) && NoneGiven(evs, j + 1, i)
  }

  ghost predicate GivenLast(evs: seq<LogEvent>, i: nat, keyword: string) {
    exists j :: LastGave(evs, j, i, keyword)
  }

  /** A keyword is in force exactly when it was the last argument given: by an update, if it
      is not empty, or by `start_log`. */
  lemma {:induction false} InForceIff(evs: seq<LogEvent>, start: KeywordArgument, i: nat, keyword: string)
    requires i <= |evs|
    ensures InForce(evs, start, i) == Some(keyword) <==>
      (start == Text(keyword) && NoneGiven(evs, 0, i)) || (keyword != "" && GivenLast(evs, i, keyword))
  {
    if i > 0 {
      InForceIff(evs, start, i - 1, keyword);
      if evs[i - 1].Updated? && !evs[i - 1].argument.Absent? {
        JustGiven(evs, i, keyword);
      } else {
        NotGiven(evs, i - 1, i, keyword);
      }
    }
  }

  lemma JustGiven(evs: seq<LogEvent>, i: nat, keyword: string)
    requires 0 < i <= |evs| && evs[i - 1].Updated? && !evs[i - 1].argument.Absent?
    ensures !NoneGiven(evs, 0, i) && (GivenLast(evs, i, keyword) <==> evs[i - 1].argument == Text(keyword))
  {
    if evs[i - 1].argument == Text(keyword) {
      assert LastGave(evs, i - 1, i, keyword);
    }
    forall j | LastGave(evs, j, i, keyword) ensures j == i - 1 {
    }
  }

  lemma NotGiven(evs: seq<LogEvent>, h: nat, i: nat, keyword: string)
    requires i == h + 1 <= |evs| && !(evs[h].Updated? && !evs[h].argument.Absent?)
    ensures NoneGiven(evs, 0, i) <==> NoneGiven(evs, 0, h)
    ensures GivenLast(evs, i, keyword) <==> GivenLast(evs, h, keyword)
  {
    if j :| LastGave(evs, j, i, keyword) {
      assert LastGave(evs, j, h, keyword);
    }
    if j :| LastGave(evs, j, h, keyword) {
      assert LastGave(evs, j, i, keyword);
    }
  }

  // ---- one keyword throughout ----

  function Texts(evs: seq<LogEvent>): string {
    FlatMap((ev: LogEvent) => if ev.Arrived? then ev.line.text else "", evs)
  }

  /** No update changes the keyword. */
  ghost predicate KeywordUntouched(evs: seq<LogEvent>) {
    forall i :: 0 <= i < |evs| && evs[i].Updated? ==> evs[i].argument.Absent?
  }

  lemma {:induction false} KeywordKept(evs: seq<LogEvent>, start: KeywordArgument, i: nat)
    requires KeywordUntouched(evs) && i <= |evs|
    ensures InForce(evs, start, i) == StartKeyword(start)
  {
    if i > 0 {
      KeywordKept(evs, start, i - 1);
    }
  }

  /** Entry i holds the keyword whole. */
  ghost predicate Whole(evs: seq<LogEvent>, keyword: string, i: int) {
    0 <= i < |evs| && evs[i].Arrived? && Holds(evs[i].line.text, keyword)
  }

  /** Neither a cancel nor the port's end comes before event i. */
  predicate Undisturbed(evs: seq<LogEvent>, i: int) {
    forall j :: 0 <= j < i && j < |evs| ==> !evs[j].Cancelled? && !evs[j].Ended?
  }

  lemma WholeStops(evs: seq<LogEvent>, keyword: string, i: int)
    requires KeywordUntouched(evs)
    ensures KeywordFound(evs, Text(keyword), i) <==> Whole(evs, keyword, i)
    ensures KeywordFound(evs, Text(keyword), i) ==> InForce(evs, Text(keyword), i) == Some(keyword)
    ensures Whole(evs, keyword, i) ==> StopsAt(evs, Text(keyword), i)
  {
    if 0 <= i < |evs| {
      KeywordKept(evs, Text(keyword), i);
    }
  }

  /** While the keyword stays the same, and whatever lags, cancels and ends there are: the
      keyword stops the task if and only if one entry holds it whole before any cancel and
      before the port's end. */
  lemma StoppedIff(evs: seq<LogEvent>, keyword: string, notified: seq<string>, taken: nat)
    requires KeywordUntouched(evs) && Course(evs, Text(keyword), notified, taken)
    ensures notified == if exists i :: Whole(evs, keyword, i) && Undisturbed(evs, i) then [keyword] else []
  {
    WholeStops(evs, keyword, taken - 1);
    if i :| Whole(evs, keyword, i) && Undisturbed(evs, i) {
      WholeStops(evs, keyword, i);
      assert taken - 1 <= i;
      assert StopsAt(evs, Text(keyword), taken - 1);
    }
    if Whole(evs, keyword, taken - 1) {
      assert Undisturbed(evs, taken - 1) by {
        forall j | 0 <= j < taken - 1 ensures !evs[j].Cancelled? && !evs[j].Ended? {
          assert !StopsAt(evs, Text(keyword), j);
        }
      }
    }
  }

  /** So a keyword that the port sent in two reads goes unseen: the text of the stream
      is the keyword itself, and the log goes on. */
  lemma SplitKeywordMissed(keyword: string, cut: nat, stamp: string, notified: seq<string>, taken: nat)
    requires 0 < cut < |keyword|
    requires Course(Cut(keyword, cut, stamp), Text(keyword), notified, taken)
    ensures Texts(Cut(keyword, cut, stamp)) == keyword && Holds(Texts(Cut(keyword, cut, stamp)), keyword)
    ensures notified == [] && taken == 2
  {
    var evs := Cut(keyword, cut, stamp);
    var text := (ev: LogEvent) => if ev.Arrived? then ev.line.text else "";
    FlatMapAppend(text, [evs[0]], [evs[1]]);
    FlatMapOne(text, evs[0]);
    FlatMapOne(text, evs[1]);
    assert [evs[0]] + [evs[1]] == evs;
    assert keyword == "" + keyword + "";
    assert forall i :: !Whole(evs, keyword, i);
    StoppedIff(evs, keyword, notified, taken);
    WholeStops(evs, keyword, taken - 1);
  }

  function Cut(keyword: string, cut: nat, stamp: string): seq<LogEvent>
    requires cut <= |keyword|
  {
    [Arrived(Line(stamp, keyword[..cut])), Arrived(Line(stamp, keyword[cut..]))]
  }

  // ---- the log and the port's stream ----

  /** The receiver's answers as the task meets them. */
  function Fed(sent: seq<Line>, answers: seq<Answer>): seq<LogEvent>
    requires Below(sent, answers)
  {
    seq(|answers|, i requires 0 <= i < |answers| =>
      if answers[i].Entry? then Arrived(sent[answers[i].index]) else Skipped(answers[i].n))
  }

  ghost predicate Below(sent: seq<Line>, answers: seq<Answer>) {
    forall i :: 0 <= i < |answers| && answers[i].Entry? ==> answers[i].index < |sent|
  }

  function Kept(ev: LogEvent): seq<LogEvent> {
    if ev.Arrived? || ev.Skipped? then [ev] else []
  }

  /** The receiver's part of what the task meets. */
  function FromReceiver(evs: seq<LogEvent>): seq<LogEvent> {
    FlatMap(Kept, evs)
  }

  lemma {:induction false} FileFromReceiver(evs: seq<LogEvent>)
    ensures FlatMap(Written, FromReceiver(evs)) == FlatMap(Written, evs)
  {
    if evs != [] {
      var last := evs[|evs| - 1];
      FileFromReceiver(evs[..|evs| - 1]);
      FlatMapAppend(Written, FromReceiver(evs[..|evs| - 1]), Kept(last));
      FlatMapOne(Written, last);
    }
  }

  /** What is met first of the receiver is a first part of its answers. */
  lemma FirstAnswers(evs: seq<LogEvent>, taken: nat, sent: seq<Line>, answers: seq<Answer>)
    requires taken <= |evs| && Below(sent, answers) && FromReceiver(evs) == Fed(sent, answers)
    ensures var n := |FromReceiver(evs[..taken])|;
      n <= |answers| && FromReceiver(evs[..taken]) == Fed(sent, answers[..n])
  {
    FlatMapAppend(Kept, evs[..taken], evs[taken..]);
    assert evs[..taken] + evs[taken..] == evs;
    var n := |FromReceiver(evs[..taken])|;
    assert FromReceiver(evs[..taken]) == FromReceiver(evs)[..n];
    assert Fed(sent, answers)[..n] == Fed(sent, answers[..n]);
  }

  lemma {:induction false} PrefixFollows(from: nat, answers: seq<Answer>, n: nat)
    requires Gapless(from, answers) && Missed(answers) == 0 && n <= |answers|
    ensures Gapless(from, answers[..n]) && Missed(answers[..n]) == 0
    ensures Reach(from, answers[..n]) <= Reach(from, answers)
  {
    if n < |answers| {
      PrefixFollows(from, answers[..|answers| - 1], n);
      assert answers[..|answers| - 1][..n] == answers[..n];
    } else {
      assert answers[..n] == answers;
    }
  }

  lemma PrintedNext(sent: seq<Line>, from: nat, to: nat)
    requires from <= to < |sent|
    ensures FlatMap(Printed, sent[from..to + 1]) == FlatMap(Printed, sent[from..to]) + Printed(sent[to])
  {
    assert sent[from..to + 1] == sent[from..to] + [sent[to]];
    FlatMapAppend(Printed, sent[from..to], [sent[to]]);
    FlatMapOne(Printed, sent[to]);
  }

  lemma FedNext(sent: seq<Line>, answers: seq<Answer>)
    requires Below(sent, answers) && answers != []
    ensures var last := answers[|answers| - 1];
      FlatMap(Written, Fed(sent, answers)) == FlatMap(Written, Fed(sent, answers[..|answers| - 1]))
        + (if last.Entry? then Printed(sent[last.index]) else "")
  {
    assert Fed(sent, answers)[..|answers| - 1] == Fed(sent, answers[..|answers| - 1]);
  }

  lemma NextInLine(from: nat, answers: seq<Answer>)
    requires answers != [] && Gapless(from, answers) && Missed(answers) == 0
    ensures var init := answers[..|answers| - 1]; var last := answers[|answers| - 1];
      && Gapless(from, init) && Missed(init) == 0 && (last.Entry? ==> last.index == Reach(from, init))
      && Reach(from, answers) == Reach(from, init) + (if last.Entry? then 1 else 0)
  {
  }

  /** Without gaps the answers are the entries sent from `from` on. */
  lemma {:induction false} FedIsStream(sent: seq<Line>, from: nat, answers: seq<Answer>)
    requires Below(sent, answers) && Gapless(from, answers) && Missed(answers) == 0 && from <= |sent|
    ensures from <= Reach(from, answers) <= |sent|
    ensures FlatMap(Written, Fed(sent, answers)) == FlatMap(Printed, sent[from..Reach(from, answers)])
  {
    if answers != [] {
      NextInLine(from, answers);
      FedIsStream(sent, from, answers[..|answers| - 1]);
      FedIsStreamNext(sent, from, Reach(from, answers[..|answers| - 1]), answers);
    }
  }

  lemma FedIsStreamNext(sent: seq<Line>, from: nat, to: nat, answers: seq<Answer>)
    requires answers != [] && Below(sent, answers) && from <= to <= |sent|
    requires FlatMap(Written, Fed(sent, answers[..|answers| - 1])) == FlatMap(Printed, sent[from..to])
    requires var last := answers[|answers| - 1]; last.Entry? ==> last.index == to
    ensures var to' := to + (if answers[|answers| - 1].Entry? then 1 else 0);
      to' <= |sent| && FlatMap(Written, Fed(sent, answers)) == FlatMap(Printed, sent[from..to'])
  {
    FedNext(sent, answers);
    if answers[|answers| - 1].Entry? {
      PrintedNext(sent, from, to);
    }
  }

  /** The entry met last is the one the receiver answered last. */
  lemma LastAnswer(evs: seq<LogEvent>, taken: nat, sent: seq<Line>, from: nat, answers: seq<Answer>)
    requires 0 < taken <= |evs| && evs[taken - 1].Arrived?
    requires Below(sent, answers) && Gapless(from, answers) && FromReceiver(evs[..taken]) == Fed(sent, answers)
    ensures from < Reach(from, answers) <= |sent| && sent[Reach(from, answers) - 1] == evs[taken - 1].line
  {
    assert evs[..taken][..taken - 1] == evs[..taken - 1];
    var last := |answers| - 1;
    GaplessAscending(from, answers[..last]);
    assert FromReceiver(evs[..taken]) == FromReceiver(evs[..taken - 1]) + [evs[taken - 1]];
    assert Fed(sent, answers)[last] == evs[taken - 1];
  }

  /** A receiver only answers with entries that were sent. */
  lemma {:induction false} AnswersBelow(ch: Channel<Line>, polls: seq<ReaderEvent<Line>>)
    ensures var r := ReaderRun(Reader(ch, |ch.sent|, [], false), polls);
      |ch.sent| <= |r.ch.sent| && Below(r.ch.sent, r.answers)
  {
    if polls != [] {
      AnswersBelow(ch, polls[..|polls| - 1]);
    }
  }

  lemma LogIsPart(sent: seq<Line>, from: nat, answers: seq<Answer>, evs: seq<LogEvent>, file: string, taken: nat)
      returns (met: seq<Answer>)
    requires from <= |sent| && Below(sent, answers) && Gapless(from, answers) && Missed(answers) == 0
    requires FromReceiver(evs) == Fed(sent, answers)
    requires taken <= |evs| && file == FlatMap(Written, evs[..taken])
    ensures from <= Reach(from, met) <= |sent| && Reach(from, met) <= Reach(from, answers)
    ensures file == FlatMap(Printed, sent[from..Reach(from, met)])
    ensures taken == |evs| ==> met == answers
    ensures Below(sent, met) && Gapless(from, met) && FromReceiver(evs[..taken]) == Fed(sent, met)
  {
    FirstAnswers(evs, taken, sent, answers);
    met := answers[..|FromReceiver(evs[..taken])|];
    PrefixFollows(from, answers, |met|);
    FedIsStream(sent, from, met);
    FileFromReceiver(evs[..taken]);
    if taken == |evs| {
      assert evs[..taken] == evs;
      assert met == answers;
    }
  }

  lemma NotifiedOfLast(evs: seq<LogEvent>, start: KeywordArgument, notified: seq<string>, taken: nat)
    requires Course(evs, start, notified, taken) && notified != []
    ensures 0 < taken <= |evs| && evs[taken - 1].Arrived?
    ensures notified == [notified[0]] && Holds(evs[taken - 1].line.text, notified[0])
  {
  }

  lemma LastShown(evs: seq<LogEvent>, start: KeywordArgument, notified: seq<string>, taken: nat, sent: seq<Line>,
                  from: nat, met: seq<Answer>)
    requires Course(evs, start, notified, taken)
    requires Below(sent, met) && Gapless(from, met) && FromReceiver(evs[..taken]) == Fed(sent, met)
    ensures notified != [] ==>
      from < Reach(from, met) <= |sent| && notified == [notified[0]] && Holds(sent[Reach(from, met) - 1].text, notified[0])
  {
    if notified != [] {
      NotifiedOfLast(evs, start, notified, taken);
      LastAnswer(evs, taken, sent, from, met);
    }
  }

  /** Main theorem: when the receiver, subscribed at `start_log`, is never lapped, the
      file is exactly the lines of the entries the port received from then on, up to some
      entry, in order and without one missing, whatever updates came in between. After a
      keyword notification the last line is that of the entry holding the keyword. (That
      the answers are of entries sent is no restriction: see AnswersBelow.) */
  lemma LogIsStream(ch: Channel<Line>, polls: seq<ReaderEvent<Line>>, evs: seq<LogEvent>, start: KeywordArgument,
                    file: string, notified: seq<string>, taken: nat)
      returns (to: nat)
    requires var r := ReaderRun(Reader(ch, |ch.sent|, [], false), polls);
      Missed(r.answers) == 0 && Below(r.ch.sent, r.answers) && FromReceiver(evs) == Fed(r.ch.sent, r.answers)
    requires LogOf(evs, start, file, notified, taken)
    ensures var r := ReaderRun(Reader(ch, |ch.sent|, [], false), polls);
      && |ch.sent| <= to <= r.cursor && file == FlatMap(Printed, r.ch.sent[|ch.sent|..to])
      && (taken == |evs| ==> to == r.cursor)
      && (notified != [] ==> |ch.sent| < to && notified == [notified[0]] && Holds(r.ch.sent[to - 1].text, notified[0]))
  {
    var from := |ch.sent|;
    var r := ReaderRun(Reader(ch, from, [], false), polls);
    RunGapless(ch, from, polls);
    AnswersBelow(ch, polls);
    var met := LogIsPart(r.ch.sent, from, r.answers, evs, file, taken);
    to := Reach(from, met);
    LastShown(evs, start, notified, taken, r.ch.sent, from, met);
  }
}
