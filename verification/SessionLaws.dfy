/** How the operations of a session act on one another. */
module SessionLaws {
  import opened KeywordFilter
  import opened Session
  import opened Streaming
  import ReadBuffer

  /** A refused command changes nothing and sends nothing; an accepted one sends exactly
      one command, for its own port, and leaves the other ports' subscriptions alone. */
  lemma RefusedOrSent(s: Session, what: Dispatch, d: Daemon)
    requires DaemonOk(d)
    ensures var e := EffectOf(s, what, d);
      && (e.reply == Refused ==> e == Effect(s, Refused, []))
      && (e.reply != Refused ==> e.reply == Done && |e.commands| == 1 && e.commands[0].port == what.port)
    ensures var s' := EffectOf(s, what, d).session;
      && (forall q :: q != what.port ==> (q in s'.rxSubscriptions <==> q in s.rxSubscriptions))
      && s'.filterSubscriptions - {what.port} == s.filterSubscriptions - {what.port}
  {
  }

  /** A port is subscribed at most once, whatever happens to the ports in between, */
  lemma SubscribedOnce(s: Session, p: Port, wasOpen: bool, d: Daemon, stillOpen: bool, d': Daemon)
    requires DaemonOk(d) && DaemonOk(d') && SubscribeRx(s, p, wasOpen, d).reply == Done
    ensures SubscribeRx(SubscribeRx(s, p, wasOpen, d).session, p, stillOpen, d').reply == Refused
  {
  }

  /** and unsubscribing undoes it. */
  lemma UnsubscribeUndoes(s: Session, p: Port, wasOpen: bool, d: Daemon)
    requires DaemonOk(d) && SubscribeRx(s, p, wasOpen, d).reply == Done
    ensures UnsubscribeRx(SubscribeRx(s, p, wasOpen, d).session, p) == Effect(s, Done, [Unsubscribe(p)])
  {
    assert s.rxSubscriptions + {p} - {p} == s.rxSubscriptions;
  }

  lemma UnfilterUndoes(s: Session, p: Port, requested: seq<Bytes>, wasOpen: bool, d: Daemon)
    requires DaemonOk(d) && FilterRx(s, p, requested, wasOpen, d).reply == Done
    ensures UnfilterRx(FilterRx(s, p, requested, wasOpen, d).session, p).session
      == s.(filterSubscriptions := s.filterSubscriptions - {p})
    ensures p !in s.filterSubscriptions ==> UnfilterRx(FilterRx(s, p, requested, wasOpen, d).session, p).session == s
  {
    var keywords := NonEmpty(requested);
    assert s.filterSubscriptions[p := keywords] - {p} == s.filterSubscriptions - {p};
    assert p !in s.filterSubscriptions ==> s.filterSubscriptions - {p} == s.filterSubscriptions;
  }

  /** What came in before the session's own subscription is not read, however long the client
      has been connected. */
  lemma FirstReadIsEmpty(s: Session, p: Port, clear: bool, d: Daemon)
    requires DaemonOk(d) && SessionOk(s, d) && p !in s.receivers && p in d.open
    ensures var s' := EnsureSubscribed(s, p, d); SessionOk(s', d) && ReadPort(s', p, clear, d).1 == Entries([])
  {
    var s' := EnsureSubscribed(s, p, d);
    var rx := s'.receivers[p];
    assert d.chans[rx.chan].sent[rx.cursor..] == [];
    assert ReadBuffer.Drain(d.chans[rx.chan], rx.cursor, []).0 == [];
  }

  /** When each dispatched command is accepted. */
  lemma AcceptedIff(s: Session, what: Dispatch, d: Daemon)
    requires DaemonOk(d)
    ensures EffectOf(s, what, d).reply == Done <==>
      match what
      case SubscribeCmd(p, wasOpen) => wasOpen && p in d.open && p !in s.rxSubscriptions
      case UnsubscribeCmd(p) => p in s.rxSubscriptions
      case FilterCmd(p, requested, wasOpen) => wasOpen && p in d.open && exists k :: k in requested && k != []
      case AddFilterCmd(p, requested, wasOpen) =>
        wasOpen && (p in d.open || p in s.filterSubscriptions) && exists k :: k in requested && k != []
      case UnfilterCmd(p) => p in s.filterSubscriptions
  {
    if what.FilterCmd? || what.AddFilterCmd? {
      SomeNonEmpty(what.requested);
    }
  }

  lemma SomeNonEmpty(requested: seq<Bytes>)
    ensures NonEmpty(requested) != [] <==> exists k :: k in requested && k != []
  {
    var list := NonEmpty(requested);
    assert list != [] ==> list[0] in list;
  }

  /** After a close the session knows nothing of the port: there is nothing to read, to
      unsubscribe or to unfilter, and a subscription is accepted as if it were the first. */
  lemma ClosedForgets(s: Session, p: Port, clear: bool, wasOpen: bool, d: Daemon)
    requires DaemonOk(d) && SessionOk(s, d)
    ensures var s' := OnPortClosed(s, p);
      && SessionOk(s', d) && ReadPort(s', p, clear, d) == (s', Refused)
      && UnsubscribeRx(s', p).reply == Refused && UnfilterRx(s', p).reply == Refused && CloseCommands(s', p) == []
      && (SubscribeRx(s', p, wasOpen, d).reply == Done <==> wasOpen && p in d.open)
  {
  }

  /** A read is answered exactly when the session has a receiver for the port. */
  lemma ReadAnsweredIff(s: Session, p: Port, clear: bool, d: Daemon)
    requires DaemonOk(d) && SessionOk(s, d)
    ensures ReadPort(s, p, clear, d).1.Entries? <==> p in s.receivers
    ensures p !in s.receivers ==> ReadPort(s, p, clear, d) == (s, Refused)
  {
  }

  // ---- keyword lists ----

  lemma {:induction false} MergedAppend(existing: seq<Bytes>, a: seq<Bytes>, b: seq<Bytes>)
    ensures Merged(Merged(existing, a), b) == Merged(existing, a + b)
    decreases |b|
  {
    if b == [] {
      assert a + b == a;
    } else {
      var init := b[..|b| - 1];
      MergedAppend(existing, a, init);
      assert (a + b)[..|a + b| - 1] == a + init;
    }
  }

  /** Nothing in the list is there already, or stands earlier in the list itself. */
  predicate AllNew(existing: seq<Bytes>, added: seq<Bytes>) {
    added == [] ||
    (AllNew(existing, added[..|added| - 1])
     && added[|added| - 1] !in existing && added[|added| - 1] !in added[..|added| - 1])
  }

  lemma MergedLast(existing: seq<Bytes>, added: seq<Bytes>)
    requires added != []
    ensures var before := Merged(existing, added[..|added| - 1]); var last := added[|added| - 1];
      Merged(existing, added) == if last in existing || last in added[..|added| - 1] then before else before + [last]
  {
  }

  lemma {:induction false} MergedLength(existing: seq<Bytes>, added: seq<Bytes>)
    ensures |Merged(existing, added)| <= |existing| + |added|
    ensures |Merged(existing, added)| == |existing| + |added| <==> AllNew(existing, added)
    ensures AllNew(existing, added) ==> Merged(existing, added) == existing + added
    decreases |added|
  {
    if added == [] {
      assert existing + added == existing;
    } else {
      var init := added[..|added| - 1];
      var last := added[|added| - 1];
      MergedLength(existing, init);
      MergedLast(existing, added);
      LengthNext(existing, init, last, Merged(existing, init), last in existing || last in init, AllNew(existing, init));
      assert added == init + [last];
    }
  }

  lemma LengthNext(existing: seq<Bytes>, init: seq<Bytes>, last: Bytes, before: seq<Bytes>, repeated: bool, allNew: bool)
    requires |before| <= |existing| + |init| && (|before| == |existing| + |init| <==> allNew)
    requires allNew ==> before == existing + init
    ensures var r := if repeated then before else before + [last];
      && |r| <= |existing| + |init| + 1
      && (|r| == |existing| + |init| + 1 <==> allNew && !repeated)
      && (allNew && !repeated ==> r == existing + (init + [last]))
  {
  }

  /** Merging appends the new list as it is if and only if everything in it is new. */
  lemma MergedIsAppendIff(existing: seq<Bytes>, added: seq<Bytes>)
    ensures Merged(existing, added) == existing + added <==> AllNew(existing, added)
  {
    MergedLength(existing, added);
  }

  /** Where a keyword first stands in a list. */
  function FirstAt(list: seq<Bytes>, k: Bytes): nat {
    if list == [] then 0
    else if k in list[..|list| - 1] then FirstAt(list[..|list| - 1], k)
    else |list| - 1
  }

  lemma {:induction false} FirstAtInside(list: seq<Bytes>, k: Bytes)
    requires k in list
    ensures FirstAt(list, k) < |list| && list[FirstAt(list, k)] == k && k !in list[..FirstAt(list, k)]
  {
    if k in list[..|list| - 1] {
      FirstAtInside(list[..|list| - 1], k);
      assert list[..|list| - 1][..FirstAt(list, k)] == list[..FirstAt(list, k)];
    } else {
      assert list == list[..|list| - 1] + [list[|list| - 1]];
    }
  }

  /** The new keywords stand in the merged list in the order in which the request first
      names them. */
  lemma {:induction false} MergedInOrder(existing: seq<Bytes>, added: seq<Bytes>)
    ensures var r := Merged(existing, added);
      forall i, j :: |existing| <= i < j < |r| ==> r[i] in added && r[j] in added && FirstAt(added, r[i]) < FirstAt(added, r[j])
    decreases |added|
  {
    if added != [] {
      var init := added[..|added| - 1];
      var last := added[|added| - 1];
      var before := Merged(existing, init);
      var r := Merged(existing, added);
      MergedInOrder(existing, init);
      MergedLast(existing, added);
      forall i, j | |existing| <= i < j < |r| ensures r[i] in added && r[j] in added && FirstAt(added, r[i]) < FirstAt(added, r[j]) {
        assert r[i] == before[i] && before[i] !in existing && before[i] in init;
        FirstAtInside(init, before[i]);
        if j < |before| {
          assert before[j] !in existing && before[j] in init;
        } else {
          assert r[j] == last && last !in init;
        }
      }
    }
  }

  lemma AddToExisting(s: Session, p: Port, requested: seq<Bytes>, d: Daemon)
    requires DaemonOk(d) && p in s.filterSubscriptions && NonEmpty(requested) != []
    ensures var merged := Merged(s.filterSubscriptions[p], NonEmpty(requested));
      AddFilterRx(s, p, requested, true, d)
        == Effect(s.(filterSubscriptions := s.filterSubscriptions[p := merged]), Done, [SetFilterKeywords(p, merged)])
  {
  }

  lemma AddAsFirst(s: Session, p: Port, requested: seq<Bytes>, d: Daemon)
    requires DaemonOk(d) && p !in s.filterSubscriptions && p in d.open && NonEmpty(requested) != []
    ensures AddFilterRx(s, p, requested, true, d).session
      == s.(filterSubscriptions := s.filterSubscriptions[p := NonEmpty(requested)])
  {
  }

  /** With a filter in place, two add_filter_rx requests are one with both lists. */
  lemma AddFilterTwice(s: Session, p: Port, a: seq<Bytes>, b: seq<Bytes>, d: Daemon)
    requires DaemonOk(d) && p in s.filterSubscriptions && NonEmpty(a) != [] && NonEmpty(b) != []
    ensures var first := AddFilterRx(s, p, a, true, d);
      first.reply == Done && AddFilterRx(first.session, p, b, true, d) == AddFilterRx(s, p, a + b, true, d)
  {
    var first := AddFilterRx(s, p, a, true, d).session;
    NonEmptyAppend(a, b);
    AddToExisting(s, p, a, d);
    AddToExisting(first, p, b, d);
    AddToExisting(s, p, a + b, d);
    MergedAppend(s.filterSubscriptions[p], NonEmpty(a), NonEmpty(b));
    Overwritten(s.filterSubscriptions, p, Merged(s.filterSubscriptions[p], NonEmpty(a)),
                Merged(s.filterSubscriptions[p], NonEmpty(a + b)));
  }

  lemma Overwritten(m: map<Port, seq<Bytes>>, p: Port, first: seq<Bytes>, second: seq<Bytes>)
    ensures m[p := first][p := second] == m[p := second]
  {
  }

  /** Without one they are if and only if the second list brings nothing twice: the first
      request registers its list as it is, duplicates included. */
  lemma FirstAddFilterIff(s: Session, p: Port, a: seq<Bytes>, b: seq<Bytes>, d: Daemon)
    requires DaemonOk(d) && p !in s.filterSubscriptions && p in d.open && NonEmpty(a) != [] && NonEmpty(b) != []
    ensures var first := AddFilterRx(s, p, a, true, d).session;
      AddFilterRx(first, p, b, true, d).session == AddFilterRx(s, p, a + b, true, d).session
      <==> AllNew(NonEmpty(a), NonEmpty(b))
  {
    var first := AddFilterRx(s, p, a, true, d).session;
    NonEmptyAppend(a, b);
    AddAsFirst(s, p, a, d);
    AddAsFirst(s, p, a + b, d);
    AddToExisting(first, p, b, d);
    MergedIsAppendIff(NonEmpty(a), NonEmpty(b));
    Overwritten(s.filterSubscriptions, p, NonEmpty(a), Merged(NonEmpty(a), NonEmpty(b)));
    assert AddFilterRx(first, p, b, true, d).session.filterSubscriptions[p] == Merged(NonEmpty(a), NonEmpty(b));
    assert AddFilterRx(s, p, a + b, true, d).session.filterSubscriptions[p] == NonEmpty(a) + NonEmpty(b);
  }
}
