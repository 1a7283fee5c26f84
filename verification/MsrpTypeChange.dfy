/**
Why a talker in AN is registered at its peer only if it sticks to one type. A talker that has announced a stream as
Advertise and then turns it into Failed can miss the peer's LeaveAll: the peer's frame has LeaveAll for Advertise, the
stream as the peer knows it, and LeaveAll for Failed, in that order, and the middle one turns the entry back.
*/
module MsrpTypeChange {
  import opened Mrp
  import opened MrpPdu
  import opened MrpParticipant
  import opened MsrpCodec
  import opened MsrpRoundTrip
  import opened MsrpStation
  import opened MsrpRuns
  import opened MsrpPointwise
  import opened MsrpDelivery
  import opened MsrpRoom
  import opened MsrpMissed
  import opened MsrpLink

  const FIRST: TalkListen := TalkListen([0, 0, 0, 0, 0, 0, 0, 1], [0, 0, 0, 0, 0, 1], 0, 0, 0, 0, 0, ZERO64, 0)
  const SECOND: TalkListen := TalkListen([0, 0, 0, 0, 0, 0, 0, 2], [0, 0, 0, 0, 0, 2], 0, 0, 0, 0, 0, ZERO64, 0)

  const STREAM: Key := TalkerOf(SECOND.streamId)

  lemma Consecutive()
    ensures Succ(TalkerAdv(FIRST)) == TalkerAdv(SECOND)
    ensures KeyOf(TalkerAdv(FIRST)) != KeyOf(TalkerAdv(SECOND))
  {
    assert FIRST.streamId[7] == 1 && SECOND.streamId[7] == 2;
    assert FIRST.streamId[7 := 2] == SECOND.streamId;
    assert FIRST.dest[5 := 2] == SECOND.dest;
  }

  function One(t: TalkListen, app: AppState, reg: RegState): Entry {
    Entry(TalkerAdv(t), 0, Att(app, reg))
  }

  /* ---------- what two advertised streams tell ---------- */

  lemma OnlyAdvertised(slots: seq<Slot>, lva: bool)
    requires forall s | s in slots :: s.value.TalkerAdv?
    ensures CarriedKinds(ORDER, slots, lva) ==
      LeaveAllFirst(AdvKind, lva) + HearSends(CarriedSends(AdvKind, slots, None))
      + (LeaveAllFirst(FailedKind, lva) + (LeaveAllFirst(ListenerKind, lva) + LeaveAllFirst(DomainKind, lva)))
  {
    hide CarriedSends, Flagged;
    NoneOfKind(FailedKind, slots);
    NoneOfKind(ListenerKind, slots);
    NoneOfKind(DomainKind, slots);
    assert Flagged(AdvKind, slots) == slots by { AdvertisedUnflagged(slots); }
    var failed, listeners, domains := ORDER[1..], ORDER[2..], ORDER[3..];
    assert failed[1..] == listeners && listeners[1..] == domains && domains[1..] == [];
    assert ORDER[0] == AdvKind && failed[0] == FailedKind && listeners[0] == ListenerKind && domains[0] == DomainKind;
    assert CarriedKinds(domains, slots, lva) == LeaveAllFirst(DomainKind, lva);
    assert CarriedKinds(listeners, slots, lva) == LeaveAllFirst(ListenerKind, lva) + CarriedKinds(domains, slots, lva);
    assert CarriedKinds(failed, slots, lva) == LeaveAllFirst(FailedKind, lva) + CarriedKinds(listeners, slots, lva);
  }

  lemma AdvertisedUnflagged(slots: seq<Slot>)
    ensures Flagged(AdvKind, slots) == slots
  {}

  lemma NoneOfKind(k: Kind, slots: seq<Slot>)
    requires k != AdvKind && forall s | s in slots :: s.value.TalkerAdv?
    ensures HearSends(CarriedSends(k, Flagged(k, slots), None)) == []
  {
    forall s | s in Flagged(k, slots) ensures KindOf(s.value) != k {
      var i :| 0 <= i < |slots| && Flagged(k, slots)[i] == s;
      assert slots[i] in slots;
    }
    NothingOwedCarriesNothing(k, Flagged(k, slots));
  }

  /** The talker's first transmission. */
  lemma ToldFirst(s: Station)
    requires s.entries == [One(SECOND, VN, MT)]
    ensures Told(s, false) == [Hear(TalkerAdv(SECOND), 0, 0)]
  {
    hide ORDER;
    var slots := Slots(s.entries, Tx);
    var slot := Slot(TalkerAdv(SECOND), 0, true, false, Some(0));
    assert slots == [slot];
    OnlyAdvertised(slots, false);
    assert CarriedSends(AdvKind, slots, None) == [SentOf(slot)];
    assert HearSends([SentOf(slot)]) == [Hear(TalkerAdv(SECOND), 0, 0)];
  }

  /** The observer's LeaveAll, with its own stream and, riding behind it, the talker's. */
  lemma ToldLater(s: Station)
    requires s.entries == [One(FIRST, VN, MT), One(SECOND, VO, IN)]
    ensures Told(s, true) ==
      [HearLeaveAll(AdvKind), Hear(TalkerAdv(FIRST), 0, 0)]
      + ([Hear(TalkerAdv(SECOND), 4, 0)]
      + [HearLeaveAll(FailedKind), HearLeaveAll(ListenerKind), HearLeaveAll(DomainKind)])
  {
    Consecutive();
    var slots := Slots(s.entries, TxLA);
    var a, b := Slot(TalkerAdv(FIRST), 0, true, false, Some(0)), Slot(TalkerAdv(SECOND), 0, true, true, Some(4));
    assert slots == [a, b];
    OnlyAdvertised(slots, true);
    TwoCarried(a, b);
    var ha, hb := Hear(TalkerAdv(FIRST), 0, 0), Hear(TalkerAdv(SECOND), 4, 0);
    assert [HearLeaveAll(AdvKind)] + [ha, hb] == [HearLeaveAll(AdvKind), ha] + [hb];
  }

  lemma TwoCarried(a: Slot, b: Slot)
    requires a == Slot(TalkerAdv(FIRST), 0, true, false, Some(0))
    requires b == Slot(TalkerAdv(SECOND), 0, true, true, Some(4))
    requires Succ(TalkerAdv(FIRST)) == TalkerAdv(SECOND)
    ensures HearSends(CarriedSends(AdvKind, [a, b], None))
         == [Hear(TalkerAdv(FIRST), 0, 0), Hear(TalkerAdv(SECOND), 4, 0)]
  {
    hide Succ;
    assert [a, b][1..] == [b];
    assert CarriedSends(AdvKind, [b], Some(Succ(a.value))) == [SentOf(b)];
    assert CarriedSends(AdvKind, [a, b], None) == [SentOf(a), SentOf(b)];
    assert [SentOf(a), SentOf(b)][1..] == [SentOf(b)];
    assert HearSends([SentOf(b)]) == [Hear(TalkerAdv(SECOND), 4, 0)];
  }

  /* ---------- the five steps ---------- */

  lemma FirstDeclaration(s: Station, now: int, t: TalkListen)
    requires s.entries == []
    ensures Step(s, now, Attr(New, TalkerAdv(t), 0)).next.entries == [One(t, VN, MT)]
  {
    hide Shape;
    var e := Entry(TalkerAdv(t), 0, FRESH);
    assert Added([], e) == [e];
    assert Current([], TalkerAdv(t), 0) == ([e], 0);
  }

  lemma FirstHeard(s: Station, now: int, t: TalkListen)
    requires s.entries == []
    ensures Step(s, now, Attr(RNew, TalkerAdv(t), 0)).next.entries == [One(t, VO, IN)]
  {
    hide Shape;
    var e := Entry(TalkerAdv(t), 0, FRESH);
    assert Added([], e) == [e];
    assert Current([], TalkerAdv(t), 0) == ([e], 0);
  }

  lemma SecondDeclaration(s: Station, now: int)
    requires s.entries == [One(SECOND, VO, IN)]
    ensures Step(s, now, Attr(New, TalkerAdv(FIRST), 0)).next.entries == [One(FIRST, VN, MT), One(SECOND, VO, IN)]
  {
    Consecutive();
    var e, f := Entry(TalkerAdv(FIRST), 0, FRESH), One(SECOND, VO, IN);
    Ranks();
    assert Shapes([f])[0] == Shape(f.value);
    assert Added([f], e) == [e, f];
    assert IndexOf([f], KeyOf(e.value)) == 1;
    assert Current([f], e.value, 0) == ([e, f], 0);
  }

  lemma Ranks()
    ensures Shape(TalkerAdv(SECOND)).rank >= Shape(TalkerAdv(FIRST)).rank
    ensures Shape(TalkerAdv(SECOND)).kind == Shape(TalkerAdv(FIRST)).kind
  {
    assert FIRST.streamId[..7] == SECOND.streamId[..7];
  }

  /** The talker turns the stream into Failed while it is in AN. */
  lemma Retype(s: Station, now: int)
    requires s.entries == [One(SECOND, AN, MT)]
    ensures var o := Find(Step(s, now, Attr(Join, TalkerFailed(SECOND), 0)).next.entries, STREAM);
      o.Some? && o.value.att.app == AN && o.value.value.TalkerFailed?
  {
    assert Unique(s.entries);
    DeclarationFound(s, now, Join, TalkerFailed(SECOND), 0);
    assert Find(s.entries, STREAM) == Some(One(SECOND, AN, MT));
  }

  /* ---------- the run ---------- */

  const A: seq<byte> := [2, 0, 0, 0, 0, 1]
  const B: seq<byte> := [2, 0, 0, 0, 0, 2]

  /** A network some run leads to in which the observer asks for nothing about STREAM. */
  ghost predicate Reachable(n: Net) {
    exists acts :: Watched(Net(Init(A), Init(B)), acts, STREAM) && NetRun(Net(Init(A), Init(B)), acts) == n
  }

  lemma Start()
    ensures Reachable(Net(Init(A), Init(B)))
  {
    assert Watched(Net(Init(A), Init(B)), [], STREAM) && NetRun(Net(Init(A), Init(B)), []) == Net(Init(A), Init(B));
  }

  lemma Then(n: Net, a: Act)
    requires Reachable(n) && ActAllowed(a, STREAM) && Small(n)
    ensures Reachable(NetStep(n, a))
  {
    hide NetStep, ActAllowed, ActFits, Small;
    SmallFits(n, a);
    var n0 := Net(Init(A), Init(B));
    var acts :| Watched(n0, acts, STREAM) && NetRun(n0, acts) == n;
    var more := acts + [a];
    assert more[..|more| - 1] == acts;
    forall k | 0 <= k < |more| ensures ActAllowed(more[k], STREAM) && ActFits(NetRun(n0, more[..k]), more[k]) {
      if k < |acts| {
        assert more[..k] == acts[..k] && more[k] == acts[k];
      }
    }
    assert Watched(n0, more, STREAM) && NetRun(n0, more) == NetStep(n, a);
  }

  lemma Declared() returns (n: Net)
    ensures Reachable(n) && |n.talker.addr| == 6 && |n.observer.addr| == 6
    ensures n.talker.entries == [One(SECOND, VN, MT)] && n.observer.entries == []
  {
    hide Reachable, AttrStep, One;
    var n0 := Net(Init(A), Init(B));
    Start();
    var a1 := Act(true, 0, Attr(New, TalkerAdv(SECOND), 0));
    Then(n0, a1);
    FirstDeclaration(n0.talker, 0, SECOND);
    QuietIsSilent(n0.talker, 0, a1.input);
    StepAddr(n0.talker, 0, a1.input);
    n := NetStep(n0, a1);
  }

  /** What hearing the one event leaves the observer with. */
  lemma HeardFirst(r: Station, now: int, acts: seq<Action>)
    requires r.entries == [] && acts == [Hear(TalkerAdv(SECOND), 0, 0)] && Dispatchable(acts)
    ensures Hears(r, now, acts).entries == [One(SECOND, VO, IN)] && Hears(r, now, acts).addr == r.addr
  {
    hide Step, One;
    HearsFirst(r, now, acts);
    FirstHeard(r, now, SECOND);
    assert Unique(r.entries);
    HearsUnique(r, now, acts);
  }

  /** Transmitted and heard. */
  lemma Announced() returns (n: Net)
    ensures Reachable(n) && |n.talker.addr| == 6 && |n.observer.addr| == 6
    ensures n.talker.entries == [One(SECOND, AN, MT)] && n.observer.entries == [One(SECOND, VO, IN)]
  {
    hide Reachable, TxPdu, Dispatchable, Told, Roomy, Slots, Hears;
    var n1 := Declared();
    var a2 := Act(true, 0, TxOpportunity);
    Then(n1, a2);
    SmallFits(n1, a2);
    DeliveryHears(n1.talker, n1.observer, 0, false);
    ToldFirst(n1.talker);
    HeardFirst(n1.observer, 0, Told(n1.talker, false));
    n := NetStep(n1, a2);
    assert n.talker.entries == [One(SECOND, AN, MT)];
  }

  /** The talker has turned the stream into Failed, and the observer advertises the one before it. */
  lemma TurnedFailed() returns (n: Net)
    ensures Reachable(n) && |n.talker.addr| == 6 && |n.observer.addr| == 6
    ensures Unique(n.talker.entries) && |n.talker.entries| <= 2
    ensures InAnAs(Find(n.talker.entries, STREAM), STREAM, FailedKind)
    ensures n.observer.entries == [One(FIRST, VN, MT), One(SECOND, VO, IN)]
  {
    hide Reachable, TxPdu, AttrStep, Find, One;
    var n2 := Announced();
    var a3 := Act(true, 0, Attr(Join, TalkerFailed(SECOND), 0));
    var a4 := Act(false, 0, Attr(New, TalkerAdv(FIRST), 0));
    Then(n2, a3);
    Retype(n2.talker, 0);
    StepUnique(n2.talker, 0, a3.input);
    RetypeLength(n2.talker, 0);
    StepAddr(n2.talker, 0, a3.input);
    QuietIsSilent(n2.talker, 0, a3.input);
    FindHasKey(Step(n2.talker, 0, a3.input).next.entries, STREAM);
    var n3 := NetStep(n2, a3);
    Consecutive();
    Then(n3, a4);
    SecondDeclaration(n3.observer, 0);
    StepAddr(n3.observer, 0, a4.input);
    QuietIsSilent(n3.observer, 0, a4.input);
    n := NetStep(n3, a4);
  }

  lemma RetypeLength(s: Station, now: int)
    requires s.entries == [One(SECOND, AN, MT)]
    ensures |Step(s, now, Attr(Join, TalkerFailed(SECOND), 0)).next.entries| <= 2
  {
    hide Handled, Reclaimable, Merged, HandledNotify;
  }

  /**
  Two stations, no delay, PDUs with room, an observer that asks for nothing: and yet its LeaveAll can miss the talker,
  which is then in AN for a stream that the observer does not register.
  */
  lemma TypeChangeBreaksAnnounced() returns (n: Net)
    ensures Reachable(n) && InAn(Find(n.talker.entries, STREAM)) && !Registered(Find(n.observer.entries, STREAM))
  {
    hide Reachable, Told, Roomy, Slots, Find, Unique, NetStep;
    var n4 := TurnedFailed();
    var a5 := Act(false, 0, LeaveAllExpiry);
    Then(n4, a5);
    SmallFits(n4, a5);
    ToldLater(n4.observer);
    assert Hear(TalkerAdv(SECOND), 4, 0) in Told(n4.observer, true);
    Consecutive();
    ObserverUnique(n4.observer);
    MissingIsUnsafe(n4, a5, STREAM);
    n := NetStep(n4, a5);
  }

  lemma ObserverUnique(s: Station)
    requires s.entries == [One(FIRST, VN, MT), One(SECOND, VO, IN)]
    ensures Unique(s.entries)
  {
    Consecutive();
  }
}
