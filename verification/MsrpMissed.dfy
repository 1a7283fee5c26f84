/**
A talker that has announced a stream (AN) and hears the peer's LeaveAll: exactly when it is still in AN afterwards. The
LeaveAll of its type takes it to VN, unless its entry has changed its type by then: the frame has LeaveAll for
Advertise, the advertised streams, and only then LeaveAll for Failed.
*/
module MsrpMissed {
  import opened Mrp
  import opened MrpPdu
  import opened MrpParticipant
  import opened MsrpCodec
  import opened MsrpRoundTrip
  import opened MsrpStation
  import opened MsrpRuns
  import opened MsrpPointwise
  import opened MsrpDelivery
  import opened MsrpRoom

  predicate InAn(o: Option<Entry>) {
    o.Some? && o.value.att.app == AN
  }

  predicate InAnAs(o: Option<Entry>, key: Key, k: Kind) {
    InAn(o) && KeyOf(o.value.value) == key && KindOf(o.value.value) == k
  }

  /** The frame of a LeaveAll expiry carries the stream as Advertise. */
  ghost predicate CarriesAdvertise(s: Station, key: Key) {
    exists a: Action | a in Told(s, true) :: a.Hear? && KeyOf(a.value) == key && a.value.TalkerAdv?
  }

  /* ---------- a LeaveAll frame says New, Join or Mt ---------- */

  lemma LeaveAllCodes(e: Entry)
    ensures CodeOf(SlotOf(e, TxLA)) in {0, 3, 4}
  {}

  lemma ToldCode(s: Station, a: Action)
    requires Unique(s.entries) && a in Told(s, true) && a.Hear?
    ensures a.code in {0, 3, 4}
  {
    hide Told, Unique, SlotOf, KeyOf;
    var e := ToldAbout(s, true, a);
    LeaveAllCodes(e);
  }

  /** None of them moves an applicant into AN or out of it, but the entry takes the declared type. */
  lemma AnnouncedHears(o: Option<Entry>, c: nat, v: Value, sub: Sub, known: bool)
    requires c in {0, 3, 4}
    ensures !InAn(o) ==> !InAn(LocalDeclared(o, CodeEvent(c), v, sub, known))
    ensures InAn(o) && KeyOf(o.value.value) == KeyOf(v) ==>
      InAnAs(LocalDeclared(o, CodeEvent(c), v, sub, known), KeyOf(v), KindOf(v))
  {
    hide Merged, KeyOf, KindOf, NextReg, RegEvent;
    if o.Some? {
      MergedApp(o.value, v, sub, known);
      if KeyOf(o.value.value) == KeyOf(v) {
        MergeKeepsKey(o.value, v, sub, known);
        MergedKind(o.value, v, sub, known);
      }
    }
  }

  lemma MergedApp(e: Entry, v: Value, sub: Sub, known: bool)
    ensures Merged(e, v, sub, known).att.app == e.att.app
  {}

  lemma MergedKind(e: Entry, v: Value, sub: Sub, known: bool)
    requires KeyOf(e.value) == KeyOf(v)
    ensures KindOf(Merged(e, v, sub, known).value) == KindOf(v)
  {}

  lemma NobodyAnnounced(o: Option<Entry>, c: Code, v: Value, sub: Sub, known: bool)
    requires !InAn(o)
    ensures !InAn(LocalDeclared(o, CodeEvent(c), v, sub, known))
  {}

  /** Nobody gets into AN by hearing. */
  lemma NotAnStays(acts: seq<Action>, key: Key)
    requires Dispatchable(acts)
    ensures Stable(o => !InAn(o), acts, key)
  {
    hide LocalDeclared, KeyOf, CodeEvent;
    forall a: Action, o: Option<Entry>, known: bool | a in acts && !InAn(o)
      ensures !InAn(LocalStep(o, InputOf(a), key, known))
    {
      if a.Hear? {
        NobodyAnnounced(o, a.code, a.value, if a.value.Listener? then a.sub else 0, known);
      }
    }
  }

  /* ---------- the LeaveAll is heard ---------- */

  /** In AN only as `k`. */
  predicate AnOnlyAs(o: Option<Entry>, key: Key, k: Kind) {
    InAn(o) ==> InAnAs(o, key, k)
  }

  /** If the frame has the key as `k` only, that is what it stays. */
  lemma SameTypeStays(s: Station, key: Key, k: Kind)
    requires Unique(s.entries) && Dispatchable(Told(s, true))
    requires forall a: Action | a in Told(s, true) && a.Hear? && KeyOf(a.value) == key :: KindOf(a.value) == k
    ensures Stable(o => AnOnlyAs(o, key, k), Told(s, true), key)
  {
    hide Told, Unique, LocalDeclared, KeyOf, CodeEvent, KindOf;
    forall a: Action, o: Option<Entry>, known: bool | a in Told(s, true) && AnOnlyAs(o, key, k)
      ensures AnOnlyAs(LocalStep(o, InputOf(a), key, known), key, k)
    {
      if a.Hear? && KeyOf(a.value) == key {
        ToldCode(s, a);
        AnnouncedHears(o, a.code, a.value, if a.value.Listener? then a.sub else 0, known);
      }
    }
  }

  lemma SweptLeavesAn(o: Option<Entry>, key: Key, k: Kind)
    requires AnOnlyAs(o, key, k)
    ensures !InAn(LocalSwept(o, RLA, Some(k)))
  {}

  lemma HeardAsItIs(s: Station, r: Station, now: int, key: Key, k: Kind)
    requires Unique(s.entries) && Unique(r.entries) && Dispatchable(Told(s, true))
    requires forall a: Action | a in Told(s, true) && a.Hear? && KeyOf(a.value) == key :: KindOf(a.value) == k
    requires AnOnlyAs(Find(r.entries, key), key, k)
    ensures !InAn(Find(Hears(r, now, Told(s, true)).entries, key))
  {
    hide Told, Unique, Find, Hears, InAn, AnOnlyAs, Stable, LocalSwept, KeyOf, KindOf, Dispatchable;
    ToldLeaveAll(s, k);
    SameTypeStays(s, key, k);
    NotAnStays(Told(s, true), key);
    forall o: Option<Entry> | AnOnlyAs(o, key, k) ensures !InAn(LocalSwept(o, RLA, Some(k))) {
      SweptLeavesAn(o, key, k);
    }
    LeaveAllSettles(r, now, Told(s, true), key, k, o => AnOnlyAs(o, key, k), o => !InAn(o));
  }

  /** LeaveAll for Advertise comes first of all. */
  lemma AdvertiseFirst(s: Station)
    ensures Told(s, true) != [] && Told(s, true)[0] == HearLeaveAll(AdvKind)
  {
    hide CarriedSends, HearSends, Flagged;
    assert ORDER[0] == AdvKind;
  }

  lemma AdvertisedHears(s: Station, r: Station, now: int, key: Key)
    requires Unique(s.entries) && Unique(r.entries) && Dispatchable(Told(s, true))
    requires AnOnlyAs(Find(r.entries, key), key, AdvKind)
    ensures !InAn(Find(Hears(r, now, Told(s, true)).entries, key))
  {
    hide Told, Unique, Find, Hears, InAn, AnOnlyAs, Stable, LocalSwept, KeyOf, KindOf, Hear1;
    AdvertiseFirst(s);
    var acts := Told(s, true);
    HearsFirst(r, now, acts);
    assert acts[0] in [acts[0]];
    var _ := HearIsLocal(r, now, acts[0], key);
    SweptLeavesAn(Find(r.entries, key), key, AdvKind);
    NotAnStays(Told(s, true), key);
    assert acts[0..] == acts;
    DispatchableParts(acts[..1], acts[1..]) by { assert acts[..1] + acts[1..] == acts; }
    StableParts(o => !InAn(o), acts, key, 1);
    HearsKeep(Hear1(r, now, acts[0]), now, acts[1..], key, o => !InAn(o));
  }

  /* ---------- the LeaveAll is missed ---------- */

  /** What the frame says for Advertise, but for the LeaveAll, and what it says after that. */
  function Advertised(s: Station): seq<Action> {
    var slots := Slots(s.entries, TxLA);
    HearSends(CarriedSends(AdvKind, Flagged(AdvKind, slots), None))
  }

  function Remaining(s: Station): seq<Action> {
    CarriedKinds(ORDER[1..], Slots(s.entries, TxLA), true)
  }

  lemma ToldParts(s: Station)
    ensures Told(s, true) == [HearLeaveAll(AdvKind)] + (Advertised(s) + Remaining(s))
  {
    hide CarriedSends, HearSends, Flagged;
    assert ORDER[0] == AdvKind;
    Associate([HearLeaveAll(AdvKind)], Advertised(s), Remaining(s));
  }

  lemma AdvertisedIs(s: Station, a: Action)
    requires a in Advertised(s)
    ensures a.Hear? && KindOf(a.value) == AdvKind
  {
    hide CarriedSends, HearSends, Flagged, Wire, KindOf;
    var j := SendsFrom(AdvKind, Slots(s.entries, TxLA), None, a);
    WireKeepsKey(Slots(s.entries, TxLA)[j].value);
  }

  lemma RemainingIs(s: Station, a: Action)
    requires a in Remaining(s)
    ensures if a.Hear? then KindOf(a.value) != AdvKind else a.kind != AdvKind
  {
    hide CarriedKinds, Wire, KindOf;
    var kinds := ORDER[1..];
    assert AdvKind !in kinds;
    var j := KindsFrom(kinds, Slots(s.entries, TxLA), true, a);
    if a.Hear? {
      WireKeepsKey(Slots(s.entries, TxLA)[j].value);
    }
  }

  /** All the frame says about a key has one type. */
  lemma OneType(s: Station, key: Key, a: Action, b: Action)
    requires Unique(s.entries) && a in Told(s, true) && b in Told(s, true)
    requires a.Hear? && b.Hear? && KeyOf(a.value) == key && KeyOf(b.value) == key
    ensures KindOf(a.value) == KindOf(b.value)
  {
    hide Told, Unique, SlotOf, KeyOf, KindOf, Find;
    var e := ToldAbout(s, true, a);
    var f := ToldAbout(s, true, b);
  }

  predicate AnOf(o: Option<Entry>, key: Key) {
    InAn(o) && KeyOf(o.value.value) == key
  }

  lemma AdvertisedKeeps(s: Station, key: Key)
    requires Unique(s.entries) && Dispatchable(Advertised(s))
    ensures Stable(o => AnOf(o, key), Advertised(s), key)
    ensures Stable(o => InAnAs(o, key, AdvKind), Advertised(s), key)
  {
    hide Advertised, Unique, LocalDeclared, KeyOf, KindOf, CodeEvent, Told, Remaining;
    forall a: Action, o: Option<Entry>, known: bool | a in Advertised(s) && AnOf(o, key)
      ensures AnOf(LocalStep(o, InputOf(a), key, known), key)
      ensures InAnAs(o, key, AdvKind) ==> InAnAs(LocalStep(o, InputOf(a), key, known), key, AdvKind)
    {
      AdvertisedIs(s, a);
      ToldParts(s);
      ToldCode(s, a);
      if KeyOf(a.value) == key {
        AnnouncedHears(o, a.code, a.value, if a.value.Listener? then a.sub else 0, known);
      }
    }
  }

  lemma RemainingKeeps(s: Station, key: Key)
    requires Unique(s.entries) && Dispatchable(Remaining(s)) && CarriesAdvertise(s, key)
    ensures Stable(o => InAnAs(o, key, AdvKind), Remaining(s), key)
  {
    hide Advertised, Unique, LocalDeclared, KeyOf, CodeEvent, Told, Remaining;
    var x: Action :| x in Told(s, true) && x.Hear? && KeyOf(x.value) == key && x.value.TalkerAdv?;
    forall a: Action, o: Option<Entry>, known: bool | a in Remaining(s) && InAnAs(o, key, AdvKind)
      ensures InAnAs(LocalStep(o, InputOf(a), key, known), key, AdvKind)
    {
      RemainingIs(s, a);
      ToldParts(s);
      if a.Hear? && KeyOf(a.value) == key {
        OneType(s, key, a, x);
      }
    }
  }

  lemma TurnedBack(s: Station, r: Station, now: int, key: Key)
    requires Unique(s.entries) && Unique(r.entries) && Dispatchable(Told(s, true))
    requires CarriesAdvertise(s, key) && InAnAs(Find(r.entries, key), key, FailedKind)
    ensures InAnAs(Find(Hears(r, now, Told(s, true)).entries, key), key, AdvKind)
  {
    hide Told, Advertised, Remaining, Unique, Find, Hears, Stable, Hear1, KeyOf, KindOf, Dispatchable, LocalDeclared;
    var rest := Advertised(s) + Remaining(s);
    ToldParts(s);
    DispatchableParts([HearLeaveAll(AdvKind)], rest);
    DispatchableParts(Advertised(s), Remaining(s));
    HearsFirst(r, now, Told(s, true));
    assert Told(s, true)[1..] == rest;
    assert HearLeaveAll(AdvKind) in [HearLeaveAll(AdvKind)];
    var _ := HearIsLocal(r, now, HearLeaveAll(AdvKind), key);
    var r1 := Hear1(r, now, HearLeaveAll(AdvKind));
    assert InAnAs(Find(r1.entries, key), key, FailedKind);
    HearsConcat(r1, now, Advertised(s), Remaining(s));
    HearsUnique(r1, now, Advertised(s));
    TurnsInto(s, r1, now, key);
    RemainingKeeps(s, key);
    HearsKeep(Hears(r1, now, Advertised(s)), now, Remaining(s), key, o => InAnAs(o, key, AdvKind));
  }

  /** The advertised part of the frame turns the entry into Advertise. */
  lemma TurnsInto(s: Station, r: Station, now: int, key: Key)
    requires Unique(s.entries) && Unique(r.entries) && Dispatchable(Advertised(s))
    requires CarriesAdvertise(s, key) && AnOf(Find(r.entries, key), key)
    ensures InAnAs(Find(Hears(r, now, Advertised(s)).entries, key), key, AdvKind)
  {
    hide Told, Advertised, Remaining, Unique, Find, Hears, Stable, LocalDeclared;
    var x: Action :| x in Told(s, true) && x.Hear? && KeyOf(x.value) == key && x.value.TalkerAdv?;
    ToldParts(s);
    if x in Remaining(s) {
      RemainingIs(s, x);
    }
    assert x in Advertised(s);
    ToldCode(s, x);
    AdvertisedKeeps(s, key);
    forall o: Option<Entry>, known: bool | AnOf(o, key)
      ensures InAnAs(LocalStep(o, InputOf(x), key, known), key, AdvKind) {
      AnnouncedHears(o, x.code, x.value, 0, known);
    }
    EventSettles(r, now, Advertised(s), key, x, o => AnOf(o, key), o => InAnAs(o, key, AdvKind));
  }

  /* ---------- exactly ---------- */

  /**
  A talker in AN that hears the peer's LeaveAll frame is still in AN afterwards if and only if its entry is Failed and
  the frame carries the stream as Advertise.
  */
  lemma {:induction false} MissesExactly(s: Station, r: Station, now: int, key: Key)
    requires Unique(s.entries) && Unique(r.entries) && |s.addr| == 6 && Roomy(Slots(s.entries, TxLA), true)
    requires InAn(Find(r.entries, key))
    ensures InAn(Find(Delivery(r, now, Step(s, now, LeaveAllExpiry).frame).entries, key))
        <==> Find(r.entries, key).value.value.TalkerFailed? && CarriesAdvertise(s, key)
  {
    hide Told, Unique, Find, Hears, Roomy, TxPdu, Delivery, Dispatchable, Slots, SweepKind, CarriesAdvertise;
    DeliveryHears(s, r, now, true);
    FindHasKey(r.entries, key);
    var v := Find(r.entries, key).value.value;
    if v.TalkerFailed? && CarriesAdvertise(s, key) {
      TurnedBack(s, r, now, key);
    } else if v.TalkerAdv? {
      AdvertisedHears(s, r, now, key);
    } else {
      NotAdvertised(s, v);
      HeardAsItIs(s, r, now, key, KindOf(v));
    }
  }

  /** A frame that does not carry the stream as Advertise has nothing but its own type for it. */
  lemma NotAdvertised(s: Station, v: Value)
    requires v.TalkerFailed? ==> !CarriesAdvertise(s, KeyOf(v))
    requires !v.TalkerAdv?
    ensures forall a: Action | a in Told(s, true) && a.Hear? && KeyOf(a.value) == KeyOf(v) ::
      KindOf(a.value) == KindOf(v)
  {
    hide Told;
  }
}
