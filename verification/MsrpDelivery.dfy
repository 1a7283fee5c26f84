/**
One MSRP transmission from database to database, through the bytes: what the frame tells, when a declaration is
registered by it, and what a LeaveAll leaves registered.
*/
module MsrpDelivery {
  import opened Mrp
  import opened MrpPdu
  import opened MrpParticipant
  import opened MsrpCodec
  import opened MsrpRoundTrip
  import opened MsrpStation
  import opened MsrpRuns
  import opened MsrpPointwise
  import opened MsrpRoom

  /* ---------- what a transmission makes heard ---------- */

  function SentOf(s: Slot): Sent {
    Sent(Wire(s.value), CodeOf(s), WireSub(s))
  }

  lemma {:induction false} CarriedFrom(k: Kind, slots: seq<Slot>, due: Option<Value>, x: Sent) returns (j: nat)
    requires x in CarriedSends(k, slots, due)
    ensures j < |slots| && KindOf(slots[j].value) == k && x == SentOf(slots[j])
  {
    hide Rides, Succ, Wire, CodeOf;
    if Carried(k, slots[0], due) && x == SentOf(slots[0]) {
      j := 0;
    } else {
      var i := CarriedFrom(k, slots[1..], if Carried(k, slots[0], due) then Some(Succ(slots[0].value)) else None, x);
      j := i + 1;
    }
  }

  lemma {:induction false} CarriedSplit(k: Kind, slots: seq<Slot>, due: Option<Value>, j: nat) returns (a: seq<Sent>)
    requires j < |slots| && KindOf(slots[j].value) == k && slots[j].tx && !slots[j].optional
    ensures CarriedSends(k, slots, due)
         == a + ([SentOf(slots[j])] + CarriedSends(k, slots[j + 1..], Some(Succ(slots[j].value))))
  {
    hide Rides, Succ, Wire, CodeOf;
    if j == 0 {
      a := [];
    } else {
      var carried := Carried(k, slots[0], due);
      var rest := CarriedSplit(k, slots[1..], if carried then Some(Succ(slots[0].value)) else None, j - 1);
      assert slots[1..][j..] == slots[j + 1..];
      a := (if carried then [SentOf(slots[0])] else []) + rest;
    }
  }

  lemma {:induction false} HeardFrom(sends: seq<Sent>, a: Action)
    requires a in HearSends(sends)
    ensures a.Hear? && Sent(a.value, a.code, a.sub) in sends && !(a.value.Listener? && a.sub == 0)
  {
    if a !in HearSend(sends[0]) {
      HeardFrom(sends[1..], a);
    }
  }

  /** The event comes from the attribute at `j`. */
  predicate FromSlot(a: Action, slots: seq<Slot>, j: nat) {
    && a.Hear? && j < |slots| && a == Hear(Wire(slots[j].value), CodeOf(slots[j]), WireSub(slots[j]))
    && !(a.value.Listener? && a.sub == 0)
  }

  lemma SendsFrom(k: Kind, slots: seq<Slot>, due: Option<Value>, a: Action) returns (j: nat)
    requires a in HearSends(CarriedSends(k, Flagged(k, slots), due))
    ensures FromSlot(a, slots, j) && KindOf(slots[j].value) == k
  {
    hide CarriedSends, HearSends, Wire;
    HeardFrom(CarriedSends(k, Flagged(k, slots), due), a);
    j := CarriedFrom(k, Flagged(k, slots), due, Sent(a.value, a.code, a.sub));
  }

  lemma {:induction false} KindsFrom(kinds: seq<Kind>, slots: seq<Slot>, lva: bool, a: Action) returns (j: nat)
    requires a in CarriedKinds(kinds, slots, lva)
    ensures if a.HearLeaveAll? then lva && a.kind in kinds
            else FromSlot(a, slots, j) && KindOf(slots[j].value) in kinds
  {
    hide CarriedSends, HearSends, Flagged, FromSlot;
    j := 0;
    if a in HearSends(CarriedSends(kinds[0], Flagged(kinds[0], slots), None)) {
      HeardFrom(CarriedSends(kinds[0], Flagged(kinds[0], slots), None), a);
      j := SendsFrom(kinds[0], slots, None, a);
    } else if a !in LeaveAllFirst(kinds[0], lva) {
      j := KindsFrom(kinds[1..], slots, lva, a);
    }
  }

  lemma {:induction false} KindsLeaveAll(kinds: seq<Kind>, slots: seq<Slot>, k: Kind)
    requires k in kinds
    ensures HearLeaveAll(k) in CarriedKinds(kinds, slots, true)
  {
    hide CarriedSends, HearSends, Flagged;
    if k == kinds[0] {
      assert HearLeaveAll(k) in LeaveAllFirst(k, true);
    } else {
      KindsLeaveAll(kinds[1..], slots, k);
    }
  }

  lemma KindsDispatchable(kinds: seq<Kind>, slots: seq<Slot>, lva: bool)
    ensures Dispatchable(CarriedKinds(kinds, slots, lva))
  {
    hide CarriedKinds;
    var acts := CarriedKinds(kinds, slots, lva);
    forall a: Action | a in acts && a.Hear? ensures a.code < 6 && (a.value.Listener? ==> 0 < a.sub < 4) {
      var j := KindsFrom(kinds, slots, lva, a);
    }
  }

  ghost predicate Distinct(slots: seq<Slot>) {
    forall i, j | 0 <= i < j < |slots| :: KeyOf(slots[i].value) != KeyOf(slots[j].value)
  }

  lemma SlotsDistinct(es: seq<Entry>, ev: Event)
    requires Unique(es)
    ensures Distinct(Slots(es, ev))
  {
    forall i, j | 0 <= i < j < |es| ensures KeyOf(Slots(es, ev)[i].value) != KeyOf(Slots(es, ev)[j].value) {
      assert KeyOf(es[i].value) != KeyOf(es[j].value);
    }
  }

  lemma WireKeepsKey(v: Value)
    ensures KeyOf(Wire(v)) == KeyOf(v) && KindOf(Wire(v)) == KindOf(v)
  {}

  /** Nothing in `acts` is about `v`: no event for its key, no LeaveAll for its type. */
  ghost predicate NoneAbout(acts: seq<Action>, v: Value) {
    forall a: Action | a in acts :: if a.Hear? then KeyOf(a.value) != KeyOf(v) else a.kind != KindOf(v)
  }

  /** The attribute at `j` must be sent, and its event is not one that receivers pass over. */
  predicate MustBeHeard(slots: seq<Slot>, j: nat) {
    j < |slots| && slots[j].tx && !slots[j].optional && !(slots[j].value.Listener? && slots[j].sub == 0)
  }

  lemma BehindDiffers(k: Kind, slots: seq<Slot>, j: nat, i: nat)
    requires Distinct(slots) && j + 1 + i < |slots|
    ensures KeyOf(Flagged(k, slots)[j + 1..][i].value) != KeyOf(slots[j].value)
  {
    hide KeyOf;
    assert Flagged(k, slots)[j + 1..][i] == Flagged(k, slots)[j + 1 + i];
  }

  lemma BehindUnrelated(k: Kind, slots: seq<Slot>, j: nat)
    requires MustBeHeard(slots, j) && KindOf(slots[j].value) == k && Distinct(slots)
    ensures NoneAbout(HearSends(CarriedSends(k, Flagged(k, slots)[j + 1..], Some(Succ(slots[j].value)))),
                      slots[j].value)
  {
    hide CarriedSends, HearSends, Wire, KeyOf, Succ, KindOf, Flagged, Distinct;
    var rest := Flagged(k, slots)[j + 1..];
    var sends := CarriedSends(k, rest, Some(Succ(slots[j].value)));
    forall a: Action | a in HearSends(sends) ensures a.Hear? && KeyOf(a.value) != KeyOf(slots[j].value) {
      HeardFrom(sends, a);
      var i := CarriedFrom(k, rest, Some(Succ(slots[j].value)), Sent(a.value, a.code, a.sub));
      WireKeepsKey(rest[i].value);
      BehindDiffers(k, slots, j, i);
    }
  }

  lemma LaterUnrelated(kinds: seq<Kind>, slots: seq<Slot>, lva: bool, j: nat)
    requires j < |slots| && KindOf(slots[j].value) !in kinds && Distinct(slots)
    ensures NoneAbout(CarriedKinds(kinds, slots, lva), slots[j].value)
  {
    hide CarriedKinds, Wire, KeyOf, KindOf;
    var acts := CarriedKinds(kinds, slots, lva);
    forall a: Action | a in acts
      ensures if a.Hear? then KeyOf(a.value) != KeyOf(slots[j].value) else a.kind != KindOf(slots[j].value) {
      var i := KindsFrom(kinds, slots, lva, a);
      if a.Hear? {
        WireKeepsKey(slots[i].value);
      }
    }
  }

  lemma NoneAboutBoth(a: seq<Action>, b: seq<Action>, v: Value)
    requires NoneAbout(a, v) && NoneAbout(b, v)
    ensures NoneAbout(a + b, v)
  {}

  /** What must be heard of an attribute is heard once, and nothing later in the frame is about it. */
  lemma {:induction false} HeardOnce(kinds: seq<Kind>, slots: seq<Slot>, lva: bool, j: nat)
    returns (before: seq<Action>, after: seq<Action>)
    requires MustBeHeard(slots, j) && KindOf(slots[j].value) in kinds && Fresh(kinds, {}) && Distinct(slots)
    ensures CarriedKinds(kinds, slots, lva)
         == before + ([Hear(Wire(slots[j].value), CodeOf(slots[j]), WireSub(slots[j]))] + after)
    ensures NoneAbout(after, slots[j].value)
    decreases |kinds|
  {
    hide CarriedSends, HearSends, Flagged, Wire, Succ, KindOf, Distinct, NoneAbout;
    var k := kinds[0];
    var head := LeaveAllFirst(k, lva);
    var rest := CarriedKinds(kinds[1..], slots, lva);
    var heard := [Hear(Wire(slots[j].value), CodeOf(slots[j]), WireSub(slots[j]))];
    if k == KindOf(slots[j].value) {
      var a, b := FirstKindSplit(k, slots, j);
      LaterUnrelated(kinds[1..], slots, lva, j);
      NoneAboutBoth(b, rest, slots[j].value);
      before, after := head + a, b + rest;
      assert head + (a + (heard + b)) + rest == before + (heard + after);
    } else {
      before, after := HeardOnce(kinds[1..], slots, lva, j);
      var sends := HearSends(CarriedSends(k, Flagged(k, slots), None));
      assert head + sends + (before + (heard + after)) == (head + sends + before) + (heard + after);
      before := head + sends + before;
    }
  }

  lemma FirstKindSplit(k: Kind, slots: seq<Slot>, j: nat) returns (before: seq<Action>, after: seq<Action>)
    requires MustBeHeard(slots, j) && KindOf(slots[j].value) == k && Distinct(slots)
    ensures HearSends(CarriedSends(k, Flagged(k, slots), None))
         == before + ([Hear(Wire(slots[j].value), CodeOf(slots[j]), WireSub(slots[j]))] + after)
    ensures NoneAbout(after, slots[j].value)
  {
    hide CarriedSends, Succ, Distinct, NoneAbout;
    var flagged := Flagged(k, slots);
    var a := CarriedSplit(k, flagged, None, j);
    var b := CarriedSends(k, flagged[j + 1..], Some(Succ(flagged[j].value)));
    BehindUnrelated(k, slots, j);
    HearSendsConcat(a, [SentOf(flagged[j])] + b);
    HearSendsConcat([SentOf(flagged[j])], b);
    assert HearSends([SentOf(flagged[j])]) == [Hear(Wire(slots[j].value), CodeOf(slots[j]), WireSub(slots[j]))];
    before, after := HearSends(a), HearSends(b);
  }

  /* ---------- one transmission, through the bytes ---------- */

  function TxEvent(lva: bool): Event {
    if lva then TxLA else Tx
  }

  function Delivery(r: Station, now: int, frame: Option<seq<byte>>): Station {
    if frame.Some? then Receive(r, now, frame.value) else r
  }

  /** What a station tells its peer when it transmits. */
  function Told(s: Station, lva: bool): seq<Action> {
    CarriedKinds(ORDER, Slots(s.entries, TxEvent(lva)), lva)
  }

  lemma {:induction false} NothingHeard(kinds: seq<Kind>, slots: seq<Slot>, lva: bool, at: nat)
    requires Messages(kinds, slots, lva, at) == Some([])
    ensures HeardKinds(kinds, slots, lva, at) == []
    decreases |kinds|
  {
    hide Messages, EmitPlan, MessageBy, SentBy, HearSends;
    if kinds != [] {
      MessagesUnfold(kinds, slots, lva, at);
      SilentEmitter(kinds[0], slots, lva, CAPACITY - at);
      NothingHeard(kinds[1..], slots, lva, at);
    }
  }

  lemma SlotsCoded(es: seq<Entry>, lva: bool)
    ensures AllCoded(Slots(es, TxEvent(lva)))
  {
    hide SlotOf;
    var slots := Slots(es, TxEvent(lva));
    forall s | s in slots ensures s.code.Some? {
      var i :| 0 <= i < |slots| && slots[i] == s;
      AnnouncedSlot(es[i], lva);
    }
  }

  /** What a transmission with room for all that is owed says; and nothing goes unsaid where no frame goes out. */
  lemma FrameTells(s: Station, lva: bool)
    requires |s.addr| == 6 && Roomy(Slots(s.entries, TxEvent(lva)), lva)
    ensures Dispatchable(Told(s, lva))
    ensures var frame := TxPdu(s.addr, Slots(s.entries, TxEvent(lva)), lva);
      Told(s, lva) == if frame.Some? then Decode(frame.value).actions else []
  {
    hide Messages, Complete, CarriedKinds, Dispatchable, Decode, Frame;
    var slots := Slots(s.entries, TxEvent(lva));
    KindsDispatchable(ORDER, slots, lva);
    SlotsCoded(s.entries, lva);
    FitsExactly(slots, lva);
    if TxPdu(s.addr, slots, lva).Some? {
      RoundTripComplete(s.addr, slots, lva);
    } else {
      NothingHeard(ORDER, slots, lva, 0);
      CompleteHeard(ORDER, slots, lva, 0);
    }
  }

  lemma DeliveryHears(s: Station, r: Station, now: int, lva: bool)
    requires |s.addr| == 6 && Roomy(Slots(s.entries, TxEvent(lva)), lva)
    ensures Dispatchable(Told(s, lva))
    ensures Delivery(r, now, TxPdu(s.addr, Slots(s.entries, TxEvent(lva)), lva)) == Hears(r, now, Told(s, lva))
  {
    hide Told, TxPdu, Roomy, Slots, Dispatchable, Decode;
    FrameTells(s, lva);
  }

  lemma SlotFor(s: Station, lva: bool, e: Entry) returns (j: nat)
    requires e in s.entries
    ensures j < |s.entries| && s.entries[j] == e && Slots(s.entries, TxEvent(lva))[j] == SlotOf(e, TxEvent(lva))
  {
    j :| 0 <= j < |s.entries| && s.entries[j] == e;
  }

  /** Whatever is told about the key of an entry comes from that entry. */
  lemma ToldAbout(s: Station, lva: bool, a: Action) returns (e: Entry)
    requires Unique(s.entries) && a in Told(s, lva) && a.Hear?
    ensures e in s.entries && KeyOf(e.value) == KeyOf(a.value) && Find(s.entries, KeyOf(a.value)) == Some(e)
    ensures a.code == CodeOf(SlotOf(e, TxEvent(lva))) && KindOf(a.value) == KindOf(e.value)
    ensures a.value.Listener? ==> e.sub != 0
  {
    hide CarriedKinds, SlotOf, CodeOf, Find;
    var j := KindsFrom(ORDER, Slots(s.entries, TxEvent(lva)), lva, a);
    e := s.entries[j];
    WireKeepsKey(e.value);
    FindThere(s.entries, e);
    SlotSubs(e, TxEvent(lva));
  }

  lemma SlotSubs(e: Entry, ev: Event)
    ensures SlotOf(e, ev).value == e.value && SlotOf(e, ev).sub == e.sub
  {}

  /* ---------- declarations arrive ---------- */

  /** The codes New, JoinIn and JoinMt. */
  predicate JoinCode(c: nat) {
    c in {0, 1, 3}
  }

  predicate Registered(o: Option<Entry>) {
    o.Some? && o.value.att.reg == IN
  }

  /** The value's stream or class is registered, and a talker shows the type and failure information declared. */
  predicate RegisteredAs(o: Option<Entry>, v: Value) {
    Registered(o) && KeyOf(o.value.value) == KeyOf(v) && Shows(o.value.value, v)
  }

  /** New and Join register, whatever was there. */
  lemma JoinRegisters(o: Option<Entry>, v: Value, c: Code, sub: Sub, known: bool)
    requires JoinCode(c) && (o.Some? ==> KeyOf(o.value.value) == KeyOf(v))
    ensures RegisteredAs(LocalDeclared(o, CodeEvent(c), v, sub, known), v)
  {}

  lemma UnrelatedKeeps(acts: seq<Action>, v: Value)
    requires NoneAbout(acts, v) && Dispatchable(acts)
    ensures Stable(o => RegisteredAs(o, v), acts, KeyOf(v))
  {
    hide LocalDeclared, Shows, Swept;
    forall a: Action, o: Option<Entry>, known: bool | a in acts && RegisteredAs(o, v)
      ensures RegisteredAs(LocalStep(o, InputOf(a), KeyOf(v), known), v)
    {
      SameKeyKind(o.value.value, v);
    }
  }

  lemma SameKeyKind(u: Value, v: Value)
    requires KeyOf(u) == KeyOf(v) && Shows(u, v)
    ensures KindOf(u) == KindOf(v)
  {}

  lemma FindHasKey(es: seq<Entry>, key: Key)
    ensures Find(es, key).Some? ==> KeyOf(Find(es, key).value.value) == key && Find(es, key).value in es
  {}

  /** The states from which a transmission announces the attribute with New or Join, come what may. */
  predicate Announces(app: AppState, lva: bool) {
    if lva then app in {VN, AN, AA, QA, AP, QP} else app in {VP, VN, AN, AA, AP}
  }

  predicate Ignored(e: Entry) {
    e.value.Listener? && e.sub == 0
  }

  lemma AnnouncedSlot(e: Entry, lva: bool)
    ensures var slot := SlotOf(e, TxEvent(lva));
      && slot.tx && slot.code.Some?
      && (Announces(e.att.app, lva) ==> !slot.optional && JoinCode(slot.code.value))
      && (lva && !Announces(e.att.app, lva) ==> !JoinCode(slot.code.value))
  {}

  lemma {:induction false} JoinHeard(r: Station, now: int, before: seq<Action>, x: Action, after: seq<Action>, v: Value)
    requires Unique(r.entries) && Dispatchable(before + ([x] + after)) && x.Hear? && JoinCode(x.code)
    requires KeyOf(x.value) == KeyOf(v) && x.value == v && NoneAbout(after, v)
    ensures RegisteredAs(Find(Hears(r, now, before + ([x] + after)).entries, KeyOf(v)), v)
  {
    hide Unique, Hear1, Find, LocalDeclared, RegisteredAs, JoinCode, Shows;
    DispatchableParts(before, [x] + after);
    DispatchableParts([x], after);
    HearsConcat(r, now, before, [x] + after);
    HearsUnique(r, now, before);
    var s := Hears(r, now, before);
    HearsFirst(s, now, [x] + after);
    assert ([x] + after)[1..] == after && x in [x];
    var known := HearIsLocal(s, now, x, KeyOf(v));
    FindHasKey(s.entries, KeyOf(v));
    JoinRegisters(Find(s.entries, KeyOf(v)), v, x.code, if v.Listener? then x.sub else 0, known);
    UnrelatedKeeps(after, v);
    HearsKeep(Hear1(s, now, x), now, after, KeyOf(v), o => RegisteredAs(o, v));
  }

  /**
  A declaration that has to be announced is registered at the peer by that one frame, for all databases: with the
  talker's type and failure information, whatever the peer held before and whatever else the frame says.
  */
  lemma {:induction false} DeclarationArrives(s: Station, r: Station, now: int, lva: bool, e: Entry)
    requires Unique(s.entries) && Unique(r.entries) && |s.addr| == 6
    requires Roomy(Slots(s.entries, TxEvent(lva)), lva)
    requires e in s.entries && Announces(e.att.app, lva) && !Ignored(e)
    ensures var r' := Delivery(r, now, TxPdu(s.addr, Slots(s.entries, TxEvent(lva)), lva));
      RegisteredAs(Find(r'.entries, KeyOf(e.value)), Wire(e.value))
  {
    hide CarriedKinds, Roomy, TxPdu, Announces, Find, RegisteredAs, Unique, JoinCode, Wire, Delivery;
    var slots := Slots(s.entries, TxEvent(lva));
    var j := SlotFor(s, lva, e);
    AnnouncedSlot(e, lva);
    SlotsDistinct(s.entries, TxEvent(lva));
    KindsAll(KindOf(e.value));
    var before, after := HeardOnce(ORDER, slots, lva, j);
    DeliveryHears(s, r, now, lva);
    WireKeepsKey(e.value);
    NoneAboutWire(after, e.value);
    JoinHeard(r, now, before, Hear(Wire(e.value), CodeOf(slots[j]), WireSub(slots[j])), after, Wire(e.value));
  }

  lemma KindsAll(k: Kind)
    ensures k in ORDER && Fresh(ORDER, {})
  {
    assert ORDER[0] == AdvKind && ORDER[1] == FailedKind && ORDER[2] == ListenerKind && ORDER[3] == DomainKind;
  }

  lemma NoneAboutWire(acts: seq<Action>, v: Value)
    requires NoneAbout(acts, v)
    ensures NoneAbout(acts, Wire(v))
  {
    WireKeepsKey(v);
  }

  /* ---------- LeaveAll ---------- */

  /** Not registered as an attribute of kind `k`. */
  predicate OutOf(o: Option<Entry>, k: Kind) {
    !(Registered(o) && KindOf(o.value.value) == k)
  }

  /** No New or Join for `key`. */
  ghost predicate NoJoins(acts: seq<Action>, key: Key) {
    forall a: Action | a in acts && a.Hear? && KeyOf(a.value) == key :: !JoinCode(a.code)
  }

  lemma OthersDoNotRegister(o: Option<Entry>, v: Value, c: Code, sub: Sub, known: bool, k: Kind)
    requires OutOf(o, k) && !JoinCode(c)
    ensures OutOf(LocalDeclared(o, CodeEvent(c), v, sub, known), k)
  {}

  lemma NoJoinsStayOut(acts: seq<Action>, key: Key, k: Kind)
    requires NoJoins(acts, key) && Dispatchable(acts)
    ensures Stable(o => OutOf(o, k), acts, key)
  {
    hide LocalDeclared, JoinCode, CodeEvent;
    forall a: Action, o: Option<Entry>, known: bool | a in acts && OutOf(o, k)
      ensures OutOf(LocalStep(o, InputOf(a), key, known), k)
    {
      if a.Hear? && KeyOf(a.value) == key {
        OthersDoNotRegister(o, a.value, a.code, if a.value.Listener? then a.sub else 0, known, k);
      }
    }
  }

  /** What an event makes of `q`, and no event undoes, holds once that event is among what is heard. */
  lemma {:induction false} EventSettles(r: Station, now: int, acts: seq<Action>, key: Key, x: Action,
                                        q: Option<Entry> -> bool, p: Option<Entry> -> bool)
    requires Unique(r.entries) && Dispatchable(acts) && x in acts
    requires Stable(q, acts, key) && Stable(p, acts, key) && q(Find(r.entries, key))
    requires forall o: Option<Entry>, known: bool | q(o) :: p(LocalStep(o, InputOf(x), key, known))
    ensures p(Find(Hears(r, now, acts).entries, key))
  {
    hide Unique, Hear1, Find, LocalStep;
    var i :| 0 <= i < |acts| && acts[i] == x;
    var before, rest := acts[..i], acts[i..];
    assert acts == before + rest && rest[0] == x && rest[1..] == acts[i + 1..];
    DispatchableParts(before, rest);
    HearsConcat(r, now, before, rest);
    HearsUnique(r, now, before);
    StableParts(q, acts, key, i);
    HearsKeep(r, now, before, key, q);
    var s := Hears(r, now, before);
    HearsFirst(s, now, rest);
    assert rest[0] in [rest[0]];
    var known := HearIsLocal(s, now, rest[0], key);
    DispatchableParts(acts[..i + 1], acts[i + 1..]) by { assert acts[..i + 1] + acts[i + 1..] == acts; }
    StableParts(p, acts, key, i + 1);
    HearsKeep(Hear1(s, now, rest[0]), now, rest[1..], key, p);
  }

  /** In particular what a LeaveAll for `k` brings about. */
  lemma LeaveAllSettles(r: Station, now: int, acts: seq<Action>, key: Key, k: Kind,
                        q: Option<Entry> -> bool, p: Option<Entry> -> bool)
    requires Unique(r.entries) && Dispatchable(acts) && HearLeaveAll(k) in acts
    requires Stable(q, acts, key) && Stable(p, acts, key) && q(Find(r.entries, key))
    requires forall o: Option<Entry> | q(o) :: p(LocalSwept(o, RLA, Some(k)))
    ensures p(Find(Hears(r, now, acts).entries, key))
  {
    hide Unique, Find, LocalSwept, Stable, Hears;
    EventSettles(r, now, acts, key, HearLeaveAll(k), q, p);
  }

  lemma StableParts(p: Option<Entry> -> bool, acts: seq<Action>, key: Key, i: nat)
    requires Dispatchable(acts) && i <= |acts| && Dispatchable(acts[..i]) && Dispatchable(acts[i..])
    requires Stable(p, acts, key)
    ensures Stable(p, acts[..i], key) && Stable(p, acts[i..], key)
  {
    hide LocalStep;
    assert forall a: Action | a in acts[i..] :: a in acts;
    assert forall a: Action | a in acts[..i] :: a in acts;
  }

  /** After a LeaveAll for its type and no Join, an attribute is not registered. */
  lemma LeaveAllHeardOut(r: Station, now: int, acts: seq<Action>, key: Key, k: Kind)
    requires Unique(r.entries) && Dispatchable(acts) && NoJoins(acts, key) && HearLeaveAll(k) in acts
    ensures OutOf(Find(Hears(r, now, acts).entries, key), k)
  {
    hide Unique, Find, OutOf, JoinCode, LocalSwept, Hears;
    forall o: Option<Entry> ensures OutOf(LocalSwept(o, RLA, Some(k)), k) {
      SweptOut(o, k);
    }
    NoJoinsStayOut(acts, key, k);
    LeaveAllSettles(r, now, acts, key, k, o => true, o => OutOf(o, k));
  }

  lemma SweptOut(o: Option<Entry>, k: Kind)
    ensures OutOf(LocalSwept(o, RLA, Some(k)), k)
  {}

  /** A sender's entry outlasts its own LeaveAll. */
  predicate Survives(o: Option<Entry>) {
    o.Some? && Announces(o.value.att.app, true) && !Ignored(o.value)
  }

  lemma NotToldToJoin(s: Station, key: Key)
    requires Unique(s.entries) && !Survives(Find(s.entries, key))
    ensures NoJoins(Told(s, true), key)
  {
    hide Told, Find, Unique, JoinCode, Announces, SlotOf, KeyOf;
    forall a: Action | a in Told(s, true) && a.Hear? && KeyOf(a.value) == key ensures !JoinCode(a.code) {
      var e := ToldAbout(s, true, a);
      AnnouncedSlot(e, true);
    }
  }

  /**
  LeaveAll and live declarations, for all databases: after the one frame of a LeaveAll expiry a stream or class is
  registered at the receiver exactly if the sender holds it in VN, AN, AA, QA, AP or QP and, for a listener, its
  sub-state is not Ignore.
  */
  lemma {:induction false} LeaveAllKeepsDeclarations(s: Station, r: Station, now: int, key: Key)
    requires Unique(s.entries) && Unique(r.entries) && |s.addr| == 6
    requires Roomy(Slots(s.entries, TxLA), true)
    ensures Registered(Find(Delivery(r, now, Step(s, now, LeaveAllExpiry).frame).entries, key))
        <==> Survives(Find(s.entries, key))
  {
    hide Roomy, Unique, Told, TxPdu, Find, Delivery, Dispatchable, Announces, Slots, SweepKind;
    FindHasKey(s.entries, key);
    var o := Find(Delivery(r, now, TxPdu(s.addr, Slots(s.entries, TxLA), true)).entries, key);
    if Survives(Find(s.entries, key)) {
      DeclarationArrives(s, r, now, true, Find(s.entries, key).value);
    } else if Registered(o) {
      NotToldToJoin(s, key);
      DeliveryHears(s, r, now, true);
      var k := KindOf(o.value.value);
      KindsAll(k);
      ToldLeaveAll(s, k);
      LeaveAllHeardOut(r, now, Told(s, true), key, k);
    }
  }

  lemma ToldLeaveAll(s: Station, k: Kind)
    ensures HearLeaveAll(k) in Told(s, true)
  {
    KindsAll(k);
    KindsLeaveAll(ORDER, Slots(s.entries, TxLA), k);
  }
}
