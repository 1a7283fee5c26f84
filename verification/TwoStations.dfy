/**
Two MVRP participants on a lossless point-to-point link: the bytes one station's transmit event emits are the
frame the other decodes. Delivery takes no time; each frame is processed before either station acts again.
*/
module TwoStations {
  import opened Mrp
  import opened MrpPdu
  import opened MvrpCodec
  import opened MvrpRoundTrip
  import opened MrpParticipant
  import opened MvrpStation
  import opened MvrpPointwise

  /* ---------- hearing a PDU, one VID at a time ---------- */

  function LocalHears(o: Option<Att>, actions: seq<Action>, v: u16): Option<Att>
    requires Dispatchable(actions)
    decreases |actions|
  {
    if actions == [] then o else LocalHears(LocalStep(o, InputOf(actions[0]), v), actions[1..], v)
  }

  lemma {:induction false} HearsIsPointwise(s: Station, now: int, actions: seq<Action>, v: u16)
    requires Sorted(s.entries) && Dispatchable(actions)
    ensures Sorted(Hears(s, now, actions).entries) && Hears(s, now, actions).addr == s.addr
    ensures Find(Hears(s, now, actions).entries, v) == LocalHears(Find(s.entries, v), actions, v)
    decreases |actions|
  {
    if actions != [] {
      var i := InputOf(actions[0]);
      StepSorted(s, now, i);
      StepIsPointwise(s, now, i, v);
      HearsIsPointwise(Step(s, now, i).next, now, actions[1..], v);
    }
  }

  /** No frame, whatever its bytes, takes a registrar to MT or removes an entry whose registrar is not MT. */
  lemma {:induction false} HearingNeverEmpties(o: Option<Att>, actions: seq<Action>, v: u16)
    requires Dispatchable(actions)
    requires o.Some? && o.value.reg != MT
    ensures var r := LocalHears(o, actions, v); r.Some? && r.value.reg != MT
    decreases |actions|
  {
    if actions != [] {
      HearingNeverEmpties(LocalStep(o, InputOf(actions[0]), v), actions[1..], v);
    }
  }

  /* ---------- what a transmitted PDU does to one VID of the receiver ---------- */

  function SlotFor(slots: seq<Slot>, v: u16): Option<Slot> {
    if slots == [] then None else if slots[0].vid == v then Some(slots[0]) else SlotFor(slots[1..], v)
  }

  lemma {:induction false} SlotForEntry(es: seq<Entry>, ev: Event, v: u16)
    ensures SlotFor(Slots(es, ev), v) ==
      if Find(es, v).Some? then Some(SlotOf(Entry(v, Find(es, v).value), ev)) else None
  {
    if es != [] {
      assert Slots(es, ev)[1..] == Slots(es[1..], ev);
      SlotForEntry(es[1..], ev, v);
    }
  }

  lemma SlotsAscend(es: seq<Entry>, ev: Event)
    requires Sorted(es)
    ensures Ascending(Slots(es, ev))
  {}

  function HeardEvent(o: Option<Att>, s: Slot, v: u16): Option<Att>
    requires s.code.Some?
  {
    LocalStep(o, Attr(CodeEvent(s.code.value), v), v)
  }

  /** A slot reaches the receiver for sure if it is mandatory, and may ride along if it is optional. */
  predicate Delivered(o: Option<Att>, s: Option<Slot>, r: Option<Att>, v: u16) {
    if s.None? then r == o
    else s.value.code.Some? && (r == HeardEvent(o, s.value, v) || (s.value.optional && r == o))
  }

  ghost predicate Sent(slots: seq<Slot>) {
    forall s | s in slots :: s.tx && s.code.Some?
  }

  lemma {:induction false} PairsDispatchable(slots: seq<Slot>, behind: Option<nat>)
    requires Sent(slots)
    ensures Dispatchable(HearPairs(CarriedPairs(slots, behind)))
  {
    if slots != [] {
      assert slots[0] in slots;
      PairsDispatchable(slots[1..], if Carried(slots[0], behind) then Some(slots[0].vid) else None);
    }
  }

  /** What the first slot contributes. */
  function FirstHeard(s: Slot, behind: Option<nat>): seq<Action> {
    if Carried(s, behind) && s.vid <= MAX_VID then [Hear(s.vid, CodeOf(s))] else []
  }

  function Behind(s: Slot, behind: Option<nat>): Option<nat> {
    if Carried(s, behind) then Some(s.vid) else None
  }

  lemma {:induction false} FirstSlotHeard(slots: seq<Slot>, behind: Option<nat>, o: Option<Att>, v: u16)
    requires Sent(slots) && slots != []
    requires Dispatchable(HearPairs(CarriedPairs(slots, behind)))
    requires Dispatchable(HearPairs(CarriedPairs(slots[1..], Behind(slots[0], behind))))
    ensures LocalHears(o, HearPairs(CarriedPairs(slots, behind)), v) ==
      LocalHears(if slots[0].vid == v && FirstHeard(slots[0], behind) != [] then HeardEvent(o, slots[0], v) else o,
                 HearPairs(CarriedPairs(slots[1..], Behind(slots[0], behind))), v)
  {
    assert slots[0] in slots;
    var rest := HearPairs(CarriedPairs(slots[1..], Behind(slots[0], behind)));
    assert HearPairs(CarriedPairs(slots, behind)) == FirstHeard(slots[0], behind) + rest;
    if FirstHeard(slots[0], behind) != [] {
      assert (FirstHeard(slots[0], behind) + rest)[1..] == rest;
    } else {
      assert FirstHeard(slots[0], behind) + rest == rest;
    }
  }

  lemma {:induction false} OthersUnheard(slots: seq<Slot>, behind: Option<nat>, o: Option<Att>, v: u16)
    requires Sent(slots) && forall s | s in slots :: s.vid != v
    requires Dispatchable(HearPairs(CarriedPairs(slots, behind)))
    ensures LocalHears(o, HearPairs(CarriedPairs(slots, behind)), v) == o
  {
    if slots != [] {
      assert slots[0] in slots;
      PairsDispatchable(slots[1..], Behind(slots[0], behind));
      OthersUnheard(slots[1..], Behind(slots[0], behind), o, v);
      FirstSlotHeard(slots, behind, o, v);
    }
  }

  lemma {:induction false} PairsDelivered(slots: seq<Slot>, behind: Option<nat>, o: Option<Att>, v: u16)
    requires Sent(slots) && Ascending(slots) && v <= MAX_VID
    requires Dispatchable(HearPairs(CarriedPairs(slots, behind)))
    ensures Delivered(o, SlotFor(slots, v), LocalHears(o, HearPairs(CarriedPairs(slots, behind)), v), v)
  {
    if slots != [] {
      assert slots[0] in slots;
      var next := Behind(slots[0], behind);
      PairsDispatchable(slots[1..], next);
      FirstSlotHeard(slots, behind, o, v);
      if slots[0].vid == v {
        var heard := if FirstHeard(slots[0], behind) != [] then HeardEvent(o, slots[0], v) else o;
        OthersUnheard(slots[1..], next, heard, v);
      } else {
        PairsDelivered(slots[1..], next, o, v);
      }
    }
  }

  /** The transmit event behind an input, and whether it flags LeaveAll. */
  function TxEvent(lva: bool): Event {
    if lva then TxLA else Tx
  }

  function Delivery(r: Station, now: int, frame: Option<seq<byte>>): Station {
    if frame.Some? then Receive(r, now, frame.value) else r
  }

  lemma SlotsSent(es: seq<Entry>, lva: bool)
    ensures Sent(Slots(es, TxEvent(lva)))
  {}

  function Before(o: Option<Att>, lva: bool): Option<Att> {
    if lva then SweptOption(RLA, o) else o
  }

  lemma {:induction false} HeardFrame(r: Station, now: int, frame: seq<byte>, slots: seq<Slot>, lva: bool, v: u16)
    requires Sorted(r.entries) && Sent(slots)
    requires Decode(frame).actions == LeaveAllFirst(lva) + HearPairs(CarriedPairs(slots, None))
    requires Dispatchable(HearPairs(CarriedPairs(slots, None)))
    ensures var r' := Receive(r, now, frame);
      && Sorted(r'.entries) && r'.addr == r.addr
      && Find(r'.entries, v) == LocalHears(Before(Find(r.entries, v), lva), HearPairs(CarriedPairs(slots, None)), v)
  {
    DecodeDispatchable(frame);
    var actions, rest := Decode(frame).actions, HearPairs(CarriedPairs(slots, None));
    HearsIsPointwise(r, now, actions, v);
    if lva {
      assert actions[0] == HearLeaveAll && actions[1..] == rest;
    } else {
      assert actions == rest;
    }
  }

  lemma SlotsCoded(es: seq<Entry>, lva: bool)
    ensures AllCoded(Slots(es, TxEvent(lva)))
  {
    var slots := Slots(es, TxEvent(lva));
    forall s | s in slots ensures s.code.Some? {
      var i :| 0 <= i < |slots| && slots[i] == s;
      assert s == SlotOf(es[i], TxEvent(lva));
    }
  }

  /** One transmission, end to end through the bytes, as seen by one VID of the receiver. */
  lemma {:induction false} Transmission(s: Station, r: Station, now: int, lva: bool, v: u16)
    requires Sorted(s.entries) && Sorted(r.entries) && |s.addr| == 6 && v <= MAX_VID
    requires Roomy(Slots(s.entries, TxEvent(lva)))
    ensures var slots := Slots(s.entries, TxEvent(lva));
      var r' := Delivery(r, now, TxPdu(s.addr, slots, lva));
      && Sorted(r'.entries) && r'.addr == r.addr
      && Delivered(Before(Find(r.entries, v), lva), SlotFor(slots, v), Find(r'.entries, v), v)
  {
    var slots := Slots(s.entries, TxEvent(lva));
    var frame := TxPdu(s.addr, slots, lva);
    SlotsAscend(s.entries, TxEvent(lva));
    SlotsSent(s.entries, lva);
    PairsDispatchable(slots, None);
    PairsDelivered(slots, None, Before(Find(r.entries, v), lva), v);
    SlotsCoded(s.entries, lva);
    FitsExactly(slots, lva);
    RoundTripFits(s.addr, slots, lva);
    if frame.Some? {
      HeardFrame(r, now, frame.value, slots, lva, v);
    }
  }

  /* ---------- Leave ---------- */

  predicate Registered(o: Option<Att>) {
    o.Some? && o.value.reg == IN
  }

  /**
  A withdrawn VID, which stays in LA until then, is told: the next transmit opportunity sends a frame in which the peer
  hears Leave for it, and after which the peer does not register it.
  */
  lemma {:induction false} LeavingIsHeard(s: Station, r: Station, now: int, v: u16)
    requires Sorted(s.entries) && Sorted(r.entries) && |s.addr| == 6 && v <= MAX_VID
    requires Roomy(Slots(s.entries, Tx)) && Find(s.entries, v).Some? && Find(s.entries, v).value.app == LA
    ensures var f := Step(s, now, TxOpportunity).frame;
      f.Some? && Hear(v, 5) in Decode(f.value).actions && !Registered(Find(Receive(r, now, f.value).entries, v))
  {
    hide Roomy, TxPdu, Decode, Receive, Sweep, Delivered, Slots, SlotOf, CarriedPairs, HearPairs, SlotFor, Find;
    LeavingIsOwed(s.entries, v);
    SlotsAscend(s.entries, Tx);
    SlotsCoded(s.entries, false);
    FitsExactly(Slots(s.entries, Tx), false);
    RoundTripFits(s.addr, Slots(s.entries, Tx), false);
    HearsPair(CarriedPairs(Slots(s.entries, Tx), None), (v as nat, 5));
    Transmission(s, r, now, false, v);
    SlotForEntry(s.entries, Tx, v);
    LocalLeave(Find(s.entries, v).value, Find(r.entries, v),
               Find(Delivery(r, now, Step(s, now, TxOpportunity).frame).entries, v), v);
  }

  lemma LeavingIsOwed(es: seq<Entry>, v: u16)
    requires Find(es, v).Some? && Find(es, v).value.app == LA
    ensures (v as nat, 5) in CarriedPairs(Slots(es, Tx), None)
  {
    hide CarriedPairs;
    FindSome(es, v);
    var i :| 0 <= i < |es| && es[i] == Entry(v, Find(es, v).value);
    OwedIsCarried(Slots(es, Tx), None, i);
  }

  lemma LocalLeave(a: Att, o: Option<Att>, r: Option<Att>, v: u16)
    requires a.app == LA && Delivered(o, Some(SlotOf(Entry(v, a), Tx)), r, v)
    ensures !Registered(r)
  {}

  /* ---------- LeaveAll ---------- */

  predicate Survives(o: Option<Att>) {
    o.Some? && o.value.app in {VN, AN, AA, QA, AP, QP}
  }

  lemma LocalLeaveAll(sender: Option<Att>, receiver: Option<Att>, r: Option<Att>, v: u16)
    requires var slot := if sender.Some? then Some(SlotOf(Entry(v, sender.value), TxLA)) else None;
      Delivered(SweptOption(RLA, receiver), slot, r, v)
    ensures Registered(r) <==> Survives(sender)
  {}

  /**
  A LeaveAll disturbs no live declaration: for all databases, after the one frame of a LeaveAll expiry a VID is
  registered at the receiver exactly if the sender holds it in VN, AN, AA, QA, AP or QP. (A VID in VP is announced
  with In or Mt, not Join, and so is not: it has to wait for the next transmit opportunity.)
  */
  lemma {:induction false} LeaveAllKeepsDeclarations(s: Station, r: Station, now: int, v: u16)
    requires Sorted(s.entries) && Sorted(r.entries) && |s.addr| == 6 && v <= MAX_VID
    requires Roomy(Slots(s.entries, TxLA))
    ensures Step(s, now, LeaveAllExpiry).frame.Some?
    ensures Registered(Find(Receive(r, now, Step(s, now, LeaveAllExpiry).frame.value).entries, v))
        <==> Survives(Find(s.entries, v))
  {
    var slots := Slots(s.entries, TxLA);
    SlotsAscend(s.entries, TxLA);
    SlotsCoded(s.entries, true);
    FitsExactly(slots, true);
    RoundTripFits(s.addr, slots, true);
    Transmission(s, r, now, true, v);
    SlotForEntry(s.entries, TxLA, v);
    LocalLeaveAll(Find(s.entries, v), Find(r.entries, v),
                  Find(Delivery(r, now, TxPdu(s.addr, slots, true)).entries, v), v);
  }

  /** And on the way, at every point of the frame, no registrar that holds the VID drops to MT. */
  lemma {:induction false} NoRegistrarEmptied(r: Station, now: int, frame: seq<byte>, k: nat, v: u16)
    requires Sorted(r.entries)
    requires Find(r.entries, v).Some? && Find(r.entries, v).value.reg != MT
    requires k <= |Decode(frame).actions|
    ensures Dispatchable(Decode(frame).actions[..k])
    ensures var o := Find(Hears(r, now, Decode(frame).actions[..k]).entries, v); o.Some? && o.value.reg != MT
  {
    var actions := Decode(frame).actions[..k];
    DecodeDispatchable(frame);
    HearsIsPointwise(r, now, actions, v);
    HearingNeverEmpties(Find(r.entries, v), actions, v);
  }

  /* ---------- the two stations ---------- */

  /** `talker` is the station whose declaration is watched, `observer` the one that never asks for the VID. */
  datatype Net = Net(talker: Station, observer: Station)

  datatype Act = Act(byTalker: bool, now: int, input: Input)

  /** What a station does on its own account: local requests, timers, garbage collection. */
  predicate OwnInput(i: Input) {
    !i.LeaveAllHeard? && (i.Attr? ==> i.ev in {New, Join, Leave})
  }

  function NetStep(n: Net, a: Act): Net {
    if a.byTalker then
      var out := Step(n.talker, a.now, a.input);
      Net(out.next, Delivery(n.observer, a.now, out.frame))
    else
      var out := Step(n.observer, a.now, a.input);
      Net(Delivery(n.talker, a.now, out.frame), out.next)
  }

  /** There is room for everything owed in the PDU this input sends, if it sends one. */
  predicate ActFits(n: Net, a: Act) {
    var es := (if a.byTalker then n.talker else n.observer).entries;
    match a.input
    case TxOpportunity => Roomy(Slots(es, Tx))
    case LeaveAllExpiry => Roomy(Slots(es, TxLA))
    case _ => true
  }

  function NetRun(n: Net, acts: seq<Act>): Net {
    if acts == [] then n else NetStep(NetRun(n, acts[..|acts| - 1]), acts[|acts| - 1])
  }

  /** A run in which PDUs fit and the observer makes no local request for `v`. */
  ghost predicate Watched(n: Net, acts: seq<Act>, v: u16) {
    forall k | 0 <= k < |acts| ::
      && OwnInput(acts[k].input)
      && ActFits(NetRun(n, acts[..k]), acts[k])
      && (!acts[k].byTalker && acts[k].input.Attr? ==> acts[k].input.vid != v)
  }

  predicate Observing(o: Option<Att>) {
    o.Some? ==> o.value.app in {VO, LO}
  }

  /** The observer only observes, and whoever is in QA or AN is registered with it. */
  predicate Agreed(t: Option<Att>, o: Option<Att>) {
    Observing(o) && (t.Some? && t.value.app in {QA, AN} ==> Registered(o))
  }

  predicate WellFormed(s: Station) {
    |s.addr| == 6
  }

  ghost predicate NetInv(n: Net, v: u16) {
    && Sorted(n.talker.entries) && Sorted(n.observer.entries)
    && WellFormed(n.talker) && WellFormed(n.observer)
    && Agreed(Find(n.talker.entries, v), Find(n.observer.entries, v))
  }

  lemma LocalTalkerSends(t: Option<Att>, o: Option<Att>, lva: bool, o': Option<Att>, v: u16)
    requires Agreed(t, o)
    requires var slot := if t.Some? then Some(SlotOf(Entry(v, t.value), TxEvent(lva))) else None;
      Delivered(Before(o, lva), slot, o', v)
    ensures Agreed(SweptOption(TxEvent(lva), t), o')
  {
    if lva {
      LeaveAllSends(t, o, o', v);
    } else {
      OpportunitySends(t, o, o', v);
    }
  }

  lemma LeaveAllSends(t: Option<Att>, o: Option<Att>, o': Option<Att>, v: u16)
    requires Observing(o)
    requires Delivered(SweptOption(RLA, o), if t.Some? then Some(SlotOf(Entry(v, t.value), TxLA)) else None, o', v)
    ensures Agreed(SweptOption(TxLA, t), o')
  {}

  lemma OpportunitySends(t: Option<Att>, o: Option<Att>, o': Option<Att>, v: u16)
    requires Agreed(t, o)
    requires Delivered(o, if t.Some? then Some(SlotOf(Entry(v, t.value), Tx)) else None, o', v)
    ensures Agreed(SweptOption(Tx, t), o')
  {}

  lemma LocalObserverSends(t: Option<Att>, o: Option<Att>, lva: bool, t': Option<Att>, v: u16)
    requires Agreed(t, o)
    requires var slot := if o.Some? then Some(SlotOf(Entry(v, o.value), TxEvent(lva))) else None;
      Delivered(Before(t, lva), slot, t', v)
    ensures Agreed(t', SweptOption(TxEvent(lva), o))
  {}

  /** Inputs that send nothing. */
  predicate Quiet(i: Input) {
    OwnInput(i) && !i.TxOpportunity? && !i.LeaveAllExpiry?
  }

  lemma LocalQuiet(t: Option<Att>, o: Option<Att>, i: Input, v: u16)
    requires Agreed(t, o) && Quiet(i)
    ensures Agreed(LocalStep(t, i, v), o)
    ensures (i.Attr? ==> i.vid != v) ==> Agreed(t, LocalStep(o, i, v))
  {}

  lemma {:induction false} TalkerStep(n: Net, a: Act, v: u16)
    requires NetInv(n, v) && v <= MAX_VID
    requires a.byTalker && OwnInput(a.input) && ActFits(n, a)
    ensures NetInv(NetStep(n, a), v)
  {
    var t, o := Find(n.talker.entries, v), Find(n.observer.entries, v);
    StepSorted(n.talker, a.now, a.input);
    StepIsPointwise(n.talker, a.now, a.input, v);
    if Quiet(a.input) {
      LocalQuiet(t, o, a.input, v);
    } else {
      var lva := a.input.LeaveAllExpiry?;
      Transmission(n.talker, n.observer, a.now, lva, v);
      SlotForEntry(n.talker.entries, TxEvent(lva), v);
      LocalTalkerSends(t, o, lva, Find(NetStep(n, a).observer.entries, v), v);
    }
  }

  lemma {:induction false} ObserverStep(n: Net, a: Act, v: u16)
    requires NetInv(n, v) && v <= MAX_VID
    requires !a.byTalker && OwnInput(a.input) && ActFits(n, a) && (a.input.Attr? ==> a.input.vid != v)
    ensures NetInv(NetStep(n, a), v)
  {
    var t, o := Find(n.talker.entries, v), Find(n.observer.entries, v);
    StepSorted(n.observer, a.now, a.input);
    StepIsPointwise(n.observer, a.now, a.input, v);
    if Quiet(a.input) {
      LocalQuiet(t, o, a.input, v);
    } else {
      var lva := a.input.LeaveAllExpiry?;
      Transmission(n.observer, n.talker, a.now, lva, v);
      SlotForEntry(n.observer.entries, TxEvent(lva), v);
      LocalObserverSends(t, o, lva, Find(NetStep(n, a).talker.entries, v), v);
    }
  }

  lemma {:induction false} NetInvHolds(n: Net, acts: seq<Act>, v: u16)
    requires NetInv(n, v) && v <= MAX_VID && Watched(n, acts, v)
    ensures NetInv(NetRun(n, acts), v)
  {
    if acts != [] {
      var before, last := acts[..|acts| - 1], acts[|acts| - 1];
      assert forall k | 0 <= k < |before| :: before[..k] == acts[..k];
      NetInvHolds(n, before, v);
      if last.byTalker {
        TalkerStep(NetRun(n, before), last, v);
      } else {
        ObserverStep(NetRun(n, before), last, v);
      }
    }
  }

  /**
  Two-station safety: in every run of two freshly started participants in which PDUs fit and the observer never asks
  for `v`, a talker in QA or AN for `v` is registered (IN) at the observer.
  */
  lemma {:induction false} QuietMeansRegistered(t: seq<byte>, o: seq<byte>, acts: seq<Act>, v: u16)
    requires |t| == 6 && |o| == 6 && v <= MAX_VID
    requires Watched(Net(Init(t), Init(o)), acts, v)
    ensures var n := NetRun(Net(Init(t), Init(o)), acts);
      var a := Find(n.talker.entries, v);
      a.Some? && a.value.app in {QA, AN} ==> Registered(Find(n.observer.entries, v))
  {
    NetInvHolds(Net(Init(t), Init(o)), acts, v);
  }

  /* ---------- small databases need no hypothesis about PDUs ---------- */

  ghost predicate Small(n: Net) {
    |n.talker.entries| <= MAX_SURE && |n.observer.entries| <= MAX_SURE
  }

  lemma SmallFits(n: Net, a: Act)
    requires Small(n)
    ensures ActFits(n, a)
  {
    var es := (if a.byTalker then n.talker else n.observer).entries;
    SmallDatabaseFits(Slots(es, TxEvent(a.input.LeaveAllExpiry?)), a.input.LeaveAllExpiry?);
  }

  /** The same guarantee for stations that never hold more than 395 VIDs, with no hypothesis about PDUs. */
  lemma {:induction false} SmallQuietMeansRegistered(t: seq<byte>, o: seq<byte>, acts: seq<Act>, v: u16)
    requires |t| == 6 && |o| == 6 && v <= MAX_VID
    requires forall k | 0 <= k < |acts| :: OwnInput(acts[k].input) && Small(NetRun(Net(Init(t), Init(o)), acts[..k]))
    requires forall k | 0 <= k < |acts| :: !acts[k].byTalker && acts[k].input.Attr? ==> acts[k].input.vid != v
    ensures var n := NetRun(Net(Init(t), Init(o)), acts);
      var a := Find(n.talker.entries, v);
      a.Some? && a.value.app in {QA, AN} ==> Registered(Find(n.observer.entries, v))
  {
    var n := Net(Init(t), Init(o));
    forall k | 0 <= k < |acts| ensures ActFits(NetRun(n, acts[..k]), acts[k]) {
      SmallFits(NetRun(n, acts[..k]), acts[k]);
    }
    QuietMeansRegistered(t, o, acts, v);
  }
}
