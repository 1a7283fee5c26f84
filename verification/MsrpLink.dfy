/**
Two MSRP participants on a lossless point-to-point link without delay, over whole runs: an applicant that has settled
in QA is registered at the peer.
*/
module MsrpLink {
  import opened Mrp
  import opened MrpPdu
  import opened MrpParticipant
  import opened MsrpCodec
  import opened MsrpRoundTrip
  import opened MsrpStation
  import opened MsrpRuns
  import opened MsrpPointwise
  import opened MsrpDelivery
  import opened MsrpRoom
  import opened MsrpMissed

  /* ---------- the two stations ---------- */

  /** `talker` is the station whose declaration is watched, `observer` the one that never asks for the key. */
  datatype Net = Net(talker: Station, observer: Station)

  datatype Act = Act(byTalker: bool, now: int, input: Input)

  /** What a station does on its own account: local requests, timers, garbage collection. */
  predicate OwnInput(i: Input) {
    !i.LeaveAllHeard? && (i.Attr? ==> i.ev in {New, Join, Leave})
  }

  function NetStep(n: Net, a: Act): Net {
    if a.byTalker then
      var out := Step(n.talker, a.now, a.input);
      Net(out.next, Delivery(n.observer, a.now, out.frame))
    else
      var out := Step(n.observer, a.now, a.input);
      Net(Delivery(n.talker, a.now, out.frame), out.next)
  }

  function NetRun(n: Net, acts: seq<Act>): Net {
    if acts == [] then n else NetStep(NetRun(n, acts[..|acts| - 1]), acts[|acts| - 1])
  }

  /** Everything owed fits into the PDU this input sends, if it sends one. */
  predicate ActFits(n: Net, a: Act) {
    var es := (if a.byTalker then n.talker else n.observer).entries;
    match a.input
    case TxOpportunity => Roomy(Slots(es, Tx), false)
    case LeaveAllExpiry => Roomy(Slots(es, TxLA), true)
    case _ => true
  }

  /** The observer makes no request for `key`, and the talker none to be ignored as a listener. */
  predicate ActAllowed(a: Act, key: Key) {
    OwnInput(a.input) &&
    (a.input.Attr? && KeyOf(a.input.value) == key ==> a.byTalker && (a.input.value.Listener? ==> a.input.sub != 0))
  }

  ghost predicate Watched(n: Net, acts: seq<Act>, key: Key) {
    forall k | 0 <= k < |acts| :: ActAllowed(acts[k], key) && ActFits(NetRun(n, acts[..k]), acts[k])
  }

  predicate Observing(o: Option<Entry>) {
    o.Some? ==> o.value.att.app in {VO, LO}
  }

  /** In QA; or in AN, if `an` says that AN counts. */
  predicate Settled(o: Option<Entry>, an: bool) {
    o.Some? && (o.value.att.app == QA || (an && o.value.att.app == AN))
  }

  predicate Heeded(o: Option<Entry>, key: Key) {
    o.Some? ==> KeyOf(o.value.value) == key && !Ignored(o.value)
  }

  /** The observer only observes, and a settled talker is registered with it. */
  predicate Agreed(t: Option<Entry>, o: Option<Entry>, key: Key, an: bool) {
    Observing(o) && Heeded(t, key) && (Settled(t, an) ==> Registered(o))
  }

  ghost predicate NetInv(n: Net, key: Key, an: bool) {
    && Unique(n.talker.entries) && Unique(n.observer.entries)
    && |n.talker.addr| == 6 && |n.observer.addr| == 6
    && Agreed(Find(n.talker.entries, key), Find(n.observer.entries, key), key, an)
  }

  /** The observer's LeaveAll is about to miss a talker in AN. */
  ghost predicate Misses(n: Net, a: Act, key: Key) {
    var t := Find(n.talker.entries, key);
    && !a.byTalker && a.input == LeaveAllExpiry
    && InAn(t) && t.value.value.TalkerFailed? && CarriesAdvertise(n.observer, key)
  }

  /** Inputs that send nothing. */
  predicate Quiet(i: Input) {
    OwnInput(i) && !i.TxOpportunity? && !i.LeaveAllExpiry?
  }

  /** A listener is to be heeded if it asks to be. */
  lemma DeclaredHeeded(o: Option<Entry>, ev: Event, v: Value, sub: Sub, known: bool)
    requires Heeded(o, KeyOf(v)) && (v.Listener? ==> sub != 0)
    ensures Heeded(LocalDeclared(o, ev, v, sub, known), KeyOf(v))
  {
    hide Handled, Reclaimable;
    if o.Some? {
      MergeKeepsKey(o.value, v, sub, known);
    }
  }

  lemma QuietDeclared(t: Option<Entry>, o: Option<Entry>, ev: Event, v: Value, sub: Sub, known: bool, an: bool)
    requires Agreed(t, o, KeyOf(v), an) && ev in {New, Join, Leave} && (v.Listener? ==> sub != 0)
    ensures Agreed(LocalDeclared(t, ev, v, sub, known), o, KeyOf(v), an)
  {
    DeclaredHeeded(t, ev, v, sub, known);
  }

  lemma LocalQuiet(t: Option<Entry>, o: Option<Entry>, a: Act, key: Key, known: bool, an: bool)
    requires Agreed(t, o, key, an) && Quiet(a.input) && ActAllowed(a, key)
    ensures a.byTalker ==> Agreed(LocalStep(t, a.input, key, known), o, key, an)
    ensures !a.byTalker ==> Agreed(t, LocalStep(o, a.input, key, known), key, an)
  {
    hide LocalDeclared, KeyOf;
    if a.input.Attr? && KeyOf(a.input.value) == key {
      QuietDeclared(t, o, a.input.ev, a.input.value, a.input.sub, known, an);
    }
  }

  /* ---------- the talker transmits ---------- */

  lemma DeclaredObserving(o: Option<Entry>, c: Code, v: Value, sub: Sub, known: bool)
    requires Observing(o)
    ensures Observing(LocalDeclared(o, CodeEvent(c), v, sub, known))
  {}

  lemma ObservingStays(acts: seq<Action>, key: Key)
    requires Dispatchable(acts)
    ensures Stable(o => Observing(o), acts, key)
  {
    hide LocalDeclared, CodeEvent, KeyOf;
    forall a: Action, o: Option<Entry>, known: bool | a in acts && Observing(o)
      ensures Observing(LocalStep(o, InputOf(a), key, known))
    {
      if a.Hear? {
        DeclaredObserving(o, a.code, a.value, if a.value.Listener? then a.sub else 0, known);
      }
    }
  }

  lemma JoinKeepsRegistered(o: Option<Entry>, c: Code, v: Value, sub: Sub, known: bool)
    requires JoinCode(c)
    ensures Registered(LocalDeclared(o, CodeEvent(c), v, sub, known))
  {}

  /** A talker in QA that transmits tells its peer nothing but Join. */
  lemma SettledStaysRegistered(s: Station, key: Key)
    requires Unique(s.entries) && Settled(Find(s.entries, key), false) && Dispatchable(Told(s, false))
    ensures Stable(o => Registered(o), Told(s, false), key)
  {
    hide LocalDeclared, CodeEvent, KeyOf, Told, Find, Unique, JoinCode, Registered, SlotOf;
    forall a: Action, o: Option<Entry>, known: bool | a in Told(s, false) && Registered(o)
      ensures Registered(LocalStep(o, InputOf(a), key, known))
    {
      if a.Hear? {
        if KeyOf(a.value) == key {
          var e := ToldAbout(s, false, a);
          SettledSlot(e);
          JoinKeepsRegistered(o, a.code, a.value, if a.value.Listener? then a.sub else 0, known);
        }
      } else {
        ToldNoLeaveAll(s, a);
      }
    }
  }

  lemma SettledSlot(e: Entry)
    requires e.att.app == QA
    ensures JoinCode(CodeOf(SlotOf(e, Tx)))
  {}

  lemma ToldNoLeaveAll(s: Station, a: Action)
    requires a in Told(s, false)
    ensures a.Hear?
  {
    var j := KindsFrom(ORDER, Slots(s.entries, Tx), false, a);
  }

  /** Who is settled after transmitting announced it, or was settled before and left it at that. */
  lemma SettledAfterTx(t: Option<Entry>, lva: bool, an: bool)
    requires Settled(LocalSwept(t, TxEvent(lva), None), an)
    ensures t.Some? && (Announces(t.value.att.app, lva) || (!lva && Settled(t, false)))
  {}

  lemma SweptHeeded(t: Option<Entry>, ev: Event, key: Key)
    requires Heeded(t, key)
    ensures Heeded(LocalSwept(t, ev, None), key)
  {}

  lemma {:induction false} TalkerTransmits(s: Station, r: Station, now: int, lva: bool, key: Key, an: bool)
    requires Unique(s.entries) && Unique(r.entries) && |s.addr| == 6
    requires Roomy(Slots(s.entries, TxEvent(lva)), lva)
    requires Agreed(Find(s.entries, key), Find(r.entries, key), key, an)
    ensures var r' := Delivery(r, now, TxPdu(s.addr, Slots(s.entries, TxEvent(lva)), lva));
      && Unique(r'.entries) && r'.addr == r.addr
      && Agreed(LocalSwept(Find(s.entries, key), TxEvent(lva), None), Find(r'.entries, key), key, an)
  {
    hide Told, Roomy, Unique, Find, Delivery, TxPdu, Slots, Dispatchable, Hears, Announces, LocalSwept, KeyOf, Stable,
         Ignored;
    var t := Find(s.entries, key);
    DeliveryHears(s, r, now, lva);
    HearsUnique(r, now, Told(s, lva));
    ObservingStays(Told(s, lva), key);
    HearsKeep(r, now, Told(s, lva), key, o => Observing(o));
    SweptHeeded(t, TxEvent(lva), key);
    if Settled(LocalSwept(t, TxEvent(lva), None), an) {
      SettledAfterTx(t, lva, an);
      FindHasKey(s.entries, key);
      if Announces(t.value.att.app, lva) {
        DeclarationArrives(s, r, now, lva, t.value);
      } else {
        SettledStaysRegistered(s, key);
        HearsKeep(r, now, Told(s, false), key, o => Registered(o));
      }
    }
  }

  /* ---------- the observer transmits ---------- */

  /** Only In, and only if registered, or Mt. */
  predicate ObserverCode(c: nat, registered: bool) {
    c == if registered then 2 else 4
  }

  lemma ObserverSlot(e: Entry, lva: bool)
    requires e.att.app in {VO, LO}
    ensures ObserverCode(CodeOf(SlotOf(e, TxEvent(lva))), !lva && e.att.reg == IN)
  {}

  lemma HeededStays(acts: seq<Action>, key: Key)
    requires Dispatchable(acts)
    ensures Stable(o => Heeded(o, key), acts, key)
  {
    hide LocalDeclared, CodeEvent, KeyOf;
    forall a: Action, o: Option<Entry>, known: bool | a in acts && Heeded(o, key)
      ensures Heeded(LocalStep(o, InputOf(a), key, known), key)
    {
      if a.Hear? && KeyOf(a.value) == key {
        DeclaredHeeded(o, CodeEvent(a.code), a.value, if a.value.Listener? then a.sub else 0, known);
      }
    }
  }

  /** Not in QA as an attribute of kind `k`. */
  predicate UnsettledAs(o: Option<Entry>, k: Kind) {
    !(Settled(o, false) && KindOf(o.value.value) == k)
  }

  lemma MtUnsettles(o: Option<Entry>, v: Value, sub: Sub, known: bool)
    ensures !Settled(LocalDeclared(o, RMt, v, sub, known), false)
  {}

  /** An observer that does not register the key, or sends LeaveAll, brings nobody into QA. */
  lemma ObserverUnsettles(s: Station, lva: bool, key: Key, k: Kind)
    requires Unique(s.entries) && Dispatchable(Told(s, lva))
    requires Observing(Find(s.entries, key)) && (lva || !Registered(Find(s.entries, key)))
    ensures Stable(o => UnsettledAs(o, k), Told(s, lva), key)
  {
    hide LocalDeclared, KeyOf, Told, Find, Unique, SlotOf;
    forall a: Action, o: Option<Entry>, known: bool | a in Told(s, lva) && UnsettledAs(o, k)
      ensures UnsettledAs(LocalStep(o, InputOf(a), key, known), k)
    {
      if a.Hear? && KeyOf(a.value) == key {
        var e := ToldAbout(s, lva, a);
        ObserverSlot(e, lva);
        MtUnsettles(o, a.value, if a.value.Listener? then a.sub else 0, known);
      }
    }
  }

  lemma SweptUnsettled(o: Option<Entry>, k: Kind)
    ensures UnsettledAs(LocalSwept(o, RLA, Some(k)), k)
  {}

  lemma {:induction false} NotQuietAfter(s: Station, r: Station, now: int, lva: bool, key: Key)
    requires Unique(s.entries) && Unique(r.entries) && Dispatchable(Told(s, lva))
    requires Observing(Find(s.entries, key))
    requires lva || (!Registered(Find(s.entries, key)) && !Settled(Find(r.entries, key), false))
    ensures !Settled(Find(Hears(r, now, Told(s, lva)).entries, key), false)
  {
    hide Told, Unique, Find, Dispatchable, Hears, KeyOf, Stable, LocalSwept, KindOf, Ignored;
    var o := Find(Hears(r, now, Told(s, lva)).entries, key);
    if Settled(o, false) {
      var k := KindOf(o.value.value);
      ObserverUnsettles(s, lva, key, k);
      if lva {
        ToldLeaveAll(s, k);
        forall x: Option<Entry> ensures UnsettledAs(LocalSwept(x, RLA, Some(k)), k) {
          SweptUnsettled(x, k);
        }
        AlwaysTrue(Told(s, lva), key);
        LeaveAllSettles(r, now, Told(s, lva), key, k, x => true, x => UnsettledAs(x, k));
      } else {
        HearsKeep(r, now, Told(s, lva), key, x => UnsettledAs(x, k));
      }
    }
  }

  lemma AlwaysTrue(acts: seq<Action>, key: Key)
    requires Dispatchable(acts)
    ensures Stable(o => true, acts, key)
  {}

  /** In AN, for all that the observer told it. */
  lemma {:induction false} NotAnnouncedAfter(s: Station, r: Station, now: int, lva: bool, key: Key)
    requires Unique(s.entries) && Unique(r.entries) && |s.addr| == 6
    requires Roomy(Slots(s.entries, TxEvent(lva)), lva)
    requires Agreed(Find(r.entries, key), Find(s.entries, key), key, true) && (lva || !Registered(Find(s.entries, key)))
    requires lva && InAn(Find(r.entries, key)) ==>
      !(Find(r.entries, key).value.value.TalkerFailed? && CarriesAdvertise(s, key))
    ensures !InAn(Find(Delivery(r, now, TxPdu(s.addr, Slots(s.entries, TxEvent(lva)), lva)).entries, key))
  {
    hide Told, Unique, Find, Dispatchable, Hears, KeyOf, Stable, Delivery, TxPdu, Slots, Roomy, CarriesAdvertise,
         Ignored, SweepKind;
    if InAn(Find(r.entries, key)) {
      MissesExactly(s, r, now, key);
    } else {
      DeliveryHears(s, r, now, lva);
      NotAnStays(Told(s, lva), key);
      HearsKeep(r, now, Told(s, lva), key, o => !InAn(o));
    }
  }

  lemma SweptObserver(o: Option<Entry>, lva: bool)
    requires Observing(o)
    ensures Observing(LocalSwept(o, TxEvent(lva), None))
    ensures Registered(LocalSwept(o, TxEvent(lva), None)) <==> !lva && Registered(o)
  {}

  lemma {:induction false} ObserverTransmits(s: Station, r: Station, now: int, lva: bool, key: Key, an: bool)
    requires Unique(s.entries) && Unique(r.entries) && |s.addr| == 6
    requires Roomy(Slots(s.entries, TxEvent(lva)), lva)
    requires Agreed(Find(r.entries, key), Find(s.entries, key), key, an)
    requires an && lva && InAn(Find(r.entries, key)) ==>
      !(Find(r.entries, key).value.value.TalkerFailed? && CarriesAdvertise(s, key))
    ensures var r' := Delivery(r, now, TxPdu(s.addr, Slots(s.entries, TxEvent(lva)), lva));
      && Unique(r'.entries) && r'.addr == r.addr
      && Agreed(Find(r'.entries, key), LocalSwept(Find(s.entries, key), TxEvent(lva), None), key, an)
  {
    hide Told, Roomy, Unique, Find, Delivery, TxPdu, Slots, Dispatchable, Hears, Heeded, KeyOf, Stable, LocalSwept,
         CarriesAdvertise;
    DeliveryHears(s, r, now, lva);
    HearsUnique(r, now, Told(s, lva));
    HeededStays(Told(s, lva), key);
    HearsKeep(r, now, Told(s, lva), key, o => Heeded(o, key));
    SweptObserver(Find(s.entries, key), lva);
    if lva || !Registered(Find(s.entries, key)) {
      NotQuietAfter(s, r, now, lva, key);
      if an {
        NotAnnouncedAfter(s, r, now, lva, key);
      }
    }
  }

  /* ---------- runs ---------- */

  lemma {:induction false} NetStepKeeps(n: Net, a: Act, key: Key, an: bool)
    requires NetInv(n, key, an) && ActAllowed(a, key) && ActFits(n, a) && (an ==> !Misses(n, a, key))
    ensures NetInv(NetStep(n, a), key, an)
  {
    hide Unique, Find, Agreed, LocalStep, TxPdu, Roomy, Slots, SweepKind, KeyOf, AttrStep, Kept, CarriesAdvertise;
    var s := if a.byTalker then n.talker else n.observer;
    var r := if a.byTalker then n.observer else n.talker;
    StepUnique(s, a.now, a.input);
    StepAddr(s, a.now, a.input);
    StepIsLocal(s, a.now, a.input, key);
    if Quiet(a.input) {
      QuietIsSilent(s, a.now, a.input);
      LocalQuiet(Find(n.talker.entries, key), Find(n.observer.entries, key), a, key,
                 a.input.Attr? && TalkerKnown(s.entries, a.input.value), an);
    } else {
      var lva := a.input.LeaveAllExpiry?;
      SendingStep(Find(s.entries, key), a.input, key);
      if a.byTalker {
        TalkerTransmits(s, r, a.now, lva, key, an);
      } else {
        ObserverTransmits(s, r, a.now, lva, key, an);
      }
    }
  }

  lemma QuietIsSilent(s: Station, now: int, i: Input)
    requires Quiet(i)
    ensures Step(s, now, i).frame == None
  {
    hide Current, Handled, HandledNotify, Kept, SweepKind;
  }

  lemma SendingStep(o: Option<Entry>, i: Input, key: Key)
    requires i.TxOpportunity? || i.LeaveAllExpiry?
    ensures LocalStep(o, i, key, false) == LocalSwept(o, TxEvent(i.LeaveAllExpiry?), None)
  {}

  /** No LeaveAll of the run misses the talker. */
  ghost predicate NeverMissed(n: Net, acts: seq<Act>, key: Key) {
    forall k | 0 <= k < |acts| :: !Misses(NetRun(n, acts[..k]), acts[k], key)
  }

  lemma {:induction false} NetInvHolds(n: Net, acts: seq<Act>, key: Key, an: bool)
    requires NetInv(n, key, an) && Watched(n, acts, key) && (an ==> NeverMissed(n, acts, key))
    ensures NetInv(NetRun(n, acts), key, an)
  {
    hide NetInv, NetStep, ActAllowed, ActFits, Misses;
    if acts != [] {
      var before, last := acts[..|acts| - 1], acts[|acts| - 1];
      assert forall k | 0 <= k < |before| :: before[..k] == acts[..k] && before[k] == acts[k];
      NetInvHolds(n, before, key, an);
      NetStepKeeps(NetRun(n, before), last, key, an);
    }
  }

  lemma StartAgrees(t: seq<byte>, o: seq<byte>, key: Key, an: bool)
    requires |t| == 6 && |o| == 6
    ensures NetInv(Net(Init(t), Init(o)), key, an)
  {}

  /**
  Two-station safety for MSRP: in every run of two freshly started participants in which PDUs have room, the observer
  never asks for the stream or class and the talker is never a listener to be ignored, an applicant that has settled in
  QA is registered (IN) at the observer.
  */
  lemma {:induction false} SettledMeansRegistered(t: seq<byte>, o: seq<byte>, acts: seq<Act>, key: Key)
    requires |t| == 6 && |o| == 6 && Watched(Net(Init(t), Init(o)), acts, key)
    ensures var n := NetRun(Net(Init(t), Init(o)), acts);
      var a := Find(n.talker.entries, key);
      a.Some? && a.value.att.app == QA ==> Registered(Find(n.observer.entries, key))
  {
    StartAgrees(t, o, key, false);
    NetInvHolds(Net(Init(t), Init(o)), acts, key, false);
  }

  /* ---------- AN: exactly when no LeaveAll is missed ---------- */

  /** A talker in QA or AN is registered. */
  predicate Safe(n: Net, key: Key) {
    Settled(Find(n.talker.entries, key), true) ==> Registered(Find(n.observer.entries, key))
  }

  /** A LeaveAll that misses the talker leaves it in AN, and the observer has stopped to register it. */
  lemma MissingIsUnsafe(n: Net, a: Act, key: Key)
    requires Unique(n.talker.entries) && Unique(n.observer.entries) && |n.observer.addr| == 6
    requires Misses(n, a, key) && ActFits(n, a)
    ensures InAn(Find(NetStep(n, a).talker.entries, key)) && !Registered(Find(NetStep(n, a).observer.entries, key))
    ensures !Safe(NetStep(n, a), key)
  {
    hide Unique, Find, TxPdu, Roomy, Slots, SweepKind, CarriesAdvertise, Delivery;
    MissesExactly(n.observer, n.talker, a.now, key);
    StepIsLocal(n.observer, a.now, a.input, key);
  }

  /**
  At every point of such a run a talker in QA or AN is registered, if and only if no LeaveAll of the observer found it
  in AN as Failed and carried its stream as Advertise.
  */
  lemma {:induction false} SafeIffNeverMissed(t: seq<byte>, o: seq<byte>, acts: seq<Act>, key: Key)
    requires |t| == 6 && |o| == 6 && Watched(Net(Init(t), Init(o)), acts, key)
    ensures NeverMissed(Net(Init(t), Init(o)), acts, key) <==>
      forall k | 0 <= k <= |acts| :: Safe(NetRun(Net(Init(t), Init(o)), acts[..k]), key)
  {
    hide Misses, Safe, ActAllowed, ActFits, NetStep, NetInv;
    var n := Net(Init(t), Init(o));
    if NeverMissed(n, acts, key) {
      forall k | 0 <= k <= |acts| ensures Safe(NetRun(n, acts[..k]), key) {
        PrefixWatched(n, acts, key, k);
        StartAgrees(t, o, key, true);
        NetInvHolds(n, acts[..k], key, true);
        AgreedIsSafe(NetRun(n, acts[..k]), key);
      }
    } else {
      var k :| 0 <= k < |acts| && Misses(NetRun(n, acts[..k]), acts[k], key);
      PrefixWatched(n, acts, key, k);
      StartAgrees(t, o, key, false);
      NetInvHolds(n, acts[..k], key, false);
      AgreedIsSafe(NetRun(n, acts[..k]), key);
      MissingIsUnsafe(NetRun(n, acts[..k]), acts[k], key);
      assert acts[..k + 1][..k] == acts[..k] && acts[..k + 1][k] == acts[k];
      assert !Safe(NetRun(n, acts[..k + 1]), key);
    }
  }

  lemma AgreedIsSafe(n: Net, key: Key)
    requires NetInv(n, key, true) || NetInv(n, key, false)
    ensures NetInv(n, key, true) ==> Safe(n, key)
    ensures Unique(n.talker.entries) && Unique(n.observer.entries) && |n.observer.addr| == 6
  {}

  lemma PrefixWatched(n: Net, acts: seq<Act>, key: Key, k: nat)
    requires Watched(n, acts, key) && k <= |acts|
    ensures Watched(n, acts[..k], key) && (NeverMissed(n, acts, key) ==> NeverMissed(n, acts[..k], key))
  {
    hide Misses, ActAllowed, ActFits, NetRun;
    forall i | 0 <= i < k ensures acts[..k][..i] == acts[..i] && acts[..k][i] == acts[i] {}
  }

  /* ---------- a talker that keeps its type is never missed ---------- */

  predicate Typed(o: Option<Entry>, key: Key, k: Kind) {
    o.Some? ==> KeyOf(o.value.value) == key && KindOf(o.value.value) == k
  }

  ghost predicate BothTyped(n: Net, key: Key, k: Kind) {
    && Unique(n.talker.entries) && Unique(n.observer.entries) && |n.talker.addr| == 6 && |n.observer.addr| == 6
    && Typed(Find(n.talker.entries, key), key, k) && Typed(Find(n.observer.entries, key), key, k)
  }

  lemma DeclaredTyped(o: Option<Entry>, ev: Event, v: Value, sub: Sub, known: bool)
    requires Typed(o, KeyOf(v), KindOf(v))
    ensures Typed(LocalDeclared(o, ev, v, sub, known), KeyOf(v), KindOf(v))
  {
    hide Handled, Reclaimable;
    if o.Some? {
      MergeKeepsKey(o.value, v, sub, known);
    }
  }

  lemma TypedStays(s: Station, lva: bool, key: Key, k: Kind)
    requires Unique(s.entries) && Dispatchable(Told(s, lva)) && Typed(Find(s.entries, key), key, k)
    ensures Stable(o => Typed(o, key, k), Told(s, lva), key)
  {
    hide LocalDeclared, CodeEvent, KeyOf, KindOf, Told, Find, Unique, SlotOf;
    forall a: Action, o: Option<Entry>, known: bool | a in Told(s, lva) && Typed(o, key, k)
      ensures Typed(LocalStep(o, InputOf(a), key, known), key, k)
    {
      if a.Hear? && KeyOf(a.value) == key {
        var e := ToldAbout(s, lva, a);
        DeclaredTyped(o, CodeEvent(a.code), a.value, if a.value.Listener? then a.sub else 0, known);
      }
    }
  }

  /** Every request for the key is of type `k`. */
  predicate OfType(a: Act, key: Key, k: Kind) {
    a.input.Attr? && KeyOf(a.input.value) == key ==> KindOf(a.input.value) == k
  }

  lemma LocalTyped(o: Option<Entry>, a: Act, key: Key, k: Kind, known: bool)
    requires Typed(o, key, k) && OfType(a, key, k)
    ensures Typed(LocalStep(o, a.input, key, known), key, k)
  {
    hide LocalDeclared, KeyOf, KindOf;
    if a.input.Attr? && KeyOf(a.input.value) == key {
      DeclaredTyped(o, a.input.ev, a.input.value, a.input.sub, known);
    }
  }

  lemma {:induction false} TypedStep(n: Net, a: Act, key: Key, k: Kind)
    requires BothTyped(n, key, k) && OwnInput(a.input) && ActFits(n, a) && OfType(a, key, k)
    ensures BothTyped(NetStep(n, a), key, k)
  {
    hide Unique, Find, LocalStep, TxPdu, Roomy, Slots, SweepKind, KeyOf, KindOf, AttrStep, Kept, Told, Hears, Stable,
         Dispatchable, OfType;
    var s := if a.byTalker then n.talker else n.observer;
    var r := if a.byTalker then n.observer else n.talker;
    StepUnique(s, a.now, a.input);
    StepAddr(s, a.now, a.input);
    StepIsLocal(s, a.now, a.input, key);
    LocalTyped(Find(s.entries, key), a, key, k, a.input.Attr? && TalkerKnown(s.entries, a.input.value));
    if Quiet(a.input) {
      QuietIsSilent(s, a.now, a.input);
    } else {
      var lva := a.input.LeaveAllExpiry?;
      DeliveryHears(s, r, a.now, lva);
      HearsUnique(r, a.now, Told(s, lva));
      TypedStays(s, lva, key, k);
      HearsKeep(r, a.now, Told(s, lva), key, o => Typed(o, key, k));
    }
  }

  lemma {:induction false} TypedHolds(n: Net, acts: seq<Act>, key: Key, k: Kind)
    requires BothTyped(n, key, k) && Watched(n, acts, key) && forall i | 0 <= i < |acts| :: OfType(acts[i], key, k)
    ensures BothTyped(NetRun(n, acts), key, k)
  {
    hide BothTyped, NetStep, ActFits, OfType;
    if acts != [] {
      var before, last := acts[..|acts| - 1], acts[|acts| - 1];
      PrefixWatched(n, acts, key, |acts| - 1);
      assert acts[|acts| - 1] == last && ActAllowed(last, key);
      TypedHolds(n, before, key, k);
      TypedStep(NetRun(n, before), last, key, k);
    }
  }

  lemma TypedIsNotMissed(n: Net, a: Act, key: Key, k: Kind)
    requires BothTyped(n, key, k)
    ensures !Misses(n, a, key)
  {
    hide Unique, Told, Find, SlotOf, KeyOf;
    if Misses(n, a, key) {
      var x: Action :| x in Told(n.observer, true) && x.Hear? && KeyOf(x.value) == key && x.value.TalkerAdv?;
      var e := ToldAbout(n.observer, true, x);
    }
  }

  /** A talker that sticks to one type of declaration is never missed, and so registered in AN as well as in QA. */
  lemma {:induction false} OneTypeIsNeverMissed(t: seq<byte>, o: seq<byte>, acts: seq<Act>, key: Key, k: Kind)
    requires |t| == 6 && |o| == 6 && Watched(Net(Init(t), Init(o)), acts, key)
    requires forall i | 0 <= i < |acts| :: OfType(acts[i], key, k)
    ensures NeverMissed(Net(Init(t), Init(o)), acts, key)
  {
    hide BothTyped, Misses, OfType, ActAllowed, ActFits, NetStep;
    var n := Net(Init(t), Init(o));
    StartTyped(t, o, key, k);
    forall i | 0 <= i < |acts| ensures !Misses(NetRun(n, acts[..i]), acts[i], key) {
      PrefixWatched(n, acts, key, i);
      TypedHolds(n, acts[..i], key, k);
      TypedIsNotMissed(NetRun(n, acts[..i]), acts[i], key, k);
    }
  }

  lemma StartTyped(t: seq<byte>, o: seq<byte>, key: Key, k: Kind)
    requires |t| == 6 && |o| == 6
    ensures BothTyped(Net(Init(t), Init(o)), key, k)
  {}

  /* ---------- small databases need no hypothesis about PDUs ---------- */

  predicate Small(n: Net) {
    |n.talker.entries| <= MAX_SURE && |n.observer.entries| <= MAX_SURE
  }

  lemma SmallFits(n: Net, a: Act)
    requires Small(n)
    ensures ActFits(n, a)
  {
    hide Roomy, Slots;
    var es := (if a.byTalker then n.talker else n.observer).entries;
    var lva := a.input.LeaveAllExpiry?;
    SmallDatabaseFits(Slots(es, TxEvent(lva)), lva);
  }

  /** Stations that never hold more than 51 attributes always have room: there is no hypothesis about PDUs then. */
  lemma {:induction false} SmallSettledMeansRegistered(t: seq<byte>, o: seq<byte>, acts: seq<Act>, key: Key)
    requires |t| == 6 && |o| == 6
    requires forall k | 0 <= k < |acts| :: ActAllowed(acts[k], key) && Small(NetRun(Net(Init(t), Init(o)), acts[..k]))
    ensures Watched(Net(Init(t), Init(o)), acts, key)
    ensures var n := NetRun(Net(Init(t), Init(o)), acts);
      Settled(Find(n.talker.entries, key), false) ==> Registered(Find(n.observer.entries, key))
  {
    hide ActFits, ActAllowed, Small, NetStep, Find, Registered;
    var n := Net(Init(t), Init(o));
    forall k | 0 <= k < |acts| ensures ActFits(NetRun(n, acts[..k]), acts[k]) {
      SmallFits(NetRun(n, acts[..k]), acts[k]);
    }
    SettledMeansRegistered(t, o, acts, key);
  }
}
