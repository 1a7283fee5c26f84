/**
Two MSRP stations on a lossless link on which frames take their time: each direction is a queue of frames, oldest
first. In every run a talker that has settled is, or will be, registered, unless it made an own LeaveAll in VP or a
local Leave in VN; and for AN, unless a LeaveAll that arrived missed it.
*/
module MsrpDelayed {
  import opened Mrp
  import opened MrpPdu
  import opened MrpParticipant
  import opened MsrpCodec
  import opened MsrpRoundTrip
  import opened MsrpStation
  import opened MsrpRuns
  import opened MsrpPointwise
  import opened MsrpDelivery
  import opened MsrpRoom
  import opened MsrpMissed
  import opened MsrpLink
  import opened LinkQueues

  /** The two stations and the frames under way in either direction. */
  datatype Link = Link(talker: Station, observer: Station, toTalker: seq<seq<byte>>, toObserver: seq<seq<byte>>)

  /** A station acts on its own account, or the oldest frame under way to it arrives. */
  datatype Move = Acts(byTalker: bool, now: int, input: Input) | Arrives(atTalker: bool, now: int)

  function Queued(frames: seq<seq<byte>>, frame: Option<seq<byte>>): seq<seq<byte>> {
    if frame.Some? then frames + [frame.value] else frames
  }

  function LinkStep(l: Link, m: Move): Link {
    match m
    case Acts(true, now, i) =>
      var out := Step(l.talker, now, i);
      l.(talker := out.next, toObserver := Queued(l.toObserver, out.frame))
    case Acts(false, now, i) =>
      var out := Step(l.observer, now, i);
      l.(observer := out.next, toTalker := Queued(l.toTalker, out.frame))
    case Arrives(true, now) =>
      if l.toTalker == [] then l
      else l.(talker := Receive(l.talker, now, l.toTalker[0]), toTalker := l.toTalker[1..])
    case Arrives(false, now) =>
      if l.toObserver == [] then l
      else l.(observer := Receive(l.observer, now, l.toObserver[0]), toObserver := l.toObserver[1..])
  }

  function LinkRun(l: Link, moves: seq<Move>): Link {
    if moves == [] then l else LinkStep(LinkRun(l, moves[..|moves| - 1]), moves[|moves| - 1])
  }

  /** Own inputs only, PDUs with room, no request by the observer for `key`, none by the talker to be ignored. */
  predicate Allowed(l: Link, m: Move, key: Key) {
    m.Acts? ==>
      var a := Act(m.byTalker, m.now, m.input);
      ActAllowed(a, key) && ActFits(Net(l.talker, l.observer), a)
  }

  /** The two transitions of the talker that must not happen. */
  predicate Skips(l: Link, m: Move, key: Key) {
    var t := Find(l.talker.entries, key);
    && m.Acts? && m.byTalker && t.Some?
    && ((t.value.att.app == VP && m.input == LeaveAllExpiry) || (t.value.att.app == VN && Leaves(m.input, key)))
  }

  predicate Leaves(i: Input, key: Key) {
    i.Attr? && i.ev == Leave && KeyOf(i.value) == key
  }

  /** A frame with LeaveAll that carries the stream as Advertise, and an entry that is in AN as Failed. */
  ghost predicate MissedBy(t: Option<Entry>, f: seq<byte>, key: Key) {
    && InAn(t) && t.value.value.TalkerFailed? && HearLeaveAll(FailedKind) in Decode(f).actions
    && exists a: Action | a in Decode(f).actions :: a.Hear? && KeyOf(a.value) == key && a.value.TalkerAdv?
  }

  ghost predicate Misses(l: Link, m: Move, key: Key) {
    m.Arrives? && m.atTalker && l.toTalker != [] && MissedBy(Find(l.talker.entries, key), l.toTalker[0], key)
  }

  /** `an` says whether AN counts; then no LeaveAll may miss the talker. */
  ghost predicate Watched(l: Link, moves: seq<Move>, key: Key, an: bool) {
    forall k | 0 <= k < |moves| ::
      var before := LinkRun(l, moves[..k]);
      Allowed(before, moves[k], key) && !Skips(before, moves[k], key) && (an ==> !Misses(before, moves[k], key))
  }

  /* ---------- the talker ---------- */

  predicate Talking(t: Option<Entry>) {
    t.Some? ==> t.value.att.app in {VO, LO, VP, VN, AN, AA, QA, LA}
  }

  predicate Active(t: Option<Entry>) {
    t.Some? && t.value.att.app in {AN, AA, QA, LA}
  }

  function TalkerOf(t: Option<Entry>, an: bool): Talker {
    Talker(Active(t), Settled(t, an))
  }

  lemma SettledIsActive(t: Option<Entry>, an: bool)
    ensures Settled(t, an) ==> Active(t)
  {}

  /* ---------- what a frame does ---------- */

  /** Whichever station it is that the frame arrives at. */
  ghost predicate Does(f: seq<byte>, e: Effect, key: Key) {
    forall r: Station, now: int | Unique(r.entries) ::
      Works(e, Registered(Find(r.entries, key)), Registered(Find(Receive(r, now, f).entries, key)))
  }

  /** Only In brings a talker to rest, and a LeaveAll takes it from there. */
  predicate Answered(t: Option<Entry>, t': Option<Entry>, g: Answer, an: bool) {
    && Talking(t') && (Active(t') ==> Active(t))
    && (Settled(t', an) ==> !g.lva && (Settled(t, an) || g.confirms))
  }

  ghost predicate Returns(f: seq<byte>, g: Answer, key: Key, an: bool) {
    forall r: Station, now: int | Unique(r.entries) && Talking(Find(r.entries, key)) ::
      (an ==> !MissedBy(Find(r.entries, key), f, key)) ==>
        Answered(Find(r.entries, key), Find(Receive(r, now, f).entries, key), g, an)
  }

  /** What every frame leaves alone. */
  lemma FrameKeeps(r: Station, now: int, f: seq<byte>, key: Key)
    requires Unique(r.entries)
    ensures var r' := Receive(r, now, f);
      && Unique(r'.entries) && r'.addr == r.addr
      && (Observing(Find(r.entries, key)) ==> Observing(Find(r'.entries, key)))
      && (Heeded(Find(r.entries, key), key) ==> Heeded(Find(r'.entries, key), key))
  {
    hide Unique, Find, Decode, Hears, Dispatchable, Stable, Observing, Heeded;
    DecodeDispatchable(f);
    var acts := Decode(f).actions;
    HearsUnique(r, now, acts);
    ObservingStays(acts, key);
    HeededStays(acts, key);
    if Observing(Find(r.entries, key)) {
      HearsKeep(r, now, acts, key, o => Observing(o));
    }
    if Heeded(Find(r.entries, key), key) {
      HearsKeep(r, now, acts, key, o => Heeded(o, key));
    }
  }

  /* ---------- the talker transmits ---------- */

  /** New and Join register; the optional Join of a talker in QA at least does no harm. */
  function EffectOf(t: Option<Entry>, lva: bool): Effect {
    if t.Some? && Announces(t.value.att.app, lva) then Registers
    else if !lva && Settled(t, false) then Keeps
    else Withdraws
  }

  lemma TalkerEffect(t: Option<Entry>, lva: bool, an: bool)
    requires Talking(t) && !(lva && t.Some? && t.value.att.app == VP)
    ensures var t', e := LocalSwept(t, TxEvent(lva), None), EffectOf(t, lva);
      && Talking(t')
      && (Active(t') ==> e == Registers || (e == Keeps && Active(t) && (Settled(t', an) ==> Settled(t, an))))
  {}

  lemma {:induction false} TalkerDelivers(s: Station, lva: bool, key: Key, r: Station, now: int)
    requires Unique(s.entries) && Unique(r.entries) && |s.addr| == 6 && Roomy(Slots(s.entries, TxEvent(lva)), lva)
    requires Heeded(Find(s.entries, key), key)
    ensures var r' := Delivery(r, now, TxPdu(s.addr, Slots(s.entries, TxEvent(lva)), lva));
      Works(EffectOf(Find(s.entries, key), lva), Registered(Find(r.entries, key)), Registered(Find(r'.entries, key)))
  {
    hide Told, Roomy, Unique, Find, Delivery, TxPdu, Slots, Dispatchable, Hears, Announces, KeyOf, Stable, Ignored,
         Wire;
    var t := Find(s.entries, key);
    FindHasKey(s.entries, key);
    DeliveryHears(s, r, now, lva);
    if t.Some? && Announces(t.value.att.app, lva) {
      DeclarationArrives(s, r, now, lva, t.value);
    } else if !lva && Settled(t, false) && Registered(Find(r.entries, key)) {
      SettledStaysRegistered(s, key);
      HearsKeep(r, now, Told(s, false), key, o => Registered(o));
    }
  }

  /** Where there is no frame nothing was announced. */
  lemma {:induction false} TalkerFrame(s: Station, lva: bool, key: Key)
    requires Unique(s.entries) && |s.addr| == 6 && Roomy(Slots(s.entries, TxEvent(lva)), lva)
    requires Heeded(Find(s.entries, key), key)
    ensures var frame, e := TxPdu(s.addr, Slots(s.entries, TxEvent(lva)), lva), EffectOf(Find(s.entries, key), lva);
      if frame.Some? then Does(frame.value, e, key) else e != Registers
  {
    hide Roomy, Unique, Find, TxPdu, Slots, Receive, EffectOf, Heeded, Registered, Works;
    var frame, e := TxPdu(s.addr, Slots(s.entries, TxEvent(lva)), lva), EffectOf(Find(s.entries, key), lva);
    if frame.Some? {
      forall r: Station, now: int | Unique(r.entries)
        ensures Works(e, Registered(Find(r.entries, key)), Registered(Find(Receive(r, now, frame.value).entries, key)))
      {
        TalkerDelivers(s, lva, key, r, now);
      }
    } else {
      var blank := Init(s.addr);
      BlankStation(s.addr, key);
      TalkerDelivers(s, lva, key, blank, 0);
      NothingWorks(e);
    }
  }

  lemma BlankStation(addr: seq<byte>, key: Key)
    ensures Unique(Init(addr).entries) && !Registered(Find(Init(addr).entries, key))
  {}

  lemma NothingWorks(e: Effect)
    requires Works(e, false, false)
    ensures e != Registers
  {}

  /* ---------- the observer transmits ---------- */

  function AnswerOf(o: Option<Entry>, lva: bool): Answer {
    Answer(lva, !lva && Registered(o))
  }

  predicate Idle(t: Option<Entry>) {
    Talking(t) && !Active(t)
  }

  lemma TalkingDeclared(t: Option<Entry>, c: Code, v: Value, sub: Sub, known: bool)
    requires Talking(t) && c in {2, 4}
    ensures Talking(LocalDeclared(t, CodeEvent(c), v, sub, known))
    ensures !Active(t) ==> !Active(LocalDeclared(t, CodeEvent(c), v, sub, known))
  {
    hide Merged, NextReg, RegEvent;
    if t.Some? {
      MergedApp(t.value, v, sub, known);
    }
  }

  lemma TalkingSwept(t: Option<Entry>, k: Kind)
    requires Talking(t)
    ensures Talking(LocalSwept(t, RLA, Some(k))) && (!Active(t) ==> !Active(LocalSwept(t, RLA, Some(k))))
  {
    hide NextReg, KindOf;
  }

  /** In and Mt, and LeaveAll, leave a talker a talker and make none active. */
  lemma ObserverStable(s: Station, lva: bool, key: Key)
    requires Unique(s.entries) && Dispatchable(Told(s, lva)) && Observing(Find(s.entries, key))
    ensures Stable(o => Talking(o), Told(s, lva), key) && Stable(o => Idle(o), Told(s, lva), key)
  {
    hide LocalDeclared, KeyOf, Told, Find, Unique, SlotOf, CodeEvent, Talking, Active, LocalSwept, CodeOf;
    forall a: Action, o: Option<Entry>, known: bool | a in Told(s, lva) && Talking(o)
      ensures Talking(LocalStep(o, InputOf(a), key, known))
      ensures !Active(o) ==> !Active(LocalStep(o, InputOf(a), key, known))
    {
      if !a.Hear? {
        TalkingSwept(o, a.kind);
      } else if KeyOf(a.value) == key {
        var e := ToldAbout(s, lva, a);
        ObserverSlot(e, lva);
        TalkingDeclared(o, a.code, a.value, if a.value.Listener? then a.sub else 0, known);
      }
    }
  }

  lemma {:induction false} ObserverDelivers(s: Station, lva: bool, key: Key, an: bool, r: Station, now: int,
                                            f: seq<byte>)
    requires Unique(s.entries) && Unique(r.entries) && |s.addr| == 6 && Roomy(Slots(s.entries, TxEvent(lva)), lva)
    requires Observing(Find(s.entries, key)) && Talking(Find(r.entries, key))
    requires TxPdu(s.addr, Slots(s.entries, TxEvent(lva)), lva) == Some(f)
    requires an ==> !MissedBy(Find(r.entries, key), f, key)
    ensures Answered(Find(r.entries, key), Find(Receive(r, now, f).entries, key), AnswerOf(Find(s.entries, key), lva),
                     an)
  {
    hide Told, Roomy, Unique, Find, TxPdu, Slots, Dispatchable, Hears, Stable, Decode, Talking, Active, MissedBy,
         Observing, Registered;
    var t, o := Find(r.entries, key), Find(s.entries, key);
    FrameTells(s, lva);
    ObserverStable(s, lva, key);
    HearsKeep(r, now, Told(s, lva), key, x => Talking(x));
    if !Active(t) {
      HearsKeep(r, now, Told(s, lva), key, x => Idle(x));
    }
    if lva || (!Registered(o) && !Settled(t, false)) {
      NotQuietAfter(s, r, now, lva, key);
    }
    if an {
      AnnouncedBefore(s, lva, key, r, now, f);
    }
  }

  /** In AN after the frame only if in AN before; and after a LeaveAll not even then, unless it missed. */
  lemma {:induction false} AnnouncedBefore(s: Station, lva: bool, key: Key, r: Station, now: int, f: seq<byte>)
    requires Unique(s.entries) && Unique(r.entries) && |s.addr| == 6 && Roomy(Slots(s.entries, TxEvent(lva)), lva)
    requires TxPdu(s.addr, Slots(s.entries, TxEvent(lva)), lva) == Some(f) && !MissedBy(Find(r.entries, key), f, key)
    ensures InAn(Find(Receive(r, now, f).entries, key)) ==> !lva && InAn(Find(r.entries, key))
  {
    hide Told, Roomy, Unique, Find, TxPdu, Slots, Dispatchable, Hears, Stable, Decode, KeyOf, SweepKind;
    FrameTells(s, lva);
    if !InAn(Find(r.entries, key)) {
      NotAnStays(Told(s, lva), key);
      HearsKeep(r, now, Told(s, lva), key, o => !InAn(o));
    } else if lva {
      ToldLeaveAll(s, FailedKind);
      MissesExactly(s, r, now, key);
    }
  }

  lemma {:induction false} ObserverFrame(s: Station, lva: bool, key: Key, an: bool)
    requires Unique(s.entries) && |s.addr| == 6 && Roomy(Slots(s.entries, TxEvent(lva)), lva)
    requires Observing(Find(s.entries, key))
    ensures var frame := TxPdu(s.addr, Slots(s.entries, TxEvent(lva)), lva);
      if frame.Some? then Returns(frame.value, AnswerOf(Find(s.entries, key), lva), key, an) else !lva
  {
    hide Roomy, Unique, Find, TxPdu, Slots, Receive, AnswerOf, Talking, MissedBy, Answered, Observing, Told, Decode,
         Dispatchable;
    var frame := TxPdu(s.addr, Slots(s.entries, TxEvent(lva)), lva);
    if frame.Some? {
      forall r: Station, now: int | Unique(r.entries) && Talking(Find(r.entries, key))
        ensures (an ==> !MissedBy(Find(r.entries, key), frame.value, key)) ==>
          Answered(Find(r.entries, key), Find(Receive(r, now, frame.value).entries, key),
                   AnswerOf(Find(s.entries, key), lva), an)
      {
        if an ==> !MissedBy(Find(r.entries, key), frame.value, key) {
          ObserverDelivers(s, lva, key, an, r, now, frame.value);
        }
      }
    } else if lva {
      FrameTells(s, lva);
      ToldLeaveAll(s, AdvKind);
    }
  }

  /* ---------- the invariant over runs ---------- */

  ghost predicate AllDo(frames: seq<seq<byte>>, b: seq<Effect>, key: Key) {
    |frames| == |b| && forall i | 0 <= i < |b| :: Does(frames[i], b[i], key)
  }

  ghost predicate AllReturn(frames: seq<seq<byte>>, a: seq<Answer>, key: Key, an: bool) {
    |frames| == |a| && forall i | 0 <= i < |a| :: Returns(frames[i], a[i], key, an)
  }

  ghost predicate Sane(l: Link, key: Key) {
    && Unique(l.talker.entries) && Unique(l.observer.entries) && |l.talker.addr| == 6 && |l.observer.addr| == 6
    && Heeded(Find(l.talker.entries, key), key) && Talking(Find(l.talker.entries, key))
    && Observing(Find(l.observer.entries, key))
  }

  ghost predicate Holding(l: Link, a: seq<Answer>, b: seq<Effect>, key: Key, an: bool) {
    && Sane(l, key) && AllReturn(l.toTalker, a, key, an) && AllDo(l.toObserver, b, key)
    && Inv(TalkerOf(Find(l.talker.entries, key), an), Registered(Find(l.observer.entries, key)), a, b)
  }

  lemma {:induction false} ArrivesAtTalker(l: Link, now: int, a: seq<Answer>, b: seq<Effect>, key: Key, an: bool)
    requires Holding(l, a, b, key, an) && l.toTalker != [] && (an ==> !Misses(l, Arrives(true, now), key))
    ensures Holding(LinkStep(l, Arrives(true, now)), a[1..], b, key, an)
  {
    hide Unique, Find, Receive, Inv, Talking, Observing, Heeded, Active, Settled, Registered, MissedBy, Does;
    var t, t' := Find(l.talker.entries, key), Find(Receive(l.talker, now, l.toTalker[0]).entries, key);
    FrameKeeps(l.talker, now, l.toTalker[0], key);
    assert Returns(l.toTalker[0], a[0], key, an);
    assert Answered(t, t', a[0], an);
    SettledIsActive(t', an);
    TalkerHears(TalkerOf(t, an), TalkerOf(t', an), Registered(Find(l.observer.entries, key)), a, b);
  }

  lemma {:induction false} ArrivesAtObserver(l: Link, now: int, a: seq<Answer>, b: seq<Effect>, key: Key, an: bool)
    requires Holding(l, a, b, key, an) && l.toObserver != []
    ensures Holding(LinkStep(l, Arrives(false, now)), a, b[1..], key, an)
  {
    hide Unique, Find, Receive, Inv, Talking, Observing, Heeded, Active, Settled, Registered, Works, Returns, TalkerOf;
    var o, o' := Find(l.observer.entries, key), Find(Receive(l.observer, now, l.toObserver[0]).entries, key);
    FrameKeeps(l.observer, now, l.toObserver[0], key);
    assert Does(l.toObserver[0], b[0], key);
    assert Works(b[0], Registered(o), Registered(o'));
    ObserverHears(TalkerOf(Find(l.talker.entries, key), an), Registered(o), Registered(o'), a, b);
  }

  lemma QuietTalker(t: Option<Entry>, i: Input, key: Key, known: bool, an: bool)
    requires Talking(t) && Quiet(i) && !(t.Some? && t.value.att.app == VN && Leaves(i, key))
    ensures var t' := LocalStep(t, i, key, known);
      Talking(t') && (Active(t') ==> Active(t)) && (Settled(t', an) ==> Settled(t, an))
  {
    hide KeyOf, LocalDeclared, NextReg, KindOf;
    if i.Attr? && KeyOf(i.value) == key {
      RequestTalks(t, i.ev, i.value, i.sub, known, an);
    }
  }

  lemma RequestTalks(t: Option<Entry>, ev: Event, v: Value, sub: Sub, known: bool, an: bool)
    requires Talking(t) && ev in {New, Join, Leave} && !(t.Some? && t.value.att.app == VN && ev == Leave)
    ensures var t' := LocalDeclared(t, ev, v, sub, known);
      Talking(t') && (Active(t') ==> Active(t)) && (Settled(t', an) ==> Settled(t, an))
  {
    hide Merged, NextReg, RegEvent;
    if t.Some? {
      MergedApp(t.value, v, sub, known);
    }
  }

  lemma QuietObserver(o: Option<Entry>, i: Input, key: Key, known: bool)
    requires Observing(o) && Quiet(i) && (i.Attr? ==> KeyOf(i.value) != key)
    ensures Observing(LocalStep(o, i, key, known)) && (Registered(o) ==> Registered(LocalStep(o, i, key, known)))
  {
    hide KeyOf, LocalDeclared, KindOf;
  }

  lemma RequestHeeded(t: Option<Entry>, a: Act, key: Key, known: bool)
    requires Heeded(t, key) && Quiet(a.input) && ActAllowed(a, key)
    ensures Heeded(LocalStep(t, a.input, key, known), key)
  {
    hide KeyOf, LocalDeclared, Ignored;
    if a.input.Attr? && KeyOf(a.input.value) == key {
      DeclaredHeeded(t, a.input.ev, a.input.value, a.input.sub, known);
    } else if t.Some? {
      KeptHeeded(t, a.input, key, known);
    }
  }

  lemma KeptHeeded(t: Option<Entry>, i: Input, key: Key, known: bool)
    requires Heeded(t, key) && Quiet(i) && (i.Attr? ==> KeyOf(i.value) != key)
    ensures Heeded(LocalStep(t, i, key, known), key)
  {
    hide LocalDeclared;
  }

  /** Everything about a station that a move of its own does not depend on the application's machines for. */
  lemma OwnStep(s: Station, now: int, i: Input, key: Key) returns (known: bool)
    requires Unique(s.entries)
    ensures var s' := Step(s, now, i).next;
      Unique(s'.entries) && s'.addr == s.addr && Find(s'.entries, key) == LocalStep(Find(s.entries, key), i, key, known)
  {
    hide Unique, Find, Step, LocalStep, KeyOf;
    known := i.Attr? && TalkerKnown(s.entries, i.value);
    StepUnique(s, now, i);
    StepAddr(s, now, i);
    StepIsLocal(s, now, i, key);
  }

  lemma {:induction false} TalkerQuiet(l: Link, now: int, i: Input, a: seq<Answer>, b: seq<Effect>, key: Key, an: bool)
    requires Holding(l, a, b, key, an) && Quiet(i)
    requires Allowed(l, Acts(true, now, i), key) && !Skips(l, Acts(true, now, i), key)
    ensures Holding(LinkStep(l, Acts(true, now, i)), a, b, key, an)
  {
    hide Unique, Find, Step, LocalStep, Inv, Talking, Observing, Heeded, Active, Settled, Registered, Returns, Does,
         KeyOf, ActFits, ActAllowed, Leaves;
    var t := Find(l.talker.entries, key);
    var known := OwnStep(l.talker, now, i, key);
    QuietIsSilent(l.talker, now, i);
    QuietTalker(t, i, key, known, an);
    RequestHeeded(t, Act(true, now, i), key, known);
    SettledIsActive(LocalStep(t, i, key, known), an);
    TalkerMoves(TalkerOf(t, an), TalkerOf(LocalStep(t, i, key, known), an), Registered(Find(l.observer.entries, key)),
                a, b);
  }

  lemma {:induction false} ObserverQuiet(l: Link, now: int, i: Input, a: seq<Answer>, b: seq<Effect>, key: Key,
                                         an: bool)
    requires Holding(l, a, b, key, an) && Quiet(i) && Allowed(l, Acts(false, now, i), key)
    ensures Holding(LinkStep(l, Acts(false, now, i)), a, b, key, an)
  {
    hide Unique, Find, Step, LocalStep, Inv, Talking, Observing, Heeded, Active, Settled, Registered, Returns, Does,
         KeyOf, ActFits, TalkerOf;
    var o := Find(l.observer.entries, key);
    var known := OwnStep(l.observer, now, i, key);
    QuietIsSilent(l.observer, now, i);
    QuietObserver(o, i, key, known);
    ObserverMoves(TalkerOf(Find(l.talker.entries, key), an), Registered(o), Registered(LocalStep(o, i, key, known)), a,
                  b);
  }

  lemma AllDoAppend(frames: seq<seq<byte>>, b: seq<Effect>, f: seq<byte>, e: Effect, key: Key)
    requires AllDo(frames, b, key) && Does(f, e, key)
    ensures AllDo(frames + [f], b + [e], key)
  {
    hide Does;
  }

  lemma AllReturnAppend(frames: seq<seq<byte>>, a: seq<Answer>, f: seq<byte>, g: Answer, key: Key, an: bool)
    requires AllReturn(frames, a, key, an) && Returns(f, g, key, an)
    ensures AllReturn(frames + [f], a + [g], key, an)
  {
    hide Returns;
  }

  /** A frame that was not sent and would not have registered anything might as well have been. */
  lemma NothingSent(t: Talker, registered: bool, a: seq<Answer>, b: seq<Effect>, e: Effect)
    requires Inv(t, registered, a, b + [e]) && e != Registers
    ensures Inv(t, registered, a, b)
  {
    hide Tail, InUnderWay, HasLeaveAll;
    TailAppend(b, e);
  }

  lemma SendingFrame(s: Station, now: int, i: Input)
    requires i.TxOpportunity? || i.LeaveAllExpiry?
    ensures var lva := i.LeaveAllExpiry?; Step(s, now, i).frame == TxPdu(s.addr, Slots(s.entries, TxEvent(lva)), lva)
  {
    hide TxPdu, Slots, SweepKind;
  }

  lemma {:induction false} TalkerTransmitting(l: Link, now: int, i: Input, a: seq<Answer>, b: seq<Effect>, key: Key,
                                              an: bool)
    returns (b': seq<Effect>)
    requires Holding(l, a, b, key, an) && (i.TxOpportunity? || i.LeaveAllExpiry?)
    requires Allowed(l, Acts(true, now, i), key) && !Skips(l, Acts(true, now, i), key)
    ensures Holding(LinkStep(l, Acts(true, now, i)), a, b', key, an)
  {
    hide Unique, Find, Step, LocalStep, Inv, Talking, Observing, Heeded, Active, Settled, Registered, Returns, Does,
         KeyOf, TxPdu, Slots, Roomy, LocalSwept, EffectOf;
    var t, lva := Find(l.talker.entries, key), i.LeaveAllExpiry?;
    var t', e := LocalSwept(t, TxEvent(lva), None), EffectOf(t, lva);
    StepUnique(l.talker, now, i);
    StepAddr(l.talker, now, i);
    StepIsLocal(l.talker, now, i, key);
    SendingStep(t, i, key);
    SendingFrame(l.talker, now, i);
    TalkerFrame(l.talker, lva, key);
    TalkerEffect(t, lva, an);
    SweptHeeded(t, TxEvent(lva), key);
    SettledIsActive(t', an);
    TalkerSends(TalkerOf(t, an), TalkerOf(t', an), Registered(Find(l.observer.entries, key)), a, b, e);
    var frame := Step(l.talker, now, i).frame;
    if frame.Some? {
      AllDoAppend(l.toObserver, b, frame.value, e, key);
      b' := b + [e];
    } else {
      NothingSent(TalkerOf(t', an), Registered(Find(l.observer.entries, key)), a, b, e);
      b' := b;
    }
  }

  lemma {:induction false} ObserverTransmitting(l: Link, now: int, i: Input, a: seq<Answer>, b: seq<Effect>, key: Key,
                                                an: bool)
    returns (a': seq<Answer>)
    requires Holding(l, a, b, key, an) && (i.TxOpportunity? || i.LeaveAllExpiry?)
    requires Allowed(l, Acts(false, now, i), key)
    ensures Holding(LinkStep(l, Acts(false, now, i)), a', b, key, an)
  {
    hide Unique, Find, Step, LocalStep, Inv, Talking, Observing, Heeded, Active, Settled, Registered, Returns, Does,
         KeyOf, TxPdu, Slots, Roomy, LocalSwept, TalkerOf;
    var o, lva := Find(l.observer.entries, key), i.LeaveAllExpiry?;
    var o', g, t := LocalSwept(o, TxEvent(lva), None), AnswerOf(o, lva), TalkerOf(Find(l.talker.entries, key), an);
    StepUnique(l.observer, now, i);
    StepAddr(l.observer, now, i);
    StepIsLocal(l.observer, now, i, key);
    SendingStep(o, i, key);
    SendingFrame(l.observer, now, i);
    ObserverFrame(l.observer, lva, key, an);
    SweptObserver(o, lva);
    var frame := Step(l.observer, now, i).frame;
    if frame.Some? {
      ObserverSends(t, Registered(o), Registered(o'), a, b, g);
      AllReturnAppend(l.toTalker, a, frame.value, g, key, an);
      a' := a + [g];
    } else {
      ObserverMoves(t, Registered(o), Registered(o'), a, b);
      a' := a;
    }
  }

  lemma UnderWay(l: Link, a: seq<Answer>, b: seq<Effect>, key: Key, an: bool)
    requires Holding(l, a, b, key, an)
    ensures |l.toTalker| == |a| && |l.toObserver| == |b|
  {}

  lemma StepKeeps(l: Link, m: Move, a: seq<Answer>, b: seq<Effect>, key: Key, an: bool)
    returns (a': seq<Answer>, b': seq<Effect>)
    requires Holding(l, a, b, key, an) && Allowed(l, m, key) && !Skips(l, m, key) && (an ==> !Misses(l, m, key))
    ensures Holding(LinkStep(l, m), a', b', key, an)
  {
    hide Holding, Skips, Misses, ActFits, Step, Receive;
    UnderWay(l, a, b, key, an);
    a', b' := a, b;
    match m
    case Arrives(true, now) =>
      if l.toTalker != [] {
        ArrivesAtTalker(l, now, a, b, key, an);
        a' := a[1..];
      }
    case Arrives(false, now) =>
      if l.toObserver != [] {
        ArrivesAtObserver(l, now, a, b, key, an);
        b' := b[1..];
      }
    case Acts(true, now, i) =>
      if Quiet(i) {
        TalkerQuiet(l, now, i, a, b, key, an);
      } else {
        b' := TalkerTransmitting(l, now, i, a, b, key, an);
      }
    case Acts(false, now, i) =>
      if Quiet(i) {
        ObserverQuiet(l, now, i, a, b, key, an);
      } else {
        a' := ObserverTransmitting(l, now, i, a, b, key, an);
      }
  }

  lemma {:induction false} InvHolds(l: Link, moves: seq<Move>, key: Key, an: bool)
    returns (a: seq<Answer>, b: seq<Effect>)
    requires Holding(l, [], [], key, an) && Watched(l, moves, key, an)
    ensures Holding(LinkRun(l, moves), a, b, key, an)
  {
    hide Holding, LinkStep, Allowed, Skips, Misses;
    if moves == [] {
      a, b := [], [];
    } else {
      var before, last := moves[..|moves| - 1], moves[|moves| - 1];
      assert forall k | 0 <= k < |before| :: before[..k] == moves[..k] && before[k] == moves[k];
      var a0, b0 := InvHolds(l, before, key, an);
      a, b := StepKeeps(LinkRun(l, before), last, a0, b0, key, an);
    }
  }

  /* ---------- once everything has arrived ---------- */

  function Drained(r: Station, now: int, frames: seq<seq<byte>>): Station
    decreases |frames|
  {
    if frames == [] then r else Drained(Receive(r, now, frames[0]), now, frames[1..])
  }

  lemma {:induction false} DrainedRegisters(r: Station, now: int, frames: seq<seq<byte>>, b: seq<Effect>, key: Key)
    requires Unique(r.entries) && AllDo(frames, b, key) && WillRegister(Registered(Find(r.entries, key)), b)
    ensures Registered(Find(Drained(r, now, frames).entries, key))
    decreases |frames|
  {
    hide Unique, Find, Receive, Registered, Works;
    if frames != [] {
      var o, r' := Find(r.entries, key), Receive(r, now, frames[0]);
      FrameKeeps(r, now, frames[0], key);
      assert Does(frames[0], b[0], key);
      assert Works(b[0], Registered(o), Registered(Find(r'.entries, key)));
      HearsWillRegister(Registered(o), Registered(Find(r'.entries, key)), b);
      DrainedRegisters(r', now, frames[1..], b[1..], key);
    }
  }

  lemma StartHolds(t: seq<byte>, o: seq<byte>, key: Key, an: bool)
    requires |t| == 6 && |o| == 6
    ensures Holding(Link(Init(t), Init(o), [], []), [], [], key, an)
  {}

  /**
  The guarantee with delay: in every run of two freshly started stations on a lossless link of any delay, in which PDUs
  have room, the observer never asks for the key and the talker makes neither of the two skipping transitions, a talker
  in QA with nothing under way to it is registered (IN) once what is under way to the observer has arrived. So is one in
  AN, if no LeaveAll that arrived missed it.
  */
  lemma {:induction false} SettledWillBeRegistered(t: seq<byte>, o: seq<byte>, moves: seq<Move>, now: int, key: Key,
                                                   an: bool)
    requires |t| == 6 && |o| == 6 && Watched(Link(Init(t), Init(o), [], []), moves, key, an)
    ensures var l := LinkRun(Link(Init(t), Init(o), [], []), moves);
      Settled(Find(l.talker.entries, key), an) && l.toTalker == [] ==>
        Registered(Find(Drained(l.observer, now, l.toObserver).entries, key))
  {
    hide Find, Does, Unique, LinkRun, Settled, Registered, Drained, Watched;
    var l0 := Link(Init(t), Init(o), [], []);
    StartHolds(t, o, key, an);
    var l := LinkRun(l0, moves);
    var a, b := InvHolds(l0, moves, key, an);
    if Settled(Find(l.talker.entries, key), an) && l.toTalker == [] {
      assert a == [];
      DrainedRegisters(l.observer, now, l.toObserver, b, key);
    }
  }

  /** In particular: settled with nothing under way at all, it is registered. */
  lemma SettledMeansRegisteredDespiteDelay(t: seq<byte>, o: seq<byte>, moves: seq<Move>, key: Key, an: bool)
    requires |t| == 6 && |o| == 6 && Watched(Link(Init(t), Init(o), [], []), moves, key, an)
    ensures var l := LinkRun(Link(Init(t), Init(o), [], []), moves);
      Settled(Find(l.talker.entries, key), an) && l.toTalker == [] && l.toObserver == [] ==>
        Registered(Find(l.observer.entries, key))
  {
    hide Find, LinkRun, Settled, Registered, Watched;
    SettledWillBeRegistered(t, o, moves, 0, key, an);
  }
}
