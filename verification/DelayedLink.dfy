/**
Two MVRP stations on a lossless link on which frames take their time: each direction is a queue of frames, oldest
first. In every run a talker that goes quiet is, or will be, registered, unless it made one of two transitions: an own
LeaveAll in VP, or a local Leave in VN. DelayedRuns has a run to a failure for each.
*/
module DelayedLink {
  import opened Mrp
  import opened MrpPdu
  import opened MrpParticipant
  import opened MvrpCodec
  import opened MvrpRoundTrip
  import opened MvrpStation
  import opened MvrpPointwise
  import opened TwoStations
  import opened LinkQueues

  /** The two stations and the frames under way in either direction. */
  datatype Link = Link(talker: Station, observer: Station, toTalker: seq<seq<byte>>, toObserver: seq<seq<byte>>)

  /** A station acts on its own account, or the oldest frame under way to it arrives. */
  datatype Move = Acts(byTalker: bool, now: int, input: Input) | Arrives(atTalker: bool, now: int)

  function Queued(frames: seq<seq<byte>>, frame: Option<seq<byte>>): seq<seq<byte>> {
    if frame.Some? then frames + [frame.value] else frames
  }

  function LinkStep(l: Link, m: Move): Link {
    match m
    case Acts(true, now, i) =>
      var out := Step(l.talker, now, i);
      l.(talker := out.next, toObserver := Queued(l.toObserver, out.frame))
    case Acts(false, now, i) =>
      var out := Step(l.observer, now, i);
      l.(observer := out.next, toTalker := Queued(l.toTalker, out.frame))
    case Arrives(true, now) =>
      if l.toTalker == [] then l
      else l.(talker := Receive(l.talker, now, l.toTalker[0]), toTalker := l.toTalker[1..])
    case Arrives(false, now) =>
      if l.toObserver == [] then l
      else l.(observer := Receive(l.observer, now, l.toObserver[0]), toObserver := l.toObserver[1..])
  }

  function LinkRun(l: Link, moves: seq<Move>): Link {
    if moves == [] then l else LinkStep(LinkRun(l, moves[..|moves| - 1]), moves[|moves| - 1])
  }

  /** Own inputs only, PDUs with room, and no request by the observer for `v`. */
  predicate Allowed(l: Link, m: Move, v: u16) {
    m.Acts? ==>
      && OwnInput(m.input) && ActFits(Net(l.talker, l.observer), Act(m.byTalker, m.now, m.input))
      && (!m.byTalker && m.input.Attr? ==> m.input.vid != v)
  }

  /** The two transitions of the talker that must not happen; they are two of the three that skip a declaration. */
  predicate Skips(l: Link, m: Move, v: u16) {
    var o := Find(l.talker.entries, v);
    && m.Acts? && m.byTalker && o.Some?
    && ((o.value.app == VP && m.input == LeaveAllExpiry) || (o.value.app == VN && m.input == Attr(Leave, v)))
  }

  ghost predicate Watched(l: Link, moves: seq<Move>, v: u16) {
    forall k | 0 <= k < |moves| ::
      Allowed(LinkRun(l, moves[..k]), moves[k], v) && !Skips(LinkRun(l, moves[..k]), moves[k], v)
  }

  /* ---------- what a frame tells about one VID ---------- */

  /** Whether it has LeaveAll, and the event for the VID, if it has one. */
  datatype Told = Told(lva: bool, code: Option<Code>)

  function LocalTold(o: Option<Att>, g: Told, v: u16): Option<Att> {
    var a := if g.lva then LocalStep(o, LeaveAllHeard, v) else o;
    if g.code.Some? then LocalStep(a, Attr(CodeEvent(g.code.value), v), v) else a
  }

  /** Whatever hears the frame hears that. */
  ghost predicate Gist(f: seq<byte>, g: Told, v: u16) {
    DecodeDispatchable(f);
    forall o: Option<Att> :: LocalHears(o, Decode(f).actions, v) == LocalTold(o, g, v)
  }

  /** What a transmission may tell: the mandatory event for sure, an optional one if it happens to ride. */
  predicate Tells(o: Option<Att>, lva: bool, g: Told, v: u16) {
    && g.lva == lva
    && if o.None? then g.code.None?
       else
         var slot := SlotOf(Entry(v, o.value), TxEvent(lva));
         slot.code.Some? && (g.code == slot.code || (slot.optional && g.code.None?))
  }

  /** Of a carried list a VID hears one event, or nothing. */
  lemma {:induction false} PairsTold(slots: seq<Slot>, behind: Option<nat>, v: u16) returns (code: Option<Code>)
    requires Sent(slots) && Ascending(slots) && v <= MAX_VID
    requires Dispatchable(HearPairs(CarriedPairs(slots, behind)))
    ensures forall o: Option<Att> ::
      LocalHears(o, HearPairs(CarriedPairs(slots, behind)), v) == LocalTold(o, Told(false, code), v)
    ensures var s := SlotFor(slots, v);
      if s.None? then code.None? else code == s.value.code || (s.value.optional && code.None?)
    ensures |slots| == 1 && slots[0].optional && behind.None? ==> code.None?
  {
    hide LocalStep;
    code := None;
    if slots != [] {
      assert slots[0] in slots;
      var next := Behind(slots[0], behind);
      PairsDispatchable(slots[1..], next);
      if slots[0].vid == v {
        if FirstHeard(slots[0], behind) != [] {
          code := slots[0].code;
        }
        forall o: Option<Att>
          ensures LocalHears(o, HearPairs(CarriedPairs(slots, behind)), v) == LocalTold(o, Told(false, code), v) {
          FirstSlotHeard(slots, behind, o, v);
          var heard := if FirstHeard(slots[0], behind) != [] then HeardEvent(o, slots[0], v) else o;
          OthersUnheard(slots[1..], next, heard, v);
        }
      } else {
        code := PairsTold(slots[1..], next, v);
        forall o: Option<Att>
          ensures LocalHears(o, HearPairs(CarriedPairs(slots, behind)), v) == LocalTold(o, Told(false, code), v) {
          FirstSlotHeard(slots, behind, o, v);
        }
      }
    }
  }

  /** A transmission, through the bytes, has a gist, which is what the sender's entry may tell. */
  lemma {:induction false} TransmissionTells(s: Station, lva: bool, v: u16) returns (g: Told)
    requires Sorted(s.entries) && |s.addr| == 6 && v <= MAX_VID && Roomy(Slots(s.entries, TxEvent(lva)))
    ensures Tells(Find(s.entries, v), lva, g, v)
    ensures var frame := TxPdu(s.addr, Slots(s.entries, TxEvent(lva)), lva);
      if frame.Some? then Gist(frame.value, g, v) else g == Told(false, None)
    ensures lva ==> TxPdu(s.addr, Slots(s.entries, TxEvent(lva)), lva).Some?
    ensures forall a: Att | s.entries == [Entry(v, a)] && SlotOf(Entry(v, a), TxEvent(lva)).optional :: g.code.None?
  {
    hide Roomy, TxPdu, LocalTold, LocalHears, SlotOf, CarriedPairs, HearPairs, Decode, Find, SlotFor;
    var slots := Slots(s.entries, TxEvent(lva));
    SlotsAscend(s.entries, TxEvent(lva));
    SlotsSent(s.entries, lva);
    SlotsCoded(s.entries, lva);
    PairsDispatchable(slots, None);
    FitsExactly(slots, lva);
    RoundTripFits(s.addr, slots, lva);
    SlotForEntry(s.entries, TxEvent(lva), v);
    var code := PairsTold(slots, None, v);
    g := Told(lva, code);
    var frame := TxPdu(s.addr, slots, lva);
    SlotCode(s.entries, lva, v);
    if frame.Some? {
      FrameGist(frame.value, slots, lva, code, v);
    } else {
      SilentTells(slots, code, v);
    }
  }

  lemma SlotCode(es: seq<Entry>, lva: bool, v: u16)
    ensures Find(es, v).Some? ==> SlotOf(Entry(v, Find(es, v).value), TxEvent(lva)).code.Some?
  {}

  lemma FrameGist(f: seq<byte>, slots: seq<Slot>, lva: bool, code: Option<Code>, v: u16)
    requires Dispatchable(HearPairs(CarriedPairs(slots, None)))
    requires Decode(f).actions == LeaveAllFirst(lva) + HearPairs(CarriedPairs(slots, None))
    requires forall o: Option<Att> ::
      LocalHears(o, HearPairs(CarriedPairs(slots, None)), v) == LocalTold(o, Told(false, code), v)
    ensures Gist(f, Told(lva, code), v)
  {
    hide LocalStep, CarriedPairs, HearPairs, Decode;
    DecodeDispatchable(f);
    var rest := HearPairs(CarriedPairs(slots, None));
    var actions := Decode(f).actions;
    assert if lva then actions[0] == HearLeaveAll && actions[1..] == rest else actions == rest;
    forall o: Option<Att> ensures LocalHears(o, actions, v) == LocalTold(o, Told(lva, code), v) {
      if lva {
        assert LocalHears(o, actions, v) == LocalHears(LocalStep(o, LeaveAllHeard, v), rest, v);
      }
    }
  }

  /** With nothing to say nothing is told. */
  lemma SilentTells(slots: seq<Slot>, code: Option<Code>, v: u16)
    requires CarriedPairs(slots, None) == []
    requires forall o: Option<Att> ::
      LocalHears(o, HearPairs(CarriedPairs(slots, None)), v) == LocalTold(o, Told(false, code), v)
    ensures code.None?
  {
    var q, a := Some(Att(QA, MT)), Some(Att(AA, MT));
    assert LocalHears(q, [], v) == q && LocalHears(a, [], v) == a;
    assert LocalTold(q, Told(false, code), v) == q && LocalTold(a, Told(false, code), v) == a;
  }

  /* ---------- the invariant ---------- */

  /** Join or New makes its hearer register the VID, Leave or a LeaveAll without them makes it stop to. */
  function EffectOf(g: Told): Effect {
    if g.code in {Some(0), Some(1), Some(3)} then Registers else if g.lva || g.code == Some(5) then Withdraws else Keeps
  }

  function AnswerOf(g: Told): Answer {
    Answer(g.lva, g.code == Some(2))
  }

  function Effects(b: seq<Told>): (r: seq<Effect>)
    ensures |r| == |b|
  {
    seq(|b|, i requires 0 <= i < |b| => EffectOf(b[i]))
  }

  function Answers(a: seq<Told>): (r: seq<Answer>)
    ensures |r| == |a|
  {
    seq(|a|, i requires 0 <= i < |a| => AnswerOf(a[i]))
  }

  lemma ToldAppend(s: seq<Told>, g: Told)
    ensures Effects(s + [g]) == Effects(s) + [EffectOf(g)] && Answers(s + [g]) == Answers(s) + [AnswerOf(g)]
  {}

  lemma ToldDrop(s: seq<Told>)
    requires s != []
    ensures Effects(s)[0] == EffectOf(s[0]) && Effects(s[1..]) == Effects(s)[1..]
    ensures Answers(s)[0] == AnswerOf(s[0]) && Answers(s[1..]) == Answers(s)[1..]
  {}

  /** What an observer tells: In or Mt, and no In with a LeaveAll. */
  predicate ObserverTold(g: Told) {
    g.code in {None, Some(2), Some(4)} && (g.lva ==> g.code != Some(2))
  }

  predicate TalkerState(t: Option<Att>) {
    t.Some? ==> t.value.app in {VO, LO, VP, VN, AN, AA, QA, LA}
  }

  predicate AtRest(t: Option<Att>) {
    t.Some? && t.value.app in {QA, AN}
  }

  function TalkerOf(t: Option<Att>): Talker {
    Talker(t.Some? && t.value.app in {AN, AA, QA, LA}, AtRest(t))
  }

  ghost predicate Inv(t: Option<Att>, o: Option<Att>, a: seq<Told>, b: seq<Told>) {
    && TalkerState(t) && Observing(o) && (forall g | g in a :: ObserverTold(g))
    && LinkQueues.Inv(TalkerOf(t), Registered(o), Answers(a), Effects(b))
  }

  /* ---------- every step keeps it ---------- */

  lemma QuietTalker(t: Option<Att>, o: Option<Att>, a: seq<Told>, b: seq<Told>, i: Input, v: u16)
    requires Inv(t, o, a, b) && Quiet(i) && !(t.Some? && t.value.app == VN && i == Attr(Leave, v))
    ensures Inv(LocalStep(t, i, v), o, a, b)
  {
    hide LinkQueues.Inv, Effects, Answers;
    TalkerMoves(TalkerOf(t), TalkerOf(LocalStep(t, i, v)), Registered(o), Answers(a), Effects(b));
  }

  lemma QuietObserver(t: Option<Att>, o: Option<Att>, a: seq<Told>, b: seq<Told>, i: Input, v: u16)
    requires Inv(t, o, a, b) && Quiet(i) && (i.Attr? ==> i.vid != v)
    ensures Inv(t, LocalStep(o, i, v), a, b)
  {
    hide LinkQueues.Inv, Effects, Answers, TalkerOf;
    ObserverMoves(TalkerOf(t), Registered(o), Registered(LocalStep(o, i, v)), Answers(a), Effects(b));
  }

  lemma TalkerTells(t: Option<Att>, o: Option<Att>, a: seq<Told>, b: seq<Told>, lva: bool, g: Told, v: u16)
    requires Inv(t, o, a, b) && Tells(t, lva, g, v) && !(lva && t.Some? && t.value.app == VP)
    ensures Inv(SweptOption(TxEvent(lva), t), o, a, b + [g])
  {
    hide LinkQueues.Inv, Effects, Answers;
    ToldAppend(b, g);
    TalkerSends(TalkerOf(t), TalkerOf(SweptOption(TxEvent(lva), t)), Registered(o), Answers(a), Effects(b),
                EffectOf(g));
  }

  lemma ObserverTells(t: Option<Att>, o: Option<Att>, a: seq<Told>, b: seq<Told>, lva: bool, g: Told, v: u16)
    requires Inv(t, o, a, b) && Tells(o, lva, g, v)
    ensures Inv(t, SweptOption(TxEvent(lva), o), a + [g], b)
  {
    hide LinkQueues.Inv, Effects, Answers, TalkerOf, Tells, SweptOption, Registered, Observing, ObserverTold;
    ObserverSays(o, lva, g, v);
    ToldAppend(a, g);
    ObserverSends(TalkerOf(t), Registered(o), Registered(SweptOption(TxEvent(lva), o)), Answers(a), Effects(b),
                  AnswerOf(g));
    forall x | x in a + [g] ensures ObserverTold(x) {
      assert x in a || x == g;
    }
  }

  /** In says that the observer registers the VID; and a LeaveAll never says so. */
  lemma ObserverSays(o: Option<Att>, lva: bool, g: Told, v: u16)
    requires Observing(o) && Tells(o, lva, g, v)
    ensures g.lva == lva && ObserverTold(g) && (g.code == Some(2) ==> Registered(o))
    ensures Observing(SweptOption(TxEvent(lva), o))
    ensures Registered(SweptOption(TxEvent(lva), o)) <==> !lva && Registered(o)
  {}

  lemma TalkerHearsTold(t: Option<Att>, o: Option<Att>, a: seq<Told>, b: seq<Told>, v: u16)
    requires Inv(t, o, a, b) && a != []
    ensures Inv(LocalTold(t, a[0], v), o, a[1..], b)
  {
    hide LinkQueues.Inv, Effects, Answers, TalkerOf, LocalTold, ObserverTold, TalkerState;
    assert a[0] in a;
    TalkerTold(t, a[0], v);
    ToldDrop(a);
    TalkerHears(TalkerOf(t), TalkerOf(LocalTold(t, a[0], v)), Registered(o), Answers(a), Effects(b));
  }

  /** Only In brings a talker to rest, and a LeaveAll takes it from there. */
  lemma TalkerTold(t: Option<Att>, g: Told, v: u16)
    requires TalkerState(t) && ObserverTold(g)
    ensures TalkerState(LocalTold(t, g, v))
    ensures var was, now := TalkerOf(t), TalkerOf(LocalTold(t, g, v));
      && (now.active ==> was.active) && (now.rest ==> now.active)
      && (now.rest ==> !g.lva && (was.rest || g.code == Some(2)))
  {
    hide LocalStep;
    var heard := if g.lva then LocalStep(t, LeaveAllHeard, v) else t;
    LeaveAllTold(t, v);
    if g.code.Some? {
      EventTold(heard, g.code.value, v);
    }
  }

  lemma LeaveAllTold(t: Option<Att>, v: u16)
    requires TalkerState(t)
    ensures var t' := LocalStep(t, LeaveAllHeard, v);
      TalkerState(t') && !AtRest(t') && (TalkerOf(t').active ==> TalkerOf(t).active)
  {
    hide NextReg;
  }

  lemma EventTold(t: Option<Att>, c: Code, v: u16)
    requires TalkerState(t) && (c == 2 || c == 4)
    ensures var t' := LocalStep(t, Attr(CodeEvent(c), v), v);
      && TalkerState(t') && (TalkerOf(t').active ==> TalkerOf(t).active)
      && (AtRest(t') ==> AtRest(t) || c == 2)
  {
    hide NextReg, RegEvent;
  }

  lemma ObserverHearsTold(t: Option<Att>, o: Option<Att>, a: seq<Told>, b: seq<Told>, v: u16)
    requires Inv(t, o, a, b) && b != []
    ensures Inv(t, LocalTold(o, b[0], v), a, b[1..])
  {
    hide LinkQueues.Inv, Effects, Answers, TalkerOf, LocalTold, Registered, EffectOf, Works;
    ToldDrop(b);
    TellingWorks(o, b[0], v);
    ObserverHears(TalkerOf(t), Registered(o), Registered(LocalTold(o, b[0], v)), Answers(a), Effects(b));
  }

  /** A frame does to the hearer what is said of it. */
  lemma TellingWorks(o: Option<Att>, g: Told, v: u16)
    ensures Works(EffectOf(g), Registered(o), Registered(LocalTold(o, g, v)))
    ensures Observing(o) ==> Observing(LocalTold(o, g, v))
  {}

  /* ---------- runs ---------- */

  ghost predicate Gists(frames: seq<seq<byte>>, gs: seq<Told>, v: u16) {
    |frames| == |gs| && forall i | 0 <= i < |gs| :: Gist(frames[i], gs[i], v)
  }

  /** The invariant, with `a` and `b` what the frames under way tell. */
  ghost predicate Holding(l: Link, a: seq<Told>, b: seq<Told>, v: u16) {
    && Sorted(l.talker.entries) && Sorted(l.observer.entries) && |l.talker.addr| == 6 && |l.observer.addr| == 6
    && Gists(l.toTalker, a, v) && Gists(l.toObserver, b, v)
    && Inv(Find(l.talker.entries, v), Find(l.observer.entries, v), a, b)
  }

  lemma GistsAppend(frames: seq<seq<byte>>, gs: seq<Told>, f: seq<byte>, g: Told, v: u16)
    requires Gists(frames, gs, v) && Gist(f, g, v)
    ensures Gists(frames + [f], gs + [g], v)
  {
    hide Gist;
  }

  /** A frame arrives. */
  lemma Received(r: Station, now: int, f: seq<byte>, g: Told, v: u16)
    requires Sorted(r.entries) && Gist(f, g, v)
    ensures var r' := Receive(r, now, f);
      Sorted(r'.entries) && r'.addr == r.addr && Find(r'.entries, v) == LocalTold(Find(r.entries, v), g, v)
  {
    hide Decode, LocalTold, LocalHears, Find, Sorted;
    DecodeDispatchable(f);
    HearsIsPointwise(r, now, Decode(f).actions, v);
  }

  lemma {:induction false} ArrivalKeeps(l: Link, m: Move, a: seq<Told>, b: seq<Told>, v: u16)
    returns (a': seq<Told>, b': seq<Told>)
    requires Holding(l, a, b, v) && m.Arrives? && (if m.atTalker then l.toTalker else l.toObserver) != []
    ensures Holding(LinkStep(l, m), a', b', v)
  {
    hide Gist, Inv, Sorted, Find, Receive, LocalTold;
    var t, o := Find(l.talker.entries, v), Find(l.observer.entries, v);
    if m.atTalker {
      Received(l.talker, m.now, l.toTalker[0], a[0], v);
      TalkerHearsTold(t, o, a, b, v);
      a', b' := a[1..], b;
    } else {
      Received(l.observer, m.now, l.toObserver[0], b[0], v);
      ObserverHearsTold(t, o, a, b, v);
      a', b' := a, b[1..];
    }
  }

  lemma {:induction false} TalkerActs(l: Link, m: Move, a: seq<Told>, b: seq<Told>, v: u16) returns (b': seq<Told>)
    requires Holding(l, a, b, v) && v <= MAX_VID && m.Acts? && m.byTalker && Allowed(l, m, v) && !Skips(l, m, v)
    ensures Holding(LinkStep(l, m), a, b', v)
  {
    hide Gist, Inv, Sorted, Find, LocalTold, TxPdu, Roomy, Sweep, Slots, LocalStep, Tells;
    var t, o := Find(l.talker.entries, v), Find(l.observer.entries, v);
    StepSorted(l.talker, m.now, m.input);
    StepIsPointwise(l.talker, m.now, m.input, v);
    b' := b;
    if Quiet(m.input) {
      QuietIsSilent(l.talker, m.now, m.input);
      QuietTalker(t, o, a, b, m.input, v);
    } else {
      var lva := m.input.LeaveAllExpiry?;
      var g := TransmissionTells(l.talker, lva, v);
      SendingStep(t, m.input, v);
      TalkerTells(t, o, a, b, lva, g, v);
      var frame := Step(l.talker, m.now, m.input).frame;
      if frame.Some? {
        GistsAppend(l.toObserver, b, frame.value, g, v);
        b' := b + [g];
      } else {
        NothingTold(SweptOption(TxEvent(lva), t), o, a, b);
      }
    }
  }

  lemma {:induction false} ObserverActs(l: Link, m: Move, a: seq<Told>, b: seq<Told>, v: u16) returns (a': seq<Told>)
    requires Holding(l, a, b, v) && v <= MAX_VID && m.Acts? && !m.byTalker && Allowed(l, m, v)
    ensures Holding(LinkStep(l, m), a', b, v)
  {
    hide Gist, Inv, Sorted, Find, LocalTold, TxPdu, Roomy, Sweep, Slots, LocalStep, Tells;
    var t, o := Find(l.talker.entries, v), Find(l.observer.entries, v);
    StepSorted(l.observer, m.now, m.input);
    StepIsPointwise(l.observer, m.now, m.input, v);
    a' := a;
    if Quiet(m.input) {
      QuietIsSilent(l.observer, m.now, m.input);
      QuietObserver(t, o, a, b, m.input, v);
    } else {
      var lva := m.input.LeaveAllExpiry?;
      var g := TransmissionTells(l.observer, lva, v);
      SendingStep(o, m.input, v);
      ObserverTells(t, o, a, b, lva, g, v);
      var frame := Step(l.observer, m.now, m.input).frame;
      if frame.Some? {
        GistsAppend(l.toTalker, a, frame.value, g, v);
        a' := a + [g];
      } else {
        NothingToldBack(t, SweptOption(TxEvent(lva), o), a, b);
      }
    }
  }

  lemma QuietIsSilent(s: Station, now: int, i: Input)
    requires Quiet(i)
    ensures Step(s, now, i).frame == None
  {}

  lemma SendingStep(o: Option<Att>, i: Input, v: u16)
    requires i.TxOpportunity? || i.LeaveAllExpiry?
    ensures LocalStep(o, i, v) == SweptOption(TxEvent(i.LeaveAllExpiry?), o)
  {}

  /** A frame that tells nothing might as well not be there. */
  lemma NothingTold(t: Option<Att>, o: Option<Att>, a: seq<Told>, b: seq<Told>)
    requires Inv(t, o, a, b + [Told(false, None)])
    ensures Inv(t, o, a, b)
  {
    hide Effects, Answers, TalkerOf, Tail;
    ToldAppend(b, Told(false, None));
    TailAppend(Effects(b), Keeps);
  }

  lemma NothingToldBack(t: Option<Att>, o: Option<Att>, a: seq<Told>, b: seq<Told>)
    requires Inv(t, o, a + [Told(false, None)], b)
    ensures Inv(t, o, a, b)
  {
    hide Effects, Answers, TalkerOf, InUnderWay, HasLeaveAll;
    ToldAppend(a, Told(false, None));
    AnswerAppend(Answers(a), Answer(false, false));
    assert forall g | g in a :: g in a + [Told(false, None)];
  }

  lemma {:induction false} InvHolds(l: Link, moves: seq<Move>, v: u16) returns (a: seq<Told>, b: seq<Told>)
    requires Holding(l, [], [], v) && v <= MAX_VID && Watched(l, moves, v)
    ensures Holding(LinkRun(l, moves), a, b, v)
  {
    hide Holding, LinkStep, Allowed, Skips;
    if moves == [] {
      a, b := [], [];
    } else {
      var before, last := moves[..|moves| - 1], moves[|moves| - 1];
      assert forall k | 0 <= k < |before| :: before[..k] == moves[..k] && before[k] == moves[k];
      var a0, b0 := InvHolds(l, before, v);
      a, b := StepKeeps(LinkRun(l, before), last, a0, b0, v);
    }
  }

  lemma StepKeeps(l: Link, m: Move, a: seq<Told>, b: seq<Told>, v: u16) returns (a': seq<Told>, b': seq<Told>)
    requires Holding(l, a, b, v) && v <= MAX_VID && Allowed(l, m, v) && !Skips(l, m, v)
    ensures Holding(LinkStep(l, m), a', b', v)
  {
    hide Holding, Allowed, Skips;
    a', b' := a, b;
    if m.Arrives? {
      if (if m.atTalker then l.toTalker else l.toObserver) != [] {
        a', b' := ArrivalKeeps(l, m, a, b, v);
      }
    } else if m.byTalker {
      b' := TalkerActs(l, m, a, b, v);
    } else {
      a' := ObserverActs(l, m, a, b, v);
    }
  }

  /** A station once all of `frames` have arrived. */
  function Drained(r: Station, now: int, frames: seq<seq<byte>>): Station
    decreases |frames|
  {
    if frames == [] then r else Drained(Receive(r, now, frames[0]), now, frames[1..])
  }

  lemma {:induction false} DrainedRegisters(r: Station, now: int, frames: seq<seq<byte>>, gs: seq<Told>, v: u16)
    requires Sorted(r.entries) && Gists(frames, gs, v) && WillRegister(Registered(Find(r.entries, v)), Effects(gs))
    ensures Registered(Find(Drained(r, now, frames).entries, v))
    decreases |frames|
  {
    hide Gist, Sorted, Find, Receive, LocalTold, Effects, EffectOf, Registered, WillRegister;
    if frames == [] {
      NothingUnderWay(Registered(Find(r.entries, v)), Effects(gs));
    } else {
      var o, r' := Find(r.entries, v), Receive(r, now, frames[0]);
      Received(r, now, frames[0], gs[0], v);
      TellingWorks(o, gs[0], v);
      ToldDrop(gs);
      HearsWillRegister(Registered(o), Registered(LocalTold(o, gs[0], v)), Effects(gs));
      DrainedRegisters(r', now, frames[1..], gs[1..], v);
    }
  }

  lemma NothingUnderWay(registered: bool, b: seq<Effect>)
    requires WillRegister(registered, b) && b == []
    ensures registered
  {}

  /**
  The guarantee with delay: in every run of two freshly started stations on a lossless link of any delay, in which
  PDUs have room, the observer never asks for `v` and the talker makes neither of the two skipping transitions, a talker
  in QA or AN with nothing under way to it is registered (IN) once what is under way to the observer has arrived.
  */
  lemma {:induction false} QuietWillBeRegistered(t: seq<byte>, o: seq<byte>, moves: seq<Move>, now: int, v: u16)
    requires |t| == 6 && |o| == 6 && v <= MAX_VID && Watched(Link(Init(t), Init(o), [], []), moves, v)
    ensures var l := LinkRun(Link(Init(t), Init(o), [], []), moves);
      AtRest(Find(l.talker.entries, v)) && l.toTalker == [] ==>
        Registered(Find(Drained(l.observer, now, l.toObserver).entries, v))
  {
    hide Gist, Find;
    var l0 := Link(Init(t), Init(o), [], []);
    StartHolds(t, o, v);
    var l := LinkRun(l0, moves);
    var a, b := InvHolds(l0, moves, v);
    if AtRest(Find(l.talker.entries, v)) && l.toTalker == [] {
      assert a == [];
      DrainedRegisters(l.observer, now, l.toObserver, b, v);
    }
  }

  lemma StartHolds(t: seq<byte>, o: seq<byte>, v: u16)
    requires |t| == 6 && |o| == 6
    ensures Holding(Link(Init(t), Init(o), [], []), [], [], v)
  {}

  /** In particular: at rest with nothing under way at all, it is registered. */
  lemma QuietMeansRegisteredDespiteDelay(t: seq<byte>, o: seq<byte>, moves: seq<Move>, v: u16)
    requires |t| == 6 && |o| == 6 && v <= MAX_VID && Watched(Link(Init(t), Init(o), [], []), moves, v)
    ensures var l := LinkRun(Link(Init(t), Init(o), [], []), moves);
      AtRest(Find(l.talker.entries, v)) && l.toTalker == [] && l.toObserver == [] ==>
        Registered(Find(l.observer.entries, v))
  {
    QuietWillBeRegistered(t, o, moves, 0, v);
  }
}
