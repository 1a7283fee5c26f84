/**
Why the guarantee on a link with delay excludes two transitions of the talker: for each a run of two stations, in which
nothing else is out of the ordinary, to a state where the talker is at rest in QA, nothing is under way, and the
observer does not register the VID. In both a late In meets a talker that has withdrawn the VID and not declared it
since.
*/
module DelayedRuns {
  import opened Mrp
  import opened MrpPdu
  import opened MrpParticipant
  import opened MvrpCodec
  import opened MvrpRoundTrip
  import opened MvrpStation
  import opened MvrpPointwise
  import opened TwoStations
  import opened DelayedLink

  const A: seq<byte> := [2, 0, 0, 0, 0, 1]
  const B: seq<byte> := [2, 0, 0, 0, 0, 2]
  const START: Link := Link(Init(A), Init(B), [], [])

  /** The move is allowed, and skips no declaration unless by the input excepted. */
  predicate Proper(l: Link, m: Move, v: u16, excepted: Input) {
    Allowed(l, m, v) && (Skips(l, m, v) ==> m.input == excepted)
  }

  ghost predicate Fair(moves: seq<Move>, v: u16, excepted: Input) {
    forall k | 0 <= k < |moves| :: Proper(LinkRun(START, moves[..k]), moves[k], v, excepted)
  }

  function EntriesOf(o: Option<Att>, v: u16): seq<Entry> {
    if o.Some? then [Entry(v, o.value)] else []
  }

  /** The frame is about `v` alone. */
  ghost predicate Only(f: seq<byte>, v: u16) {
    forall a: Action | a in Decode(f).actions :: a.Hear? ==> a.vid == v
  }

  ghost predicate Carries(frames: seq<seq<byte>>, gs: seq<Told>, v: u16) {
    Gists(frames, gs, v) && forall f | f in frames :: Only(f, v)
  }

  /** The stations hold `v` as `t` and `o`, or not at all, and nothing else; the frames under way tell `a` and `b`. */
  ghost predicate Shows(l: Link, t: Option<Att>, o: Option<Att>, a: seq<Told>, b: seq<Told>, v: u16) {
    && l.talker.entries == EntriesOf(t, v) && l.observer.entries == EntriesOf(o, v)
    && |l.talker.addr| == 6 && |l.observer.addr| == 6 && Carries(l.toTalker, a, v) && Carries(l.toObserver, b, v)
  }

  ghost predicate Reached(t: Option<Att>, o: Option<Att>, a: seq<Told>, b: seq<Told>, v: u16, excepted: Input) {
    exists moves :: Fair(moves, v, excepted) && Shows(LinkRun(START, moves), t, o, a, b, v)
  }

  lemma StartReached(v: u16, excepted: Input)
    ensures Reached(None, None, [], [], v, excepted)
  {
    assert Fair([], v, excepted) && Shows(LinkRun(START, []), None, None, [], [], v);
  }

  /** One more move. */
  lemma Extend(moves: seq<Move>, m: Move, v: u16, excepted: Input)
    requires Fair(moves, v, excepted) && Proper(LinkRun(START, moves), m, v, excepted)
    ensures Fair(moves + [m], v, excepted) && LinkRun(START, moves + [m]) == LinkStep(LinkRun(START, moves), m)
  {
    hide LinkStep, Proper;
    var more := moves + [m];
    assert more[..|moves|] == moves;
    forall k | 0 <= k < |more|
      ensures Proper(LinkRun(START, more[..k]), more[k], v, excepted) {
      if k < |moves| {
        assert more[..k] == moves[..k] && more[k] == moves[k];
      }
    }
  }

  /* ---------- a database of one VID ---------- */

  lemma OneSorted(o: Option<Att>, v: u16)
    ensures Sorted(EntriesOf(o, v)) && forall u: u16 :: Find(EntriesOf(o, v), u) == if u == v then o else None
  {
    var es := EntriesOf(o, v);
    assert o.Some? ==> es[1..] == [];
  }

  lemma StepOne(s: Station, o: Option<Att>, now: int, i: Input, v: u16)
    requires s.entries == EntriesOf(o, v) && (i.Attr? ==> i.vid == v)
    ensures Step(s, now, i).next.entries == EntriesOf(LocalStep(o, i, v), v) && Step(s, now, i).next.addr == s.addr
  {
    hide Find, Sorted, Step;
    OneSorted(o, v);
    OneSorted(LocalStep(o, i, v), v);
    StepSorted(s, now, i);
    var next := Step(s, now, i).next.entries;
    forall u: u16 ensures Find(next, u) == Find(EntriesOf(LocalStep(o, i, v), v), u) {
      StepIsPointwise(s, now, i, u);
    }
    SortedListIsMap(next, EntriesOf(LocalStep(o, i, v), v));
  }

  lemma {:induction false} HearsOnly(acts: seq<Action>, v: u16, u: u16)
    requires Dispatchable(acts) && u != v && forall a: Action | a in acts :: a.Hear? ==> a.vid == v
    ensures LocalHears(None, acts, u) == None
    decreases |acts|
  {
    if acts != [] {
      assert acts[0] in acts;
      HearsOnly(acts[1..], v, u);
    }
  }

  lemma ReceiveOne(r: Station, o: Option<Att>, now: int, f: seq<byte>, g: Told, v: u16)
    requires r.entries == EntriesOf(o, v) && Gist(f, g, v) && Only(f, v)
    ensures var r' := Receive(r, now, f); r'.entries == EntriesOf(LocalTold(o, g, v), v) && r'.addr == r.addr
  {
    hide Find, Sorted, Gist, LocalTold, LocalHears, Decode;
    OneSorted(o, v);
    OneSorted(LocalTold(o, g, v), v);
    Received(r, now, f, g, v);
    DecodeDispatchable(f);
    var next := Receive(r, now, f).entries;
    forall u: u16 ensures Find(next, u) == Find(EntriesOf(LocalTold(o, g, v), v), u) {
      if u != v {
        HearsIsPointwise(r, now, Decode(f).actions, u);
        HearsOnly(Decode(f).actions, v, u);
      }
    }
    SortedListIsMap(next, EntriesOf(LocalTold(o, g, v), v));
  }

  /** What a station with one VID sends: a mandatory event, or LeaveAll and no optional one. */
  function SaysOne(o: Option<Att>, lva: bool, v: u16): Told {
    Told(lva, if o.None? then None
              else
                var slot := SlotOf(Entry(v, o.value), TxEvent(lva));
                if slot.optional then None else slot.code)
  }

  lemma SendOne(s: Station, o: Option<Att>, lva: bool, v: u16)
    requires s.entries == EntriesOf(o, v) && |s.addr| == 6 && v <= MAX_VID
    requires lva || SaysOne(o, lva, v).code.Some?
    ensures Roomy(Slots(s.entries, TxEvent(lva)))
    ensures var frame := TxPdu(s.addr, Slots(s.entries, TxEvent(lva)), lva);
      frame.Some? && Gist(frame.value, SaysOne(o, lva, v), v) && Only(frame.value, v)
  {
    hide TxPdu, Gist, Decode, CarriedPairs, HearPairs, Roomy, Find, Sorted;
    var slots := Slots(s.entries, TxEvent(lva));
    OneSorted(o, v);
    SmallDatabaseFits(slots, lva);
    var g := TransmissionTells(s, lva, v);
    SlotsCoded(s.entries, lva);
    SlotsAscend(s.entries, TxEvent(lva));
    FitsExactly(slots, lva);
    RoundTripFits(s.addr, slots, lva);
    OneOptional(s, o, lva, g, v);
    OnlyCarried(TxPdu(s.addr, slots, lva).value, slots, lva, v);
  }

  lemma OneOptional(s: Station, o: Option<Att>, lva: bool, g: Told, v: u16)
    requires s.entries == EntriesOf(o, v) && Tells(o, lva, g, v)
    requires forall a: Att | s.entries == [Entry(v, a)] && SlotOf(Entry(v, a), TxEvent(lva)).optional :: g.code.None?
    ensures g == SaysOne(o, lva, v)
  {
    if o.Some? {
      var a := o.value;
      assert s.entries == [Entry(v, a)];
    }
  }

  lemma OnlyCarried(f: seq<byte>, slots: seq<Slot>, lva: bool, v: u16)
    requires Decode(f).actions == LeaveAllFirst(lva) + HearPairs(CarriedPairs(slots, None))
    requires forall s | s in slots :: s.vid == v
    ensures Only(f, v)
  {
    hide Decode, CarriedPairs;
    forall a: Action | a in Decode(f).actions && a.Hear? ensures a.vid == v {
      assert a in HearPairs(CarriedPairs(slots, None));
      var p := HeardPair(CarriedPairs(slots, None), a);
      var i := CarriedFrom(slots, None, p);
      assert slots[i] in slots;
    }
  }

  lemma {:induction false} HeardPair(pairs: seq<Pair>, a: Action) returns (p: Pair)
    requires a in HearPairs(pairs)
    ensures p in pairs && a == Hear(p.0, p.1)
  {
    if a in HearPair(pairs[0]) {
      p := pairs[0];
    } else {
      p := HeardPair(pairs[1..], a);
    }
  }

  /* ---------- moves ---------- */

  predicate Excused(t: Option<Att>, byTalker: bool, i: Input, v: u16, excepted: Input) {
    byTalker && t.Some? && ((t.value.app == VP && i == LeaveAllExpiry) || (t.value.app == VN && i == Attr(Leave, v)))
    ==> i == excepted
  }

  lemma Quietly(t: Option<Att>, o: Option<Att>, a: seq<Told>, b: seq<Told>, v: u16, excepted: Input, byTalker: bool,
                i: Input, t': Option<Att>, o': Option<Att>)
    requires Reached(t, o, a, b, v, excepted) && Quiet(i) && Excused(t, byTalker, i, v, excepted)
    requires i.Attr? ==> byTalker && i.vid == v
    requires t' == if byTalker then LocalStep(t, i, v) else t
    requires o' == if byTalker then o else LocalStep(o, i, v)
    ensures Reached(t', o', a, b, v, excepted)
  {
    hide Fair, Find, Step, LocalStep, Carries, LinkRun;
    var moves :| Fair(moves, v, excepted) && Shows(LinkRun(START, moves), t, o, a, b, v);
    var l := LinkRun(START, moves);
    var m := Acts(byTalker, 0, i);
    var x, s := if byTalker then t else o, if byTalker then l.talker else l.observer;
    OneSorted(t, v);
    StepOne(s, x, 0, i, v);
    QuietIsSilent(s, 0, i);
    Extend(moves, m, v, excepted);
    assert Shows(LinkRun(START, moves + [m]), t', o', a, b, v);
  }

  lemma CarriesAppend(frames: seq<seq<byte>>, gs: seq<Told>, f: seq<byte>, g: Told, v: u16)
    requires Carries(frames, gs, v) && Gist(f, g, v) && Only(f, v)
    ensures Carries(frames + [f], gs + [g], v)
  {
    hide Gist, Only;
    GistsAppend(frames, gs, f, g, v);
  }

  lemma CarriesDrop(frames: seq<seq<byte>>, gs: seq<Told>, v: u16)
    requires Carries(frames, gs, v) && gs != []
    ensures frames != [] && Gist(frames[0], gs[0], v) && Only(frames[0], v) && Carries(frames[1..], gs[1..], v)
  {
    hide Gist, Only;
  }

  lemma Transmits(t: Option<Att>, o: Option<Att>, a: seq<Told>, b: seq<Told>, v: u16, excepted: Input, byTalker: bool,
                  lva: bool, g: Told, t': Option<Att>, o': Option<Att>, a': seq<Told>, b': seq<Told>)
    requires Reached(t, o, a, b, v, excepted) && v <= MAX_VID
    requires Excused(t, byTalker, if lva then LeaveAllExpiry else TxOpportunity, v, excepted)
    requires g == SaysOne(if byTalker then t else o, lva, v) && (lva || g.code.Some?)
    requires t' == if byTalker then SweptOption(TxEvent(lva), t) else t
    requires o' == if byTalker then o else SweptOption(TxEvent(lva), o)
    requires a' == (if byTalker then a else a + [g]) && b' == if byTalker then b + [g] else b
    ensures Reached(t', o', a', b', v, excepted)
  {
    hide Fair, Find, Carries, LinkRun, TxPdu, Gist, Only, Roomy, Sweep, Slots, SaysOne, SweepStartsLeave, AttrStep,
         Kept, Removals, LeaveNotes, Rearms, Sorted, NextApp, NextReg, EntriesOf;
    var moves :| Fair(moves, v, excepted) && Shows(LinkRun(START, moves), t, o, a, b, v);
    var l := LinkRun(START, moves);
    var i := if lva then LeaveAllExpiry else TxOpportunity;
    var m := Acts(byTalker, 0, i);
    var x, s := if byTalker then t else o, if byTalker then l.talker else l.observer;
    OneSorted(t, v);
    StepOne(s, x, 0, i, v);
    SendOne(s, x, lva, v);
    var frame := Step(s, 0, i).frame.value;
    CarriesAppend(if byTalker then l.toObserver else l.toTalker, if byTalker then b else a, frame, g, v);
    Extend(moves, m, v, excepted);
    assert Shows(LinkRun(START, moves + [m]), t', o', a', b', v);
  }

  lemma Arrived(t: Option<Att>, o: Option<Att>, a: seq<Told>, b: seq<Told>, v: u16, excepted: Input, atTalker: bool,
                t': Option<Att>, o': Option<Att>, a': seq<Told>, b': seq<Told>)
    requires Reached(t, o, a, b, v, excepted) && (if atTalker then a else b) != []
    requires t' == if atTalker then LocalTold(t, a[0], v) else t
    requires o' == if atTalker then o else LocalTold(o, b[0], v)
    requires a' == (if atTalker then a[1..] else a) && b' == if atTalker then b else b[1..]
    ensures Reached(t', o', a', b', v, excepted)
  {
    hide Fair, Find, Carries, LinkRun, Gist, Only, Receive, LocalTold;
    var moves :| Fair(moves, v, excepted) && Shows(LinkRun(START, moves), t, o, a, b, v);
    var l := LinkRun(START, moves);
    var m := Arrives(atTalker, 0);
    var frames, gs := if atTalker then l.toTalker else l.toObserver, if atTalker then a else b;
    CarriesDrop(frames, gs, v);
    ReceiveOne(if atTalker then l.talker else l.observer, if atTalker then t else o, 0, frames[0], gs[0], v);
    Extend(moves, m, v, excepted);
    assert Shows(LinkRun(START, moves + [m]), t', o', a', b', v);
  }

  /* ---------- the runs ---------- */

  const IN_LATE: seq<Told> := [Told(false, Some(2))]

  /** The talker declares the VID. */
  lemma Joined(v: u16, excepted: Input)
    requires v <= MAX_VID
    ensures Reached(Some(Att(AA, IN)), None, [], [Told(false, Some(1))], v, excepted)
  {
    hide Reached;
    StartReached(v, excepted);
    var vp, join := Some(Att(VP, IN)), Told(false, Some(1));
    Quietly(None, None, [], [], v, excepted, true, Attr(Join, v), vp, None);
    Transmits(vp, None, [], [], v, excepted, true, false, join, Some(Att(AA, IN)), None, [], [join]);
  }

  /** Registered, with the observer's LeaveAll under way. */
  lemma Declared(v: u16, excepted: Input)
    requires v <= MAX_VID
    ensures Reached(Some(Att(AA, IN)), Some(Att(LO, LV)), [Told(true, None)], [], v, excepted)
  {
    hide Reached;
    var aa, vo := Some(Att(AA, IN)), Some(Att(VO, IN));
    Joined(v, excepted);
    Arrived(aa, None, [], [Told(false, Some(1))], v, excepted, false, aa, vo, [], []);
    Transmits(aa, vo, [], [], v, excepted, false, true, Told(true, None), aa, Some(Att(LO, LV)), [Told(true, None)],
              []);
  }

  /** The talker hears the LeaveAll and declares the VID again. */
  lemma JoinedAgain(v: u16, excepted: Input)
    requires v <= MAX_VID
    ensures Reached(Some(Att(AA, IN)), Some(Att(LO, LV)), [], [Told(false, Some(1))], v, excepted)
  {
    hide Reached;
    Declared(v, excepted);
    var lo, join := Some(Att(LO, LV)), Told(false, Some(1));
    Arrived(Some(Att(AA, IN)), lo, [Told(true, None)], [], v, excepted, true, Some(Att(VP, LV)), lo, [], []);
    Quietly(Some(Att(VP, LV)), lo, [], [], v, excepted, true, Attr(Join, v), Some(Att(VP, IN)), lo);
    Transmits(Some(Att(VP, IN)), lo, [], [], v, excepted, true, false, join, Some(Att(AA, IN)), lo, [], [join]);
  }

  /** Registered again; the observer owes an In, and sends it. */
  lemma InSent(v: u16, excepted: Input)
    requires v <= MAX_VID
    ensures Reached(Some(Att(AA, IN)), Some(Att(VO, IN)), IN_LATE, [], v, excepted)
  {
    hide Reached;
    var lo, join, aa := Some(Att(LO, LV)), Told(false, Some(1)), Some(Att(AA, IN));
    JoinedAgain(v, excepted);
    Arrived(aa, lo, [], [join], v, excepted, false, aa, Some(Att(LO, IN)), [], []);
    Transmits(aa, Some(Att(LO, IN)), [], [], v, excepted, false, false, IN_LATE[0], aa, Some(Att(VO, IN)), IN_LATE, []);
  }

  /** That In is still under way when the talker has withdrawn the VID and the observer has heard it. */
  lemma Withdrawn(v: u16, excepted: Input)
    requires v <= MAX_VID
    ensures Reached(Some(Att(VO, LV)), Some(Att(LO, LV)), IN_LATE, [], v, excepted)
  {
    hide Reached;
    InSent(v, excepted);
    var vo, la, leave := Some(Att(VO, IN)), Some(Att(LA, LV)), Told(false, Some(5));
    Quietly(Some(Att(AA, IN)), vo, IN_LATE, [], v, excepted, true, Attr(Leave, v), la, vo);
    Transmits(la, vo, IN_LATE, [], v, excepted, true, false, leave, Some(Att(VO, LV)), vo, IN_LATE, [leave]);
    Arrived(Some(Att(VO, LV)), vo, IN_LATE, [leave], v, excepted, false, Some(Att(VO, LV)), Some(Att(LO, LV)), IN_LATE,
            []);
  }

  /** At rest in QA, nothing under way, and not registered. */
  ghost predicate Fails(v: u16, excepted: Input) {
    exists moves ::
      && Fair(moves, v, excepted)
      && var l := LinkRun(START, moves);
         && l.toTalker == [] && l.toObserver == []
         && AtRest(Find(l.talker.entries, v)) && !Registered(Find(l.observer.entries, v))
  }

  lemma ReachedFails(t: Att, o: Option<Att>, v: u16, excepted: Input)
    requires Reached(Some(t), o, [], [], v, excepted) && t.app == QA && !Registered(o)
    ensures Fails(v, excepted)
  {
    var moves :| Fair(moves, v, excepted) && Shows(LinkRun(START, moves), Some(t), o, [], [], v);
    OneSorted(Some(t), v);
    OneSorted(o, v);
    assert LinkRun(START, moves).toTalker == [] && LinkRun(START, moves).toObserver == [];
  }

  /** A LeaveAll in VP announces no Join. */
  lemma LeaveAllSent(v: u16)
    requires v <= MAX_VID
    ensures Reached(Some(Att(AA, LV)), Some(Att(LO, LV)), IN_LATE, [Told(true, Some(4))], v, LeaveAllExpiry)
  {
    hide Reached;
    var ex, lo, told := LeaveAllExpiry, Some(Att(LO, LV)), Told(true, Some(4));
    Withdrawn(v, ex);
    Quietly(Some(Att(VO, LV)), lo, IN_LATE, [], v, ex, true, Attr(Join, v), Some(Att(VP, IN)), lo);
    Transmits(Some(Att(VP, IN)), lo, IN_LATE, [], v, ex, true, true, told, Some(Att(AA, LV)), lo, IN_LATE, [told]);
  }

  /** The late In brings the talker to QA. */
  lemma LeaveAllSettled(v: u16)
    requires v <= MAX_VID
    ensures Reached(Some(Att(QA, LV)), Some(Att(LO, LV)), [], [Told(true, Some(4))], v, LeaveAllExpiry)
  {
    hide Reached;
    var lo, told := Some(Att(LO, LV)), Told(true, Some(4));
    LeaveAllSent(v);
    Arrived(Some(Att(AA, LV)), lo, IN_LATE, [told], v, LeaveAllExpiry, true, Some(Att(QA, LV)), lo, [], [told]);
  }

  /** And nothing will make the observer register the VID. */
  lemma LeaveAllInVpFails(v: u16)
    requires v <= MAX_VID
    ensures Fails(v, LeaveAllExpiry)
  {
    hide Reached, Fails;
    var ex, lo, told := LeaveAllExpiry, Some(Att(LO, LV)), Told(true, Some(4));
    LeaveAllSettled(v);
    Arrived(Some(Att(QA, LV)), lo, [], [told], v, ex, false, Some(Att(QA, LV)), Some(Att(VO, LV)), [], []);
    ReachedFails(Att(QA, LV), Some(Att(VO, LV)), v, ex);
  }

  /** A Leave in VN and a Join make AA out of a VID that was never declared, and the late In does the rest. */
  lemma LeaveInVnFails(v: u16)
    requires v <= MAX_VID
    ensures Fails(v, Attr(Leave, v))
  {
    hide Reached, Fails;
    var ex, lo := Attr(Leave, v), Some(Att(LO, LV));
    Withdrawn(v, ex);
    Quietly(Some(Att(VO, LV)), lo, IN_LATE, [], v, ex, true, Attr(New, v), Some(Att(VN, MT)), lo);
    Quietly(Some(Att(VN, MT)), lo, IN_LATE, [], v, ex, true, Attr(Leave, v), Some(Att(LA, MT)), lo);
    Quietly(Some(Att(LA, MT)), lo, IN_LATE, [], v, ex, true, Attr(Join, v), Some(Att(AA, IN)), lo);
    Arrived(Some(Att(AA, IN)), lo, IN_LATE, [], v, ex, true, Some(Att(QA, IN)), lo, [], []);
    ReachedFails(Att(QA, IN), lo, v, ex);
  }
}
