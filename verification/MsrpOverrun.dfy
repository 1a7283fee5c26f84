/**
When msrp_txpdu of daemons/mrpd/msrp.c writes behind the buffer it allocated: never for a PDU that is sent, never where
there is room for all that is owed, and with 52 or more scattered Failed talkers on every LeaveAll.
*/
module MsrpOverrun {
  import opened Mrp
  import opened MrpPdu
  import opened MrpParticipant
  import opened MsrpBounds
  import opened MsrpCodec
  import opened MsrpRoom
  import opened MsrpRoundTrip
  import opened MsrpRuns
  import opened MsrpStation

  /* ---------- one emitter ---------- */

  /**
  The overruns of each emitter in numbers. Asked for a bare LeaveAll it writes one into whatever room there is; with
  something owed it tests four bytes short of where the first vector goes.
  */
  lemma OverrunsExactly(k: Kind, slots: seq<Slot>, empty: bool, cap: nat)
    ensures
      var s := Flagged(k, slots);
      var i := FirstOwed(k, s);
      !EmitterInside(k, slots, empty, cap) <==>
        if i == |s| || cap <= MinVector(k) + ENDMARK_SIZE then
          && empty
          && match k {
               case AdvKind => 28 <= cap <= 32
               case FailedKind => 37 <= cap <= 41
               case ListenerKind => 13 <= cap <= 15
               case DomainKind => 5 <= cap <= 11
             }
        else
          match k {
            case AdvKind => cap == 31 && s[i].code.Some? && RunLength(s, i) == 1
            case FailedKind => cap == 40 && s[i].code.Some? && RunLength(s, i) == 1
            case ListenerKind => false
            case DomainKind => 8 <= cap <= 9 || (cap == 10 && s[i].code.Some?)
          }
  {
    hide Succ, Riders, Flagged, FirstOwed, RunLength;
    var s := Flagged(k, slots);
    var i := FirstOwed(k, s);
    if i < |s| && k == DomainKind {
      DomainAlone(s, i);
    }
  }

  lemma DomainAlone(s: seq<Slot>, i: nat)
    requires i < |s| && KindOf(s[i].value) == DomainKind
    ensures RunLength(s, i) == 1
  {}

  lemma UnguardedShift(s: seq<Slot>, i: nat)
    requires i + 1 < |s|
    ensures Unguarded(s[1..], i) == Unguarded(s, i + 1)
  {
    hide Succ, Riders;
    assert s[1..][i + 1..] == s[i + 2..];
  }

  /** The first vector of a plan that comes off had room. */
  lemma {:induction false} FirstRoom(k: Kind, s: seq<Slot>, lva: bool, cap: nat)
    requires MinVector(k) + ENDMARK_SIZE < cap && FirstOwed(k, s) < |s| && Vectors(k, s, lva, 0, 4, cap).Plan?
    ensures 4 + VecSize(k, 0) + Unguarded(s, FirstOwed(k, s)) <= cap
  {
    hide Vectors, Riders, Succ, Items, Wire, Need, MinVector;
    if PassedOver(k, s[0]) {
      hide Unguarded, VecSize;
      VectorsSkip(k, s, lva, 0, 4, cap);
      FirstRoom(k, s[1..], lva, cap);
      UnguardedShift(s, FirstOwed(k, s[1..]));
    } else {
      VectorsTake(k, s, lva, 0, 4, cap, RunLength(s, 0));
    }
  }

  lemma {:induction false} IdlePlans(k: Kind, s: seq<Slot>, lva: bool, cap: nat)
    requires Idle(k, s, cap)
    ensures var plan := Vectors(k, s, lva, 0, 4, cap); plan.Plan? && plan.vecs == []
  {
    hide Riders, Succ, Items, Wire;
    if s != [] && MinVector(k) + ENDMARK_SIZE < cap {
      IdlePlans(k, s[1..], lva, cap);
    }
  }

  lemma EmitterKeeps(k: Kind, slots: seq<Slot>, lva: bool, cap: nat)
    requires var plan := EmitPlan(k, slots, lva, cap); plan.Plan? && |Message(k, plan.vecs, lva)| <= cap
    ensures EmitterInside(k, slots, lva, cap)
  {
    hide Vectors, Flagged, Unguarded, FirstOwed;
    var s := Flagged(k, slots);
    if Idle(k, s, cap) {
      IdlePlans(k, s, lva, cap);
    } else {
      FirstRoom(k, s, lva, cap);
    }
  }

  /* ---------- all emitters ---------- */

  lemma {:induction false} MessagesInside(kinds: seq<Kind>, slots: seq<Slot>, lva: bool, at: nat)
    requires var m := Messages(kinds, slots, lva, at); m.Some? && at + |m.value| <= CAPACITY
    ensures InsideFrom(kinds, slots, lva, at)
  {
    hide EmitPlan, Message, EmitterInside;
    if kinds != [] {
      var m := Message(kinds[0], EmitPlan(kinds[0], slots, lva, CAPACITY - at).vecs, lva);
      EmitterKeeps(kinds[0], slots, lva, CAPACITY - at);
      MessagesInside(kinds[1..], slots, lva, at + |m|);
    }
  }

  /** A PDU that goes out was written inside the buffer. */
  lemma SentIsInside(src: seq<byte>, slots: seq<Slot>, lva: bool)
    requires TxPdu(src, slots, lva).Some?
    ensures TxInside(slots, lva)
  {
    hide Messages, InsideFrom;
    MessagesInside(ORDER, slots, lva, 0);
  }

  /** So was what is owed wherever there is room for it, whether or not it comes to a PDU. */
  lemma RoomyIsInside(slots: seq<Slot>, lva: bool)
    requires AllCoded(slots) && Roomy(slots, lva)
    ensures TxInside(slots, lva)
  {
    hide Messages, InsideFrom, Roomy;
    FitsExactly(slots, lva);
    MessagesInside(ORDER, slots, lva, 0);
  }

  /* ---------- by sizes alone ---------- */

  /** Lengths of the vectors of kind `k` that the riding rule forms on the list alone. */
  function Runs(k: Kind, s: seq<Slot>): seq<nat>
    decreases |s|
  {
    if s == [] then []
    else if PassedOver(k, s[0]) then Runs(k, s[1..])
    else [RunLength(s, 0)] + Runs(k, s[RunLength(s, 0)..])
  }

  /**
  Where vectors of these lengths end if `cap` bytes are there: at the first that is not tried; None if one has no
  room.
  */
  function Reach(k: Kind, runs: seq<nat>, ptr: nat, at: nat, cap: nat): Option<nat> {
    if runs == [] || ptr + MinVector(k) + ENDMARK_SIZE >= cap then Some(at)
    else
      var end := at + VecSize(k, runs[0]);
      if Room(k, runs[0], end, cap) then Reach(k, runs[1..], end, end, cap) else None
  }

  /** Bytes of the message an emitter writes for vectors of these lengths, None if it gives up. */
  function Taken(k: Kind, runs: seq<nat>, empty: bool, cap: nat): Option<nat> {
    var end := Reach(k, runs, 0, 4, cap);
    if cap < MinVector(k) || end.None? then None
    else Some(if end.value > 4 then end.value + ENDMARK_SIZE else if empty then 8 + AttribLen(k) else 0)
  }

  /** Whether all it writes is inside, by the overruns in numbers. */
  predicate SizeInside(k: Kind, runs: seq<nat>, empty: bool, cap: nat) {
    if runs == [] || cap <= MinVector(k) + ENDMARK_SIZE then empty && MinVector(k) <= cap ==> 8 + AttribLen(k) <= cap
    else 4 + VecSize(k, 0) + (if runs[0] > 1 then 0 else if k == ListenerKind then 2 else 1) <= cap
  }

  /** The emitters one after the other, each starting where the sizes put it. */
  predicate SizesInside(kinds: seq<Kind>, slots: seq<Slot>, lva: bool, at: nat) {
    if kinds == [] || at > CAPACITY || (kinds[0] == ListenerKind && at + ENDMARK_SIZE >= CAPACITY) then true
    else
      var runs := Runs(kinds[0], Flagged(kinds[0], slots));
      var taken := Taken(kinds[0], runs, lva, CAPACITY - at);
      && SizeInside(kinds[0], runs, lva, CAPACITY - at)
      && (taken.Some? ==> SizesInside(kinds[1..], slots, lva, at + taken.value))
  }

  lemma RunsUnfolds(k: Kind, s: seq<Slot>)
    requires s != []
    ensures Runs(k, s) ==
      if PassedOver(k, s[0]) then Runs(k, s[1..]) else [RunLength(s, 0)] + Runs(k, s[RunLength(s, 0)..])
  {
    hide RunLength, PassedOver;
  }

  lemma ReachUnfolds(k: Kind, n: nat, rest: seq<nat>, ptr: nat, at: nat, cap: nat)
    requires ptr + MinVector(k) + ENDMARK_SIZE < cap
    ensures Reach(k, [n] + rest, ptr, at, cap) ==
      var end := at + VecSize(k, n); if Room(k, n, end, cap) then Reach(k, rest, end, end, cap) else None
  {
    hide MinVector, VecSize, Room;
    assert ([n] + rest)[1..] == rest;
  }

  /** An emitter gets as far as the sizes say. */
  lemma {:induction false} PlanReaches(k: Kind, s: seq<Slot>, lva: bool, ptr: nat, at: nat, cap: nat)
    requires AllCoded(s)
    ensures var plan, end := Vectors(k, s, lva, ptr, at, cap), Reach(k, Runs(k, s), ptr, at, cap);
      && (plan.Plan? <==> end.Some?)
      && (plan.Plan? ==> end.value == at + |VecsBytes(plan.vecs)| && (plan.vecs == [] <==> end.value == at))
    decreases |s|
  {
    hide Vectors, Runs, Reach, Riders, Succ, Items, Wire, VecsBytes, MinVector, Room, KindOf, AllCoded, EventBytes;
    if s == [] || ptr + MinVector(k) + ENDMARK_SIZE >= cap {
      VectorsStop(k, s, lva, ptr, at, cap);
      ReachStops(k, s, ptr, at, cap);
      NoVecs();
    } else {
      RunsUnfolds(k, s);
      if PassedOver(k, s[0]) {
        VectorsSkip(k, s, lva, ptr, at, cap);
        CodedRest(s, 1);
        PlanReaches(k, s[1..], lva, ptr, at, cap);
      } else {
        var n := RunLength(s, 0);
        var end := at + VecSize(k, n);
        CodedRest(s, n);
        ItemsCoded(s[..n]);
        VectorsTake(k, s, lva, ptr, at, cap, n);
        ReachUnfolds(k, n, Runs(k, s[n..]), ptr, at, cap);
        PlanReaches(k, s[n..], false, end, end, cap);
        if Vectors(k, s, lva, ptr, at, cap).Plan? {
          FirstSize(s[0].value, Items(s[..n]).value, lva, Vectors(k, s[n..], false, end, end, cap).vecs);
        }
      }
    }
  }

  lemma ReachStops(k: Kind, s: seq<Slot>, ptr: nat, at: nat, cap: nat)
    requires s == [] || ptr + MinVector(k) + ENDMARK_SIZE >= cap
    ensures Reach(k, Runs(k, s), ptr, at, cap) == Some(at)
  {
    hide MinVector;
  }

  lemma {:induction false} FirstRun(k: Kind, s: seq<Slot>)
    ensures FirstOwed(k, s) == |s| <==> Runs(k, s) == []
    ensures FirstOwed(k, s) < |s| ==> Runs(k, s)[0] == RunLength(s, FirstOwed(k, s))
  {
    hide Riders, Succ;
    if s != [] && PassedOver(k, s[0]) {
      FirstRun(k, s[1..]);
      var i := FirstOwed(k, s[1..]);
      if i < |s[1..]| {
        assert s[1..][i + 1..] == s[i + 2..];
      }
    }
  }

  lemma FlaggedTaken(k: Kind, slots: seq<Slot>, lva: bool, cap: nat)
    requires AllCoded(slots)
    ensures var plan, taken := EmitPlan(k, slots, lva, cap), Taken(k, Runs(k, Flagged(k, slots)), lva, cap);
      && (plan.Plan? <==> taken.Some?) && (plan.Plan? ==> |Message(k, plan.vecs, lva)| == taken.value)
  {
    hide Vectors, Runs, Reach, Flagged, VecsBytes, MinVector, AllCoded, AttribLen;
    FlaggedCoded(k, slots);
    PlanReaches(k, Flagged(k, slots), lva, 0, 4, cap);
  }

  lemma SizeInsideExactly(k: Kind, slots: seq<Slot>, empty: bool, cap: nat)
    requires AllCoded(slots)
    ensures EmitterInside(k, slots, empty, cap) <==> SizeInside(k, Runs(k, Flagged(k, slots)), empty, cap)
  {
    hide Runs, Flagged, FirstOwed, RunLength, AllCoded;
    var s := Flagged(k, slots);
    FlaggedCoded(k, slots);
    FirstRun(k, s);
    var i := FirstOwed(k, s);
    if i < |s| {
      CodedAt(s, i);
    }
  }

  lemma CodedAt(s: seq<Slot>, i: nat)
    requires AllCoded(s) && i < |s|
    ensures s[i].code.Some?
  {}

  lemma {:induction false} SizesInsideFrom(kinds: seq<Kind>, slots: seq<Slot>, lva: bool, at: nat)
    requires AllCoded(slots)
    ensures InsideFrom(kinds, slots, lva, at) <==> SizesInside(kinds, slots, lva, at)
  {
    hide EmitPlan, Message, EmitterInside, SizeInside, Taken, Runs, Flagged, AllCoded;
    if kinds == [] || at > CAPACITY || (kinds[0] == ListenerKind && at + ENDMARK_SIZE >= CAPACITY) {
    } else {
      FlaggedTaken(kinds[0], slots, lva, CAPACITY - at);
      SizeInsideExactly(kinds[0], slots, lva, CAPACITY - at);
      var taken := Taken(kinds[0], Runs(kinds[0], Flagged(kinds[0], slots)), lva, CAPACITY - at);
      if taken.Some? {
        SizesInsideFrom(kinds[1..], slots, lva, at + taken.value);
      }
    }
  }

  /**
  For every list of known messages: the emitters stay inside exactly if the lengths of the runs on the list say so.
  */
  lemma TxInsideExactly(slots: seq<Slot>, lva: bool)
    requires AllCoded(slots)
    ensures TxInside(slots, lva) <==> SizesInside(ORDER, slots, lva, 0)
  {
    hide InsideFrom, SizesInside;
    SizesInsideFrom(ORDER, slots, lva, 0);
  }

  /* ---------- scattered Failed talkers ---------- */

  lemma OneCoded(slots: seq<Slot>)
    requires slots != [] && slots[0].code.Some?
    ensures Items(slots[..1]).Some?
  {
    assert slots[..1][1..] == [];
  }

  lemma {:induction false} ScatteredPlan(slots: seq<Slot>, lva: bool, ptr: nat, at: nat, cap: nat, m: nat)
    requires ScatteredFailed(slots) && m <= |slots| && ptr <= at && (m == 0 ==> ptr == at)
    requires at + 37 * m + 2 < cap <= at + 37 * m + 39
    ensures var plan := Vectors(FailedKind, slots, lva, ptr, at, cap); plan.Plan? && |VecsBytes(plan.vecs)| == 37 * m
    decreases m
  {
    hide Vectors, Riders, Succ, Items, Wire, VecsBytes;
    if m == 0 {
      PlanStops(slots, lva, ptr, at, cap);
    } else {
      FirstScattered(slots);
      TakesRun(FailedKind, slots, lva, ptr, at, cap, 1);
      OneCoded(slots);
      ScatteredPlan(slots[1..], false, at + 37, at + 37, cap, m - 1);
      VecsBytesCons(Vec(lva, Wire(slots[0].value), Items(slots[..1]).value),
                    Vectors(FailedKind, slots[1..], false, at + 37, at + 37, cap).vecs);
    }
  }

  lemma PlanStops(slots: seq<Slot>, lva: bool, ptr: nat, at: nat, cap: nat)
    requires cap <= ptr + 39
    ensures var plan := Vectors(FailedKind, slots, lva, ptr, at, cap); plan.Plan? && |VecsBytes(plan.vecs)| == 0
  {}

  lemma FirstScattered(slots: seq<Slot>)
    requires ScatteredFailed(slots) && slots != []
    ensures Riders(slots[1..], Succ(slots[0].value)) == 0 && ScatteredFailed(slots[1..])
    ensures KindOf(slots[0].value) == FailedKind && slots[0].tx && !slots[0].optional && slots[0].code.Some?
    ensures Items(slots[..1]).Some? && |Items(slots[..1]).value| == 1 && KindOf(Wire(slots[0].value)) == FailedKind
  {
    hide Succ;
    OneCoded(slots);
    SuccFailed(slots[0].value);
    assert |slots| > 1 ==> slots[1..][0] == slots[1] && slots[0 + 1].value != Succ(slots[0].value);
  }

  /** The emitter of a kind there is nothing of sends the bare LeaveAll. */
  lemma BareSize(k: Kind, slots: seq<Slot>, cap: nat)
    requires (forall i | 0 <= i < |slots| :: KindOf(slots[i].value) != k) && MinVector(k) <= cap
    ensures var plan := EmitPlan(k, slots, true, cap); plan.Plan? && |Message(k, plan.vecs, true)| == 8 + AttribLen(k)
  {
    hide Vectors;
    var s := Flagged(k, slots);
    assert forall i | 0 <= i < |s| :: PassedOver(k, s[i]);
    IdlePlans(k, s, true, cap);
  }

  /** From 52 on the Failed message takes 1930 bytes, and what is left for the last emitter is less than it writes. */
  lemma ManyOverrun(slots: seq<Slot>)
    requires ScatteredFailed(slots) && |slots| >= 52
    ensures !TxInside(slots, true)
  {
    hide InsideFrom, EmitPlan, Message, Flagged;
    InsideStep(ORDER, slots, true, 0);
    BareSize(AdvKind, slots, CAPACITY);
    FailedSize(slots);
    assert ORDER[1..] == [FailedKind, ListenerKind, DomainKind];
    InsideStep([FailedKind, ListenerKind, DomainKind], slots, true, 33);
    BareSize(ListenerKind, slots, 22);
    assert [FailedKind, ListenerKind, DomainKind][1..] == [ListenerKind, DomainKind];
    InsideStep([ListenerKind, DomainKind], slots, true, 1963);
    assert [ListenerKind, DomainKind][1..] == [DomainKind];
    InsideStep([DomainKind], slots, true, 1979);
    OverrunsExactly(DomainKind, slots, true, 6);
  }

  lemma FailedSize(slots: seq<Slot>)
    requires ScatteredFailed(slots) && |slots| >= 52
    ensures var plan := EmitPlan(FailedKind, slots, true, 1952);
      plan.Plan? && |Message(FailedKind, plan.vecs, true)| == 1930
  {
    hide Vectors, VecsBytes;
    ScatteredPlan(slots, true, 0, 4, 1952, 52);
    assert VecsBytes([]) == [] by { NoVecs(); }
  }

  lemma NoVecs()
    ensures VecsBytes([]) == []
  {}

  /** On a LeaveAll exactly up to 51 scattered Failed talkers keep the emitters inside the buffer. */
  lemma ScatteredInsideExactly(slots: seq<Slot>)
    requires ScatteredFailed(slots) && slots != []
    ensures TxInside(slots, true) <==> |slots| <= MAX_SURE
  {
    hide TxInside, Messages, ScatteredFailed;
    if |slots| <= MAX_SURE {
      ScatteredFitsExactly(slots);
      MessagesInside(ORDER, slots, true, 0);
      assert TxInside(slots, true) by { IsTxInside(slots, true); }
    } else {
      ManyOverrun(slots);
    }
  }

  lemma IsTxInside(slots: seq<Slot>, lva: bool)
    requires InsideFrom(ORDER, slots, lva, 0)
    ensures TxInside(slots, lva)
  {}

  /* ---------- a run that gets there ---------- */

  /**
  Failed talkers with one destination: never consecutive, since consecutive streams have consecutive destinations.
  */
  function Talker(i: byte): Value {
    TalkerFailed(TalkListen([0, 0, 0, 0, 0, 0, 0, i], ZERO48, 0, 0, 0, 0, 0, ZERO64, 0))
  }

  /** The application declares `n` of them. */
  function Declarations(n: nat): (inputs: seq<TimedInput>)
    requires n <= 0x100
    ensures |inputs| == n
  {
    seq(n, i requires 0 <= i < n => TimedInput(0, Attr(Join, Talker(i), 0)))
  }

  /** And there are two transmission opportunities. */
  function Announcements(n: nat): seq<TimedInput>
    requires n <= 0x100
  {
    Declarations(n) + [TimedInput(0, TxOpportunity)] + [TimedInput(0, TxOpportunity)]
  }

  ghost predicate OfTalker(e: Entry, n: nat, app: AppState) {
    e.value.TalkerFailed? && e.value.t.dest == ZERO48 && e.value.t.streamId[7] < n && e.att.app == app
  }

  ghost predicate AllTalkers(es: seq<Entry>, n: nat, app: AppState) {
    |es| == n && forall i | 0 <= i < |es| :: OfTalker(es[i], n, app)
  }

  lemma OthersKept(es: seq<Entry>, n: Entry, j: nat)
    requires IndexOf(es, KeyOf(n.value)) == |es| && j <= |es| && j != IndexOf(Added(es, n), KeyOf(n.value))
    ensures Added(es, n)[j] in es
  {
    hide Added, Shape;
    AddedOnce(es, n);
    var p, k := Order.PlaceFrom(Shapes(es), 0, Shape(n.value)), IndexOf(Added(es, n), KeyOf(n.value));
    AddedThere(es, n, p, j);
    AddedThere(es, n, p, k);
  }

  lemma FirstJoin()
    ensures Handled(Join, FRESH) == Att(VP, IN)
  {}

  lemma JoinsAt(s: Station, n: nat, r: seq<Entry>, k: nat)
    requires n < 0x100 && Current(s.entries, Talker(n), 0) == (r, k) && k < |r| && r[k].att == FRESH
    ensures Step(s, 0, Attr(Join, Talker(n), 0)).next.entries == r[k := r[k].(att := Att(VP, IN))]
  {
    hide Current;
    FirstJoin();
  }

  lemma DeclareOne(s: Station, n: nat)
    requires n < 0x100 && AllTalkers(s.entries, n, VP)
    ensures AllTalkers(Step(s, 0, Attr(Join, Talker(n), 0)).next.entries, n + 1, VP)
  {
    hide Added, Step;
    var es, e := s.entries, Entry(Talker(n), 0, FRESH);
    var r, k := Added(es, e), IndexOf(Added(es, e), KeyOf(e.value));
    assert forall i | 0 <= i < |es| :: OfTalker(es[i], n, VP);
    assert IndexOf(es, KeyOf(e.value)) == |es|;
    AddedOnce(es, e);
    JoinsAt(s, n, r, k);
    forall j | 0 <= j < |r| && j != k ensures OfTalker(r[j], n + 1, VP) {
      OthersKept(es, e, j);
      var i :| 0 <= i < |es| && es[i] == r[j];
      assert OfTalker(es[i], n, VP);
    }
  }

  lemma {:induction false} DeclareAll(addr: seq<byte>, n: nat)
    requires n <= 0x100
    ensures AllTalkers(Run(Init(addr), Declarations(n)).entries, n, VP)
  {
    hide Step, AllTalkers;
    if n == 0 {
      NoTalkers(VP);
    } else {
      DeclareAll(addr, n - 1);
      assert Declarations(n)[..n - 1] == Declarations(n - 1);
      DeclareOne(Run(Init(addr), Declarations(n - 1)), n - 1);
    }
  }

  lemma NoTalkers(app: AppState)
    ensures AllTalkers([], 0, app)
  {}

  lemma Announce(s: Station, n: nat, app: AppState, app': AppState)
    requires AllTalkers(s.entries, n, app) && (app, app') in {(VP, AA), (AA, QA)}
    ensures AllTalkers(Step(s, 0, TxOpportunity).next.entries, n, app')
  {
    var next := Step(s, 0, TxOpportunity).next.entries;
    forall i | 0 <= i < |next| ensures OfTalker(next[i], n, app') {
      assert OfTalker(s.entries[i], n, app);
    }
  }

  lemma AnnounceAll(addr: seq<byte>, n: nat)
    requires n <= 0x100
    ensures AllTalkers(Run(Init(addr), Announcements(n)).entries, n, QA)
  {
    hide Step, AllTalkers;
    var a, tx := Declarations(n), [TimedInput(0, TxOpportunity)];
    DeclareAll(addr, n);
    assert (a + tx)[..|a|] == a && (a + tx + tx)[..|a + tx|] == a + tx;
    Announce(Run(Init(addr), a), n, VP, AA);
    Announce(Run(Init(addr), a + tx), n, AA, QA);
  }

  lemma NextDestination()
    ensures NextMac(ZERO48) != ZERO48
  {}

  lemma TalkersScatter(es: seq<Entry>, n: nat)
    requires AllTalkers(es, n, QA)
    ensures ScatteredFailed(Slots(es, TxLA))
  {
    NextDestination();
    var slots := Slots(es, TxLA);
    forall i | 0 <= i < |slots|
      ensures slots[i].value.TalkerFailed? && slots[i].tx && !slots[i].optional && slots[i].code.Some?
      ensures slots[i].value.t.dest == ZERO48
    {
      assert OfTalker(es[i], n, QA);
    }
  }

  /**
  After `n` declarations and two transmissions the station is quiet, and the LeaveAll timer expires: the emitters stay
  inside the buffer for up to 51 talkers, and from 52 on they do not.
  */
  lemma OverrunIsReached(addr: seq<byte>, n: nat)
    requires 0 < n <= 0x100
    ensures var es := Run(Init(addr), Announcements(n)).entries;
      && |es| == n && (forall i | 0 <= i < n :: es[i].att.app == QA)
      && (TxInside(Slots(es, TxLA), true) <==> n <= MAX_SURE)
  {
    hide TxInside, Slots, ScatteredFailed, Run;
    var es := Run(Init(addr), Announcements(n)).entries;
    AnnounceAll(addr, n);
    assert forall i | 0 <= i < n :: es[i].att.app == QA by {
      forall i | 0 <= i < n ensures es[i].att.app == QA { assert OfTalker(es[i], n, QA); }
    }
    TalkersScatter(es, n);
    ScatteredInsideExactly(Slots(es, TxLA));
  }
}
