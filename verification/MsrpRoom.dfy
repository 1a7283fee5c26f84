/**
What fits into one MSRP PDU: the sizes of the messages that the attribute list calls for, and when there is room for
them. Up to 51 attributes always fit, whatever they are.
*/
module MsrpRoom {
  import opened Mrp
  import opened MrpPdu
  import opened MsrpCodec
  import opened MsrpRoundTrip

  ghost predicate AllCoded(slots: seq<Slot>) {
    forall s | s in slots :: s.code.Some?
  }

  /* ---------- what is needed ---------- */

  /**
  Bytes of the vectors of kind `k` that the riding rule forms on the list alone: each owed attribute that does not ride
  starts one, and those directly behind it that are flagged and have the values due share it.
  */
  function Need(k: Kind, slots: seq<Slot>): nat
    decreases |slots|
  {
    if slots == [] then 0
    else if KindOf(slots[0].value) != k || !slots[0].tx || slots[0].optional then Need(k, slots[1..])
    else
      var n := 1 + Riders(slots[1..], Succ(slots[0].value));
      VecSize(k, n) + Need(k, slots[n..])
  }

  /** Bytes of the whole message: with list length and end mark, or the bare LeaveAll, or nothing. */
  function MessageNeed(k: Kind, slots: seq<Slot>, lva: bool): nat {
    var need := Need(k, Flagged(k, slots));
    if need > 0 then need + 6 else if lva then 8 + AttribLen(k) else 0
  }

  /** From offset `at` on there is room for the messages of `kinds` and for the end mark behind them. */
  predicate RoomyFrom(kinds: seq<Kind>, slots: seq<Slot>, lva: bool, at: nat) {
    if kinds == [] then at + ENDMARK_SIZE < CAPACITY
    else
      at + MinVector(kinds[0]) <= CAPACITY && RoomyFrom(kinds[1..], slots, lva, at + MessageNeed(kinds[0], slots, lva))
  }

  /** There is room for all that is owed: sums over the list, which a caller can form before the call. */
  predicate Roomy(slots: seq<Slot>, lva: bool) {
    RoomyFrom(ORDER, slots, lva, 0)
  }

  /** All that is owed goes out in the PDU. */
  predicate Fits(slots: seq<Slot>, lva: bool) {
    var m := Messages(ORDER, slots, lva, 0);
    Complete(ORDER, slots, lva, 0) && m.Some? && |m.value| + ENDMARK_SIZE < CAPACITY
  }

  lemma {:induction false} NoNeed(k: Kind, slots: seq<Slot>)
    ensures Need(k, slots) == 0 <==> NothingOwed(k, slots)
    ensures Need(k, slots) == 0 || Need(k, slots) >= VecSize(k, 1)
  {
    hide Riders, Succ;
    if slots != [] {
      assert slots[0] in slots;
      NoNeed(k, slots[1..]);
      NothingOwedTail(k, slots);
    }
  }

  lemma NothingOwedTail(k: Kind, slots: seq<Slot>)
    requires slots != []
    ensures NothingOwed(k, slots) <==>
      !(KindOf(slots[0].value) == k && slots[0].tx && !slots[0].optional) && NothingOwed(k, slots[1..])
  {
    assert slots == [slots[0]] + slots[1..];
    assert slots[0] in slots;
  }

  /* ---------- one emitter ---------- */

  lemma {:induction false} ItemsCoded(slots: seq<Slot>)
    requires AllCoded(slots)
    ensures Items(slots).Some?
  {
    if slots != [] {
      assert slots[0] in slots;
      ItemsCoded(slots[1..]);
    }
  }

  lemma CodedRest(slots: seq<Slot>, n: nat)
    requires AllCoded(slots) && n <= |slots|
    ensures AllCoded(slots[..n]) && AllCoded(slots[n..])
  {}

  lemma VecsBytesCons(v: Vec, rest: seq<Vec>)
    ensures |VecsBytes([v] + rest)| == VecSize(KindOf(v.first), |v.items|) + |VecsBytes(rest)|
  {
    assert ([v] + rest)[1..] == rest;
  }

  lemma PassesOver(k: Kind, slots: seq<Slot>, lva: bool, ptr: nat, at: nat, cap: nat)
    requires slots != [] && ptr + MinVector(k) + ENDMARK_SIZE < cap
    requires KindOf(slots[0].value) != k || !slots[0].tx || slots[0].optional
    ensures Vectors(k, slots, lva, ptr, at, cap) == Vectors(k, slots[1..], lva, ptr, at, cap)
    ensures Need(k, slots) == Need(k, slots[1..])
  {
    hide Vectors, Riders, Succ;
    VectorsSkip(k, slots, lva, ptr, at, cap);
  }

  lemma TakesRun(k: Kind, slots: seq<Slot>, lva: bool, ptr: nat, at: nat, cap: nat, n: nat)
    requires slots != [] && ptr + MinVector(k) + ENDMARK_SIZE < cap
    requires KindOf(slots[0].value) == k && slots[0].tx && !slots[0].optional
    requires n == 1 + Riders(slots[1..], Succ(slots[0].value))
    ensures var items := Items(slots[..n]);
            var end := at + VecSize(k, n);
            var rest := Vectors(k, slots[n..], false, end, end, cap);
      Vectors(k, slots, lva, ptr, at, cap) ==
      if items.None? || !Room(k, n, end, cap) || rest.Oops? then Oops
      else Plan([Vec(lva, Wire(slots[0].value), items.value)] + rest.vecs, rest.left)
    ensures Need(k, slots) == VecSize(k, n) + Need(k, slots[n..])
  {
    hide Vectors, Riders, Items, Wire, Succ, VecSize, KindOf, Room;
    VectorsTake(k, slots, lva, ptr, at, cap, n);
  }

  /** With room for what is needed an emitter gets to everything owed. */
  lemma {:induction false} NeedPlans(k: Kind, slots: seq<Slot>, lva: bool, ptr: nat, at: nat, cap: nat)
    requires AllCoded(slots) && ptr <= at && at + Need(k, slots) + 4 < cap
    ensures var plan := Vectors(k, slots, lva, ptr, at, cap); plan.Plan? && NothingOwed(k, plan.left)
    decreases |slots|
  {
    hide Vectors, Need, Riders, Items, Wire, Succ, KindOf, AllCoded, NothingOwed;
    NoNeed(k, slots);
    if slots == [] || ptr + MinVector(k) + ENDMARK_SIZE >= cap {
      StopsAt(k, slots, lva, ptr, at, cap);
    } else if KindOf(slots[0].value) != k || !slots[0].tx || slots[0].optional {
      CodedRest(slots, 1);
      PassesOver(k, slots, lva, ptr, at, cap);
      NeedPlans(k, slots[1..], lva, ptr, at, cap);
    } else {
      var n := 1 + Riders(slots[1..], Succ(slots[0].value));
      var end := at + VecSize(k, n);
      CodedRest(slots, n);
      ItemsCoded(slots[..n]);
      TakesRun(k, slots, lva, ptr, at, cap, n);
      NeedPlans(k, slots[n..], false, end, end, cap);
    }
  }

  lemma StopsAt(k: Kind, slots: seq<Slot>, lva: bool, ptr: nat, at: nat, cap: nat)
    requires slots == [] || ptr + MinVector(k) + ENDMARK_SIZE >= cap
    ensures Vectors(k, slots, lva, ptr, at, cap) == Plan([], slots)
    ensures VecsBytes([]) == []
    ensures slots == [] ==> Need(k, slots) == 0
  {}

  /** And what it then writes is what is needed. */
  lemma {:induction false} PlanNeeds(k: Kind, slots: seq<Slot>, lva: bool, ptr: nat, at: nat, cap: nat)
    requires var plan := Vectors(k, slots, lva, ptr, at, cap); plan.Plan? && NothingOwed(k, plan.left)
    ensures |VecsBytes(Vectors(k, slots, lva, ptr, at, cap).vecs)| == Need(k, slots)
    ensures Vectors(k, slots, lva, ptr, at, cap).vecs == [] <==> Need(k, slots) == 0
    decreases |slots|
  {
    hide Vectors, Need, Riders, Items, Wire, Succ, KindOf, NothingOwed, VecsBytes, Room;
    NoNeed(k, slots);
    if slots == [] || ptr + MinVector(k) + ENDMARK_SIZE >= cap {
      StopsAt(k, slots, lva, ptr, at, cap);
    } else if KindOf(slots[0].value) != k || !slots[0].tx || slots[0].optional {
      PassesOver(k, slots, lva, ptr, at, cap);
      PlanNeeds(k, slots[1..], lva, ptr, at, cap);
    } else {
      var n := 1 + Riders(slots[1..], Succ(slots[0].value));
      var end := at + VecSize(k, n);
      TakesRun(k, slots, lva, ptr, at, cap, n);
      PlanNeeds(k, slots[n..], false, end, end, cap);
      WireBytes(slots[0].value);
      VecsBytesCons(Vec(lva, Wire(slots[0].value), Items(slots[..n]).value),
                    Vectors(k, slots[n..], false, end, end, cap).vecs);
    }
  }

  lemma FlaggedCoded(k: Kind, slots: seq<Slot>)
    requires AllCoded(slots)
    ensures AllCoded(Flagged(k, slots))
  {
    forall s | s in Flagged(k, slots) ensures s.code.Some? {
      var i :| 0 <= i < |slots| && Flagged(k, slots)[i] == s;
      assert slots[i] in slots;
    }
  }

  /** An emitter with room for its message writes it, of just that size. */
  lemma EmitterFits(k: Kind, slots: seq<Slot>, lva: bool, cap: nat)
    requires AllCoded(slots) && MinVector(k) <= cap && MessageNeed(k, slots, lva) + ENDMARK_SIZE < cap
    ensures var plan := EmitPlan(k, slots, lva, cap); plan.Plan? && NothingOwed(k, plan.left)
  {
    hide Vectors, Need, Flagged, NothingOwed, AllCoded;
    FlaggedCoded(k, slots);
    NoNeed(k, Flagged(k, slots));
    if Need(k, Flagged(k, slots)) == 0 {
      hide MinVector;
      NothingToPlan(k, Flagged(k, slots), lva, cap);
    } else {
      NeedPlans(k, Flagged(k, slots), lva, 0, 4, cap);
    }
  }

  lemma {:induction false} NothingToPlan(k: Kind, slots: seq<Slot>, lva: bool, cap: nat)
    requires NothingOwed(k, slots)
    ensures var plan := Vectors(k, slots, lva, 0, 4, cap); plan.Plan? && NothingOwed(k, plan.left)
  {
    hide Riders, Succ, Items, Room;
    if slots != [] {
      NothingOwedTail(k, slots);
      NothingToPlan(k, slots[1..], lva, cap);
    }
  }

  lemma EmitterSize(k: Kind, slots: seq<Slot>, lva: bool, cap: nat)
    requires var plan := EmitPlan(k, slots, lva, cap); plan.Plan? && NothingOwed(k, plan.left)
    ensures |MessageBy(k, slots, lva, cap)| == MessageNeed(k, slots, lva)
  {
    hide Vectors, Need, Flagged, NothingOwed, VecsBytes;
    PlanNeeds(k, Flagged(k, slots), lva, 0, 4, cap);
  }

  /* ---------- all emitters ---------- */

  lemma {:induction false} RoomyStarts(kinds: seq<Kind>, slots: seq<Slot>, lva: bool, at: nat)
    requires RoomyFrom(kinds, slots, lva, at)
    ensures at + ENDMARK_SIZE < CAPACITY
  {
    hide MessageNeed;
    if kinds != [] {
      RoomyStarts(kinds[1..], slots, lva, at + MessageNeed(kinds[0], slots, lva));
    }
  }

  lemma {:induction false} FitsFrom(kinds: seq<Kind>, slots: seq<Slot>, lva: bool, at: nat)
    requires AllCoded(slots)
    ensures RoomyFrom(kinds, slots, lva, at) <==>
      (var m := Messages(kinds, slots, lva, at);
       Complete(kinds, slots, lva, at) && m.Some? && at + |m.value| + ENDMARK_SIZE < CAPACITY)
    decreases |kinds|
  {
    hide EmitPlan, MessageNeed, AllCoded, NothingOwed, Message;
    if kinds != [] {
      var k := kinds[0];
      if RoomyFrom(kinds, slots, lva, at) {
        RoomyStarts(kinds[1..], slots, lva, at + MessageNeed(k, slots, lva));
        EmitterFits(k, slots, lva, CAPACITY - at);
      }
      if at <= CAPACITY && EmitPlan(k, slots, lva, CAPACITY - at).Plan?
         && NothingOwed(k, EmitPlan(k, slots, lva, CAPACITY - at).left) {
        EmitterSize(k, slots, lva, CAPACITY - at);
        PlanStarts(k, slots, lva, CAPACITY - at);
        FitsFrom(kinds[1..], slots, lva, at + MessageNeed(k, slots, lva));
        MinVectors(k);
      }
    }
  }

  lemma PlanStarts(k: Kind, slots: seq<Slot>, lva: bool, cap: nat)
    requires EmitPlan(k, slots, lva, cap).Plan?
    ensures MinVector(k) <= cap
  {}

  lemma MinVectors(k: Kind)
    ensures k == ListenerKind ==> MinVector(k) > ENDMARK_SIZE
  {}

  /** All that is owed goes out in one PDU exactly if there is room for it. */
  lemma FitsExactly(slots: seq<Slot>, lva: bool)
    requires AllCoded(slots)
    ensures Fits(slots, lva) <==> Roomy(slots, lva)
  {
    FitsFrom(ORDER, slots, lva, 0);
  }

  /* ---------- how much always fits ---------- */

  const MAX_SURE: nat := 51

  /** Bytes of a one-value vector, the most an attribute can take. */
  function Unit(k: Kind): nat {
    VecSize(k, 1)
  }

  function Count(k: Kind, slots: seq<Slot>): nat {
    if slots == [] then 0 else (if KindOf(slots[0].value) == k then 1 else 0) + Count(k, slots[1..])
  }

  lemma {:induction false} CountRun(k: Kind, slots: seq<Slot>, n: nat)
    requires n <= |slots| && forall i | 0 <= i < n :: KindOf(slots[i].value) == k
    ensures Count(k, slots) == n + Count(k, slots[n..])
    decreases n
  {
    if n > 0 {
      CountRun(k, slots[1..], n - 1);
      assert slots[1..][n - 1..] == slots[n..];
    } else {
      assert slots[0..] == slots;
    }
  }

  lemma {:induction false} CountKinds(slots: seq<Slot>)
    ensures Count(AdvKind, slots) + Count(FailedKind, slots) + Count(ListenerKind, slots) + Count(DomainKind, slots)
         == |slots|
  {
    if slots != [] {
      CountKinds(slots[1..]);
    }
  }

  lemma {:induction false} CountSame(k: Kind, a: seq<Slot>, b: seq<Slot>)
    requires |a| == |b| && forall i | 0 <= i < |a| :: a[i].value == b[i].value
    ensures Count(k, a) == Count(k, b)
  {
    if a != [] {
      CountSame(k, a[1..], b[1..]);
    }
  }

  lemma RunOfKind(k: Kind, slots: seq<Slot>, n: nat)
    requires slots != [] && KindOf(slots[0].value) == k && n == 1 + Riders(slots[1..], Succ(slots[0].value))
    ensures forall i | 0 <= i < n :: KindOf(slots[i].value) == k
  {
    RidersKind(slots[1..], Succ(slots[0].value));
    SuccKind(slots[0].value);
    forall i | 0 < i < n ensures KindOf(slots[i].value) == k {
      assert slots[i] == slots[1..][i - 1];
    }
  }

  lemma VecBound(k: Kind, n: nat, m: nat)
    requires n > 0
    ensures VecSize(k, n) + Unit(k) * m <= Unit(k) * (n + m)
  {}

  lemma {:induction false} NeedAtMost(k: Kind, slots: seq<Slot>)
    ensures Need(k, slots) <= Unit(k) * Count(k, slots)
    decreases |slots|
  {
    hide Riders, Succ, Unit, VecSize, KindOf;
    if slots != [] {
      if KindOf(slots[0].value) != k || !slots[0].tx || slots[0].optional {
        NeedAtMost(k, slots[1..]);
        UnitMonotone(k, Count(k, slots[1..]), Count(k, slots));
      } else {
        var n := 1 + Riders(slots[1..], Succ(slots[0].value));
        RunOfKind(k, slots, n);
        CountRun(k, slots, n);
        NeedAtMost(k, slots[n..]);
        VecBound(k, n, Count(k, slots[n..]));
      }
    }
  }

  lemma UnitMonotone(k: Kind, m: nat, n: nat)
    requires m <= n
    ensures Unit(k) * m <= Unit(k) * n
  {}

  /** The most a message can take whose kind has `n` attributes: its vectors, or the bare LeaveAll. */
  lemma MessageAtMost(k: Kind, slots: seq<Slot>, lva: bool)
    ensures var n := Count(k, slots); var m := MessageNeed(k, slots, lva);
      match k
      case AdvKind => m <= 33 || m <= 6 + 28 * n
      case FailedKind => m <= 42 || m <= 6 + 37 * n
      case ListenerKind => m <= 16 || m <= 6 + 12 * n
      case DomainKind => m <= 12 || m <= 6 + 7 * n
  {
    hide Need, Count;
    CountSame(k, slots, Flagged(k, slots));
    NeedAtMost(k, Flagged(k, slots));
  }

  lemma RoomyInOrder(slots: seq<Slot>, lva: bool)
    ensures var a, f := MessageNeed(AdvKind, slots, lva), MessageNeed(FailedKind, slots, lva);
            var l, d := MessageNeed(ListenerKind, slots, lva), MessageNeed(DomainKind, slots, lva);
      Roomy(slots, lva) <==>
        a + 37 <= CAPACITY && a + f + 13 <= CAPACITY && a + f + l + 5 <= CAPACITY && a + f + l + d + 2 < CAPACITY
  {
    hide MessageNeed;
    var failed, listeners, domains := ORDER[1..], ORDER[2..], ORDER[3..];
    assert failed[1..] == listeners && listeners[1..] == domains && domains[1..] == [];
    assert ORDER[0] == AdvKind && failed[0] == FailedKind && listeners[0] == ListenerKind && domains[0] == DomainKind;
    var a, f := MessageNeed(AdvKind, slots, lva), MessageNeed(FailedKind, slots, lva);
    var l, d := MessageNeed(ListenerKind, slots, lva), MessageNeed(DomainKind, slots, lva);
    assert RoomyFrom([], slots, lva, a + f + l + d) <==> a + f + l + d + 2 < CAPACITY;
    assert RoomyFrom(domains, slots, lva, a + f + l) <==>
      a + f + l + 5 <= CAPACITY && RoomyFrom([], slots, lva, a + f + l + d);
    assert RoomyFrom(listeners, slots, lva, a + f) <==>
      a + f + 13 <= CAPACITY && RoomyFrom(domains, slots, lva, a + f + l);
    assert RoomyFrom(failed, slots, lva, a) <==> a + 37 <= CAPACITY && RoomyFrom(listeners, slots, lva, a + f);
  }

  /** Whatever the attributes and whatever they have to send, 51 of them fit. */
  lemma SmallDatabaseFits(slots: seq<Slot>, lva: bool)
    requires |slots| <= MAX_SURE
    ensures Roomy(slots, lva) && (AllCoded(slots) ==> Fits(slots, lva))
  {
    hide MessageNeed, Count, Fits, Roomy;
    CountKinds(slots);
    MessageAtMost(AdvKind, slots, lva);
    MessageAtMost(FailedKind, slots, lva);
    MessageAtMost(ListenerKind, slots, lva);
    MessageAtMost(DomainKind, slots, lva);
    RoomyInOrder(slots, lva);
    if AllCoded(slots) {
      FitsExactly(slots, lva);
    }
  }

  /** Failed talkers that all must be sent and of which no two can share a vector. */
  ghost predicate ScatteredFailed(slots: seq<Slot>) {
    && (forall i | 0 <= i < |slots| ::
          slots[i].value.TalkerFailed? && slots[i].tx && !slots[i].optional && slots[i].code.Some?)
    && (forall i | 0 <= i < |slots| - 1 :: slots[i + 1].value != Succ(slots[i].value))
  }

  lemma {:induction false} ScatteredNeed(slots: seq<Slot>)
    requires ScatteredFailed(slots)
    ensures Need(FailedKind, slots) == 37 * |slots|
  {
    hide Succ;
    if slots != [] {
      assert |slots| > 1 ==> slots[1..][0] == slots[1] && slots[0 + 1].value != Succ(slots[0].value);
      assert Riders(slots[1..], Succ(slots[0].value)) == 0 by { SuccFailed(slots[0].value); }
      ScatteredNeed(slots[1..]);
    }
  }

  lemma SuccFailed(v: Value)
    requires v.TalkerFailed?
    ensures Succ(v).TalkerFailed?
  {}

  lemma {:induction false} NoneNeeded(k: Kind, slots: seq<Slot>)
    requires forall i | 0 <= i < |slots| :: KindOf(slots[i].value) != k
    ensures Need(k, slots) == 0
  {
    if slots != [] {
      NoneNeeded(k, slots[1..]);
    }
  }

  /** The sizes of the messages of scattered Failed talkers under LeaveAll. */
  lemma ScatteredSizes(slots: seq<Slot>)
    requires ScatteredFailed(slots) && slots != []
    ensures MessageNeed(AdvKind, slots, true) == 33 && MessageNeed(FailedKind, slots, true) == 6 + 37 * |slots|
    ensures MessageNeed(ListenerKind, slots, true) == 16 && MessageNeed(DomainKind, slots, true) == 12
  {
    hide Need, Succ;
    ScatteredNeed(slots);
    NoneNeeded(AdvKind, slots);
    NoneNeeded(DomainKind, slots);
    NoneNeeded(ListenerKind, Flagged(ListenerKind, slots));
  }

  /** 51 is exact: it is the most scattered Failed talkers that fit under a LeaveAll. */
  lemma ScatteredFitsExactly(slots: seq<Slot>)
    requires ScatteredFailed(slots) && slots != []
    ensures Fits(slots, true) <==> |slots| <= MAX_SURE
  {
    hide MessageNeed, Fits, Roomy, Succ;
    ScatteredSizes(slots);
    RoomyInOrder(slots, true);
    FitsExactly(slots, true);
  }
}
