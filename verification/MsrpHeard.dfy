/**
Everything an MSRP station owes is heard by its peer exactly if there is room for it, by the sizes that the attribute
list calls for: with less room some attribute goes unheard.
*/
module MsrpHeard {
  import opened Mrp
  import opened MrpPdu
  import opened MsrpCodec
  import opened MsrpRoundTrip
  import opened MsrpStation
  import opened MsrpRoom
  import opened MsrpDelivery

  /** Each of the attributes may be sent, none has its event passed over, and no two are about the same. */
  ghost predicate Sendable(slots: seq<Slot>) {
    && AllCoded(slots) && Distinct(slots)
    && forall i | 0 <= i < |slots| :: slots[i].tx && !(slots[i].value.Listener? && slots[i].sub == 0)
  }

  function HeardOf(s: Slot): Action {
    Hear(Wire(s.value), CodeOf(s), WireSub(s))
  }

  /** Everything owed reaches the receiver. */
  ghost predicate AllHeard(src: seq<byte>, slots: seq<Slot>, lva: bool) {
    forall j | 0 <= j < |slots| && !slots[j].optional ::
      TxPdu(src, slots, lva).Some? && HeardOf(slots[j]) in Decode(TxPdu(src, slots, lva).value).actions
  }

  /* ---------- with room ---------- */

  lemma OwedIsHeard(src: seq<byte>, slots: seq<Slot>, lva: bool, j: nat)
    requires |src| == 6 && Sendable(slots) && Fits(slots, lva) && j < |slots| && !slots[j].optional
    ensures TxPdu(src, slots, lva).Some? && HeardOf(slots[j]) in Decode(TxPdu(src, slots, lva).value).actions
  {
    hide Messages, Complete, CarriedKinds, Decode, Frame, Wire, KindOf, CodeOf, WireSub, Distinct;
    KindsAll(KindOf(slots[j].value));
    var before, after := HeardOnce(ORDER, slots, lva, j);
    assert HeardOf(slots[j]) in CarriedKinds(ORDER, slots, lva);
    if TxPdu(src, slots, lva).Some? {
      RoundTripComplete(src, slots, lva);
    } else {
      NothingHeard(ORDER, slots, lva, 0);
      CompleteHeard(ORDER, slots, lva, 0);
    }
  }

  /* ---------- without ---------- */

  lemma {:induction false} LeftIsSuffix(k: Kind, slots: seq<Slot>, lva: bool, ptr: nat, at: nat, cap: nat)
    returns (m: nat)
    requires Vectors(k, slots, lva, ptr, at, cap).Plan?
    ensures m <= |slots| && Vectors(k, slots, lva, ptr, at, cap).left == slots[m..]
    decreases |slots|
  {
    hide Riders, Succ, Items, Room, Wire, VecSize, MinVector, KindOf;
    if slots == [] || ptr + MinVector(k) + ENDMARK_SIZE >= cap {
      m := 0;
    } else if KindOf(slots[0].value) != k || !slots[0].tx || slots[0].optional {
      m := LeftIsSuffix(k, slots[1..], lva, ptr, at, cap);
      assert slots[1..][m..] == slots[m + 1..];
      m := m + 1;
    } else {
      var n := 1 + Riders(slots[1..], Succ(slots[0].value));
      var end := at + VecSize(k, n);
      m := LeftIsSuffix(k, slots[n..], false, end, end, cap);
      assert slots[n..][m..] == slots[n + m..];
      m := n + m;
    }
  }

  /** No two of the attributes carried are about the same. */
  ghost predicate KeysDiffer(sends: seq<Sent>) {
    forall i, j | 0 <= i < j < |sends| :: KeyOf(sends[i].value) != KeyOf(sends[j].value)
  }

  lemma {:induction false} CarriedDiffer(k: Kind, slots: seq<Slot>, due: Option<Value>)
    requires Distinct(slots)
    ensures KeysDiffer(CarriedSends(k, slots, due))
  {
    hide Rides, Succ, Wire, KeyOf, CodeOf, WireSub;
    if slots != [] {
      var due' := if Carried(k, slots[0], due) then Some(Succ(slots[0].value)) else None;
      var rest := CarriedSends(k, slots[1..], due');
      CarriedDiffer(k, slots[1..], due');
      WireKeepsKey(slots[0].value);
      forall x | x in rest ensures KeyOf(x.value) != KeyOf(slots[0].value) {
        var i := CarriedFrom(k, slots[1..], due', x);
        WireKeepsKey(slots[1..][i].value);
        assert slots[1..][i] == slots[i + 1];
      }
    }
  }

  lemma SplitDiffers(a: seq<Sent>, b: seq<Sent>, x: Sent, y: Sent)
    requires KeysDiffer(a + b) && x in a && y in b
    ensures KeyOf(x.value) != KeyOf(y.value)
  {
    hide KeyOf;
    var i :| 0 <= i < |a| && a[i] == x;
    var j :| 0 <= j < |b| && b[j] == y;
    assert (a + b)[i] == x && (a + b)[|a| + j] == y;
  }

  lemma FlaggedDistinct(k: Kind, slots: seq<Slot>)
    requires Sendable(slots)
    ensures Flagged(k, slots) == slots
  {}

  lemma SentKind(k: Kind, slots: seq<Slot>, lva: bool, cap: nat, x: Sent)
    requires EmitPlan(k, slots, lva, cap).Plan? && x in SentBy(k, slots, lva, cap)
    ensures KindOf(x.value) == k
  {
    hide EmitPlan, SentBy, CarriedSends, Flagged, Wire, KindOf;
    SentIsCarried(k, slots, lva, cap);
    assert x in CarriedSends(k, Flagged(k, slots), None);
    var j := CarriedFrom(k, Flagged(k, slots), None, x);
    WireKeepsKey(Flagged(k, slots)[j].value);
  }

  /** An owed attribute that its emitter did not get to is not among what it sent. */
  lemma LeftUnsent(k: Kind, slots: seq<Slot>, lva: bool, cap: nat) returns (j: nat)
    requires Sendable(slots) && EmitPlan(k, slots, lva, cap).Plan?
    requires !NothingOwed(k, EmitPlan(k, slots, lva, cap).left)
    ensures j < |slots| && !slots[j].optional && KindOf(slots[j].value) == k
    ensures HeardOf(slots[j]) !in HearSends(SentBy(k, slots, lva, cap))
  {
    hide Vectors, CarriedSends, Wire, HearSends, CodeOf, WireSub, SentBy, KeyOf;
    FlaggedDistinct(k, slots);
    var left := EmitPlan(k, slots, lva, cap).left;
    var m := LeftIsSuffix(k, slots, lva, 0, 4, cap);
    var x :| x in left && KindOf(x.value) == k && x.tx && !x.optional;
    var i :| 0 <= i < |left| && left[i] == x;
    j := m + i;
    assert slots[j] == x;
    SentIsCarried(k, slots, lva, cap);
    CarriedDiffer(k, slots, None);
    var a := CarriedSplit(k, left, None, i);
    assert SentOf(x) in CarriedSends(k, left, None);
    if HeardOf(x) in HearSends(SentBy(k, slots, lva, cap)) {
      HeardFrom(SentBy(k, slots, lva, cap), HeardOf(x));
      SplitDiffers(SentBy(k, slots, lva, cap), CarriedSends(k, left, None), SentOf(x), SentOf(x));
    }
  }

  /** If some emitter did not get to everything owed, something is not heard. */
  lemma {:induction false} IncompleteUnheard(kinds: seq<Kind>, slots: seq<Slot>, lva: bool, at: nat) returns (j: nat)
    requires Sendable(slots) && Fresh(kinds, {}) && Messages(kinds, slots, lva, at).Some?
    requires !Complete(kinds, slots, lva, at)
    ensures j < |slots| && !slots[j].optional && KindOf(slots[j].value) in kinds
    ensures HeardOf(slots[j]) !in HeardKinds(kinds, slots, lva, at)
    decreases |kinds|
  {
    hide Messages, EmitPlan, MessageBy, SentBy, HearSends, NothingOwed, Wire, CodeOf, WireSub, KindOf, Sendable;
    MessagesUnfold(kinds, slots, lva, at);
    var k, cap := kinds[0], CAPACITY - at;
    var next := at + |MessageBy(k, slots, lva, cap)|;
    FreshTail(kinds, {}, {});
    if NothingOwed(k, EmitPlan(k, slots, lva, cap).left) {
      j := IncompleteUnheard(kinds[1..], slots, lva, next);
      OtherKindUnsent(k, slots, lva, cap, slots[j]);
    } else {
      j := LeftUnsent(k, slots, lva, cap);
      LaterKindsUnsent(kinds[1..], slots, lva, next, slots[j]);
    }
  }

  lemma OtherKindUnsent(k: Kind, slots: seq<Slot>, lva: bool, cap: nat, s: Slot)
    requires EmitPlan(k, slots, lva, cap).Plan? && KindOf(s.value) != k
    ensures HeardOf(s) !in LeaveAllFirst(k, lva) + HearSends(SentBy(k, slots, lva, cap))
  {
    hide EmitPlan, SentBy, HearSends, Wire, CodeOf, WireSub, KindOf;
    WireKeepsKey(s.value);
    if HeardOf(s) in HearSends(SentBy(k, slots, lva, cap)) {
      HeardFrom(SentBy(k, slots, lva, cap), HeardOf(s));
      SentKind(k, slots, lva, cap, Sent(Wire(s.value), CodeOf(s), WireSub(s)));
    }
  }

  lemma {:induction false} LaterKindsUnsent(kinds: seq<Kind>, slots: seq<Slot>, lva: bool, at: nat, s: Slot)
    requires Messages(kinds, slots, lva, at).Some? && KindOf(s.value) !in kinds
    ensures HeardOf(s) !in HeardKinds(kinds, slots, lva, at)
    decreases |kinds|
  {
    hide Messages, EmitPlan, MessageBy, SentBy, HearSends, Wire, CodeOf, WireSub, KindOf;
    if kinds != [] {
      MessagesUnfold(kinds, slots, lva, at);
      OtherKindUnsent(kinds[0], slots, lva, CAPACITY - at, s);
      LaterKindsUnsent(kinds[1..], slots, lva, at + |MessageBy(kinds[0], slots, lva, CAPACITY - at)|, s);
    }
  }

  lemma LargeIsNeeded(k: Kind, slots: seq<Slot>, lva: bool)
    requires MessageNeed(k, slots, lva) > 8 + AttribLen(k)
    ensures Need(k, Flagged(k, slots)) > 0
  {}

  /** Where there is no room, something is owed. */
  lemma CrowdedOwes(slots: seq<Slot>, lva: bool) returns (j: nat)
    requires Sendable(slots) && !Roomy(slots, lva)
    ensures j < |slots| && !slots[j].optional
  {
    hide Roomy, Need, Sendable;
    RoomyInOrder(slots, lva);
    var k :| MessageNeed(k, slots, lva) > 8 + AttribLen(k);
    FlaggedDistinct(k, slots);
    NoNeed(k, slots);
    LargeIsNeeded(k, slots, lva);
    var x :| x in slots && KindOf(x.value) == k && x.tx && !x.optional;
    j :| 0 <= j < |slots| && slots[j] == x;
  }

  /** Everything owed is heard exactly if there is room for it. */
  lemma {:induction false} HeardIffRoomy(src: seq<byte>, slots: seq<Slot>, lva: bool)
    requires |src| == 6 && Sendable(slots)
    ensures AllHeard(src, slots, lva) <==> Roomy(slots, lva)
  {
    hide Roomy, TxPdu, Decode, Wire, CodeOf, WireSub, Distinct, HeardKinds;
    FitsExactly(slots, lva);
    if Roomy(slots, lva) {
      forall j | 0 <= j < |slots| && !slots[j].optional
        ensures TxPdu(src, slots, lva).Some? && HeardOf(slots[j]) in Decode(TxPdu(src, slots, lva).value).actions {
        OwedIsHeard(src, slots, lva, j);
      }
    } else if TxPdu(src, slots, lva).Some? {
      SentMessages(src, slots, lva);
      KindsAll(AdvKind);
      var j := IncompleteUnheard(ORDER, slots, lva, 0);
      RoundTrip(src, slots, lva);
    } else {
      var j := CrowdedOwes(slots, lva);
    }
  }

  lemma SentMessages(src: seq<byte>, slots: seq<Slot>, lva: bool)
    requires TxPdu(src, slots, lva).Some? && !Fits(slots, lva)
    ensures Messages(ORDER, slots, lva, 0).Some? && !Complete(ORDER, slots, lva, 0)
  {}
}
