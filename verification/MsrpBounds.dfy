/**
Where the MSRP emitters write: which of their writes stay inside the frame buffer that msrp_txpdu allocates.
*/
module MsrpBounds {
  import opened Mrp
  import opened MrpPdu
  import opened MsrpCodec

  /** The outer loop of the emitter passes the attribute over. */
  predicate PassedOver(k: Kind, s: Slot) {
    KindOf(s.value) != k || !s.tx || s.optional
  }

  /** How many attributes the vector that starts at position `i` takes. */
  function RunLength(s: seq<Slot>, i: nat): (n: nat)
    requires i < |s|
    ensures 0 < n <= |s| - i
  {
    1 + Riders(s[i + 1..], Succ(s[i].value))
  }

  function FirstOwed(k: Kind, s: seq<Slot>): (i: nat)
    ensures i <= |s| && (forall j | 0 <= j < i :: PassedOver(k, s[j])) && (i < |s| ==> !PassedOver(k, s[i]))
  {
    if s == [] || !PassedOver(k, s[0]) then 0 else 1 + FirstOwed(k, s[1..])
  }

  /** Bytes behind the first value of a vector that are written before the first test for room. */
  function Unguarded(s: seq<Slot>, i: nat): nat
    requires i < |s|
  {
    if s[i].code.None? || RunLength(s, i) > 1 then 0 else if s[i].value.Listener? then 2 else 1
  }

  /** The emitter finds nothing to send: nothing is owed, or it does not get as far as to look. */
  predicate Idle(k: Kind, s: seq<Slot>, cap: nat) {
    MinVector(k) + ENDMARK_SIZE >= cap || FirstOwed(k, s) == |s|
  }

  /** All writes of the emitter stay within the `cap` bytes it is given; `empty` asks for a bare LeaveAll. */
  predicate EmitterInside(k: Kind, slots: seq<Slot>, empty: bool, cap: nat) {
    var s := Flagged(k, slots);
    cap < MinVector(k)
    || if Idle(k, s, cap) then empty ==> 8 + AttribLen(k) <= cap
       else 4 + VecSize(k, 0) + Unguarded(s, FirstOwed(k, s)) <= cap
  }

  /** The same of one emitter after the other, up to the first that gives up. */
  predicate InsideFrom(kinds: seq<Kind>, slots: seq<Slot>, lva: bool, at: nat) {
    if kinds == [] || at > CAPACITY || (kinds[0] == ListenerKind && at + ENDMARK_SIZE >= CAPACITY) then true
    else
      var plan := EmitPlan(kinds[0], slots, lva, CAPACITY - at);
      && EmitterInside(kinds[0], slots, lva, CAPACITY - at)
      && (plan.Plan? ==> InsideFrom(kinds[1..], slots, lva, at + |Message(kinds[0], plan.vecs, lva)|))
  }

  predicate TxInside(slots: seq<Slot>, lva: bool) {
    InsideFrom(ORDER, slots, lva, 0)
  }

  lemma InsideStep(kinds: seq<Kind>, s: seq<Slot>, lva: bool, at: nat)
    requires kinds != [] && at <= CAPACITY && !(kinds[0] == ListenerKind && at + ENDMARK_SIZE >= CAPACITY)
    ensures var plan := EmitPlan(kinds[0], s, lva, CAPACITY - at);
      InsideFrom(kinds, s, lva, at) <==>
      && EmitterInside(kinds[0], s, lva, CAPACITY - at)
      && (plan.Plan? ==> InsideFrom(kinds[1..], s, lva, at + |Message(kinds[0], plan.vecs, lva)|))
  {
    hide EmitPlan, Message, EmitterInside;
  }

  lemma InsideStuck(kinds: seq<Kind>, s: seq<Slot>, lva: bool, at: nat)
    requires kinds == [] || at > CAPACITY || (kinds[0] == ListenerKind && at + ENDMARK_SIZE >= CAPACITY)
    ensures InsideFrom(kinds, s, lva, at)
  {}
}
