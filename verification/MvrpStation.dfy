/**
One MVRP participant as a state machine on values: what mvrp_event and mvrp_reclaim of daemons/mrpd/mvrp.c do to the
attribute list and the timers, which PDU they send and which notifications they raise. MvrpDaemon holds the database
and the loops that compute this; between two events only the fields kept here matter.
*/
module MvrpStation {
  import opened Mrp
  import opened MrpPdu
  import opened MvrpCodec
  import opened MrpParticipant

  datatype Entry = Entry(vid: u16, att: Att)

  datatype Station = Station(addr: seq<byte>, entries: seq<Entry>, join: bool, leave: LeaveTimer, leaveAll: bool)

  datatype Note = Note(vid: u16, kind: Notify)

  datatype Input =
    | LeaveAllExpiry
    | LeaveExpiry
    | TxOpportunity
    | PeriodicExpiry
    | LeaveAllHeard
    | Attr(ev: Event, vid: u16)
    | Reclaim

  datatype Outcome = Outcome(next: Station, frame: Option<seq<byte>>, notes: seq<Note>)

  /* ---------- the attribute list ---------- */

  ghost predicate Sorted(es: seq<Entry>) {
    forall i, j | 0 <= i < j < |es| :: es[i].vid < es[j].vid
  }

  function Find(es: seq<Entry>, v: u16): Option<Att> {
    if es == [] then None else if es[0].vid == v then Some(es[0].att) else Find(es[1..], v)
  }

  function Put(es: seq<Entry>, v: u16, a: Att): seq<Entry> {
    if es == [] then [Entry(v, a)]
    else if es[0].vid < v then [es[0]] + Put(es[1..], v, a)
    else if es[0].vid == v then [Entry(v, a)] + es[1..]
    else [Entry(v, a)] + es
  }

  function Drop(es: seq<Entry>, v: u16): seq<Entry> {
    if es == [] then [] else if es[0].vid == v then es[1..] else [es[0]] + Drop(es[1..], v)
  }

  function Kept(es: seq<Entry>): seq<Entry> {
    if es == [] then [] else (if Reclaimable(es[0].att) then [] else [es[0]]) + Kept(es[1..])
  }

  function Removals(es: seq<Entry>): seq<Note> {
    if es == [] then []
    else (if Reclaimable(es[0].att) then [Note(es[0].vid, NotifyLv)] else []) + Removals(es[1..])
  }

  /* ---------- one attribute ---------- */

  function Sweep(es: seq<Entry>, ev: Event): (r: seq<Entry>)
    ensures |r| == |es|
  {
    seq(|es|, i requires 0 <= i < |es| => Entry(es[i].vid, Swept(ev, es[i].att)))
  }

  /* ---------- what goes out ---------- */

  /** What emission sees of an attribute after the transmit event `ev` moved its machines. */
  function SlotOf(e: Entry, ev: Event): Slot {
    var (msg, optional) := Outgoing(e.att.app, ev);
    Slot(e.vid, ev == Tx || ev == TxLA, optional, PduCode(msg, NextReg(e.att.reg, ev) == IN))
  }

  function Slots(es: seq<Entry>, ev: Event): (r: seq<Slot>)
    ensures |r| == |es|
  {
    seq(|es|, i requires 0 <= i < |es| => SlotOf(es[i], ev))
  }

  /* ---------- the dispatcher ---------- */

  predicate SweepStartsLeave(es: seq<Entry>, ev: Event) {
    exists e | e in es :: StartsLeaveTimer(e.att.reg, ev)
  }

  function LeaveNotes(es: seq<Entry>): seq<Note> {
    if es == [] then []
    else
      var a := es[0].att;
      (if a.reg == LV && !Reclaimable(Swept(LvTimer, a)) then [Note(es[0].vid, NotifyLv)] else [])
      + LeaveNotes(es[1..])
  }

  function Current(es: seq<Entry>, v: u16): Att {
    var o := Find(es, v);
    if o.Some? then o.value else FRESH
  }

  function AttrStep(s: Station, now: int, ev: Event, v: u16): Outcome {
    var a := Current(s.entries, v);
    var b := Handled(ev, a);
    var s' := s.(
      join := true,
      leave := Restart(s.leave, StartsLeaveTimer(a.reg, RegEvent(ev, a.reg)), now));
    if Reclaimable(b) then Outcome(s'.(entries := Drop(s.entries, v)), None, [Note(v, NotifyLv)])
    else
      var kind := HandledNotify(ev, a);
      Outcome(s'.(entries := Put(s.entries, v, b)), None, if kind == NotifyNone then [] else [Note(v, kind)])
  }

  /** mvrp_event (and mvrp_reclaim, for Reclaim) at time `now`. */
  function Step(s: Station, now: int, i: Input): Outcome {
    match i
    case LeaveAllExpiry =>
      Outcome(
        s.(entries := Sweep(s.entries, TxLA), join := false, leaveAll := true,
           leave := Restart(s.leave, SweepStartsLeave(s.entries, TxLA), now)),
        TxPdu(s.addr, Slots(s.entries, TxLA), true), [])
    case LeaveAllHeard =>
      Outcome(
        s.(entries := Sweep(s.entries, RLA), join := true, leaveAll := true,
           leave := Restart(s.leave, SweepStartsLeave(s.entries, RLA), now)),
        None, [])
    case TxOpportunity =>
      Outcome(
        s.(entries := Sweep(s.entries, Tx), join := exists e | e in s.entries :: Rearms(e.att)),
        TxPdu(s.addr, Slots(s.entries, Tx), false), [])
    case LeaveExpiry =>
      var swept := Sweep(s.entries, LvTimer);
      Outcome(s.(entries := Kept(swept), leave := Stopped), None, Removals(swept) + LeaveNotes(s.entries))
    case PeriodicExpiry =>
      Outcome(s.(entries := Sweep(s.entries, Periodic), join := s.join || s.entries != []), None, [])
    case Attr(ev, v) => if IsAttrEvent(ev) then AttrStep(s, now, ev, v) else Outcome(s, None, [])
    case Reclaim => Outcome(s.(entries := Kept(s.entries)), None, Removals(s.entries))
  }

  /* ---------- reception ---------- */

  function InputOf(a: Action): Input
    requires a.Hear? ==> a.vid <= MAX_VID && a.code < 6
  {
    match a
    case HearLeaveAll => LeaveAllHeard
    case Hear(v, c) => Attr(CodeEvent(c), v)
  }

  ghost predicate Dispatchable(actions: seq<Action>) {
    forall a: Action | a in actions :: a.Hear? ==> a.vid <= MAX_VID && a.code < 6
  }

  /** Dispatching decoded events one after the other. */
  function Hears(s: Station, now: int, actions: seq<Action>): Station
    requires Dispatchable(actions)
    decreases |actions|
  {
    if actions == [] then s else Hears(Step(s, now, InputOf(actions[0])).next, now, actions[1..])
  }

  lemma {:induction false} ActionsDispatchable(codes: seq<nat>, vid: nat)
    ensures Dispatchable(Actions(codes, vid))
  {
    if codes != [] {
      ActionsDispatchable(codes[1..], if vid > MAX_VID then vid else vid + 1);
    }
  }

  lemma {:induction false} VectorsDispatchable(f: seq<byte>, p: nat, saw: bool)
    ensures Dispatchable(DecodeVectors(f, p, saw).actions)
    decreases if p < |f| then |f| - p else 0
  {
    var n := NumValues(WordAt(f, p));
    if !EndMarkAt(f, p) && !RunsOff(f, p, n) {
      ActionsDispatchable(CodesAt(f, p + 4, n), WordAt(f, p + 2));
      VectorsDispatchable(f, p + VecSize(n), saw || IsLva(WordAt(f, p)));
    }
  }

  lemma {:induction false} MessagesDispatchable(f: seq<byte>, p: nat, endmarks: nat, saw: bool)
    ensures Dispatchable(DecodeMessages(f, p, endmarks, saw).actions)
    decreases if p < |f| then |f| - p else 0
  {
    if p + ENDMARK_SIZE >= |f| {
    } else if EndMarkAt(f, p) {
      if endmarks + 1 < 2 { MessagesDispatchable(f, p + 2, endmarks + 1, saw); }
    } else if At(f, p) == VID_TYPE {
      if At(f, p + 1) == 2 {
        var v := DecodeVectors(f, p + 2, saw);
        VectorsDispatchable(f, p + 2, saw);
        if v.ok { MessagesDispatchable(f, v.ptr, 0, v.saw); }
      }
    } else if At(f, ETH_HEADER_SIZE) != 0 {
      MessagesDispatchable(f, SkipUnknown(f, p), 0, saw);
    }
  }

  /** For every frame content, only VIDs up to 0xFFF and the six known events reach mvrp_event. */
  lemma DecodeDispatchable(f: seq<byte>)
    ensures Dispatchable(Decode(f).actions)
  {
    MessagesDispatchable(f, MESSAGE_LIST, 0, false);
  }

  /** mvrp_recv_msg. */
  function Receive(s: Station, now: int, f: seq<byte>): Station {
    DecodeDispatchable(f);
    Hears(s, now, Decode(f).actions)
  }
}
