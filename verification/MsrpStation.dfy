/**
One MSRP participant as a state machine on values: what msrp_event and msrp_reclaim of daemons/mrpd/msrp.c do to the
attribute list and the timers, how msrp_merge folds a new declaration into the entry there is, and which PDU goes out.
Pruning of uninteresting streams is off.
*/
module MsrpStation {
  import opened Mrp
  import opened MrpPdu
  import opened MrpParticipant
  import opened MsrpCodec
  import opened MsrpRoundTrip
  import Order = GroupedList
  import BigEndian

  /** An attribute between two events; `sub` is a listener's sub-state. */
  datatype Entry = Entry(value: Value, sub: Sub, att: Att)

  datatype Station = Station(addr: seq<byte>, entries: seq<Entry>, join: bool, leave: LeaveTimer, leaveAll: bool)

  datatype Note = Note(entry: Entry, kind: Notify)

  datatype Input =
    | LeaveAllExpiry
    | LeaveExpiry
    | TxOpportunity
    | PeriodicExpiry
    | LeaveAllHeard(kind: Kind)
    | Attr(ev: Event, value: Value, sub: Sub)
    | Reclaim

  datatype Outcome = Outcome(next: Station, frame: Option<seq<byte>>, notes: seq<Note>)

  /** MSRP_LISTENER_ASKFAILED. */
  const ASKING_FAILED: Sub := 1

  /* ---------- identity ---------- */

  /** What msrp_lookup compares: a stream has one talker entry, be it advertised or failed. */
  datatype Key = TalkerOf(id: Eui64) | ListenerTo(id: Eui64) | DomainOf(classId: byte)

  function KeyOf(v: Value): Key {
    match v
    case TalkerAdv(t) => TalkerOf(t.streamId)
    case TalkerFailed(t) => TalkerOf(t.streamId)
    case Listener(t) => ListenerTo(t.streamId)
    case Domain(d) => DomainOf(d.classId)
  }

  /** msrp_lookup: position of the entry, or the length of the list. */
  function IndexOf(es: seq<Entry>, key: Key): (k: nat)
    ensures k <= |es|
    ensures forall i | 0 <= i < k :: KeyOf(es[i].value) != key
    ensures k < |es| ==> KeyOf(es[k].value) == key
  {
    if es == [] || KeyOf(es[0].value) == key then 0 else 1 + IndexOf(es[1..], key)
  }

  /* ---------- adding ---------- */

  /** The order of msrp_add: by type, then by memcmp of the StreamID or of the domain record. */
  function Shape(v: Value): Order.Attribute<()> {
    var rank := match v
      case TalkerAdv(t) => BigEndian.Number(t.streamId)
      case TalkerFailed(t) => BigEndian.Number(t.streamId)
      case Listener(t) => BigEndian.Number(t.streamId)
      case Domain(d) => BigEndian.Number([d.classId, d.prio, d.neighbour, 0, d.vid % 0x100, d.vid / 0x100]);
    Order.Attribute(TypeByte(KindOf(v)), rank, (), Applicant(VO, false, SndNull, true, None), Registrar(MT, NotifyNone))
  }

  function Shapes(es: seq<Entry>): (s: seq<Order.Attribute<()>>)
    ensures |s| == |es|
  {
    seq(|es|, i requires 0 <= i < |es| => Shape(es[i].value))
  }

  /** msrp_add. */
  function Added(es: seq<Entry>, e: Entry): (r: seq<Entry>)
    ensures |r| == |es| + 1
  {
    var k := Order.PlaceFrom(Shapes(es), 0, Shape(e.value));
    es[..k] + [e] + es[k..]
  }

  /* ---------- merging ---------- */

  function Refailed(t: TalkListen, r: TalkListen): TalkListen {
    t.(bridge := r.bridge, failure := r.failure)
  }

  /** The entry takes the type and failure information of the new declaration, and keeps the stream's definition. */
  function Retyped(v: Value, r: Value): Value {
    match (v, r)
    case (TalkerAdv(t), TalkerAdv(u)) => TalkerAdv(Refailed(t, u))
    case (TalkerAdv(t), TalkerFailed(u)) => TalkerFailed(Refailed(t, u))
    case (TalkerFailed(t), TalkerAdv(u)) => TalkerAdv(Refailed(t, u))
    case (TalkerFailed(t), TalkerFailed(u)) => TalkerFailed(Refailed(t, u))
    case _ => v
  }

  /** msrp_merge of a declaration `r` with sub-state `sub` into `e`. A change clears the registrar to force a notify. */
  function Merged(e: Entry, r: Value, sub: Sub, talkerKnown: bool): Entry {
    match (e.value, r)
    case (Listener(_), _) =>
      if e.sub == sub || (e.sub == ASKING_FAILED && !talkerKnown) then e
      else e.(sub := sub, att := e.att.(reg := MT))
    case (Domain(d), Domain(n)) =>
      if d.prio == n.prio && d.vid == n.vid then e
      else e.(value := Domain(d.(neighbour := n.prio, vid := n.vid)), att := e.att.(reg := MT))
    case _ =>
      e.(value := Retyped(e.value, r), att := if KindOf(e.value) == KindOf(r) then e.att else e.att.(reg := MT))
  }

  predicate TalkerKnown(es: seq<Entry>, v: Value) {
    v.Listener? && IndexOf(es, TalkerOf(v.t.streamId)) < |es|
  }

  /* ---------- the dispatcher ---------- */

  /** The list with the entry for `v` brought up to date, and where it stands. */
  function Current(es: seq<Entry>, v: Value, sub: Sub): (r: (seq<Entry>, nat)) {
    var k := IndexOf(es, KeyOf(v));
    if k < |es| then (es[k := Merged(es[k], v, sub, TalkerKnown(es, v))], k)
    else
      var added := Added(es, Entry(v, sub, FRESH));
      (added, IndexOf(added, KeyOf(v)))
  }

  function Kept(es: seq<Entry>): seq<Entry> {
    if es == [] then [] else (if Reclaimable(es[0].att) then [] else [es[0]]) + Kept(es[1..])
  }

  function Removals(es: seq<Entry>): seq<Note> {
    if es == [] then [] else (if Reclaimable(es[0].att) then [Note(es[0], NotifyLv)] else []) + Removals(es[1..])
  }

  /** The machines on an event that sweeps the list, or the entries of one kind. */
  function SweepKind(es: seq<Entry>, ev: Event, kind: Option<Kind>): (r: seq<Entry>)
    ensures |r| == |es|
  {
    seq(|es|, i requires 0 <= i < |es| =>
      if kind.None? || kind.value == KindOf(es[i].value) then es[i].(att := Swept(ev, es[i].att)) else es[i])
  }

  predicate StartsLeave(es: seq<Entry>, ev: Event, kind: Option<Kind>) {
    exists e | e in es :: (kind.None? || kind.value == KindOf(e.value)) && StartsLeaveTimer(e.att.reg, ev)
  }

  function SlotOf(e: Entry, ev: Event): Slot {
    var (msg, optional) := Outgoing(e.att.app, ev);
    Slot(e.value, e.sub, true, optional, PduCode(msg, NextReg(e.att.reg, ev) == IN))
  }

  function Slots(es: seq<Entry>, ev: Event): (r: seq<Slot>)
    ensures |r| == |es|
  {
    seq(|es|, i requires 0 <= i < |es| => SlotOf(es[i], ev))
  }

  function LeaveNotes(es: seq<Entry>): seq<Note> {
    if es == [] then []
    else
      var swept := es[0].(att := Swept(LvTimer, es[0].att));
      (if es[0].att.reg == LV && !Reclaimable(swept.att) then [Note(swept, NotifyLv)] else []) + LeaveNotes(es[1..])
  }

  function AttrStep(s: Station, now: int, ev: Event, v: Value, sub: Sub): Outcome {
    var (es, k) := Current(s.entries, v, sub);
    if k >= |es| then Outcome(s, None, [])
    else
      var e := es[k];
      var b := e.(att := Handled(ev, e.att));
      var s' := s.(join := true, leave := Restart(s.leave, StartsLeaveTimer(e.att.reg, RegEvent(ev, e.att.reg)), now));
      if Reclaimable(b.att) then Outcome(s'.(entries := es[..k] + es[k + 1..]), None, [Note(b, NotifyLv)])
      else
        var kind := HandledNotify(ev, e.att);
        Outcome(s'.(entries := es[k := b]), None, if kind == NotifyNone then [] else [Note(b, kind)])
  }

  /** msrp_event (and msrp_reclaim, for Reclaim) at time `now`. */
  function Step(s: Station, now: int, i: Input): Outcome {
    match i
    case LeaveAllExpiry =>
      Outcome(
        s.(entries := SweepKind(s.entries, TxLA, None), join := false, leaveAll := true,
           leave := Restart(s.leave, StartsLeave(s.entries, TxLA, None), now)),
        TxPdu(s.addr, Slots(s.entries, TxLA), true), [])
    case LeaveAllHeard(kind) =>
      Outcome(
        s.(entries := SweepKind(s.entries, RLA, Some(kind)), join := true, leaveAll := true,
           leave := Restart(s.leave, StartsLeave(s.entries, RLA, Some(kind)), now)),
        None, [])
    case TxOpportunity =>
      Outcome(
        s.(entries := SweepKind(s.entries, Tx, None), join := exists e | e in s.entries :: Rearms(e.att)),
        TxPdu(s.addr, Slots(s.entries, Tx), false), [])
    case LeaveExpiry =>
      var swept := SweepKind(s.entries, LvTimer, None);
      Outcome(s.(entries := Kept(swept), leave := Stopped), None, Removals(swept) + LeaveNotes(s.entries))
    case PeriodicExpiry => Outcome(s, None, [])
    case Attr(ev, v, sub) => if IsAttrEvent(ev) then AttrStep(s, now, ev, v, sub) else Outcome(s, None, [])
    case Reclaim => Outcome(s.(entries := Kept(s.entries)), None, Removals(s.entries))
  }

  /* ---------- reception ---------- */

  /** The event msrp_recv_msg raises; sub-states are read for listeners only. */
  function InputOf(a: Action): Input
    requires a.Hear? ==> a.code < 6 && (a.value.Listener? ==> 0 < a.sub < 4)
  {
    match a
    case HearLeaveAll(k) => LeaveAllHeard(k)
    case Hear(v, c, sub) => Attr(CodeEvent(c), v, if v.Listener? then sub else 0)
  }

  /** Dispatching decoded events one after the other. */
  function Hears(s: Station, now: int, actions: seq<Action>): Station
    requires Dispatchable(actions)
    decreases |actions|
  {
    if actions == [] then s else Hears(Step(s, now, InputOf(actions[0])).next, now, actions[1..])
  }

  /** msrp_recv_msg on a frame. */
  function Receive(s: Station, now: int, f: seq<byte>): Station {
    DecodeDispatchable(f);
    Hears(s, now, Decode(f).actions)
  }
}
