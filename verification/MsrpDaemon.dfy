/**
The MSRP participant of daemons/mrpd/msrp.c as it runs: the database that msrp_event and msrp_reclaim search, extend,
rewrite and sweep in place. Every event is proved to do to the database what Step says of the station it stands for,
and a received frame what Receive says.
*/
module MsrpDaemon {
  import opened Mrp
  import opened MrpPdu
  import opened MrpParticipant
  import opened MsrpCodec
  import opened MsrpRoundTrip
  import opened MsrpStation
  import opened MsrpRuns
  import MsrpBounds
  import MsrpEmit
  import MsrpReceive

  /* ---------- the list while a sweep is on its way ---------- */

  function SweptOne(e: Entry, ev: Event, kind: Option<Kind>): Entry {
    if kind.None? || kind.value == KindOf(e.value) then e.(att := Swept(ev, e.att)) else e
  }

  /** The sweep has done the first `i` entries. */
  function SweptTo(es: seq<Entry>, ev: Event, kind: Option<Kind>, i: nat): (r: seq<Entry>)
    ensures |r| == |es|
    ensures forall j | 0 <= j < |es| :: r[j] == if j < i then SweptOne(es[j], ev, kind) else es[j]
  {
    seq(|es|, j requires 0 <= j < |es| => if j < i then SweptOne(es[j], ev, kind) else es[j])
  }

  lemma SweptNext(es: seq<Entry>, ev: Event, kind: Option<Kind>, i: nat)
    requires i < |es|
    ensures SweptTo(es, ev, kind, i)[i] == es[i]
    ensures SweptTo(es, ev, kind, i + 1) == SweptTo(es, ev, kind, i)[i := SweptOne(es[i], ev, kind)]
  {
    hide SweptOne;
  }

  lemma SweptEnds(es: seq<Entry>, ev: Event, kind: Option<Kind>)
    ensures SweptTo(es, ev, kind, 0) == es
    ensures SweptTo(es, ev, kind, |es|) == SweepKind(es, ev, kind)
  {}

  predicate Starts(e: Entry, ev: Event, kind: Option<Kind>) {
    (kind.None? || kind.value == KindOf(e.value)) && StartsLeaveTimer(e.att.reg, ev)
  }

  lemma StartsNext(es: seq<Entry>, ev: Event, kind: Option<Kind>, i: nat)
    requires i < |es|
    ensures StartsLeave(es[..i + 1], ev, kind) <==> StartsLeave(es[..i], ev, kind) || Starts(es[i], ev, kind)
  {
    assert es[..i + 1] == es[..i] + [es[i]];
  }

  predicate SomeRearms(es: seq<Entry>) {
    exists e | e in es :: Rearms(e.att)
  }

  lemma RearmsNext(es: seq<Entry>, i: nat)
    requires i < |es|
    ensures SomeRearms(es[..i + 1]) <==> SomeRearms(es[..i]) || Rearms(es[i].att)
  {
    hide Rearms;
    assert es[..i + 1] == es[..i] + [es[i]];
  }

  lemma SlotsNext(es: seq<Entry>, ev: Event, i: nat)
    requires i < |es|
    ensures Slots(es[..i + 1], ev) == Slots(es[..i], ev) + [SlotOf(es[i], ev)]
  {
    hide SlotOf;
  }

  lemma WholeList(es: seq<Entry>)
    ensures es[..|es|] == es && es[..0] == []
  {}

  /** A leave timer expiry or a reclaim has got to `rest`: kept `done`, removed and noted the others. */
  ghost predicate Reclaiming(done: seq<Entry>, removed: seq<Note>, rest: seq<Entry>, all: seq<Entry>) {
    Kept(all) == done + Kept(rest) && Removals(all) == removed + Removals(rest)
  }

  lemma ReclaimNext(done: seq<Entry>, removed: seq<Note>, rest: seq<Entry>, all: seq<Entry>)
    requires Reclaiming(done, removed, rest, all) && rest != []
    ensures if Reclaimable(rest[0].att) then Reclaiming(done, removed + [Note(rest[0], NotifyLv)], rest[1..], all)
            else Reclaiming(done + [rest[0]], removed, rest[1..], all)
  {
    hide Reclaimable, Kept, Removals;
    ReclaimUnfolds(rest);
    Associate(removed, [Note(rest[0], NotifyLv)], Removals(rest[1..]));
    Associate(done, [rest[0]], Kept(rest[1..]));
  }

  lemma ReclaimUnfolds(rest: seq<Entry>)
    requires rest != []
    ensures Kept(rest) == if Reclaimable(rest[0].att) then Kept(rest[1..]) else [rest[0]] + Kept(rest[1..])
    ensures Removals(rest) ==
      if Reclaimable(rest[0].att) then [Note(rest[0], NotifyLv)] + Removals(rest[1..]) else Removals(rest[1..])
  {
    hide Reclaimable;
    NothingBefore(Kept(rest[1..]));
    NothingBefore(Removals(rest[1..]));
  }

  lemma NothingBefore<X>(a: seq<X>)
    ensures [] + a == a
  {}

  lemma ReclaimStart(all: seq<Entry>)
    ensures Reclaiming([], [], all, all)
  {}

  lemma ReclaimEnd(done: seq<Entry>, removed: seq<Note>, all: seq<Entry>)
    requires Reclaiming(done, removed, [], all)
    ensures Kept(all) == done && Removals(all) == removed
  {}

  /** What the leave timer makes of one entry. */
  function Expired(e: Entry): Entry {
    e.(att := Swept(LvTimer, e.att))
  }

  /** The note the notification loop will send for an entry that stays. */
  function Pending(e: Entry): seq<Note> {
    if e.att.reg == LV && !Reclaimable(Expired(e).att) then [Note(Expired(e), NotifyLv)] else []
  }

  lemma ExpiredRest(rest: seq<Entry>)
    requires rest != []
    ensures var swept := SweepKind(rest, LvTimer, None);
      swept != [] && swept[0] == Expired(rest[0]) && swept[1..] == SweepKind(rest[1..], LvTimer, None)
    ensures LeaveNotes(rest) == Pending(rest[0]) + LeaveNotes(rest[1..])
  {
    hide Swept, Reclaimable;
  }

  /** The leave timer's walk stands at position `k` of `cur`, with `removed` noted and `pending` to be noted. */
  ghost predicate Expiring(cur: seq<Entry>, k: nat, removed: seq<Note>, pending: seq<Note>, all: seq<Entry>) {
    && k <= |cur| && LeaveNotes(all) == pending + LeaveNotes(cur[k..])
    && Reclaiming(cur[..k], removed, SweepKind(cur[k..], LvTimer, None), SweepKind(all, LvTimer, None))
  }

  lemma ExpiringStart(all: seq<Entry>)
    ensures Expiring(all, 0, [], [], all)
  {
    hide Reclaiming, SweepKind, LeaveNotes;
    ReclaimStart(SweepKind(all, LvTimer, None));
    assert all[..0] == [] && all[0..] == all;
    NothingBefore(LeaveNotes(all));
  }

  lemma ExpiringNext(cur: seq<Entry>, k: nat, removed: seq<Note>, pending: seq<Note>, all: seq<Entry>)
    requires Expiring(cur, k, removed, pending, all) && k < |cur|
    ensures var b, p := Expired(cur[k]), pending + Pending(cur[k]);
      if Reclaimable(b.att) then Expiring(cur[..k] + cur[k + 1..], k, removed + [Note(b, NotifyLv)], p, all)
      else Expiring(cur[k := b], k + 1, removed, p, all)
  {
    hide Reclaiming, Reclaimable, SweepKind, LeaveNotes, Expired, Pending;
    var front, rest, b := cur[..k], cur[k..], Expired(cur[k]);
    ExpiredRest(rest);
    ReclaimNext(front, removed, SweepKind(rest, LvTimer, None), SweepKind(all, LvTimer, None));
    Associate(pending, Pending(cur[k]), LeaveNotes(rest[1..]));
    var cut, moved := cur[..k] + cur[k + 1..], cur[k := b];
    assert cut[..k] == front && cut[k..] == rest[1..];
    assert moved[..k + 1] == front + [b] && moved[k + 1..] == rest[1..];
  }

  lemma ExpiringEnd(cur: seq<Entry>, removed: seq<Note>, pending: seq<Note>, all: seq<Entry>)
    requires Expiring(cur, |cur|, removed, pending, all)
    ensures var swept := SweepKind(all, LvTimer, None);
      cur == Kept(swept) && removed == Removals(swept) && pending == LeaveNotes(all)
  {
    hide Reclaiming;
    assert cur[..|cur|] == cur && cur[|cur|..] == [];
    assert SweepKind([], LvTimer, None) == [] && LeaveNotes([]) == [] && pending + [] == pending;
    ReclaimEnd(cur, removed, SweepKind(all, LvTimer, None));
  }

  /** The notifications about an entry that the machines have moved. */
  function NotesAt(b: Entry, kind: Notify): seq<Note> {
    if Reclaimable(b.att) then [Note(b, NotifyLv)] else if kind == NotifyNone then [] else [Note(b, kind)]
  }

  /** AttrStep in terms of the entry brought up to date. */
  lemma AttrOutcome(s: Station, now: int, ev: Event, v: Value, sub: Sub)
    requires IsAttrEvent(ev)
    ensures var (es, k) := Current(s.entries, v, sub);
      k < |es| &&
      var e := es[k];
      var b := e.(att := Handled(ev, e.att));
      var starts, kind := StartsLeaveTimer(e.att.reg, RegEvent(ev, e.att.reg)), HandledNotify(ev, e.att);
      var gone := Reclaimable(b.att);
      Step(s, now, Attr(ev, v, sub)) ==
        Outcome(s.(join := true, leave := Restart(s.leave, starts, now),
                   entries := if gone then es[..k] + es[k + 1..] else es[k := b]),
                None, NotesAt(b, kind))
  {
    hide Current, Handled, HandledNotify, StartsLeaveTimer, RegEvent, Reclaimable, Shows, KeyOf;
    CurrentComes(s.entries, v, sub);
  }

  /** What the event transmits is written inside the frame buffer. */
  predicate KeepsInside(s: Station, i: Input) {
    match i
    case LeaveAllExpiry => MsrpBounds.TxInside(Slots(s.entries, TxLA), true)
    case TxOpportunity => MsrpBounds.TxInside(Slots(s.entries, Tx), false)
    case _ => true
  }

  /** The notifications that dispatching raises. */
  function HeardNotes(s: Station, now: int, actions: seq<Action>): seq<Note>
    requires Dispatchable(actions)
    decreases |actions|
  {
    if actions == [] then []
    else
      var o := Step(s, now, InputOf(actions[0]));
      o.notes + HeardNotes(o.next, now, actions[1..])
  }

  lemma NotesNext(s: Station, now: int, actions: seq<Action>)
    requires Dispatchable(actions) && actions != []
    ensures var o := Step(s, now, InputOf(actions[0]));
      HeardNotes(s, now, actions) == o.notes + HeardNotes(o.next, now, actions[1..])
  {
    hide Step;
  }

  lemma NotesEnd(s: Station, now: int)
    ensures HeardNotes(s, now, []) == []
  {}

  class Database {
    const addr: seq<byte>
    var entries: seq<Entry>
    var joinTimer: bool
    var leaveTimer: LeaveTimer
    var leaveAllTimer: bool
    /** Frames sent and notifications given to clients, oldest first. */
    var sent: seq<seq<byte>>
    var notes: seq<Note>
    /** No emitter has written behind the frame buffer yet. */
    var intact: bool

    constructor (addr: seq<byte>)
      requires |addr| == 6
      ensures Valid() && Abstract() == Init(addr) && notes == [] && sent == [] && intact
    {
      this.addr := addr;
      entries, notes, sent, intact := [], [], [], true;
      joinTimer, leaveTimer, leaveAllTimer := false, Stopped, true;
    }

    /** No two entries share a key. */
    ghost predicate Valid()
      reads this
    {
      |addr| == 6 && Unique(entries)
    }

    function Abstract(): Station
      reads this
    {
      Station(addr, entries, joinTimer, leaveTimer, leaveAllTimer)
    }

    /** What an event leaves behind is what Step says: the state, the frame sent, the notifications raised. */
    twostate predicate Did(now: int, i: Input)
      reads this
    {
      var o := Step(old(Abstract()), now, i);
      && Abstract() == o.next && notes == old(notes) + o.notes
      && sent == old(sent) + (if o.frame.Some? then [o.frame.value] else [])
      && (intact <==> old(intact) && KeepsInside(old(Abstract()), i))
    }

    /** msrp_lookup. */
    method Lookup(key: Key) returns (k: nat)
      ensures k == IndexOf(entries, key)
    {
      k := 0;
      while k < |entries|
        invariant k <= |entries|
        invariant forall i | 0 <= i < k :: KeyOf(entries[i].value) != key
      {
        if KeyOf(entries[k].value) == key {
          break;
        }
        k := k + 1;
      }
    }

    /** Change an entry and empty its registrar, so that the machines raise a notification. */
    method ForceNotify(k: nat, e: Entry)
      requires k < |entries|
      modifies this`entries
      ensures entries == old(entries)[k := e.(att := old(entries[k]).att.(reg := MT))]
    {
      entries := entries[k := e.(att := entries[k].att.(reg := MT))];
    }

    /** msrp_merge. */
    method Merge(v: Value, sub: Sub)
      requires IndexOf(entries, KeyOf(v)) < |entries|
      modifies this`entries
      ensures var k := IndexOf(old(entries), KeyOf(v));
        entries == old(entries)[k := Merged(old(entries)[k], v, sub, TalkerKnown(old(entries), v))]
    {
      var k := Lookup(KeyOf(v));
      var e := entries[k];
      match e.value {
        case TalkerAdv(_) => MergeTalker(k, v);
        case TalkerFailed(_) => MergeTalker(k, v);
        case Listener(t) =>
          if e.sub != sub {
            var missing := false;
            if e.sub == ASKING_FAILED {
              var j := Lookup(TalkerOf(t.streamId));
              missing := j == |entries|;
            }
            if !missing {
              ForceNotify(k, e.(sub := sub));
            }
          }
        case Domain(d) =>
          if d.prio != v.d.prio || d.vid != v.d.vid {
            ForceNotify(k, e.(value := Domain(d.(neighbour := v.d.prio, vid := v.d.vid))));
          }
      }
    }

    /** TalkerFailed <- TalkerAdvertise and TalkerAdvertise <- TalkerFailed */
    method MergeTalker(k: nat, v: Value)
      requires k < |entries| && KeyOf(entries[k].value) == KeyOf(v) && KeyOf(v).TalkerOf?
      modifies this`entries
      ensures forall sub: Sub, known: bool :: entries == old(entries)[k := Merged(old(entries)[k], v, sub, known)]
    {
      var e := entries[k];
      var t := Refailed(e.value.t, v.t);
      entries := entries[k := e.(value := if e.value.TalkerAdv? then TalkerAdv(t) else TalkerFailed(t))];
      if KindOf(e.value) != KindOf(v) {
        ForceNotify(k, entries[k].(value := if v.TalkerAdv? then TalkerAdv(t) else TalkerFailed(t)));
      }
    }

    /** msrp_add: find the first run of the new entry's type and its place there, or else the tail. */
    method Add(e: Entry) returns (k: nat)
      modifies this`entries
      ensures entries == Added(old(entries), e) && k == Order.PlaceFrom(Shapes(old(entries)), 0, Shape(e.value))
    {
      hide Shape;
      ghost var s := Shapes(entries);
      var r := Shape(e.value);
      k := 0;
      while k < |entries|
        invariant k <= |entries| && Order.PlaceFrom(s, k, r) == Order.PlaceFrom(s, 0, r)
      {
        var a := Shape(entries[k].value);
        if a.kind == r.kind {
          if a.rank >= r.rank {
            break;
          }
          if k + 1 == |entries| || Shape(entries[k + 1].value).kind != r.kind {
            k := k + 1;
            break;
          }
        }
        k := k + 1;
      }
      entries := entries[..k] + [e] + entries[k..];
    }

    /** Find the entry and fold the declaration in, or add a new one. */
    method LookupAndMerge(v: Value, sub: Sub) returns (k: nat)
      requires Unique(entries)
      modifies this`entries
      ensures (entries, k) == Current(old(entries), v, sub)
      ensures Unique(entries) && k < |entries| && KeyOf(entries[k].value) == KeyOf(v)
    {
      hide Added, Merged, Unique, KeyOf;
      CurrentComes(entries, v, sub);
      k := Lookup(KeyOf(v));
      if k < |entries| {
        Merge(v, sub);
      } else {
        ghost var es := entries;
        k := Add(Entry(v, sub, FRESH));
        AddedAt(es, Entry(v, sub, FRESH));
      }
      CurrentUnique(old(entries), v, sub);
    }

    /** The two machines on the entry at `k`, which is reclaimed or notified then. */
    method HandleAt(k: nat, now: int, ev: Event)
      requires k < |entries|
      modifies this`entries, this`leaveTimer, this`notes
      ensures var e := old(entries[k]);
        var b := e.(att := Handled(ev, e.att));
        && leaveTimer == Restart(old(leaveTimer), StartsLeaveTimer(e.att.reg, RegEvent(ev, e.att.reg)), now)
        && entries == (if Reclaimable(b.att) then old(entries[..k] + entries[k + 1..]) else old(entries)[k := b])
        && notes == old(notes) + NotesAt(b, HandledNotify(ev, e.att))
    {
      hide Handled, HandledNotify, StartsLeaveTimer, RegEvent, Reclaimable;
      var e := entries[k];
      var b := e.(att := Handled(ev, e.att));
      if StartsLeaveTimer(e.att.reg, RegEvent(ev, e.att.reg)) {
        leaveTimer := Due(now + LEAVE_TIME);
      }
      entries := entries[k := b];
      if Reclaimable(b.att) {
        entries := entries[..k] + entries[k + 1..];
        notes := notes + [Note(b, NotifyLv)];
      } else if HandledNotify(ev, e.att) != NotifyNone {
        notes := notes + [Note(b, HandledNotify(ev, e.att))];
      }
    }

    /** The attribute events of msrp_event. */
    method OnAttr(now: int, ev: Event, v: Value, sub: Sub)
      requires Valid() && IsAttrEvent(ev)
      modifies this
      ensures Valid() && Did(now, Attr(ev, v, sub))
    {
      hide Current, Handled, HandledNotify, Unique, StartsLeaveTimer, RegEvent, Reclaimable, Shows, KeyOf, Step,
           IsAttrEvent, NotesAt;
      StepUnique(Abstract(), now, Attr(ev, v, sub));
      AttrOutcome(Abstract(), now, ev, v, sub);
      joinTimer := true;
      var k := LookupAndMerge(v, sub);
      HandleAt(k, now, ev);
    }

    /* ---------- sweeps ---------- */

    /** Both machines of every entry, or of every entry of one kind; the registrars start the leave timer. */
    method MoveAll(ev: Event, kind: Option<Kind>, now: int) returns (slots: seq<Slot>)
      modifies this`entries, this`leaveTimer
      ensures entries == SweepKind(old(entries), ev, kind) && slots == Slots(old(entries), ev)
      ensures leaveTimer == Restart(old(leaveTimer), StartsLeave(old(entries), ev, kind), now)
    {
      hide SweptOne, SlotOf, Starts, StartsLeave, SweptTo, Slots, SweepKind;
      ghost var all := entries;
      slots := [];
      SweptEnds(all, ev, kind);
      WholeList(all);
      NothingSwept(ev, kind);
      for i := 0 to |entries|
        invariant |entries| == |all| && entries == SweptTo(all, ev, kind, i) && slots == Slots(all[..i], ev)
        invariant leaveTimer == Restart(old(leaveTimer), StartsLeave(all[..i], ev, kind), now)
      {
        SweptNext(all, ev, kind, i);
        SlotsNext(all, ev, i);
        StartsNext(all, ev, kind, i);
        var e := entries[i];
        slots := slots + [SlotOf(e, ev)];
        entries := entries[i := SweptOne(e, ev, kind)];
        if Starts(e, ev, kind) {
          leaveTimer := Due(now + LEAVE_TIME);
        }
      }
    }

    static lemma NothingSwept(ev: Event, kind: Option<Kind>)
      ensures Slots([], ev) == [] && !StartsLeave([], ev, kind) && !SomeRearms([])
    {}

    /** The applicants of every entry; whether one wants another opportunity. */
    method MoveApplicants() returns (slots: seq<Slot>, again: bool)
      modifies this`entries
      ensures entries == SweepKind(old(entries), Tx, None) && slots == Slots(old(entries), Tx)
      ensures again == SomeRearms(old(entries))
    {
      hide SweptOne, SlotOf, Rearms, SweptTo, Slots, SweepKind, SomeRearms;
      ghost var all := entries;
      slots, again := [], false;
      SweptEnds(all, Tx, None);
      WholeList(all);
      NothingSwept(Tx, None);
      for i := 0 to |entries|
        invariant |entries| == |all| && entries == SweptTo(all, Tx, None, i) && slots == Slots(all[..i], Tx)
        invariant again == SomeRearms(all[..i])
      {
        SweptNext(all, Tx, None, i);
        SlotsNext(all, Tx, i);
        RearmsNext(all, i);
        var e := entries[i];
        slots := slots + [SlotOf(e, Tx)];
        entries := entries[i := SweptOne(e, Tx, None)];
        again := again || Rearms(e.att);
      }
    }

    /** msrp_txpdu. */
    method Send(slots: seq<Slot>, lva: bool)
      requires |addr| == 6
      modifies this`sent, this`intact
      ensures var frame := TxPdu(addr, slots, lva);
        sent == old(sent) + if frame.Some? then [frame.value] else []
      ensures intact <==> old(intact) && MsrpBounds.TxInside(slots, lva)
    {
      hide TxPdu;
      var frame, _, inside := MsrpEmit.SendPdu(addr, slots, lva, lva);
      intact := intact && inside;
      if frame.Some? {
        sent := sent + [frame.value];
      }
    }

    method OnLeaveAllExpiry(now: int)
      requires Valid()
      modifies this
      ensures Valid() && Did(now, LeaveAllExpiry)
    {
      hide Unique, TxPdu, SweepKind, Slots, StartsLeave;
      StepUnique(Abstract(), now, LeaveAllExpiry);
      joinTimer := false;
      var slots := MoveAll(TxLA, None, now);
      leaveAllTimer := true;
      Send(slots, true);
    }

    method OnLeaveAllHeard(now: int, kind: Kind)
      requires Valid()
      modifies this
      ensures Valid() && Did(now, LeaveAllHeard(kind))
    {
      hide Unique, SweepKind, Slots, StartsLeave;
      StepUnique(Abstract(), now, LeaveAllHeard(kind));
      joinTimer := true;
      var _ := MoveAll(RLA, Some(kind), now);
      leaveAllTimer := true;
    }

    method OnTxOpportunity(now: int)
      requires Valid()
      modifies this
      ensures Valid() && Did(now, TxOpportunity)
    {
      hide Unique, TxPdu, SweepKind, Slots, Rearms;
      StepUnique(Abstract(), now, TxOpportunity);
      joinTimer := false;
      var slots, again := MoveApplicants();
      Send(slots, false);
      if again {
        joinTimer := true;
      }
    }

    /** msrp_reclaim: msrp_conditional_reclaim down the list. */
    method OnReclaim(now: int)
      requires Valid()
      modifies this
      ensures Valid() && Did(now, Reclaim)
    {
      hide Unique, Kept, Removals, Reclaiming, Reclaimable;
      StepUnique(Abstract(), now, Reclaim);
      ghost var all := entries;
      ghost var removed := [];
      var k := 0;
      ReclaimStart(all);
      assert entries[..0] == [] && entries[0..] == all;
      while k < |entries|
        invariant k <= |entries| && Reclaiming(entries[..k], removed, entries[k..], all)
        invariant notes == old(notes) + removed
        invariant Abstract() == old(Abstract()).(entries := entries) && sent == old(sent) && intact == old(intact)
        decreases |entries| - k
      {
        var e := entries[k];
        ReclaimNext(entries[..k], removed, entries[k..], all);
        assert entries[k..][1..] == entries[k + 1..];
        if Reclaimable(e.att) {
          ghost var before := entries;
          entries := entries[..k] + entries[k + 1..];
          assert entries[..k] == before[..k] && entries[k..] == before[k + 1..];
          notes := notes + [Note(e, NotifyLv)];
          removed := removed + [Note(e, NotifyLv)];
        } else {
          assert entries[..k] + [e] == entries[..k + 1];
          k := k + 1;
        }
      }
      assert entries[..k] == entries && entries[k..] == [];
      ReclaimEnd(entries, removed, all);
    }

    /** The leave timer's registrar step for entry `k`, which is reclaimed if nobody needs it then. */
    method ExpireOne(k: nat) returns (pending: seq<Note>, next: nat)
      requires k < |entries|
      modifies this`entries, this`notes
      ensures pending == Pending(old(entries[k]))
      ensures var b := Expired(old(entries[k]));
        if Reclaimable(b.att)
        then next == k && entries == old(entries[..k] + entries[k + 1..]) && notes == old(notes) + [Note(b, NotifyLv)]
        else next == k + 1 && entries == old(entries)[k := b] && notes == old(notes)
    {
      hide Reclaimable;
      var e := entries[k];
      pending, next := Pending(e), k;
      entries := entries[k := Expired(e)];
      if Reclaimable(entries[k].att) {
        notes := notes + [Note(entries[k], NotifyLv)];
        entries := entries[..k] + entries[k + 1..];
      } else {
        next := k + 1;
      }
    }

    /** Its walk down the list, and the notes the notification loop will send. */
    method ExpireAll() returns (pending: seq<Note>)
      modifies this`entries, this`notes
      ensures var swept := SweepKind(old(entries), LvTimer, None);
        entries == Kept(swept) && notes == old(notes) + Removals(swept) && pending == LeaveNotes(old(entries))
    {
      hide Expiring, Reclaimable, SweepKind, Kept, Removals, LeaveNotes, Expired, Pending;
      ghost var all, before, removed: seq<Note> := entries, notes, [];
      pending := [];
      var k: nat := 0;
      ExpiringStart(all);
      assert notes + [] == notes;
      while k < |entries|
        invariant k <= |entries| && Expiring(entries, k, removed, pending, all) && notes == before + removed
        decreases |entries| - k
      {
        var e := entries[k];
        ExpiringNext(entries, k, removed, pending, all);
        var more, next := ExpireOne(k);
        pending := pending + more;
        if next == k {
          Associate(before, removed, [Note(Expired(e), NotifyLv)]);
          removed := removed + [Note(Expired(e), NotifyLv)];
        }
        k := next;
      }
      ExpiringEnd(entries, removed, pending, all);
    }

    /**
    The leave timer: every registrar, reclaiming on the way; then the notification loop for the entries that stay.
    */
    method OnLeaveExpiry(now: int)
      requires Valid()
      modifies this
      ensures Valid() && Did(now, LeaveExpiry)
    {
      hide Unique, Kept, Removals, SweepKind, LeaveNotes;
      StepUnique(Abstract(), now, LeaveExpiry);
      leaveTimer := Stopped;
      ghost var swept := SweepKind(entries, LvTimer, None);
      Associate(notes, Removals(swept), LeaveNotes(entries));
      var pending := ExpireAll();
      notes := notes + pending;
    }

    /** msrp_event, and msrp_reclaim for Reclaim. */
    method Event(now: int, input: Input)
      requires Valid()
      modifies this
      ensures Valid() && Did(now, input)
    {
      match input {
        case LeaveAllExpiry => OnLeaveAllExpiry(now);
        case LeaveAllHeard(kind) => OnLeaveAllHeard(now, kind);
        case TxOpportunity => OnTxOpportunity(now);
        case LeaveExpiry => OnLeaveExpiry(now);
        case PeriodicExpiry =>
        case Reclaim => OnReclaim(now);
        case Attr(ev, v, sub) =>
          if IsAttrEvent(ev) {
            OnAttr(now, ev, v, sub);
          }
      }
    }

    /** msrp_recv_msg: the frame's events, one after the other. */
    method Recv(now: int, f: seq<byte>) returns (ok: bool)
      requires Valid()
      modifies this
      ensures Valid() && Abstract() == Receive(old(Abstract()), now, f) && sent == old(sent) && ok == Decode(f).ok
      ensures Dispatchable(Decode(f).actions) && intact == old(intact)
      ensures notes == old(notes) + HeardNotes(old(Abstract()), now, Decode(f).actions)
    {
      hide Unique, Decode, Step, HeardNotes;
      DecodeDispatchable(f);
      var acts;
      ok, acts := MsrpReceive.RecvMsg(f);
      ghost var all := HeardNotes(Abstract(), now, acts);
      assert acts[0..] == acts;
      for i := 0 to |acts|
        invariant Valid() && sent == old(sent) && intact == old(intact) && Dispatchable(acts[i..])
        invariant Hears(Abstract(), now, acts[i..]) == Receive(old(Abstract()), now, f)
        invariant notes + HeardNotes(Abstract(), now, acts[i..]) == old(notes) + all
      {
        ghost var s, before := Abstract(), notes;
        assert acts[i..][0] == acts[i] && acts[i..][1..] == acts[i + 1..] && acts[i] in acts[i..];
        HearingSendsNothing(s, now, InputOf(acts[i]));
        Event(now, InputOf(acts[i]));
        NotesNext(s, now, acts[i..]);
        Associate(before, Step(s, now, InputOf(acts[i])).notes, HeardNotes(Abstract(), now, acts[i + 1..]));
      }
      NotesEnd(Abstract(), now);
      assert acts[|acts|..] == [] && notes + [] == notes;
    }

    static lemma HearingSendsNothing(s: Station, now: int, i: Input)
      requires i.LeaveAllHeard? || i.Attr?
      ensures Step(s, now, i).frame == None
    {
      hide Current, Handled, HandledNotify;
    }
  }
}
