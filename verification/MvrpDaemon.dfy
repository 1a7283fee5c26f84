/**
The MVRP participant of daemons/mrpd/mvrp.c as it runs: the database that mvrp_event and mvrp_reclaim update in place.
Every event is proved to do to the database what Step says of the station it stands for.
*/
module MvrpDaemon {
  import opened Mrp
  import opened MrpPdu
  import opened MvrpCodec
  import opened MrpParticipant
  import opened MvrpStation
  import opened MvrpPointwise
  import opened MvrpAttributes
  import opened MvrpEmit

  /* ---------- what the state machines do to attributes ---------- */

  /** Both machines on `ev`; a machine that rejects the event leaves its half alone. */
  function Moved(ev: Event, a: Attribute): Attribute {
    var app := ApplicantFsm(P2P, a.applicant, ev, a.registrar.state == IN);
    var reg := RegistrarFsm(a.registrar, ev);
    Attribute(a.vid,
              if app.Some? then app.value else a.applicant,
              if reg.Some? then reg.value else a.registrar)
  }

  function MovedTo(ev: Event, s: seq<Attribute>, k: nat): (t: seq<Attribute>)
    ensures |t| == |s|
    ensures forall i | 0 <= i < |s| :: t[i] == if i < k then Moved(ev, s[i]) else s[i]
  {
    seq(|s|, i requires 0 <= i < |s| => if i < k then Moved(ev, s[i]) else s[i])
  }

  function MovedAll(ev: Event, s: seq<Attribute>): (t: seq<Attribute>)
    ensures |t| == |s|
    ensures forall i | 0 <= i < |s| :: t[i] == Moved(ev, s[i])
  {
    MovedTo(ev, s, |s|)
  }

  lemma MovedEnds(ev: Event, s: seq<Attribute>)
    ensures MovedTo(ev, s, 0) == s && MovedTo(ev, s, |s|) == MovedAll(ev, s)
  {
    hide Moved;
  }

  lemma MovedNext(ev: Event, s: seq<Attribute>, k: nat)
    requires k < |s|
    ensures MovedTo(ev, s, k)[k] == s[k] && MovedTo(ev, s, k + 1) == MovedTo(ev, s, k)[k := Moved(ev, s[k])]
  {
    hide Moved;
  }

  lemma MovedSweeps(ev: Event, s: seq<Attribute>)
    requires ev in {Tx, TxLA, RLA, Periodic, LvTimer}
    ensures AbsAll(MovedAll(ev, s)) == Sweep(AbsAll(s), ev)
  {}

  lemma MovedSlots(ev: Event, s: seq<Attribute>)
    requires ev == Tx || ev == TxLA
    ensures AttributeSlots(MovedAll(ev, s)) == Slots(AbsAll(s), ev)
  {}

  lemma ClearedAbs(s: seq<Attribute>, t: seq<Attribute>)
    requires OnlyTxCleared(s, t)
    ensures AbsAll(t) == AbsAll(s)
    ensures Silent(s) ==> Silent(t)
    ensures SortedAttrs(s) ==> SortedAttrs(t)
  {
    forall i | 0 <= i < |s| ensures Abs(t[i]) == Abs(s[i]) && t[i].registrar == s[i].registrar {}
    forall i, j | 0 <= i < j < |t| && SortedAttrs(s) ensures t[i].vid < t[j].vid {
      assert s[i].vid < s[j].vid;
    }
  }

  /** No notification is pending. */
  ghost predicate Silent(s: seq<Attribute>) {
    forall i | 0 <= i < |s| :: s[i].registrar.notify == NotifyNone
  }

  ghost predicate StartedBefore(s: seq<Attribute>, ev: Event, k: nat) {
    exists i | 0 <= i < |s| :: i < k && StartsLeaveTimer(s[i].registrar.state, ev)
  }

  lemma NoneStarted(s: seq<Attribute>, ev: Event)
    ensures !StartedBefore(s, ev, 0)
  {}

  lemma StartedNext(s: seq<Attribute>, ev: Event, k: nat)
    requires k < |s|
    ensures StartedBefore(s, ev, k + 1) <==> StartedBefore(s, ev, k) || StartsLeaveTimer(s[k].registrar.state, ev)
  {
    hide StartsLeaveTimer;
    if StartedBefore(s, ev, k + 1) {
      var i :| 0 <= i < |s| && i < k + 1 && StartsLeaveTimer(s[i].registrar.state, ev);
      assert i < k || i == k;
    }
  }

  lemma StartedIsSweep(s: seq<Attribute>, ev: Event)
    ensures StartedBefore(s, ev, |s|) <==> SweepStartsLeave(AbsAll(s), ev)
  {
    if StartedBefore(s, ev, |s|) {
      var i :| 0 <= i < |s| && StartsLeaveTimer(s[i].registrar.state, ev);
      assert AbsAll(s)[i] in AbsAll(s);
    }
  }

  ghost predicate RearmedBefore(s: seq<Attribute>, k: nat) {
    exists i | 0 <= i < |s| :: i < k && Rearms(Abs(s[i]).att)
  }

  lemma RearmedIsSweep(s: seq<Attribute>)
    ensures RearmedBefore(s, |s|) <==> exists e | e in AbsAll(s) :: Rearms(e.att)
  {
    if RearmedBefore(s, |s|) {
      var i :| 0 <= i < |s| && Rearms(Abs(s[i]).att);
      assert AbsAll(s)[i] in AbsAll(s);
    }
  }

  /** Sweeps of the sending and receiving side raise no notification. */
  lemma MovedStaysSilent(ev: Event, s: seq<Attribute>)
    requires ev in {Tx, TxLA, RLA, Periodic} && SortedAttrs(s) && Silent(s)
    ensures SortedAttrs(MovedAll(ev, s)) && Silent(MovedAll(ev, s))
  {
    var t := MovedAll(ev, s);
    forall i, j | 0 <= i < j < |t| ensures t[i].vid < t[j].vid {
      assert s[i].vid < s[j].vid;
    }
  }

  function FrameSeq(o: Option<seq<byte>>): seq<seq<byte>> {
    if o.Some? then [o.value] else []
  }

  /* ---------- notifications ---------- */

  function NotesOf(s: seq<Attribute>): seq<Note> {
    if s == [] then []
    else (if s[0].registrar.notify != NotifyNone then [Note(s[0].vid, s[0].registrar.notify)] else []) + NotesOf(s[1..])
  }

  lemma {:induction false} NotesOfAppend(s: seq<Attribute>, a: Attribute)
    ensures NotesOf(s + [a])
         == NotesOf(s) + if a.registrar.notify != NotifyNone then [Note(a.vid, a.registrar.notify)] else []
  {
    if s == [] {
      assert s + [a] == [a] && [a][1..] == [];
    } else {
      NotesOfAppend(s[1..], a);
      assert (s + [a])[1..] == s[1..] + [a];
    }
  }

  lemma {:induction false} SilentNotes(s: seq<Attribute>)
    requires Silent(s)
    ensures NotesOf(s) == []
  {
    if s != [] {
      SilentNotes(s[1..]);
    }
  }

  lemma SilentQuieted(s: seq<Attribute>)
    requires Silent(s)
    ensures Quieted(s, |s|) == s && NotesOf(s) == []
  {
    SilentNotes(s);
    forall i | 0 <= i < |s| ensures Quieted(s, |s|)[i] == s[i] {
      assert s[i].registrar == s[i].registrar.(notify := NotifyNone);
    }
  }

  function Quieted(s: seq<Attribute>, k: nat): (t: seq<Attribute>)
    ensures |t| == |s|
    ensures forall i | 0 <= i < |s| ::
              t[i] == if i < k then s[i].(registrar := s[i].registrar.(notify := NotifyNone)) else s[i]
  {
    seq(|s|, i requires 0 <= i < |s| =>
      if i < k then s[i].(registrar := s[i].registrar.(notify := NotifyNone)) else s[i])
  }

  lemma QuietedAbs(s: seq<Attribute>)
    ensures AbsAll(Quieted(s, |s|)) == AbsAll(s) && Silent(Quieted(s, |s|))
    ensures SortedAttrs(s) ==> SortedAttrs(Quieted(s, |s|))
  {
    var t := Quieted(s, |s|);
    forall i | 0 <= i < |s| ensures Abs(t[i]) == Abs(s[i]) {}
    forall i, j | 0 <= i < j < |t| && SortedAttrs(s) ensures t[i].vid < t[j].vid {
      assert s[i].vid < s[j].vid;
    }
  }

  /* ---------- reclaiming ---------- */

  lemma AbsTail(s: seq<Attribute>)
    requires s != []
    ensures AbsAll(s)[1..] == AbsAll(s[1..])
  {}

  lemma {:induction false} KeptAbs(s: seq<Attribute>)
    ensures AbsAll(KeptAttrs(s)) == Kept(AbsAll(s))
  {
    if s != [] {
      KeptAbs(s[1..]);
      AbsTail(s);
      if !Reclaimable(Abs(s[0]).att) {
        AbsTail([s[0]] + KeptAttrs(s[1..]));
      }
    }
  }

  lemma KeptSilent(s: seq<Attribute>)
    requires Silent(s)
    ensures Silent(KeptAttrs(s))
  {
    forall a | a in KeptAttrs(s) ensures a.registrar.notify == NotifyNone {
      KeptIn(s, a);
    }
  }

  lemma NotesOfCons(a: Attribute, s: seq<Attribute>)
    ensures NotesOf([a] + s)
         == (if a.registrar.notify != NotifyNone then [Note(a.vid, a.registrar.notify)] else []) + NotesOf(s)
  {
    assert ([a] + s)[1..] == s;
  }

  lemma {:induction false} LeaveNotesPending(s: seq<Attribute>)
    ensures NotesOf(KeptAttrs(MovedAll(LvTimer, s))) == LeaveNotes(AbsAll(s))
  {
    if s != [] {
      LeaveNotesPending(s[1..]);
      var a, rest := Moved(LvTimer, s[0]), KeptAttrs(MovedAll(LvTimer, s[1..]));
      assert MovedAll(LvTimer, s)[1..] == MovedAll(LvTimer, s[1..]);
      assert KeptAttrs(MovedAll(LvTimer, s)) == if Reclaimable(Abs(a).att) then rest else [a] + rest;
      AbsTail(s);
      ExpiryNotifies(s[0]);
      hide KeptAttrs, MovedAll, Moved, Reclaimable, Swept;
      NotesOfCons(a, rest);
    }
  }

  /** The leave timer notifies of exactly the attributes that were in LV. */
  lemma ExpiryNotifies(a: Attribute)
    ensures var b := Moved(LvTimer, a);
      && Abs(b).att == Swept(LvTimer, Abs(a).att) && b.vid == a.vid
      && b.registrar.notify == if a.registrar.state == LV then NotifyLv else NotifyNone
  {}

  /** What the leave timer's walk leaves in the list, and what is then pending. */
  lemma LeaveExpiryFacts(t: seq<Attribute>, s: seq<Attribute>)
    requires SortedAttrs(s) && Silent(s) && t == KeptAttrs(MovedAll(LvTimer, s))
    ensures AbsAll(MovedAll(LvTimer, s)) == Sweep(AbsAll(s), LvTimer)
    ensures AbsAll(Quieted(t, |t|)) == Kept(Sweep(AbsAll(s), LvTimer)) && NotesOf(t) == LeaveNotes(AbsAll(s))
    ensures SortedAttrs(Quieted(t, |t|)) && Silent(Quieted(t, |t|))
  {
    var moved := MovedAll(LvTimer, s);
    MovedSweeps(LvTimer, s);
    KeptAbs(moved);
    forall i, j | 0 <= i < j < |moved| ensures moved[i].vid < moved[j].vid {
      assert s[i].vid < s[j].vid;
    }
    KeptSortedAttrs(moved);
    QuietedAbs(t);
    LeaveNotesPending(s);
  }

  /* ---------- one attribute's event ---------- */

  lemma WithAttrInOrder(s: seq<Attribute>, v: u16)
    requires SortedAttrs(s) && Silent(s)
    ensures var w := WithAttr(s, v); var i := IndexOf(w, v);
      SortedAttrs(w) && Silent(w) && i < |w| && Abs(w[i]) == Entry(v, Current(AbsAll(s), v))
  {
    FindIndex(s, v);
    if IndexOf(s, v) == |s| {
      InsertedSorted(s, Alloc(v));
    }
  }

  lemma AbsSplice(s: seq<Attribute>, k: nat, a: Attribute)
    requires k <= |s|
    ensures AbsAll(s[..k] + [a] + s[k..]) == AbsAll(s)[..k] + [Abs(a)] + AbsAll(s)[k..]
  {}

  lemma AbsCut(s: seq<Attribute>, k: nat)
    requires k < |s|
    ensures AbsAll(s[..k] + s[k + 1..]) == AbsAll(s)[..k] + AbsAll(s)[k + 1..]
  {}

  lemma SpliceUndone(s: seq<Attribute>, p: nat, a: Attribute, b: Attribute)
    requires p <= |s|
    ensures var w := s[..p] + [a] + s[p..];
      w[p := b] == s[..p] + [b] + s[p..] && w[..p] + w[p + 1..] == s
  {}

  lemma AttrAbsent(s: seq<Attribute>, v: u16, b: Attribute)
    requires SortedAttrs(s) && b.vid == v && IndexOf(s, v) == |s|
    ensures var w := Inserted(s, Alloc(v)); var p := IndexOf(w, v);
      p < |w| && AbsAll(w[p := b]) == Put(AbsAll(s), v, Abs(b).att) && AbsAll(w[..p] + w[p + 1..]) == Drop(AbsAll(s), v)
  {
    var w, p := Inserted(s, Alloc(v)), Place(s, v);
    InsertedSorted(s, Alloc(v));
    PlaceSeparates(s, v);
    PutAt(AbsAll(s), p, v, Abs(b).att);
    SpliceUndone(s, p, Alloc(v), b);
    AbsSplice(s, p, b);
  }

  lemma AttrPresent(s: seq<Attribute>, v: u16, b: Attribute)
    requires SortedAttrs(s) && b.vid == v && IndexOf(s, v) < |s|
    ensures var i := IndexOf(s, v);
      AbsAll(s[i := b]) == Put(AbsAll(s), v, Abs(b).att) && AbsAll(s[..i] + s[i + 1..]) == Drop(AbsAll(s), v)
  {
    var i := IndexOf(s, v);
    PutOver(AbsAll(s), i, Abs(b).att);
    DropAt(AbsAll(s), i);
    AbsCut(s, i);
  }

  lemma {:induction false} OneNote(w: seq<Attribute>, i: nat, b: Attribute)
    requires Silent(w) && i < |w|
    ensures NotesOf(w[i := b]) == if b.registrar.notify != NotifyNone then [Note(b.vid, b.registrar.notify)] else []
  {
    if i == 0 {
      SilentNotes(w[1..]);
    } else {
      OneNote(w[1..], i - 1, b);
      assert w[i := b][1..] == w[1..][i - 1 := b];
    }
  }

  /** Both machines on an attribute event, with the source's remapping of local requests. */
  function HandledAttr(ev: Event, a: Attribute): Attribute {
    var app := ApplicantFsm(P2P, a.applicant, ev, a.registrar.state == IN);
    var reg := RegistrarFsm(a.registrar, RegEvent(ev, a.registrar.state));
    Attribute(a.vid,
              if app.Some? then app.value else a.applicant,
              if reg.None? then a.registrar
              else if ev == New then reg.value.(notify := NotifyNew)
              else reg.value)
  }

  lemma HandledAbs(ev: Event, a: Attribute)
    requires IsAttrEvent(ev)
    ensures Abs(HandledAttr(ev, a)) == Entry(a.vid, Handled(ev, Abs(a).att))
    ensures HandledAttr(ev, a).registrar.notify == HandledNotify(ev, Abs(a).att)
  {}

  /** What is left when the attribute at position `i` has become `b`, and the notifications that raises. */
  function AfterAttr(w: seq<Attribute>, i: nat, b: Attribute): (seq<Entry>, seq<Note>)
    requires i < |w|
  {
    if Reclaimable(Abs(b).att) then (AbsAll(w[..i] + w[i + 1..]), [Note(b.vid, NotifyLv)])
    else (AbsAll(w[i := b]), if b.registrar.notify == NotifyNone then [] else [Note(b.vid, b.registrar.notify)])
  }

  predicate AttrStartsLeave(a: Attribute, ev: Event) {
    StartsLeaveTimer(a.registrar.state, RegEvent(ev, a.registrar.state))
  }

  /** The same on the station's entries. */
  function EntriesAfter(es: seq<Entry>, v: u16, a: Att): seq<Entry> {
    if Reclaimable(a) then Drop(es, v) else Put(es, v, a)
  }

  lemma AfterAttrEntries(s: seq<Attribute>, v: u16, b: Attribute)
    requires SortedAttrs(s) && Silent(s) && b.vid == v
    ensures var w := WithAttr(s, v); var i := IndexOf(w, v);
      && i < |w| && AfterAttr(w, i, b).0 == EntriesAfter(AbsAll(s), v, Abs(b).att)
  {
    if IndexOf(s, v) < |s| {
      AttrPresent(s, v, b);
    } else {
      AttrAbsent(s, v, b);
    }
  }

  lemma TxOutcome(st: Station, now: int)
    ensures Step(st, now, TxOpportunity) ==
      Outcome(st.(entries := Sweep(st.entries, Tx), join := exists e | e in st.entries :: Rearms(e.att)),
              MvrpCodec.TxPdu(st.addr, Slots(st.entries, Tx), false), [])
  {}

  /** AttrStep in terms of the attribute list. */
  lemma AttrOutcome(st: Station, s: seq<Attribute>, now: int, ev: Event, v: u16, i: nat)
    requires SortedAttrs(s) && Silent(s) && IsAttrEvent(ev) && st.entries == AbsAll(s)
    requires i == IndexOf(WithAttr(s, v), v)
    ensures var w := WithAttr(s, v);
      && i < |w| && SortedAttrs(w) && Silent(w)
      && var (es, notes) := AfterAttr(w, i, HandledAttr(ev, w[i]));
         var leave := Restart(st.leave, AttrStartsLeave(w[i], ev), now);
         Step(st, now, Attr(ev, v)) == Outcome(st.(join := true, leave := leave, entries := es), None, notes)
  {
    hide SortedAttrs, Silent, WithAttr, IndexOf, HandledAttr, Handled, HandledNotify, RegEvent, Reclaimable,
         StartsLeaveTimer, AbsAll, Current, Put, Drop, IsAttrEvent;
    WithAttrInOrder(s, v);
    var a := WithAttr(s, v)[i];
    HandledAbs(ev, a);
    AfterAttrEntries(s, v, HandledAttr(ev, a));
  }

  class Database {
    const addr: seq<byte>
    var attribs: seq<Attribute>
    var joinTimer: bool
    /** The one leave timer of the database; its deadline stands for the armed timer. */
    var leaveTimer: LeaveTimer
    var leaveAllTimer: bool
    /** The LeaveAll machine: active between its timer and the transmission. */
    var lvaActive: bool
    var lvaTx: bool
    /** send_empty_LeaveAll_flag. */
    var sendEmpty: bool
    /** Frames handed to the socket, and notifications sent to clients, oldest first. */
    var sent: seq<seq<byte>>
    var notes: seq<Note>

    constructor (addr: seq<byte>)
      requires |addr| == 6
      ensures Valid() && Abstract() == Station(addr, [], false, Stopped, true) && sent == [] && notes == []
    {
      this.addr := addr;
      attribs, sent, notes := [], [], [];
      joinTimer, leaveTimer, leaveAllTimer := false, Stopped, true;
      lvaActive, lvaTx, sendEmpty := false, false, false;
    }

    /** Between events: the list is sorted, no notification is pending, and no LeaveAll is half sent. */
    ghost predicate Valid()
      reads this
    {
      |addr| == 6 && SortedAttrs(attribs) && Silent(attribs) && !lvaActive && !lvaTx && !sendEmpty
    }

    function Abstract(): Station
      reads this
    {
      Station(addr, AbsAll(attribs), joinTimer, leaveTimer, leaveAllTimer)
    }

    /* ---------- the machines, on one attribute ---------- */

    method RunApplicant(i: nat, ev: Event)
      requires i < |attribs|
      modifies this`attribs
      ensures var app := ApplicantFsm(P2P, old(attribs[i]).applicant, ev, old(attribs[i]).registrar.state == IN);
              attribs == old(attribs)[i := old(attribs[i]).(applicant :=
                                             if app.Some? then app.value else old(attribs[i]).applicant)]
    {
      var app := ApplicantFsm(P2P, attribs[i].applicant, ev, attribs[i].registrar.state == IN);
      if app.Some? {
        attribs := attribs[i := attribs[i].(applicant := app.value)];
      }
    }

    method RunRegistrar(i: nat, ev: Event, now: int)
      requires i < |attribs|
      modifies this`attribs, this`leaveTimer
      ensures var reg := RegistrarFsm(old(attribs[i]).registrar, ev);
              attribs == old(attribs)[i := old(attribs[i]).(registrar :=
                                             if reg.Some? then reg.value else old(attribs[i]).registrar)]
      ensures leaveTimer == Restart(old(leaveTimer), StartsLeaveTimer(old(attribs[i]).registrar.state, ev), now)
    {
      var reg := RegistrarFsm(attribs[i].registrar, ev);
      if StartsLeaveTimer(attribs[i].registrar.state, ev) {
        leaveTimer := Due(now + LEAVE_TIME);
      }
      if reg.Some? {
        attribs := attribs[i := attribs[i].(registrar := reg.value)];
      }
    }

    /* ---------- sweeps of the whole list ---------- */

    /** Both machines over the whole list (TxLA and RLA). */
    method SweepBoth(ev: Event, now: int)
      modifies this`attribs, this`leaveTimer
      ensures attribs == MovedAll(ev, old(attribs))
      ensures leaveTimer == Restart(old(leaveTimer), StartedBefore(old(attribs), ev, |old(attribs)|), now)
    {
      hide MovedTo, Moved, StartedBefore, StartsLeaveTimer, ApplicantFsm, RegistrarFsm;
      var i := 0;
      ghost var s := attribs;
      MovedEnds(ev, s);
      NoneStarted(s, ev);
      while i < |attribs|
        invariant 0 <= i <= |attribs| == |s|
        invariant attribs == MovedTo(ev, s, i)
        invariant leaveTimer == Restart(old(leaveTimer), StartedBefore(s, ev, i), now)
      {
        MovedNext(ev, s, i);
        StartedNext(s, ev, i);
        MoveOne(i, ev, now);
        i := i + 1;
      }
    }

    /** Both machines of one attribute. */
    method MoveOne(i: nat, ev: Event, now: int)
      requires i < |attribs|
      modifies this`attribs, this`leaveTimer
      ensures attribs == old(attribs)[i := Moved(ev, old(attribs[i]))]
      ensures leaveTimer == Restart(old(leaveTimer), StartsLeaveTimer(old(attribs[i]).registrar.state, ev), now)
    {
      hide ApplicantFsm, RegistrarFsm, StartsLeaveTimer;
      RunApplicant(i, ev);
      RunRegistrar(i, ev, now);
    }

    /** The applicants alone (Tx and Periodic); says whether one changed into a state that wants to transmit again. */
    method SweepApplicants(ev: Event) returns (count: nat)
      requires RegistrarRejects(ev)
      modifies this`attribs
      ensures attribs == MovedAll(ev, old(attribs))
      ensures ev == Tx ==> (count > 0 <==> RearmedBefore(old(attribs), |old(attribs)|))
    {
      var i := 0;
      count := 0;
      while i < |attribs|
        invariant 0 <= i <= |attribs| == |old(attribs)|
        invariant attribs == MovedTo(ev, old(attribs), i)
        invariant ev == Tx ==> (count > 0 <==> RearmedBefore(old(attribs), i))
      {
        RunApplicant(i, ev);
        if TransitionImpliesTx(attribs[i].applicant) {
          count := count + 1;
        }
        i := i + 1;
      }
    }

    /** "generate local notifications" */
    method GenerateNotifications()
      modifies this`attribs, this`notes
      ensures attribs == Quieted(old(attribs), |old(attribs)|) && notes == old(notes) + NotesOf(old(attribs))
    {
      var i := 0;
      ghost var s := attribs;
      assert s[..0] == [];
      while i < |attribs|
        invariant 0 <= i <= |attribs| == |s|
        invariant attribs == Quieted(s, i) && notes == old(notes) + NotesOf(s[..i])
      {
        assert s[..i + 1] == s[..i] + [s[i]];
        NotesOfAppend(s[..i], s[i]);
        if attribs[i].registrar.notify != NotifyNone {
          notes := notes + [Note(attribs[i].vid, attribs[i].registrar.notify)];
          attribs := attribs[i := attribs[i].(registrar := attribs[i].registrar.(notify := NotifyNone))];
        }
        i := i + 1;
      }
      assert s[..|s|] == s;
    }

    /* ---------- the same in terms of the station ---------- */

    /** The list is sorted and no notification is pending. */
    ghost predicate InOrder()
      reads this`attribs
    {
      SortedAttrs(attribs) && Silent(attribs)
    }

    function Entries(): seq<Entry>
      reads this`attribs
    {
      AbsAll(attribs)
    }

    method MoveAll(ev: Event, now: int)
      requires InOrder() && ev in {TxLA, RLA}
      modifies this`attribs, this`leaveTimer
      ensures InOrder() && Entries() == Sweep(old(Entries()), ev)
      ensures leaveTimer == Restart(old(leaveTimer), SweepStartsLeave(old(Entries()), ev), now)
      ensures ev == TxLA ==> AttributeSlots(attribs) == Slots(old(Entries()), ev)
    {
      SweepBoth(ev, now);
      MovedSweeps(ev, old(attribs));
      MovedStaysSilent(ev, old(attribs));
      StartedIsSweep(old(attribs), ev);
      if ev == TxLA {
        MovedSlots(ev, old(attribs));
      }
    }

    method MoveApplicants(ev: Event) returns (count: nat)
      requires InOrder() && ev in {Tx, Periodic}
      modifies this`attribs
      ensures InOrder() && Entries() == Sweep(old(Entries()), ev)
      ensures ev == Tx ==> AttributeSlots(attribs) == Slots(old(Entries()), ev)
      ensures ev == Tx ==> (count > 0 <==> exists e | e in old(Entries()) :: Rearms(e.att))
    {
      count := SweepApplicants(ev);
      MovedSweeps(ev, old(attribs));
      MovedStaysSilent(ev, old(attribs));
      RearmedIsSweep(old(attribs));
      if ev == Tx {
        MovedSlots(ev, old(attribs));
      }
    }

    method TxPdu()
      requires |addr| == 6 && lvaTx == sendEmpty && InOrder()
      modifies this`attribs, this`lvaTx, this`sent
      ensures !lvaTx && InOrder() && Entries() == old(Entries())
      ensures sent == old(sent) + FrameSeq(MvrpCodec.TxPdu(addr, AttributeSlots(old(attribs)), old(lvaTx)))
    {
      var frame, t := SendPdu(addr, attribs, lvaTx, sendEmpty);
      ClearedAbs(attribs, t);
      lvaTx := false;
      attribs := t;
      if frame.Some? {
        sent := sent + [frame.value];
      }
    }

    /** The notification loop finds nothing to do. */
    method NothingToNotify()
      requires InOrder()
      modifies this`attribs, this`notes
      ensures attribs == old(attribs) && notes == old(notes)
    {
      SilentQuieted(attribs);
      GenerateNotifications();
    }

    /* ---------- the events ---------- */

    method LeaveAllFsmTimer()
      modifies this`lvaActive, this`lvaTx, this`leaveAllTimer
      ensures lvaActive && !lvaTx && leaveAllTimer
    {
      lvaActive, lvaTx, leaveAllTimer := true, false, true;
    }

    method LeaveAllFsmTx()
      modifies this`lvaActive, this`lvaTx
      ensures lvaTx == old(lvaActive) && !lvaActive
    {
      lvaTx := lvaActive;
      lvaActive := false;
    }

    method LeaveAllFsmHeard()
      modifies this`lvaActive, this`lvaTx, this`leaveAllTimer
      ensures !lvaActive && !lvaTx && leaveAllTimer
    {
      lvaActive, lvaTx, leaveAllTimer := false, false, true;
    }

    /** The LeaveAll machine fires and its message goes out. */
    method SendLeaveAll()
      requires |addr| == 6 && InOrder()
      modifies this`attribs, this`lvaActive, this`lvaTx, this`sendEmpty, this`leaveAllTimer, this`sent
      ensures leaveAllTimer && !lvaActive && !lvaTx && !sendEmpty && InOrder() && Entries() == old(Entries())
      ensures sent == old(sent) + FrameSeq(MvrpCodec.TxPdu(addr, AttributeSlots(old(attribs)), true))
    {
      LeaveAllFsmTimer();
      sendEmpty := true;
      LeaveAllFsmTx();
      TxPdu();
      sendEmpty := false;
    }

    /** What an event leaves behind is what Step says: the state, the frame sent, the notifications raised. */
    twostate predicate Did(now: int, i: Input)
      reads this
    {
      var o := Step(old(Abstract()), now, i);
      Abstract() == o.next && sent == old(sent) + FrameSeq(o.frame) && notes == old(notes) + o.notes
    }

    method OnLeaveAllExpiry(now: int)
      requires Valid()
      modifies this
      ensures Valid() && Did(now, LeaveAllExpiry)
    {
      hide Sweep, Slots, SweepStartsLeave, SortedAttrs, Silent, AbsAll, AttrStep, Kept, Removals, LeaveNotes, Rearms,
           AttributeSlots, MvrpCodec.TxPdu;
      leaveAllTimer := false;
      joinTimer := false;
      MoveAll(TxLA, now);
      SendLeaveAll();
      NothingToNotify();
    }

    method OnLeaveAllHeard(now: int)
      requires Valid()
      modifies this
      ensures Valid() && Did(now, LeaveAllHeard)
    {
      hide Sweep, Slots, SweepStartsLeave, SortedAttrs, Silent, AbsAll, AttrStep, Kept, Removals, LeaveNotes, Rearms,
           AttributeSlots, MvrpCodec.TxPdu;
      joinTimer := true;
      MoveAll(RLA, now);
      LeaveAllFsmHeard();
      NothingToNotify();
    }

    method OnTxOpportunity(now: int)
      requires Valid()
      modifies this
      ensures Valid() && Did(now, TxOpportunity)
    {
      hide Step, Sweep, Slots, Rearms, SortedAttrs, Silent, AbsAll, AttributeSlots, MvrpCodec.TxPdu;
      TxOutcome(Abstract(), now);
      joinTimer := false;
      var count := MoveApplicants(Tx);
      TxPdu();
      if count > 0 {
        joinTimer := true;
      }
      NothingToNotify();
    }

    method OnPeriodic(now: int)
      requires Valid()
      modifies this
      ensures Valid() && Did(now, PeriodicExpiry)
    {
      if attribs != [] {
        joinTimer := true;
      }
      var _ := MoveApplicants(Periodic);
      NothingToNotify();
    }

    /* ---------- reclaiming ---------- */

    /** mvrp_conditional_reclaim at position `i`; the walk goes on at `next`. */
    method ConditionalReclaim(i: nat) returns (next: nat)
      requires i < |attribs|
      modifies this`attribs, this`notes
      ensures var a := old(attribs[i]);
              if Reclaimable(Abs(a).att)
              then && next == i && attribs == old(attribs[..i] + attribs[i + 1..])
                   && notes == old(notes) + [Note(a.vid, NotifyLv)]
              else next == i + 1 && attribs == old(attribs) && notes == old(notes)
    {
      var a := attribs[i];
      if a.registrar.state == MT && a.applicant.state in {VO, AO, QO} {
        notes := notes + [Note(a.vid, NotifyLv)];
        attribs := attribs[..i] + attribs[i + 1..];
        next := i;
      } else {
        next := i + 1;
      }
    }

    /** One step of a reclaiming walk. */
    method ReclaimAt(i: nat, expire: bool, now: int) returns (next: nat)
      requires i < |attribs|
      modifies this`attribs, this`notes, this`leaveTimer
      ensures var a := if expire then Moved(LvTimer, old(attribs[i])) else old(attribs[i]);
              var c := old(attribs)[i := a];
              if Reclaimable(Abs(a).att)
              then next == i && attribs == c[..i] + c[i + 1..] && notes == old(notes) + [Note(a.vid, NotifyLv)]
              else next == i + 1 && attribs == c && notes == old(notes)
      ensures leaveTimer == old(leaveTimer)
    {
      if expire {
        RunRegistrar(i, LvTimer, now);
      }
      next := ConditionalReclaim(i);
    }

    /** The walk of the leave timer (`expire`) and of mvrp_reclaim: move the registrar, then reclaim. */
    method ReclaimAll(expire: bool, now: int)
      modifies this`attribs, this`notes, this`leaveTimer
      ensures var moved := if expire then MovedAll(LvTimer, old(attribs)) else old(attribs);
              attribs == KeptAttrs(moved) && notes == old(notes) + Removals(AbsAll(moved))
      ensures leaveTimer == old(leaveTimer)
    {
      hide Reclaiming, KeptAttrs, Removals, Reclaimable, Moved, AbsAll;
      ghost var s := attribs;
      ghost var moved := if expire then MovedAll(LvTimer, s) else s;
      ghost var k: nat := 0;
      var i: nat := 0;
      ReclaimStart(moved, s);
      while i < |attribs|
        invariant i <= |attribs|
        invariant k <= |s| == |moved| && Reclaiming(moved, s, k, i, attribs)
        invariant notes == old(notes) + Removals(AbsAll(moved[..k]))
        invariant leaveTimer == old(leaveTimer)
      {
        ReclaimStep(moved, s, k, i, attribs);
        Associate(old(notes), Removals(AbsAll(moved[..k])), [Note(moved[k].vid, NotifyLv)]);
        Associate(old(notes), Removals(AbsAll(moved[..k])), []);
        i := ReclaimAt(i, expire, now);
        k := k + 1;
      }
      ReclaimEnd(moved, s, k, i, attribs);
    }

    method OnReclaim(now: int)
      requires Valid()
      modifies this
      ensures Valid() && Did(now, Input.Reclaim)
    {
      ReclaimAll(false, now);
      KeptAbs(old(attribs));
      KeptSortedAttrs(old(attribs));
      KeptSilent(old(attribs));
    }

    method ExpireRegistrars(now: int)
      requires InOrder()
      modifies this`attribs, this`notes, this`leaveTimer
      ensures InOrder() && leaveTimer == old(leaveTimer)
      ensures var swept := Sweep(old(Entries()), LvTimer);
              Entries() == Kept(swept) && notes == old(notes) + (Removals(swept) + LeaveNotes(old(Entries())))
    {
      ReclaimAll(true, now);
      ghost var t := attribs;
      LeaveExpiryFacts(t, old(attribs));
      GenerateNotifications();
      Associate(old(notes), Removals(Sweep(old(Entries()), LvTimer)), NotesOf(t));
    }

    method OnLeaveExpiry(now: int)
      requires Valid()
      modifies this
      ensures Valid() && Did(now, LeaveExpiry)
    {
      leaveTimer := Stopped;
      ExpireRegistrars(now);
    }

    /* ---------- events for one attribute ---------- */

    /** mvrp_lookup. */
    method Lookup(v: u16) returns (i: nat)
      ensures i == IndexOf(attribs, v)
    {
      i := 0;
      while i < |attribs|
        invariant i <= |attribs|
        invariant forall j | 0 <= j < i :: attribs[j].vid != v
      {
        if attribs[i].vid == v {
          break;
        }
        i := i + 1;
      }
    }

    /** mvrp_add: walk up to the first VID that is not smaller, or to the last, and stitch in before or behind it. */
    method Add(a: Attribute) returns (i: nat)
      modifies this`attribs
      ensures attribs == Inserted(old(attribs), a) && i == Place(old(attribs), a.vid)
    {
      hide Place, Inserted;
      i := 0;
      if attribs != [] {
        while attribs[i].vid < a.vid && i + 1 < |attribs|
          invariant i < |attribs|
          invariant forall j | 0 <= j < i :: attribs[j].vid < a.vid
          decreases |attribs| - i
        {
          i := i + 1;
        }
        if attribs[i].vid < a.vid {
          i := i + 1;
        }
      }
      InsertedIs(attribs, a, i);
      attribs := attribs[..i] + [a] + attribs[i..];
    }

    /** Find the attribute or put a new one in its place; either way it stands at `i` of a list in order. */
    method LookupOrAdd(v: u16) returns (i: nat)
      requires InOrder()
      modifies this`attribs
      ensures attribs == WithAttr(old(attribs), v) && i == IndexOf(attribs, v)
      ensures InOrder() && i < |attribs| && attribs[i].vid == v
    {
      hide Place, Inserted, IndexOf, Abs;
      WithAttrInOrder(attribs, v);
      i := Lookup(v);
      if i == |attribs| {
        InsertedSorted(attribs, Alloc(v));
        i := Add(Alloc(v));
      }
    }

    /** Both machines, with local requests remapped into registrar events. */
    method Handle(i: nat, ev: Event, now: int)
      requires i < |attribs| && IsAttrEvent(ev)
      modifies this`attribs, this`leaveTimer
      ensures attribs == old(attribs)[i := HandledAttr(ev, old(attribs[i]))]
      ensures leaveTimer == Restart(old(leaveTimer), AttrStartsLeave(old(attribs[i]), ev), now)
    {
      RunApplicant(i, ev);
      if ev == New {
        RunRegistrar(i, Begin, now);
        attribs := attribs[i := attribs[i].(registrar := attribs[i].registrar.(notify := NotifyNew))];
      } else if ev == Join {
        RunRegistrar(i, if attribs[i].registrar.state == IN then RJoinIn else RJoinMt, now);
      } else {
        RunRegistrar(i, if ev == Leave then RLv else ev, now);
      }
    }

    method HandleAndReclaim(i: nat, ev: Event, now: int)
      requires i < |attribs| && IsAttrEvent(ev) && InOrder()
      modifies this`attribs, this`leaveTimer, this`notes
      ensures InOrder()
      ensures var (es, raised) := AfterAttr(old(attribs), i, HandledAttr(ev, old(attribs[i])));
              Entries() == es && notes == old(notes) + raised
      ensures leaveTimer == Restart(old(leaveTimer), AttrStartsLeave(old(attribs[i]), ev), now)
    {
      ghost var s, a := attribs, attribs[i];
      ghost var b := HandledAttr(ev, a);
      SortedUpdate(s, i, b);
      Handle(i, ev, now);
      var _ := ConditionalReclaim(i);
      ghost var t := attribs;
      if Reclaimable(Abs(b).att) {
        assert t == s[..i] + s[i + 1..];
        SilentQuieted(t);
      } else {
        OneNote(s, i, b);
        QuietedAbs(t);
      }
      GenerateNotifications();
    }

    method OnAttr(ev: Event, v: u16, now: int)
      requires Valid() && IsAttrEvent(ev)
      modifies this
      ensures Valid() && Did(now, Attr(ev, v))
    {
      hide Step, AfterAttr, HandledAttr, WithAttr, IndexOf, AttrStartsLeave, SortedAttrs, Silent, AbsAll;
      joinTimer := true;
      var i := LookupOrAdd(v);
      AttrOutcome(old(Abstract()), old(attribs), now, ev, v, i);
      HandleAndReclaim(i, ev, now);
    }

    /** mvrp_event and, for Reclaim, mvrp_reclaim. */
    method Event(now: int, input: Input)
      requires Valid()
      modifies this
      ensures Valid() && Did(now, input)
    {
      match input {
        case LeaveAllExpiry => OnLeaveAllExpiry(now);
        case LeaveAllHeard => OnLeaveAllHeard(now);
        case TxOpportunity => OnTxOpportunity(now);
        case LeaveExpiry => OnLeaveExpiry(now);
        case PeriodicExpiry => OnPeriodic(now);
        case Reclaim => OnReclaim(now);
        case Attr(ev, v) =>
          if IsAttrEvent(ev) {
            OnAttr(ev, v, now);
          } else {
            NothingToNotify();
          }
      }
    }
  }
}
