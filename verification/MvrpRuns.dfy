/** What holds over every run of one MVRP participant: declarations, the join timer and the shared leave timer. */
module MvrpRuns {
  import opened Mrp
  import opened MrpPdu
  import opened MvrpCodec
  import opened MrpParticipant
  import opened MvrpStation
  import opened MvrpPointwise

  /* ---------- declarations ---------- */

  predicate IsRequest(i: Input, v: u16) {
    i.Attr? && i.vid == v && i.ev in {New, Join, Leave}
  }

  /** The last local request for `v`. */
  function LastRequest(trace: seq<TimedInput>, v: u16): Option<Event> {
    if trace == [] then None
    else
      var i := trace[|trace| - 1].input;
      if IsRequest(i, v) then Some(i.ev) else LastRequest(trace[..|trace| - 1], v)
  }

  predicate Declared(o: Option<Att>) {
    o.Some? && Declares(o.value.app)
  }

  lemma LocalDeclared(o: Option<Att>, i: Input, v: u16)
    ensures Declared(LocalStep(o, i, v)) <==> if IsRequest(i, v) then i.ev != Leave else Declared(o)
  {
    hide NextReg, RegEvent;
    if i.Attr? && IsAttrEvent(i.ev) {
      HandledDeclares(i.ev, if o.Some? then o.value else FRESH);
    } else if o.Some? {
      SweptDeclares(o.value);
    }
  }

  lemma HandledDeclares(ev: Event, a: Att)
    requires IsAttrEvent(ev)
    ensures Declares(Handled(ev, a).app) <==> if ev in {New, Join, Leave} then ev != Leave else Declares(a.app)
  {
    hide NextReg, RegEvent;
  }

  lemma SweptDeclares(a: Att)
    ensures forall ev | ev in {TxLA, RLA, Tx, LvTimer, Periodic} :: Declares(Swept(ev, a).app) <==> Declares(a.app)
  {
    hide NextReg;
  }

  /** A VID is declared exactly if the last local request for it was New or Join. */
  lemma {:induction false} DeclarationsPersist(addr: seq<byte>, trace: seq<TimedInput>, v: u16)
    ensures Declared(Find(Run(Init(addr), trace).entries, v)) <==> LastRequest(trace, v) in {Some(New), Some(Join)}
  {
    RunIsPointwise(Init(addr), trace, v);
    LocalDeclarationsPersist(trace, v);
  }

  lemma {:induction false} LocalDeclarationsPersist(trace: seq<TimedInput>, v: u16)
    ensures Declared(LocalRun(None, trace, v)) <==> LastRequest(trace, v) in {Some(New), Some(Join)}
  {
    if trace != [] {
      LocalDeclarationsPersist(trace[..|trace| - 1], v);
      LocalDeclared(LocalRun(None, trace[..|trace| - 1], v), trace[|trace| - 1].input, v);
    }
  }

  /** The inputs that can end a leaving: the two transmissions, and a renewed local declaration. */
  predicate EndsLeaving(i: Input, v: u16) {
    i.TxOpportunity? || i.LeaveAllExpiry? || (IsRequest(i, v) && i.ev != Leave)
  }

  predicate Leaving(o: Option<Att>) {
    o.Some? && o.value.app == LA
  }

  lemma LocalLeaving(o: Option<Att>, i: Input, v: u16)
    requires Leaving(o) && !EndsLeaving(i, v)
    ensures Leaving(LocalStep(o, i, v))
  {}

  /** A withdrawn VID is never reclaimed before a transmission takes it out of LA (or it is declared again). */
  lemma {:induction false} LeavingLasts(s: Station, trace: seq<TimedInput>, v: u16)
    requires Sorted(s.entries) && Leaving(Find(s.entries, v))
    requires forall k | 0 <= k < |trace| :: !EndsLeaving(trace[k].input, v)
    ensures Leaving(Find(Run(s, trace).entries, v))
  {
    if trace != [] {
      var before, last := trace[..|trace| - 1], trace[|trace| - 1];
      LeavingLasts(s, before, v);
      RunIsPointwise(s, before, v);
      StepIsPointwise(Run(s, before), last.now, last.input, v);
      LocalLeaving(Find(Run(s, before).entries, v), last.input, v);
    }
  }

  /* ---------- the join timer ---------- */

  ghost predicate Owed(s: Station) {
    exists e | e in s.entries :: Owes(e.att.app)
  }

  lemma SweepMember(es: seq<Entry>, ev: Event, e: Entry)
    ensures e in es ==> Entry(e.vid, Swept(ev, e.att)) in Sweep(es, ev)
    ensures e in Sweep(es, ev) ==> exists x | x in es :: e == Entry(x.vid, Swept(ev, x.att))
  {
    if e in es {
      var k :| 0 <= k < |es| && es[k] == e;
      assert Sweep(es, ev)[k] == Entry(e.vid, Swept(ev, e.att));
    }
    if e in Sweep(es, ev) {
      var k :| 0 <= k < |es| && Sweep(es, ev)[k] == e;
      assert es[k] in es;
    }
  }

  /** After a transmit opportunity the join timer runs exactly if something is still owed. */
  lemma TransmitRearmsExactly(s: Station, now: int)
    ensures var s' := Step(s, now, TxOpportunity).next;
      s'.join <==> Owed(s')
  {
    hide TxPdu, Slots, Sweep;
    var s' := Step(s, now, TxOpportunity).next;
    if s'.join {
      var e :| e in s.entries && Rearms(e.att);
      SweepMember(s.entries, Tx, e);
    }
    if Owed(s') {
      var e :| e in s'.entries && Owes(e.att.app);
      SweepMember(s.entries, Tx, e);
    }
  }

  lemma KeptIn(es: seq<Entry>, e: Entry)
    ensures e in Kept(es) ==> e in es
  {
    if es != [] {
      KeptIn(es[1..], e);
    }
  }

  lemma NoneOwedBySweep(es: seq<Entry>, ev: Event, e: Entry)
    requires ev == LvTimer && e in Kept(Sweep(es, ev))
    ensures exists x | x in es :: x.att.app == e.att.app
  {
    KeptIn(Sweep(es, ev), e);
    SweepMember(es, ev, e);
  }

  /** Every event but the LeaveAll expiry keeps "something owed implies the join timer is running". */
  lemma JoinTimerCoversOwed(s: Station, now: int, i: Input)
    requires i != LeaveAllExpiry
    requires Owed(s) ==> s.join
    ensures var s' := Step(s, now, i).next; Owed(s') ==> s'.join
  {
    var s' := Step(s, now, i).next;
    match i
    case TxOpportunity => TransmitRearmsExactly(s, now);
    case LeaveExpiry =>
      if Owed(s') {
        var e :| e in s'.entries && Owes(e.att.app);
        NoneOwedBySweep(s.entries, LvTimer, e);
      }
    case Reclaim =>
      if Owed(s') {
        var e :| e in s'.entries && Owes(e.att.app);
        KeptIn(s.entries, e);
      }
    case _ =>
  }

  lemma {:induction false} NoLostTransmitOpportunity(addr: seq<byte>, trace: seq<TimedInput>)
    requires forall k | 0 <= k < |trace| :: trace[k].input != LeaveAllExpiry
    ensures var s := Run(Init(addr), trace); Owed(s) ==> s.join
  {
    if trace != [] {
      var before, last := trace[..|trace| - 1], trace[|trace| - 1];
      NoLostTransmitOpportunity(addr, before);
      JoinTimerCoversOwed(Run(Init(addr), before), last.now, last.input);
    }
  }

  /**
  The LeaveAll expiry stops the join timer and does not start it again, so it keeps the property exactly when no
  attribute is in one of the six states it moves to a state that owes a message.
  */
  lemma LeaveAllExpiryLosesOpportunity(s: Station, now: int)
    ensures var s' := Step(s, now, LeaveAllExpiry).next;
      (Owed(s') ==> s'.join) <==> forall e | e in s.entries :: e.att.app !in {VO, VP, VN, LA, AO, QO}
  {
    var s' := Step(s, now, LeaveAllExpiry).next;
    if Owed(s') {
      var e :| e in s'.entries && Owes(e.att.app);
      SweepMember(s.entries, TxLA, e);
    }
    forall e | e in s.entries && e.att.app in {VO, VP, VN, LA, AO, QO} ensures Owed(s') {
      SweepMember(s.entries, TxLA, e);
      assert Owes(Swept(TxLA, e.att).app);
    }
  }

  function Rank(s: AppState): nat {
    match s
    case VN => 3
    case VP | AN => 2
    case AA | AP | LA | LO => 1
    case _ => 0
  }

  function RankSum(es: seq<Entry>): nat {
    if es == [] then 0 else Rank(es[0].att.app) + RankSum(es[1..])
  }

  ghost predicate RanksBelow(es: seq<Entry>, k: int) {
    forall e | e in es :: Rank(e.att.app) <= k
  }

  lemma {:induction false} TransmitLowersRankSum(es: seq<Entry>)
    ensures RankSum(Sweep(es, Tx)) <= RankSum(es)
    ensures (exists e | e in es :: Owes(e.att.app)) ==> RankSum(Sweep(es, Tx)) < RankSum(es)
  {
    if es != [] {
      TransmitLowersRankSum(es[1..]);
      SweepTail(es, Tx);
      assert forall e | e in es :: e == es[0] || e in es[1..];
    }
  }

  lemma TransmitLowersEveryRank(s: Station, now: int, k: nat)
    requires RanksBelow(s.entries, k)
    ensures RanksBelow(Step(s, now, TxOpportunity).next.entries, if k > 0 then k - 1 else 0)
    ensures k <= 1 ==> !Step(s, now, TxOpportunity).next.join
  {
    hide TxPdu, Slots, Sweep;
    var s' := Step(s, now, TxOpportunity).next;
    forall e | e in s'.entries ensures Rank(e.att.app) <= if k > 0 then k - 1 else 0 {
      SweepMember(s.entries, Tx, e);
    }
    TransmitRearmsExactly(s, now);
  }

  /** Whatever the list, the third of three consecutive transmit opportunities is never rearmed. */
  lemma ThreeTransmitsSettle(s: Station, t1: int, t2: int, t3: int)
    ensures var i1, i2, i3 := TimedInput(t1, TxOpportunity), TimedInput(t2, TxOpportunity),
      TimedInput(t3, TxOpportunity);
      var s3 := Run(s, [i1, i2, i3]);
      !s3.join && !Owed(s3)
  {
    var i1, i2, i3 := TimedInput(t1, TxOpportunity), TimedInput(t2, TxOpportunity), TimedInput(t3, TxOpportunity);
    var s1 := Step(s, t1, TxOpportunity).next;
    var s2 := Step(s1, t2, TxOpportunity).next;
    TransmitLowersEveryRank(s, t1, 3);
    TransmitLowersEveryRank(s1, t2, 2);
    TransmitLowersEveryRank(s2, t3, 1);
    TransmitRearmsExactly(s2, t3);
    assert [i1, i2, i3][..2] == [i1, i2] && [i1, i2][..1] == [i1];
    assert Run(s, [i1]) == s1 && Run(s, [i1, i2]) == s2;
  }

  /* ---------- the one leave timer ---------- */

  predicate InLv(o: Option<Att>) {
    o.Some? && o.value.reg == LV
  }

  /** When the registrar of `v` entered LV, if it is there now. */
  function LvSince(s: Station, trace: seq<TimedInput>, v: u16): Option<int> {
    if trace == [] then None
    else
      var before, last := trace[..|trace| - 1], trace[|trace| - 1];
      if !InLv(Find(Run(s, trace).entries, v)) then None
      else if InLv(Find(Run(s, before).entries, v)) then LvSince(s, before, v)
      else Some(last.now)
  }

  /** Time does not run backwards, and the leave timer expires only when it runs and its deadline has come. */
  ghost predicate Timely(s: Station, trace: seq<TimedInput>) {
    && (forall j, k | 0 <= j < k < |trace| :: trace[j].now <= trace[k].now)
    && (forall k | 0 <= k < |trace| && trace[k].input == LeaveExpiry ::
          var leave := Run(s, trace[..k]).leave; leave.Due? && leave.deadline <= trace[k].now)
  }

  /** Entering LV restarts the timer; nothing but the expiry stops it, and then no registrar is in LV. */
  lemma StepLeaveTimer(s: Station, now: int, i: Input, v: u16)
    requires Sorted(s.entries)
    requires InLv(Find(Step(s, now, i).next.entries, v))
    ensures var s' := Step(s, now, i).next;
      if InLv(Find(s.entries, v)) then s'.leave == s.leave || s'.leave == Due(now + LEAVE_TIME)
      else s'.leave == Due(now + LEAVE_TIME)
  {
    hide TxPdu, Slots, Sweep, Kept, Removals, LeaveNotes, Find, Put, Drop, NextApp, Rearms, Sorted;
    var o := Find(s.entries, v);
    StepIsPointwise(s, now, i, v);
    FindSome(s.entries, v);
    if !InLv(o) && (i.LeaveAllExpiry? || i.LeaveAllHeard?) {
      assert o.value.reg == IN;
      assert SweepStartsLeave(s.entries, TxLA) && SweepStartsLeave(s.entries, RLA);
    }
  }

  /** In every run, a registrar in LV means the shared leave timer is running. */
  lemma {:induction false} LeaveTimerRuns(addr: seq<byte>, trace: seq<TimedInput>, v: u16)
    requires InLv(Find(Run(Init(addr), trace).entries, v))
    ensures Run(Init(addr), trace).leave.Due?
  {
    if trace != [] {
      var before, last := trace[..|trace| - 1], trace[|trace| - 1];
      var s := Run(Init(addr), before);
      RunIsPointwise(Init(addr), before, v);
      StepLeaveTimer(s, last.now, last.input, v);
      if InLv(Find(s.entries, v)) {
        LeaveTimerRuns(addr, before, v);
      }
    }
  }

  lemma {:induction false} DeadlineCovers(addr: seq<byte>, trace: seq<TimedInput>, v: u16)
    requires Timely(Init(addr), trace)
    requires InLv(Find(Run(Init(addr), trace).entries, v))
    ensures var leave, since := Run(Init(addr), trace).leave, LvSince(Init(addr), trace, v);
      && leave.Due? && since.Some? && leave.deadline >= since.value + LEAVE_TIME
      && trace != [] && since.value <= trace[|trace| - 1].now
  {
    if trace != [] {
      var before, last := trace[..|trace| - 1], trace[|trace| - 1];
      var s := Run(Init(addr), before);
      RunIsPointwise(Init(addr), before, v);
      StepLeaveTimer(s, last.now, last.input, v);
      if InLv(Find(s.entries, v)) {
        assert forall k | 0 <= k < |before| :: before[..k] == trace[..k];
        DeadlineCovers(addr, before, v);
      }
    }
  }

  lemma TimelyExpiry(s: Station, trace: seq<TimedInput>, now: int)
    requires Timely(s, trace + [TimedInput(now, LeaveExpiry)])
    ensures Timely(s, trace)
    ensures Run(s, trace).leave.Due? && Run(s, trace).leave.deadline <= now
  {
    var all := trace + [TimedInput(now, LeaveExpiry)];
    assert forall k | 0 <= k <= |trace| :: all[..k] == trace[..k];
    assert trace[..|trace|] == trace;
    assert all[|trace|].input == LeaveExpiry;
  }

  /**
  One timer for all attributes still gives each its full leave time: a registrar that an expiry finds in LV has been
  there for at least LEAVE_TIME, and the expiry takes it out.
  */
  lemma {:induction false} FullLeaveTime(addr: seq<byte>, trace: seq<TimedInput>, now: int, v: u16)
    requires Timely(Init(addr), trace + [TimedInput(now, LeaveExpiry)])
    requires InLv(Find(Run(Init(addr), trace).entries, v))
    ensures LvSince(Init(addr), trace, v).Some? && now >= LvSince(Init(addr), trace, v).value + LEAVE_TIME
    ensures !InLv(Find(Step(Run(Init(addr), trace), now, LeaveExpiry).next.entries, v))
  {
    hide Timely, LvSince, Run, Step, Find;
    TimelyExpiry(Init(addr), trace, now);
    DeadlineCovers(addr, trace, v);
    RunIsPointwise(Init(addr), trace, v);
    StepIsPointwise(Run(Init(addr), trace), now, LeaveExpiry, v);
  }
}
