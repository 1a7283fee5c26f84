/**
What MVRP and MSRP share of a participant: the two state machines of one attribute, what an event does to them, which
message a transmission sends and how it is heard, and the shared leave timer.
*/
module MrpParticipant {
  import opened Mrp
  import opened MrpPdu

  /** p2pmac after mrp_init. */
  const P2P := true
  /** MRP_LVTIMER_VAL, in milliseconds. */
  const LEAVE_TIME: int := 1000

  datatype Att = Att(app: AppState, reg: RegState)

  datatype LeaveTimer = Stopped | Due(deadline: int)

  /** A newly allocated attribute. */
  const FRESH: Att := Att(VO, MT)

  /** The reclaim test: nobody declares it and nobody registered it. */
  predicate Reclaimable(a: Att) {
    a.reg == MT && a.app in {VO, AO, QO}
  }

  /** Both machines of one attribute on an event that sweeps the whole list. */
  function Swept(ev: Event, a: Att): Att {
    Att(NextApp(P2P, a.app, ev, a.reg == IN), NextReg(a.reg, ev))
  }

  predicate IsAttrEvent(ev: Event) {
    ev in {New, Join, RNew, RJoinIn, RJoinMt, Leave, RIn, RMt, RLv}
  }

  /** Local requests are remapped before the registrar sees them. */
  function RegEvent(ev: Event, reg: RegState): Event {
    match ev
    case New => Begin
    case Join => if reg == IN then RJoinIn else RJoinMt
    case Leave => RLv
    case _ => ev
  }

  function Handled(ev: Event, a: Att): Att {
    Att(NextApp(P2P, a.app, ev, a.reg == IN), NextReg(a.reg, RegEvent(ev, a.reg)))
  }

  function HandledNotify(ev: Event, a: Att): Notify {
    if ev == New then NotifyNew else NotifyOf(a.reg, RegEvent(ev, a.reg))
  }

  function PduCode(msg: SndMsg, regIn: bool): Option<Code> {
    match msg
    case SndIn => Some(if regIn then 2 else 4)
    case SndNew => Some(0)
    case SndLv => Some(5)
    case SndJoin => Some(if regIn then 1 else 3)
    case _ => None
  }

  function CodeEvent(c: Code): Event {
    match c
    case 0 => RNew
    case 1 => RJoinIn
    case 2 => RIn
    case 3 => RJoinMt
    case 4 => RMt
    case 5 => RLv
  }

  function Restart(leave: LeaveTimer, start: bool, now: int): LeaveTimer {
    if start then Due(now + LEAVE_TIME) else leave
  }

  /** The applicant changed into a state that wants another transmit opportunity. */
  predicate Rearms(a: Att) {
    var s := NextApp(P2P, a.app, Tx, a.reg == IN);
    s != a.app && s in {VP, VN, AN, AA, LA}
  }
}
