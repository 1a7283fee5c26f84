/**
The per-attribute state machines of clause 10 of IEEE 802.1Q-2011 as daemons/mrpd/mrp.c runs them:
the Applicant, the Registrar, and the flags that decide when the shared timers start.
*/
module Mrp {

  datatype Option<+T> = None | Some(value: T)

  type byte = x: int | 0 <= x < 0x100
  type u16 = x: int | 0 <= x < 0x1_0000
  type u32 = x: int | 0 <= x < 0x1_0000_0000

  datatype AppState = VO | VP | VN | AN | AA | QA | LA | AO | QO | AP | QP | LO

  datatype RegState = IN | LV | MT

  datatype Event =
    | Begin | New | Join | Leave
    | Tx | TxLA | TxLAF
    | RNew | RJoinIn | RIn | RJoinMt | RMt | RLv | RLA
    | Flush | Redeclare
    | Periodic | PeriodicEnable | PeriodicDisable
    | LvTimer | LvaTimer

  datatype SndMsg = SndNew | SndJoin | SndIn | SndLv | SndLva | SndNull | SndNone

  datatype Notify = NotifyNone | NotifyNew | NotifyJoin | NotifyLv

  /** `encode` of the source is `optional` here: send only if it improves the encoding. */
  datatype Applicant = Applicant(state: AppState, tx: bool, msg: SndMsg, optional: bool, prev: Option<AppState>)

  datatype Registrar = Registrar(state: RegState, notify: Notify)

  /** Events on which mrp_applicant_fsm returns -1 and leaves the attribute alone. */
  predicate ApplicantRejects(ev: Event) {
    ev in {Flush, PeriodicEnable, PeriodicDisable, LvTimer, LvaTimer}
  }

  function NextApp(p2p: bool, s: AppState, ev: Event, regIn: bool): AppState {
    match ev
    case Begin => VO
    case New => if s == VN || s == AN then s else VN
    case Join =>
      (match s
       case LO | VO => VP
       case LA => AA
       case AO => AP
       case QO => QP
       case _ => s)
    case Leave =>
      (match s
       case VN | AN | AA | QA => LA
       case VP => VO
       case AP => AO
       case QP => QO
       case _ => s)
    case TxLA =>
      (match s
       case VO | LA | AO | QO => LO
       case VP => AA
       case VN => AN
       case AN | QP | AP | AA | QA => QA
       case LO => VO)
    case TxLAF =>
      (match s
       case VO | QO | AO | LA => LO
       case AN => VN
       case QP | AP | AA | QA => VP
       case _ => s)
    case Tx =>
      (match s
       case VP => AA
       case VN => AN
       case AN => if regIn then QA else AA
       case AP | AA => QA
       case LA | LO => VO
       case _ => s)
    case RJoinIn =>
      (match s
       case VO => if p2p then VO else AO
       case VP => if p2p then VP else AP
       case AA => QA
       case AO => QO
       case AP => QP
       case _ => s)
    case RIn => if s == AA && p2p then QA else s
    case RJoinMt | RMt =>
      (match s
       case QA => AA
       case QO => AO
       case QP => AP
       case LO => VO
       case _ => s)
    case RLv | RLA | Redeclare =>
      (match s
       case VO | AO | QO => LO
       case AN => VN
       case QA | AA | AP | QP => VP
       case _ => s)
    case Periodic =>
      (match s
       case QA => AA
       case QP => AP
       case _ => s)
    case _ => s
  }

  /** The message a transmit event sends from `s`: what to send, and whether only if it improves the encoding. */
  function Outgoing(s: AppState, ev: Event): (m: (SndMsg, bool)) {
    match ev
    case TxLA =>
      (match s
       case VP => (SndIn, false)
       case VN | AN => (SndNew, false)
       case QP | AP | AA | QA => (SndJoin, false)
       case VO | LA | AO | QO | LO => (SndIn, true))
    case Tx =>
      (match s
       case VP | AP | AA => (SndJoin, false)
       case VN | AN => (SndNew, false)
       case QA => (SndJoin, true)
       case LA => (SndLv, false)
       case LO => (SndIn, false)
       case VO | AO | QO | QP => (SndIn, true))
    case _ => (SndNull, false)
  }

  /** mrp_applicant_fsm, None where the source returns -1. */
  function ApplicantFsm(p2p: bool, a: Applicant, ev: Event, regIn: bool): (r: Option<Applicant>) {
    if ApplicantRejects(ev) then None
    else
      var (msg, optional) := Outgoing(a.state, ev);
      Some(Applicant(NextApp(p2p, a.state, ev, regIn), ev == Tx || ev == TxLA, msg, optional, Some(a.state)))
  }

  /** mrp_applicant_state_transition_implies_tx. */
  predicate TransitionImpliesTx(a: Applicant) {
    a.prev != Some(a.state) && a.state in {VP, VN, AN, AA, LA}
  }

  /** Events on which mrp_registrar_fsm returns -1 and leaves the attribute alone. */
  predicate RegistrarRejects(ev: Event) {
    ev in {New, Join, Leave, Tx, TxLAF, Periodic, PeriodicEnable, PeriodicDisable, LvaTimer}
  }

  function NextReg(s: RegState, ev: Event): RegState {
    match ev
    case Begin | Flush => MT
    case RLv | TxLA | RLA | Redeclare => if s == IN then LV else s
    case RNew | RJoinIn | RJoinMt => IN
    case LvTimer => if s == LV then MT else s
    case _ => s
  }

  function NotifyOf(s: RegState, ev: Event): Notify {
    match ev
    case RLv | Flush => NotifyLv
    case RNew => NotifyNew
    case RJoinIn | RJoinMt => if s == IN then NotifyNone else NotifyJoin
    case LvTimer => if s == LV then NotifyLv else NotifyNone
    case _ => NotifyNone
  }

  /** The transitions on which mrp_registrar_fsm (re)starts the database's one leave timer. */
  predicate StartsLeaveTimer(s: RegState, ev: Event) {
    s == IN && ev in {RLv, TxLA, RLA, Redeclare}
  }

  /** mrp_registrar_fsm, None where the source returns -1. */
  function RegistrarFsm(r: Registrar, ev: Event): (o: Option<Registrar>) {
    if RegistrarRejects(ev) then None
    else Some(Registrar(NextReg(r.state, ev), NotifyOf(r.state, ev)))
  }

  /** The states in which the next Tx opportunity must send something. */
  predicate Owes(s: AppState) {
    s in {VP, VN, AN, AA, AP, LA, LO}
  }

  /** The states that declare the attribute. */
  predicate Declares(s: AppState) {
    s in {VP, VN, AN, AA, QA, AP, QP}
  }
}

/**
The guarantee daemons/mrpd/mrp.h states for the Applicant: after a received Leave or LeaveAll, a declaration goes
quiet only once at least two declarations of the attribute were seen on the wire.
*/
module ApplicantRuns {
  import opened Mrp

  /** One applicant transition: an event and the registrar state it saw. */
  datatype Input = Input(ev: Event, regIn: bool)

  function Run(p2p: bool, s: AppState, inputs: seq<Input>): AppState {
    if inputs == [] then s
    else
      var last := inputs[|inputs| - 1];
      NextApp(p2p, Run(p2p, s, inputs[..|inputs| - 1]), last.ev, last.regIn)
  }

  /** A declaration on the wire: our own mandatory New or Join, a peer's JoinIn, or In on a point-to-point link. */
  predicate Declaration(p2p: bool, s: AppState, ev: Event) {
    || ((ev == Tx || ev == TxLA) && Outgoing(s, ev).0 in {SndNew, SndJoin} && !Outgoing(s, ev).1)
    || ev == RJoinIn
    || (ev == RIn && p2p)
  }

  predicate HeardLeave(ev: Event) {
    ev == RLv || ev == RLA || ev == Redeclare
  }

  /** Declarations on the wire since the last received Leave or LeaveAll of the run. */
  function DeclaredSinceLeave(p2p: bool, s: AppState, inputs: seq<Input>): nat {
    if inputs == [] then 0
    else
      var last := inputs[|inputs| - 1].ev;
      var before := inputs[..|inputs| - 1];
      if HeardLeave(last) then 0
      else DeclaredSinceLeave(p2p, s, before) + (if Declaration(p2p, Run(p2p, s, before), last) then 1 else 0)
  }

  /** The three transitions that skip a declaration. */
  predicate Skips(s: AppState, ev: Event) {
    || (s == VP && ev == TxLA)
    || (s == VN && ev == Leave)
    || (s == LA && HeardLeave(ev))
  }

  ghost predicate NeverSkips(p2p: bool, s: AppState, inputs: seq<Input>) {
    forall k | 0 <= k < |inputs| :: !Skips(Run(p2p, s, inputs[..k]), inputs[k].ev)
  }

  function Level(s: AppState): nat {
    match s
    case VO | VP | VN | LO => 0
    case AN | AA | AP | AO | LA => 1
    case QA | QP | QO => 2
  }

  lemma StepRaisesLevelByDeclaration(p2p: bool, s: AppState, i: Input)
    requires !Skips(s, i.ev)
    ensures HeardLeave(i.ev) ==> Level(NextApp(p2p, s, i.ev, i.regIn)) == 0
    ensures Level(NextApp(p2p, s, i.ev, i.regIn)) <= Level(s) + if Declaration(p2p, s, i.ev) then 1 else 0
  {}

  lemma {:induction false} LevelBoundsDeclarations(p2p: bool, s: AppState, inputs: seq<Input>)
    requires Level(s) == 0
    requires NeverSkips(p2p, s, inputs)
    ensures Level(Run(p2p, s, inputs)) <= DeclaredSinceLeave(p2p, s, inputs)
  {
    if inputs != [] {
      var before := inputs[..|inputs| - 1];
      assert forall k | 0 <= k < |before| :: before[..k] == inputs[..k];
      LevelBoundsDeclarations(p2p, s, before);
      StepRaisesLevelByDeclaration(p2p, Run(p2p, s, before), inputs[|inputs| - 1]);
    }
  }

  /**
  For every run from VP or VN that avoids the three skipping transitions (in particular every run without a local
  Leave and without an own LeaveAll), being quiet means two declarations since the last received Leave or LeaveAll.
  */
  lemma TwoDeclarations(p2p: bool, s: AppState, inputs: seq<Input>)
    requires s == VP || s == VN
    requires NeverSkips(p2p, s, inputs)
    ensures Run(p2p, s, inputs) in {QA, QP} ==> DeclaredSinceLeave(p2p, s, inputs) >= 2
  {
    hide Run, DeclaredSinceLeave, NeverSkips;
    LevelBoundsDeclarations(p2p, s, inputs);
  }

  ghost predicate LeaveAndLeaveAllFree(inputs: seq<Input>) {
    forall k | 0 <= k < |inputs| :: inputs[k].ev !in {Leave, TxLA}
  }

  lemma {:induction false} NoLaWithoutLeave(p2p: bool, s: AppState, inputs: seq<Input>)
    requires s != LA
    requires LeaveAndLeaveAllFree(inputs)
    ensures Run(p2p, s, inputs) != LA
  {
    if inputs != [] {
      NoLaWithoutLeave(p2p, s, inputs[..|inputs| - 1]);
    }
  }

  /** The form the header comment gives it: no local Leave and no own LeaveAll in the run. */
  lemma TwoDeclarationsWithoutOwnLeave(p2p: bool, s: AppState, inputs: seq<Input>)
    requires s == VP || s == VN
    requires LeaveAndLeaveAllFree(inputs)
    ensures Run(p2p, s, inputs) in {QA, QP} ==> DeclaredSinceLeave(p2p, s, inputs) >= 2
  {
    forall k | 0 <= k < |inputs| ensures !Skips(Run(p2p, s, inputs[..k]), inputs[k].ev) {
      NoLaWithoutLeave(p2p, s, inputs[..k]);
    }
    TwoDeclarations(p2p, s, inputs);
  }

  /** Two more inputs take AA to QA by a single Join. */
  lemma QuietAfterOneJoin(p2p: bool, s: AppState, before: seq<Input>)
    requires Run(p2p, s, before) == AA
    ensures var run := before + [Input(Tx, false)];
      Run(p2p, s, run) == QA && DeclaredSinceLeave(p2p, s, run) == DeclaredSinceLeave(p2p, s, before) + 1
  {
    var run := before + [Input(Tx, false)];
    assert run[..|run| - 1] == before;
  }

  lemma Extend(p2p: bool, s: AppState, before: seq<Input>, i: Input)
    ensures Run(p2p, s, before + [i]) == NextApp(p2p, Run(p2p, s, before), i.ev, i.regIn)
    ensures DeclaredSinceLeave(p2p, s, before + [i]) ==
      if HeardLeave(i.ev) then 0
      else DeclaredSinceLeave(p2p, s, before) + if Declaration(p2p, Run(p2p, s, before), i.ev) then 1 else 0
  {
    assert (before + [i])[..|before|] == before;
  }

  /**
  Each skipping transition does break the guarantee: whatever run leads to it with no declaration counted (for the
  third, whatever run at all), at most two more inputs end in QA with a single declaration since the last Leave.
  */
  lemma SkippingBreaksTheGuarantee(p2p: bool, s: AppState, before: seq<Input>, i: Input)
    returns (rest: seq<Input>)
    requires Skips(Run(p2p, s, before), i.ev)
    requires HeardLeave(i.ev) || DeclaredSinceLeave(p2p, s, before) == 0
    ensures Run(p2p, s, before + [i] + rest) == QA
    ensures DeclaredSinceLeave(p2p, s, before + [i] + rest) == 1
  {
    hide Run, DeclaredSinceLeave;
    Extend(p2p, s, before, i);
    var run := before + [i];
    if Run(p2p, s, run) == AA {
      rest := [Input(Tx, false)];
      QuietAfterOneJoin(p2p, s, run);
    } else {
      Extend(p2p, s, run, Input(Join, false));
      QuietAfterOneJoin(p2p, s, run + [Input(Join, false)]);
      rest := [Input(Join, false), Input(Tx, false)];
      assert run + rest == run + [Input(Join, false)] + [Input(Tx, false)];
    }
  }
}
