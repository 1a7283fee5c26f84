/**
What frames under way between a talker and an observer mean for one attribute, whatever the application: those to the
observer make it register the attribute or stop to, those to the talker bring LeaveAll or say In. The invariant of the
two stations and the frames under way, and what a move must do to keep it.
*/
module LinkQueues {

  /** A frame to the observer: registers for sure, leaves a registration alone for sure, or neither is sure. */
  datatype Effect = Registers | Keeps | Withdraws

  /** A frame to the talker: whether it has LeaveAll, and whether it may confirm the registration by In. */
  datatype Answer = Answer(lva: bool, confirms: bool)

  /** What the latest frame under way that matters does, if there is one. */
  function Tail(b: seq<Effect>): Effect {
    if b == [] then Keeps else if b[|b| - 1] != Keeps then b[|b| - 1] else Tail(b[..|b| - 1])
  }

  /** Registered once everything under way has arrived. */
  predicate WillRegister(registered: bool, b: seq<Effect>) {
    Tail(b) == Registers || (Tail(b) == Keeps && registered)
  }

  predicate HasLeaveAll(a: seq<Answer>) {
    a != [] && (a[|a| - 1].lva || HasLeaveAll(a[..|a| - 1]))
  }

  /** An In is under way, with no LeaveAll behind it. */
  predicate InUnderWay(a: seq<Answer>) {
    a != [] && !a[|a| - 1].lva && (a[|a| - 1].confirms || InUnderWay(a[..|a| - 1]))
  }

  /** The talker, as far as it matters: it has declared and not withdrawn, and it is at rest. */
  datatype Talker = Talker(active: bool, rest: bool)

  /**
  A talker that has declared has nothing under way that undoes it; one that an In can bring to rest, or that is at rest
  with no LeaveAll on its way to it, will be registered.
  */
  predicate Inv(t: Talker, registered: bool, a: seq<Answer>, b: seq<Effect>) {
    && (t.rest ==> t.active)
    && (t.active ==> Tail(b) != Withdraws)
    && (t.active && InUnderWay(a) ==> WillRegister(registered, b))
    && (t.rest && !HasLeaveAll(a) ==> WillRegister(registered, b))
  }

  lemma TailAppend(b: seq<Effect>, e: Effect)
    ensures Tail(b + [e]) == if e != Keeps then e else Tail(b)
  {
    assert (b + [e])[..|b|] == b;
  }

  lemma AnswerAppend(a: seq<Answer>, g: Answer)
    ensures InUnderWay(a + [g]) <==> !g.lva && (g.confirms || InUnderWay(a))
    ensures HasLeaveAll(a + [g]) <==> HasLeaveAll(a) || g.lva
  {
    assert (a + [g])[..|a|] == a;
  }

  lemma FrontRest<X>(s: seq<X>)
    requires |s| > 1
    ensures var front := s[..|s| - 1];
      front[1..] == s[1..][..|s| - 2] && front[0] == s[0] && s[1..][|s| - 2] == s[|s| - 1]
  {}

  /** The oldest frame matters only if none behind it does. */
  lemma {:induction false} TailDrop(b: seq<Effect>)
    requires b != []
    ensures Tail(b) == if Tail(b[1..]) != Keeps then Tail(b[1..]) else b[0]
  {
    if |b| > 1 {
      TailDrop(b[..|b| - 1]);
      FrontRest(b);
    }
  }

  lemma {:induction false} AnswerDrop(a: seq<Answer>)
    requires a != []
    ensures InUnderWay(a[1..]) ==> InUnderWay(a)
    ensures !HasLeaveAll(a) && a[0].confirms ==> InUnderWay(a)
    ensures HasLeaveAll(a) <==> a[0].lva || HasLeaveAll(a[1..])
  {
    if |a| > 1 {
      AnswerDrop(a[..|a| - 1]);
      FrontRest(a);
    }
  }

  /* ---------- what keeps it ---------- */

  /** The talker moves without sending. */
  lemma TalkerMoves(t: Talker, t': Talker, registered: bool, a: seq<Answer>, b: seq<Effect>)
    requires Inv(t, registered, a, b)
    requires (t'.active ==> t.active) && (t'.rest ==> t'.active && t.rest)
    ensures Inv(t', registered, a, b)
  {
    hide Tail, InUnderWay, HasLeaveAll;
  }

  lemma ObserverMoves(t: Talker, registered: bool, registered': bool, a: seq<Answer>, b: seq<Effect>)
    requires Inv(t, registered, a, b) && (registered ==> registered')
    ensures Inv(t, registered', a, b)
  {
    hide Tail, InUnderWay, HasLeaveAll;
  }

  /**
  The talker sends a frame; if it is active then, it announced the attribute or leaves it at an earlier declaration.
  */
  lemma TalkerSends(t: Talker, t': Talker, registered: bool, a: seq<Answer>, b: seq<Effect>, e: Effect)
    requires Inv(t, registered, a, b) && (t'.rest ==> t'.active)
    requires t'.active ==> e == Registers || (e == Keeps && t.active && (t'.rest ==> t.rest))
    ensures Inv(t', registered, a, b + [e])
  {
    hide Tail, InUnderWay, HasLeaveAll;
    TailAppend(b, e);
  }

  /** The observer sends one: In only if it registers the attribute, which it stops to do only with a LeaveAll. */
  lemma ObserverSends(t: Talker, registered: bool, registered': bool, a: seq<Answer>, b: seq<Effect>, g: Answer)
    requires Inv(t, registered, a, b)
    requires (g.confirms ==> registered) && (registered && !g.lva ==> registered')
    ensures Inv(t, registered', a + [g], b)
  {
    hide Tail, InUnderWay, HasLeaveAll;
    AnswerAppend(a, g);
  }

  /** A frame arrives at the talker: only In brings it to rest, and a LeaveAll takes it from there. */
  lemma TalkerHears(t: Talker, t': Talker, registered: bool, a: seq<Answer>, b: seq<Effect>)
    requires Inv(t, registered, a, b) && a != [] && (t'.rest ==> t'.active)
    requires t'.active ==> t.active
    requires t'.rest ==> !a[0].lva && (t.rest || a[0].confirms)
    ensures Inv(t', registered, a[1..], b)
  {
    hide Tail, InUnderWay, HasLeaveAll;
    AnswerDrop(a);
  }

  /** A frame has the effect on the observer that it is said to have. */
  predicate Works(e: Effect, registered: bool, registered': bool) {
    (e == Registers ==> registered') && (e == Keeps && registered ==> registered')
  }

  lemma ObserverHears(t: Talker, registered: bool, registered': bool, a: seq<Answer>, b: seq<Effect>)
    requires Inv(t, registered, a, b) && b != [] && Works(b[0], registered, registered')
    ensures Inv(t, registered', a, b[1..])
  {
    hide Tail, InUnderWay, HasLeaveAll;
    TailDrop(b);
  }

  lemma HearsWillRegister(registered: bool, registered': bool, b: seq<Effect>)
    requires b != [] && WillRegister(registered, b) && Works(b[0], registered, registered')
    ensures WillRegister(registered', b[1..])
  {
    hide Tail;
    TailDrop(b);
  }
}
