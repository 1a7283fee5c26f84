/**
The queue of daemons/mrpd/que.c between threads: a ring buffer, a mutex and two counting semaphores. Every thread is
at some point of que_push or of que_pop_wait, and a run is any interleaving of single steps of any number of threads.
*/
module BoundedQueue {
  import opened Mrp

  /** Where a thread stands. `Waited` holds a semaphore unit; `Inside` to `Moved` hold the mutex. */
  datatype Pc<T> =
    | Idle
    | PushWaited(d: T) | PushInside(d: T) | PushCopied(d: T) | PushMoved | PushLeft
    | PopWaited | PopInside | PopCopied(d: T) | PopMoved | PopLeft

  /** `pushed` and `popped` record what went in and came out so far, in order. */
  datatype Queue<T> = Queue(
    buffer: seq<T>, inPos: nat, outPos: nat, space: nat, data: nat, mutex: Option<nat>, pcs: map<nat, Pc<T>>,
    pushed: seq<T>, popped: seq<T>)

  datatype Action<T> = StartPush(d: T) | StartPop | Go

  /** que_new: all slots blank, all units on the space semaphore. */
  function New<T>(n: nat, blank: T, threads: set<nat>): Queue<T> {
    Queue(seq(n, _ => blank), 0, 0, n, 0, None, map t | t in threads :: Idle, [], [])
  }

  /** ReleaseSemaphore leaves a semaphore at its maximum alone. */
  function Release(count: nat, maximum: nat): nat {
    if count < maximum then count + 1 else count
  }

  function At<T>(q: Queue<T>, t: nat, pc: Pc<T>): Queue<T> {
    q.(pcs := q.pcs[t := pc])
  }

  /** One step of thread `t`; None where it has to wait. */
  function Step<T>(q: Queue<T>, t: nat, a: Action<T>): Option<Queue<T>> {
    var n := |q.buffer|;
    if t !in q.pcs || n == 0 then None
    else
      match (q.pcs[t], a)
      case (Idle, StartPush(d)) => if q.space > 0 then Some(At(q, t, PushWaited(d)).(space := q.space - 1)) else None
      case (Idle, StartPop) => if q.data > 0 then Some(At(q, t, PopWaited).(data := q.data - 1)) else None
      case (PushWaited(d), Go) => if q.mutex == None then Some(At(q, t, PushInside(d)).(mutex := Some(t))) else None
      case (PushInside(d), Go) =>
        if q.inPos < n then Some(At(q, t, PushCopied(d)).(buffer := q.buffer[q.inPos := d])) else None
      case (PushCopied(d), Go) => Some(At(q, t, PushMoved).(inPos := (q.inPos + 1) % n, pushed := q.pushed + [d]))
      case (PushMoved, Go) => Some(At(q, t, PushLeft).(mutex := None))
      case (PushLeft, Go) => Some(At(q, t, Idle).(data := Release(q.data, n)))
      case (PopWaited, Go) => if q.mutex == None then Some(At(q, t, PopInside).(mutex := Some(t))) else None
      case (PopInside, Go) => if q.outPos < n then Some(At(q, t, PopCopied(q.buffer[q.outPos]))) else None
      case (PopCopied(d), Go) => Some(At(q, t, PopMoved).(outPos := (q.outPos + 1) % n, popped := q.popped + [d]))
      case (PopMoved, Go) => Some(At(q, t, PopLeft).(mutex := None))
      case (PopLeft, Go) => Some(At(q, t, Idle).(space := Release(q.space, n)))
      case _ => None
  }

  datatype Scheduled<T> = Scheduled(t: nat, a: Action<T>)

  /** A run; steps that have to wait do nothing. */
  function Run<T>(q: Queue<T>, steps: seq<Scheduled<T>>): Queue<T> {
    if steps == [] then q
    else
      var last := steps[|steps| - 1];
      var before := Run(q, steps[..|steps| - 1]);
      var o := Step(before, last.t, last.a);
      if o.Some? then o.value else before
  }

  /* ---------- counting threads ---------- */

  /** What a thread owns between its first wait and its last release. */
  datatype Stage = Neither | SpaceUnit | NewItem | DataUnit | FreeSlot

  function StageOf<T>(pc: Pc<T>): Stage {
    match pc
    case Idle => Neither
    case PushWaited(_) | PushInside(_) | PushCopied(_) => SpaceUnit
    case PushMoved | PushLeft => NewItem
    case PopWaited | PopInside | PopCopied(_) => DataUnit
    case PopMoved | PopLeft => FreeSlot
  }

  ghost function ThreadsIn<T>(pcs: map<nat, Pc<T>>, g: Stage): set<nat> {
    set t | t in pcs && StageOf(pcs[t]) == g
  }

  ghost function Count<T>(pcs: map<nat, Pc<T>>, g: Stage): nat {
    |ThreadsIn(pcs, g)|
  }

  lemma CountMoves<T>(pcs: map<nat, Pc<T>>, t: nat, pc: Pc<T>, g: Stage)
    requires t in pcs
    ensures Count(pcs[t := pc], g)
         == Count(pcs, g) + (if StageOf(pc) == g then 1 else 0) - (if StageOf(pcs[t]) == g then 1 else 0)
  {
    var before, after := ThreadsIn(pcs, g), ThreadsIn(pcs[t := pc], g);
    if StageOf(pc) == g {
      assert after == before + {t};
    } else {
      assert after == before - {t};
    }
  }

  lemma CountsMove<T>(pcs: map<nat, Pc<T>>, t: nat, pc: Pc<T>)
    requires t in pcs
    ensures forall g: Stage :: (Count(pcs[t := pc], g)
                == Count(pcs, g) + (if StageOf(pc) == g then 1 else 0) - (if StageOf(pcs[t]) == g then 1 else 0))
  {
    forall g: Stage {
      CountMoves(pcs, t, pc, g);
    }
  }

  /* ---------- the invariant ---------- */

  function Slot(i: nat, n: nat): (k: nat)
    requires n > 0
    ensures k < n
  {
    if i < n then i else Slot(i - n, n)
  }

  /** Every unit is accounted for: on a semaphore, with a thread, or in the buffer. */
  ghost predicate Accounts<T>(q: Queue<T>) {
    var unread := |q.pushed| - |q.popped|;
    && q.space + Count(q.pcs, SpaceUnit) + unread + Count(q.pcs, FreeSlot) == |q.buffer|
    && q.data + Count(q.pcs, NewItem) + Count(q.pcs, DataUnit) == unread
  }

  /** The buffer holds what was pushed and not yet popped, and what was popped is what was pushed, in order. */
  ghost predicate Contents<T>(q: Queue<T>) {
    var n := |q.buffer|;
    && n > 0 && q.inPos == Slot(|q.pushed|, n) && q.outPos == Slot(|q.popped|, n)
    && |q.popped| <= |q.pushed| && q.popped == q.pushed[..|q.popped|]
    && (forall i: nat | |q.popped| <= i < |q.pushed| :: q.buffer[Slot(i, n)] == q.pushed[i])
  }

  predicate Inside<T>(pc: Pc<T>) {
    pc.PushInside? || pc.PushCopied? || pc.PushMoved? || pc.PopInside? || pc.PopCopied? || pc.PopMoved?
  }

  /** The mutex is held by the one thread inside, and what that thread copied is where it belongs. */
  ghost predicate Exclusive<T>(q: Queue<T>) {
    MutexHeld(q) && CopiedIn(q) && CopiedOut(q)
  }

  ghost predicate MutexHeld<T>(q: Queue<T>) {
    && (forall t | t in q.pcs :: Inside(q.pcs[t]) <==> q.mutex == Some(t))
    && (q.mutex.Some? ==> q.mutex.value in q.pcs)
  }

  ghost predicate CopiedIn<T>(q: Queue<T>) {
    forall t | t in q.pcs && q.pcs[t].PushCopied? :: q.inPos < |q.buffer| && q.buffer[q.inPos] == q.pcs[t].d
  }

  ghost predicate CopiedOut<T>(q: Queue<T>) {
    forall t | t in q.pcs && q.pcs[t].PopCopied? :: |q.popped| < |q.pushed| && q.pcs[t].d == q.pushed[|q.popped|]
  }

  ghost predicate Inv<T>(q: Queue<T>) {
    Contents(q) && Accounts(q) && Exclusive(q)
  }

  lemma NewInv<T>(n: nat, blank: T, threads: set<nat>)
    requires n > 0
    ensures Inv(New(n, blank, threads))
  {
    var q := New(n, blank, threads);
    assert ThreadsIn(q.pcs, SpaceUnit) == {} && ThreadsIn(q.pcs, FreeSlot) == {};
    assert ThreadsIn(q.pcs, NewItem) == {} && ThreadsIn(q.pcs, DataUnit) == {};
  }

  lemma OneUnit<T>(pcs: map<nat, Pc<T>>, t: nat)
    requires t in pcs
    ensures Count(pcs, StageOf(pcs[t])) > 0
  {
    assert t in ThreadsIn(pcs, StageOf(pcs[t]));
  }

  /** Two positions less than a lap apart are in different slots. */
  lemma {:induction false} SlotsDiffer(i: nat, j: nat, n: nat)
    requires n > 0 && i < j < i + n
    ensures Slot(i, n) != Slot(j, n)
    decreases i
  {
    if i >= n {
      SlotsDiffer(i - n, j - n, n);
    } else if j >= n {
      assert Slot(j, n) == j - n < i;
    }
  }

  lemma FullTurn(n: nat)
    requires n > 0
    ensures n % n == 0
  {}

  lemma SmallRemainder(i: nat, n: nat)
    requires i < n
    ensures i % n == i
  {}

  lemma {:induction false} SlotNext(i: nat, n: nat)
    requires n > 0
    ensures Slot(i + 1, n) == (Slot(i, n) + 1) % n
    decreases i
  {
    if i >= n {
      SlotNext(i - n, n);
    } else if i + 1 == n {
      FullTurn(n);
    } else {
      SmallRemainder(i + 1, n);
    }
  }

  lemma StageMove<T>(q: Queue<T>, t: nat, pc: Pc<T>, q': Queue<T>)
    requires Accounts(q) && t in q.pcs && q'.pcs == q.pcs[t := pc]
    requires Follows(StageOf(q.pcs[t]), StageOf(pc)) && Moves(q, q', StageOf(q.pcs[t]), StageOf(pc))
    ensures Accounts(q')
  {
    CountsMove(q.pcs, t, pc);
  }

  /** Neither semaphore is at its maximum when a thread is about to release it. */
  lemma ReleaseWorks<T>(q: Queue<T>, t: nat)
    requires Contents(q) && Accounts(q) && t in q.pcs
    ensures StageOf(q.pcs[t]) == NewItem ==> q.data < |q.buffer|
    ensures StageOf(q.pcs[t]) == FreeSlot ==> q.space < |q.buffer|
    ensures StageOf(q.pcs[t]) == SpaceUnit ==> |q.pushed| - |q.popped| < |q.buffer|
    ensures StageOf(q.pcs[t]) == DataUnit ==> |q.popped| < |q.pushed|
  {
    OneUnit(q.pcs, t);
  }

  /** The copy of a push goes to a slot that holds nothing unread. */
  lemma CopyIn<T>(q: Queue<T>, d: T)
    requires Contents(q) && |q.pushed| - |q.popped| < |q.buffer|
    ensures Contents(q.(buffer := q.buffer[q.inPos := d]))
  {
    var n := |q.buffer|;
    forall i: nat | |q.popped| <= i < |q.pushed| ensures q.buffer[q.inPos := d][Slot(i, n)] == q.pushed[i] {
      SlotsDiffer(i, |q.pushed|, n);
    }
  }

  lemma MoveIn<T>(q: Queue<T>, d: T)
    requires Contents(q) && q.buffer[q.inPos] == d
    ensures Contents(q.(inPos := (q.inPos + 1) % |q.buffer|, pushed := q.pushed + [d]))
  {
    hide Slot;
    SlotNext(|q.pushed|, |q.buffer|);
  }

  lemma MoveOut<T>(q: Queue<T>, d: T)
    requires Contents(q) && |q.popped| < |q.pushed| && d == q.pushed[|q.popped|]
    ensures Contents(q.(outPos := (q.outPos + 1) % |q.buffer|, popped := q.popped + [d]))
  {
    SlotNext(|q.popped|, |q.buffer|);
    assert q.pushed[..|q.popped| + 1] == q.pushed[..|q.popped|] + [q.pushed[|q.popped|]];
  }

  lemma StepKeepsContents<T>(q: Queue<T>, t: nat, a: Action<T>)
    requires Inv(q) && Step(q, t, a).Some?
    ensures Contents(Step(q, t, a).value)
  {
    ReleaseWorks(q, t);
    match q.pcs[t]
    case PushInside(d) => CopyIn(q, d);
    case PushCopied(d) => MoveIn(q, d);
    case PopCopied(d) => MoveOut(q, d);
    case _ =>
  }

  /** What a step does to the accounts. */
  predicate Moves<T>(q: Queue<T>, q': Queue<T>, was: Stage, now: Stage) {
    && |q'.buffer| == |q.buffer|
    && q'.space == q.space - (if was == Neither && now == SpaceUnit then 1 else 0)
                           + (if was == FreeSlot && now == Neither then 1 else 0)
    && q'.data == q.data - (if was == Neither && now == DataUnit then 1 else 0)
                         + (if was == NewItem && now == Neither then 1 else 0)
    && |q'.pushed| == |q.pushed| + (if was == SpaceUnit && now == NewItem then 1 else 0)
    && |q'.popped| == |q.popped| + (if was == DataUnit && now == FreeSlot then 1 else 0)
  }

  /** Stages follow each other as in the two functions. */
  predicate Follows(was: Stage, now: Stage) {
    || was == now
    || (was == Neither && (now == SpaceUnit || now == DataUnit))
    || (was == SpaceUnit && now == NewItem) || (was == NewItem && now == Neither)
    || (was == DataUnit && now == FreeSlot) || (was == FreeSlot && now == Neither)
  }

  lemma StepMoves<T>(q: Queue<T>, t: nat, a: Action<T>)
    requires Step(q, t, a).Some?
    requires StageOf(q.pcs[t]) == NewItem ==> q.data < |q.buffer|
    requires StageOf(q.pcs[t]) == FreeSlot ==> q.space < |q.buffer|
    ensures var q' := Step(q, t, a).value;
      && t in q'.pcs && q'.pcs == q.pcs[t := q'.pcs[t]]
      && Follows(StageOf(q.pcs[t]), StageOf(q'.pcs[t])) && Moves(q, q', StageOf(q.pcs[t]), StageOf(q'.pcs[t]))
  {}

  lemma StepKeepsAccounts<T>(q: Queue<T>, t: nat, a: Action<T>)
    requires Inv(q) && Step(q, t, a).Some?
    ensures Accounts(Step(q, t, a).value)
  {
    ReleaseWorks(q, t);
    StepMoves(q, t, a);
    var q' := Step(q, t, a).value;
    StageMove(q, t, q'.pcs[t], q');
  }

  /** The out position is that of the oldest unread item. */
  lemma NextOut<T>(q: Queue<T>)
    requires Contents(q)
    ensures q.inPos < |q.buffer| && q.outPos < |q.buffer|
    ensures |q.popped| < |q.pushed| ==> q.buffer[q.outPos] == q.pushed[|q.popped|]
  {}

  lemma StepKeepsMutex<T>(q: Queue<T>, t: nat, a: Action<T>)
    requires MutexHeld(q) && Step(q, t, a).Some?
    ensures MutexHeld(Step(q, t, a).value)
  {}

  lemma StepKeepsCopiedIn<T>(q: Queue<T>, t: nat, a: Action<T>)
    requires MutexHeld(q) && CopiedIn(q) && Step(q, t, a).Some?
    ensures CopiedIn(Step(q, t, a).value)
  {}

  lemma StepKeepsCopiedOut<T>(q: Queue<T>, t: nat, a: Action<T>)
    requires MutexHeld(q) && CopiedOut(q) && Contents(q) && Step(q, t, a).Some?
    requires StageOf(q.pcs[t]) == DataUnit ==> |q.popped| < |q.pushed|
    ensures CopiedOut(Step(q, t, a).value)
  {
    NextOut(q);
    hide Contents;
  }

  /** Every step of every thread keeps the invariant. */
  lemma StepKeeps<T>(q: Queue<T>, t: nat, a: Action<T>)
    requires Inv(q) && Step(q, t, a).Some?
    ensures Inv(Step(q, t, a).value)
  {
    StepKeepsContents(q, t, a);
    StepKeepsAccounts(q, t, a);
    StepKeepsMutex(q, t, a);
    StepKeepsCopiedIn(q, t, a);
    ReleaseWorks(q, t);
    StepKeepsCopiedOut(q, t, a);
  }

  lemma {:induction false} RunKeeps<T>(q: Queue<T>, steps: seq<Scheduled<T>>)
    requires Inv(q)
    ensures Inv(Run(q, steps))
  {
    if steps != [] {
      var last := steps[|steps| - 1];
      RunKeeps(q, steps[..|steps| - 1]);
      var before := Run(q, steps[..|steps| - 1]);
      if Step(before, last.t, last.a).Some? {
        StepKeeps(before, last.t, last.a);
      }
    }
  }

  /**
  Under every interleaving of any number of threads: what came out is what went in, in order; the buffer still holds
  everything that is yet to come out; and neither semaphore exceeds the number of slots.
  */
  lemma FirstInFirstOut<T>(n: nat, blank: T, threads: set<nat>, steps: seq<Scheduled<T>>)
    requires n > 0
    ensures var q := Run(New(n, blank, threads), steps);
      && q.popped <= q.pushed && |q.pushed| - |q.popped| <= n && |q.buffer| == n
      && (forall i: nat | |q.popped| <= i < |q.pushed| :: q.buffer[Slot(i, n)] == q.pushed[i])
      && q.space <= n && q.data <= n
  {
    NewInv(n, blank, threads);
    RunKeeps(New(n, blank, threads), steps);
    RunSize(New(n, blank, threads), steps);
  }

  lemma {:induction false} RunSize<T>(q: Queue<T>, steps: seq<Scheduled<T>>)
    ensures |Run(q, steps).buffer| == |q.buffer|
  {
    if steps != [] {
      RunSize(q, steps[..|steps| - 1]);
    }
  }

  /** A unit put back is never lost: when a thread is about to release a semaphore, there is room on it. */
  lemma NoReleaseIsLost<T>(n: nat, blank: T, threads: set<nat>, steps: seq<Scheduled<T>>, t: nat)
    requires n > 0
    ensures var q := Run(New(n, blank, threads), steps);
      && t in q.pcs && q.pcs[t].PushLeft? ==> Release(q.data, n) == q.data + 1
    ensures var q := Run(New(n, blank, threads), steps);
      && t in q.pcs && q.pcs[t].PopLeft? ==> Release(q.space, n) == q.space + 1
  {
    var q := Run(New(n, blank, threads), steps);
    NewInv(n, blank, threads);
    RunKeeps(New(n, blank, threads), steps);
    RunSize(New(n, blank, threads), steps);
    if t in q.pcs {
      ReleaseWorks(q, t);
    }
  }

  ghost predicate CanGo<T>(q: Queue<T>, t: nat) {
    Step(q, t, Go).Some?
  }

  /** The queue never jams: as long as some thread is under way, some thread can take a step. */
  lemma NeverStuck<T>(n: nat, blank: T, threads: set<nat>, steps: seq<Scheduled<T>>, t: nat)
    requires n > 0
    ensures var q := Run(New(n, blank, threads), steps);
      t in q.pcs && !q.pcs[t].Idle? ==> exists u :: CanGo(q, u)
  {
    var q := Run(New(n, blank, threads), steps);
    NewInv(n, blank, threads);
    RunKeeps(New(n, blank, threads), steps);
    NextOut(q);
    if t in q.pcs && !q.pcs[t].Idle? {
      var u := if q.mutex.Some? then q.mutex.value else t;
      assert q.mutex.Some? ==> Inside(q.pcs[u]);
      assert CanGo(q, u);
    }
  }

  /** Once all threads are back, the semaphores count exactly the free and the filled slots. */
  lemma QuiescentCounts<T>(q: Queue<T>)
    requires Inv(q) && forall t | t in q.pcs :: q.pcs[t].Idle?
    ensures q.data == |q.pushed| - |q.popped| && q.space == |q.buffer| - q.data
  {
    assert ThreadsIn(q.pcs, SpaceUnit) == {} && ThreadsIn(q.pcs, FreeSlot) == {};
    assert ThreadsIn(q.pcs, NewItem) == {} && ThreadsIn(q.pcs, DataUnit) == {};
  }
}
