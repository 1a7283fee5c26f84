/**
The sorted attribute list behaves as a finite map from VIDs, and every event acts on each VID by itself: what an
event does to one VID depends only on that VID's own two state machines.
*/
module MvrpPointwise {
  import opened Mrp
  import opened MrpPdu
  import opened MvrpCodec
  import opened MrpParticipant
  import opened MvrpStation

  /* ---------- list operations as map operations ---------- */

  lemma FindAt(es: seq<Entry>, k: nat)
    requires Sorted(es) && k < |es|
    ensures Find(es, es[k].vid) == Some(es[k].att)
    decreases k
  {
    if k > 0 {
      FindAt(es[1..], k - 1);
    }
  }

  lemma {:induction false} FindNone(es: seq<Entry>, v: u16)
    ensures Find(es, v).None? <==> forall e | e in es :: e.vid != v
  {
    if es != [] {
      FindNone(es[1..], v);
    }
  }

  lemma {:induction false} FindSome(es: seq<Entry>, v: u16)
    ensures Find(es, v).Some? ==> Entry(v, Find(es, v).value) in es
  {
    if es != [] && es[0].vid != v {
      FindSome(es[1..], v);
    }
  }

  lemma {:induction false} FindBelow(es: seq<Entry>, v: u16)
    requires Sorted(es) && (es != [] ==> v < es[0].vid)
    ensures Find(es, v) == None
  {
    FindNone(es, v);
  }

  lemma ConsSorted(e: Entry, es: seq<Entry>)
    requires Sorted(es) && forall x | x in es :: e.vid < x.vid
    ensures Sorted([e] + es)
  {}

  lemma {:induction false} PutSorted(es: seq<Entry>, v: u16, a: Att)
    requires Sorted(es)
    ensures Sorted(Put(es, v, a))
    ensures forall e | e in Put(es, v, a) :: e in es || e.vid == v
  {
    if es != [] && es[0].vid < v {
      PutSorted(es[1..], v, a);
    }
  }

  lemma {:induction false} DropSorted(es: seq<Entry>, v: u16)
    requires Sorted(es)
    ensures Sorted(Drop(es, v))
    ensures forall e | e in Drop(es, v) :: e in es
  {
    if es != [] && es[0].vid != v {
      DropSorted(es[1..], v);
      ConsSorted(es[0], Drop(es[1..], v));
    }
  }

  lemma {:induction false} FindPut(es: seq<Entry>, v: u16, a: Att, u: u16)
    requires Sorted(es)
    ensures Find(Put(es, v, a), u) == if u == v then Some(a) else Find(es, u)
  {
    if es != [] && es[0].vid < v {
      FindPut(es[1..], v, a, u);
    }
  }

  lemma {:induction false} FindDrop(es: seq<Entry>, v: u16, u: u16)
    requires Sorted(es)
    ensures Find(Drop(es, v), u) == if u == v then None else Find(es, u)
  {
    if es != [] {
      if es[0].vid == v {
        FindBelow(es[1..], v);
      } else {
        FindDrop(es[1..], v, u);
      }
    }
  }

  lemma {:induction false} KeptSorted(es: seq<Entry>)
    requires Sorted(es)
    ensures Sorted(Kept(es))
    ensures forall e | e in Kept(es) :: e in es
  {
    if es != [] {
      KeptSorted(es[1..]);
      ConsSorted(es[0], Kept(es[1..]));
      assert Kept(es) == Kept(es[1..]) || Kept(es) == [es[0]] + Kept(es[1..]);
    }
  }

  function Filter(o: Option<Att>): Option<Att> {
    if o.Some? && Reclaimable(o.value) then None else o
  }

  lemma {:induction false} FindKept(es: seq<Entry>, v: u16)
    requires Sorted(es)
    ensures Find(Kept(es), v) == Filter(Find(es, v))
  {
    if es != [] {
      FindKept(es[1..], v);
      assert Kept(es) == if Reclaimable(es[0].att) then Kept(es[1..]) else [es[0]] + Kept(es[1..]);
      if es[0].vid == v {
        FindBelow(es[1..], v);
      }
    }
  }

  function SweptOption(ev: Event, o: Option<Att>): Option<Att> {
    if o.Some? then Some(Swept(ev, o.value)) else None
  }

  lemma SweepTail(es: seq<Entry>, ev: Event)
    requires es != []
    ensures Sweep(es, ev) == [Entry(es[0].vid, Swept(ev, es[0].att))] + Sweep(es[1..], ev)
  {}

  lemma {:induction false} FindSweep(es: seq<Entry>, ev: Event, v: u16)
    ensures Find(Sweep(es, ev), v) == SweptOption(ev, Find(es, v))
  {
    if es != [] {
      SweepTail(es, ev);
      FindSweep(es[1..], ev, v);
    }
  }

  /** Two sorted lists with the same lookups are the same list: the list is nothing but the map. */
  lemma {:induction false} SortedListIsMap(a: seq<Entry>, b: seq<Entry>)
    requires Sorted(a) && Sorted(b)
    requires forall v: u16 :: Find(a, v) == Find(b, v)
    ensures a == b
    decreases |a|
  {
    var first: u16 := if a != [] then a[0].vid else if b != [] then b[0].vid else 0;
    assert Find(a, first) == Find(b, first);
    if a != [] && b != [] {
      var x, y := a[0].vid, b[0].vid;
      assert Find(a, x) == Find(b, x) && Find(a, y) == Find(b, y);
      if x < y { FindBelow(b, x); }
      if y < x { FindBelow(a, y); }
      forall v: u16 ensures Find(a[1..], v) == Find(b[1..], v) {
        assert Find(a, v) == Find(b, v);
        if v == x {
          FindBelow(a[1..], v);
          FindBelow(b[1..], v);
        }
      }
      SortedListIsMap(a[1..], b[1..]);
    }
  }

  /* ---------- one VID at a time ---------- */

  /** What an event does to the entry of `v`, from that entry alone. */
  function LocalStep(o: Option<Att>, i: Input, v: u16): Option<Att> {
    match i
    case LeaveAllExpiry => SweptOption(TxLA, o)
    case LeaveAllHeard => SweptOption(RLA, o)
    case TxOpportunity => SweptOption(Tx, o)
    case LeaveExpiry => Filter(SweptOption(LvTimer, o))
    case PeriodicExpiry => SweptOption(Periodic, o)
    case Attr(ev, u) =>
      if u == v && IsAttrEvent(ev) then Filter(Some(Handled(ev, if o.Some? then o.value else FRESH))) else o
    case Reclaim => Filter(o)
  }

  lemma StepSorted(s: Station, now: int, i: Input)
    requires Sorted(s.entries)
    ensures Sorted(Step(s, now, i).next.entries)
    ensures Step(s, now, i).next.addr == s.addr
  {
    match i
    case Attr(ev, v) =>
      PutSorted(s.entries, v, Handled(ev, Current(s.entries, v)));
      DropSorted(s.entries, v);
    case LeaveExpiry => KeptSorted(Sweep(s.entries, LvTimer));
    case Reclaim => KeptSorted(s.entries);
    case _ =>
  }

  /** Every event of the dispatcher is pointwise. */
  lemma StepIsPointwise(s: Station, now: int, i: Input, v: u16)
    requires Sorted(s.entries)
    ensures Find(Step(s, now, i).next.entries, v) == LocalStep(Find(s.entries, v), i, v)
  {
    match i
    case LeaveAllExpiry => FindSweep(s.entries, TxLA, v);
    case LeaveAllHeard => FindSweep(s.entries, RLA, v);
    case TxOpportunity => FindSweep(s.entries, Tx, v);
    case PeriodicExpiry => FindSweep(s.entries, Periodic, v);
    case LeaveExpiry =>
      FindSweep(s.entries, LvTimer, v);
      FindKept(Sweep(s.entries, LvTimer), v);
    case Reclaim => FindKept(s.entries, v);
    case Attr(ev, u) =>
      FindPut(s.entries, u, Handled(ev, Current(s.entries, u)), v);
      FindDrop(s.entries, u, v);
  }

  /* ---------- runs ---------- */

  datatype TimedInput = TimedInput(now: int, input: Input)

  function Run(s: Station, trace: seq<TimedInput>): Station {
    if trace == [] then s
    else
      var last := trace[|trace| - 1];
      Step(Run(s, trace[..|trace| - 1]), last.now, last.input).next
  }

  function LocalRun(o: Option<Att>, trace: seq<TimedInput>, v: u16): Option<Att> {
    if trace == [] then o
    else LocalStep(LocalRun(o, trace[..|trace| - 1], v), trace[|trace| - 1].input, v)
  }

  /** Over whole runs: the list stays sorted with unique VIDs, and each VID runs by itself. */
  lemma {:induction false} RunIsPointwise(s: Station, trace: seq<TimedInput>, v: u16)
    requires Sorted(s.entries)
    ensures Sorted(Run(s, trace).entries)
    ensures Find(Run(s, trace).entries, v) == LocalRun(Find(s.entries, v), trace, v)
  {
    if trace != [] {
      var before, last := trace[..|trace| - 1], trace[|trace| - 1];
      RunIsPointwise(s, before, v);
      StepSorted(Run(s, before), last.now, last.input);
      StepIsPointwise(Run(s, before), last.now, last.input, v);
    }
  }

  /** mvrp_init. */
  function Init(addr: seq<byte>): Station {
    Station(addr, [], false, Stopped, true)
  }
}
