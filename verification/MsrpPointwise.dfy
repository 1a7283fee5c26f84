/**
An MSRP participant seen one stream or class at a time: what every step does to the entry of one key is a function of
that entry alone, but for a listener's question whether its talker is known.
*/
module MsrpPointwise {
  import opened Mrp
  import opened MrpPdu
  import opened MrpParticipant
  import opened MsrpCodec
  import opened MsrpRoundTrip
  import opened MsrpStation
  import opened MsrpRuns

  /* ---------- one key at a time ---------- */

  lemma FindThere(es: seq<Entry>, e: Entry)
    requires Unique(es) && e in es
    ensures Find(es, KeyOf(e.value)) == Some(e)
  {
    var k :| 0 <= k < |es| && es[k] == e;
    FindIs(es, k);
  }

  lemma NotFound(es: seq<Entry>, key: Key)
    requires forall e | e in es :: KeyOf(e.value) != key
    ensures Find(es, key) == None
  {}

  lemma AddedKeeps(es: seq<Entry>, n: Entry, e: Entry)
    requires e in es
    ensures e in Added(es, n)
  {
    var k :| 0 <= k < |es| && es[k] == e;
    var p := Order.PlaceFrom(Shapes(es), 0, Shape(n.value));
    assert Added(es, n)[if k < p then k else k + 1] == e;
  }

  lemma CurrentKeeps(es: seq<Entry>, v: Value, sub: Sub, e: Entry)
    requires e in es && KeyOf(e.value) != KeyOf(v)
    ensures e in Current(es, v, sub).0
  {
    var k := IndexOf(es, KeyOf(v));
    if k < |es| {
      var m :| 0 <= m < |es| && es[m] == e;
      assert Current(es, v, sub).0[m] == e;
    } else {
      AddedKeeps(es, Entry(v, sub, FRESH), e);
    }
  }

  lemma OthersStay(es: seq<Entry>, k: nat, b: Entry, e: Entry)
    requires k < |es| && e in es && KeyOf(e.value) != KeyOf(es[k].value)
    ensures e in es[k := b] && e in es[..k] + es[k + 1..]
  {
    var m :| 0 <= m < |es| && es[m] == e;
    assert es[k := b][m] == e;
    assert (es[..k] + es[k + 1..])[if m < k then m else m - 1] == e;
  }

  /** A declaration leaves the entries of all other keys alone. */
  lemma OtherKeys(s: Station, now: int, ev: Event, v: Value, sub: Sub, key: Key)
    requires Unique(s.entries) && IsAttrEvent(ev) && key != KeyOf(v)
    ensures Find(AttrStep(s, now, ev, v, sub).next.entries, key) == Find(s.entries, key)
  {
    hide Merged, Handled, Added, Shapes, HandledNotify, RegEvent, StartsLeaveTimer, Current;
    var next := AttrStep(s, now, ev, v, sub).next.entries;
    var (es, k) := Current(s.entries, v, sub);
    CurrentComes(s.entries, v, sub);
    CurrentUnique(s.entries, v, sub);
    AttrUnique(s, now, ev, v, sub);
    var b := es[k].(att := Handled(ev, es[k].att));
    var was := Find(s.entries, key);
    if was.Some? {
      CurrentKeeps(s.entries, v, sub, was.value);
      OthersStay(es, k, b, was.value);
      FindThere(next, was.value);
    } else {
      forall e | e in next ensures KeyOf(e.value) != key {
        if e != b {
          OtherEntry(es, k, b, e);
        }
      }
      NotFound(next, key);
    }
  }

  /* ---------- what a step does to one key ---------- */

  /** What is found of a key after a declaration about it. */
  function LocalDeclared(o: Option<Entry>, ev: Event, v: Value, sub: Sub, known: bool): Option<Entry> {
    var e := if o.Some? then Merged(o.value, v, sub, known) else Entry(v, sub, FRESH);
    var b := e.(att := Handled(ev, e.att));
    if Reclaimable(b.att) then None else Some(b)
  }

  function LocalSwept(o: Option<Entry>, ev: Event, kind: Option<Kind>): Option<Entry> {
    if o.Some? && (kind.None? || kind.value == KindOf(o.value.value))
    then Some(o.value.(att := Swept(ev, o.value.att))) else o
  }

  function LocalKept(o: Option<Entry>): Option<Entry> {
    if o.Some? && Reclaimable(o.value.att) then None else o
  }

  /** Step as one key sees it; `known` says whether a listener's talker is there. */
  function LocalStep(o: Option<Entry>, i: Input, key: Key, known: bool): Option<Entry> {
    match i
    case LeaveAllExpiry => LocalSwept(o, TxLA, None)
    case LeaveAllHeard(kind) => LocalSwept(o, RLA, Some(kind))
    case TxOpportunity => LocalSwept(o, Tx, None)
    case LeaveExpiry => LocalKept(LocalSwept(o, LvTimer, None))
    case PeriodicExpiry => o
    case Attr(ev, v, sub) => if IsAttrEvent(ev) && KeyOf(v) == key then LocalDeclared(o, ev, v, sub, known) else o
    case Reclaim => LocalKept(o)
  }

  lemma SameIndex(a: seq<Entry>, b: seq<Entry>, key: Key)
    requires |a| == |b| && forall i | 0 <= i < |a| :: a[i].value == b[i].value
    ensures IndexOf(a, key) == IndexOf(b, key)
  {
    hide IndexOf;
    var i, j := IndexOf(a, key), IndexOf(b, key);
    assert i < |a| ==> a[i].value == b[i].value;
    assert j < |b| ==> a[j].value == b[j].value;
  }

  lemma SweptFound(es: seq<Entry>, ev: Event, kind: Option<Kind>, key: Key)
    ensures Find(SweepKind(es, ev, kind), key) == LocalSwept(Find(es, key), ev, kind)
  {
    hide IndexOf, Swept, KindOf;
    SameIndex(es, SweepKind(es, ev, kind), key);
  }

  lemma {:induction false} KeptFound(es: seq<Entry>, key: Key)
    requires Unique(es)
    ensures Find(Kept(es), key) == LocalKept(Find(es, key))
  {
    KeptUnique(es);
    var was := Find(es, key);
    if was.Some? && !Reclaimable(was.value.att) {
      KeptStays(es, was.value);
      FindThere(Kept(es), was.value);
    } else {
      forall e | e in Kept(es) ensures KeyOf(e.value) != key {
        KeptNeeded(es, e);
        if KeyOf(e.value) == key {
          FindThere(es, e);
        }
      }
      NotFound(Kept(es), key);
    }
  }

  lemma {:induction false} KeptStays(es: seq<Entry>, e: Entry)
    requires e in es && !Reclaimable(e.att)
    ensures e in Kept(es)
  {
    if es[0] != e {
      KeptStays(es[1..], e);
    }
  }

  lemma {:induction false} KeptNeeded(es: seq<Entry>, e: Entry)
    requires e in Kept(es)
    ensures e in es && !Reclaimable(e.att)
  {
    if Reclaimable(es[0].att) || es[0] != e {
      KeptNeeded(es[1..], e);
    }
  }

  /** Every step acts key by key. */
  lemma StepIsLocal(s: Station, now: int, i: Input, key: Key)
    requires Unique(s.entries)
    ensures Find(Step(s, now, i).next.entries, key)
         == LocalStep(Find(s.entries, key), i, key, i.Attr? && TalkerKnown(s.entries, i.value))
  {
    hide Find, LocalSwept, LocalKept, AttrStep, SweepKind, Kept, TxPdu, Unique;
    match i
    case Attr(ev, v, sub) =>
      if IsAttrEvent(ev) {
        if KeyOf(v) == key { DeclarationFound(s, now, ev, v, sub); } else { OtherKeys(s, now, ev, v, sub, key); }
      }
    case LeaveAllExpiry => SweptFound(s.entries, TxLA, None, key);
    case LeaveAllHeard(kind) => SweptFound(s.entries, RLA, Some(kind), key);
    case TxOpportunity => SweptFound(s.entries, Tx, None, key);
    case LeaveExpiry =>
      SweptUnique(s.entries, LvTimer, None);
      SweptFound(s.entries, LvTimer, None, key);
      KeptFound(SweepKind(s.entries, LvTimer, None), key);
    case Reclaim => KeptFound(s.entries, key);
    case PeriodicExpiry =>
  }

  lemma StepAddr(s: Station, now: int, i: Input)
    ensures Step(s, now, i).next.addr == s.addr
  {
    hide Current, SweepKind, Kept, TxPdu, Handled, HandledNotify, StartsLeave;
  }

  /* ---------- hearing a list of events ---------- */

  /** One decoded event on a station. */
  function Hear1(s: Station, now: int, a: Action): Station
    requires Dispatchable([a])
  {
    assert a in [a];
    Step(s, now, InputOf(a)).next
  }

  lemma DispatchableParts(a: seq<Action>, b: seq<Action>)
    requires Dispatchable(a + b)
    ensures Dispatchable(a) && Dispatchable(b)
  {
    assert forall x: Action | x in a :: x in a + b;
    assert forall x: Action | x in b :: x in a + b;
  }

  lemma HearsFirst(s: Station, now: int, acts: seq<Action>)
    requires Dispatchable(acts) && acts != []
    ensures Dispatchable([acts[0]]) && Dispatchable(acts[1..])
    ensures Hears(s, now, acts) == Hears(Hear1(s, now, acts[0]), now, acts[1..])
  {
    hide Step;
  }

  /** What hearing one event does to a key. */
  lemma HearIsLocal(s: Station, now: int, a: Action, key: Key) returns (known: bool)
    requires Unique(s.entries) && Dispatchable([a])
    ensures Unique(Hear1(s, now, a).entries) && Hear1(s, now, a).addr == s.addr
    ensures assert a in [a];
      Find(Hear1(s, now, a).entries, key) == LocalStep(Find(s.entries, key), InputOf(a), key, known)
  {
    hide Step, Find, LocalStep, Unique, TalkerKnown;
    assert a in [a];
    var i := InputOf(a);
    StepUnique(s, now, i);
    StepAddr(s, now, i);
    StepIsLocal(s, now, i, key);
    known := i.Attr? && TalkerKnown(s.entries, i.value);
  }

  lemma {:induction false} HearsConcat(s: Station, now: int, a: seq<Action>, b: seq<Action>)
    requires Dispatchable(a + b) && Dispatchable(a) && Dispatchable(b)
    ensures Hears(s, now, a + b) == Hears(Hears(s, now, a), now, b)
    decreases |a|
  {
    hide Hear1, Dispatchable;
    if a == [] {
      assert a + b == b;
    } else {
      assert (a + b)[1..] == a[1..] + b && (a + b)[0] == a[0];
      HearsFirst(s, now, a + b);
      HearsFirst(s, now, a);
      HearsConcat(Hear1(s, now, a[0]), now, a[1..], b);
    }
  }

  lemma {:induction false} HearsUnique(s: Station, now: int, acts: seq<Action>)
    requires Unique(s.entries) && Dispatchable(acts)
    ensures Unique(Hears(s, now, acts).entries) && Hears(s, now, acts).addr == s.addr
    decreases |acts|
  {
    hide Unique, Hear1, Dispatchable;
    if acts != [] {
      HearsFirst(s, now, acts);
      var _ := HearIsLocal(s, now, acts[0], DomainOf(0));
      HearsUnique(Hear1(s, now, acts[0]), now, acts[1..]);
    }
  }

  /** A property of what is found of `key` that no event in `acts` destroys. */
  ghost predicate Stable(p: Option<Entry> -> bool, acts: seq<Action>, key: Key)
    requires Dispatchable(acts)
  {
    forall a: Action, o: Option<Entry>, known: bool | a in acts && p(o) :: p(LocalStep(o, InputOf(a), key, known))
  }

  lemma {:induction false} HearsKeep(s: Station, now: int, acts: seq<Action>, key: Key, p: Option<Entry> -> bool)
    requires Unique(s.entries) && Dispatchable(acts) && Stable(p, acts, key) && p(Find(s.entries, key))
    ensures p(Find(Hears(s, now, acts).entries, key))
    decreases |acts|
  {
    hide Unique, Hear1, Find, LocalStep;
    if acts != [] {
      HearsFirst(s, now, acts);
      var known := HearIsLocal(s, now, acts[0], key);
      assert acts[0] in acts && acts[0] in [acts[0]];
      HearsKeep(Hear1(s, now, acts[0]), now, acts[1..], key, p);
    }
  }
}
