/**
What MSRP keeps over whole runs: one entry per stream and role, a talker entry that always shows the latest talker
declaration, a stream definition that never changes under it, and listeners that wait for their talker.
*/
module MsrpRuns {
  import opened Mrp
  import opened MrpPdu
  import opened MrpParticipant
  import opened MsrpCodec
  import opened MsrpStation

  ghost predicate Unique(es: seq<Entry>) {
    forall i, j | 0 <= i < j < |es| :: KeyOf(es[i].value) != KeyOf(es[j].value)
  }

  /* ---------- what merging keeps and takes ---------- */

  /** A merge never changes what an entry is about. */
  lemma MergeKeepsKey(e: Entry, r: Value, sub: Sub, known: bool)
    requires KeyOf(e.value) == KeyOf(r)
    ensures KeyOf(Merged(e, r, sub, known).value) == KeyOf(r)
  {}

  /** A talker entry shows this declaration: its type and its failure information. */
  predicate Shows(v: Value, r: Value) {
    KeyOf(r).TalkerOf? ==>
      KindOf(v) == KindOf(r) && KeyOf(v) == KeyOf(r) && v.t.bridge == r.t.bridge && v.t.failure == r.t.failure
  }

  lemma MergeShows(e: Entry, r: Value, sub: Sub, known: bool)
    requires KeyOf(e.value) == KeyOf(r)
    ensures Shows(Merged(e, r, sub, known).value, r)
  {}

  /** Everything about a stream but its failure information. */
  function Definition(v: Value): Option<TalkListen> {
    match v
    case TalkerAdv(t) => Some(t.(bridge := ZERO64, failure := 0))
    case TalkerFailed(t) => Some(t.(bridge := ZERO64, failure := 0))
    case _ => None
  }

  lemma MergeKeepsDefinition(e: Entry, r: Value, sub: Sub, known: bool)
    requires KeyOf(e.value) == KeyOf(r)
    ensures Definition(Merged(e, r, sub, known).value) == Definition(e.value)
  {}

  /* ---------- where entries come from ---------- */

  /** The input is a declaration about `key`. */
  predicate About(i: Input, key: Key) {
    i.Attr? && IsAttrEvent(i.ev) && KeyOf(i.value) == key
  }

  /** An entry after a step was there before with the same contents, or the step was a declaration about it. */
  ghost predicate Comes(es: seq<Entry>, i: Input, e: Entry) {
    if About(i, KeyOf(e.value)) then Shows(e.value, i.value)
    else exists k | 0 <= k < |es| :: es[k].value == e.value && es[k].sub == e.sub
  }

  lemma KeptComes(es: seq<Entry>, e: Entry)
    requires e in Kept(es)
    ensures e in es
  {
    if e !in (if Reclaimable(es[0].att) then [] else [es[0]]) {
      KeptComes(es[1..], e);
    }
  }

  lemma SweptComes(es: seq<Entry>, ev: Event, kind: Option<Kind>, e: Entry)
    requires e in SweepKind(es, ev, kind)
    ensures exists k | 0 <= k < |es| :: es[k].value == e.value && es[k].sub == e.sub
  {
    var k :| 0 <= k < |es| && SweepKind(es, ev, kind)[k] == e;
    assert es[k].value == e.value;
  }

  lemma SameComes(es: seq<Entry>, e: Entry)
    requires e in es
    ensures exists k | 0 <= k < |es| :: es[k].value == e.value && es[k].sub == e.sub
  {
    var k :| 0 <= k < |es| && es[k] == e;
    assert es[k].value == e.value;
  }

  lemma AddedComes(es: seq<Entry>, n: Entry, e: Entry)
    requires e in Added(es, n)
    ensures e == n || e in es
  {}

  lemma AddedHas(es: seq<Entry>, n: Entry)
    ensures n in Added(es, n)
  {}

  lemma {:induction false} IndexFinds(es: seq<Entry>, n: Entry)
    requires n in es
    ensures IndexOf(es, KeyOf(n.value)) < |es|
  {}

  /** Bringing the entry for `v` up to date touches no other. */
  lemma CurrentComes(es: seq<Entry>, v: Value, sub: Sub)
    ensures var (r, k) := Current(es, v, sub);
      && k < |r| && KeyOf(r[k].value) == KeyOf(v) && Shows(r[k].value, v)
      && forall e | e in r :: e in es || KeyOf(e.value) == KeyOf(v)
  {
    var k := IndexOf(es, KeyOf(v));
    if k < |es| {
      MergeKeepsKey(es[k], v, sub, TalkerKnown(es, v));
      MergeShows(es[k], v, sub, TalkerKnown(es, v));
    } else {
      var n := Entry(v, sub, FRESH);
      AddedHas(es, n);
      IndexFinds(Added(es, n), n);
      forall e | e in Added(es, n) ensures e in es || e == n {
        AddedComes(es, n, e);
      }
      AddedOnce(es, n);
    }
  }

  lemma AddedOnce(es: seq<Entry>, n: Entry)
    requires IndexOf(es, KeyOf(n.value)) == |es|
    ensures var k := IndexOf(Added(es, n), KeyOf(n.value)); k <= |es| && Added(es, n)[k] == n
  {
    AddedHas(es, n);
    IndexFinds(Added(es, n), n);
    var k := IndexOf(Added(es, n), KeyOf(n.value));
    AddedComes(es, n, Added(es, n)[k]);
  }

  lemma AttrComes(s: Station, now: int, i: Input, e: Entry)
    requires i.Attr? && IsAttrEvent(i.ev) && e in AttrStep(s, now, i.ev, i.value, i.sub).next.entries
    requires Unique(s.entries)
    ensures Comes(s.entries, i, e)
  {
    var (es, k) := Current(s.entries, i.value, i.sub);
    CurrentComes(s.entries, i.value, i.sub);
    CurrentUnique(s.entries, i.value, i.sub);
    var b := es[k].(att := Handled(i.ev, es[k].att));
    if e != b {
      var next := AttrStep(s, now, i.ev, i.value, i.sub).next.entries;
      var m :| 0 <= m < |next| && next[m] == e;
      OtherEntry(es, k, b, e);
      SameComes(s.entries, e);
    }
  }

  /** An entry other than the one handled has another key and was there before. */
  lemma OtherEntry(es: seq<Entry>, k: nat, b: Entry, e: Entry)
    requires k < |es| && Unique(es) && KeyOf(b.value) == KeyOf(es[k].value)
    requires e != b && (e in es[k := b] || e in es[..k] + es[k + 1..])
    ensures e in es && KeyOf(e.value) != KeyOf(b.value)
  {
    if e in es[k := b] {
      var m :| 0 <= m < |es| && es[k := b][m] == e;
      assert m != k && es[m] == e;
    } else {
      var t := es[..k] + es[k + 1..];
      var m :| 0 <= m < |t| && t[m] == e;
      assert t[m] == es[if m < k then m else m + 1];
    }
  }

  lemma SplicedUnique(es: seq<Entry>, k: nat, n: Entry)
    requires Unique(es) && k <= |es| && forall i | 0 <= i < |es| :: KeyOf(es[i].value) != KeyOf(n.value)
    ensures Unique(es[..k] + [n] + es[k..])
  {}

  lemma CurrentUnique(es: seq<Entry>, v: Value, sub: Sub)
    requires Unique(es)
    ensures Unique(Current(es, v, sub).0)
  {
    var k := IndexOf(es, KeyOf(v));
    if k < |es| {
      MergeKeepsKey(es[k], v, sub, TalkerKnown(es, v));
    } else {
      var n := Entry(v, sub, FRESH);
      SplicedUnique(es, Order.PlaceFrom(Shapes(es), 0, Shape(v)), n);
    }
  }

  lemma AddedThere(es: seq<Entry>, n: Entry, p: nat, j: nat)
    requires p == Order.PlaceFrom(Shapes(es), 0, Shape(n.value)) && j <= |es|
    ensures Added(es, n)[j] == if j < p then es[j] else if j == p then n else es[j - 1]
  {}

  /** A new entry stands where it was put. */
  lemma AddedAt(es: seq<Entry>, n: Entry)
    requires IndexOf(es, KeyOf(n.value)) == |es|
    ensures IndexOf(Added(es, n), KeyOf(n.value)) == Order.PlaceFrom(Shapes(es), 0, Shape(n.value))
  {
    hide Added, Shape;
    AddedOnce(es, n);
    var p, k := Order.PlaceFrom(Shapes(es), 0, Shape(n.value)), IndexOf(Added(es, n), KeyOf(n.value));
    AddedThere(es, n, p, p);
    AddedThere(es, n, p, k);
  }

  lemma {:induction false} KeptUnique(es: seq<Entry>)
    requires Unique(es)
    ensures Unique(Kept(es))
  {
    if es != [] {
      KeptUnique(es[1..]);
      var rest := Kept(es[1..]);
      assert Kept(es) == if Reclaimable(es[0].att) then rest else [es[0]] + rest;
      forall m | 0 <= m < |rest| ensures KeyOf(rest[m].value) != KeyOf(es[0].value) {
        KeptComes(es[1..], rest[m]);
      }
    }
  }

  lemma SweptUnique(es: seq<Entry>, ev: Event, kind: Option<Kind>)
    requires Unique(es)
    ensures Unique(SweepKind(es, ev, kind))
  {
    var r := SweepKind(es, ev, kind);
    forall i, j | 0 <= i < j < |r| ensures KeyOf(r[i].value) != KeyOf(r[j].value) {
      assert r[i].value == es[i].value && r[j].value == es[j].value;
    }
  }

  lemma AttrUnique(s: Station, now: int, ev: Event, v: Value, sub: Sub)
    requires Unique(s.entries)
    ensures Unique(AttrStep(s, now, ev, v, sub).next.entries)
  {
    var (es, k) := Current(s.entries, v, sub);
    CurrentComes(s.entries, v, sub);
    CurrentUnique(s.entries, v, sub);
    RemovedUnique(es, k);
    UpdatedUnique(es, k, es[k].(att := Handled(ev, es[k].att)));
  }

  lemma RemovedUnique(es: seq<Entry>, k: nat)
    requires Unique(es) && k < |es|
    ensures Unique(es[..k] + es[k + 1..])
  {}

  lemma UpdatedUnique(es: seq<Entry>, k: nat, b: Entry)
    requires Unique(es) && k < |es| && KeyOf(b.value) == KeyOf(es[k].value)
    ensures Unique(es[k := b])
  {}

  /** Every step leaves one entry a key. */
  lemma StepUnique(s: Station, now: int, i: Input)
    requires Unique(s.entries)
    ensures Unique(Step(s, now, i).next.entries)
  {
    match i
    case Attr(ev, v, sub) => if IsAttrEvent(ev) { AttrUnique(s, now, ev, v, sub); }
    case LeaveAllExpiry => SweptUnique(s.entries, TxLA, None);
    case LeaveAllHeard(kind) => SweptUnique(s.entries, RLA, Some(kind));
    case TxOpportunity => SweptUnique(s.entries, Tx, None);
    case LeaveExpiry => SweptUnique(s.entries, LvTimer, None); KeptUnique(SweepKind(s.entries, LvTimer, None));
    case Reclaim => KeptUnique(s.entries);
    case PeriodicExpiry =>
  }

  /** And every entry it leaves was there before or shows the declaration that was just made about it. */
  lemma StepComes(s: Station, now: int, i: Input, e: Entry)
    requires Unique(s.entries) && e in Step(s, now, i).next.entries
    ensures Comes(s.entries, i, e)
  {
    match i
    case Attr(ev, v, sub) => if IsAttrEvent(ev) { AttrComes(s, now, i, e); } else { SameComes(s.entries, e); }
    case LeaveAllExpiry => SweptComes(s.entries, TxLA, None, e);
    case LeaveAllHeard(kind) => SweptComes(s.entries, RLA, Some(kind), e);
    case TxOpportunity => SweptComes(s.entries, Tx, None, e);
    case LeaveExpiry => KeptComes(SweepKind(s.entries, LvTimer, None), e); SweptComes(s.entries, LvTimer, None, e);
    case Reclaim => KeptComes(s.entries, e); SameComes(s.entries, e);
    case PeriodicExpiry => SameComes(s.entries, e);
  }

  /* ---------- runs ---------- */

  datatype TimedInput = TimedInput(now: int, input: Input)

  function Init(addr: seq<byte>): Station {
    Station(addr, [], false, Stopped, true)
  }

  function Run(s: Station, inputs: seq<TimedInput>): Station {
    if inputs == [] then s
    else
      var last := inputs[|inputs| - 1];
      Step(Run(s, inputs[..|inputs| - 1]), last.now, last.input).next
  }

  /** The last declaration about `key` in a run. */
  function Latest(inputs: seq<TimedInput>, key: Key): Option<Value> {
    if inputs == [] then None
    else
      var last := inputs[|inputs| - 1].input;
      if About(last, key) then Some(last.value) else Latest(inputs[..|inputs| - 1], key)
  }

  /** In every run no two entries share a key: one talker entry a stream, advertised or failed. */
  lemma {:induction false} OneEntryPerKey(addr: seq<byte>, inputs: seq<TimedInput>)
    ensures Unique(Run(Init(addr), inputs).entries)
  {
    if inputs != [] {
      var last := inputs[|inputs| - 1];
      OneEntryPerKey(addr, inputs[..|inputs| - 1]);
      StepUnique(Run(Init(addr), inputs[..|inputs| - 1]), last.now, last.input);
    }
  }

  /**
  In every run each entry was declared, and a talker entry's type and failure information are those of the latest
  talker declaration for its stream.
  */
  lemma {:induction false} TalkerShowsLatest(addr: seq<byte>, inputs: seq<TimedInput>, e: Entry)
    requires e in Run(Init(addr), inputs).entries
    ensures var latest := Latest(inputs, KeyOf(e.value)); latest.Some? && Shows(e.value, latest.value)
  {
    if inputs != [] {
      var last, before := inputs[|inputs| - 1], Run(Init(addr), inputs[..|inputs| - 1]);
      OneEntryPerKey(addr, inputs[..|inputs| - 1]);
      StepComes(before, last.now, last.input, e);
      if !About(last.input, KeyOf(e.value)) {
        var k :| 0 <= k < |before.entries| && before.entries[k].value == e.value;
        TalkerShowsLatest(addr, inputs[..|inputs| - 1], before.entries[k]);
      }
    }
  }

  /* ---------- what one declaration does to its entry ---------- */

  function Find(es: seq<Entry>, key: Key): Option<Entry> {
    var k := IndexOf(es, key);
    if k < |es| then Some(es[k]) else None
  }

  lemma FindIs(es: seq<Entry>, k: nat)
    requires Unique(es) && k < |es|
    ensures Find(es, KeyOf(es[k].value)) == Some(es[k])
  {}

  lemma FindCut(es: seq<Entry>, k: nat)
    requires Unique(es) && k < |es|
    ensures Find(es[..k] + es[k + 1..], KeyOf(es[k].value)) == None
  {
    var t := es[..k] + es[k + 1..];
    forall m | 0 <= m < |t| ensures KeyOf(t[m].value) != KeyOf(es[k].value) {
      assert t[m] == es[if m < k then m else m + 1];
    }
  }

  /** What is found of a declared key: the merged entry with its machines moved, unless nobody needs it any more. */
  lemma DeclarationFound(s: Station, now: int, ev: Event, v: Value, sub: Sub)
    requires Unique(s.entries) && IsAttrEvent(ev)
    ensures var was := Find(s.entries, KeyOf(v));
            var e := if was.Some? then Merged(was.value, v, sub, TalkerKnown(s.entries, v)) else Entry(v, sub, FRESH);
            var b := e.(att := Handled(ev, e.att));
      Find(AttrStep(s, now, ev, v, sub).next.entries, KeyOf(v)) == if Reclaimable(b.att) then None else Some(b)
  {
    hide Merged, Handled, HandledNotify, RegEvent, StartsLeaveTimer, Reclaimable, Unique, KeyOf, Added, Shows;
    var (es, k) := Current(s.entries, v, sub);
    CurrentComes(s.entries, v, sub);
    CurrentUnique(s.entries, v, sub);
    if IndexOf(s.entries, KeyOf(v)) == |s.entries| {
      AddedOnce(s.entries, Entry(v, sub, FRESH));
    }
    var b := es[k].(att := Handled(ev, es[k].att));
    FindCut(es, k);
    UpdatedUnique(es, k, b);
    FindIs(es[k := b], k);
  }

  /** While an entry is there, declarations about it never change the definition of its stream. */
  lemma DefinitionSticks(s: Station, now: int, ev: Event, v: Value, sub: Sub)
    requires Unique(s.entries) && IsAttrEvent(ev)
    ensures var was, now' := Find(s.entries, KeyOf(v)), Find(AttrStep(s, now, ev, v, sub).next.entries, KeyOf(v));
      was.Some? && now'.Some? ==> Definition(now'.value.value) == Definition(was.value.value)
  {
    DeclarationFound(s, now, ev, v, sub);
    var was := Find(s.entries, KeyOf(v));
    if was.Some? {
      MergeKeepsDefinition(was.value, v, sub, TalkerKnown(s.entries, v));
    }
  }

  /** A listener takes a new sub-state except when it is asking, failed, and its talker is not known. */
  lemma ListenerWaitsForTalker(s: Station, now: int, ev: Event, v: Value, sub: Sub)
    requires Unique(s.entries) && IsAttrEvent(ev) && v.Listener?
    ensures var was, now' := Find(s.entries, KeyOf(v)), Find(AttrStep(s, now, ev, v, sub).next.entries, KeyOf(v));
      was.Some? && now'.Some? ==>
        (now'.value.sub == sub <==>
           was.value.sub == sub || was.value.sub != ASKING_FAILED || Find(s.entries, TalkerOf(v.t.streamId)).Some?)
  {
    DeclarationFound(s, now, ev, v, sub);
  }

  /**
  A peer that still declares a registered talker with In or Mt, but has changed its type, loses it here exactly when
  no local declaration keeps it: the forced notify has emptied the registrar before the reclaim test.
  */
  lemma TypeChangeDrops(s: Station, now: int, ev: Event, v: Value, sub: Sub)
    requires Unique(s.entries) && (ev == RIn || ev == RMt) && KeyOf(v).TalkerOf?
    requires Find(s.entries, KeyOf(v)).Some? && Find(s.entries, KeyOf(v)).value.att.reg == IN
    ensures var was := Find(s.entries, KeyOf(v)).value;
      Find(AttrStep(s, now, ev, v, sub).next.entries, KeyOf(v)) == None
      <==> KindOf(was.value) != KindOf(v) && (was.att.app in {VO, AO, QO} || (ev == RMt && was.att.app == LO))
  {
    hide AttrStep, Find, Unique, Merged, Reclaimable, Handled, KindOf, IsAttrEvent;
    Hearable(ev);
    DeclarationFound(s, now, ev, v, sub);
    FindsKey(s.entries, KeyOf(v));
    MergedTalker(Find(s.entries, KeyOf(v)).value, v, sub, TalkerKnown(s.entries, v));
    HearingDrops(ev, Find(s.entries, KeyOf(v)).value.att);
  }

  lemma Hearable(ev: Event)
    requires ev == RIn || ev == RMt
    ensures IsAttrEvent(ev)
  {}

  lemma FindsKey(es: seq<Entry>, key: Key)
    requires Find(es, key).Some?
    ensures KeyOf(Find(es, key).value.value) == key
  {}

  /** A merge of talkers empties the registrar exactly if the type changes. */
  lemma MergedTalker(e: Entry, v: Value, sub: Sub, known: bool)
    requires KeyOf(e.value) == KeyOf(v) && KeyOf(v).TalkerOf?
    ensures Merged(e, v, sub, known).att == if KindOf(e.value) == KindOf(v) then e.att else e.att.(reg := MT)
  {}

  lemma HearingDrops(ev: Event, a: Att)
    requires (ev == RIn || ev == RMt) && a.reg == IN
    ensures !Reclaimable(Handled(ev, a))
    ensures Reclaimable(Handled(ev, a.(reg := MT))) <==> a.app in {VO, AO, QO} || (ev == RMt && a.app == LO)
  {}
}
