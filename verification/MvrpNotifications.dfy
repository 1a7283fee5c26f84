/** What a client attached throughout a run was last told about each VID. */
module MvrpNotifications {
  import opened Mrp
  import opened MrpPdu
  import opened MvrpCodec
  import opened MrpParticipant
  import opened MvrpStation
  import opened MvrpPointwise

  function NoteFor(n: Note, v: u16): seq<Notify> {
    if n.vid == v then [n.kind] else []
  }

  function NotesFor(notes: seq<Note>, v: u16): seq<Notify> {
    if notes == [] then [] else NoteFor(notes[0], v) + NotesFor(notes[1..], v)
  }

  lemma {:induction false} NotesForConcat(a: seq<Note>, b: seq<Note>, v: u16)
    ensures NotesFor(a + b, v) == NotesFor(a, v) + NotesFor(b, v)
  {
    if a == [] {
      assert a + b == b;
    } else {
      hide NotesFor;
      NotesForConcat(a[1..], b, v);
      NotesForFirst(a, v);
      NotesForFirst(a + b, v);
      assert (a + b)[1..] == a[1..] + b && (a + b)[0] == a[0];
      Associate(NoteFor(a[0], v), NotesFor(a[1..], v), NotesFor(b, v));
    }
  }

  lemma NotesForFirst(notes: seq<Note>, v: u16)
    requires notes != []
    ensures NotesFor(notes, v) == NoteFor(notes[0], v) + NotesFor(notes[1..], v)
  {}

  /** The notifications one event raises about `v`, from the entry of `v` alone. */
  function LocalNotes(o: Option<Att>, i: Input, v: u16): seq<Notify> {
    match i
    case LeaveExpiry =>
      if o.None? then []
      else if Reclaimable(Swept(LvTimer, o.value)) || o.value.reg == LV then [NotifyLv]
      else []
    case Attr(ev, u) =>
      if u != v || !IsAttrEvent(ev) then []
      else
        var a := if o.Some? then o.value else FRESH;
        if Reclaimable(Handled(ev, a)) then [NotifyLv]
        else if HandledNotify(ev, a) == NotifyNone then []
        else [HandledNotify(ev, a)]
    case Reclaim => if o.Some? && Reclaimable(o.value) then [NotifyLv] else []
    case _ => []
  }

  function RemovalNote(o: Option<Att>): seq<Notify> {
    if o.Some? && Reclaimable(o.value) then [NotifyLv] else []
  }

  lemma {:induction false} RemovalsFor(es: seq<Entry>, v: u16)
    requires Sorted(es)
    ensures NotesFor(Removals(es), v) == RemovalNote(Find(es, v))
  {
    if es != [] {
      RemovalsFor(es[1..], v);
      var head := if Reclaimable(es[0].att) then [Note(es[0].vid, NotifyLv)] else [];
      NotesForConcat(head, Removals(es[1..]), v);
      if es[0].vid == v {
        FindBelow(es[1..], v);
      }
    }
  }

  function LeaveNote(o: Option<Att>): seq<Notify> {
    if o.Some? && o.value.reg == LV && !Reclaimable(Swept(LvTimer, o.value)) then [NotifyLv] else []
  }

  lemma {:induction false} LeaveNotesFor(es: seq<Entry>, v: u16)
    requires Sorted(es)
    ensures NotesFor(LeaveNotes(es), v) == LeaveNote(Find(es, v))
  {
    if es != [] {
      LeaveNotesFor(es[1..], v);
      var a := es[0].att;
      var head := if a.reg == LV && !Reclaimable(Swept(LvTimer, a)) then [Note(es[0].vid, NotifyLv)] else [];
      NotesForConcat(head, LeaveNotes(es[1..]), v);
      if es[0].vid == v {
        FindBelow(es[1..], v);
      }
    }
  }

  lemma {:induction false} NotesArePointwise(s: Station, now: int, i: Input, v: u16)
    requires Sorted(s.entries)
    ensures NotesFor(Step(s, now, i).notes, v) == LocalNotes(Find(s.entries, v), i, v)
  {
    match i
    case LeaveExpiry =>
      var swept := Sweep(s.entries, LvTimer);
      NotesForConcat(Removals(swept), LeaveNotes(s.entries), v);
      RemovalsFor(swept, v);
      LeaveNotesFor(s.entries, v);
      FindSweep(s.entries, LvTimer, v);
    case Reclaim => RemovalsFor(s.entries, v);
    case Attr(ev, u) => assert NotesFor([], v) == [];
    case _ =>
  }

  /** The last thing a run said about `v`. */
  function LastNote(s: Station, trace: seq<TimedInput>, v: u16): Option<Notify> {
    if trace == [] then None
    else
      var before, last := trace[..|trace| - 1], trace[|trace| - 1];
      var said := NotesFor(Step(Run(s, before), last.now, last.input).notes, v);
      if said != [] then Some(said[|said| - 1]) else LastNote(s, before, v)
  }

  predicate Mentions(i: Input, v: u16) {
    i.Attr? && i.vid == v && IsAttrEvent(i.ev)
  }

  /** `v` occurred in a request or a received event of the run. */
  predicate Mentioned(trace: seq<TimedInput>, v: u16) {
    trace != [] && (Mentions(trace[|trace| - 1].input, v) || Mentioned(trace[..|trace| - 1], v))
  }

  /** What the client's knowledge must be for the state of `v`. */
  predicate Informed(o: Option<Att>, told: Option<Notify>, mentioned: bool) {
    if !mentioned then o.None? && told.None?
    else if o.None? then told == Some(NotifyLv)
    else
      match o.value.reg
      case IN => told in {Some(NotifyNew), Some(NotifyJoin)}
      case LV => told in {Some(NotifyNew), Some(NotifyJoin), Some(NotifyLv)}
      case MT => told in {Some(NotifyNew), Some(NotifyLv)}
  }

  lemma LocalInformed(o: Option<Att>, told: Option<Notify>, mentioned: bool, i: Input, v: u16)
    requires Informed(o, told, mentioned)
    ensures var said := LocalNotes(o, i, v);
      Informed(LocalStep(o, i, v), if said != [] then Some(said[|said| - 1]) else told, mentioned || Mentions(i, v))
  {}

  /**
  In every run: a VID whose registrar is IN last produced New or Join, one that is back to MT last produced Leave or a
  local New, one that was removed last produced Leave, and one never mentioned produced nothing.
  */
  lemma {:induction false} NotificationsSound(addr: seq<byte>, trace: seq<TimedInput>, v: u16)
    ensures Informed(Find(Run(Init(addr), trace).entries, v), LastNote(Init(addr), trace, v), Mentioned(trace, v))
  {
    if trace != [] {
      var before, last := trace[..|trace| - 1], trace[|trace| - 1];
      var s := Run(Init(addr), before);
      NotificationsSound(addr, before, v);
      RunIsPointwise(Init(addr), before, v);
      StepIsPointwise(s, last.now, last.input, v);
      NotesArePointwise(s, last.now, last.input, v);
      LocalInformed(Find(s.entries, v), LastNote(Init(addr), before, v), Mentioned(before, v), last.input, v);
    }
  }
}
