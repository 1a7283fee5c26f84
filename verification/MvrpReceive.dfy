/**
mvrp_recv_msg of daemons/mrpd/mvrp.c: the frame is walked byte by byte and every event it holds is dispatched to the
database as it is found. The events are those Decode lists, and the walk ends on every frame.
*/
module MvrpReceive {
  import opened Mrp
  import opened MrpPdu
  import opened MvrpCodec
  import opened MrpParticipant
  import opened MvrpStation
  import opened MvrpDaemon

  /** The notifications that dispatching raises. */
  function HeardNotes(s: Station, now: int, actions: seq<Action>): seq<Note>
    requires Dispatchable(actions)
    decreases |actions|
  {
    if actions == [] then []
    else
      var o := Step(s, now, InputOf(actions[0]));
      o.notes + HeardNotes(o.next, now, actions[1..])
  }

  predicate DispatchableAction(a: Action) {
    a.Hear? ==> a.vid <= MAX_VID && a.code < 6
  }

  lemma {:induction false} HearsOneMore(s: Station, now: int, actions: seq<Action>, a: Action)
    requires Dispatchable(actions) && DispatchableAction(a)
    ensures Dispatchable(actions + [a])
    ensures var o := Step(Hears(s, now, actions), now, InputOf(a));
      && Hears(s, now, actions + [a]) == o.next
      && HeardNotes(s, now, actions + [a]) == HeardNotes(s, now, actions) + o.notes
    decreases |actions|
  {
    if actions == [] {
      assert [] + [a] == [a] && [a][1..] == [];
    } else {
      var o := Step(s, now, InputOf(actions[0]));
      HearsOneMore(o.next, now, actions[1..], a);
      assert (actions + [a])[1..] == actions[1..] + [a];
    }
  }

  /** The VID that follows `m` values from `vid`. */
  function Advance(vid: nat, m: nat): nat {
    if vid > MAX_VID then vid else if vid + m > MAX_VID then MAX_VID + 1 else vid + m
  }

  lemma {:induction false} ActionsSplit(a: seq<nat>, b: seq<nat>, vid: nat)
    ensures Actions(a + b, vid) == Actions(a, vid) + Actions(b, Advance(vid, |a|))
  {
    if a == [] {
      assert a + b == b;
    } else {
      var next := if vid > MAX_VID then vid else vid + 1;
      assert (a + b)[1..] == a[1..] + b && (a + b)[0] == a[0];
      ActionsSplit(a[1..], b, next);
      var head := if vid <= MAX_VID && a[0] < 6 then [Hear(vid, a[0])] else [];
      assert Actions(a, vid) == head + Actions(a[1..], next);
      assert Actions(a + b, vid) == head + Actions(a[1..] + b, next);
      Associate(head, Actions(a[1..], next), Actions(b, Advance(vid, |a|)));
    }
  }

  /** The database is where dispatching `done` from `s0` takes it. */
  ghost predicate Heard(db: Database, s0: Station, notes0: seq<Note>, now: int, done: seq<Action>)
    reads db
  {
    && db.Valid() && Dispatchable(done)
    && db.Abstract() == Hears(s0, now, done) && db.notes == notes0 + HeardNotes(s0, now, done)
  }

  method Dispatch(db: Database, a: Action, now: int, ghost s0: Station, ghost notes0: seq<Note>,
                  ghost done: seq<Action>)
    requires Heard(db, s0, notes0, now, done) && DispatchableAction(a)
    modifies db
    ensures Heard(db, s0, notes0, now, done + [a]) && db.sent == old(db.sent)
  {
    HearsOneMore(s0, now, done, a);
    db.Event(now, InputOf(a));
  }

  /** One event value for `vid`. */
  method RecvEvent(db: Database, code: nat, vid: nat, now: int,
                   ghost s0: Station, ghost notes0: seq<Note>, ghost done: seq<Action>)
    returns (next: nat)
    requires Heard(db, s0, notes0, now, done)
    modifies db
    ensures Heard(db, s0, notes0, now, done + Actions([code], vid)) && db.sent == old(db.sent)
    ensures next == Advance(vid, 1)
  {
    next := vid;
    assert [code][1..] == [];
    if vid <= MAX_VID {
      if code < 6 {
        assert Actions([code], vid) == [Hear(vid, code)];
        Dispatch(db, Hear(vid, code), now, s0, notes0, done);
      } else {
        assert done + [] == done;
      }
      next := vid + 1;
    } else {
      assert done + [] == done;
    }
  }

  lemma OneMoreEvent(vectevt: seq<nat>, i: nat, first: nat, done: seq<Action>)
    requires i < |vectevt|
    ensures done + Actions(vectevt[..i + 1], first)
         == done + Actions(vectevt[..i], first) + Actions([vectevt[i]], Advance(first, i))
    ensures Advance(Advance(first, i), 1) == Advance(first, i + 1)
  {
    assert vectevt[..i + 1] == vectevt[..i] + [vectevt[i]];
    ActionsSplit(vectevt[..i], [vectevt[i]], first);
    Associate(done, Actions(vectevt[..i], first), Actions([vectevt[i]], Advance(first, i)));
  }

  /** The events of one byte, or of what of it is in use. */
  method RecvEvents(db: Database, vectevt: seq<nat>, first: nat, now: int,
                    ghost s0: Station, ghost notes0: seq<Note>, ghost done: seq<Action>)
    returns (vid: nat)
    requires Heard(db, s0, notes0, now, done)
    modifies db
    ensures Heard(db, s0, notes0, now, done + Actions(vectevt, first)) && db.sent == old(db.sent)
    ensures vid == Advance(first, |vectevt|)
  {
    vid := first;
    var i := 0;
    assert vectevt[..0] == [] && done + [] == done;
    while i < |vectevt|
      invariant i <= |vectevt| && vid == Advance(first, i)
      invariant Heard(db, s0, notes0, now, done + Actions(vectevt[..i], first)) && db.sent == old(db.sent)
    {
      OneMoreEvent(vectevt, i, first, done);
      vid := RecvEvent(db, vectevt[i], vid, now, s0, notes0, done + Actions(vectevt[..i], first));
      i := i + 1;
    }
    assert vectevt[..|vectevt|] == vectevt;
  }

  /** Reading on from byte `b` of the events with `left` values to go. */
  ghost function EventsFrom(f: seq<byte>, b: nat, left: nat, vid: nat): seq<Action> {
    Actions(CodesAt(f, b, left), vid)
  }

  lemma EventsSplit(f: seq<byte>, b: nat, left: nat, vid: nat, done: seq<Action>)
    ensures var now := Unpack3(At(f, b))[..Min3(left)];
      done + EventsFrom(f, b, left, vid)
      == done + Actions(now, vid) + EventsFrom(f, b + 1, left - Min3(left), Advance(vid, Min3(left)))
  {
    var now := Unpack3(At(f, b))[..Min3(left)];
    ActionsSplit(now, CodesAt(f, b + 1, left - Min3(left)), vid);
    Associate(done, Actions(now, vid), EventsFrom(f, b + 1, left - Min3(left), Advance(vid, Min3(left))));
    if left == 0 {
      assert now + CodesAt(f, b + 1, 0) == [];
    }
  }

  /** The vector at `p` with its `n` values: the loop over its event bytes reads one byte more than it uses. */
  method RecvVector(db: Database, f: seq<byte>, p: nat, n: nat, now: int,
                    ghost s0: Station, ghost notes0: seq<Note>, ghost done: seq<Action>)
    returns (next: nat)
    requires Heard(db, s0, notes0, now, done)
    modifies db
    ensures Heard(db, s0, notes0, now, done + Actions(CodesAt(f, p + 4, n), WordAt(f, p + 2)))
    ensures db.sent == old(db.sent)
    ensures next == p + VecSize(n)
  {
    hide Heard, Advance;
    var numvectorbytes := if n % 3 != 0 then n / 3 + 1 else n / 3;
    var vid: nat, left := WordAt(f, p + 2), n;
    var vectidx := 2;
    ghost var sofar := done;
    while vectidx <= numvectorbytes + 2
      invariant 2 <= vectidx <= numvectorbytes + 3
      invariant left == if n > 3 * (vectidx - 2) then n - 3 * (vectidx - 2) else 0
      invariant sofar + EventsFrom(f, p + vectidx + 2, left, vid)
             == done + Actions(CodesAt(f, p + 4, n), WordAt(f, p + 2))
      invariant Heard(db, s0, notes0, now, sofar) && db.sent == old(db.sent)
    {
      var processed := Min3(left);
      var vectevt := Unpack3(At(f, p + vectidx + 2))[..processed];
      EventsSplit(f, p + vectidx + 2, left, vid, sofar);
      ghost var first := vid;
      vid := RecvEvents(db, vectevt, vid, now, s0, notes0, sofar);
      sofar := sofar + Actions(vectevt, first);
      left := left - processed;
      vectidx := vectidx + 1;
    }
    assert sofar + [] == sofar;
    next := p + 4 + numvectorbytes;
  }

  /** Where decoding stands: `sofar` is dispatched, and with what `rest` decodes it makes the whole. */
  ghost predicate Decoding(sofar: seq<Action>, rest: Decoded, done: seq<Action>, whole: Decoded) {
    && sofar + rest.actions == done + whole.actions
    && rest.ok == whole.ok && rest.ptr == whole.ptr && rest.saw == whole.saw
  }

  lemma DecodingStart(done: seq<Action>, whole: Decoded)
    ensures Decoding(done, whole, done, whole)
  {}

  lemma VectorsEnd(f: seq<byte>, p: nat, saw: bool, sofar: seq<Action>, done: seq<Action>, whole: Decoded)
    requires EndMarkAt(f, p) && Decoding(sofar, DecodeVectors(f, p, saw), done, whole)
    ensures sofar == done + whole.actions && whole.ok && p == whole.ptr && saw == whole.saw
  {
    assert sofar + [] == sofar;
  }

  /** The LeaveAll event and the runs-off test of the vector at `p`. */
  lemma VectorDecodes(f: seq<byte>, p: nat, saw: bool, sofar: seq<Action>, done: seq<Action>, whole: Decoded)
    requires !EndMarkAt(f, p) && Decoding(sofar, DecodeVectors(f, p, saw), done, whole)
    ensures var h := WordAt(f, p); var n := NumValues(h); var first := sofar + LvaAction(h, saw);
      if RunsOff(f, p, n) then first == done + whole.actions && !whole.ok
      else Decoding(first + Actions(CodesAt(f, p + 4, n), WordAt(f, p + 2)),
                    DecodeVectors(f, p + VecSize(n), saw || IsLva(h)), done, whole)
  {
    var h := WordAt(f, p);
    var n := NumValues(h);
    var lva, acts := LvaAction(h, saw), Actions(CodesAt(f, p + 4, n), WordAt(f, p + 2));
    if !RunsOff(f, p, n) {
      var rest := DecodeVectors(f, p + VecSize(n), saw || IsLva(h)).actions;
      Associate(sofar, lva + acts, rest);
      Associate(sofar, lva, acts);
    }
  }

  /** The LeaveAll flag counts once a frame. */
  method RecvLeaveAll(db: Database, header: u16, saw: bool, now: int,
                      ghost s0: Station, ghost notes0: seq<Note>, ghost done: seq<Action>)
    returns (saw': bool)
    requires Heard(db, s0, notes0, now, done)
    modifies db
    ensures Heard(db, s0, notes0, now, done + LvaAction(header, saw)) && db.sent == old(db.sent)
    ensures saw' == (saw || IsLva(header))
  {
    saw' := saw;
    if IsLva(header) && !saw {
      saw' := true;
      Dispatch(db, HearLeaveAll, now, s0, notes0, done);
    } else {
      assert done + [] == done;
    }
  }

  /** The vectors of one message. */
  method RecvVectors(db: Database, f: seq<byte>, start: nat, saw0: bool, now: int,
                     ghost s0: Station, ghost notes0: seq<Note>, ghost done: seq<Action>)
    returns (ok: bool, p: nat, saw: bool)
    requires Heard(db, s0, notes0, now, done)
    modifies db
    ensures Heard(db, s0, notes0, now, done + DecodeVectors(f, start, saw0).actions) && db.sent == old(db.sent)
    ensures var d := DecodeVectors(f, start, saw0); ok == d.ok && (ok ==> p == d.ptr && saw == d.saw)
  {
    hide CodesAt, Actions, LvaAction, Decoding, Heard, DecodeVectors;
    ghost var whole := DecodeVectors(f, start, saw0);
    ghost var sofar := done;
    ok, p, saw := true, start, saw0;
    DecodingStart(done, whole);
    while !EndMarkAt(f, p)
      invariant Decoding(sofar, DecodeVectors(f, p, saw), done, whole)
      invariant Heard(db, s0, notes0, now, sofar) && db.sent == old(db.sent)
      decreases if p < |f| then |f| - p else 0
    {
      VectorDecodes(f, p, saw, sofar, done, whole);
      var h := WordAt(f, p);
      var n := NumValues(h);
      ghost var lva := LvaAction(h, saw);
      saw := RecvLeaveAll(db, h, saw, now, s0, notes0, sofar);
      sofar := sofar + lva;
      if n == 0 || p + 2 + n / 3 >= |f| {
        ok := false;
        break;
      }
      ghost var acts := Actions(CodesAt(f, p + 4, n), WordAt(f, p + 2));
      p := RecvVector(db, f, p, n, now, s0, notes0, sofar);
      sofar := sofar + acts;
    }
    if ok {
      VectorsEnd(f, p, saw, sofar, done, whole);
    }
  }

  /** A VID message at `p`. */
  lemma MessageDecodes(f: seq<byte>, p: nat, endmarks: nat, saw: bool, sofar: seq<Action>, whole: Decoded)
    requires p + ENDMARK_SIZE < |f| && At(f, p) == VID_TYPE && At(f, p + 1) == 2
    requires Decoding(sofar, DecodeMessages(f, p, endmarks, saw), [], whole)
    ensures var v := DecodeVectors(f, p + 2, saw);
      if v.ok then Decoding(sofar + v.actions, DecodeMessages(f, v.ptr, 0, v.saw), [], whole)
      else sofar + v.actions == whole.actions && !whole.ok
  {
    var v := DecodeVectors(f, p + 2, saw);
    if v.ok {
      Associate(sofar, v.actions, DecodeMessages(f, v.ptr, 0, v.saw).actions);
    } else {
      assert [] + whole.actions == whole.actions;
    }
  }

  predicate IsVidMessage(f: seq<byte>, p: nat) {
    At(f, p) == VID_TYPE && At(f, p + 1) == 2
  }

  predicate IsMalformed(f: seq<byte>, p: nat) {
    !IsVidMessage(f, p) && (At(f, p) == VID_TYPE || At(f, ETH_HEADER_SIZE) == 0)
  }

  lemma MessagesStart(whole: Decoded)
    ensures Decoding([], whole, [], whole)
  {}

  /** Where nothing is dispatched: end marks, malformed and unknown messages, and the end. */
  lemma OtherDecodes(f: seq<byte>, p: nat, endmarks: nat, saw: bool, sofar: seq<Action>, whole: Decoded)
    requires Decoding(sofar, DecodeMessages(f, p, endmarks, saw), [], whole)
    ensures p + ENDMARK_SIZE >= |f| ==> sofar == whole.actions && whole.ok
    ensures p + ENDMARK_SIZE < |f| && EndMarkAt(f, p) ==>
              if endmarks + 1 < 2 then Decoding(sofar, DecodeMessages(f, p + 2, endmarks + 1, saw), [], whole)
              else sofar == whole.actions && whole.ok
    ensures p + ENDMARK_SIZE < |f| && !EndMarkAt(f, p) && IsMalformed(f, p) ==> sofar == whole.actions && !whole.ok
    ensures p + ENDMARK_SIZE < |f| && !EndMarkAt(f, p) && !IsVidMessage(f, p) && !IsMalformed(f, p) ==>
              Decoding(sofar, DecodeMessages(f, SkipUnknown(f, p), 0, saw), [], whole)
  {
    assert [] + whole.actions == whole.actions;
    assert sofar + [] == sofar;
  }

  /** The message list: walked until the end of the PDU or a double end mark. */
  method RecvMessages(db: Database, f: seq<byte>, now: int, ghost s0: Station, ghost notes0: seq<Note>)
    returns (ok: bool)
    requires Heard(db, s0, notes0, now, [])
    modifies db
    ensures var d := DecodeMessages(f, MESSAGE_LIST, 0, false);
      Heard(db, s0, notes0, now, d.actions) && ok == d.ok && db.sent == old(db.sent)
  {
    hide DecodeMessages, Decoding, Heard;
    ghost var whole := DecodeMessages(f, MESSAGE_LIST, 0, false);
    ghost var sofar := [];
    MessagesStart(whole);
    var p: nat, endmarks: nat, saw := MESSAGE_LIST, 0, false;
    ok := true;
    while p + ENDMARK_SIZE < |f|
      invariant ok && endmarks < 2 && Decoding(sofar, DecodeMessages(f, p, endmarks, saw), [], whole)
      invariant Heard(db, s0, notes0, now, sofar) && db.sent == old(db.sent)
      decreases if p < |f| then |f| - p else 0
    {
      OtherDecodes(f, p, endmarks, saw, sofar, whole);
      if EndMarkAt(f, p) {
        p := p + 2;
        endmarks := endmarks + 1;
        if endmarks >= 2 {
          break;
        }
      } else if IsVidMessage(f, p) {
        MessageDecodes(f, p, endmarks, saw, sofar, whole);
        ghost var d := DecodeVectors(f, p + 2, saw);
        ok, p, saw := RecvVectors(db, f, p + 2, saw, now, s0, notes0, sofar);
        endmarks := 0;
        sofar := sofar + d.actions;
        if !ok {
          break;
        }
      } else if IsMalformed(f, p) {
        ok := false;
        break;
      } else {
        p := SkipUnknown(f, p);
        endmarks := 0;
      }
    }
    if ok && endmarks < 2 {
      OtherDecodes(f, p, endmarks, saw, sofar, whole);
    }
  }

  /** mvrp_recv_msg. */
  method RecvMsg(db: Database, f: seq<byte>, now: int) returns (ok: bool)
    requires db.Valid()
    modifies db
    ensures db.Valid() && db.Abstract() == Receive(old(db.Abstract()), now, f)
    ensures db.sent == old(db.sent) && ok == Decode(f).ok
    ensures Dispatchable(Decode(f).actions)
    ensures db.notes == old(db.notes) + HeardNotes(old(db.Abstract()), now, Decode(f).actions)
  {
    DecodeDispatchable(f);
    assert db.notes + [] == db.notes;
    if |f| >= ETH_HEADER_SIZE + 1 + 2 && f[12..14] == ETYPE && f[..6] == BRIDGE_ADDR {
      ok := RecvMessages(db, f, now, db.Abstract(), db.notes);
    } else {
      ok := false;
    }
  }
}
