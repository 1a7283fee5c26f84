/**
The loops of msrp_recv_msg of daemons/mrpd/msrp.c: the frame is walked byte by byte, a listener's sub-states are
collected before its events are read, and every event goes to msrp_event as it is found. Here the events are collected
in the order in which they are dispatched; they are those Decode lists.
*/
module MsrpReceive {
  import opened Mrp
  import opened MrpPdu
  import opened MsrpCodec
  import opened MsrpRoundTrip

  /* ---------- sub-states ---------- */

  lemma SubsSplit(f: seq<byte>, p: nat, left: nat, done: seq<nat>)
    ensures done + SubsAt(f, p, left) == done + Unpack4(At(f, p))[..Min4(left)] + SubsAt(f, p + 1, left - Min4(left))
  {
    if left == 0 {
      assert Unpack4(At(f, p))[..0] == [];
    }
  }

  /** The first pass over a listener vector: its sub-states, into listener_vectevt. */
  method ReadSubs(f: seq<byte>, start: nat, n: nat) returns (subs: seq<nat>)
    ensures subs == SubsAt(f, start, n)
  {
    hide SubsAt, Unpack4, At;
    subs := [];
    var vectidx, left := start, n;
    var endbyte := start + if n % 4 != 0 then n / 4 + 1 else n / 4;
    assert [] + SubsAt(f, start, n) == SubsAt(f, start, n);
    while vectidx < endbyte
      invariant start <= vectidx <= endbyte
      invariant left == if n > 4 * (vectidx - start) then n - 4 * (vectidx - start) else 0
      invariant subs + SubsAt(f, vectidx, left) == SubsAt(f, start, n)
    {
      SubsSplit(f, vectidx, left, subs);
      FourAt(f, vectidx, left);
      subs := subs + Unpack4(At(f, vectidx))[..Min4(left)];
      left := left - Min4(left);
      vectidx := vectidx + 1;
    }
    assert subs + [] == subs;
  }

  lemma FourAt(f: seq<byte>, p: nat, left: nat)
    ensures Min4(left) <= |Unpack4(At(f, p))|
  {}

  /* ---------- events ---------- */

  lemma {:induction false} GroupSplit(codes: seq<nat>, subs: seq<nat>, v: Value, i: nat)
    requires i < |codes| <= |subs|
    ensures Group(codes[..i + 1], subs, v) ==
      Group(codes[..i], subs, v) +
      (if (Advance(v, i).Listener? && subs[i] == 0) || codes[i] > 5 then []
       else [Hear(Advance(v, i), codes[i], subs[i])])
    decreases i
  {
    hide Succ;
    if i > 0 {
      GroupSplit(codes[1..], subs[1..], Succ(v), i - 1);
      assert codes[..i + 1][1..] == codes[1..][..i] && codes[..i][1..] == codes[1..][..i - 1];
      var head := if (v.Listener? && subs[0] == 0) || codes[0] > 5 then [] else [Hear(v, codes[0], subs[0])];
      Associate(head, Group(codes[1..][..i - 1], subs[1..], Succ(v)),
             if (Advance(v, i).Listener? && subs[i] == 0) || codes[i] > 5 then []
             else [Hear(Advance(v, i), codes[i], subs[i])]);
    } else {
      assert codes[..1][1..] == [] && codes[..0] == [];
    }
  }

  /** The events of one byte for consecutive values from `v`. */
  method RecvGroup(codes: seq<nat>, subs: seq<nat>, v: Value) returns (acts: seq<Action>, v': Value)
    requires |codes| <= |subs|
    ensures acts == Group(codes, subs, v) && v' == Advance(v, |codes|)
  {
    hide Succ, Group;
    acts, v' := [], v;
    var i := 0;
    GroupNothing(codes, subs, v);
    while i < |codes|
      invariant i <= |codes| && acts == Group(codes[..i], subs, v) && v' == Advance(v, i)
    {
      GroupSplit(codes, subs, v, i);
      AdvanceLast(v, i);
      if !(v'.Listener? && subs[i] == 0) && codes[i] <= 5 {
        acts := acts + [Hear(v', codes[i], subs[i])];
      }
      v' := Succ(v');
      i := i + 1;
    }
    assert codes[..|codes|] == codes;
  }

  lemma GroupNothing(codes: seq<nat>, subs: seq<nat>, v: Value)
    ensures Group(codes[..0], subs, v) == []
  {}

  lemma ItemsStep(f: seq<byte>, b: nat, left: nat, subs: seq<nat>, v: Value, done: seq<Action>)
    requires 0 < left <= |subs|
    ensures Min3(left) <= |Unpack3(At(f, b))| && 0 < Min3(left) <= left
    ensures var codes := Unpack3(At(f, b))[..Min3(left)];
      done + ItemsAt(f, b, left, subs, v) ==
      if codes[0] > 5 then done + ItemsAt(f, b + 1, left - Min3(left), subs, v)
      else done + Group(codes, subs, v)
           + ItemsAt(f, b + 1, left - Min3(left), subs[Min3(left)..], Advance(v, Min3(left)))
  {
    hide Succ, Group, Advance;
    var codes := Unpack3(At(f, b))[..Min3(left)];
    if codes[0] <= 5 {
      Associate(done, Group(codes, subs, v),
                ItemsAt(f, b + 1, left - Min3(left), subs[Min3(left)..], Advance(v, Min3(left))));
    }
  }

  lemma ItemsEnd(f: seq<byte>, b: nat, subs: seq<nat>, v: Value, done: seq<Action>)
    ensures done + ItemsAt(f, b, 0, subs, v) == done
  {}

  /** The second pass: the three-packed events. The source's loop reads one byte more than there are values for. */
  method RecvEvents(f: seq<byte>, start: nat, n: nat, subs0: seq<nat>, first: Value) returns (acts: seq<Action>)
    requires n == |subs0|
    ensures acts == ItemsAt(f, start, n, subs0, first)
  {
    hide ItemsAt, Group, Advance, Succ, Unpack3;
    var numvectorbytes := if n % 3 != 0 then n / 3 + 1 else n / 3;
    var vectidx, left, v, subs := start, n, first, subs0;
    acts := [];
    assert [] + ItemsAt(f, start, n, subs0, first) == ItemsAt(f, start, n, subs0, first);
    while vectidx <= start + numvectorbytes
      invariant start <= vectidx <= start + numvectorbytes + 1
      invariant left == if n > 3 * (vectidx - start) then n - 3 * (vectidx - start) else 0
      invariant left <= |subs| && acts + ItemsAt(f, vectidx, left, subs, v) == ItemsAt(f, start, n, subs0, first)
    {
      if left > 0 {
        ItemsStep(f, vectidx, left, subs, v, acts);
        var codes := Unpack3(At(f, vectidx))[..Min3(left)];
        if codes[0] <= 5 {
          var group;
          group, v := RecvGroup(codes, subs, v);
          acts := acts + group;
          subs := subs[Min3(left)..];
        }
        left := left - Min3(left);
      } else {
        ItemsEnd(f, vectidx, subs, v, acts);
        ItemsEnd(f, vectidx + 1, subs, v, acts);
      }
      vectidx := vectidx + 1;
    }
    ItemsEnd(f, vectidx, subs, v, acts);
  }

  /** One vector with `n` values at `p`. */
  method RecvVector(f: seq<byte>, p: nat, k: Kind, n: nat) returns (acts: seq<Action>)
    ensures acts == VectorAt(f, p, k, n)
  {
    hide ItemsAt, SubsAt, ValueAt;
    var subs;
    if k == ListenerKind {
      subs := ReadSubs(f, p + 2 + AttribLen(k) + (n + 2) / 3, n);
    } else {
      subs := seq(n, _ => 0);
    }
    acts := RecvEvents(f, p + 2 + AttribLen(k), n, subs, ValueAt(f, p + 2, k));
  }

  /* ---------- vectors and messages ---------- */

  /** Where decoding stands: `acts` are dispatched, and with what `rest` decodes they make the whole. */
  ghost predicate Decoding(acts: seq<Action>, rest: Decoded, whole: Decoded) {
    acts + rest.actions == whole.actions && rest.ok == whole.ok && rest.ptr == whole.ptr && rest.saw == whole.saw
  }

  lemma DecodingStart(whole: Decoded)
    ensures Decoding([], whole, whole)
  {}

  lemma VectorsStep(f: seq<byte>, p: nat, k: Kind, saw: set<Kind>, acts: seq<Action>, whole: Decoded)
    requires !EndMarkAt(f, p) && Decoding(acts, DecodeVectors(f, p, k, saw), whole)
    ensures var h := WordAt(f, p); var n := NumValues(h); var first := acts + LvaAction(k, h, saw);
      if n == 0 then Decoding(first, DecodeVectors(f, p + 2 + AttribLen(k), k, Saw(k, h, saw)), whole)
      else if RunsOff(f, p, k, n) then first == whole.actions && !whole.ok
      else Decoding(first + VectorAt(f, p, k, n), DecodeVectors(f, p + VecSize(k, n), k, Saw(k, h, saw)), whole)
  {
    hide VectorAt, RunsOff, VecSize, AttribLen, LvaAction, Saw;
    var h := WordAt(f, p);
    var n := NumValues(h);
    var lva := LvaAction(k, h, saw);
    if n == 0 {
      Associate(acts, lva, DecodeVectors(f, p + 2 + AttribLen(k), k, Saw(k, h, saw)).actions);
    } else if !RunsOff(f, p, k, n) {
      var rest := DecodeVectors(f, p + VecSize(k, n), k, Saw(k, h, saw)).actions;
      Associate(acts, lva + VectorAt(f, p, k, n), rest);
      Associate(acts, lva, VectorAt(f, p, k, n));
    }
  }

  lemma VectorsEnd(f: seq<byte>, p: nat, k: Kind, saw: set<Kind>, acts: seq<Action>, whole: Decoded)
    requires EndMarkAt(f, p) && Decoding(acts, DecodeVectors(f, p, k, saw), whole)
    ensures acts == whole.actions && whole.ok && p == whole.ptr && saw == whole.saw
  {}

  method RecvVectors(f: seq<byte>, start: nat, k: Kind, saw0: set<Kind>)
    returns (ok: bool, acts: seq<Action>, p: nat, saw: set<Kind>)
    ensures var d := DecodeVectors(f, start, k, saw0);
      acts == d.actions && ok == d.ok && (ok ==> p == d.ptr && saw == d.saw)
  {
    hide DecodeVectors, VectorAt, Decoding;
    ghost var whole := DecodeVectors(f, start, k, saw0);
    ok, acts, p, saw := true, [], start, saw0;
    DecodingStart(whole);
    while !EndMarkAt(f, p)
      invariant Decoding(acts, DecodeVectors(f, p, k, saw), whole)
      decreases if p < |f| then |f| - p else 0
    {
      VectorsStep(f, p, k, saw, acts, whole);
      var h := WordAt(f, p);
      var n := NumValues(h);
      if IsLva(h) && k !in saw {
        acts := acts + [HearLeaveAll(k)];
      } else {
        assert acts + [] == acts;
      }
      if IsLva(h) {
        saw := saw + {k};
      }
      if n == 0 {
        p := p + 2 + AttribLen(k);
      } else if RunsOff(f, p, k, n) {
        ok := false;
        break;
      } else {
        var more := RecvVector(f, p, k, n);
        acts := acts + more;
        p := p + VecSize(k, n);
      }
    }
    if ok {
      VectorsEnd(f, p, k, saw, acts, whole);
    }
  }

  lemma MessagesStep(f: seq<byte>, p: nat, endmarks: nat, saw: set<Kind>, acts: seq<Action>, whole: Decoded)
    requires p + ENDMARK_SIZE < |f| && !EndMarkAt(f, p) && KindAt(f, p).Some?
    requires At(f, p + 1) == AttribLen(KindAt(f, p).value)
    requires Decoding(acts, DecodeMessages(f, p, endmarks, saw), whole)
    ensures var k := KindAt(f, p).value; var v := DecodeVectors(f, p + 4, k, saw);
      if !ListLengthOk(f, p) then Decoding(acts, DecodeMessages(f, SkipMessage(f, p, k), 0, saw), whole)
      else if !v.ok then acts + v.actions == whole.actions && !whole.ok
      else Decoding(acts + v.actions, DecodeMessages(f, v.ptr, 0, v.saw), whole)
  {
    hide DecodeVectors, ListLengthOk, SkipMessage, AttribLen, EndMarkAt;
    var k := KindAt(f, p).value;
    var v := DecodeVectors(f, p + 4, k, saw);
    if ListLengthOk(f, p) && v.ok {
      Associate(acts, v.actions, DecodeMessages(f, v.ptr, 0, v.saw).actions);
    }
  }

  lemma MessagesElse(f: seq<byte>, p: nat, endmarks: nat, saw: set<Kind>, acts: seq<Action>, whole: Decoded)
    requires Decoding(acts, DecodeMessages(f, p, endmarks, saw), whole)
    ensures p + ENDMARK_SIZE >= |f| ==> acts == whole.actions && whole.ok
    ensures p + ENDMARK_SIZE < |f| && EndMarkAt(f, p) ==>
      if endmarks + 1 < 2 then Decoding(acts, DecodeMessages(f, p + 2, endmarks + 1, saw), whole)
      else acts == whole.actions && whole.ok
    ensures (p + ENDMARK_SIZE < |f| && !EndMarkAt(f, p)
             && (KindAt(f, p).None? || At(f, p + 1) != AttribLen(KindAt(f, p).value)))
      ==> acts == whole.actions && !whole.ok
  {
    hide DecodeVectors, ListLengthOk, SkipMessage, AttribLen, EndMarkAt;
  }

  method RecvMessages(f: seq<byte>) returns (ok: bool, acts: seq<Action>)
    ensures var d := DecodeMessages(f, MESSAGE_LIST, 0, {}); acts == d.actions && ok == d.ok
  {
    hide DecodeMessages, DecodeVectors, Decoding, ListLengthOk, AttribLen, EndMarkAt;
    ghost var whole := DecodeMessages(f, MESSAGE_LIST, 0, {});
    DecodingStart(whole);
    var p: nat, endmarks: nat, saw: set<Kind> := MESSAGE_LIST, 0, {};
    ok, acts := true, [];
    while p + ENDMARK_SIZE < |f|
      invariant ok && endmarks < 2 && Decoding(acts, DecodeMessages(f, p, endmarks, saw), whole)
      decreases if p < |f| then |f| - p else 0
    {
      MessagesElse(f, p, endmarks, saw, acts, whole);
      if EndMarkAt(f, p) {
        p := p + 2;
        endmarks := endmarks + 1;
        if endmarks >= 2 {
          break;
        }
      } else {
        var kind := KindAt(f, p);
        if kind.None? || At(f, p + 1) != AttribLen(kind.value) {
          ok := false;
          break;
        }
        MessagesStep(f, p, endmarks, saw, acts, whole);
        endmarks := 0;
        if !ListLengthOk(f, p) {
          p := SkipMessage(f, p, kind.value);
        } else {
          var more;
          ok, more, p, saw := RecvVectors(f, p + 4, kind.value, saw);
          acts := acts + more;
          if !ok {
            break;
          }
        }
      }
    }
    if ok && endmarks < 2 {
      MessagesElse(f, p, endmarks, saw, acts, whole);
    }
  }

  /** msrp_recv_msg. */
  method RecvMsg(f: seq<byte>) returns (ok: bool, acts: seq<Action>)
    ensures acts == Decode(f).actions && ok == Decode(f).ok
  {
    hide DecodeMessages;
    if |f| >= ETH_HEADER_SIZE + 1 + 2 && f[12..14] == ETYPE && f[..6] == MSRP_ADDR {
      ok, acts := RecvMessages(f);
    } else {
      ok, acts := false, [];
    }
  }
}
