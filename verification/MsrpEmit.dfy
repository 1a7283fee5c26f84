/**
The MSRP emitters of daemons/mrpd/msrp.c as they run: the attribute list is walked, tx flags are taken down, and the
frame buffer is filled in place, three events and for listeners four sub-states a byte.
*/
module MsrpEmit {
  import opened Mrp
  import opened MrpPdu
  import opened MrpPacker
  import opened MsrpBounds
  import opened MsrpCodec

  /* ---------- flags ---------- */

  function ClearTx(s: Slot): Slot {
    s.(tx := false)
  }

  /** The emitter of kind `k` changes nothing but tx flags of its own kind, and those only from set to clear. */
  ghost predicate OnlyTxCleared(k: Kind, s: seq<Slot>, t: seq<Slot>) {
    |s| == |t| && forall i | 0 <= i < |s| :: t[i] == s[i] || (KindOf(s[i].value) == k && t[i] == ClearTx(s[i]))
  }

  ghost function ClearedFrom(s: seq<Slot>, lo: nat, hi: nat): (t: seq<Slot>)
    ensures |t| == |s|
    ensures forall i | 0 <= i < |s| :: t[i] == if lo <= i < hi then ClearTx(s[i]) else s[i]
  {
    seq(|s|, i requires 0 <= i < |s| => if lo <= i < hi then ClearTx(s[i]) else s[i])
  }

  lemma ClearedFromStep(s: seq<Slot>, lo: nat, hi: nat)
    requires lo <= hi < |s|
    ensures ClearedFrom(s, lo, hi)[hi := ClearTx(s[hi])] == ClearedFrom(s, lo, hi + 1)
  {}

  lemma OnlyTxClearedTwice(k: Kind, s: seq<Slot>, t: seq<Slot>, u: seq<Slot>)
    requires OnlyTxCleared(k, s, t) && OnlyTxCleared(k, t, u)
    ensures OnlyTxCleared(k, s, u)
  {
    forall i | 0 <= i < |s| ensures u[i] == s[i] || (KindOf(s[i].value) == k && u[i] == ClearTx(s[i])) {
      assert t[i] == s[i] || (KindOf(s[i].value) == k && t[i] == ClearTx(s[i]));
      assert u[i] == t[i] || (KindOf(t[i].value) == k && u[i] == ClearTx(t[i]));
    }
  }

  /* ---------- runs of consecutive values ---------- */

  /** Positions i+1..j ride behind position i. */
  ghost predicate Consecutive(s: seq<Slot>, i: nat, j: nat)
    requires i < j <= |s|
  {
    forall t | i < t < j :: s[t].tx && Rides(Advance(s[i].value, t - i), s[t].value)
  }

  /** Position j does not. */
  ghost predicate RunStops(s: seq<Slot>, i: nat, j: nat)
    requires i < j <= |s|
  {
    j < |s| ==> !s[j].tx || !Rides(Advance(s[i].value, j - i), s[j].value)
  }

  lemma {:induction false} ConsecutiveRun(s: seq<Slot>, i: nat, t: nat, j: nat)
    requires i < t <= j <= |s| && Consecutive(s, i, j)
    ensures j - t <= Riders(s[t..], Advance(s[i].value, t - i))
    ensures RunStops(s, i, j) ==> j - t == Riders(s[t..], Advance(s[i].value, t - i))
    decreases j - t
  {
    hide Succ, Rides;
    if t < j {
      ConsecutiveRun(s, i, t + 1, j);
      AdvanceLast(s[i].value, t - i);
      assert s[t..][0] == s[t] && s[t..][1..] == s[t + 1..];
    } else if j < |s| {
      assert s[t..][0] == s[t];
    }
  }

  ghost predicate HasItems(s: seq<Slot>, lo: nat, hi: nat, items: seq<Item>)
    requires lo <= hi <= |s|
  {
    |items| == hi - lo
    && forall t | lo <= t < hi :: s[t].code == Some(items[t - lo].code) && items[t - lo].sub == WireSub(s[t])
  }

  lemma {:induction false} HasItemsIsItems(s: seq<Slot>, lo: nat, hi: nat, items: seq<Item>)
    requires lo <= hi <= |s| && HasItems(s, lo, hi, items)
    ensures Items(s[lo..hi]) == Some(items)
    decreases hi - lo
  {
    if lo < hi {
      HasItemsIsItems(s, lo + 1, hi, items[1..]);
      assert s[lo..hi][1..] == s[lo + 1..hi];
      assert items == [items[0]] + items[1..];
    }
  }

  lemma {:induction false} NoItems(slots: seq<Slot>, t: nat)
    requires t < |slots| && slots[t].code.None?
    ensures Items(slots).None?
  {
    if t > 0 {
      NoItems(slots[1..], t - 1);
    }
  }

  function RunItems(s: seq<Slot>, i: nat): (items: Option<seq<Item>>)
    requires i < |s|
    ensures items.Some? ==> |items.value| == RunLength(s, i)
  {
    Items(s[i..i + RunLength(s, i)])
  }

  lemma RunIsWhole(s: seq<Slot>, i: nat, j: nat)
    requires i < j <= |s| && Consecutive(s, i, j)
    ensures j - i <= RunLength(s, i)
    ensures RunStops(s, i, j) ==> j - i == RunLength(s, i)
  {
    AdvanceLast(s[i].value, 0);
    ConsecutiveRun(s, i, i + 1, j);
  }

  lemma RunFails(s: seq<Slot>, i: nat, j: nat)
    requires i < j <= |s| && Consecutive(s, i, j) && s[j - 1].code.None?
    ensures RunItems(s, i).None?
  {
    RunIsWhole(s, i, j);
    NoItems(s[i..i + RunLength(s, i)], j - 1 - i);
  }

  /* ---------- the inner loop ---------- */

  /** What the inner loop has established when it stands at position j; `cur` is the value of its predecessor. */
  ghost predicate Riding(s: seq<Slot>, i: nat, j: nat, t: seq<Slot>, cur: Value, items: seq<Item>) {
    && i < j <= |s| && Consecutive(s, i, j) && HasItems(s, i, j, items)
    && t == ClearedFrom(s, i + 1, j) && cur == Advance(s[i].value, j - i - 1)
  }

  lemma RidingStart(s: seq<Slot>, i: nat, first: Code)
    requires i < |s| && s[i].code == Some(first)
    ensures Riding(s, i, i + 1, s, s[i].value, [Item(first, WireSub(s[i]))])
  {
    assert s == ClearedFrom(s, i + 1, i + 1);
  }

  lemma RidingStep(s: seq<Slot>, i: nat, j: nat, t: seq<Slot>, cur: Value, items: seq<Item>)
    requires Riding(s, i, j, t, cur, items) && j < |s|
    ensures |t| == |s| && t[j] == s[j]
    ensures !t[j].tx || !Rides(Succ(cur), t[j].value) ==> RunStops(s, i, j)
    ensures t[j].tx && Rides(Succ(cur), t[j].value) ==>
              && Consecutive(s, i, j + 1) && t[j := ClearTx(t[j])] == ClearedFrom(s, i + 1, j + 1)
              && (t[j].code.Some? ==>
                   Riding(s, i, j + 1, t[j := ClearTx(t[j])], Succ(cur),
                          items + [Item(t[j].code.value, WireSub(t[j]))]))
  {
    hide Succ, Rides;
    AdvanceLast(s[i].value, j - i - 1);
    ClearedFromStep(s, i + 1, j);
  }

  lemma CodesAppend(items: seq<Item>, it: Item)
    ensures CodesOf(items + [it]) == CodesOf(items) + [it.code]
    ensures SubsOf(items + [it]) == SubsOf(items) + [it.sub]
  {}

  /**
  The events of `items` stand packed from `start` to `pos`, up to two still in vectevt; `f0` is the buffer before.
  */
  ghost predicate Packed(f0: seq<byte>, f: seq<byte>, start: nat, pos: nat, vectevt: seq<Code>, full: seq<Code>,
                         items: seq<Item>)
  {
    && start <= |f| == |f0| && f[..start] == f0[..start] && Untouched(f0, f, pos)
    && Packing(f, start, pos, vectevt, full) && CodesOf(items) == full + vectevt
  }

  lemma PackedFirst(f: seq<byte>, start: nat, it: Item)
    requires start <= |f|
    ensures Packed(f, f, start, start, [it.code], [], [it])
  {
    assert CodesOf([it]) == [it.code];
  }

  method PackOne(buf: array<byte>, start: nat, pos: nat, vectevt: seq<Code>, ghost full: seq<Code>,
                 ghost items: seq<Item>, ghost it: Item, c: Code, ghost f0: seq<byte>)
    returns (pos': nat, vectevt': seq<Code>, ghost full': seq<Code>)
    requires Packed(f0, buf[..], start, pos, vectevt, full, items) && pos < buf.Length && it.code == c
    modifies buf
    ensures Packed(f0, buf[..], start, pos', vectevt', full', items + [it]) && pos' == start + (|items| + 1) / 3
  {
    ghost var b := buf[..];
    pos', vectevt', full' := Push(buf, start, pos, vectevt, full, c);
    UntouchedTwice(f0, b, buf[..], pos, pos');
    CodesAppend(items, it);
  }

  method PackLast(buf: array<byte>, start: nat, pos: nat, vectevt: seq<Code>, ghost full: seq<Code>,
                  ghost items: seq<Item>, ghost f0: seq<byte>)
    returns (end: nat)
    requires Packed(f0, buf[..], start, pos, vectevt, full, items) && pos < buf.Length
    modifies buf
    ensures end == start + (|items| + 2) / 3 && Holds(buf[..], start, Pack3(CodesOf(items)))
    ensures buf[..start] == f0[..start] && Untouched(f0, buf[..], end)
  {
    ghost var b := buf[..];
    end := Finish(buf, start, pos, vectevt, full);
    UntouchedTwice(f0, b, buf[..], pos, end);
  }

  /**
  Vectorize the attributes behind position `i` for as long as they are flagged and consecutive: the events three a
  byte from `start` to `end`, the sub-states into listen_declare, unless an event is unknown or the cursor passes
  `limit`. That is tested only behind each rider, so the byte of a lone event is written in any case.
  */
  method PackRiders(s: seq<Slot>, i: nat, first: Code, buf: array<byte>, start: nat, limit: nat)
    returns (ok: bool, t: seq<Slot>, j: nat, ghost items: seq<Item>, declare: seq<Sub>, end: nat)
    requires i < |s| && s[i].code == Some(first)
    requires start < buf.Length && limit + 1 < buf.Length
    modifies buf
    ensures i < j <= |s| && Consecutive(s, i, j) && t == ClearedFrom(s, i + 1, j)
    ensures buf[..start] == old(buf[..start]) && start <= end && Untouched(old(buf[..]), buf[..], end)
    ensures ok ==> RunStops(s, i, j) && HasItems(s, i, j, items) && declare == SubsOf(items)
    ensures ok ==> end == start + (|items| + 2) / 3 && Holds(buf[..], start, Pack3(CodesOf(items)))
    ensures end <= limit + 1 || end == start || (j == i + 1 && end == start + 1)
    ensures !ok ==> j > i + 1 && (s[j - 1].code.None? || start + (j - i) / 3 > limit)
  {
    hide Succ, Rides, Advance, Untouched, Packing, Holds;
    ok, t, end, items, declare := true, s, start, [Item(first, WireSub(s[i]))], [WireSub(s[i])];
    var cur, k := s[i].value, i + 1;
    RidingStart(s, i, first);
    ghost var f0, full: seq<Code> := buf[..], [];
    var pos: nat, vectevt := start, [first];
    PackedFirst(f0, start, items[0]);
    while k < |s|
      invariant Riding(s, i, k, t, cur, items) && declare == SubsOf(items)
      invariant Packed(f0, buf[..], start, pos, vectevt, full, items) && pos == start + (k - i) / 3
      invariant pos <= limit || k == i + 1
    {
      RidingStep(s, i, k, t, cur, items);
      if !t[k].tx {
        break;
      }
      cur := Succ(cur);
      if !Rides(cur, t[k].value) {
        break;
      }
      var code, sub := t[k].code, WireSub(t[k]);
      t := t[k := ClearTx(t[k])];
      k := k + 1;
      if code.None? {
        ok := false;
        break;
      }
      pos, vectevt, full := PackOne(buf, start, pos, vectevt, full, items, Item(code.value, sub), code.value, f0);
      CodesAppend(items, Item(code.value, sub));
      items, declare := items + [Item(code.value, sub)], declare + [sub];
      if pos > limit {
        ok := false;
        break;
      }
    }
    j, end := k, pos;
    if ok {
      end := PackLast(buf, start, pos, vectevt, full, items, f0);
    }
  }

  lemma UntouchedHere(f: seq<byte>, hi: nat)
    requires hi <= |f|
    ensures Untouched(f, f, hi)
  {}

  /* ---------- the four-packed sub-states ---------- */

  lemma DropAppend<X>(a: seq<X>, b: seq<X>, n: nat)
    requires n <= |a|
    ensures (a + b)[n..] == a[n..] + b && (a + b)[..n] == a[..n]
  {}

  lemma Pack4Unfolds(subs: seq<Sub>)
    requires |subs| >= 4
    ensures Pack4(subs) == Pack4(subs[..4]) + Pack4(subs[4..])
  {
    assert |subs| == 4 ==> subs[4..] == [];
  }

  lemma Pack4Base(subs: seq<Sub>, last: seq<Sub>)
    requires subs == []
    ensures Pack4(subs + last) == Pack4(subs) + Pack4(last)
  {
    assert subs + last == last;
    assert [] + Pack4(last) == Pack4(last);
  }

  lemma {:induction false} Pack4Append(subs: seq<Sub>, last: seq<Sub>)
    requires |subs| % 4 == 0 && 0 < |last| <= 4
    ensures Pack4(subs + last) == Pack4(subs) + Pack4(last)
    decreases |subs|
  {
    hide Pack4;
    if subs == [] {
      Pack4Base(subs, last);
    } else {
      Pack4Unfolds(subs);
      Pack4Unfolds(subs + last);
      Pack4Append(subs[4..], last);
      DropAppend(subs, last, 4);
      Associate(Pack4(subs[..4]), Pack4(subs[4..]), Pack4(last));
    }
  }

  /** One byte of sub-states, the missing ones as zero. */
  function Encode(subs: seq<Sub>): (b: byte)
    requires 0 < |subs| <= 4
    ensures [b] == Pack4(subs)
  {
    Encode4(subs[0], SubAt(subs, 1), SubAt(subs, 2), SubAt(subs, 3))
  }

  method WriteSubs(buf: array<byte>, start: nat, pos: nat, group: seq<Sub>, ghost done: seq<Sub>)
    requires |done| % 4 == 0 && pos == start + |done| / 4 < buf.Length && Holds(buf[..], start, Pack4(done))
    requires 0 < |group| <= 4
    modifies buf
    ensures Holds(buf[..], start, Pack4(done + group))
    ensures buf[..start] == old(buf[..start]) && Untouched(old(buf[..]), buf[..], pos + 1)
  {
    Pack4Append(done, group);
    buf[pos] := Encode(group);
    HoldsBefore(old(buf[..]), buf[..], pos, start, Pack4(done));
    HoldsJoin(buf[..], start, Pack4(done), Pack4(group));
  }

  lemma NothingPacked(f: seq<byte>, start: nat, subs: seq<Sub>)
    requires start <= |f|
    ensures Holds(f, start, Pack4(subs[..0]))
  {
    assert subs[..0] == [];
  }

  /** The full bytes of sub-states; after each of them three bytes of room are wanted. */
  method PackFull(declare: seq<Sub>, buf: array<byte>, start: nat, eof: nat) returns (ok: bool, pos: nat)
    requires start < buf.Length && eof <= buf.Length
    modifies buf
    ensures start <= pos && buf[..start] == old(buf[..start]) && Untouched(old(buf[..]), buf[..], pos)
    ensures ok ==> pos == start + |declare| / 4 && Holds(buf[..], start, Pack4(declare[..|declare| / 4 * 4]))
    ensures |declare| < 4 ==> ok
    ensures |declare| >= 4 ==> (ok <==> start + |declare| / 4 + 3 <= eof) && (pos <= eof || pos == start)
  {
    hide Pack4, Holds, Untouched;
    ok, pos := true, start;
    var i := 0;
    NothingPacked(buf[..], start, declare);
    UntouchedHere(buf[..], start);
    while i < |declare| / 4
      invariant 0 <= i <= |declare| / 4 && pos == start + i < buf.Length
      invariant i > 0 ==> pos + 3 <= eof
      invariant Holds(buf[..], start, Pack4(declare[..i * 4])) && buf[..start] == old(buf[..start])
      invariant Untouched(old(buf[..]), buf[..], pos)
    {
      if pos + ENDMARK_SIZE > eof {
        ok := false;
        break;
      }
      assert declare[..(i + 1) * 4] == declare[..i * 4] + declare[i * 4..(i + 1) * 4];
      ghost var b := buf[..];
      WriteSubs(buf, start, pos, declare[i * 4..(i + 1) * 4], declare[..i * 4]);
      UntouchedTwice(old(buf[..]), b, buf[..], pos, pos + 1);
      i, pos := i + 1, pos + 1;
      if pos + 3 > eof {
        ok := false;
        break;
      }
    }
  }

  /**
  The sub-states behind the event bytes, up to `hi`. After each full byte the source wants three bytes of room, so that
  a last full byte needs one more than the end mark takes. Before a byte that is not full it tests nothing.
  */
  method PackSubs(declare: seq<Sub>, buf: array<byte>, start: nat, eof: nat) returns (ok: bool, end: nat, hi: nat)
    requires declare != [] && start < buf.Length && eof <= buf.Length
    modifies buf
    ensures buf[..start] == old(buf[..start]) && Untouched(old(buf[..]), buf[..], hi)
    ensures ok <==> (end + ENDMARK_SIZE <= eof && (|declare| % 4 == 0 ==> end + 3 <= eof))
    ensures end == start + (|declare| + 3) / 4
    ensures ok ==> Holds(buf[..], start, Pack4(declare)) && hi == end
    ensures if |declare| < 4 then hi == start + 1 else start <= hi && (hi <= eof || hi == start)
  {
    hide Pack4, Holds, Untouched;
    end := start + (|declare| + 3) / 4;
    ok, hi := PackFull(declare, buf, start, eof);
    if ok {
      var i := |declare| / 4 * 4;
      assert declare == declare[..i] + declare[i..];
      if i < |declare| {
        ghost var b := buf[..];
        WriteSubs(buf, start, hi, declare[i..], declare[..i]);
        UntouchedTwice(old(buf[..]), b, buf[..], hi, hi + 1);
        hi := hi + 1;
      } else {
        assert declare[..i] == declare;
      }
      ok := end + ENDMARK_SIZE <= eof;
    }
  }

  /* ---------- one vector ---------- */

  /**
  The event bytes of the vector that starts at position `i`, up to `hi`: three-packed, and for listeners four-packed
  behind. `eof` is where the room ends, which is not where the writing has to.
  */
  method PackRun(s: seq<Slot>, i: nat, buf: array<byte>, start: nat, eof: nat)
    returns (ok: bool, t: seq<Slot>, numvalues: nat, hi: nat)
    requires i < |s| && start + 1 < buf.Length && ENDMARK_SIZE <= eof < buf.Length
    modifies buf
    ensures buf[..start] == old(buf[..start]) && OnlyTxCleared(KindOf(s[i].value), s, t)
    ensures ok <==> && RunItems(s, i).Some?
                    && Room(KindOf(s[i].value), RunLength(s, i),
                            start + EventBytes(KindOf(s[i].value), RunLength(s, i)), eof)
    ensures ok ==> numvalues == RunLength(s, i) && t == ClearedFrom(s, i + 1, i + numvalues)
    ensures ok ==> Holds(buf[..], start, EventsBytes(Vec(false, s[i].value, RunItems(s, i).value)))
    ensures start <= hi && Untouched(old(buf[..]), buf[..], hi)
    ensures ok ==> hi == start + EventBytes(KindOf(s[i].value), RunLength(s, i))
    ensures hi <= eof <==> start + Unguarded(s, i) <= eof
  {
    hide OnlyTxCleared, Consecutive, RunStops, Room, EventBytes, RunLength, RunItems, Advance, EventsBytes, KindOf,
         Untouched;
    ok, t, numvalues, hi := false, s, 1, start;
    ClearedIsOnly(KindOf(s[i].value), s, i + 1, i + 1);
    UntouchedHere(buf[..], start);
    var first := s[i].code;
    if first.None? {
      Alone(s, i);
      RunFails(s, i, i + 1);
    } else {
      ghost var items;
      var j, declare;
      ok, t, j, items, declare, hi := PackRiders(s, i, first.value, buf, start, eof - ENDMARK_SIZE);
      numvalues := j - i;
      RunIsWhole(s, i, j);
      ConsecutiveKind(s, i, j);
      ClearedIsOnly(KindOf(s[i].value), s, i + 1, j);
      if ok {
        RunItemsAre(s, i, j, items);
        ghost var b := buf[..];
        var end := hi;
        ok, hi := PackTail(s[i].value, buf, start, end, declare, items, eof);
        UntouchedTwice(old(buf[..]), b, buf[..], end, hi);
      } else if s[j - 1].code.None? {
        RunFails(s, i, j);
      } else {
        NoRoom(KindOf(s[i].value), RunLength(s, i), start, eof, j - i);
      }
    }
  }

  lemma RunItemsAre(s: seq<Slot>, i: nat, j: nat, items: seq<Item>)
    requires i < j <= |s| && j - i == RunLength(s, i) && HasItems(s, i, j, items)
    ensures RunItems(s, i) == Some(items) && |items| == j - i > 0
  {
    HasItemsIsItems(s, i, j, items);
  }

  lemma Alone(s: seq<Slot>, i: nat)
    requires i < |s|
    ensures Consecutive(s, i, i + 1)
  {}

  lemma {:induction false} AdvanceKind(v: Value, d: nat)
    ensures KindOf(Advance(v, d)) == KindOf(v)
    decreases d
  {
    if d > 0 {
      AdvanceKind(Succ(v), d - 1);
    }
  }

  lemma ConsecutiveKind(s: seq<Slot>, i: nat, j: nat)
    requires i < j <= |s| && Consecutive(s, i, j)
    ensures forall t | i < t < j :: KindOf(s[t].value) == KindOf(s[i].value)
  {
    forall t | i < t < j ensures KindOf(s[t].value) == KindOf(s[i].value) {
      AdvanceKind(s[i].value, t - i);
    }
  }

  lemma ClearedIsOnly(k: Kind, s: seq<Slot>, lo: nat, hi: nat)
    requires forall t | lo <= t < hi && t < |s| :: KindOf(s[t].value) == k
    ensures OnlyTxCleared(k, s, ClearedFrom(s, lo, hi))
    ensures lo == hi ==> ClearedFrom(s, lo, hi) == s
  {}

  lemma NoRoom(k: Kind, n: nat, start: nat, len: nat, m: nat)
    requires m <= n && ENDMARK_SIZE <= len && start + m / 3 > len - ENDMARK_SIZE
    ensures !Room(k, n, start + EventBytes(k, n), len)
  {}

  /** What follows the three-packed events. */
  method PackTail(v: Value, buf: array<byte>, start: nat, end: nat, declare: seq<Sub>, ghost items: seq<Item>, eof: nat)
    returns (ok: bool, hi: nat)
    requires items != [] && declare == SubsOf(items) && end == start + (|items| + 2) / 3 < buf.Length
    requires eof <= buf.Length
    requires Holds(buf[..], start, Pack3(CodesOf(items)))
    modifies buf
    ensures buf[..start] == old(buf[..start]) && end <= hi && Untouched(old(buf[..]), buf[..], hi)
    ensures ok <==> Room(KindOf(v), |items|, start + EventBytes(KindOf(v), |items|), eof)
    ensures ok ==> Holds(buf[..], start, EventsBytes(Vec(false, v, items)))
    ensures ok ==> hi == start + EventBytes(KindOf(v), |items|)
    ensures v.Listener? && |items| < 4 ==> hi == end + 1
    ensures v.Listener? && |items| >= 4 ==> hi <= eof || hi == end
    ensures !v.Listener? ==> hi == end
  {
    hide Pack3, Pack4, Holds, EventsBytes;
    EventsParts(v, items);
    if v.Listener? {
      ghost var b := buf[..];
      var end';
      ok, end', hi := PackSubs(declare, buf, end, eof);
      PrefixKept(b, buf[..], start, end);
      if ok {
        HoldsBefore(b, buf[..], end, start, Pack3(CodesOf(items)));
        HoldsJoin(buf[..], start, Pack3(CodesOf(items)), Pack4(declare));
      }
    } else {
      ok, hi := end + ENDMARK_SIZE <= eof, end;
      UntouchedHere(buf[..], hi);
    }
  }

  lemma EventsParts(v: Value, items: seq<Item>)
    ensures EventsBytes(Vec(false, v, items)) ==
      if v.Listener? then Pack3(CodesOf(items)) + Pack4(SubsOf(items)) else Pack3(CodesOf(items))
    ensures |Pack3(CodesOf(items))| == (|items| + 2) / 3
  {
    hide Pack3, Pack4;
    assert Pack3(CodesOf(items)) + [] == Pack3(CodesOf(items));
  }

  /** More than the emitters ever write behind the end of the frame buffer. */
  const SLACK: nat := 64

  /** The vector of position `i`, written at offset `at` of a message that may use `cap` bytes from `base` on. */
  predicate Writable(s: seq<Slot>, i: nat, at: nat, cap: nat)
    requires i < |s|
  {
    var k := KindOf(s[i].value);
    RunItems(s, i).Some? && Room(k, RunLength(s, i), at + VecSize(k, RunLength(s, i)), cap)
  }

  function VecOf(s: seq<Slot>, i: nat, lva: bool): Vec
    requires i < |s| && RunItems(s, i).Some?
  {
    Vec(lva, Wire(s[i].value), RunItems(s, i).value)
  }

  lemma EventsOfWire(v: Value, items: seq<Item>, lva: bool)
    ensures EventsBytes(Vec(lva, Wire(v), items)) == EventsBytes(Vec(false, v, items))
    ensures FirstValue(Wire(v)) == FirstValue(v) && KindOf(Wire(v)) == KindOf(v)
  {}

  /** Fill in the header in front of the first value and the event bytes already in place. */
  method WriteHeader(buf: array<byte>, p: nat, lva: bool, numvalues: nat, ghost v: Vec)
    requires v.lva == lva && |v.items| == numvalues
    requires Holds(buf[..], p + 2, FirstValue(v.first)) && Holds(buf[..], p + 2 + |FirstValue(v.first)|, EventsBytes(v))
    modifies buf
    ensures Holds(buf[..], p, VecBytes(v))
    ensures buf[..p] == old(buf[..p]) && Untouched(old(buf[..]), buf[..], p + 2)
  {
    hide FirstValue, EventsBytes, Header, Word;
    ghost var h, f, e := Word(Header(v.lva, |v.items|)), FirstValue(v.first), EventsBytes(v);
    WriteWord(buf, p, Header(lva, numvalues));
    HoldsAfter(old(buf[..]), buf[..], p + 2, p + 2, f);
    HoldsAfter(old(buf[..]), buf[..], p + 2, p + 2 + |f|, e);
    WordSize(Header(v.lva, |v.items|));
    HoldsJoin(buf[..], p, h, f);
    HoldsJoin(buf[..], p, h + f, e);
  }

  lemma WordSize(x: u16)
    ensures |Word(x)| == 2
  {}

  /**
  One vector, up to `hi`. The first value and what is unguarded behind it are written wherever they come to lie: `eof`
  is the end of the frame buffer, and the array goes on behind it.
  */
  method EmitVector(s: seq<Slot>, i: nat, buf: array<byte>, base: nat, at: nat, lva: bool, eof: nat)
    returns (ok: bool, t: seq<Slot>, end: nat, hi: nat)
    requires i < |s| && base <= eof && ENDMARK_SIZE <= eof && base + at <= eof && eof + SLACK <= buf.Length
    modifies buf
    ensures ok <==> Writable(s, i, at, eof - base)
    ensures ok ==> end == at + VecSize(KindOf(s[i].value), RunLength(s, i))
    ensures ok ==> t == ClearedFrom(s, i + 1, i + RunLength(s, i))
    ensures ok ==> Holds(buf[..], base + at, VecBytes(VecOf(s, i, lva)))
    ensures !ok ==> Holds(buf[..], base + at + 2, FirstValue(s[i].value))
    ensures buf[..base + at] == old(buf[..base + at])
    ensures OnlyTxCleared(KindOf(s[i].value), s, t)
    ensures base + at <= hi && Untouched(old(buf[..]), buf[..], hi) && (ok ==> hi == base + end)
    ensures hi <= eof <==> base + at + VecSize(KindOf(s[i].value), 0) + Unguarded(s, i) <= eof
  {
    hide RunItems, RunLength, EventsBytes, FirstValue, VecBytes, OnlyTxCleared, Wire, Unguarded, Untouched;
    var p, v := base + at, s[i].value;
    var start := p + 2 + AttribLen(KindOf(v));
    WriteFirst(buf, p, v);
    ghost var b := buf[..];
    var numvalues;
    ok, t, numvalues, hi := PackRun(s, i, buf, start, eof);
    PrefixKept(b, buf[..], p, start);
    UntouchedTwice(old(buf[..]), b, buf[..], start, hi);
    end := at + VecSize(KindOf(v), numvalues);
    HoldsBefore(b, buf[..], start, p + 2, FirstValue(v));
    if ok {
      EventsOfWire(v, RunItems(s, i).value, lva);
      ghost var c := buf[..];
      WriteHeader(buf, p, lva, numvalues, VecOf(s, i, lva));
      UntouchedMore(c, buf[..], p + 2, hi);
      UntouchedTwice(old(buf[..]), c, buf[..], hi, hi);
    }
  }

  method WriteFirst(buf: array<byte>, p: nat, v: Value)
    requires p + 2 + AttribLen(KindOf(v)) <= buf.Length
    modifies buf
    ensures Holds(buf[..], p + 2, FirstValue(v)) && |FirstValue(v)| == AttribLen(KindOf(v))
    ensures buf[..p] == old(buf[..p]) && Untouched(old(buf[..]), buf[..], p + 2 + AttribLen(KindOf(v)))
  {
    WriteBytes(buf, p + 2, FirstValue(v));
    PrefixKept(old(buf[..]), buf[..], p, p + 2);
  }

  /* ---------- one message ---------- */

  function PlanVecs(p: Plan): Option<seq<Vec>> {
    if p.Oops? then None else Some(p.vecs)
  }

  lemma {:induction false} VecsBytesAppend(vecs: seq<Vec>, v: Vec)
    ensures VecsBytes(vecs + [v]) == VecsBytes(vecs) + VecBytes(v)
  {
    hide VecBytes;
    if vecs == [] {
      assert vecs + [v] == [v] && [v][1..] == [];
    } else {
      VecsBytesAppend(vecs[1..], v);
      assert (vecs + [v])[1..] == vecs[1..] + [v];
      Associate(VecBytes(vecs[0]), VecsBytes(vecs[1..]), VecBytes(v));
    }
  }

  /** The vectors still to come when the outer loop stands at position `i`. */
  ghost function ToCome(k: Kind, t: seq<Slot>, i: nat, lva: bool, ptr: nat, at: nat, cap: nat): Option<seq<Vec>>
    requires i <= |t|
  {
    PlanVecs(Vectors(k, t[i..], lva, ptr, at, cap))
  }

  /** Slots whose flag is down are walked over. */
  lemma {:induction false} SkipUnflagged(k: Kind, slots: seq<Slot>, m: nat, lva: bool, ptr: nat, at: nat, cap: nat)
    requires m <= |slots| && forall j | 0 <= j < m :: !slots[j].tx
    ensures PlanVecs(Vectors(k, slots, lva, ptr, at, cap)) == PlanVecs(Vectors(k, slots[m..], lva, ptr, at, cap))
  {
    if m == 0 {
      assert slots[m..] == slots;
    } else if ptr + MinVector(k) + ENDMARK_SIZE < cap {
      SkipUnflagged(k, slots[1..], m - 1, lva, ptr, at, cap);
      assert slots[1..][m - 1..] == slots[m..];
    }
  }

  lemma ToComeSkips(k: Kind, t: seq<Slot>, i: nat, lva: bool, ptr: nat, at: nat, cap: nat)
    requires i < |t| && PassedOver(k, t[i]) && ptr + MinVector(k) + ENDMARK_SIZE < cap
    ensures ToCome(k, t, i, lva, ptr, at, cap) == ToCome(k, t, i + 1, lva, ptr, at, cap)
    ensures ToCome(k, t[i := ClearTx(t[i])], i + 1, lva, ptr, at, cap) == ToCome(k, t, i + 1, lva, ptr, at, cap)
  {
    assert t[i..][1..] == t[i + 1..] && t[i..][0] == t[i];
    assert t[i := ClearTx(t[i])][i + 1..] == t[i + 1..];
  }

  lemma ToComeTakes(k: Kind, t: seq<Slot>, i: nat, lva: bool, ptr: nat, at: nat, cap: nat)
    requires i < |t| && !PassedOver(k, t[i]) && ptr + MinVector(k) + ENDMARK_SIZE < cap
    ensures !Writable(t, i, at, cap) ==> ToCome(k, t, i, lva, ptr, at, cap).None?
    ensures Writable(t, i, at, cap) ==>
              var n := RunLength(t, i);
              var end := at + VecSize(k, n);
              ToCome(k, t, i, lva, ptr, at, cap)
              == Prepend([VecOf(t, i, lva)], ToCome(k, t, i + n, false, end, end, cap))
  {
    hide Wire, Succ, Room, VecSize;
    var n := RunLength(t, i);
    assert t[i..][1..] == t[i + 1..] && t[i..][0] == t[i];
    assert t[i..][..n] == t[i..i + n];
    assert t[i..][n..] == t[i + n..];
  }

  /** After a vector the loop walks over the riders, whose flags are down. */
  lemma ToComeAfter(k: Kind, t: seq<Slot>, i: nat, n: nat, at: nat, cap: nat)
    requires 0 < n && i + n <= |t|
    ensures var t' := ClearedFrom(t, i + 1, i + n);
      ToCome(k, t'[i := ClearTx(t'[i])], i + 1, false, at, at, cap) == ToCome(k, t, i + n, false, at, at, cap)
  {
    var t' := ClearedFrom(t, i + 1, i + n);
    var slots := t'[i := ClearTx(t'[i])][i + 1..];
    SkipUnflagged(k, slots, n - 1, false, at, at, cap);
    assert slots[n - 1..] == t[i + n..];
  }

  lemma OwedTaken(k: Kind, t: seq<Slot>, i: nat, lva: bool, ptr: nat, at: nat, cap: nat, u: seq<Slot>, end: nat)
    requires i < |t| && !PassedOver(k, t[i]) && ptr + MinVector(k) + ENDMARK_SIZE < cap && Writable(t, i, at, cap)
    requires u == ClearedFrom(t, i + 1, i + RunLength(t, i)) && end == at + VecSize(k, RunLength(t, i))
    ensures ToCome(k, t, i, lva, ptr, at, cap)
         == Prepend([VecOf(t, i, lva)], ToCome(k, u[i := ClearTx(u[i])], i + 1, false, end, end, cap))
  {
    hide ToCome, VecOf, VecSize;
    ToComeTakes(k, t, i, lva, ptr, at, cap);
    ToComeAfter(k, t, i, RunLength(t, i), end, cap);
  }

  /** The vectors so far, behind the four bytes of the message header, up to offset `at`. */
  ghost predicate Written(f: seq<byte>, base: nat, done: seq<Vec>, at: nat) {
    at == 4 + |VecsBytes(done)| && Holds(f, base + 4, VecsBytes(done))
  }

  lemma WrittenNext(f: seq<byte>, g: seq<byte>, base: nat, done: seq<Vec>, at: nat, v: Vec)
    requires Written(f, base, done, at) && |f| == |g| && base + at <= |f|
    requires f[..base + at] == g[..base + at] && Holds(g, base + at, VecBytes(v))
    ensures Written(g, base, done + [v], at + |VecBytes(v)|)
  {
    hide VecBytes, VecsBytes;
    HoldsBefore(f, g, base + at, base + 4, VecsBytes(done));
    HoldsJoin(g, base + 4, VecsBytes(done), VecBytes(v));
    VecsBytesAppend(done, v);
  }

  lemma VecOfSize(t: seq<Slot>, i: nat, lva: bool)
    requires i < |t| && RunItems(t, i).Some?
    ensures |VecBytes(VecOf(t, i, lva))| == VecSize(KindOf(t[i].value), RunLength(t, i))
  {}

  /** A round of the outer loop that finds something owed at position `i`. */
  method EmitOwed(k: Kind, t: seq<Slot>, i: nat, buf: array<byte>, base: nat, ptr: nat, at: nat, lva: bool, eof: nat)
    returns (ok: bool, t': seq<Slot>, at': nat, hi: nat, ghost v: Vec)
    requires i < |t| && !PassedOver(k, t[i]) && base + at <= eof && ENDMARK_SIZE <= eof && eof + SLACK <= buf.Length
    requires ptr + MinVector(k) + ENDMARK_SIZE < eof - base
    modifies buf
    ensures buf[..base + at] == old(buf[..base + at]) && OnlyTxCleared(k, t, t')
    ensures !ok ==> ToCome(k, t, i, lva, ptr, at, eof - base).None?
    ensures ok ==>
      ToCome(k, t, i, lva, ptr, at, eof - base) == Prepend([v], ToCome(k, t', i + 1, false, at', at', eof - base))
    ensures ok ==> Holds(buf[..], base + at, VecBytes(v)) && at' == at + |VecBytes(v)|
    ensures ok ==> base + at' + ENDMARK_SIZE <= eof && hi == base + at'
    ensures base + at <= hi && Untouched(old(buf[..]), buf[..], hi)
    ensures hi <= eof <==> base + at + VecSize(k, 0) + Unguarded(t, i) <= eof
  {
    hide ToCome, VecOf, VecBytes, RunItems, RunLength, OnlyTxCleared, Unguarded, Untouched, Writable, VecSize,
         MinVector, KindOf, Holds, Prepend, ClearedFrom;
    ghost var cap := eof - base;
    v := Vec(lva, t[i].value, []);
    var u;
    ok, u, at', hi := EmitVector(t, i, buf, base, at, lva, eof);
    SameSize(k, t, u);
    t' := u[i := ClearTx(u[i])];
    ClearOne(k, t, u, i);
    OnlyTxClearedTwice(k, t, u, t');
    if ok {
      WritableEnds(t, i, at, cap);
      v := VecOf(t, i, lva);
      VecOfSize(t, i, lva);
      OwedTaken(k, t, i, lva, ptr, at, cap, u, at');
    } else {
      ToComeTakes(k, t, i, lva, ptr, at, cap);
    }
  }

  lemma WritableEnds(s: seq<Slot>, i: nat, at: nat, cap: nat)
    requires i < |s| && Writable(s, i, at, cap)
    ensures RunItems(s, i).Some? && at + VecSize(KindOf(s[i].value), RunLength(s, i)) + ENDMARK_SIZE <= cap
  {
    hide RunItems, RunLength, VecSize, KindOf;
  }

  lemma SameSize(k: Kind, s: seq<Slot>, t: seq<Slot>)
    requires OnlyTxCleared(k, s, t)
    ensures |s| == |t|
  {}

  lemma ClearOne(k: Kind, s: seq<Slot>, t: seq<Slot>, i: nat)
    requires OnlyTxCleared(k, s, t) && i < |t| && KindOf(s[i].value) == k
    ensures OnlyTxCleared(k, t, t[i := ClearTx(t[i])])
  {}

  lemma SameKind(k: Kind, s: seq<Slot>, t: seq<Slot>, i: nat)
    requires OnlyTxCleared(k, s, t) && i < |t|
    ensures |s| == |t| && s[i].value == t[i].value
  {
    assert t[i] == s[i] || t[i] == ClearTx(s[i]);
  }

  /** What the outer loop keeps: `done` with what is to come is the whole plan. */
  ghost predicate Emitting(k: Kind, s: seq<Slot>, lva0: bool, t: seq<Slot>, i: nat, lva: bool, ptr: nat, at: nat,
                           cap: nat, done: seq<Vec>)
  {
    && i <= |t| && OnlyTxCleared(k, s, t)
    && ToCome(k, s, 0, lva0, 0, 4, cap) == Prepend(done, ToCome(k, t, i, lva, ptr, at, cap))
  }

  lemma EmittingStart(k: Kind, s: seq<Slot>, lva: bool, cap: nat)
    ensures Emitting(k, s, lva, s, 0, lva, 0, 4, cap, [])
  {
    PrependNothing(ToCome(k, s, 0, lva, 0, 4, cap));
  }

  lemma EmittingSkips(k: Kind, s: seq<Slot>, lva0: bool, t: seq<Slot>, i: nat, lva: bool, ptr: nat, at: nat,
                      cap: nat, done: seq<Vec>)
    requires Emitting(k, s, lva0, t, i, lva, ptr, at, cap, done)
    requires i < |t| && PassedOver(k, t[i]) && ptr + MinVector(k) + ENDMARK_SIZE < cap
    ensures Emitting(k, s, lva0, t, i + 1, lva, ptr, at, cap, done)
    ensures KindOf(t[i].value) == k ==> Emitting(k, s, lva0, t[i := ClearTx(t[i])], i + 1, lva, ptr, at, cap, done)
  {
    hide ToCome;
    ToComeSkips(k, t, i, lva, ptr, at, cap);
    if KindOf(t[i].value) == k {
      assert t[i] == s[i] || t[i] == ClearTx(s[i]);
      ClearOne(k, s, t, i);
      OnlyTxClearedTwice(k, s, t, t[i := ClearTx(t[i])]);
    }
  }

  lemma EmittingTakes(k: Kind, s: seq<Slot>, lva0: bool, t: seq<Slot>, i: nat, lva: bool, ptr: nat, at: nat,
                      cap: nat, done: seq<Vec>, t': seq<Slot>, at': nat, v: Vec)
    requires Emitting(k, s, lva0, t, i, lva, ptr, at, cap, done) && i < |t| && OnlyTxCleared(k, t, t')
    requires ToCome(k, t, i, lva, ptr, at, cap) == Prepend([v], ToCome(k, t', i + 1, false, at', at', cap))
    ensures Emitting(k, s, lva0, t', i + 1, false, at', at', cap, done + [v])
  {
    hide ToCome;
    PrependTwice(done, [v], ToCome(k, t', i + 1, false, at', at', cap));
    OnlyTxClearedTwice(k, s, t, t');
  }

  lemma EmittingEnds(k: Kind, s: seq<Slot>, lva0: bool, t: seq<Slot>, i: nat, lva: bool, ptr: nat, at: nat,
                     cap: nat, done: seq<Vec>)
    requires Emitting(k, s, lva0, t, i, lva, ptr, at, cap, done)
    requires i == |t| || ptr + MinVector(k) + ENDMARK_SIZE >= cap
    ensures PlanVecs(Vectors(k, s, lva0, 0, 4, cap)) == Some(done)
  {
    assert s[0..] == s;
    assert ToCome(k, t, i, lva, ptr, at, cap) == Some([]);
    assert done + [] == done;
  }

  lemma EmittingFails(k: Kind, s: seq<Slot>, lva0: bool, t: seq<Slot>, i: nat, lva: bool, ptr: nat, at: nat,
                      cap: nat, done: seq<Vec>)
    requires Emitting(k, s, lva0, t, i, lva, ptr, at, cap, done) && ToCome(k, t, i, lva, ptr, at, cap).None?
    ensures PlanVecs(Vectors(k, s, lva0, 0, 4, cap)) == None
  {
    assert s[0..] == s;
  }

  /** Nothing owed has turned up in front of position `i`, and from there on the list is as it was. */
  ghost predicate Looking(k: Kind, s: seq<Slot>, t: seq<Slot>, i: nat) {
    i <= |s| == |t| && t[i..] == s[i..] && forall j | 0 <= j < i :: PassedOver(k, s[j])
  }

  lemma LookingOn(k: Kind, s: seq<Slot>, t: seq<Slot>, i: nat)
    requires Looking(k, s, t, i) && i < |t| && PassedOver(k, t[i])
    ensures Looking(k, s, t, i + 1) && Looking(k, s, t[i := ClearTx(t[i])], i + 1)
  {
    assert t[i..][0] == t[i] && s[i..][0] == s[i];
    assert t[i + 1..] == t[i..][1..] && s[i + 1..] == s[i..][1..];
    assert t[i := ClearTx(t[i])][i + 1..] == t[i + 1..];
  }

  lemma FirstFound(k: Kind, s: seq<Slot>, t: seq<Slot>, i: nat)
    requires Looking(k, s, t, i) && i < |t| && !PassedOver(k, t[i])
    ensures FirstOwed(k, s) == i && Unguarded(t, i) == Unguarded(s, i)
  {
    hide Succ, Riders;
    assert t[i..][0] == t[i] && s[i..][0] == s[i];
    assert t[i + 1..] == t[i..][1..] && s[i + 1..] == s[i..][1..];
  }

  lemma NoneFound(k: Kind, s: seq<Slot>, t: seq<Slot>)
    requires Looking(k, s, t, |t|)
    ensures FirstOwed(k, s) == |s|
  {}

  /** The writes of the outer loop stay within the room the emitter is given. */
  predicate LoopInside(k: Kind, s: seq<Slot>, cap: nat) {
    Idle(k, s, cap) || 4 + VecSize(k, 0) + Unguarded(s, FirstOwed(k, s)) <= cap
  }

  /** How far the outer loop has written. */
  ghost predicate Reached(k: Kind, s: seq<Slot>, t: seq<Slot>, i: nat, found: bool, base: nat, ptr: nat, at: nat,
                          hi: nat, eof: nat)
  {
    if found then ptr == at && hi == base + at && base + at + ENDMARK_SIZE <= eof && LoopInside(k, s, eof - base)
                  && !Idle(k, s, eof - base)
    else ptr == 0 && at == 4 && hi == base && base + at <= eof && Looking(k, s, t, i)
  }

  lemma ReachedOn(k: Kind, s: seq<Slot>, t: seq<Slot>, i: nat, found: bool, base: nat, ptr: nat, at: nat, hi: nat,
                  eof: nat)
    requires Reached(k, s, t, i, found, base, ptr, at, hi, eof) && i < |t| && PassedOver(k, t[i])
    ensures Reached(k, s, t, i + 1, found, base, ptr, at, hi, eof)
    ensures Reached(k, s, t[i := ClearTx(t[i])], i + 1, found, base, ptr, at, hi, eof)
  {
    hide LoopInside, Idle;
    if !found {
      LookingOn(k, s, t, i);
    }
  }

  /** Only the first vector of a message can leave the buffer. */
  lemma ReachedFurther(k: Kind, s: seq<Slot>, t: seq<Slot>, i: nat, found: bool, base: nat, ptr: nat, at: nat, hi: nat,
                       eof: nat, hi': nat)
    requires Reached(k, s, t, i, found, base, ptr, at, hi, eof) && i < |t| && !PassedOver(k, t[i])
    requires ptr + MinVector(k) + ENDMARK_SIZE < eof - base
    requires hi' <= eof <==> base + at + VecSize(k, 0) + Unguarded(t, i) <= eof
    ensures hi' <= eof <==> LoopInside(k, s, eof - base)
    ensures !Idle(k, s, eof - base)
  {
    hide RunLength, FirstOwed;
    if found {
      assert KindOf(t[i].value) == k;
    } else {
      LookingAhead(k, s, t, i);
      FirstFound(k, s, t, i);
    }
  }

  lemma LookingAhead(k: Kind, s: seq<Slot>, t: seq<Slot>, i: nat)
    requires Looking(k, s, t, i) && i < |t|
    ensures i < |s|
  {}

  lemma ReachedEnd(k: Kind, s: seq<Slot>, t: seq<Slot>, i: nat, found: bool, base: nat, ptr: nat, at: nat, hi: nat,
                   eof: nat)
    requires Reached(k, s, t, i, found, base, ptr, at, hi, eof) && base <= eof
    requires i == |t| || ptr + MinVector(k) + ENDMARK_SIZE >= eof - base
    ensures LoopInside(k, s, eof - base) && hi <= eof && (!found <==> Idle(k, s, eof - base))
  {
    if !found && i == |t| {
      NoneFound(k, s, t);
    }
  }

  /** All that the outer loop keeps; `f0` is the buffer as it was. */
  ghost predicate Outer(k: Kind, s: seq<Slot>, lva0: bool, f0: seq<byte>, f: seq<byte>, t: seq<Slot>, i: nat, lva: bool,
                        found: bool, base: nat, ptr: nat, at: nat, hi: nat, eof: nat, done: seq<Vec>)
  {
    && base + 4 <= |f| == |f0| && f[..base + 4] == f0[..base + 4] && Untouched(f0, f, hi)
    && base <= eof && Emitting(k, s, lva0, t, i, lva, ptr, at, eof - base, done) && OnlyTxCleared(k, s, t)
    && Written(f, base, done, at) && (found <==> done != []) && Reached(k, s, t, i, found, base, ptr, at, hi, eof)
  }

  lemma OuterStart(k: Kind, s: seq<Slot>, lva: bool, f: seq<byte>, base: nat, eof: nat)
    requires base + 4 <= eof <= |f|
    ensures Outer(k, s, lva, f, f, s, 0, lva, false, base, 0, 4, base, eof, [])
  {
    hide Emitting;
    EmittingStart(k, s, lva, eof - base);
    ClearedIsOnly(k, s, 0, 0);
  }

  lemma OuterSkips(k: Kind, s: seq<Slot>, lva0: bool, f0: seq<byte>, f: seq<byte>, t: seq<Slot>, i: nat, lva: bool,
                   found: bool, base: nat, ptr: nat, at: nat, hi: nat, eof: nat, done: seq<Vec>)
    requires Outer(k, s, lva0, f0, f, t, i, lva, found, base, ptr, at, hi, eof, done)
    requires i < |t| && PassedOver(k, t[i]) && ptr + MinVector(k) + ENDMARK_SIZE < eof - base
    ensures Outer(k, s, lva0, f0, f, t, i + 1, lva, found, base, ptr, at, hi, eof, done)
    ensures KindOf(t[i].value) == k ==>
      Outer(k, s, lva0, f0, f, t[i := ClearTx(t[i])], i + 1, lva, found, base, ptr, at, hi, eof, done)
  {
    hide Emitting, OnlyTxCleared, Written, Reached;
    EmittingSkips(k, s, lva0, t, i, lva, ptr, at, eof - base, done);
    ReachedOn(k, s, t, i, found, base, ptr, at, hi, eof);
    if KindOf(t[i].value) == k {
      SameKind(k, s, t, i);
      ClearOne(k, s, t, i);
      OnlyTxClearedTwice(k, s, t, t[i := ClearTx(t[i])]);
    }
  }

  method OuterTakes(k: Kind, ghost s: seq<Slot>, ghost lva0: bool, ghost f0: seq<byte>, buf: array<byte>, t: seq<Slot>,
                    i: nat, lva: bool, ghost found: bool, base: nat, ptr: nat, at: nat, ghost hi: nat, eof: nat,
                    ghost done: seq<Vec>)
    returns (ok: bool, t': seq<Slot>, at': nat, hi': nat, ghost v: Vec)
    requires Outer(k, s, lva0, f0, buf[..], t, i, lva, found, base, ptr, at, hi, eof, done)
    requires i < |t| && !PassedOver(k, t[i]) && ptr + MinVector(k) + ENDMARK_SIZE < eof - base
    requires ENDMARK_SIZE <= eof && eof + SLACK <= buf.Length
    modifies buf
    ensures ok ==> Outer(k, s, lva0, f0, buf[..], t', i + 1, false, true, base, at', at', hi', eof, done + [v])
    ensures OnlyTxCleared(k, s, t') && buf[..base + 4] == f0[..base + 4] && Untouched(f0, buf[..], hi')
    ensures !ok ==> PlanVecs(Vectors(k, s, lva0, 0, 4, eof - base)) == None
    ensures hi' <= eof <==> LoopInside(k, s, eof - base)
    ensures !Idle(k, s, eof - base)
  {
    hide ToCome, Emitting, OnlyTxCleared, VecBytes, PlanVecs, Vectors, Looking, LoopInside, Idle, Unguarded, Untouched,
         VecsBytes;
    ghost var b, cap := buf[..], eof - base;
    ok, t', at', hi', v := EmitOwed(k, t, i, buf, base, ptr, at, lva, eof);
    PrefixKept(b, buf[..], base + 4, base + at);
    OnlyTxClearedTwice(k, s, t, t');
    ReachedFurther(k, s, t, i, found, base, ptr, at, hi, eof, hi');
    UntouchedTwice(f0, b, buf[..], hi, hi');
    if ok {
      WrittenNext(b, buf[..], base, done, at, v);
      EmittingTakes(k, s, lva0, t, i, lva, ptr, at, cap, done, t', at', v);
    } else {
      EmittingFails(k, s, lva0, t, i, lva, ptr, at, cap, done);
    }
  }

  /** The outer loop of the four emitters. */
  method EmitVectors(k: Kind, s: seq<Slot>, buf: array<byte>, base: nat, lva: bool, eof: nat)
    returns (ok: bool, t: seq<Slot>, found: bool, at: nat, hi: nat, ghost done: seq<Vec>)
    requires base + MinVector(k) <= eof && eof + SLACK <= buf.Length
    modifies buf
    ensures buf[..base + 4] == old(buf[..base + 4]) && OnlyTxCleared(k, s, t)
    ensures PlanVecs(Vectors(k, s, lva, 0, 4, eof - base)) == if ok then Some(done) else None
    ensures ok ==> Written(buf[..], base, done, at) && (found <==> done != [])
    ensures ok && found ==> base + at + ENDMARK_SIZE <= eof && hi == base + at
    ensures Untouched(old(buf[..]), buf[..], hi) && (ok && !found ==> hi == base)
    ensures hi <= eof <==> LoopInside(k, s, eof - base)
    ensures ok && !found <==> Idle(k, s, eof - base)
  {
    hide ToCome, Emitting, OnlyTxCleared, VecBytes, PlanVecs, Vectors, Looking, LoopInside, Idle, Unguarded, Untouched;
    ghost var f0 := buf[..];
    ok, t, found, done := true, s, false, [];
    var i: nat, ptr: nat, lva' := 0, 0, lva;
    at, hi := 4, base;
    OuterStart(k, s, lva, f0, base, eof);
    while i < |t| && ptr + MinVector(k) + ENDMARK_SIZE < eof - base
      invariant Outer(k, s, lva, f0, buf[..], t, i, lva', found, base, ptr, at, hi, eof, done)
      invariant i <= |t| == |s|
      decreases |s| - i
    {
      if PassedOver(k, t[i]) {
        OuterSkips(k, s, lva, f0, buf[..], t, i, lva', found, base, ptr, at, hi, eof, done);
        if KindOf(t[i].value) == k && t[i].tx {
          t := t[i := ClearTx(t[i])];
        }
      } else {
        var t', at';
        ghost var v;
        ok, t', at', hi, v := OuterTakes(k, s, lva, f0, buf, t, i, lva', found, base, ptr, at, hi, eof, done);
        SameSize(k, s, t');
        t := t';
        if !ok {
          break;
        }
        ptr, at, lva', found, done := at', at', false, true, done + [v];
      }
      i := i + 1;
    }
    if ok {
      EmittingEnds(k, s, lva, t, i, lva', ptr, at, eof - base, done);
      ReachedEnd(k, s, t, i, found, base, ptr, at, hi, eof);
    }
  }

  /* ---------- the message around the vectors ---------- */

  /** "always send out an update, so mark all as ready" */
  method FlagListeners(s: seq<Slot>) returns (t: seq<Slot>)
    ensures t == Flagged(ListenerKind, s)
  {
    t := s;
    var i := 0;
    while i < |t|
      invariant 0 <= i <= |t| == |s|
      invariant forall j | 0 <= j < |s| :: t[j] == if j < i then Flagged(ListenerKind, s)[j] else s[j]
    {
      if t[i].value.Listener? {
        t := t[i := t[i].(tx := true)];
      }
      i := i + 1;
    }
  }

  /** The emitter of kind `k` leaves everything alone but the tx flags of its own kind. */
  ghost predicate TouchesOnly(k: Kind, s: seq<Slot>, t: seq<Slot>) {
    |s| == |t| && forall i | 0 <= i < |s| :: t[i] == s[i] || (KindOf(s[i].value) == k && t[i] == s[i].(tx := t[i].tx))
  }

  lemma NothingTouched(k: Kind, s: seq<Slot>)
    ensures TouchesOnly(k, s, s)
  {}

  lemma FlaggedTouches(k: Kind, s: seq<Slot>, t: seq<Slot>)
    requires OnlyTxCleared(k, Flagged(k, s), t)
    ensures TouchesOnly(k, s, t)
  {
    var f := Flagged(k, s);
    forall i | 0 <= i < |s| ensures t[i] == s[i] || (KindOf(s[i].value) == k && t[i] == s[i].(tx := t[i].tx)) {
      assert t[i] == f[i] || (KindOf(f[i].value) == k && t[i] == ClearTx(f[i]));
    }
  }

  /** End mark and list length complete the message. */
  method CloseMessage(k: Kind, buf: array<byte>, base: nat, at: nat, ghost body: seq<byte>)
    requires Holds(buf[..], base, [TypeByte(k), AttribLen(k)]) && Holds(buf[..], base + 4, body)
    requires at == 4 + |body| && base + at + ENDMARK_SIZE <= buf.Length
    modifies buf
    ensures buf[..base] == old(buf[..base]) && Holds(buf[..], base, MessageOf(k, body))
    ensures Untouched(old(buf[..]), buf[..], base + at + ENDMARK_SIZE)
  {
    hide TypeByte, AttribLen, Word, Untouched, Holds;
    ghost var head: seq<byte> := [TypeByte(k), AttribLen(k)];
    ghost var b := buf[..];
    WriteBytes(buf, base + at, [0, 0]);
    HoldsBefore(b, buf[..], base + at, base, head);
    HoldsBefore(b, buf[..], base + at, base + 4, body);
    PrefixKept(b, buf[..], base, base + at);
    HoldsJoin(buf[..], base + 4, body, [0, 0]);
    ghost var c := buf[..];
    var len := (at - 4 + ENDMARK_SIZE) % 0x1_0000;
    WordSize(len);
    WriteWord(buf, base + 2, len);
    UntouchedMore(c, buf[..], base + 4, base + at + ENDMARK_SIZE);
    UntouchedTwice(b, c, buf[..], base + at + ENDMARK_SIZE, base + at + ENDMARK_SIZE);
    HoldsBefore(c, buf[..], base + 2, base, head);
    HoldsAfter(c, buf[..], base + 4, base + 4, body + [0, 0]);
    PrefixKept(c, buf[..], base, base + 2);
    HoldsJoin(buf[..], base, head, Word(len));
    HoldsJoin(buf[..], base, head + Word(len), body + [0, 0]);
    Associate(head + Word(len), body, [0, 0]);
  }

  /** From `p` on the buffer is as it was cleared. */
  ghost predicate Zeroed(f: seq<byte>, p: nat) {
    forall j | p <= j < |f| :: f[j] == 0
  }

  lemma ZeroedKept(f: seq<byte>, g: seq<byte>, p: nat, hi: nat, q: nat)
    requires Zeroed(f, p) && Untouched(f, g, hi) && p <= q && hi <= q
    ensures Zeroed(g, q)
  {
    forall j | q <= j < |g| ensures g[j] == 0 {
      assert g[hi..][j - hi] == f[hi..][j - hi];
    }
  }

  lemma ZeroesHeld(f: seq<byte>, p: nat, n: nat)
    requires Zeroed(f, p) && p + n <= |f|
    ensures Holds(f, p, Zeroes(n))
  {}

  /** The bare LeaveAll: no values and the zeroes that are there for a first value. */
  method WriteBare(k: Kind, buf: array<byte>, base: nat)
    requires base + 6 + AttribLen(k) <= buf.Length && Zeroed(buf[..], base + 6)
    modifies buf
    ensures buf[..base + 4] == old(buf[..base + 4]) && Untouched(old(buf[..]), buf[..], base + 6)
    ensures Holds(buf[..], base + 4, Word(LVA_FLAG) + Zeroes(AttribLen(k)))
  {
    hide Zeroes, AttribLen;
    WriteWord(buf, base + 4, LVA_FLAG);
    ZeroedKept(old(buf[..]), buf[..], base + 6, base + 6, base + 6);
    ZeroesHeld(buf[..], base + 6, AttribLen(k));
    HoldsJoin(buf[..], base + 4, Word(LVA_FLAG), Zeroes(AttribLen(k)));
  }

  /** The bare LeaveAll as a message of its own; nothing tests whether there is room for it. */
  method EmitBare(k: Kind, buf: array<byte>, base: nat) returns (bytesUsed: nat)
    requires base + 8 + AttribLen(k) <= buf.Length && Holds(buf[..], base, [TypeByte(k), AttribLen(k)])
    requires Zeroed(buf[..], base + 2)
    modifies buf
    ensures bytesUsed == 8 + AttribLen(k) && buf[..base] == old(buf[..base])
    ensures Holds(buf[..], base, MessageOf(k, Word(LVA_FLAG) + Zeroes(AttribLen(k))))
    ensures Untouched(old(buf[..]), buf[..], base + bytesUsed)
  {
    hide Zeroes, TypeByte, AttribLen, MessageOf, Word, Untouched;
    bytesUsed := 6 + AttribLen(k) + ENDMARK_SIZE;
    WordSize(LVA_FLAG);
    ghost var b := buf[..];
    WriteBare(k, buf, base);
    PrefixKept(b, buf[..], base, base + 4);
    HoldsBefore(b, buf[..], base + 4, base, [TypeByte(k), AttribLen(k)]);
    ghost var c := buf[..];
    CloseMessage(k, buf, base, 6 + AttribLen(k), Word(LVA_FLAG) + Zeroes(AttribLen(k)));
    UntouchedTwice(b, c, buf[..], base + 6, base + bytesUsed);
  }

  /** How far a message of `n` bytes from `base` on reaches: the type and length bytes are there even without one. */
  function Extent(base: nat, n: nat): nat {
    base + if n == 0 then 2 else n
  }

  /** Type and length, and then the outer loop. */
  method EmitBody(k: Kind, s: seq<Slot>, buf: array<byte>, base: nat, lva: bool, eof: nat)
    returns (ok: bool, t: seq<Slot>, found: bool, at: nat, hi: nat, ghost done: seq<Vec>)
    requires base + MinVector(k) <= eof && eof + SLACK <= buf.Length
    modifies buf
    ensures buf[..base] == old(buf[..base]) && OnlyTxCleared(k, s, t)
    ensures Holds(buf[..], base, [TypeByte(k), AttribLen(k)])
    ensures PlanVecs(Vectors(k, s, lva, 0, 4, eof - base)) == if ok then Some(done) else None
    ensures ok ==> Written(buf[..], base, done, at) && (found <==> done != [])
    ensures ok && found ==> base + at + ENDMARK_SIZE <= eof && hi == base + at
    ensures Untouched(old(buf[..]), buf[..], hi) && (ok && !found ==> hi == base + 2)
    ensures hi <= eof <==> LoopInside(k, s, eof - base)
    ensures ok && !found <==> Idle(k, s, eof - base)
  {
    hide Vectors, OnlyTxCleared, PlanVecs, TypeByte, Untouched, Idle, LoopInside, Holds, VecsBytes;
    WriteBytes(buf, base, [TypeByte(k), AttribLen(k)]);
    ghost var b := buf[..];
    ok, t, found, at, hi, done := EmitVectors(k, s, buf, base, lva, eof);
    PrefixKept(b, buf[..], base, base + 4);
    HoldsBefore(b, buf[..], base + 4, base, [TypeByte(k), AttribLen(k)]);
    if hi < base + 2 {
      UntouchedMore(b, buf[..], hi, base + 2);
      hi := base + 2;
    }
    UntouchedTwice(old(buf[..]), b, buf[..], base + 2, hi);
  }

  lemma InsideIs(k: Kind, slots: seq<Slot>, s: seq<Slot>, empty: bool, cap: nat)
    requires s == Flagged(k, slots) && MinVector(k) <= cap
    ensures EmitterInside(k, slots, empty, cap) <==>
      LoopInside(k, s, cap) && (Idle(k, s, cap) && empty ==> 8 + AttribLen(k) <= cap)
  {}

  /**
  One emitter, from offset `base` of the frame buffer on. `inside` says whether every write stayed in front of `eof`,
  the end of that buffer: it did under exactly the condition that can be read off the attribute list beforehand.
  */
  method EmitMessage(k: Kind, s: seq<Slot>, buf: array<byte>, base: nat, lva: bool, sendEmpty: bool, eof: nat)
    returns (ok: bool, t: seq<Slot>, bytesUsed: nat, inside: bool)
    requires base <= eof && eof + SLACK <= buf.Length && Zeroed(buf[..], base + 2)
    modifies buf
    ensures buf[..base] == old(buf[..base]) && TouchesOnly(k, s, t)
    ensures ok <==> EmitPlan(k, s, lva, eof - base).Plan?
    ensures ok ==> var m := Message(k, EmitPlan(k, s, lva, eof - base).vecs, sendEmpty);
                   bytesUsed == |m| && Holds(buf[..], base, m)
    ensures ok ==> Untouched(old(buf[..]), buf[..], Extent(base, bytesUsed))
    ensures inside <==> EmitterInside(k, s, sendEmpty, eof - base)
    ensures inside ==> Untouched(old(buf[..]), buf[..], eof)
  {
    hide Vectors, Flagged, OnlyTxCleared, VecsBytes, MessageOf, TouchesOnly, Zeroes, TypeByte, Untouched, Idle,
         LoopInside, EmitterInside, Zeroed, Holds;
    NothingTouched(k, s);
    UntouchedHere(buf[..], eof);
    ok, t, bytesUsed, inside := false, s, 0, true;
    if base + MinVector(k) > eof {
      TooSmallInside(k, s, sendEmpty, eof - base);
    } else {
      var flagged := s;
      if k == ListenerKind {
        flagged := FlagListeners(s);
      }
      FlaggedIs(k, s, flagged);
      InsideIs(k, s, flagged, sendEmpty, eof - base);
      var found, at, hi;
      ghost var done;
      ok, t, found, at, hi, done := EmitBody(k, flagged, buf, base, lva, eof);
      FlaggedTouches(k, s, t);
      ghost var b := buf[..];
      if ok && found {
        CloseMessage(k, buf, base, at, VecsBytes(done));
        MessageSize(k, VecsBytes(done));
        bytesUsed := at + ENDMARK_SIZE;
        UntouchedTwice(old(buf[..]), b, buf[..], hi, base + bytesUsed);
        hi := base + bytesUsed;
      } else if ok && sendEmpty {
        MessageSize(k, Word(LVA_FLAG) + Zeroes(AttribLen(k)));
        ZeroedKept(old(buf[..]), b, base + 2, base + 2, base + 2);
        bytesUsed := EmitBare(k, buf, base);
        UntouchedTwice(old(buf[..]), b, buf[..], hi, base + bytesUsed);
        hi := base + bytesUsed;
      } else if ok {
        HoldsNothing(buf[..], base);
      }
      inside := hi <= eof;
      if inside {
        UntouchedMore(old(buf[..]), buf[..], hi, eof);
      }
    }
  }

  lemma TooSmallInside(k: Kind, s: seq<Slot>, empty: bool, cap: nat)
    requires cap < MinVector(k)
    ensures EmitterInside(k, s, empty, cap)
  {}

  lemma FlaggedIs(k: Kind, s: seq<Slot>, f: seq<Slot>)
    requires f == if k == ListenerKind then Flagged(ListenerKind, s) else s
    ensures f == Flagged(k, s)
  {}

  lemma MessageSize(k: Kind, body: seq<byte>)
    ensures |MessageOf(k, body)| == |body| + 6
  {}

  /* ---------- one emitter after the other ---------- */

  /** Two lists an emitter of kind `k` cannot tell apart. */
  ghost predicate Agree(k: Kind, s: seq<Slot>, t: seq<Slot>) {
    |s| == |t| &&
    forall i | 0 <= i < |s| :: KindOf(t[i].value) == KindOf(s[i].value) && (KindOf(s[i].value) == k ==> t[i] == s[i])
  }

  lemma AgreeDrop(k: Kind, s: seq<Slot>, t: seq<Slot>, n: nat)
    requires Agree(k, s, t) && n <= |s|
    ensures Agree(k, s[n..], t[n..])
  {}

  lemma AgreeFlagged(k: Kind, s: seq<Slot>, t: seq<Slot>)
    requires Agree(k, s, t)
    ensures Agree(k, Flagged(k, s), Flagged(k, t))
  {
    var f, g := Flagged(k, s), Flagged(k, t);
    forall i | 0 <= i < |f|
      ensures KindOf(g[i].value) == KindOf(f[i].value) && (KindOf(f[i].value) == k ==> g[i] == f[i])
    {
      assert KindOf(s[i].value) == KindOf(t[i].value);
    }
  }

  lemma {:induction false} RidersAgree(k: Kind, s: seq<Slot>, t: seq<Slot>, expected: Value)
    requires Agree(k, s, t) && KindOf(expected) == k
    ensures Riders(t, expected) == Riders(s, expected)
    ensures s[..Riders(s, expected)] == t[..Riders(s, expected)]
  {
    hide Agree, Succ, KindOf, Rides;
    AgreeHead(k, s, t);
    if s != [] {
      RidesKind(expected, s[0].value);
      RidesKind(expected, t[0].value);
      if s[0].tx && Rides(expected, s[0].value) {
        AgreeDrop(k, s, t, 1);
        SuccKind(expected);
        RidersAgree(k, s[1..], t[1..], Succ(expected));
        FrontAgrees(s, t, Riders(s, expected));
      }
    }
  }

  lemma RidesKind(expected: Value, v: Value)
    ensures Rides(expected, v) ==> KindOf(v) == KindOf(expected)
  {}

  lemma FrontAgrees(s: seq<Slot>, t: seq<Slot>, n: nat)
    requires 0 < n <= |s| == |t| && s[0] == t[0] && s[1..][..n - 1] == t[1..][..n - 1]
    ensures s[..n] == t[..n]
  {
    assert s[..n] == [s[0]] + s[1..][..n - 1] && t[..n] == [t[0]] + t[1..][..n - 1];
  }

  lemma RunAgrees(k: Kind, s: seq<Slot>, t: seq<Slot>)
    requires Agree(k, s, t) && s != [] && KindOf(s[0].value) == k
    ensures t != [] && t[0] == s[0]
    ensures var n := 1 + Riders(s[1..], Succ(s[0].value));
      n == 1 + Riders(t[1..], Succ(t[0].value)) && s[..n] == t[..n]
  {
    hide Agree, Succ, KindOf, Riders;
    AgreeHead(k, s, t);
    AgreeDrop(k, s, t, 1);
    SuccKind(s[0].value);
    RidersAgree(k, s[1..], t[1..], Succ(s[0].value));
    FrontAgrees(s, t, 1 + Riders(s[1..], Succ(s[0].value)));
  }

  lemma AgreeHead(k: Kind, s: seq<Slot>, t: seq<Slot>)
    requires Agree(k, s, t)
    ensures |s| == |t|
    ensures s != [] ==> KindOf(t[0].value) == KindOf(s[0].value) && (KindOf(s[0].value) == k ==> t[0] == s[0])
  {}

  lemma {:induction false} VectorsAgree(k: Kind, s: seq<Slot>, t: seq<Slot>, lva: bool, ptr: nat, at: nat, cap: nat)
    requires Agree(k, s, t)
    ensures PlanVecs(Vectors(k, t, lva, ptr, at, cap)) == PlanVecs(Vectors(k, s, lva, ptr, at, cap))
    decreases |s|
  {
    hide Vectors, Riders, Items, Room, VecSize, Wire, Succ, MinVector, Agree;
    AgreeHead(k, s, t);
    if s == [] || ptr + MinVector(k) + ENDMARK_SIZE >= cap {
      VectorsStop(k, s, lva, ptr, at, cap);
      VectorsStop(k, t, lva, ptr, at, cap);
    } else if PassedOver(k, s[0]) {
      VectorsSkip(k, s, lva, ptr, at, cap);
      VectorsSkip(k, t, lva, ptr, at, cap);
      AgreeDrop(k, s, t, 1);
      VectorsAgree(k, s[1..], t[1..], lva, ptr, at, cap);
    } else {
      RunAgrees(k, s, t);
      var n := 1 + Riders(s[1..], Succ(s[0].value));
      var end := at + VecSize(k, n);
      VectorsTake(k, s, lva, ptr, at, cap, n);
      VectorsTake(k, t, lva, ptr, at, cap, n);
      AgreeDrop(k, s, t, n);
      VectorsAgree(k, s[n..], t[n..], false, end, end, cap);
    }
  }

  lemma EmitAgrees(k: Kind, s: seq<Slot>, t: seq<Slot>, lva: bool, cap: nat)
    requires Agree(k, s, t)
    ensures PlanVecs(EmitPlan(k, t, lva, cap)) == PlanVecs(EmitPlan(k, s, lva, cap))
  {
    AgreeFlagged(k, s, t);
    VectorsAgree(k, Flagged(k, s), Flagged(k, t), lva, 0, 4, cap);
  }

  ghost predicate AgreeAll(kinds: seq<Kind>, s: seq<Slot>, t: seq<Slot>) {
    forall k | k in kinds :: Agree(k, s, t)
  }

  lemma TouchedAgrees(kinds: seq<Kind>, s0: seq<Slot>, s: seq<Slot>, t: seq<Slot>)
    requires kinds != [] && AgreeAll(kinds, s0, s) && TouchesOnly(kinds[0], s, t) && Distinct(kinds)
    ensures AgreeAll(kinds[1..], s0, t) && Distinct(kinds[1..])
  {
    forall k | k in kinds[1..] ensures Agree(k, s0, t) {
      assert k in kinds && k != kinds[0];
      assert Agree(k, s0, s);
      forall i | 0 <= i < |s0|
        ensures KindOf(t[i].value) == KindOf(s0[i].value) && (KindOf(s0[i].value) == k ==> t[i] == s0[i])
      {
        assert t[i] == s[i] || (KindOf(s[i].value) == kinds[0] && t[i] == s[i].(tx := t[i].tx));
        assert KindOf(s[i].value) == KindOf(s0[i].value);
      }
    }
  }

  lemma MessagesStep(kinds: seq<Kind>, s: seq<Slot>, lva: bool, at: nat)
    requires kinds != [] && at <= CAPACITY && !(kinds[0] == ListenerKind && at + ENDMARK_SIZE >= CAPACITY)
    ensures var plan := EmitPlan(kinds[0], s, lva, CAPACITY - at);
      if plan.Oops? then Messages(kinds, s, lva, at) == None
      else
        var m := Message(kinds[0], plan.vecs, lva);
        var rest := Messages(kinds[1..], s, lva, at + |m|);
        Messages(kinds, s, lva, at) == if rest.None? then None else Some(m + rest.value)
  {
    hide EmitPlan, Message;
  }

  lemma MessagesStuck(kinds: seq<Kind>, s: seq<Slot>, lva: bool, at: nat)
    requires kinds != [] && (at > CAPACITY || (kinds[0] == ListenerKind && at + ENDMARK_SIZE >= CAPACITY))
    ensures Messages(kinds, s, lva, at) == None
  {}

  lemma HoldsNothing(f: seq<byte>, p: nat)
    requires p <= |f|
    ensures Holds(f, p, [])
  {}

  lemma MessagesNone(s: seq<Slot>, lva: bool, at: nat)
    ensures Messages([], s, lva, at) == Some([])
  {}

  ghost predicate Distinct(kinds: seq<Kind>) {
    forall i, j | 0 <= i < j < |kinds| :: kinds[i] != kinds[j]
  }

  lemma FirstAgrees(k: Kind, s: seq<Slot>, t: seq<Slot>)
    requires Agree(k, s, t)
    ensures FirstOwed(k, t) == FirstOwed(k, s)
    ensures FirstOwed(k, s) < |s| ==> Unguarded(t, FirstOwed(k, s)) == Unguarded(s, FirstOwed(k, s))
  {
    hide Riders, Succ, Unguarded, FirstOwed, KindOf, Agree;
    FirstSame(k, s, t);
    var i := FirstOwed(k, s);
    if i < |s| {
      AgreeDrop(k, s, t, i);
      UnguardedAgrees(k, s, t, i);
    }
  }

  lemma FirstSame(k: Kind, s: seq<Slot>, t: seq<Slot>)
    requires Agree(k, s, t)
    ensures |s| == |t| && FirstOwed(k, t) == FirstOwed(k, s)
  {
    hide KindOf;
    var i, j := FirstOwed(k, s), FirstOwed(k, t);
    assert i < |s| ==> KindOf(s[i].value) == k && t[i] == s[i];
    assert j < |t| ==> KindOf(t[j].value) == k && t[j] == s[j];
  }

  lemma UnguardedAgrees(k: Kind, s: seq<Slot>, t: seq<Slot>, i: nat)
    requires |s| == |t| && i < |s| && KindOf(s[i].value) == k && Agree(k, s[i..], t[i..])
    ensures Unguarded(t, i) == Unguarded(s, i)
  {
    hide Riders, Succ, KindOf, Agree;
    RunAgrees(k, s[i..], t[i..]);
    assert s[i..][1..] == s[i + 1..] && t[i..][1..] == t[i + 1..];
    assert s[i..][0] == s[i] && t[i..][0] == t[i];
  }

  lemma InsideAgrees(k: Kind, s: seq<Slot>, t: seq<Slot>, empty: bool, cap: nat)
    requires Agree(k, s, t)
    ensures EmitterInside(k, t, empty, cap) == EmitterInside(k, s, empty, cap)
  {
    hide Unguarded, FirstOwed, Flagged, Agree;
    AgreeFlagged(k, s, t);
    AgreeHead(k, Flagged(k, s), Flagged(k, t));
    FirstAgrees(k, Flagged(k, s), Flagged(k, t));
  }

  /** The next emitter of `kinds`, whatever the ones before it did to the flags of their own kinds. */
  method EmitNext(kinds: seq<Kind>, s: seq<Slot>, buf: array<byte>, at: nat, lva: bool, sendEmpty: bool,
                  ghost s0: seq<Slot>)
    returns (ok: bool, t: seq<Slot>, used: nat, inside: bool, ghost m: seq<byte>)
    requires buf.Length == MAX_FRAME_SIZE + SLACK && sendEmpty == lva
    requires kinds != [] && Distinct(kinds) && AgreeAll(kinds, s0, s)
    requires at <= CAPACITY && !(kinds[0] == ListenerKind && at + ENDMARK_SIZE >= CAPACITY)
    requires Zeroed(buf[..], MESSAGE_LIST + at + 2)
    modifies buf
    ensures buf[..MESSAGE_LIST + at] == old(buf[..MESSAGE_LIST + at])
    ensures Distinct(kinds[1..]) && AgreeAll(kinds[1..], s0, t)
    ensures !ok ==> Messages(kinds, s0, lva, at) == None
    ensures ok ==> used == |m| && Holds(buf[..], MESSAGE_LIST + at, m) && Zeroed(buf[..], MESSAGE_LIST + at + used + 2)
    ensures ok ==> var rest := Messages(kinds[1..], s0, lva, at + used);
                   Messages(kinds, s0, lva, at) == if rest.None? then None else Some(m + rest.value)
    ensures InsideFrom(kinds, s0, lva, at) <==> inside && (ok ==> InsideFrom(kinds[1..], s0, lva, at + used))
    ensures inside ==> Untouched(old(buf[..]), buf[..], MAX_FRAME_SIZE)
  {
    hide Messages, EmitPlan, Message, Agree, TouchesOnly, EmitterInside, InsideFrom, Zeroed, Untouched, Holds;
    ghost var cap := CAPACITY - at;
    MessagesStep(kinds, s0, lva, at);
    InsideStep(kinds, s0, lva, at);
    assert kinds[0] in kinds;
    EmitAgrees(kinds[0], s0, s, lva, cap);
    InsideAgrees(kinds[0], s0, s, lva, cap);
    ok, t, used, inside := EmitMessage(kinds[0], s, buf, MESSAGE_LIST + at, lva, sendEmpty, MAX_FRAME_SIZE);
    TouchedAgrees(kinds, s0, s, t);
    m := [];
    if ok {
      m := Message(kinds[0], EmitPlan(kinds[0], s0, lva, cap).vecs, lva);
      ZeroedKept(old(buf[..]), buf[..], MESSAGE_LIST + at + 2, Extent(MESSAGE_LIST + at, used),
                 MESSAGE_LIST + at + used + 2);
    }
  }

  /** The emitters `kinds` from offset `at` of the message list on; `s0` is the list as it was before the first one. */
  method EmitMessages(kinds: seq<Kind>, s: seq<Slot>, buf: array<byte>, at: nat, lva: bool, sendEmpty: bool,
                      ghost s0: seq<Slot>)
    returns (ok: bool, t: seq<Slot>, end: nat, inside: bool)
    requires buf.Length == MAX_FRAME_SIZE + SLACK && sendEmpty == lva && Distinct(kinds) && AgreeAll(kinds, s0, s)
    requires Zeroed(buf[..], MESSAGE_LIST + at + 2)
    modifies buf
    ensures at <= CAPACITY ==> buf[..MESSAGE_LIST + at] == old(buf[..MESSAGE_LIST + at])
    ensures at > CAPACITY ==> buf[..] == old(buf[..])
    ensures ok <==> Messages(kinds, s0, lva, at).Some?
    ensures ok ==> end == at + |Messages(kinds, s0, lva, at).value|
    ensures ok && end <= CAPACITY ==> Holds(buf[..], MESSAGE_LIST + at, Messages(kinds, s0, lva, at).value)
    ensures inside <==> InsideFrom(kinds, s0, lva, at)
    ensures inside ==> Untouched(old(buf[..]), buf[..], MAX_FRAME_SIZE)
    decreases |kinds|
  {
    hide Messages, Distinct, AgreeAll, Holds, InsideFrom, Zeroed, Untouched, Agree;
    ok, t, end, inside := true, s, at, true;
    UntouchedHere(buf[..], MAX_FRAME_SIZE);
    if kinds == [] {
      MessagesNone(s0, lva, at);
      InsideStuck(kinds, s0, lva, at);
      if at <= CAPACITY {
        HoldsNothing(buf[..], MESSAGE_LIST + at);
      }
    } else if at > CAPACITY || (kinds[0] == ListenerKind && at + ENDMARK_SIZE >= CAPACITY) {
      ok := false;
      MessagesStuck(kinds, s0, lva, at);
      InsideStuck(kinds, s0, lva, at);
    } else {
      var used;
      ghost var m;
      ok, t, used, inside, m := EmitNext(kinds, s, buf, at, lva, sendEmpty, s0);
      if ok {
        ghost var b := buf[..];
        var rest;
        ok, t, end, rest := EmitMessages(kinds[1..], t, buf, at + used, lva, sendEmpty, s0);
        inside := inside && rest;
        if inside {
          UntouchedTwice(old(buf[..]), b, buf[..], MAX_FRAME_SIZE, MAX_FRAME_SIZE);
        }
        if at + used <= CAPACITY {
          PrefixKept(b, buf[..], MESSAGE_LIST + at, MESSAGE_LIST + at + used);
          if ok && end <= CAPACITY {
            HoldsBoth(b, buf[..], MESSAGE_LIST + at, m, Messages(kinds[1..], s0, lva, at + used).value);
          }
        }
      }
    }
  }

  /* ---------- the frame ---------- */

  lemma OrderDistinct()
    ensures Distinct(ORDER)
  {}

  lemma EveryoneAgrees(kinds: seq<Kind>, s: seq<Slot>)
    ensures AgreeAll(kinds, s, s)
  {}

  lemma HeadLength(src: seq<byte>)
    requires |src| == 6
    ensures |EthHeader(src) + [0]| == MESSAGE_LIST
  {}

  lemma FrameHeld(f: seq<byte>, src: seq<byte>, m: seq<byte>, head: seq<byte>)
    requires head == EthHeader(src) + [0] && |head| == MESSAGE_LIST && Holds(f, 0, head + m + [0, 0])
    ensures MESSAGE_LIST + |m| + 2 <= |f| && f[..MESSAGE_LIST + |m| + 2] == Frame(src, m)
  {}

  /**
  msrp_txpdu: the frame it sends, if any, is the one the codec plans for these attributes. The array goes on behind the
  2000 bytes that are allocated; `inside` says whether the emitters kept to these.
  */
  method SendPdu(src: seq<byte>, s: seq<Slot>, lva: bool, sendEmpty: bool)
    returns (frame: Option<seq<byte>>, t: seq<Slot>, inside: bool)
    requires |src| == 6 && sendEmpty == lva
    ensures frame == TxPdu(src, s, lva)
    ensures inside <==> TxInside(s, lva)
  {
    hide Messages, AgreeAll, Distinct, Holds, EthHeader, Frame, InsideFrom, Untouched;
    OrderDistinct();
    HeadLength(src);
    var buf := new byte[MAX_FRAME_SIZE + SLACK](_ => 0);
    ghost var head: seq<byte>, a := EthHeader(src) + [0], buf[..];
    WriteBytes(buf, 0, EthHeader(src) + [0]);
    ghost var b := buf[..];
    ZeroedKept(a, b, 0, MESSAGE_LIST, MESSAGE_LIST + 2);
    EveryoneAgrees(ORDER, s);
    var ok, end;
    ok, t, end, inside := EmitMessages(ORDER, s, buf, 0, lva, sendEmpty, s);
    HoldsBefore(b, buf[..], MESSAGE_LIST, 0, head);
    frame := None;
    if ok && end > 0 && end + ENDMARK_SIZE < CAPACITY {
      ghost var m := Messages(ORDER, s, lva, 0).value;
      ghost var c := buf[..];
      HoldsJoin(c, 0, head, m);
      WriteBytes(buf, MESSAGE_LIST + end, [0, 0]);
      HoldsBefore(c, buf[..], MESSAGE_LIST + end, 0, head + m);
      HoldsJoin(buf[..], 0, head + m, [0, 0]);
      FrameHeld(buf[..], src, m, head);
      frame := Some(buf[..MESSAGE_LIST + end + ENDMARK_SIZE]);
    }
  }
}
