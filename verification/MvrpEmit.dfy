/**
mvrp_emit_vidvectors and mvrp_txpdu of daemons/mrpd/mvrp.c: the list is walked and the frame buffer filled in place.
*/
module MvrpEmit {
  import opened Mrp
  import opened MrpPdu
  import opened MrpPacker
  import opened MvrpCodec
  import opened MrpParticipant
  import opened MvrpStation
  import opened MvrpAttributes

  /** What emission sees of an attribute. */
  function SlotOfAttribute(a: Attribute): Slot {
    Slot(a.vid, a.applicant.tx, a.applicant.optional, PduCode(a.applicant.msg, a.registrar.state == IN))
  }

  function AttributeSlots(s: seq<Attribute>): (slots: seq<Slot>)
    ensures |slots| == |s|
    ensures forall i | 0 <= i < |s| :: slots[i] == SlotOfAttribute(s[i])
  {
    seq(|s|, i requires 0 <= i < |s| => SlotOfAttribute(s[i]))
  }

  function ClearTx(a: Attribute): Attribute {
    a.(applicant := a.applicant.(tx := false))
  }

  /** Emission changes nothing in the list but tx flags, and those only from set to clear. */
  ghost predicate OnlyTxCleared(s: seq<Attribute>, t: seq<Attribute>) {
    |s| == |t| && forall i | 0 <= i < |s| :: t[i] == s[i] || t[i] == ClearTx(s[i])
  }

  ghost function ClearedFrom(s: seq<Attribute>, lo: nat, hi: nat): (t: seq<Attribute>)
    ensures |t| == |s|
    ensures forall i | 0 <= i < |s| :: t[i] == if lo <= i < hi then ClearTx(s[i]) else s[i]
  {
    seq(|s|, i requires 0 <= i < |s| => if lo <= i < hi then ClearTx(s[i]) else s[i])
  }

  function CodeOfAttribute(a: Attribute): Option<Code> {
    PduCode(a.applicant.msg, a.registrar.state == IN)
  }

  /** Where the run that expects `expected` at position `j` ends. */
  ghost function RunEnd(s: seq<Attribute>, j: nat, expected: u16): (k: nat)
    requires j <= |s|
    ensures j <= k <= |s|
    decreases |s| - j
  {
    if j < |s| && s[j].applicant.tx && s[j].vid == expected then RunEnd(s, j + 1, NextVid(expected)) else j
  }

  lemma {:induction false} RunEndIsRiders(s: seq<Attribute>, j: nat, expected: u16)
    requires j <= |s|
    ensures RunEnd(s, j, expected) == j + Riders(AttributeSlots(s)[j..], expected)
    decreases |s| - j
  {
    if j < |s| && s[j].applicant.tx && s[j].vid == expected {
      RunEndIsRiders(s, j + 1, NextVid(expected));
      assert AttributeSlots(s)[j..][1..] == AttributeSlots(s)[j + 1..];
    }
  }

  ghost predicate HasCodes(s: seq<Attribute>, lo: nat, hi: nat, codes: seq<Code>)
    requires lo <= hi <= |s|
  {
    |codes| == hi - lo && forall t | lo <= t < hi :: CodeOfAttribute(s[t]) == Some(codes[t - lo])
  }

  lemma {:induction false} HasCodesIsCodes(s: seq<Attribute>, lo: nat, hi: nat, codes: seq<Code>)
    requires lo <= hi <= |s| && HasCodes(s, lo, hi, codes)
    ensures Codes(AttributeSlots(s)[lo..hi]) == Some(codes)
    decreases hi - lo
  {
    if lo < hi {
      HasCodesIsCodes(s, lo + 1, hi, codes[1..]);
      assert AttributeSlots(s)[lo..hi][1..] == AttributeSlots(s)[lo + 1..hi];
      assert codes == [codes[0]] + codes[1..];
    }
  }

  lemma {:induction false} NoCodes(slots: seq<Slot>, t: nat)
    requires t < |slots| && slots[t].code.None?
    ensures Codes(slots).None?
  {
    if t > 0 {
      NoCodes(slots[1..], t - 1);
    }
  }

  lemma ClearedFromStep(s: seq<Attribute>, lo: nat, hi: nat)
    requires lo <= hi < |s|
    ensures ClearedFrom(s, lo, hi)[hi := ClearTx(s[hi])] == ClearedFrom(s, lo, hi + 1)
  {}

  function VidAfter(v: u16, d: nat): u16 {
    (v + d) % 0x1_0000
  }

  lemma VidAfterNext(v: u16, d: nat)
    ensures NextVid(VidAfter(v, d)) == VidAfter(v, d + 1)
    ensures VidAfter(v, 0) == v
  {}

  /** Positions i+1..j ride behind position i. */
  ghost predicate Consecutive(s: seq<Attribute>, i: nat, j: nat)
    requires i < j <= |s|
  {
    forall t | i < t < j :: s[t].applicant.tx && s[t].vid == VidAfter(s[i].vid, t - i)
  }

  /** Position j does not. */
  ghost predicate RunStops(s: seq<Attribute>, i: nat, j: nat)
    requires i < j <= |s|
  {
    j < |s| ==> !s[j].applicant.tx || s[j].vid != VidAfter(s[i].vid, j - i)
  }

  lemma {:induction false} ConsecutiveRun(s: seq<Attribute>, i: nat, t: nat, j: nat)
    requires i < t <= j <= |s| && Consecutive(s, i, j)
    ensures j <= RunEnd(s, t, VidAfter(s[i].vid, t - i))
    ensures RunStops(s, i, j) ==> j == RunEnd(s, t, VidAfter(s[i].vid, t - i))
    decreases j - t
  {
    if t < j {
      ConsecutiveRun(s, i, t + 1, j);
      VidAfterNext(s[i].vid, t - i);
    }
  }

  /** What the inner loop has established when it stands at position j, whose predecessor has VID `vid`. */
  ghost predicate Riding(s: seq<Attribute>, i: nat, j: nat, t: seq<Attribute>, vid: u16, codes: seq<Code>) {
    && i < j <= |s| && Consecutive(s, i, j) && HasCodes(s, i, j, codes)
    && t == ClearedFrom(s, i + 1, j) && vid == VidAfter(s[i].vid, j - i - 1)
  }

  lemma RidingStart(s: seq<Attribute>, i: nat, first: Code)
    requires i < |s| && CodeOfAttribute(s[i]) == Some(first)
    ensures Riding(s, i, i + 1, s, s[i].vid, [first])
  {
    VidAfterNext(s[i].vid, 0);
    assert s == ClearedFrom(s, i + 1, i + 1);
  }

  lemma RidingStep(s: seq<Attribute>, i: nat, j: nat, t: seq<Attribute>, vid: u16, codes: seq<Code>)
    requires Riding(s, i, j, t, vid, codes) && j < |s|
    ensures |t| == |s| && t[j] == s[j]
    ensures !t[j].applicant.tx || t[j].vid != NextVid(vid) ==> RunStops(s, i, j)
    ensures t[j].applicant.tx && t[j].vid == NextVid(vid) ==>
              && Consecutive(s, i, j + 1) && t[j := ClearTx(t[j])] == ClearedFrom(s, i + 1, j + 1)
              && var code := CodeOfAttribute(t[j]);
                 code.Some? ==> Riding(s, i, j + 1, t[j := ClearTx(t[j])], t[j].vid, codes + [code.value])
  {
    VidAfterNext(s[i].vid, j - i - 1);
    ClearedFromStep(s, i + 1, j);
  }

  /**
  The inner loop: vectorize the attributes behind position `i` for as long as they are flagged and consecutive, three
  events a byte from `start`, unless an event is unknown or the cursor passes `limit`. It ends, or gives up, at `j`.
  */
  method PackRiders(s: seq<Attribute>, i: nat, first: Code, buf: array<byte>, start: nat, limit: nat)
    returns (ok: bool, t: seq<Attribute>, j: nat, ghost codes: seq<Code>, end: nat)
    requires i < |s| && CodeOfAttribute(s[i]) == Some(first)
    requires start <= limit < buf.Length
    modifies buf
    ensures i < j <= |s| && Consecutive(s, i, j) && t == ClearedFrom(s, i + 1, j)
    ensures buf[..start] == old(buf[..start])
    ensures ok ==> RunStops(s, i, j) && HasCodes(s, i, j, codes)
    ensures ok ==> end == start + (|codes| + 2) / 3 && Holds(buf[..], start, Pack3(codes))
    ensures !ok ==> CodeOfAttribute(s[j - 1]).None? || start + (j - i) / 3 > limit
  {
    hide VidAfter, NextVid, CodeOfAttribute;
    ok, t, end, codes := true, s, start, [first];
    var vid, k := s[i].vid, i + 1;
    RidingStart(s, i, first);
    ghost var full: seq<Code> := [];
    var pos: nat, vectevt := start, [first];
    while k < |s|
      invariant Riding(s, i, k, t, vid, codes)
      invariant Packing(buf[..], start, pos, vectevt, full) && codes == full + vectevt && pos <= limit
      invariant buf[..start] == old(buf[..start])
    {
      RidingStep(s, i, k, t, vid, codes);
      if !t[k].applicant.tx {
        break;
      }
      vid := NextVid(vid);
      if t[k].vid != vid {
        break;
      }
      var code := CodeOfAttribute(t[k]);
      t := t[k := ClearTx(t[k])];
      k := k + 1;
      if code.None? {
        ok := false;
        break;
      }
      pos, vectevt, full := Push(buf, start, pos, vectevt, full, code.value);
      codes := codes + [code.value];
      if pos > limit {
        ok := false;
        break;
      }
    }
    j := k;
    if ok {
      end := Finish(buf, start, pos, vectevt, full);
    }
  }

  /* ---------- one vector ---------- */

  /** How many attributes the vector that starts at position `i` takes. */
  function RunLength(s: seq<Attribute>, i: nat): (n: nat)
    requires i < |s|
    ensures 0 < n <= |s| - i
  {
    1 + Riders(AttributeSlots(s)[i + 1..], NextVid(s[i].vid))
  }

  function RunCodes(s: seq<Attribute>, i: nat): (codes: Option<seq<Code>>)
    requires i < |s|
    ensures codes.Some? ==> |codes.value| == RunLength(s, i)
  {
    Codes(AttributeSlots(s)[i..i + RunLength(s, i)])
  }

  lemma RunIsWhole(s: seq<Attribute>, i: nat, j: nat)
    requires i < j <= |s| && Consecutive(s, i, j)
    ensures j - i <= RunLength(s, i)
    ensures RunStops(s, i, j) ==> j - i == RunLength(s, i)
  {
    VidAfterNext(s[i].vid, 0);
    ConsecutiveRun(s, i, i + 1, j);
    RunEndIsRiders(s, i + 1, NextVid(s[i].vid));
  }

  lemma RunFails(s: seq<Attribute>, i: nat, j: nat)
    requires i < j <= |s| && Consecutive(s, i, j) && CodeOfAttribute(s[j - 1]).None?
    ensures RunCodes(s, i).None?
  {
    RunIsWhole(s, i, j);
    NoCodes(AttributeSlots(s)[i..i + RunLength(s, i)], j - 1 - i);
  }

  /** The event bytes of the vector that starts at position `i`, from `start` on. */
  method PackRun(s: seq<Attribute>, i: nat, buf: array<byte>, start: nat, limit: nat)
    returns (ok: bool, t: seq<Attribute>, numvalues: nat)
    requires i < |s| && start <= limit < buf.Length
    modifies buf
    ensures buf[..start] == old(buf[..start]) && OnlyTxCleared(s, t)
    ensures ok ==> RunCodes(s, i).Some? && Holds(buf[..], start, Pack3(RunCodes(s, i).value))
    ensures ok ==> numvalues == RunLength(s, i) && t == ClearedFrom(s, i + 1, i + numvalues)
    ensures !ok ==> RunCodes(s, i).None? || start + RunLength(s, i) / 3 > limit
  {
    hide Holds, Pack3, RunLength;
    ok, t, numvalues := false, s, 1;
    var first := CodeOfAttribute(s[i]);
    if first.None? {
      RunFails(s, i, i + 1);
    } else {
      ghost var codes;
      var j, end;
      ok, t, j, codes, end := PackRiders(s, i, first.value, buf, start, limit);
      numvalues := j - i;
      RunIsWhole(s, i, j);
      if ok {
        HasCodesIsCodes(s, i, j, codes);
      } else if CodeOfAttribute(s[j - 1]).None? {
        RunFails(s, i, j);
      }
    }
  }

  /** The vector of position `i` has known events and leaves room for the end mark. */
  predicate Writable(s: seq<Attribute>, i: nat, at: nat)
    requires i < |s|
  {
    RunCodes(s, i).Some? && at + VecSize(RunLength(s, i)) + ENDMARK_SIZE <= CAPACITY
  }

  /** Fill in the header around the first value and the event bytes already in place. */
  method WriteHeader(buf: array<byte>, p: nat, lva: bool, numvalues: nat, ghost v: Vec)
    requires v.lva == lva && |v.codes| == numvalues
    requires Holds(buf[..], p + 4, Pack3(v.codes)) && Holds(buf[..], p + 2, Word(v.first))
    modifies buf
    ensures Holds(buf[..], p, VecBytes(v))
    ensures buf[..p] == old(buf[..p])
  {
    WriteWord(buf, p, Header(lva, numvalues));
    HoldsAfter(old(buf[..]), buf[..], p + 2, p + 2, Word(v.first));
    HoldsAfter(old(buf[..]), buf[..], p + 2, p + 4, Pack3(v.codes));
    HoldsJoin(buf[..], p, Word(Header(v.lva, |v.codes|)), Word(v.first));
    HoldsJoin(buf[..], p, Word(Header(v.lva, |v.codes|)) + Word(v.first), Pack3(v.codes));
  }

  /** One round of the outer loop that emits: the vector of position `i`, written at offset `at` of the message. */
  method EmitVector(s: seq<Attribute>, i: nat, buf: array<byte>, at: nat, lva: bool)
    returns (ok: bool, t: seq<Attribute>, end: nat)
    requires i < |s| && buf.Length == MAX_FRAME_SIZE && at + VECTOR_SIZE <= CAPACITY
    modifies buf
    ensures ok <==> Writable(s, i, at)
    ensures ok ==> end == at + VecSize(RunLength(s, i)) && t == ClearedFrom(s, i + 1, i + RunLength(s, i))
    ensures ok ==> Holds(buf[..], MESSAGE_LIST + at, VecBytes(Vec(lva, s[i].vid, RunCodes(s, i).value)))
    ensures buf[..MESSAGE_LIST + at] == old(buf[..MESSAGE_LIST + at])
    ensures OnlyTxCleared(s, t)
  {
    hide RunLength, RunCodes, Pack3, OnlyTxCleared, Holds, VecBytes;
    var p := MESSAGE_LIST + at;
    WriteWord(buf, p + 2, s[i].vid);
    PrefixKept(old(buf[..]), buf[..], p, p + 2);
    ghost var b := buf[..];
    var numvalues;
    ok, t, numvalues := PackRun(s, i, buf, p + 4, MAX_FRAME_SIZE - ENDMARK_SIZE);
    PrefixKept(b, buf[..], p, p + 4);
    end := at + VecSize(numvalues);
    if ok && end + ENDMARK_SIZE <= CAPACITY {
      HoldsBefore(b, buf[..], p + 4, p + 2, Word(s[i].vid));
      WriteHeader(buf, p, lva, numvalues, Vec(lva, s[i].vid, RunCodes(s, i).value));
    } else {
      ok := false;
    }
  }

  /* ---------- the whole message ---------- */

  function PlanVecs(p: Plan): Option<seq<Vec>> {
    if p.Oops? then None else Some(p.vecs)
  }

  lemma {:induction false} VecsBytesAppend(vecs: seq<Vec>, v: Vec)
    ensures VecsBytes(vecs + [v]) == VecsBytes(vecs) + VecBytes(v)
  {
    if vecs == [] {
      assert vecs + [v] == [v] && [v][1..] == [];
    } else {
      VecsBytesAppend(vecs[1..], v);
      assert (vecs + [v])[1..] == vecs[1..] + [v];
      Associate(VecBytes(vecs[0]), VecsBytes(vecs[1..]), VecBytes(v));
    }
  }

  /** The vectors still to come when the outer loop stands at position `i`. */
  ghost function ToCome(t: seq<Attribute>, i: nat, lva: bool, ptr: nat, at: nat): Option<seq<Vec>>
    requires i <= |t|
  {
    PlanVecs(Vectors(AttributeSlots(t)[i..], lva, ptr, at, CAPACITY))
  }

  /** Slots whose flag is down are walked over. */
  lemma {:induction false} SkipUnflagged(slots: seq<Slot>, m: nat, lva: bool, ptr: nat, at: nat)
    requires m <= |slots| && forall k | 0 <= k < m :: !slots[k].tx
    ensures PlanVecs(Vectors(slots, lva, ptr, at, CAPACITY)) == PlanVecs(Vectors(slots[m..], lva, ptr, at, CAPACITY))
  {
    if m == 0 {
      assert slots[m..] == slots;
    } else if ptr + VECTOR_SIZE + ENDMARK_SIZE < CAPACITY {
      SkipUnflagged(slots[1..], m - 1, lva, ptr, at);
      assert slots[1..][m - 1..] == slots[m..];
    }
  }

  lemma ToComeSkips(t: seq<Attribute>, i: nat, lva: bool, ptr: nat, at: nat)
    requires i < |t| && (!t[i].applicant.tx || t[i].applicant.optional)
    requires ptr + VECTOR_SIZE + ENDMARK_SIZE < CAPACITY
    ensures ToCome(t, i, lva, ptr, at) == ToCome(t, i + 1, lva, ptr, at)
    ensures ToCome(t[i := ClearTx(t[i])], i + 1, lva, ptr, at) == ToCome(t, i + 1, lva, ptr, at)
  {
    assert AttributeSlots(t)[i..][1..] == AttributeSlots(t)[i + 1..];
    assert AttributeSlots(t[i := ClearTx(t[i])])[i + 1..] == AttributeSlots(t)[i + 1..];
  }

  lemma ToComeTakes(t: seq<Attribute>, i: nat, lva: bool, ptr: nat, at: nat)
    requires i < |t| && t[i].applicant.tx && !t[i].applicant.optional
    requires ptr + VECTOR_SIZE + ENDMARK_SIZE < CAPACITY
    ensures !Writable(t, i, at) ==> ToCome(t, i, lva, ptr, at).None?
    ensures Writable(t, i, at) ==>
              var n := RunLength(t, i);
              var end := at + VecSize(n);
              ToCome(t, i, lva, ptr, at)
              == Prepend([Vec(lva, t[i].vid, RunCodes(t, i).value)], ToCome(t, i + n, false, end, end))
  {
    var slots := AttributeSlots(t);
    assert slots[i..][1..] == slots[i + 1..];
    var n := RunLength(t, i);
    assert slots[i..][..n] == slots[i..i + n];
    assert slots[i..][n..] == slots[i + n..];
  }

  /** After a vector the loop walks over the riders, whose flags are down. */
  lemma ToComeAfter(t: seq<Attribute>, i: nat, n: nat, at: nat)
    requires 0 < n && i + n <= |t|
    ensures var t' := ClearedFrom(t, i + 1, i + n);
      ToCome(t'[i := ClearTx(t'[i])], i + 1, false, at, at) == ToCome(t, i + n, false, at, at)
  {
    var t' := ClearedFrom(t, i + 1, i + n);
    var slots := AttributeSlots(t'[i := ClearTx(t'[i])])[i + 1..];
    SkipUnflagged(slots, n - 1, false, at, at);
    assert slots[n - 1..] == AttributeSlots(t)[i + n..];
  }

  lemma OnlyTxClearedTwice(s: seq<Attribute>, t: seq<Attribute>, u: seq<Attribute>)
    requires OnlyTxCleared(s, t) && OnlyTxCleared(t, u)
    ensures OnlyTxCleared(s, u)
  {
    forall i | 0 <= i < |s| ensures u[i] == s[i] || u[i] == ClearTx(s[i]) {
      assert t[i] == s[i] || t[i] == ClearTx(s[i]);
      assert u[i] == t[i] || u[i] == ClearTx(t[i]);
    }
  }

  /** The message so far: its header and the vectors `done`, up to offset `at`. */
  ghost predicate Written(f: seq<byte>, done: seq<Vec>, at: nat) {
    at == 2 + |VecsBytes(done)| && at + ENDMARK_SIZE <= CAPACITY
    && Holds(f, MESSAGE_LIST, [VID_TYPE, 2] + VecsBytes(done))
  }

  lemma WrittenNext(f: seq<byte>, g: seq<byte>, done: seq<Vec>, at: nat, v: Vec)
    requires Written(f, done, at) && |f| == |g| && MESSAGE_LIST + at <= |f|
    requires f[..MESSAGE_LIST + at] == g[..MESSAGE_LIST + at]
    requires Holds(g, MESSAGE_LIST + at, VecBytes(v)) && at + |VecBytes(v)| + ENDMARK_SIZE <= CAPACITY
    ensures Written(g, done + [v], at + |VecBytes(v)|)
  {
    HoldsBefore(f, g, MESSAGE_LIST + at, MESSAGE_LIST, [VID_TYPE, 2] + VecsBytes(done));
    HoldsJoin(g, MESSAGE_LIST, [VID_TYPE, 2] + VecsBytes(done), VecBytes(v));
    VecsBytesAppend(done, v);
    Associate([VID_TYPE, 2], VecsBytes(done), VecBytes(v));
  }

  lemma OwedTaken(t: seq<Attribute>, i: nat, lva: bool, ptr: nat, at: nat, u: seq<Attribute>, end: nat)
    requires i < |t| && t[i].applicant.tx && !t[i].applicant.optional
    requires ptr + VECTOR_SIZE + ENDMARK_SIZE < CAPACITY && Writable(t, i, at)
    requires u == ClearedFrom(t, i + 1, i + RunLength(t, i)) && end == at + VecSize(RunLength(t, i))
    ensures ToCome(t, i, lva, ptr, at)
         == Prepend([Vec(lva, t[i].vid, RunCodes(t, i).value)], ToCome(u[i := ClearTx(u[i])], i + 1, false, end, end))
  {
    ToComeTakes(t, i, lva, ptr, at);
    ToComeAfter(t, i, RunLength(t, i), end);
  }

  /** A round of the outer loop that finds something owed at position `i`. */
  method EmitOwed(t: seq<Attribute>, i: nat, buf: array<byte>, ptr: nat, at: nat, lva: bool)
    returns (ok: bool, t': seq<Attribute>, at': nat, ghost v: Vec)
    requires i < |t| && t[i].applicant.tx && !t[i].applicant.optional
    requires buf.Length == MAX_FRAME_SIZE
    requires ptr + VECTOR_SIZE + ENDMARK_SIZE < CAPACITY && ptr <= at <= ptr + 2
    modifies buf
    ensures buf[..MESSAGE_LIST + at] == old(buf[..MESSAGE_LIST + at]) && OnlyTxCleared(t, t')
    ensures !ok ==> ToCome(t, i, lva, ptr, at).None?
    ensures ok ==> ToCome(t, i, lva, ptr, at) == Prepend([v], ToCome(t', i + 1, false, at', at'))
    ensures ok ==> Holds(buf[..], MESSAGE_LIST + at, VecBytes(v))
    ensures ok ==> at' == at + |VecBytes(v)| <= CAPACITY - ENDMARK_SIZE
  {
    var u;
    ok, u, at' := EmitVector(t, i, buf, at, lva);
    t' := u[i := ClearTx(u[i])];
    OnlyTxClearedTwice(t, u, t');
    if ok {
      v := Vec(lva, t[i].vid, RunCodes(t, i).value);
      OwedTaken(t, i, lva, ptr, at, u, at');
    } else {
      v := Vec(lva, t[i].vid, []);
      ToComeTakes(t, i, lva, ptr, at);
    }
  }

  /** What the outer loop keeps: `done` is in the buffer, and `done` with what is to come is the whole plan. */
  ghost predicate Emitting(s: seq<Attribute>, lva0: bool, t: seq<Attribute>, i: nat, lva: bool, ptr: nat, at: nat,
                           done: seq<Vec>)
  {
    && i <= |t| && OnlyTxCleared(s, t)
    && ptr <= at <= ptr + 2 && (done != [] ==> at == ptr)
    && ToCome(s, 0, lva0, 0, 2) == Prepend(done, ToCome(t, i, lva, ptr, at))
  }

  lemma EmittingStart(s: seq<Attribute>, lva: bool)
    ensures Emitting(s, lva, s, 0, lva, 0, 2, [])
  {
    PrependNothing(ToCome(s, 0, lva, 0, 2));
  }

  lemma EmittingSkips(s: seq<Attribute>, lva0: bool, t: seq<Attribute>, i: nat, lva: bool, ptr: nat, at: nat,
                      done: seq<Vec>)
    requires Emitting(s, lva0, t, i, lva, ptr, at, done)
    requires i < |t| && (!t[i].applicant.tx || t[i].applicant.optional)
    requires ptr + VECTOR_SIZE + ENDMARK_SIZE < CAPACITY
    ensures Emitting(s, lva0, t, i + 1, lva, ptr, at, done)
    ensures Emitting(s, lva0, t[i := ClearTx(t[i])], i + 1, lva, ptr, at, done)
  {
    ToComeSkips(t, i, lva, ptr, at);
    OnlyTxClearedTwice(s, t, t[i := ClearTx(t[i])]);
  }

  lemma EmittingTakes(s: seq<Attribute>, lva0: bool, t: seq<Attribute>, i: nat, lva: bool, ptr: nat, at: nat,
                      done: seq<Vec>, t': seq<Attribute>, at': nat, v: Vec)
    requires Emitting(s, lva0, t, i, lva, ptr, at, done) && i < |t|
    requires OnlyTxCleared(t, t')
    requires ToCome(t, i, lva, ptr, at) == Prepend([v], ToCome(t', i + 1, false, at', at'))
    ensures Emitting(s, lva0, t', i + 1, false, at', at', done + [v])
  {
    PrependTwice(done, [v], ToCome(t', i + 1, false, at', at'));
    OnlyTxClearedTwice(s, t, t');
  }

  lemma EmittingEnds(s: seq<Attribute>, lva0: bool, t: seq<Attribute>, i: nat, lva: bool, ptr: nat, at: nat,
                     done: seq<Vec>)
    requires Emitting(s, lva0, t, i, lva, ptr, at, done)
    requires i == |t| || ptr + VECTOR_SIZE + ENDMARK_SIZE >= CAPACITY
    ensures EmitPlan(AttributeSlots(s), lva0).Plan? && EmitPlan(AttributeSlots(s), lva0).vecs == done
  {
    assert AttributeSlots(s)[0..] == AttributeSlots(s);
    assert ToCome(t, i, lva, ptr, at) == Some([]);
    assert done + [] == done;
  }

  lemma EmittingFails(s: seq<Attribute>, lva0: bool, t: seq<Attribute>, i: nat, lva: bool, ptr: nat, at: nat,
                      done: seq<Vec>)
    requires Emitting(s, lva0, t, i, lva, ptr, at, done) && ToCome(t, i, lva, ptr, at).None?
    ensures EmitPlan(AttributeSlots(s), lva0).Oops?
  {
    assert AttributeSlots(s)[0..] == AttributeSlots(s);
  }

  /** The outer loop of mvrp_emit_vidvectors. */
  method EmitVectors(s: seq<Attribute>, buf: array<byte>, lva: bool)
    returns (ok: bool, t: seq<Attribute>, found: bool, at: nat, ghost done: seq<Vec>)
    requires buf.Length == MAX_FRAME_SIZE && Holds(buf[..], MESSAGE_LIST, [VID_TYPE, 2])
    modifies buf
    ensures buf[..MESSAGE_LIST] == old(buf[..MESSAGE_LIST]) && OnlyTxCleared(s, t)
    ensures !ok ==> EmitPlan(AttributeSlots(s), lva).Oops?
    ensures ok ==> EmitPlan(AttributeSlots(s), lva).Plan? && EmitPlan(AttributeSlots(s), lva).vecs == done
    ensures ok ==> Written(buf[..], done, at) && (found <==> done != [])
    ensures ok && !found ==> buf[..] == old(buf[..])
  {
    hide ToCome, VecBytes, EmitPlan;
    ok, t, found, done := true, s, false, [];
    var i: nat, ptr: nat, lva' := 0, 0, lva;
    at := 2;
    EmittingStart(s, lva);
    assert [VID_TYPE, 2] + VecsBytes([]) == [VID_TYPE, 2];
    while i < |t| && ptr + VECTOR_SIZE + ENDMARK_SIZE < CAPACITY
      invariant Emitting(s, lva, t, i, lva', ptr, at, done)
      invariant Written(buf[..], done, at) && (found <==> done != [])
      invariant buf[..MESSAGE_LIST] == old(buf[..MESSAGE_LIST])
      invariant !found ==> buf[..] == old(buf[..])
      decreases |s| - i
    {
      if !t[i].applicant.tx || t[i].applicant.optional {
        EmittingSkips(s, lva, t, i, lva', ptr, at, done);
        if t[i].applicant.tx {
          t := t[i := ClearTx(t[i])];
        }
      } else {
        var t', at';
        ghost var v;
        ghost var b := buf[..];
        ok, t', at', v := EmitOwed(t, i, buf, ptr, at, lva');
        PrefixKept(b, buf[..], MESSAGE_LIST, MESSAGE_LIST + at);
        if !ok {
          EmittingFails(s, lva, t, i, lva', ptr, at, done);
          OnlyTxClearedTwice(s, t, t');
          t := t';
          break;
        }
        WrittenNext(b, buf[..], done, at, v);
        EmittingTakes(s, lva, t, i, lva', ptr, at, done, t', at', v);
        t, ptr, at, lva', found, done := t', at', at', false, true, done + [v];
      }
      i := i + 1;
    }
    if ok {
      EmittingEnds(s, lva, t, i, lva', ptr, at, done);
    }
  }

  lemma ZeroesHold(f: seq<byte>, p: nat)
    requires p + 4 <= |f| && forall k | p <= k < p + 4 :: f[k] == 0
    ensures Holds(f, p + 2, Word(0))
  {}

  /** A message ends in two zero bytes. */
  method WriteEndMark(buf: array<byte>, p: nat, ghost start: nat, ghost body: seq<byte>)
    requires Holds(buf[..], start, body) && p == start + |body| && p + 2 <= buf.Length
    modifies buf
    ensures Holds(buf[..], start, body + [0, 0])
    ensures buf[..start] == old(buf[..start])
  {
    buf[p] := 0;
    buf[p + 1] := 0;
    HoldsBefore(old(buf[..]), buf[..], p, start, body);
    HoldsJoin(buf[..], start, body, [0, 0]);
  }

  /** The bare LeaveAll vector: no values, and the first value that the zeroed buffer already holds. */
  method WriteLeaveAll(buf: array<byte>)
    requires buf.Length == MAX_FRAME_SIZE && Holds(buf[..], MESSAGE_LIST, [VID_TYPE, 2])
    requires forall k | MESSAGE_LIST + 2 <= k < buf.Length :: buf[k] == 0
    modifies buf
    ensures Holds(buf[..], MESSAGE_LIST, [VID_TYPE, 2] + (Word(LVA_FLAG) + Word(0)))
    ensures buf[..MESSAGE_LIST] == old(buf[..MESSAGE_LIST])
  {
    var p := MESSAGE_LIST + 2;
    ZeroesHold(buf[..], p);
    WriteWord(buf, p, LVA_FLAG);
    HoldsBefore(old(buf[..]), buf[..], p, MESSAGE_LIST, [VID_TYPE, 2]);
    HoldsAfter(old(buf[..]), buf[..], p + 2, p + 2, Word(0));
    PrefixKept(old(buf[..]), buf[..], MESSAGE_LIST, p);
    HoldsJoin(buf[..], p, Word(LVA_FLAG), Word(0));
    HoldsJoin(buf[..], MESSAGE_LIST, [VID_TYPE, 2], Word(LVA_FLAG) + Word(0));
  }

  /**
  mvrp_emit_vidvectors into a zeroed frame buffer: the vectors of the plan are written, or it gives up exactly where
  the plan does. `sendEmpty` is send_empty_LeaveAll_flag.
  */
  method EmitVidVectors(s: seq<Attribute>, buf: array<byte>, lva: bool, sendEmpty: bool)
    returns (ok: bool, t: seq<Attribute>, bytesUsed: nat)
    requires buf.Length == MAX_FRAME_SIZE && forall k | MESSAGE_LIST <= k < buf.Length :: buf[k] == 0
    modifies buf
    ensures buf[..MESSAGE_LIST] == old(buf[..MESSAGE_LIST]) && OnlyTxCleared(s, t)
    ensures ok <==> EmitPlan(AttributeSlots(s), lva).Plan?
    ensures ok ==> var message := Message(EmitPlan(AttributeSlots(s), lva).vecs, sendEmpty);
                   bytesUsed == |message| && Holds(buf[..], MESSAGE_LIST, message)
  {
    buf[MESSAGE_LIST] := VID_TYPE;
    buf[MESSAGE_LIST + 1] := 2;
    var found, at;
    ghost var done;
    ok, t, found, at, done := EmitVectors(s, buf, lva);
    bytesUsed := 0;
    if ok {
      ghost var body := VecsBytes(done);
      if !found && sendEmpty {
        WriteLeaveAll(buf);
        at := at + 4;
        body := Word(LVA_FLAG) + Word(0);
      }
      if found || sendEmpty {
        WriteEndMark(buf, MESSAGE_LIST + at, MESSAGE_LIST, [VID_TYPE, 2] + body);
        bytesUsed := at + ENDMARK_SIZE;
      }
    }
  }

  lemma HeaderHeld(f: seq<byte>, src: seq<byte>)
    requires |src| == 6 && |f| > MESSAGE_LIST
    requires f[..6] == BRIDGE_ADDR && f[6..12] == src && f[12..14] == ETYPE && f[14] == 0
    ensures Holds(f, 0, EthHeader(src) + [0])
  {
    assert f[..15] == f[..6] + f[6..12] + f[12..14] + [f[14]];
  }

  method WriteEthHeader(src: seq<byte>, buf: array<byte>)
    requires |src| == 6 && buf.Length > MESSAGE_LIST
    modifies buf
    ensures Holds(buf[..], 0, EthHeader(src) + [0])
    ensures buf[MESSAGE_LIST..] == old(buf[MESSAGE_LIST..])
  {
    forall k | 0 <= k < 6 { buf[k] := BRIDGE_ADDR[k]; }
    forall k | 6 <= k < 12 { buf[k] := src[k - 6]; }
    buf[12], buf[13] := 0x88, 0xF5;
    buf[14] := 0;
    assert buf[..6] == BRIDGE_ADDR;
    assert buf[6..12] == src;
    HeaderHeld(buf[..], src);
  }

  /**
  mvrp_txpdu: the frame it sends, if any, is the one the codec plans for these attributes. The event handler raises
  lva.tx and send_empty_LeaveAll_flag together.
  */
  method SendPdu(src: seq<byte>, s: seq<Attribute>, lva: bool, sendEmpty: bool)
    returns (frame: Option<seq<byte>>, t: seq<Attribute>)
    requires |src| == 6 && sendEmpty == lva
    ensures frame == TxPdu(src, AttributeSlots(s), lva)
    ensures OnlyTxCleared(s, t)
  {
    var buf := new byte[MAX_FRAME_SIZE](_ => 0);
    WriteEthHeader(src, buf);
    forall k | MESSAGE_LIST <= k < buf.Length ensures buf[k] == 0 {
      assert buf[MESSAGE_LIST..][k - MESSAGE_LIST] == 0;
    }
    ghost var b := buf[..];
    var ok, used;
    ok, t, used := EmitVidVectors(s, buf, lva, sendEmpty);
    HoldsBefore(b, buf[..], MESSAGE_LIST, 0, EthHeader(src) + [0]);
    frame := None;
    if ok && used > 0 && used + ENDMARK_SIZE < CAPACITY {
      ghost var message := Message(EmitPlan(AttributeSlots(s), lva).vecs, lva);
      HoldsJoin(buf[..], 0, EthHeader(src) + [0], message);
      WriteEndMark(buf, MESSAGE_LIST + used, 0, EthHeader(src) + [0] + message);
      frame := Some(buf[..MESSAGE_LIST + used + ENDMARK_SIZE]);
    }
  }
}
