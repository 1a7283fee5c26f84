/**
The MVRP codec's laws: decoding what emission wrote gives back, in list order, exactly the events of the attributes
that had to be sent and of those riding behind them; and exactly how many attributes are sure to fit in one PDU.
*/
module MvrpRoundTrip {
  import opened Mrp
  import opened MrpPdu
  import opened MvrpCodec

  /* ---------- vectors ---------- */

  ghost predicate Emittable(vecs: seq<Vec>) {
    forall v | v in vecs :: 0 < |v.codes| < LVA_FLAG
  }

  /** What a receiver hears from vectors: LeaveAll before the first flagged one, then its events. */
  function Heard(vecs: seq<Vec>, saw: bool): seq<Action> {
    if vecs == [] then []
    else
      (if vecs[0].lva && !saw then [HearLeaveAll] else []) + Actions(vecs[0].codes, vecs[0].first)
      + Heard(vecs[1..], saw || vecs[0].lva)
  }

  lemma {:induction false} VecDecodes(f: seq<byte>, p: nat, v: Vec)
    requires Holds(f, p, VecBytes(v)) && p + VecSize(|v.codes|) + 2 <= |f|
    requires 0 < |v.codes| < LVA_FLAG
    ensures WordAt(f, p) == Header(v.lva, |v.codes|) && WordAt(f, p + 2) == v.first
    ensures CodesAt(f, p + 4, |v.codes|) == v.codes
    ensures !EndMarkAt(f, p) && !RunsOff(f, p, |v.codes|)
  {
    var h, w := Word(Header(v.lva, |v.codes|)), Word(v.first);
    HoldsSplit(f, p, h + w, Pack3(v.codes));
    HoldsSplit(f, p, h, w);
    HoldsWord(f, p, Header(v.lva, |v.codes|));
    HoldsWord(f, p + 2, v.first);
    UnpackPack(f, p + 4, v.codes);
    HeaderRoundTrip(v.lva, |v.codes|);
  }

  /** What the receiver finds where vector `v` was written. */
  ghost predicate VecReads(f: seq<byte>, p: nat, v: Vec) {
    var n := |v.codes|;
    && !EndMarkAt(f, p) && NumValues(WordAt(f, p)) == n && IsLva(WordAt(f, p)) == v.lva
    && !RunsOff(f, p, n) && Actions(CodesAt(f, p + 4, n), WordAt(f, p + 2)) == Actions(v.codes, v.first)
  }

  ghost predicate Readable(f: seq<byte>, p: nat, vecs: seq<Vec>)
    decreases |vecs|
  {
    if vecs == [] then EndMarkAt(f, p)
    else VecReads(f, p, vecs[0]) && Readable(f, p + VecSize(|vecs[0].codes|), vecs[1..])
  }

  lemma VecIsRead(f: seq<byte>, p: nat, v: Vec)
    requires Holds(f, p, VecBytes(v)) && p + VecSize(|v.codes|) + 2 <= |f| && 0 < |v.codes| < LVA_FLAG
    ensures VecReads(f, p, v)
  {
    hide VecBytes, Actions, CodesAt, Holds;
    VecDecodes(f, p, v);
    HeaderRoundTrip(v.lva, |v.codes|);
  }

  lemma NoneRead(f: seq<byte>, p: nat)
    requires Holds(f, p, VecsBytes([]) + [0, 0])
    ensures EndMarkAt(f, p)
  {
    assert VecsBytes([]) + [0, 0] == [0, 0];
    HoldsAt(f, p, [0, 0], 0);
    HoldsAt(f, p, [0, 0], 1);
  }

  lemma {:induction false} VectorsRead(f: seq<byte>, p: nat, vecs: seq<Vec>)
    requires Holds(f, p, VecsBytes(vecs) + [0, 0]) && Emittable(vecs)
    ensures Readable(f, p, vecs)
    decreases |vecs|
  {
    hide VecBytes, VecReads, EndMarkAt;
    if vecs == [] {
      NoneRead(f, p);
    } else {
      assert vecs[0] in vecs;
      HoldsFirst(f, p, VecBytes(vecs[0]), VecsBytes(vecs[1..]), [0, 0]);
      VecIsRead(f, p, vecs[0]);
      VectorsRead(f, p + VecSize(|vecs[0].codes|), vecs[1..]);
    }
  }

  lemma {:induction false} ReadableDecodes(f: seq<byte>, p: nat, vecs: seq<Vec>, saw: bool)
    requires Readable(f, p, vecs)
    ensures var d := DecodeVectors(f, p, saw);
      d.ok && d.actions == Heard(vecs, saw) && d.ptr == p + |VecsBytes(vecs)|
    decreases |vecs|
  {
    hide VecBytes, Actions, CodesAt, RunsOff;
    if vecs != [] {
      ReadableDecodes(f, p + VecSize(|vecs[0].codes|), vecs[1..], saw || vecs[0].lva);
    }
  }

  lemma {:induction false} VectorsDecode(f: seq<byte>, p: nat, vecs: seq<Vec>, saw: bool)
    requires Holds(f, p, VecsBytes(vecs) + [0, 0])
    requires Emittable(vecs)
    ensures var d := DecodeVectors(f, p, saw);
      d.ok && d.actions == Heard(vecs, saw) && d.ptr == p + |VecsBytes(vecs)|
  {
    VectorsRead(f, p, vecs);
    ReadableDecodes(f, p, vecs, saw);
  }

  /* ---------- frames ---------- */

  lemma FrameLayout(src: seq<byte>, body: seq<byte>)
    requires |src| == 6
    ensures var f := Frame(src, [VID_TYPE, 2] + body + [0, 0]);
      && HeaderOk(f) && |f| == MESSAGE_LIST + 2 + |body| + 4
      && At(f, MESSAGE_LIST) == VID_TYPE && At(f, MESSAGE_LIST + 1) == 2
      && Holds(f, MESSAGE_LIST + 2, body + [0, 0])
      && EndMarkAt(f, MESSAGE_LIST + 2 + |body|)
  {
    var f := Frame(src, [VID_TYPE, 2] + body + [0, 0]);
    var pre := EthHeader(src) + [0] + [VID_TYPE, 2];
    assert f == pre + (body + [0, 0]) + [0, 0];
    assert f[MESSAGE_LIST + 2..MESSAGE_LIST + 2 + |body| + 2] == body + [0, 0];
    assert f[12..14] == ETYPE;
    assert f[..6] == BRIDGE_ADDR;
    HoldsAt(f, MESSAGE_LIST + 2, body + [0, 0], |body|);
    HoldsAt(f, MESSAGE_LIST + 2, body + [0, 0], |body| + 1);
  }

  lemma {:induction false} FrameDecodes(src: seq<byte>, vecs: seq<Vec>)
    requires |src| == 6 && Emittable(vecs)
    ensures var d := Decode(Frame(src, [VID_TYPE, 2] + VecsBytes(vecs) + [0, 0]));
      d.ok && d.actions == Heard(vecs, false)
  {
    hide DecodeVectors, VecsBytes, Frame;
    var f := Frame(src, [VID_TYPE, 2] + VecsBytes(vecs) + [0, 0]);
    FrameLayout(src, VecsBytes(vecs));
    VectorsDecode(f, MESSAGE_LIST + 2, vecs, false);
    var v := DecodeVectors(f, MESSAGE_LIST + 2, false);
    assert DecodeMessages(f, v.ptr + 2, 1, v.saw) == Decoded([], true, v.ptr + 2, v.saw);
    assert DecodeMessages(f, v.ptr, 0, v.saw) == Decoded([], true, v.ptr + 2, v.saw);
  }

  /** The bare LeaveAll is heard, although the receiver then calls the frame malformed. */
  lemma BareLeaveAllDecodes(src: seq<byte>)
    requires |src| == 6
    ensures Decode(Frame(src, Message([], true))).actions == [HearLeaveAll]
  {
    var body := Word(LVA_FLAG) + Word(0);
    var f := Frame(src, [VID_TYPE, 2] + body + [0, 0]);
    FrameLayout(src, body);
    HoldsSplit(f, MESSAGE_LIST + 2, body, [0, 0]);
    HoldsSplit(f, MESSAGE_LIST + 2, Word(LVA_FLAG), Word(0));
    HoldsWord(f, MESSAGE_LIST + 2, LVA_FLAG);
  }

  /* ---------- which attributes are carried ---------- */

  ghost predicate Ascending(slots: seq<Slot>) {
    forall i, j | 0 <= i < j < |slots| :: slots[i].vid < slots[j].vid
  }

  ghost predicate AllCoded(slots: seq<Slot>) {
    forall s | s in slots :: s.code.Some?
  }

  function CodeOf(s: Slot): nat {
    if s.code.Some? then s.code.value else 0
  }

  /** An attribute rides when it is flagged and directly follows, in the list and by VID, one that is carried. */
  predicate Carried(s: Slot, behind: Option<nat>) {
    s.tx && (!s.optional || behind == Some(s.vid - 1))
  }

  /** The (VID, event) pairs that must be on the wire, by the rule above rather than by any encoding. */
  function CarriedPairs(slots: seq<Slot>, behind: Option<nat>): seq<Pair> {
    if slots == [] then []
    else if Carried(slots[0], behind)
    then [(slots[0].vid, CodeOf(slots[0]))] + CarriedPairs(slots[1..], Some(slots[0].vid))
    else CarriedPairs(slots[1..], None)
  }

  function PairsFrom(codes: seq<Code>, vid: nat): seq<Pair> {
    if codes == [] then [] else [(vid, codes[0])] + PairsFrom(codes[1..], vid + 1)
  }

  function VecsPairs(vecs: seq<Vec>): seq<Pair> {
    if vecs == [] then [] else PairsFrom(vecs[0].codes, vecs[0].first) + VecsPairs(vecs[1..])
  }

  lemma CodesOfAll(slots: seq<Slot>)
    ensures Codes(slots).Some? <==> AllCoded(slots)
  {}

  /* ---------- one turn of the emitter's loop ---------- */

  lemma VectorsStop(slots: seq<Slot>, lva: bool, ptr: nat, at: nat, cap: nat)
    requires slots == [] || ptr + VECTOR_SIZE + ENDMARK_SIZE >= cap
    ensures Vectors(slots, lva, ptr, at, cap) == Plan([], slots)
  {}

  lemma VectorsSkip(slots: seq<Slot>, lva: bool, ptr: nat, at: nat, cap: nat)
    requires slots != [] && ptr + VECTOR_SIZE + ENDMARK_SIZE < cap && (!slots[0].tx || slots[0].optional)
    ensures Vectors(slots, lva, ptr, at, cap) == Vectors(slots[1..], lva, ptr, at, cap)
  {
    hide Riders, Codes;
  }

  lemma VectorsTake(slots: seq<Slot>, lva: bool, ptr: nat, at: nat, cap: nat, n: nat)
    requires slots != [] && ptr + VECTOR_SIZE + ENDMARK_SIZE < cap && slots[0].tx && !slots[0].optional
    requires n == 1 + Riders(slots[1..], NextVid(slots[0].vid))
    ensures var codes := Codes(slots[..n]);
            var end := at + VecSize(n);
            var rest := Vectors(slots[n..], false, end, end, cap);
      Vectors(slots, lva, ptr, at, cap) ==
      if codes.None? || end + ENDMARK_SIZE > cap || rest.Oops? then Oops
      else Plan([Vec(lva, slots[0].vid, codes.value)] + rest.vecs, rest.left)
  {
    hide Riders, Codes, VecSize, NextVid;
  }

  /* ---------- runs ---------- */

  lemma {:induction false} RunIsCarried(slots: seq<Slot>, v: u16)
    requires Ascending(slots) && (slots != [] ==> v < slots[0].vid)
    ensures var n := Riders(slots, NextVid(v));
      Codes(slots[..n]).Some? ==>
        CarriedPairs(slots, Some(v)) == PairsFrom(Codes(slots[..n]).value, v + 1) + CarriedPairs(slots[n..], None)
    decreases |slots|
  {
    var n := Riders(slots, NextVid(v));
    if n == 0 {
      assert slots[0..] == slots;
    } else {
      assert NextVid(v) == v + 1;
      RunIsCarried(slots[1..], slots[0].vid);
      assert slots[..n][1..] == slots[1..][..n - 1];
      assert slots[1..][n - 1..] == slots[n..];
    }
  }

  lemma {:induction false} CodesHead(slots: seq<Slot>, m: nat)
    requires m < |slots|
    ensures var all, tail := Codes(slots[..m + 1]), Codes(slots[1..][..m]);
      all.Some? ==> slots[0].code.Some? && tail.Some? && all.value == [slots[0].code.value] + tail.value
  {
    assert slots[..m + 1][1..] == slots[1..][..m];
    assert slots[..m + 1][0] == slots[0];
  }

  lemma {:induction false} FirstVectorIsCarried(slots: seq<Slot>, n: nat, codes: seq<Code>)
    requires Ascending(slots)
    requires slots != [] && slots[0].tx && !slots[0].optional
    requires n == 1 + Riders(slots[1..], NextVid(slots[0].vid)) && Codes(slots[..n]) == Some(codes)
    ensures CarriedPairs(slots, None) == PairsFrom(codes, slots[0].vid) + CarriedPairs(slots[n..], None)
  {
    hide Riders, Codes, CarriedPairs, PairsFrom, Ascending, NextVid;
    var head, rest := slots[0], slots[1..];
    CodesHead(slots, n - 1);
    AscendingRest(slots);
    RunIsCarried(rest, head.vid);
    var tail := Codes(rest[..n - 1]).value;
    assert rest[n - 1..] == slots[n..];
    FirstCarried(slots);
    PairsCons(head.code.value, tail, head.vid);
    Associate([(head.vid as nat, head.code.value as nat)], PairsFrom(tail, head.vid + 1),
              CarriedPairs(slots[n..], None));
  }

  lemma AscendingRest(slots: seq<Slot>)
    requires Ascending(slots) && slots != []
    ensures Ascending(slots[1..]) && (slots[1..] != [] ==> slots[0].vid < slots[1..][0].vid)
  {}

  lemma FirstCarried(slots: seq<Slot>)
    requires slots != [] && slots[0].tx && !slots[0].optional && slots[0].code.Some?
    ensures CarriedPairs(slots, None) ==
      [(slots[0].vid as nat, slots[0].code.value as nat)] + CarriedPairs(slots[1..], Some(slots[0].vid))
  {}

  lemma PairsCons(c: Code, rest: seq<Code>, vid: nat)
    ensures PairsFrom([c] + rest, vid) == [(vid, c as nat)] + PairsFrom(rest, vid + 1)
  {
    assert ([c] + rest)[1..] == rest;
  }

  lemma VecsCons(v: Vec, rest: seq<Vec>, left: seq<Pair>)
    ensures PairsFrom(v.codes, v.first) + (VecsPairs(rest) + left) == VecsPairs([v] + rest) + left
  {
    hide PairsFrom;
    assert ([v] + rest)[1..] == rest;
    Associate(PairsFrom(v.codes, v.first), VecsPairs(rest), left);
  }

  /** Emission's vectors hold exactly the carried pairs of what it looked at, in list order. */
  lemma {:induction false} VectorsAreCarried(slots: seq<Slot>, lva: bool, ptr: nat, at: nat, cap: nat)
    requires Ascending(slots)
    ensures var plan := Vectors(slots, lva, ptr, at, cap);
      plan.Plan? ==> CarriedPairs(slots, None) == VecsPairs(plan.vecs) + CarriedPairs(plan.left, None)
    decreases |slots|
  {
    hide Vectors, Riders, Codes, CarriedPairs, PairsFrom, VecsPairs, VecSize, NextVid;
    if slots == [] || ptr + VECTOR_SIZE + ENDMARK_SIZE >= cap {
      VectorsStop(slots, lva, ptr, at, cap);
      NoPairs(CarriedPairs(slots, None));
    } else if !slots[0].tx || slots[0].optional {
      VectorsSkip(slots, lva, ptr, at, cap);
      NotCarried(slots);
      VectorsAreCarried(slots[1..], lva, ptr, at, cap);
    } else {
      var n := 1 + Riders(slots[1..], NextVid(slots[0].vid));
      var end := at + VecSize(n);
      VectorsTake(slots, lva, ptr, at, cap, n);
      if Vectors(slots, lva, ptr, at, cap).Plan? {
        var codes, rest := Codes(slots[..n]).value, Vectors(slots[n..], false, end, end, cap);
        FirstVectorIsCarried(slots, n, codes);
        VectorsAreCarried(slots[n..], false, end, end, cap);
        VecsCons(Vec(lva, slots[0].vid, codes), rest.vecs, CarriedPairs(rest.left, None));
      }
    }
  }

  lemma NoPairs(left: seq<Pair>)
    ensures VecsPairs([]) + left == left
  {}

  lemma NotCarried(slots: seq<Slot>)
    requires slots != [] && (!slots[0].tx || slots[0].optional)
    ensures CarriedPairs(slots, None) == CarriedPairs(slots[1..], None)
  {}

  /* ---------- the round trip ---------- */

  /** The events a receiver dispatches for pairs on the wire: VIDs past 0xFFF are discarded. */
  function HearPairs(pairs: seq<Pair>): seq<Action> {
    if pairs == [] then [] else HearPair(pairs[0]) + HearPairs(pairs[1..])
  }

  function HearPair(p: Pair): seq<Action> {
    if p.0 <= MAX_VID then [Hear(p.0, p.1)] else []
  }

  lemma {:induction false} HearPairsConcat(a: seq<Pair>, b: seq<Pair>)
    ensures HearPairs(a + b) == HearPairs(a) + HearPairs(b)
  {
    hide HearPair;
    if a == [] {
      assert a + b == b;
    } else {
      HearPairsConcat(a[1..], b);
      assert (a + b)[1..] == a[1..] + b && (a + b)[0] == a[0];
      Associate(HearPair(a[0]), HearPairs(a[1..]), HearPairs(b));
    }
  }

  lemma {:induction false} JunkIsSilent(codes: seq<Code>, vid: nat)
    requires vid > MAX_VID
    ensures HearPairs(PairsFrom(codes, vid)) == []
  {
    if codes != [] {
      JunkIsSilent(codes[1..], vid + 1);
      assert PairsFrom(codes, vid)[1..] == PairsFrom(codes[1..], vid + 1);
    }
  }

  lemma {:induction false} JunkActions(codes: seq<Code>, vid: nat)
    requires vid > MAX_VID
    ensures Actions(codes, vid) == []
  {
    if codes != [] {
      JunkActions(codes[1..], vid);
    }
  }

  lemma {:induction false} ActionsArePairs(codes: seq<Code>, vid: nat)
    ensures Actions(codes, vid) == HearPairs(PairsFrom(codes, vid))
  {
    if vid > MAX_VID {
      JunkActions(codes, vid);
      JunkIsSilent(codes, vid);
    } else if codes != [] {
      ActionsArePairs(codes[1..], vid + 1);
      assert PairsFrom(codes, vid)[1..] == PairsFrom(codes[1..], vid + 1);
    }
  }

  ghost predicate NoLva(vecs: seq<Vec>) {
    forall v | v in vecs :: !v.lva
  }

  lemma {:induction false} HeardPlain(vecs: seq<Vec>, saw: bool)
    requires NoLva(vecs)
    ensures Heard(vecs, saw) == HearPairs(VecsPairs(vecs))
  {
    if vecs != [] {
      HeardPlain(vecs[1..], saw);
      ActionsArePairs(vecs[0].codes, vecs[0].first);
      HearPairsConcat(PairsFrom(vecs[0].codes, vecs[0].first), VecsPairs(vecs[1..]));
    }
  }

  /** Emission flags the first vector or none, and every vector is decodable. */
  lemma {:induction false} VectorsShape(slots: seq<Slot>, lva: bool, ptr: nat, at: nat, cap: nat)
    requires cap <= CAPACITY
    ensures var plan := Vectors(slots, lva, ptr, at, cap);
      plan.Plan? ==> Emittable(plan.vecs) && (plan.vecs != [] ==> plan.vecs[0].lva == lva && NoLva(plan.vecs[1..]))
    decreases |slots|
  {
    hide Vectors, Riders, Codes, NextVid, Emittable, NoLva;
    if slots == [] || ptr + VECTOR_SIZE + ENDMARK_SIZE >= cap {
      VectorsStop(slots, lva, ptr, at, cap);
      NothingShaped();
    } else if !slots[0].tx || slots[0].optional {
      VectorsSkip(slots, lva, ptr, at, cap);
      VectorsShape(slots[1..], lva, ptr, at, cap);
    } else {
      var n := 1 + Riders(slots[1..], NextVid(slots[0].vid));
      var end := at + VecSize(n);
      VectorsTake(slots, lva, ptr, at, cap, n);
      if Vectors(slots, lva, ptr, at, cap).Plan? {
        VectorsShape(slots[n..], false, end, end, cap);
        ShapeCons(Vec(lva, slots[0].vid, Codes(slots[..n]).value), Vectors(slots[n..], false, end, end, cap).vecs);
      }
    }
  }

  lemma NothingShaped()
    ensures Emittable([])
  {}

  lemma ShapeCons(v: Vec, rest: seq<Vec>)
    requires 0 < |v.codes| < LVA_FLAG && Emittable(rest) && (rest != [] ==> !rest[0].lva && NoLva(rest[1..]))
    ensures Emittable([v] + rest) && NoLva(([v] + rest)[1..])
  {
    assert ([v] + rest)[1..] == rest;
    assert rest == [] || rest == [rest[0]] + rest[1..];
  }

  function LeaveAllFirst(lva: bool): seq<Action> {
    if lva then [HearLeaveAll] else []
  }

  lemma {:induction false} HeardIsPairs(vecs: seq<Vec>, lva: bool)
    requires vecs != [] && vecs[0].lva == lva && NoLva(vecs[1..])
    ensures Heard(vecs, false) == LeaveAllFirst(lva) + HearPairs(VecsPairs(vecs))
  {
    var head := PairsFrom(vecs[0].codes, vecs[0].first);
    HeardPlain(vecs[1..], lva);
    ActionsArePairs(vecs[0].codes, vecs[0].first);
    HearPairsConcat(head, VecsPairs(vecs[1..]));
    assert LeaveAllFirst(lva) + HearPairs(head) + HearPairs(VecsPairs(vecs[1..]))
        == LeaveAllFirst(lva) + (HearPairs(head) + HearPairs(VecsPairs(vecs[1..])));
  }

  /**
  Whatever the list, whenever a PDU goes out its receiver hears LeaveAll first (if it was flagged) and then, in list
  order, exactly the events of the carried attributes among those emission looked at, VIDs past 0xFFF excepted.
  */
  lemma {:induction false} RoundTrip(src: seq<byte>, slots: seq<Slot>, lva: bool)
    requires |src| == 6 && Ascending(slots)
    requires TxPdu(src, slots, lva).Some?
    ensures var plan := EmitPlan(slots, lva);
      && CarriedPairs(slots, None) == VecsPairs(plan.vecs) + CarriedPairs(plan.left, None)
      && Decode(TxPdu(src, slots, lva).value).actions == LeaveAllFirst(lva) + HearPairs(VecsPairs(plan.vecs))
  {
    var plan := EmitPlan(slots, lva);
    VectorsAreCarried(slots, lva, 0, 2, CAPACITY);
    VectorsShape(slots, lva, 0, 2, CAPACITY);
    if plan.vecs == [] {
      BareLeaveAllDecodes(src);
    } else {
      FrameDecodes(src, plan.vecs);
      HeardIsPairs(plan.vecs, lva);
    }
  }

  lemma {:induction false} NothingOwedNothingCarried(slots: seq<Slot>)
    requires NothingOwed(slots)
    ensures CarriedPairs(slots, None) == []
  {
    if slots != [] {
      assert slots[0] in slots;
      NothingOwedNothingCarried(slots[1..]);
    }
  }

  lemma {:induction false} FitsCarriesAll(slots: seq<Slot>, lva: bool)
    requires Ascending(slots) && Fits(slots, lva)
    ensures CarriedPairs(slots, None) == VecsPairs(EmitPlan(slots, lva).vecs)
    ensures EmitPlan(slots, lva).vecs == [] <==> CarriedPairs(slots, None) == []
  {
    var vecs := EmitPlan(slots, lva).vecs;
    NothingOwedNothingCarried(EmitPlan(slots, lva).left);
    VectorsAreCarried(slots, lva, 0, 2, CAPACITY);
    VectorsShape(slots, lva, 0, 2, CAPACITY);
    if vecs != [] {
      assert vecs[0] in vecs;
      assert PairsFrom(vecs[0].codes, vecs[0].first) != [];
    }
  }

  /** When everything fits: a PDU goes out exactly if there is something to say, and it says all of it. */
  lemma {:induction false} RoundTripFits(src: seq<byte>, slots: seq<Slot>, lva: bool)
    requires |src| == 6 && Ascending(slots) && Fits(slots, lva)
    ensures TxPdu(src, slots, lva).Some? <==> lva || CarriedPairs(slots, None) != []
    ensures TxPdu(src, slots, lva).Some? ==>
      Decode(TxPdu(src, slots, lva).value).actions == LeaveAllFirst(lva) + HearPairs(CarriedPairs(slots, None))
  {
    FitsCarriesAll(slots, lva);
    if TxPdu(src, slots, lva).Some? {
      RoundTrip(src, slots, lva);
    }
  }

  /* ---------- how much fits ---------- */

  const MAX_SURE: nat := 395

  /**
  Bytes of the vectors that the riding rule forms on the list alone: each owed attribute that does not ride starts one,
  and those directly behind it that are flagged and consecutive share it.
  */
  function Need(slots: seq<Slot>): nat
    decreases |slots|
  {
    if slots == [] then 0
    else if !slots[0].tx || slots[0].optional then Need(slots[1..])
    else
      var n := 1 + Riders(slots[1..], NextVid(slots[0].vid));
      VecSize(n) + Need(slots[n..])
  }

  lemma {:induction false} NoNeed(slots: seq<Slot>)
    ensures Need(slots) == 0 <==> NothingOwed(slots)
    ensures Need(slots) == 0 || Need(slots) >= 5
  {
    if slots != [] {
      assert slots[0] in slots;
      NoNeed(slots[1..]);
    }
  }

  lemma VecsBytesCons(v: Vec, rest: seq<Vec>)
    ensures |VecsBytes([v] + rest)| == VecSize(|v.codes|) + |VecsBytes(rest)|
  {
    assert ([v] + rest)[1..] == rest;
  }

  /** With room for what is needed the emitter gets to everything owed. */
  lemma {:induction false} NeedPlans(slots: seq<Slot>, lva: bool, ptr: nat, at: nat, cap: nat)
    requires AllCoded(slots) && ptr <= at && at + Need(slots) + 4 < cap
    ensures var plan := Vectors(slots, lva, ptr, at, cap); plan.Plan? && NothingOwed(plan.left)
    decreases |slots|
  {
    hide Vectors, Need, Riders, Codes, NextVid, AllCoded;
    NoNeed(slots);
    if slots == [] || ptr + VECTOR_SIZE + ENDMARK_SIZE >= cap {
      VectorsStop(slots, lva, ptr, at, cap);
    } else {
      NeedUnfolds(slots);
      if !slots[0].tx || slots[0].optional {
        VectorsSkip(slots, lva, ptr, at, cap);
        CodedRest(slots, 1);
        NeedPlans(slots[1..], lva, ptr, at, cap);
      } else {
        var n := 1 + Riders(slots[1..], NextVid(slots[0].vid));
        var end := at + VecSize(n);
        VectorsTake(slots, lva, ptr, at, cap, n);
        CodedRest(slots, n);
        CodesOfAll(slots[..n]);
        NeedPlans(slots[n..], false, end, end, cap);
      }
    }
  }

  lemma NeedUnfolds(slots: seq<Slot>)
    requires slots != []
    ensures Need(slots) ==
      if !slots[0].tx || slots[0].optional then Need(slots[1..])
      else var n := 1 + Riders(slots[1..], NextVid(slots[0].vid)); VecSize(n) + Need(slots[n..])
  {
    hide Riders, NextVid;
  }

  lemma CodedRest(slots: seq<Slot>, n: nat)
    requires AllCoded(slots) && n <= |slots|
    ensures AllCoded(slots[..n]) && AllCoded(slots[n..])
  {}

  /** And what it then writes is what is needed. */
  lemma {:induction false} PlanNeeds(slots: seq<Slot>, lva: bool, ptr: nat, at: nat, cap: nat)
    requires var plan := Vectors(slots, lva, ptr, at, cap); plan.Plan? && NothingOwed(plan.left)
    ensures |VecsBytes(Vectors(slots, lva, ptr, at, cap).vecs)| == Need(slots)
    ensures Vectors(slots, lva, ptr, at, cap).vecs == [] <==> Need(slots) == 0
    decreases |slots|
  {
    hide Vectors, Need, Riders, Codes, NextVid, VecsBytes, NothingOwed;
    NoNeed(slots);
    if slots == [] || ptr + VECTOR_SIZE + ENDMARK_SIZE >= cap {
      VectorsStop(slots, lva, ptr, at, cap);
      NoBytes();
    } else {
      NeedUnfolds(slots);
      if !slots[0].tx || slots[0].optional {
        VectorsSkip(slots, lva, ptr, at, cap);
        PlanNeeds(slots[1..], lva, ptr, at, cap);
      } else {
        var n := 1 + Riders(slots[1..], NextVid(slots[0].vid));
        var end := at + VecSize(n);
        VectorsTake(slots, lva, ptr, at, cap, n);
        PlanNeeds(slots[n..], false, end, end, cap);
        VecsBytesCons(Vec(lva, slots[0].vid, Codes(slots[..n]).value), Vectors(slots[n..], false, end, end, cap).vecs);
      }
    }
  }

  lemma NoBytes()
    ensures VecsBytes([]) == []
  {}

  /** There is room for all that is owed: a sum over the list, which a caller can form before the call. */
  predicate Roomy(slots: seq<Slot>) {
    Need(slots) + 6 < CAPACITY
  }

  /** Everything owed goes out in one PDU exactly if there is room for it. */
  lemma FitsExactly(slots: seq<Slot>, lva: bool)
    requires AllCoded(slots)
    ensures Fits(slots, lva) <==> Roomy(slots)
  {
    if Roomy(slots) {
      NeedPlans(slots, lva, 0, 2, CAPACITY);
    }
    var plan := EmitPlan(slots, lva);
    if plan.Plan? && NothingOwed(plan.left) {
      PlanNeeds(slots, lva, 0, 2, CAPACITY);
      assert plan.vecs != [] ==> |Message(plan.vecs, lva)| == Need(slots) + 4;
    }
  }

  lemma {:induction false} NeedAtMost(slots: seq<Slot>)
    ensures Need(slots) <= 5 * |slots|
    decreases |slots|
  {
    if slots != [] {
      if !slots[0].tx || slots[0].optional {
        NeedAtMost(slots[1..]);
      } else {
        NeedAtMost(slots[1 + Riders(slots[1..], NextVid(slots[0].vid))..]);
      }
    }
  }

  /** Up to 395 attributes always fit, whatever their VIDs and events. */
  lemma SmallDatabaseFits(slots: seq<Slot>, lva: bool)
    requires |slots| <= MAX_SURE
    ensures Roomy(slots) && (AllCoded(slots) ==> Fits(slots, lva))
  {
    NeedAtMost(slots);
    if AllCoded(slots) {
      FitsExactly(slots, lva);
    }
  }

  /** All of them must be sent and no two can share a vector. */
  ghost predicate Scattered(slots: seq<Slot>) {
    && (forall i | 0 <= i < |slots| :: slots[i].tx && !slots[i].optional && slots[i].code.Some?)
    && (forall i | 0 <= i < |slots| - 1 :: slots[i + 1].vid != NextVid(slots[i].vid))
  }

  lemma {:induction false} ScatteredNeed(slots: seq<Slot>)
    requires Scattered(slots)
    ensures Need(slots) == 5 * |slots|
  {
    if slots != [] {
      assert |slots| > 1 ==> slots[1..][0] == slots[1] && slots[0 + 1].vid != NextVid(slots[0].vid);
      assert Riders(slots[1..], NextVid(slots[0].vid)) == 0;
      ScatteredNeed(slots[1..]);
    }
  }

  /** 395 is exact: it is the most scattered attributes that fit. */
  lemma ScatteredFitsExactly(slots: seq<Slot>, lva: bool)
    requires Scattered(slots)
    ensures Fits(slots, lva) <==> |slots| <= MAX_SURE
  {
    ScatteredNeed(slots);
    assert AllCoded(slots);
    FitsExactly(slots, lva);
  }

  /* ---------- exactly when everything owed is heard ---------- */

  predicate Owed(s: Slot) {
    s.tx && !s.optional
  }

  lemma {:induction false} OwedIsCarried(slots: seq<Slot>, behind: Option<nat>, i: nat)
    requires i < |slots| && Owed(slots[i])
    ensures (slots[i].vid as nat, CodeOf(slots[i])) in CarriedPairs(slots, behind)
  {
    if i > 0 {
      OwedIsCarried(slots[1..], if Carried(slots[0], behind) then Some(slots[0].vid) else None, i - 1);
    }
  }

  lemma {:induction false} CarriedFrom(slots: seq<Slot>, behind: Option<nat>, p: Pair) returns (i: nat)
    requires p in CarriedPairs(slots, behind)
    ensures i < |slots| && p == (slots[i].vid as nat, CodeOf(slots[i]))
  {
    if Carried(slots[0], behind) && p == (slots[0].vid as nat, CodeOf(slots[0])) {
      i := 0;
    } else {
      i := CarriedFrom(slots[1..], if Carried(slots[0], behind) then Some(slots[0].vid) else None, p);
      i := i + 1;
    }
  }

  ghost predicate Rising(pairs: seq<Pair>) {
    forall i, j | 0 <= i < j < |pairs| :: pairs[i].0 < pairs[j].0
  }

  lemma {:induction false} CarriedRises(slots: seq<Slot>, behind: Option<nat>)
    requires Ascending(slots)
    ensures Rising(CarriedPairs(slots, behind))
  {
    if slots != [] {
      var carried := Carried(slots[0], behind);
      var rest := CarriedPairs(slots[1..], if carried then Some(slots[0].vid) else None);
      CarriedRises(slots[1..], if carried then Some(slots[0].vid) else None);
      forall p | p in rest ensures slots[0].vid < p.0 {
        var i := CarriedFrom(slots[1..], if carried then Some(slots[0].vid) else None, p);
        assert slots[1..][i] == slots[i + 1];
      }
    }
  }

  lemma {:induction false} HearsPair(pairs: seq<Pair>, p: Pair)
    ensures Hear(p.0, p.1) in HearPairs(pairs) <==> p in pairs && p.0 <= MAX_VID
  {
    if pairs != [] {
      HearsPair(pairs[1..], p);
      assert p in pairs <==> p == pairs[0] || p in pairs[1..];
    }
  }

  /** Everything owed reaches the receiver. */
  ghost predicate AllHeard(src: seq<byte>, slots: seq<Slot>, lva: bool) {
    forall i | 0 <= i < |slots| && Owed(slots[i]) ::
      && TxPdu(src, slots, lva).Some?
      && Hear(slots[i].vid, CodeOf(slots[i])) in Decode(TxPdu(src, slots, lva).value).actions
  }

  lemma {:induction false} OwedWhenPlanned(slots: seq<Slot>, lva: bool, ptr: nat, at: nat, cap: nat) returns (i: nat)
    requires Vectors(slots, lva, ptr, at, cap).Oops? || Vectors(slots, lva, ptr, at, cap).vecs != []
    ensures i < |slots| && Owed(slots[i])
  {
    if !slots[0].tx || slots[0].optional {
      i := OwedWhenPlanned(slots[1..], lva, ptr, at, cap);
      i := i + 1;
    } else {
      i := 0;
    }
  }

  lemma {:induction false} LeftIsSuffix(slots: seq<Slot>, lva: bool, ptr: nat, at: nat, cap: nat) returns (m: nat)
    requires Vectors(slots, lva, ptr, at, cap).Plan?
    ensures m <= |slots| && Vectors(slots, lva, ptr, at, cap).left == slots[m..]
    decreases |slots|
  {
    if slots == [] || ptr + VECTOR_SIZE + ENDMARK_SIZE >= cap {
      m := 0;
    } else if !slots[0].tx || slots[0].optional {
      m := LeftIsSuffix(slots[1..], lva, ptr, at, cap);
      m := m + 1;
    } else {
      var n := 1 + Riders(slots[1..], NextVid(slots[0].vid));
      var end := at + VecSize(n);
      m := LeftIsSuffix(slots[n..], false, end, end, cap);
      assert slots[n..][m..] == slots[n + m..];
      m := n + m;
    }
  }

  lemma SplitRises(a: seq<Pair>, b: seq<Pair>, p: Pair)
    requires Rising(a + b) && p in b
    ensures p !in a
  {
    var j :| 0 <= j < |b| && b[j] == p;
    forall i | 0 <= i < |a| ensures a[i] != p {
      assert (a + b)[i].0 < (a + b)[|a| + j].0;
    }
  }

  lemma {:induction false} LeftUnheard(src: seq<byte>, slots: seq<Slot>, lva: bool)
    requires |src| == 6 && Ascending(slots) && TxPdu(src, slots, lva).Some?
    requires !NothingOwed(EmitPlan(slots, lva).left)
    ensures !AllHeard(src, slots, lva)
  {
    var plan := EmitPlan(slots, lva);
    var m := LeftIsSuffix(slots, lva, 0, 2, CAPACITY);
    var x :| x in plan.left && x.tx && !x.optional;
    var j :| 0 <= j < |plan.left| && plan.left[j] == x;
    assert slots[m + j] == x && Owed(slots[m + j]);
    var p: Pair := (x.vid, CodeOf(x));
    RoundTrip(src, slots, lva);
    OwedIsCarried(plan.left, None, j);
    CarriedRises(slots, None);
    SplitRises(VecsPairs(plan.vecs), CarriedPairs(plan.left, None), p);
    HearsPair(VecsPairs(plan.vecs), p);
  }

  lemma {:induction false} HeardIffPlanned(src: seq<byte>, slots: seq<Slot>, lva: bool)
    requires |src| == 6 && Ascending(slots) && forall s | s in slots :: s.vid <= MAX_VID
    ensures AllHeard(src, slots, lva) <==> Fits(slots, lva)
  {
    var plan := EmitPlan(slots, lva);
    if Fits(slots, lva) {
      RoundTripFits(src, slots, lva);
      forall i | 0 <= i < |slots| && Owed(slots[i])
        ensures TxPdu(src, slots, lva).Some?
        ensures Hear(slots[i].vid, CodeOf(slots[i])) in Decode(TxPdu(src, slots, lva).value).actions {
        OwedIsCarried(slots, None, i);
        HearsPair(CarriedPairs(slots, None), (slots[i].vid as nat, CodeOf(slots[i])));
      }
    } else if plan.Plan? && !NothingOwed(plan.left) && TxPdu(src, slots, lva).Some? {
      LeftUnheard(src, slots, lva);
    } else if plan.Plan? && plan.vecs == [] {
      NothingPlanned(slots, lva);
    } else {
      var i := OwedWhenPlanned(slots, lva, 0, 2, CAPACITY);
    }
  }

  /**
  Everything owed is heard exactly if there is room for it: the sizes of the vectors that the list calls for add up to
  less than the frame holds.
  */
  lemma HeardIffRoomy(src: seq<byte>, slots: seq<Slot>, lva: bool)
    requires |src| == 6 && Ascending(slots) && AllCoded(slots) && forall s | s in slots :: s.vid <= MAX_VID
    ensures AllHeard(src, slots, lva) <==> Roomy(slots)
  {
    HeardIffPlanned(src, slots, lva);
    FitsExactly(slots, lva);
  }

  /** With no vector at all the loop got to the end, so that nothing was owed. */
  lemma {:induction false} NothingPlanned(slots: seq<Slot>, lva: bool)
    requires EmitPlan(slots, lva).Plan? && EmitPlan(slots, lva).vecs == []
    ensures NothingOwed(slots) && Fits(slots, lva)
  {
    NoVectors(slots, lva, 0, 2, CAPACITY);
  }

  lemma {:induction false} NoVectors(slots: seq<Slot>, lva: bool, ptr: nat, at: nat, cap: nat)
    requires ptr + VECTOR_SIZE + ENDMARK_SIZE < cap
    requires Vectors(slots, lva, ptr, at, cap).Plan? && Vectors(slots, lva, ptr, at, cap).vecs == []
    ensures NothingOwed(slots) && Vectors(slots, lva, ptr, at, cap).left == []
  {
    if slots != [] {
      NoVectors(slots[1..], lva, ptr, at, cap);
    }
  }
}
