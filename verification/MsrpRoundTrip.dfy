/**
The MSRP codec's law: decoding the PDU that the four emitters built gives back, kind by kind and in list order,
exactly the values, events and listener sub-states of the attributes that had to be sent and of those riding behind
them, Ignore excepted.
*/
module MsrpRoundTrip {
  import opened Mrp
  import opened MrpPdu
  import opened ByteCounter
  import opened MsrpCodec

  /* ---------- first values ---------- */

  lemma BytesHeld(f: seq<byte>, p: nat, b: seq<byte>)
    requires Holds(f, p, b)
    ensures BytesAt(f, p, |b|) == b
  {
    forall i | 0 <= i < |b| ensures BytesAt(f, p, |b|)[i] == b[i] {
      HoldsAt(f, p, b, i);
    }
  }

  lemma DWordHeld(f: seq<byte>, p: nat, x: u32)
    requires Holds(f, p, DWord(x))
    ensures DWordAt(f, p) == x
  {
    HoldsSplit(f, p, Word(x / 0x1_0000), Word(x % 0x1_0000));
    HoldsWord(f, p, x / 0x1_0000);
    HoldsWord(f, p + 2, x % 0x1_0000);
  }

  lemma TalkerHeld(f: seq<byte>, p: nat, t: TalkListen)
    requires Holds(f, p, TalkerBytes(t))
    ensures TalkListenAt(f, p, false) == t.(bridge := ZERO64, failure := 0)
  {
    var a := t.streamId + t.dest;
    var b := a + Word(t.vlan);
    var c := b + Word(t.maxFrame);
    var d := c + Word(t.maxInterval);
    HoldsSplit(f, p, d + [t.prio], DWord(t.latency));
    HoldsSplit(f, p, d, [t.prio]);
    HoldsSplit(f, p, c, Word(t.maxInterval));
    HoldsSplit(f, p, b, Word(t.maxFrame));
    HoldsSplit(f, p, a, Word(t.vlan));
    HoldsSplit(f, p, t.streamId, t.dest);
    BytesHeld(f, p, t.streamId);
    BytesHeld(f, p + 8, t.dest);
    HoldsWord(f, p + 14, t.vlan);
    HoldsWord(f, p + 16, t.maxFrame);
    HoldsWord(f, p + 18, t.maxInterval);
    HoldsAt(f, p + 20, [t.prio], 0);
    DWordHeld(f, p + 21, t.latency);
  }

  lemma FailedHeld(f: seq<byte>, p: nat, t: TalkListen)
    requires Holds(f, p, TalkerBytes(t) + (t.bridge + [t.failure]))
    ensures TalkListenAt(f, p, true) == t
  {
    HoldsSplit(f, p, TalkerBytes(t), t.bridge + [t.failure]);
    HoldsSplit(f, p + 25, t.bridge, [t.failure]);
    TalkerHeld(f, p, t);
    BytesHeld(f, p + 25, t.bridge);
    HoldsAt(f, p + 33, [t.failure], 0);
  }

  /** What stays off the wire does not show in the bytes. */
  lemma WireBytes(v: Value)
    ensures FirstValue(Wire(v)) == FirstValue(v) && Wire(Wire(v)) == Wire(v) && KindOf(Wire(v)) == KindOf(v)
  {}

  /** A first value reads back field for field. */
  lemma FirstValueHeld(f: seq<byte>, p: nat, v: Value)
    requires Holds(f, p, FirstValue(v))
    ensures ValueAt(f, p, KindOf(v)) == Wire(v)
  {
    match v
    case TalkerAdv(t) => TalkerHeld(f, p, t);
    case TalkerFailed(t) => FailedHeld(f, p, t);
    case Listener(t) => BytesHeld(f, p, t.streamId);
    case Domain(d) =>
      HoldsSplit(f, p, [d.classId, d.prio], Word(d.vid));
      HoldsAt(f, p, [d.classId, d.prio], 0);
      HoldsAt(f, p, [d.classId, d.prio], 1);
      HoldsWord(f, p + 2, d.vid);
  }

  /* ---------- one vector ---------- */

  /** What a receiver makes of items for consecutive values from `v`. */
  function HeardItems(items: seq<Item>, v: Value): seq<Action> {
    if items == [] then [] else HeardItem(items[0], v) + HeardItems(items[1..], Succ(v))
  }

  function HeardItem(it: Item, v: Value): seq<Action> {
    if v.Listener? && it.sub == 0 then [] else [Hear(v, it.code, it.sub)]
  }

  lemma {:induction false} GroupIsHeard(items: seq<Item>, codes: seq<nat>, subs: seq<nat>, v: Value)
    requires |codes| == |items| <= |subs|
    requires forall i | 0 <= i < |items| :: codes[i] == items[i].code && subs[i] == items[i].sub
    ensures Group(codes, subs, v) == HeardItems(items, v)
    decreases |items|
  {
    if items != [] {
      GroupIsHeard(items[1..], codes[1..], subs[1..], Succ(v));
    }
  }

  lemma {:induction false} HeardSplit(a: seq<Item>, b: seq<Item>, v: Value)
    ensures HeardItems(a + b, v) == HeardItems(a, v) + HeardItems(b, Advance(v, |a|))
    decreases |a|
  {
    hide HeardItem, Succ;
    if a == [] {
      assert a + b == b;
    } else {
      assert (a + b)[1..] == a[1..] + b && (a + b)[0] == a[0];
      HeardSplit(a[1..], b, Succ(v));
      Associate(HeardItem(a[0], v), HeardItems(a[1..], Succ(v)), HeardItems(b, Advance(v, |a|)));
    }
  }

  lemma CodesTail(f: seq<byte>, b: nat, items: seq<Item>)
    requires items != [] && CodesAt(f, b, |items|) == CodesOf(items)
    ensures var m := Min3(|items|);
      && Unpack3(At(f, b))[..m] == CodesOf(items)[..m]
      && CodesAt(f, b + 1, |items| - m) == CodesOf(items[m..])
  {
    var m := Min3(|items|);
    var all := CodesAt(f, b, |items|);
    assert all == Unpack3(At(f, b))[..m] + CodesAt(f, b + 1, |items| - m);
    assert all[..m] == Unpack3(At(f, b))[..m];
    assert all[m..] == CodesAt(f, b + 1, |items| - m);
    assert CodesOf(items)[m..] == CodesOf(items[m..]);
  }

  /** Event bytes that hold `items` are heard as them. */
  lemma {:induction false} ItemsHeard(f: seq<byte>, b: nat, items: seq<Item>, subs: seq<nat>, v: Value)
    requires CodesAt(f, b, |items|) == CodesOf(items) && subs == SubsOf(items)
    ensures ItemsAt(f, b, |items|, subs, v) == HeardItems(items, v)
    decreases |items|
  {
    hide Succ, CodesAt;
    if items != [] {
      var m := Min3(|items|);
      CodesTail(f, b, items);
      var codes := Unpack3(At(f, b))[..m];
      assert codes[0] == CodesOf(items)[..m][0] == items[0].code;
      forall i | 0 <= i < m ensures codes[i] == items[..m][i].code {
        assert codes[i] == CodesOf(items)[..m][i];
      }
      GroupIsHeard(items[..m], codes, subs, v);
      assert subs[m..] == SubsOf(items[m..]);
      ItemsHeard(f, b + 1, items[m..], subs[m..], Advance(v, m));
      HeardSplit(items[..m], items[m..], v);
      assert items == items[..m] + items[m..];
    }
  }

  ghost predicate PlainSubs(v: Vec) {
    !v.first.Listener? ==> forall i | 0 <= i < |v.items| :: v.items[i].sub == 0
  }

  lemma EventsHeld(f: seq<byte>, p: nat, v: Vec)
    requires Holds(f, p + 2 + AttribLen(KindOf(v.first)), EventsBytes(v)) && PlainSubs(v)
    ensures CodesAt(f, p + 2 + AttribLen(KindOf(v.first)), |v.items|) == CodesOf(v.items)
    ensures SubStatesAt(f, p, KindOf(v.first), |v.items|) == SubsOf(v.items)
  {
    hide Pack3, Pack4, AttribLen, Holds, CodesAt, SubStatesAt, EventsBytes, PlainSubs;
    var q := p + 2 + AttribLen(KindOf(v.first));
    if v.first.Listener? {
      ListenerEvents(v);
      HoldsSplit(f, q, Pack3(CodesOf(v.items)), Pack4(SubsOf(v.items)));
      SubsHeld(f, p, v);
    } else {
      PlainEvents(f, p, v);
    }
    UnpackPack(f, q, CodesOf(v.items));
  }

  lemma ListenerEvents(v: Vec)
    requires v.first.Listener?
    ensures EventsBytes(v) == Pack3(CodesOf(v.items)) + Pack4(SubsOf(v.items))
    ensures |Pack3(CodesOf(v.items))| == (|v.items| + 2) / 3
  {
    hide Pack3, Pack4;
  }

  lemma SubsHeld(f: seq<byte>, p: nat, v: Vec)
    requires v.first.Listener?
    requires Holds(f, p + 2 + AttribLen(KindOf(v.first)) + (|v.items| + 2) / 3, Pack4(SubsOf(v.items)))
    ensures SubStatesAt(f, p, KindOf(v.first), |v.items|) == SubsOf(v.items)
  {
    hide Pack4, Holds;
    UnpackPack4(f, p + 2 + AttribLen(KindOf(v.first)) + (|v.items| + 2) / 3, SubsOf(v.items));
  }

  lemma PlainEvents(f: seq<byte>, p: nat, v: Vec)
    requires !v.first.Listener? && PlainSubs(v)
    ensures EventsBytes(v) == Pack3(CodesOf(v.items))
    ensures SubStatesAt(f, p, KindOf(v.first), |v.items|) == SubsOf(v.items)
  {
    hide Pack3;
  }

  lemma VecParts(f: seq<byte>, p: nat, v: Vec)
    requires Holds(f, p, VecBytes(v))
    ensures Holds(f, p, Word(Header(v.lva, |v.items|))) && Holds(f, p + 2, FirstValue(v.first))
    ensures Holds(f, p + 2 + AttribLen(KindOf(v.first)), EventsBytes(v))
  {
    var h := Word(Header(v.lva, |v.items|));
    HoldsSplit(f, p, h + FirstValue(v.first), EventsBytes(v));
    HoldsSplit(f, p, h, FirstValue(v.first));
  }

  /** A vector reads back as its header, its first value and its items. */
  lemma VecHeld(f: seq<byte>, p: nat, v: Vec)
    requires Holds(f, p, VecBytes(v)) && PlainSubs(v)
    ensures WordAt(f, p) == Header(v.lva, |v.items|)
    ensures VectorAt(f, p, KindOf(v.first), |v.items|) == HeardItems(v.items, Wire(v.first))
  {
    var k, n := KindOf(v.first), |v.items|;
    VecParts(f, p, v);
    HoldsWord(f, p, Header(v.lva, n));
    FirstValueHeld(f, p + 2, v.first);
    EventsHeld(f, p, v);
    ItemsHeard(f, p + 2 + AttribLen(k), v.items, SubsOf(v.items), Wire(v.first));
  }

  ghost predicate GoodVec(k: Kind, v: Vec) {
    KindOf(v.first) == k && 0 < |v.items| < LVA_FLAG && PlainSubs(v) && Wire(v.first) == v.first
  }

  ghost predicate Emittable(k: Kind, vecs: seq<Vec>) {
    forall v | v in vecs :: GoodVec(k, v)
  }

  /** What the receiver finds where vector `v` of kind `k` was written. */
  ghost predicate VecReads(f: seq<byte>, p: nat, k: Kind, v: Vec) {
    var n := |v.items|;
    && n > 0 && !EndMarkAt(f, p) && NumValues(WordAt(f, p)) == n && IsLva(WordAt(f, p)) == v.lva
    && !RunsOff(f, p, k, n) && VectorAt(f, p, k, n) == HeardItems(v.items, v.first)
  }

  lemma VecRead(f: seq<byte>, p: nat, k: Kind, v: Vec)
    requires Holds(f, p, VecBytes(v)) && p + VecSize(k, |v.items|) + 2 <= |f| && GoodVec(k, v)
    ensures VecReads(f, p, k, v)
  {
    VecHeld(f, p, v);
    HeaderRoundTrip(v.lva, |v.items|);
  }

  function VecsSize(k: Kind, vecs: seq<Vec>): nat {
    if vecs == [] then 0 else VecSize(k, |vecs[0].items|) + VecsSize(k, vecs[1..])
  }

  ghost predicate Readable(f: seq<byte>, p: nat, k: Kind, vecs: seq<Vec>)
    decreases |vecs|
  {
    if vecs == [] then EndMarkAt(f, p)
    else VecReads(f, p, k, vecs[0]) && Readable(f, p + VecSize(k, |vecs[0].items|), k, vecs[1..])
  }

  lemma {:induction false} VectorsRead(f: seq<byte>, p: nat, k: Kind, vecs: seq<Vec>)
    requires Holds(f, p, VecsBytes(vecs) + [0, 0]) && Emittable(k, vecs)
    ensures Readable(f, p, k, vecs) && |VecsBytes(vecs)| == VecsSize(k, vecs)
    decreases |vecs|
  {
    hide VecBytes, VecReads;
    if vecs == [] {
      HoldsAt(f, p, [0, 0], 0);
      HoldsAt(f, p, [0, 0], 1);
    } else {
      assert GoodVec(k, vecs[0]);
      HoldsFirst(f, p, VecBytes(vecs[0]), VecsBytes(vecs[1..]), [0, 0]);
      VecRead(f, p, k, vecs[0]);
      VectorsRead(f, p + |VecBytes(vecs[0])|, k, vecs[1..]);
    }
  }

  /* ---------- one message ---------- */

  function LvaHeard(k: Kind, lva: bool, saw: set<Kind>): seq<Action> {
    if lva && k !in saw then [HearLeaveAll(k)] else []
  }

  function SawOne(k: Kind, lva: bool, saw: set<Kind>): set<Kind> {
    if lva then saw + {k} else saw
  }

  /** What a receiver hears from the vectors of one message. */
  function Heard(k: Kind, vecs: seq<Vec>, saw: set<Kind>): seq<Action> {
    if vecs == [] then []
    else
      LvaHeard(k, vecs[0].lva, saw) + HeardItems(vecs[0].items, vecs[0].first)
      + Heard(k, vecs[1..], SawOne(k, vecs[0].lva, saw))
  }

  function SawAfter(k: Kind, vecs: seq<Vec>, saw: set<Kind>): set<Kind> {
    if vecs == [] then saw else SawAfter(k, vecs[1..], SawOne(k, vecs[0].lva, saw))
  }

  lemma {:induction false} VectorsDecode(f: seq<byte>, p: nat, k: Kind, vecs: seq<Vec>, saw: set<Kind>)
    requires Readable(f, p, k, vecs)
    ensures DecodeVectors(f, p, k, saw)
         == Decoded(Heard(k, vecs, saw), true, p + VecsSize(k, vecs), SawAfter(k, vecs, saw))
    decreases |vecs|
  {
    hide HeardItems, VectorAt, RunsOff, AttribLen, EventBytes;
    if vecs != [] {
      VectorsDecode(f, p + VecSize(k, |vecs[0].items|), k, vecs[1..], SawOne(k, vecs[0].lva, saw));
    }
  }

  lemma {:induction false} ZeroesHeld(f: seq<byte>, p: nat, n: nat)
    requires Holds(f, p, Zeroes(n) + [0, 0])
    ensures EndMarkAt(f, p + n)
  {
    HoldsAt(f, p, Zeroes(n) + [0, 0], n);
    HoldsAt(f, p, Zeroes(n) + [0, 0], n + 1);
  }

  /** The bare LeaveAll is a vector without values, which the receiver passes over after hearing it. */
  lemma {:induction false} BareDecodes(f: seq<byte>, p: nat, k: Kind, saw: set<Kind>)
    requires Holds(f, p, Word(LVA_FLAG) + Zeroes(AttribLen(k)) + [0, 0]) && k !in saw
    ensures DecodeVectors(f, p, k, saw) == Decoded([HearLeaveAll(k)], true, p + 2 + AttribLen(k), saw + {k})
  {
    var tail := Zeroes(AttribLen(k)) + [0, 0];
    assert Word(LVA_FLAG) + Zeroes(AttribLen(k)) + [0, 0] == Word(LVA_FLAG) + tail;
    HoldsSplit(f, p, Word(LVA_FLAG), tail);
    HoldsWord(f, p, LVA_FLAG);
    HoldsAt(f, p, Word(LVA_FLAG), 0);
    ZeroesHeld(f, p + 2, AttribLen(k));
  }

  /** What one message is heard as. */
  function HeardMessage(k: Kind, vecs: seq<Vec>, empty: bool): seq<Action> {
    if vecs == [] && empty then [HearLeaveAll(k)] else Heard(k, vecs, {})
  }

  lemma {:induction false} HeardFresh(k: Kind, vecs: seq<Vec>, saw: set<Kind>, saw': set<Kind>)
    requires k in saw <==> k in saw'
    ensures Heard(k, vecs, saw) == Heard(k, vecs, saw')
  {
    if vecs != [] {
      var lva := vecs[0].lva;
      HeardFresh(k, vecs[1..], SawOne(k, lva, saw), SawOne(k, lva, saw'));
    }
  }

  lemma {:induction false} SawOnly(k: Kind, vecs: seq<Vec>, saw: set<Kind>)
    ensures SawAfter(k, vecs, saw) <= saw + {k}
  {
    if vecs != [] {
      SawOnly(k, vecs[1..], SawOne(k, vecs[0].lva, saw));
    }
  }

  /** The receiver accepts the message header an emitter writes. */
  lemma MessageLayout(f: seq<byte>, p: nat, k: Kind, body: seq<byte>)
    requires Holds(f, p, MessageOf(k, body)) && AttribLen(k) + 1 <= |body| < 0x8000
    ensures KindAt(f, p) == Some(k) && At(f, p + 1) == AttribLen(k) && !EndMarkAt(f, p)
    ensures ListLengthOk(f, p) && Holds(f, p + 4, body + [0, 0]) && EndMarkAt(f, p + 4 + |body|)
  {
    hide Holds, Word, MessageOf, TypeByte, AttribLen, KindAt, EndMarkAt, ListLengthOk, WordAt;
    var head, len := [TypeByte(k), AttribLen(k)], Word(|body| + ENDMARK_SIZE);
    MessageParts(k, body);
    HoldsSplit(f, p, head + len, body + [0, 0]);
    HoldsSplit(f, p, head, len);
    HeadHeld(f, p, k);
    HoldsWord(f, p + 2, |body| + ENDMARK_SIZE);
    BodyEnds(f, p + 4, body);
    LengthAccepted(f, p, k, body);
  }

  lemma MessageParts(k: Kind, body: seq<byte>)
    requires |body| < 0x8000
    ensures MessageOf(k, body) == [TypeByte(k), AttribLen(k)] + Word(|body| + ENDMARK_SIZE) + (body + [0, 0])
    ensures |Word(|body| + ENDMARK_SIZE)| == 2
  {
    hide TypeByte, AttribLen;
  }

  lemma HeadHeld(f: seq<byte>, p: nat, k: Kind)
    requires Holds(f, p, [TypeByte(k), AttribLen(k)])
    ensures KindAt(f, p) == Some(k) && At(f, p + 1) == AttribLen(k) && !EndMarkAt(f, p)
  {
    HoldsAt(f, p, [TypeByte(k), AttribLen(k)], 0);
    HoldsAt(f, p, [TypeByte(k), AttribLen(k)], 1);
  }

  lemma BodyEnds(f: seq<byte>, p: nat, body: seq<byte>)
    requires Holds(f, p, body + [0, 0])
    ensures EndMarkAt(f, p + |body|)
  {
    HoldsAt(f, p, body + [0, 0], |body|);
    HoldsAt(f, p, body + [0, 0], |body| + 1);
  }

  lemma LengthAccepted(f: seq<byte>, p: nat, k: Kind, body: seq<byte>)
    requires Holds(f, p + 4, body + [0, 0]) && AttribLen(k) + 1 <= |body| < 0x8000
    requires KindAt(f, p) == Some(k) && At(f, p + 1) == AttribLen(k) && WordAt(f, p + 2) == |body| + ENDMARK_SIZE
    ensures ListLengthOk(f, p)
  {
    hide KindAt, WordAt;
  }

  lemma {:induction false} BodyDecodes(f: seq<byte>, p: nat, k: Kind, vecs: seq<Vec>, empty: bool, saw: set<Kind>)
    requires Holds(f, p, Body(k, vecs, empty) + [0, 0]) && Emittable(k, vecs) && k !in saw
    ensures var d := DecodeVectors(f, p, k, saw);
      && d.ok && d.actions == HeardMessage(k, vecs, empty) && d.ptr == p + |Body(k, vecs, empty)| && d.saw <= saw + {k}
  {
    if vecs == [] && empty {
      BareDecodes(f, p, k, saw);
    } else {
      VectorsRead(f, p, k, vecs);
      VectorsDecode(f, p, k, vecs, saw);
      HeardFresh(k, vecs, saw, {});
      SawOnly(k, vecs, saw);
    }
  }

  lemma EndMarkUnfolds(f: seq<byte>, p: nat, saw: set<Kind>)
    requires EndMarkAt(f, p) && p + ENDMARK_SIZE < |f|
    ensures DecodeMessages(f, p, 0, saw) == DecodeMessages(f, p + 2, 1, saw)
  {}

  lemma MessageUnfolds(f: seq<byte>, p: nat, e: nat, k: Kind, saw: set<Kind>)
    requires p + ENDMARK_SIZE < |f| && !EndMarkAt(f, p) && KindAt(f, p) == Some(k)
    requires At(f, p + 1) == AttribLen(k) && ListLengthOk(f, p) && DecodeVectors(f, p + 4, k, saw).ok
    ensures var d := DecodeVectors(f, p + 4, k, saw);
            var rest := DecodeMessages(f, d.ptr, 0, d.saw);
      DecodeMessages(f, p, e, saw) == rest.(actions := d.actions + rest.actions)
  {}

  /** A message is heard, and the walk goes on behind its end mark. */
  lemma MessageDecodes(f: seq<byte>, p: nat, e: nat, k: Kind, body: seq<byte>, saw: set<Kind>, d: Decoded)
    requires Holds(f, p, MessageOf(k, body)) && p + |body| + 8 <= |f| && AttribLen(k) + 1 <= |body| < 0x8000
    requires d == DecodeVectors(f, p + 4, k, saw) && d.ok && d.ptr == p + 4 + |body|
    ensures var rest := DecodeMessages(f, p + |body| + 6, 1, d.saw);
            DecodeMessages(f, p, e, saw) == rest.(actions := d.actions + rest.actions)
  {
    hide DecodeMessages, DecodeVectors;
    MessageLayout(f, p, k, body);
    MessageUnfolds(f, p, e, k, saw);
    EndMarkUnfolds(f, d.ptr, d.saw);
  }

  /* ---------- the shape of what emission plans ---------- */

  ghost predicate NoLva(vecs: seq<Vec>) {
    forall v | v in vecs :: !v.lva
  }

  /** All of one kind: riders are of the first one's kind. */
  lemma {:induction false} RidersKind(slots: seq<Slot>, expected: Value)
    ensures forall i | 0 <= i < Riders(slots, expected) :: KindOf(slots[i].value) == KindOf(expected)
  {
    if Riders(slots, expected) > 0 {
      RidersKind(slots[1..], Succ(expected));
      forall i | 0 <= i < Riders(slots, expected) ensures KindOf(slots[i].value) == KindOf(expected) {
        if i > 0 {
          assert slots[i] == slots[1..][i - 1];
        }
      }
    }
  }

  lemma {:induction false} ItemsAreSlots(slots: seq<Slot>)
    requires Items(slots).Some?
    ensures forall i | 0 <= i < |slots| ::
      slots[i].code == Some(Items(slots).value[i].code) && Items(slots).value[i].sub == WireSub(slots[i])
  {
    if slots != [] {
      ItemsAreSlots(slots[1..]);
    }
  }

  lemma RunPlain(k: Kind, slots: seq<Slot>, n: nat)
    requires slots != [] && KindOf(slots[0].value) == k && n == 1 + Riders(slots[1..], Succ(slots[0].value))
    requires Items(slots[..n]).Some? && k != ListenerKind
    ensures forall i | 0 <= i < n :: Items(slots[..n]).value[i].sub == 0
  {
    RidersKind(slots[1..], Succ(slots[0].value));
    ItemsAreSlots(slots[..n]);
    forall i | 0 <= i < n ensures KindOf(slots[..n][i].value) == k {
      if i > 0 {
        assert slots[..n][i] == slots[1..][i - 1];
      }
    }
  }

  lemma VecShape(k: Kind, slots: seq<Slot>, n: nat, lva: bool, at: nat, cap: nat)
    requires slots != [] && KindOf(slots[0].value) == k && n == 1 + Riders(slots[1..], Succ(slots[0].value))
    requires Items(slots[..n]).Some? && Room(k, n, at + VecSize(k, n), cap) && cap <= CAPACITY
    ensures GoodVec(k, Vec(lva, Wire(slots[0].value), Items(slots[..n]).value))
  {
    WireBytes(slots[0].value);
    if k != ListenerKind {
      RunPlain(k, slots, n);
    }
  }

  /** The first vector is flagged or none, and every vector is decodable. */
  ghost predicate Shaped(k: Kind, vecs: seq<Vec>, lva: bool) {
    Emittable(k, vecs) && (vecs != [] ==> vecs[0].lva == lva && NoLva(vecs[1..]))
  }

  lemma ShapeCons(k: Kind, v: Vec, rest: seq<Vec>)
    requires GoodVec(k, v) && Shaped(k, rest, false)
    ensures Shaped(k, [v] + rest, v.lva)
  {
    assert rest == [] || rest == [rest[0]] + rest[1..];
    assert ([v] + rest)[1..] == rest;
  }

  lemma {:induction false} VectorsShape(k: Kind, slots: seq<Slot>, lva: bool, ptr: nat, at: nat, cap: nat)
    requires cap <= CAPACITY
    ensures var plan := Vectors(k, slots, lva, ptr, at, cap); plan.Plan? ==> Shaped(k, plan.vecs, lva)
    decreases |slots|
  {
    hide GoodVec, Riders, Items, Room, VecSize, Wire, Succ, MinVector;
    if slots == [] || ptr + MinVector(k) + ENDMARK_SIZE >= cap {
    } else if KindOf(slots[0].value) != k || !slots[0].tx || slots[0].optional {
      VectorsShape(k, slots[1..], lva, ptr, at, cap);
    } else {
      var n := 1 + Riders(slots[1..], Succ(slots[0].value));
      var end := at + VecSize(k, n);
      var plan, rest := Vectors(k, slots, lva, ptr, at, cap), Vectors(k, slots[n..], false, end, end, cap);
      if plan.Plan? {
        VecShape(k, slots, n, lva, at, cap);
        VectorsShape(k, slots[n..], false, end, end, cap);
        ShapeCons(k, Vec(lva, Wire(slots[0].value), Items(slots[..n]).value), rest.vecs);
      }
    }
  }

  /** What is emitted fits between `at` and the end mark. */
  lemma {:induction false} VectorsSize(k: Kind, slots: seq<Slot>, lva: bool, ptr: nat, at: nat, cap: nat)
    ensures var plan := Vectors(k, slots, lva, ptr, at, cap);
      plan.Plan? && plan.vecs != [] ==>
        at + |VecsBytes(plan.vecs)| + ENDMARK_SIZE <= cap && |VecsBytes(plan.vecs)| >= AttribLen(k) + 1
    decreases |slots|
  {
    hide Riders, Items, Wire, Succ, MinVector, VecBytes, VecsBytes, Vectors, KindOf, AttribLen, EventBytes;
    if slots == [] || ptr + MinVector(k) + ENDMARK_SIZE >= cap {
      VectorsStop(k, slots, lva, ptr, at, cap);
    } else if KindOf(slots[0].value) != k || !slots[0].tx || slots[0].optional {
      VectorsSkip(k, slots, lva, ptr, at, cap);
      VectorsSize(k, slots[1..], lva, ptr, at, cap);
    } else {
      var n := 1 + Riders(slots[1..], Succ(slots[0].value));
      var end := at + VecSize(k, n);
      VectorsTake(k, slots, lva, ptr, at, cap, n);
      if Vectors(k, slots, lva, ptr, at, cap).Plan? {
        VectorsSize(k, slots[n..], false, end, end, cap);
        FirstSize(slots[0].value, Items(slots[..n]).value, lva, Vectors(k, slots[n..], false, end, end, cap).vecs);
        SomeEvents(k, n);
      }
    }
  }

  lemma SomeEvents(k: Kind, n: nat)
    requires n > 0
    ensures EventBytes(k, n) >= 1
  {}

  lemma FirstSize(v: Value, items: seq<Item>, lva: bool, rest: seq<Vec>)
    ensures |VecsBytes([Vec(lva, Wire(v), items)] + rest)| == VecSize(KindOf(v), |items|) + |VecsBytes(rest)|
    ensures |VecsBytes([])| == 0
  {
    hide Wire;
    WireBytes(v);
    assert ([Vec(lva, Wire(v), items)] + rest)[1..] == rest;
  }

  /* ---------- which attributes are carried ---------- */

  /** One attribute on the wire. */
  datatype Sent = Sent(value: Value, code: nat, sub: nat)

  function CodeOf(s: Slot): nat {
    if s.code.Some? then s.code.value else 0
  }

  /** An attribute rides when it is flagged and, directly behind one that is carried, has the value due there. */
  predicate Carried(k: Kind, s: Slot, due: Option<Value>) {
    KindOf(s.value) == k && s.tx && (!s.optional || (due.Some? && Rides(due.value, s.value)))
  }

  /** What must be on the wire for kind `k`, by the rule above rather than by any encoding. */
  function CarriedSends(k: Kind, slots: seq<Slot>, due: Option<Value>): seq<Sent> {
    if slots == [] then []
    else if Carried(k, slots[0], due)
    then [Sent(Wire(slots[0].value), CodeOf(slots[0]), WireSub(slots[0]))]
         + CarriedSends(k, slots[1..], Some(Succ(slots[0].value)))
    else CarriedSends(k, slots[1..], None)
  }

  function ItemSends(items: seq<Item>, v: Value): seq<Sent> {
    if items == [] then [] else [Sent(v, items[0].code, items[0].sub)] + ItemSends(items[1..], Succ(v))
  }

  function VecsSends(vecs: seq<Vec>): seq<Sent> {
    if vecs == [] then [] else ItemSends(vecs[0].items, vecs[0].first) + VecsSends(vecs[1..])
  }

  /** Two values that let the same attributes ride. */
  predicate SameDue(a: Value, b: Value) {
    a == b || (a.Listener? && b.Listener? && a.t.streamId == b.t.streamId)
  }

  lemma SameDueRides(a: Value, b: Value, v: Value)
    requires SameDue(a, b)
    ensures Rides(a, v) == Rides(b, v) && Wire(a) == Wire(b) && SameDue(Succ(a), Succ(b))
  {}

  lemma RidesSame(a: Value, v: Value)
    requires Rides(a, v)
    ensures SameDue(a, v) && Wire(v) == Wire(a) && KindOf(v) == KindOf(a)
  {}

  lemma WireSucc(v: Value)
    ensures Wire(Succ(v)) == Succ(Wire(v))
  {}

  lemma {:induction false} RunIsCarried(k: Kind, slots: seq<Slot>, expected: Value, due: Value)
    requires KindOf(expected) == k && SameDue(expected, due)
    ensures var n := Riders(slots, expected);
      Items(slots[..n]).Some? ==>
        CarriedSends(k, slots, Some(due))
        == ItemSends(Items(slots[..n]).value, Wire(expected)) + CarriedSends(k, slots[n..], None)
    decreases |slots|
  {
    hide Succ, Wire, WireSub, CodeOf, KindOf, Items, ItemSends, CarriedSends, Rides, SameDue;
    var n := Riders(slots, expected);
    if slots != [] {
      SameDueRides(expected, due, slots[0].value);
    }
    if n == 0 {
      NothingRides(k, slots, expected, due);
    } else {
      var v := slots[0].value;
      RidesSame(expected, v);
      SameDueRides(expected, v, v);
      SuccKind(expected);
      RunIsCarried(k, slots[1..], Succ(expected), Succ(v));
      assert slots[1..][n - 1..] == slots[n..];
      if Items(slots[..n]).Some? {
        ItemsHead(slots, n - 1);
        var tail := Items(slots[1..][..n - 1]).value;
        RiderCarried(k, slots, due);
        RiderSends(slots[0], expected, tail);
        Associate([Sent(Wire(v), CodeOf(slots[0]), WireSub(slots[0]))], ItemSends(tail, Wire(Succ(expected))),
                  CarriedSends(k, slots[n..], None));
      }
    }
  }

  lemma NothingRides(k: Kind, slots: seq<Slot>, expected: Value, due: Value)
    requires Riders(slots, expected) == 0
    requires slots != [] ==> (Rides(expected, slots[0].value) <==> Rides(due, slots[0].value))
    ensures Items(slots[..0]) == Some([]) && ItemSends([], Wire(expected)) == []
    ensures CarriedSends(k, slots, Some(due)) == [] + CarriedSends(k, slots[0..], None)
  {
    hide Succ, Wire, WireSub, CodeOf, KindOf, Rides;
    assert slots[0..] == slots;
  }

  /** Riding behind one that is carried. */
  lemma RiderCarried(k: Kind, slots: seq<Slot>, due: Value)
    requires slots != [] && KindOf(slots[0].value) == k && slots[0].tx && Rides(due, slots[0].value)
    ensures CarriedSends(k, slots, Some(due)) ==
      [Sent(Wire(slots[0].value), CodeOf(slots[0]), WireSub(slots[0]))]
      + CarriedSends(k, slots[1..], Some(Succ(slots[0].value)))
  {
    hide Succ, Wire, WireSub, CodeOf, KindOf, Rides;
  }

  lemma RiderSends(s: Slot, expected: Value, tail: seq<Item>)
    requires s.code.Some? && Wire(s.value) == Wire(expected)
    ensures ItemSends([Item(s.code.value, WireSub(s))] + tail, Wire(expected)) ==
      [Sent(Wire(s.value), CodeOf(s), WireSub(s))] + ItemSends(tail, Wire(Succ(expected)))
  {
    hide Succ, Wire, WireSub;
    WireSucc(expected);
    assert ([Item(s.code.value, WireSub(s))] + tail)[1..] == tail;
  }

  lemma {:induction false} ItemsHead(slots: seq<Slot>, m: nat)
    requires m < |slots|
    ensures var all, tail := Items(slots[..m + 1]), Items(slots[1..][..m]);
      all.Some? ==>
        && slots[0].code.Some? && tail.Some?
        && all.value == [Item(slots[0].code.value, WireSub(slots[0]))] + tail.value
  {
    assert slots[..m + 1][1..] == slots[1..][..m];
    assert slots[..m + 1][0] == slots[0];
  }

  lemma {:induction false} FirstVectorIsCarried(k: Kind, slots: seq<Slot>, n: nat, items: seq<Item>)
    requires slots != [] && KindOf(slots[0].value) == k && slots[0].tx && !slots[0].optional
    requires n == 1 + Riders(slots[1..], Succ(slots[0].value)) && Items(slots[..n]) == Some(items)
    ensures CarriedSends(k, slots, None) == ItemSends(items, Wire(slots[0].value)) + CarriedSends(k, slots[n..], None)
  {
    hide Succ, Riders, Items, Wire, WireSub, CodeOf, KindOf, CarriedSends, ItemSends, SameDue;
    var v, rest := slots[0].value, slots[1..];
    SuccKind(v);
    ItemsHead(slots, n - 1);
    DueIsDue(Succ(v));
    RunIsCarried(k, rest, Succ(v), Succ(v));
    var tail := Items(rest[..n - 1]).value;
    assert rest[n - 1..] == slots[n..];
    FirstCarried(k, slots);
    RiderSends(slots[0], v, tail);
    Associate([Sent(Wire(v), CodeOf(slots[0]), WireSub(slots[0]))], ItemSends(tail, Wire(Succ(v))),
              CarriedSends(k, slots[n..], None));
  }

  lemma DueIsDue(v: Value)
    ensures SameDue(v, v)
  {}

  lemma FirstCarried(k: Kind, slots: seq<Slot>)
    requires slots != [] && KindOf(slots[0].value) == k && slots[0].tx && !slots[0].optional
    ensures CarriedSends(k, slots, None) ==
      [Sent(Wire(slots[0].value), CodeOf(slots[0]), WireSub(slots[0]))]
      + CarriedSends(k, slots[1..], Some(Succ(slots[0].value)))
  {
    hide Succ, Wire, WireSub, CodeOf, KindOf;
  }

  /** Emission's vectors hold exactly what is carried of what it looked at, in list order. */
  lemma {:induction false} VectorsAreCarried(k: Kind, slots: seq<Slot>, lva: bool, ptr: nat, at: nat, cap: nat)
    ensures var plan := Vectors(k, slots, lva, ptr, at, cap);
      plan.Plan? ==> CarriedSends(k, slots, None) == VecsSends(plan.vecs) + CarriedSends(k, plan.left, None)
    decreases |slots|
  {
    hide Vectors, Riders, Items, Wire, Succ, MinVector, VecSize, KindOf, CarriedSends, ItemSends, VecsSends, Room;
    if slots == [] || ptr + MinVector(k) + ENDMARK_SIZE >= cap {
      VectorsStop(k, slots, lva, ptr, at, cap);
      NoSends(CarriedSends(k, slots, None));
    } else if KindOf(slots[0].value) != k || !slots[0].tx || slots[0].optional {
      VectorsSkip(k, slots, lva, ptr, at, cap);
      NotCarried(k, slots);
      VectorsAreCarried(k, slots[1..], lva, ptr, at, cap);
    } else {
      var n := 1 + Riders(slots[1..], Succ(slots[0].value));
      var end := at + VecSize(k, n);
      VectorsTake(k, slots, lva, ptr, at, cap, n);
      if Vectors(k, slots, lva, ptr, at, cap).Plan? {
        var items, rest := Items(slots[..n]).value, Vectors(k, slots[n..], false, end, end, cap);
        FirstVectorIsCarried(k, slots, n, items);
        VectorsAreCarried(k, slots[n..], false, end, end, cap);
        SendsCons(Vec(lva, Wire(slots[0].value), items), rest.vecs, CarriedSends(k, rest.left, None));
      }
    }
  }

  lemma NoSends(left: seq<Sent>)
    ensures VecsSends([]) + left == left
  {}

  lemma NotCarried(k: Kind, slots: seq<Slot>)
    requires slots != [] && (KindOf(slots[0].value) != k || !slots[0].tx || slots[0].optional)
    ensures CarriedSends(k, slots, None) == CarriedSends(k, slots[1..], None)
  {
    hide Succ, Wire, WireSub, CodeOf, KindOf;
  }

  lemma SendsCons(v: Vec, rest: seq<Vec>, left: seq<Sent>)
    ensures ItemSends(v.items, v.first) + (VecsSends(rest) + left) == VecsSends([v] + rest) + left
  {
    hide ItemSends;
    assert ([v] + rest)[1..] == rest;
    Associate(ItemSends(v.items, v.first), VecsSends(rest), left);
  }

  /* ---------- what is heard of it ---------- */

  /** A listener's Ignore is not heard. */
  function HearSends(sends: seq<Sent>): seq<Action> {
    if sends == [] then [] else HearSend(sends[0]) + HearSends(sends[1..])
  }

  function HearSend(s: Sent): seq<Action> {
    if s.value.Listener? && s.sub == 0 then [] else [Hear(s.value, s.code, s.sub)]
  }

  lemma {:induction false} HearSendsConcat(a: seq<Sent>, b: seq<Sent>)
    ensures HearSends(a + b) == HearSends(a) + HearSends(b)
  {
    hide HearSend;
    if a == [] {
      assert a + b == b;
    } else {
      HearSendsConcat(a[1..], b);
      assert (a + b)[1..] == a[1..] + b && (a + b)[0] == a[0];
      Associate(HearSend(a[0]), HearSends(a[1..]), HearSends(b));
    }
  }

  lemma {:induction false} HeardItemsAreSends(items: seq<Item>, v: Value)
    ensures HeardItems(items, v) == HearSends(ItemSends(items, v))
  {
    if items != [] {
      HeardItemsAreSends(items[1..], Succ(v));
      assert ItemSends(items, v)[1..] == ItemSends(items[1..], Succ(v));
    }
  }

  lemma NothingFirst(a: seq<Action>)
    ensures [] + a == a
  {}

  lemma {:induction false} HeardPlain(k: Kind, vecs: seq<Vec>, saw: set<Kind>)
    requires NoLva(vecs)
    ensures Heard(k, vecs, saw) == HearSends(VecsSends(vecs))
  {
    if vecs != [] {
      assert !vecs[0].lva && NoLva(vecs[1..]);
      HeardPlain(k, vecs[1..], saw);
      HeardItemsAreSends(vecs[0].items, vecs[0].first);
      NothingFirst(HeardItems(vecs[0].items, vecs[0].first));
      HearSendsConcat(ItemSends(vecs[0].items, vecs[0].first), VecsSends(vecs[1..]));
    }
  }

  function LeaveAllFirst(k: Kind, lva: bool): seq<Action> {
    if lva then [HearLeaveAll(k)] else []
  }

  lemma {:induction false} HeardMessageIsSends(k: Kind, vecs: seq<Vec>, lva: bool)
    requires Shaped(k, vecs, lva)
    ensures HeardMessage(k, vecs, lva) == LeaveAllFirst(k, lva) + HearSends(VecsSends(vecs))
  {
    hide Emittable, HearSend, HeardItems, ItemSends, NoLva;
    if vecs != [] {
      var head := ItemSends(vecs[0].items, vecs[0].first);
      HeardPlain(k, vecs[1..], SawOne(k, lva, {}));
      HeardItemsAreSends(vecs[0].items, vecs[0].first);
      HearSendsConcat(head, VecsSends(vecs[1..]));
      Associate(LeaveAllFirst(k, lva), HearSends(head), HearSends(VecsSends(vecs[1..])));
    }
  }

  /* ---------- the round trip ---------- */

  /** What each emitter put on the wire. */
  function SentBy(k: Kind, slots: seq<Slot>, lva: bool, cap: nat): seq<Sent> {
    match EmitPlan(k, slots, lva, cap)
    case Oops => []
    case Plan(vecs, _) => VecsSends(vecs)
  }

  function MessageBy(k: Kind, slots: seq<Slot>, lva: bool, cap: nat): seq<byte> {
    match EmitPlan(k, slots, lva, cap)
    case Oops => []
    case Plan(vecs, _) => Message(k, vecs, lva)
  }

  /** What the receiver of the messages of `kinds` hears, kind by kind. */
  function HeardKinds(kinds: seq<Kind>, slots: seq<Slot>, lva: bool, at: nat): seq<Action> {
    if kinds == [] || at > CAPACITY then []
    else
      LeaveAllFirst(kinds[0], lva) + HearSends(SentBy(kinds[0], slots, lva, CAPACITY - at))
      + HeardKinds(kinds[1..], slots, lva, at + |MessageBy(kinds[0], slots, lva, CAPACITY - at)|)
  }

  /** One emitter's message, if it wrote one, is heard as what it put on the wire. */
  lemma EmittedDecodes(f: seq<byte>, p: nat, k: Kind, slots: seq<Slot>, lva: bool, cap: nat, saw: set<Kind>)
    requires cap <= CAPACITY && EmitPlan(k, slots, lva, cap).Plan? && k !in saw
    requires MessageBy(k, slots, lva, cap) != [] && Holds(f, p, MessageBy(k, slots, lva, cap))
    ensures var body := Body(k, EmitPlan(k, slots, lva, cap).vecs, lva);
            var d := DecodeVectors(f, p + 4, k, saw);
      && MessageBy(k, slots, lva, cap) == MessageOf(k, body) && AttribLen(k) + 1 <= |body| < 0x8000
      && d.ok && d.ptr == p + 4 + |body| && d.saw <= saw + {k}
      && d.actions == LeaveAllFirst(k, lva) + HearSends(SentBy(k, slots, lva, cap))
  {
    var vecs := EmitPlan(k, slots, lva, cap).vecs;
    var body := Body(k, vecs, lva);
    VectorsShape(k, Flagged(k, slots), lva, 0, 4, cap);
    VectorsSize(k, Flagged(k, slots), lva, 0, 4, cap);
    MessageLayout(f, p, k, body);
    BodyDecodes(f, p + 4, k, vecs, lva, saw);
    HeardMessageIsSends(k, vecs, lva);
  }

  /** An emitter that wrote nothing has nothing to be heard. */
  lemma SilentEmitter(k: Kind, slots: seq<Slot>, lva: bool, cap: nat)
    requires EmitPlan(k, slots, lva, cap).Plan? && MessageBy(k, slots, lva, cap) == []
    ensures LeaveAllFirst(k, lva) + HearSends(SentBy(k, slots, lva, cap)) == []
  {}

  ghost predicate Fresh(kinds: seq<Kind>, saw: set<Kind>) {
    && (forall k | k in kinds :: k !in saw)
    && (forall i, j | 0 <= i < j < |kinds| :: kinds[i] != kinds[j])
  }

  lemma FreshTail(kinds: seq<Kind>, saw: set<Kind>, saw': set<Kind>)
    requires Fresh(kinds, saw) && kinds != [] && saw' <= saw + {kinds[0]}
    ensures Fresh(kinds[1..], saw') && kinds[0] !in saw
  {}

  lemma MessagesUnfold(kinds: seq<Kind>, slots: seq<Slot>, lva: bool, at: nat)
    requires kinds != [] && Messages(kinds, slots, lva, at).Some?
    ensures at <= CAPACITY && EmitPlan(kinds[0], slots, lva, CAPACITY - at).Plan?
    ensures var m := MessageBy(kinds[0], slots, lva, CAPACITY - at);
      && Messages(kinds[1..], slots, lva, at + |m|).Some?
      && Messages(kinds, slots, lva, at).value == m + Messages(kinds[1..], slots, lva, at + |m|).value
  {
    hide EmitPlan, Message;
  }

  lemma {:induction false} MessagesDecode(f: seq<byte>, p: nat, e: nat, kinds: seq<Kind>, slots: seq<Slot>, lva: bool,
                                          at: nat, saw: set<Kind>)
    requires Messages(kinds, slots, lva, at).Some?
    requires Holds(f, p, Messages(kinds, slots, lva, at).value)
    requires |f| == p + |Messages(kinds, slots, lva, at).value| + 2
    requires Fresh(kinds, saw)
    ensures var d := DecodeMessages(f, p, e, saw); d.ok && d.actions == HeardKinds(kinds, slots, lva, at)
    decreases |kinds|
  {
    hide DecodeMessages, DecodeVectors, SentBy, EmitPlan, MessageBy, HearSends, Messages, LeaveAllFirst, MessageOf,
         Body;
    if kinds == [] {
      EmptyMessages(slots, lva, at);
      EmptyDecodes(f, p, e, saw);
    } else {
      var k, cap := kinds[0], CAPACITY - at;
      MessagesUnfold(kinds, slots, lva, at);
      var m := MessageBy(k, slots, lva, cap);
      var rest := Messages(kinds[1..], slots, lva, at + |m|).value;
      HoldsSplit(f, p, m, rest);
      if m == [] {
        SilentEmitter(k, slots, lva, cap);
        FreshTail(kinds, saw, saw);
        MessagesDecode(f, p, e, kinds[1..], slots, lva, at + |m|, saw);
        NothingFirst(HeardKinds(kinds[1..], slots, lva, at + |m|));
      } else {
        EmittedDecodes(f, p, k, slots, lva, cap, saw);
        var d := DecodeVectors(f, p + 4, k, saw);
        var body := Body(k, EmitPlan(k, slots, lva, cap).vecs, lva);
        MessageDecodes(f, p, e, k, body, saw, d);
        FreshTail(kinds, saw, d.saw);
        MessagesDecode(f, p + |m|, 1, kinds[1..], slots, lva, at + |m|, d.saw);
      }
    }
  }

  lemma EmptyDecodes(f: seq<byte>, p: nat, e: nat, saw: set<Kind>)
    requires |f| == p + 2
    ensures DecodeMessages(f, p, e, saw) == Decoded([], true, p, saw)
  {}

  lemma EmptyMessages(slots: seq<Slot>, lva: bool, at: nat)
    ensures Messages([], slots, lva, at) == Some([])
  {}

  lemma FrameLayout(src: seq<byte>, m: seq<byte>)
    requires |src| == 6 && m != []
    ensures var f := Frame(src, m);
      HeaderOk(f) && |f| == MESSAGE_LIST + |m| + 2 && Holds(f, MESSAGE_LIST, m)
  {
    var f := Frame(src, m);
    assert f[MESSAGE_LIST..MESSAGE_LIST + |m|] == m;
    assert f[12..14] == ETYPE;
    assert f[..6] == MSRP_ADDR;
  }

  /**
  Whatever the list, a PDU that goes out is heard, kind by kind in the order of the emitters, as LeaveAll for that
  kind (if it was flagged) and then exactly what that emitter put on the wire, Ignore excepted; and what it put on
  the wire is, in list order, what is carried of the attributes it looked at.
  */
  lemma RoundTrip(src: seq<byte>, slots: seq<Slot>, lva: bool)
    requires |src| == 6 && TxPdu(src, slots, lva).Some?
    ensures var d := Decode(TxPdu(src, slots, lva).value);
      d.ok && d.actions == HeardKinds(ORDER, slots, lva, 0)
  {
    var m := Messages(ORDER, slots, lva, 0).value;
    FrameLayout(src, m);
    MessagesDecode(Frame(src, m), MESSAGE_LIST, 0, ORDER, slots, lva, 0, {});
  }

  lemma SentIsCarried(k: Kind, slots: seq<Slot>, lva: bool, cap: nat)
    requires EmitPlan(k, slots, lva, cap).Plan?
    ensures CarriedSends(k, Flagged(k, slots), None)
         == SentBy(k, slots, lva, cap) + CarriedSends(k, EmitPlan(k, slots, lva, cap).left, None)
  {
    VectorsAreCarried(k, Flagged(k, slots), lva, 0, 4, cap);
  }

  /* ---------- when everything fits ---------- */

  /** No mandatory message of kind `k` among them. */
  predicate NothingOwed(k: Kind, slots: seq<Slot>) {
    forall s | s in slots :: KindOf(s.value) == k && s.tx ==> s.optional
  }

  lemma {:induction false} NothingOwedCarriesNothing(k: Kind, slots: seq<Slot>)
    requires NothingOwed(k, slots)
    ensures CarriedSends(k, slots, None) == []
  {
    if slots != [] {
      assert slots[0] in slots;
      NothingOwedCarriesNothing(k, slots[1..]);
    }
  }

  /** Every emitter got to everything of its kind that is owed. */
  predicate Complete(kinds: seq<Kind>, slots: seq<Slot>, lva: bool, at: nat) {
    kinds == [] ||
    (&& at <= CAPACITY && EmitPlan(kinds[0], slots, lva, CAPACITY - at).Plan?
     && NothingOwed(kinds[0], EmitPlan(kinds[0], slots, lva, CAPACITY - at).left)
     && Complete(kinds[1..], slots, lva, at + |MessageBy(kinds[0], slots, lva, CAPACITY - at)|))
  }

  /** What the attribute list has to say, kind by kind, by the carrying rule alone. */
  function CarriedKinds(kinds: seq<Kind>, slots: seq<Slot>, lva: bool): seq<Action> {
    if kinds == [] then []
    else
      LeaveAllFirst(kinds[0], lva) + HearSends(CarriedSends(kinds[0], Flagged(kinds[0], slots), None))
      + CarriedKinds(kinds[1..], slots, lva)
  }

  lemma CompleteSends(k: Kind, slots: seq<Slot>, lva: bool, cap: nat)
    requires EmitPlan(k, slots, lva, cap).Plan? && NothingOwed(k, EmitPlan(k, slots, lva, cap).left)
    ensures CarriedSends(k, Flagged(k, slots), None) == SentBy(k, slots, lva, cap)
  {
    SentIsCarried(k, slots, lva, cap);
    NothingOwedCarriesNothing(k, EmitPlan(k, slots, lva, cap).left);
    assert SentBy(k, slots, lva, cap) + [] == SentBy(k, slots, lva, cap);
  }

  lemma {:induction false} CompleteHeard(kinds: seq<Kind>, slots: seq<Slot>, lva: bool, at: nat)
    requires Complete(kinds, slots, lva, at)
    ensures HeardKinds(kinds, slots, lva, at) == CarriedKinds(kinds, slots, lva)
    decreases |kinds|
  {
    hide EmitPlan, SentBy, MessageBy, CarriedSends, HearSends, Flagged;
    if kinds != [] {
      CompleteSends(kinds[0], slots, lva, CAPACITY - at);
      CompleteHeard(kinds[1..], slots, lva, at + |MessageBy(kinds[0], slots, lva, CAPACITY - at)|);
    }
  }

  /** A PDU with room for all that is owed is heard as exactly what the attribute list has to say. */
  lemma RoundTripComplete(src: seq<byte>, slots: seq<Slot>, lva: bool)
    requires |src| == 6 && TxPdu(src, slots, lva).Some? && Complete(ORDER, slots, lva, 0)
    ensures var d := Decode(TxPdu(src, slots, lva).value);
      d.ok && d.actions == CarriedKinds(ORDER, slots, lva)
  {
    RoundTrip(src, slots, lva);
    CompleteHeard(ORDER, slots, lva, 0);
  }

  /* ---------- the decoder on arbitrary frames ---------- */

  /** What may reach msrp_event: a LeaveAll, or one of the six events for a listener that is not to be ignored. */
  ghost predicate Dispatchable(actions: seq<Action>) {
    forall a: Action | a in actions :: a.Hear? ==> a.code < 6 && (a.value.Listener? ==> 0 < a.sub < 4)
  }

  ghost predicate SubStates(subs: seq<nat>) {
    forall i | 0 <= i < |subs| :: subs[i] < 4
  }

  lemma {:induction false} GroupDispatchable(codes: seq<nat>, subs: seq<nat>, v: Value)
    requires |codes| <= |subs| && SubStates(subs)
    ensures Dispatchable(Group(codes, subs, v))
    decreases |codes|
  {
    if codes != [] {
      GroupDispatchable(codes[1..], subs[1..], Succ(v));
    }
  }

  lemma {:induction false} ItemsDispatchable(f: seq<byte>, b: nat, left: nat, subs: seq<nat>, v: Value)
    requires left <= |subs| && SubStates(subs)
    ensures Dispatchable(ItemsAt(f, b, left, subs, v))
    decreases left
  {
    if left > 0 {
      var codes := Unpack3(At(f, b))[..Min3(left)];
      if codes[0] > 5 {
        ItemsDispatchable(f, b + 1, left - Min3(left), subs, v);
      } else {
        GroupDispatchable(codes, subs, v);
        ItemsDispatchable(f, b + 1, left - Min3(left), subs[Min3(left)..], Advance(v, Min3(left)));
      }
    }
  }

  lemma {:induction false} SubsAtSmall(f: seq<byte>, p: nat, n: nat)
    ensures SubStates(SubsAt(f, p, n))
    decreases n
  {
    if n > 0 {
      SubsAtSmall(f, p + 1, n - Min4(n));
      assert At(f, p) / 64 < 4;
    }
  }

  lemma NothingDispatchable()
    ensures Dispatchable([])
  {}

  lemma DispatchableConcat(k: Kind, h: u16, saw: set<Kind>, a: seq<Action>, b: seq<Action>)
    requires Dispatchable(a) && Dispatchable(b)
    ensures Dispatchable(LvaAction(k, h, saw) + a + b) && Dispatchable(LvaAction(k, h, saw) + b)
    ensures Dispatchable(LvaAction(k, h, saw)) && Dispatchable(a + b)
  {}

  lemma VectorDispatchable(f: seq<byte>, p: nat, k: Kind, n: nat)
    ensures Dispatchable(VectorAt(f, p, k, n))
  {
    if k == ListenerKind {
      SubsAtSmall(f, p + 2 + AttribLen(k) + (n + 2) / 3, n);
    }
    ItemsDispatchable(f, p + 2 + AttribLen(k), n, SubStatesAt(f, p, k, n), ValueAt(f, p + 2, k));
  }

  lemma {:induction false} VectorsDispatchable(f: seq<byte>, p: nat, k: Kind, saw: set<Kind>)
    ensures Dispatchable(DecodeVectors(f, p, k, saw).actions)
    decreases if p < |f| then |f| - p else 0
  {
    hide VectorAt, RunsOff, Dispatchable, LvaAction;
    var h := WordAt(f, p);
    var n := NumValues(h);
    NothingDispatchable();
    DispatchableConcat(k, h, saw, [], []);
    if EndMarkAt(f, p) {
      assert DecodeVectors(f, p, k, saw).actions == [];
    } else if n == 0 {
      VectorsDispatchable(f, p + 2 + AttribLen(k), k, Saw(k, h, saw));
      DispatchableConcat(k, h, saw, [], DecodeVectors(f, p + 2 + AttribLen(k), k, Saw(k, h, saw)).actions);
    } else if !RunsOff(f, p, k, n) {
      VectorDispatchable(f, p, k, n);
      VectorsDispatchable(f, p + VecSize(k, n), k, Saw(k, h, saw));
      DispatchableConcat(k, h, saw, VectorAt(f, p, k, n),
                         DecodeVectors(f, p + VecSize(k, n), k, Saw(k, h, saw)).actions);
    }
  }

  lemma {:induction false} MessagesDispatchable(f: seq<byte>, p: nat, endmarks: nat, saw: set<Kind>)
    ensures Dispatchable(DecodeMessages(f, p, endmarks, saw).actions)
    decreases if p < |f| then |f| - p else 0
  {
    hide DecodeVectors, ListLengthOk;
    if p + ENDMARK_SIZE >= |f| {
    } else if EndMarkAt(f, p) {
      if endmarks + 1 < 2 { MessagesDispatchable(f, p + 2, endmarks + 1, saw); }
    } else if KindAt(f, p).Some? {
      var k := KindAt(f, p).value;
      if At(f, p + 1) != AttribLen(k) {
      } else if !ListLengthOk(f, p) {
        MessagesDispatchable(f, SkipMessage(f, p, k), 0, saw);
      } else {
        var v := DecodeVectors(f, p + 4, k, saw);
        VectorsDispatchable(f, p + 4, k, saw);
        if v.ok { MessagesDispatchable(f, v.ptr, 0, v.saw); }
      }
    }
  }

  /** For every frame content the walk ends, and only known events, none of them ignored, reach msrp_event. */
  lemma DecodeDispatchable(f: seq<byte>)
    ensures Dispatchable(Decode(f).actions)
  {
    MessagesDispatchable(f, MESSAGE_LIST, 0, {});
  }
}
