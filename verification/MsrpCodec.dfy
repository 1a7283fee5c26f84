/**
The MSRP PDU codec of daemons/mrpd/msrp.c on values: the four message types with their first values, the vectors each
emitter builds from the attribute list, the bytes it writes, and what msrp_recv_msg makes of an arbitrary frame.
*/
module MsrpCodec {
  import opened Mrp
  import opened MrpPdu
  import opened ByteCounter

  const MAX_FRAME_SIZE: nat := 2000
  const ETH_HEADER_SIZE: nat := 14
  const MESSAGE_LIST: nat := 15
  const MSRP_ADDR: seq<byte> := [0x01, 0x80, 0xC2, 0x00, 0x00, 0x0E]
  const ETYPE: seq<byte> := [0x22, 0xEA]

  type Eui64 = s: seq<byte> | |s| == 8 witness [0, 0, 0, 0, 0, 0, 0, 0]
  type Eui48 = s: seq<byte> | |s| == 6 witness [0, 0, 0, 0, 0, 0]

  const ZERO64: Eui64 := [0, 0, 0, 0, 0, 0, 0, 0]
  const ZERO48: Eui48 := [0, 0, 0, 0, 0, 0]

  /** msrpdu_talker_fail_t, the record talkers and listeners share. */
  datatype TalkListen = TalkListen(
    streamId: Eui64, dest: Eui48, vlan: u16, maxFrame: u16, maxInterval: u16, prio: byte, latency: u32,
    bridge: Eui64, failure: byte)

  datatype DomainInfo = DomainInfo(classId: byte, prio: byte, neighbour: byte, vid: u16)

  datatype Kind = AdvKind | FailedKind | ListenerKind | DomainKind

  /** An attribute's type together with its value. */
  datatype Value =
    TalkerAdv(t: TalkListen) | TalkerFailed(t: TalkListen) | Listener(t: TalkListen) | Domain(d: DomainInfo)

  function KindOf(v: Value): Kind {
    match v
    case TalkerAdv(_) => AdvKind
    case TalkerFailed(_) => FailedKind
    case Listener(_) => ListenerKind
    case Domain(_) => DomainKind
  }

  function TypeByte(k: Kind): byte {
    match k
    case AdvKind => 1
    case FailedKind => 2
    case ListenerKind => 3
    case DomainKind => 4
  }

  /** AttributeLength, which is the size of a first value. */
  function AttribLen(k: Kind): (n: byte)
    ensures n >= 4
  {
    match k
    case AdvKind => 25
    case FailedKind => 34
    case ListenerKind => 8
    case DomainKind => 4
  }

  /* ---------- consecutive values ---------- */

  function NextStream(s: Eui64): Eui64 {
    Increment(s, |s| - 1)
  }

  function NextMac(s: Eui48): Eui48 {
    Increment(s, |s| - 1)
  }

  /** The value a vector's next event is about. */
  function Succ(v: Value): Value {
    match v
    case TalkerAdv(t) => TalkerAdv(t.(streamId := NextStream(t.streamId), dest := NextMac(t.dest)))
    case TalkerFailed(t) => TalkerFailed(t.(streamId := NextStream(t.streamId), dest := NextMac(t.dest)))
    case Listener(t) => Listener(t.(streamId := NextStream(t.streamId)))
    case Domain(d) =>
      Domain(d.(classId := (d.classId + 1) % 0x100, prio := (d.prio + 1) % 0x100, neighbour := (d.prio + 1) % 0x100))
  }

  lemma SuccKind(v: Value)
    ensures KindOf(Succ(v)) == KindOf(v)
  {}

  /**
  The emitter lets `v` ride where `expected` is due: talkers are compared over the whole record (vectorize_talker),
  listeners by StreamID only, domains never ride.
  */
  predicate Rides(expected: Value, v: Value) {
    match expected
    case TalkerAdv(_) => v == expected
    case TalkerFailed(_) => v == expected
    case Listener(t) => v.Listener? && v.t.streamId == t.streamId
    case Domain(_) => false
  }

  /** What of a value is on the wire; a receiver's record is zero elsewhere. */
  function Wire(v: Value): Value {
    match v
    case TalkerAdv(t) => TalkerAdv(t.(bridge := ZERO64, failure := 0))
    case TalkerFailed(t) => v
    case Listener(t) => Listener(TalkListen(t.streamId, ZERO48, 0, 0, 0, 0, 0, ZERO64, 0))
    case Domain(d) => Domain(d.(neighbour := d.prio))
  }

  /* ---------- from attributes to vectors ---------- */

  /** What emission reads of one attribute. */
  datatype Slot = Slot(value: Value, sub: Sub, tx: bool, optional: bool, code: Option<Code>)

  /** One event of a vector; sub-states go out for listeners only. */
  datatype Item = Item(code: Code, sub: Sub)

  /** `first` is the first value as far as it goes on the wire. */
  datatype Vec = Vec(lva: bool, first: Value, items: seq<Item>)

  function Riders(slots: seq<Slot>, expected: Value): (n: nat)
    ensures n <= |slots|
  {
    if slots != [] && slots[0].tx && Rides(expected, slots[0].value)
    then 1 + Riders(slots[1..], Succ(expected))
    else 0
  }

  function WireSub(s: Slot): Sub {
    if s.value.Listener? then s.sub else 0
  }

  function Items(slots: seq<Slot>): (items: Option<seq<Item>>)
    ensures items.Some? ==> |items.value| == |slots|
  {
    if slots == [] then Some([])
    else
      match (slots[0].code, Items(slots[1..]))
      case (Some(c), Some(rest)) => Some([Item(c, WireSub(slots[0]))] + rest)
      case _ => None
  }

  /** Event bytes of `n` values. */
  function EventBytes(k: Kind, n: nat): nat {
    (n + 2) / 3 + if k == ListenerKind then (n + 3) / 4 else 0
  }

  function VecSize(k: Kind, n: nat): nat {
    2 + AttribLen(k) + EventBytes(k, n)
  }

  /** vector_size of the emitters; the domain emitter's is smaller than its smallest vector. */
  function MinVector(k: Kind): nat {
    match k
    case AdvKind => 28
    case FailedKind => 37
    case ListenerKind => 13
    case DomainKind => 5
  }

  /** The emitter's room test for a vector that ends at `end`: a full last four-pack wants one byte more. */
  predicate Room(k: Kind, n: nat, end: nat, cap: nat) {
    end + ENDMARK_SIZE <= cap && (k == ListenerKind && n % 4 == 0 ==> end + 3 <= cap)
  }

  datatype Plan = Oops | Plan(vecs: seq<Vec>, left: seq<Slot>)

  /** The vectors of one message of kind `k`, as in the four emitters; `ptr` is the cursor the loop tests. */
  function Vectors(k: Kind, slots: seq<Slot>, lva: bool, ptr: nat, at: nat, cap: nat): Plan
    decreases |slots|
  {
    if slots == [] || ptr + MinVector(k) + ENDMARK_SIZE >= cap then Plan([], slots)
    else if KindOf(slots[0].value) != k || !slots[0].tx || slots[0].optional
    then Vectors(k, slots[1..], lva, ptr, at, cap)
    else
      var n := 1 + Riders(slots[1..], Succ(slots[0].value));
      var items := Items(slots[..n]);
      var end := at + VecSize(k, n);
      if items.None? || !Room(k, n, end, cap) then Oops
      else
        var rest := Vectors(k, slots[n..], false, end, end, cap);
        if rest.Oops? then Oops else Plan([Vec(lva, Wire(slots[0].value), items.value)] + rest.vecs, rest.left)
  }

  /** The listener emitter flags every listener first. */
  function Flagged(k: Kind, slots: seq<Slot>): (r: seq<Slot>)
    ensures |r| == |slots|
  {
    if k != ListenerKind then slots
    else
      seq(|slots|, i requires 0 <= i < |slots| =>
        if slots[i].value.Listener? then slots[i].(tx := true) else slots[i])
  }

  /** One emitter, with `cap` bytes to the end of the frame buffer; too little room for any vector is a failure. */
  function EmitPlan(k: Kind, slots: seq<Slot>, lva: bool, cap: nat): Plan {
    if cap < MinVector(k) then Oops else Vectors(k, Flagged(k, slots), lva, 0, 4, cap)
  }

  /* ---------- one turn of an emitter's loop ---------- */

  lemma VectorsStop(k: Kind, slots: seq<Slot>, lva: bool, ptr: nat, at: nat, cap: nat)
    requires slots == [] || ptr + MinVector(k) + ENDMARK_SIZE >= cap
    ensures Vectors(k, slots, lva, ptr, at, cap) == Plan([], slots)
  {
    hide MinVector;
  }

  lemma VectorsSkip(k: Kind, slots: seq<Slot>, lva: bool, ptr: nat, at: nat, cap: nat)
    requires slots != [] && ptr + MinVector(k) + ENDMARK_SIZE < cap
    requires KindOf(slots[0].value) != k || !slots[0].tx || slots[0].optional
    ensures Vectors(k, slots, lva, ptr, at, cap) == Vectors(k, slots[1..], lva, ptr, at, cap)
  {
    hide Riders, Items, Wire, Succ, MinVector, KindOf;
  }

  lemma VectorsTake(k: Kind, slots: seq<Slot>, lva: bool, ptr: nat, at: nat, cap: nat, n: nat)
    requires slots != [] && ptr + MinVector(k) + ENDMARK_SIZE < cap
    requires KindOf(slots[0].value) == k && slots[0].tx && !slots[0].optional
    requires n == 1 + Riders(slots[1..], Succ(slots[0].value))
    ensures var items := Items(slots[..n]);
            var end := at + VecSize(k, n);
            var rest := Vectors(k, slots[n..], false, end, end, cap);
      Vectors(k, slots, lva, ptr, at, cap) ==
      if items.None? || !Room(k, n, end, cap) || rest.Oops? then Oops
      else Plan([Vec(lva, Wire(slots[0].value), items.value)] + rest.vecs, rest.left)
  {
    hide Riders, Items, Wire, Succ, MinVector, VecSize, KindOf, Room;
  }

  /* ---------- from vectors to bytes ---------- */

  function DWord(x: u32): seq<byte> {
    Word(x / 0x1_0000) + Word(x % 0x1_0000)
  }

  function TalkerBytes(t: TalkListen): (b: seq<byte>)
    ensures |b| == 25
  {
    t.streamId + t.dest + Word(t.vlan) + Word(t.maxFrame) + Word(t.maxInterval) + [t.prio] + DWord(t.latency)
  }

  function FirstValue(v: Value): (b: seq<byte>)
    ensures |b| == AttribLen(KindOf(v))
  {
    match v
    case TalkerAdv(t) => TalkerBytes(t)
    case TalkerFailed(t) => TalkerBytes(t) + (t.bridge + [t.failure])
    case Listener(t) => t.streamId
    case Domain(d) => [d.classId, d.prio] + Word(d.vid)
  }

  function CodesOf(items: seq<Item>): (codes: seq<Code>)
    ensures |codes| == |items|
    ensures forall i | 0 <= i < |items| :: codes[i] == items[i].code
  {
    seq(|items|, i requires 0 <= i < |items| => items[i].code)
  }

  function SubsOf(items: seq<Item>): (subs: seq<Sub>)
    ensures |subs| == |items|
    ensures forall i | 0 <= i < |items| :: subs[i] == items[i].sub
  {
    seq(|items|, i requires 0 <= i < |items| => items[i].sub)
  }

  function EventsBytes(v: Vec): (b: seq<byte>)
    ensures |b| == EventBytes(KindOf(v.first), |v.items|)
  {
    Pack3(CodesOf(v.items)) + if v.first.Listener? then Pack4(SubsOf(v.items)) else []
  }

  function VecBytes(v: Vec): (b: seq<byte>)
    ensures |b| == VecSize(KindOf(v.first), |v.items|)
  {
    Word(Header(v.lva, |v.items|)) + FirstValue(v.first) + EventsBytes(v)
  }

  function VecsBytes(vecs: seq<Vec>): seq<byte> {
    if vecs == [] then [] else VecBytes(vecs[0]) + VecsBytes(vecs[1..])
  }

  function Zeroes(n: nat): (z: seq<byte>)
    ensures |z| == n
  {
    seq(n, _ => 0)
  }

  /** `empty` sends the bare LeaveAll vector. */
  function Body(k: Kind, vecs: seq<Vec>, empty: bool): seq<byte> {
    if vecs == [] && empty then Word(LVA_FLAG) + Zeroes(AttribLen(k)) else VecsBytes(vecs)
  }

  /** Message header with the list length (end mark included), vectors, end mark. */
  function MessageOf(k: Kind, body: seq<byte>): (m: seq<byte>)
    ensures |m| == |body| + 6
  {
    [TypeByte(k), AttribLen(k)] + Word((|body| + ENDMARK_SIZE) % 0x1_0000) + body + [0, 0]
  }

  /** The bytes one emitter writes when it returns 0. */
  function Message(k: Kind, vecs: seq<Vec>, empty: bool): seq<byte> {
    if vecs == [] && !empty then [] else MessageOf(k, Body(k, vecs, empty))
  }

  const CAPACITY: nat := MAX_FRAME_SIZE - MESSAGE_LIST

  /** The emitters in the order msrp_txpdu calls them. */
  const ORDER: seq<Kind> := [AdvKind, FailedKind, ListenerKind, DomainKind]

  /** The messages of the emitters `kinds` from offset `at` of the message list on; None where msrp_txpdu gives up. */
  function Messages(kinds: seq<Kind>, slots: seq<Slot>, lva: bool, at: nat): Option<seq<byte>> {
    if kinds == [] then Some([])
    else if at > CAPACITY || (kinds[0] == ListenerKind && at + ENDMARK_SIZE >= CAPACITY) then None
    else
      match EmitPlan(kinds[0], slots, lva, CAPACITY - at)
      case Oops => None
      case Plan(vecs, _) =>
        var m := Message(kinds[0], vecs, lva);
        match Messages(kinds[1..], slots, lva, at + |m|)
        case None => None
        case Some(rest) => Some(m + rest)
  }

  function EthHeader(src: seq<byte>): seq<byte> {
    MSRP_ADDR + src + ETYPE
  }

  function Frame(src: seq<byte>, messages: seq<byte>): seq<byte> {
    EthHeader(src) + [0] + messages + [0, 0]
  }

  /** msrp_txpdu. */
  function TxPdu(src: seq<byte>, slots: seq<Slot>, lva: bool): Option<seq<byte>> {
    match Messages(ORDER, slots, lva, 0)
    case None => None
    case Some(m) => if m == [] || |m| + ENDMARK_SIZE >= CAPACITY then None else Some(Frame(src, m))
  }

  /* ---------- from bytes to events ---------- */

  datatype Action = HearLeaveAll(kind: Kind) | Hear(value: Value, code: nat, sub: nat)

  function BytesAt(f: seq<byte>, p: nat, n: nat): (b: seq<byte>)
    ensures |b| == n
  {
    seq<byte>(n, i requires 0 <= i < n => At(f, p + i))
  }

  function DWordAt(f: seq<byte>, p: nat): u32 {
    WordAt(f, p) * 0x1_0000 + WordAt(f, p + 2)
  }

  function TalkListenAt(f: seq<byte>, p: nat, failed: bool): TalkListen {
    TalkListen(BytesAt(f, p, 8), BytesAt(f, p + 8, 6), WordAt(f, p + 14), WordAt(f, p + 16), WordAt(f, p + 18),
               At(f, p + 20), DWordAt(f, p + 21),
               if failed then BytesAt(f, p + 25, 8) else ZERO64, if failed then At(f, p + 33) else 0)
  }

  /** The first value of the vector whose first-value field starts at `p`. */
  function ValueAt(f: seq<byte>, p: nat, k: Kind): (v: Value)
    ensures KindOf(v) == k
  {
    match k
    case AdvKind => TalkerAdv(TalkListenAt(f, p, false))
    case FailedKind => TalkerFailed(TalkListenAt(f, p, true))
    case ListenerKind => Listener(TalkListen(BytesAt(f, p, 8), ZERO48, 0, 0, 0, 0, 0, ZERO64, 0))
    case DomainKind => Domain(DomainInfo(At(f, p), At(f, p + 1), At(f, p + 1), WordAt(f, p + 2)))
  }

  /** Events for consecutive values from `v`; a listener's Ignore is passed over, unknown codes are dropped. */
  function Group(codes: seq<nat>, subs: seq<nat>, v: Value): seq<Action>
    requires |codes| <= |subs|
    decreases |codes|
  {
    if codes == [] then []
    else
      (if (v.Listener? && subs[0] == 0) || codes[0] > 5 then [] else [Hear(v, codes[0], subs[0])])
      + Group(codes[1..], subs[1..], Succ(v))
  }

  function Advance(v: Value, n: nat): Value
    decreases n
  {
    if n == 0 then v else Advance(Succ(v), n - 1)
  }

  lemma {:induction false} AdvanceLast(v: Value, d: nat)
    ensures Advance(v, d + 1) == Succ(Advance(v, d))
    decreases d
  {
    hide Succ;
    if d > 0 {
      AdvanceLast(Succ(v), d - 1);
    }
  }

  /** The three-packed events from byte `b` on; a byte whose first event is out of range is discarded whole. */
  function ItemsAt(f: seq<byte>, b: nat, left: nat, subs: seq<nat>, v: Value): seq<Action>
    requires left <= |subs|
    decreases left
  {
    if left == 0 then []
    else
      var codes := Unpack3(At(f, b))[..Min3(left)];
      if codes[0] > 5 then ItemsAt(f, b + 1, left - Min3(left), subs, v)
      else
        Group(codes, subs, v)
        + ItemsAt(f, b + 1, left - Min3(left), subs[Min3(left)..], Advance(v, Min3(left)))
  }

  /** `ok` is false where the source jumps to `out`. `saw` are the kinds whose LeaveAll was heard. */
  datatype Decoded = Decoded(actions: seq<Action>, ok: bool, ptr: nat, saw: set<Kind>)

  function LvaAction(k: Kind, header: u16, saw: set<Kind>): seq<Action> {
    if IsLva(header) && k !in saw then [HearLeaveAll(k)] else []
  }

  function Saw(k: Kind, header: u16, saw: set<Kind>): set<Kind> {
    if IsLva(header) then saw + {k} else saw
  }

  /** The source's two tests for a vector that does not fit in the PDU. */
  predicate RunsOff(f: seq<byte>, p: nat, k: Kind, n: nat) {
    if k == ListenerKind
    then p + 2 + n / 3 + n / 4 >= |f| || p + VecSize(k, n) >= |f|
    else p + 2 + n / 3 >= |f|
  }

  function SubStatesAt(f: seq<byte>, p: nat, k: Kind, n: nat): (subs: seq<nat>)
    ensures |subs| == n
  {
    if k == ListenerKind then SubsAt(f, p + 2 + AttribLen(k) + (n + 2) / 3, n) else seq(n, _ => 0)
  }

  function VectorAt(f: seq<byte>, p: nat, k: Kind, n: nat): seq<Action> {
    ItemsAt(f, p + 2 + AttribLen(k), n, SubStatesAt(f, p, k, n), ValueAt(f, p + 2, k))
  }

  function DecodeVectors(f: seq<byte>, p: nat, k: Kind, saw: set<Kind>): (d: Decoded)
    ensures d.ok ==> d.ptr >= p && EndMarkAt(f, d.ptr)
    decreases if p < |f| then |f| - p else 0
  {
    if EndMarkAt(f, p) then Decoded([], true, p, saw)
    else
      var h := WordAt(f, p);
      var n := NumValues(h);
      var lva := LvaAction(k, h, saw);
      if n == 0 then
        var rest := DecodeVectors(f, p + 2 + AttribLen(k), k, Saw(k, h, saw));
        rest.(actions := lva + rest.actions)
      else if RunsOff(f, p, k, n) then Decoded(lva, false, p, Saw(k, h, saw))
      else
        var rest := DecodeVectors(f, p + VecSize(k, n), k, Saw(k, h, saw));
        rest.(actions := lva + VectorAt(f, p, k, n) + rest.actions)
  }

  function KindAt(f: seq<byte>, p: nat): Option<Kind> {
    match At(f, p)
    case 1 => Some(AdvKind)
    case 2 => Some(FailedKind)
    case 3 => Some(ListenerKind)
    case 4 => Some(DomainKind)
    case _ => None
  }

  /** msrp_recv_msg_check_attrib_list_len for the message at `p`. */
  predicate ListLengthOk(f: seq<byte>, p: nat) {
    var len := WordAt(f, p + 2);
    len >= At(f, p + 1) + 3 && p + 2 + len < |f| && EndMarkAt(f, p + 2 + len)
  }

  /** Cursor after a message whose list length is not believable. */
  function SkipMessage(f: seq<byte>, p: nat, k: Kind): nat {
    p + 4 + 2 + AttribLen(k) + EventBytes(k, NumValues(WordAt(f, p + 4)))
  }

  function DecodeMessages(f: seq<byte>, p: nat, endmarks: nat, saw: set<Kind>): (d: Decoded)
    decreases if p < |f| then |f| - p else 0
  {
    if p + ENDMARK_SIZE >= |f| then Decoded([], true, p, saw)
    else if EndMarkAt(f, p) then
      if endmarks + 1 < 2 then DecodeMessages(f, p + 2, endmarks + 1, saw) else Decoded([], true, p + 2, saw)
    else
      match KindAt(f, p)
      case None => Decoded([], false, p, saw)
      case Some(k) =>
        if At(f, p + 1) != AttribLen(k) then Decoded([], false, p, saw)
        else if !ListLengthOk(f, p) then DecodeMessages(f, SkipMessage(f, p, k), 0, saw)
        else
          var v := DecodeVectors(f, p + 4, k, saw);
          if !v.ok then v
          else
            var rest := DecodeMessages(f, v.ptr, 0, v.saw);
            rest.(actions := v.actions + rest.actions)
  }

  predicate HeaderOk(f: seq<byte>) {
    |f| >= ETH_HEADER_SIZE + 1 + 2 && f[12..14] == ETYPE && f[..6] == MSRP_ADDR
  }

  /** msrp_recv_msg: the events it dispatches, in order. */
  function Decode(f: seq<byte>): Decoded {
    if HeaderOk(f) then DecodeMessages(f, MESSAGE_LIST, 0, {}) else Decoded([], false, 0, {})
  }
}
