/**
The MVRP PDU codec of daemons/mrpd/mvrp.c on values: which vectors mvrp_emit_vidvectors builds from the attribute
list, the bytes it writes for them, and what mvrp_recv_msg makes of an arbitrary frame. The byte-by-byte loops that
compute these functions are in MvrpEmit and MvrpReceive.
*/
module MvrpCodec {
  import opened Mrp
  import opened MrpPdu

  const MAX_FRAME_SIZE: nat := 2000
  const ETH_HEADER_SIZE: nat := 14
  /** Offset of the message list: the Ethernet header and the one-byte ProtocolVersion. */
  const MESSAGE_LIST: nat := 15
  /** Room for messages in a frame that mvrp_txpdu builds. */
  const CAPACITY: nat := MAX_FRAME_SIZE - MESSAGE_LIST
  const VECTOR_SIZE: nat := 6
  const VID_TYPE: byte := 1
  const MAX_VID: nat := 0xFFF
  const BRIDGE_ADDR: seq<byte> := [0x01, 0x80, 0xC2, 0x00, 0x00, 0x21]
  const ETYPE: seq<byte> := [0x88, 0xF5]

  /** What emission reads of one attribute. `code` is None where the source says "huh?" and gives up. */
  datatype Slot = Slot(vid: u16, tx: bool, optional: bool, code: Option<Code>)

  datatype Vec = Vec(lva: bool, first: u16, codes: seq<Code>)

  type Pair = (nat, nat)

  /* ---------- from attributes to vectors ---------- */

  function NextVid(v: u16): u16 {
    if v == 0xFFFF then 0 else v + 1
  }

  /** How many slots ride behind a vector whose next expected VID is `expected`. */
  function Riders(slots: seq<Slot>, expected: u16): (n: nat)
    ensures n <= |slots|
  {
    if slots != [] && slots[0].tx && slots[0].vid == expected
    then 1 + Riders(slots[1..], NextVid(expected))
    else 0
  }

  function Codes(slots: seq<Slot>): (codes: Option<seq<Code>>)
    ensures codes.Some? ==> |codes.value| == |slots|
  {
    if slots == [] then Some([])
    else
      match (slots[0].code, Codes(slots[1..]))
      case (Some(c), Some(rest)) => Some([c] + rest)
      case _ => None
  }

  function VecSize(n: nat): nat {
    4 + (n + 2) / 3
  }

  /** `Oops` is the source's failure exit; `left` is what emission never looked at for want of room. */
  datatype Plan = Oops | Plan(vecs: seq<Vec>, left: seq<Slot>)

  /**
  The vectors of mvrp_emit_vidvectors. `ptr` is the cursor the loop tests, `at` where the next vector goes: they
  differ only before the first vector, which follows the two-byte message header.
  */
  function Vectors(slots: seq<Slot>, lva: bool, ptr: nat, at: nat, cap: nat): Plan
    decreases |slots|
  {
    if slots == [] || ptr + VECTOR_SIZE + ENDMARK_SIZE >= cap then Plan([], slots)
    else if !slots[0].tx || slots[0].optional then Vectors(slots[1..], lva, ptr, at, cap)
    else
      var n := 1 + Riders(slots[1..], NextVid(slots[0].vid));
      var codes := Codes(slots[..n]);
      var end := at + VecSize(n);
      if codes.None? || end + ENDMARK_SIZE > cap then Oops
      else
        var rest := Vectors(slots[n..], false, end, end, cap);
        if rest.Oops? then Oops else Plan([Vec(lva, slots[0].vid, codes.value)] + rest.vecs, rest.left)
  }

  function EmitPlan(slots: seq<Slot>, lva: bool): Plan {
    Vectors(slots, lva, 0, 2, CAPACITY)
  }

  /** No mandatory message among them. */
  predicate NothingOwed(slots: seq<Slot>) {
    forall s | s in slots :: s.tx ==> s.optional
  }

  /* ---------- from vectors to bytes ---------- */

  function VecBytes(v: Vec): (bytes: seq<byte>)
    ensures |bytes| == VecSize(|v.codes|)
  {
    Word(Header(v.lva, |v.codes|)) + Word(v.first) + Pack3(v.codes)
  }

  function VecsBytes(vecs: seq<Vec>): seq<byte> {
    if vecs == [] then [] else VecBytes(vecs[0]) + VecsBytes(vecs[1..])
  }

  /** The body of the one message an MVRP PDU holds; `empty` sends the bare LeaveAll vector. */
  function Body(vecs: seq<Vec>, empty: bool): seq<byte> {
    if vecs == [] && empty then Word(LVA_FLAG) + Word(0) else VecsBytes(vecs)
  }

  /** The bytes mvrp_emit_vidvectors writes when it returns 0: nothing, or message header, vectors and end mark. */
  function Message(vecs: seq<Vec>, empty: bool): seq<byte> {
    if vecs == [] && !empty then [] else [VID_TYPE, 2] + Body(vecs, empty) + [0, 0]
  }

  function EthHeader(src: seq<byte>): seq<byte> {
    BRIDGE_ADDR + src + ETYPE
  }

  function Frame(src: seq<byte>, message: seq<byte>): seq<byte> {
    EthHeader(src) + [0] + message + [0, 0]
  }

  /** mvrp_txpdu: the frame handed to the socket, if any. Source and destination of the copy are `src`. */
  function TxPdu(src: seq<byte>, slots: seq<Slot>, lva: bool): Option<seq<byte>> {
    match EmitPlan(slots, lva)
    case Oops => None
    case Plan(vecs, _) =>
      var message := Message(vecs, lva);
      if message == [] || |message| + ENDMARK_SIZE >= CAPACITY then None else Some(Frame(src, message))
  }

  /** Everything the attributes owe goes out in this one PDU. */
  predicate Fits(slots: seq<Slot>, lva: bool) {
    match EmitPlan(slots, lva)
    case Oops => false
    case Plan(vecs, left) => NothingOwed(left) && |Message(vecs, lva)| + ENDMARK_SIZE < CAPACITY
  }

  /* ---------- from bytes to events ---------- */

  datatype Action = HearLeaveAll | Hear(vid: nat, code: nat)

  /** Events for consecutive VIDs from `vid`; VIDs past 0xFFF are junk and do not advance, codes past Lv are unknown. */
  function Actions(codes: seq<nat>, vid: nat): seq<Action> {
    if codes == [] then []
    else if vid > MAX_VID then Actions(codes[1..], vid)
    else (if codes[0] < 6 then [Hear(vid, codes[0])] else []) + Actions(codes[1..], vid + 1)
  }

  /** `ok` is false where the source jumps to `out`; the events dispatched before that stay dispatched. */
  datatype Decoded = Decoded(actions: seq<Action>, ok: bool, ptr: nat, saw: bool)

  function LvaAction(header: u16, saw: bool): seq<Action> {
    if IsLva(header) && !saw then [HearLeaveAll] else []
  }

  predicate RunsOff(f: seq<byte>, p: nat, n: nat) {
    n == 0 || p + 2 + n / 3 >= |f|
  }

  function DecodeVectors(f: seq<byte>, p: nat, saw: bool): (d: Decoded)
    ensures d.ok ==> d.ptr >= p && EndMarkAt(f, d.ptr)
    decreases if p < |f| then |f| - p else 0
  {
    if EndMarkAt(f, p) then Decoded([], true, p, saw)
    else
      var h := WordAt(f, p);
      var n := NumValues(h);
      var lva := LvaAction(h, saw);
      if RunsOff(f, p, n) then Decoded(lva, false, p, saw || IsLva(h))
      else
        var rest := DecodeVectors(f, p + VecSize(n), saw || IsLva(h));
        rest.(actions := lva + Actions(CodesAt(f, p + 4, n), WordAt(f, p + 2)) + rest.actions)
  }

  /** Cursor after a message of a type this version does not know. */
  function SkipUnknown(f: seq<byte>, p: nat): nat {
    p + 4 + At(f, p + 1) + (NumValues(WordAt(f, p + 2)) + 2) / 3
  }

  function DecodeMessages(f: seq<byte>, p: nat, endmarks: nat, saw: bool): (d: Decoded)
    decreases if p < |f| then |f| - p else 0
  {
    if p + ENDMARK_SIZE >= |f| then Decoded([], true, p, saw)
    else if EndMarkAt(f, p) then
      if endmarks + 1 < 2 then DecodeMessages(f, p + 2, endmarks + 1, saw) else Decoded([], true, p + 2, saw)
    else if At(f, p) == VID_TYPE then
      if At(f, p + 1) != 2 then Decoded([], false, p, saw)
      else
        var v := DecodeVectors(f, p + 2, saw);
        if !v.ok then v
        else
          var rest := DecodeMessages(f, v.ptr, 0, v.saw);
          rest.(actions := v.actions + rest.actions)
    else if At(f, ETH_HEADER_SIZE) == 0 then Decoded([], false, p, saw)
    else DecodeMessages(f, SkipUnknown(f, p), 0, saw)
  }

  predicate HeaderOk(f: seq<byte>) {
    |f| >= ETH_HEADER_SIZE + 1 + 2 && f[12..14] == ETYPE && f[..6] == BRIDGE_ADDR
  }

  /** mvrp_recv_msg: the events it dispatches, in order. */
  function Decode(f: seq<byte>): Decoded {
    if HeaderOk(f) then DecodeMessages(f, MESSAGE_LIST, 0, false) else Decoded([], false, 0, false)
  }
}
