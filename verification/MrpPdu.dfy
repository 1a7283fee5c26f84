/**
The byte-level vocabulary of section 10.8 of IEEE 802.1Q-2011 that MVRP and MSRP share (daemons/mrpd/mrp.h): vector
headers, three and four events a byte, and reading them back from a zero-padded frame buffer.
*/
module MrpPdu {
  import opened Mrp

  const ENDMARK_SIZE: nat := 2
  const LVA_FLAG: nat := 0x2000

  /** An attribute event on the wire: New, JoinIn, In, JoinMt, Mt, Lv. */
  type Code = x: nat | x < 6

  /** A listener sub-state on the wire: Ignore, AskingFailed, Ready, ReadyFailed. */
  type Sub = x: nat | x < 4

  /* ---------- writing ---------- */

  function Word(x: u16): seq<byte> {
    [x / 0x100, x % 0x100]
  }

  /** MRPDU_3PACK_ENCODE. */
  function Encode3(x: int, y: int, z: int): int {
    (x * 6 + y) * 6 + z
  }

  /** Three events a byte; the missing ones of the last byte are sent as zero. */
  function Pack3(codes: seq<Code>): (bytes: seq<byte>)
    ensures |bytes| == (|codes| + 2) / 3
  {
    if codes == [] then []
    else if |codes| == 1 then [Encode3(codes[0], 0, 0)]
    else if |codes| == 2 then [Encode3(codes[0], codes[1], 0)]
    else [Encode3(codes[0], codes[1], codes[2])] + Pack3(codes[3..])
  }

  /** MRPDU_4PACK_ENCODE. */
  function Encode4(w: int, x: int, y: int, z: int): int {
    w * 64 + x * 16 + y * 4 + z
  }

  function SubAt(subs: seq<Sub>, i: nat): Sub {
    if i < |subs| then subs[i] else 0
  }

  /** Four listener sub-states a byte, again padded with zeroes. */
  function Pack4(subs: seq<Sub>): (bytes: seq<byte>)
    ensures |bytes| == (|subs| + 3) / 4
    decreases |subs|
  {
    if subs == [] then []
    else
      [Encode4(subs[0], SubAt(subs, 1), SubAt(subs, 2), SubAt(subs, 3))] + Pack4(if |subs| > 4 then subs[4..] else [])
  }

  function Header(lva: bool, n: nat): u16 {
    n % LVA_FLAG + if lva then LVA_FLAG else 0
  }

  /* ---------- reading ---------- */

  /** The frame buffer is zeroed before it is filled, so bytes past the end read as zero. */
  function At(f: seq<byte>, i: nat): byte {
    if i < |f| then f[i] else 0
  }

  function WordAt(f: seq<byte>, i: nat): u16 {
    At(f, i) * 0x100 + At(f, i + 1)
  }

  function Unpack3(b: byte): seq<nat> {
    [b / 36, b % 36 / 6, b % 6]
  }

  function Unpack4(b: byte): seq<nat> {
    [b / 64, b / 16 % 4, b / 4 % 4, b % 4]
  }

  function Min4(n: nat): nat {
    if n > 4 then 4 else n
  }

  /** The `n` four-packed sub-states from offset `p`. */
  function SubsAt(f: seq<byte>, p: nat, n: nat): (subs: seq<nat>)
    ensures |subs| == n
    decreases n
  {
    if n == 0 then [] else Unpack4(At(f, p))[..Min4(n)] + SubsAt(f, p + 1, n - Min4(n))
  }

  function Min3(n: nat): nat {
    if n > 3 then 3 else n
  }

  /** The `n` three-packed events from offset `p`. */
  function CodesAt(f: seq<byte>, p: nat, n: nat): (codes: seq<nat>)
    ensures |codes| == n
    decreases n
  {
    if n == 0 then [] else Unpack3(At(f, p))[..Min3(n)] + CodesAt(f, p + 1, n - Min3(n))
  }

  predicate EndMarkAt(f: seq<byte>, p: nat) {
    At(f, p) == 0 && At(f, p + 1) == 0
  }

  predicate IsLva(header: u16) {
    header / LVA_FLAG == 1
  }

  function NumValues(header: u16): nat {
    header % LVA_FLAG
  }

  /* ---------- reading what was written ---------- */

  ghost predicate Holds(f: seq<byte>, p: nat, bytes: seq<byte>) {
    p + |bytes| <= |f| && f[p..p + |bytes|] == bytes
  }

  lemma HoldsSplit(f: seq<byte>, p: nat, a: seq<byte>, b: seq<byte>)
    requires Holds(f, p, a + b)
    ensures Holds(f, p, a) && Holds(f, p + |a|, b)
  {
    assert f[p..p + |a|] == (a + b)[..|a|];
    assert f[p + |a|..p + |a| + |b|] == (a + b)[|a|..];
  }

  lemma Associate<X>(a: seq<X>, b: seq<X>, c: seq<X>)
    ensures a + (b + c) == a + b + c
  {}

  lemma HoldsFirst(f: seq<byte>, p: nat, a: seq<byte>, b: seq<byte>, c: seq<byte>)
    requires Holds(f, p, a + b + c)
    ensures Holds(f, p, a) && Holds(f, p + |a|, b + c) && p + |a| + |b| + |c| <= |f|
  {
    Associate(a, b, c);
    HoldsSplit(f, p, a, b + c);
  }

  lemma HoldsAt(f: seq<byte>, p: nat, bytes: seq<byte>, k: nat)
    requires Holds(f, p, bytes)
    requires k < |bytes|
    ensures At(f, p + k) == bytes[k]
  {
    assert f[p..p + |bytes|][k] == f[p + k];
  }

  lemma HoldsWord(f: seq<byte>, p: nat, x: u16)
    requires Holds(f, p, Word(x))
    ensures WordAt(f, p) == x
  {
    HoldsAt(f, p, Word(x), 0);
    HoldsAt(f, p, Word(x), 1);
  }

  lemma DivMod36(q: nat, r: nat)
    requires r < 36
    ensures (36 * q + r) / 36 == q && (36 * q + r) % 36 == r
  {}

  lemma DivMod6(q: nat, r: nat)
    requires r < 6
    ensures (6 * q + r) / 6 == q && (6 * q + r) % 6 == r
  {}

  lemma UnpackEncode(x: Code, y: Code, z: Code)
    ensures 0 <= Encode3(x, y, z) < 216
    ensures Unpack3(Encode3(x, y, z)) == [x, y, z]
  {
    DivMod36(x, 6 * y + z);
    DivMod6(y, z);
    DivMod6(6 * x + y, z);
  }

  /** The three-packed event bytes decode to the events packed. */
  lemma {:induction false} UnpackPack(f: seq<byte>, p: nat, codes: seq<Code>)
    requires Holds(f, p, Pack3(codes))
    ensures CodesAt(f, p, |codes|) == codes
    decreases |codes|
  {
    if codes != [] {
      var z := if |codes| > 2 then codes[2] else 0;
      var y := if |codes| > 1 then codes[1] else 0;
      UnpackEncode(codes[0], y, z);
      HoldsAt(f, p, Pack3(codes), 0);
      assert At(f, p) == Encode3(codes[0], y, z);
      if |codes| > 3 {
        HoldsSplit(f, p, [Encode3(codes[0], codes[1], codes[2])], Pack3(codes[3..]));
        UnpackPack(f, p + 1, codes[3..]);
        assert codes == [codes[0], codes[1], codes[2]] + codes[3..];
      }
    }
  }

  lemma DivMod4(q: nat, r: nat)
    requires r < 4
    ensures (4 * q + r) / 4 == q && (4 * q + r) % 4 == r
  {}

  lemma DivTwice(b: nat)
    ensures b / 16 == b / 4 / 4 && b / 64 == b / 4 / 4 / 4
  {}

  lemma UnpackEncode4(w: Sub, x: Sub, y: Sub, z: Sub)
    ensures 0 <= Encode4(w, x, y, z) < 0x100
    ensures Unpack4(Encode4(w, x, y, z)) == [w, x, y, z]
  {
    var b := Encode4(w, x, y, z);
    DivMod4(16 * w + 4 * x + y, z);
    DivMod4(4 * w + x, y);
    DivMod4(w, x);
    DivTwice(b);
  }

  /** The four-packed sub-state bytes decode to the sub-states packed. */
  lemma {:induction false} UnpackPack4(f: seq<byte>, p: nat, subs: seq<Sub>)
    requires Holds(f, p, Pack4(subs))
    ensures SubsAt(f, p, |subs|) == subs
    decreases |subs|
  {
    if subs != [] {
      var b := Encode4(subs[0], SubAt(subs, 1), SubAt(subs, 2), SubAt(subs, 3));
      UnpackEncode4(subs[0], SubAt(subs, 1), SubAt(subs, 2), SubAt(subs, 3));
      HoldsAt(f, p, Pack4(subs), 0);
      assert At(f, p) == b;
      if |subs| > 4 {
        HoldsSplit(f, p, [b], Pack4(subs[4..]));
        UnpackPack4(f, p + 1, subs[4..]);
        assert subs == [subs[0], subs[1], subs[2], subs[3]] + subs[4..];
      }
    }
  }

  lemma HeaderRoundTrip(lva: bool, n: nat)
    requires 0 < n < LVA_FLAG
    ensures NumValues(Header(lva, n)) == n && IsLva(Header(lva, n)) == lva
    ensures Header(lva, n) != 0
  {}
}
