/** Byte strings as numbers in network order. */
module BigEndian {
  import opened Mrp

  /** The low `n` bytes of `v`, most significant first. */
  function Digits(v: nat, n: nat): (b: seq<byte>)
    ensures |b| == n
    decreases n
  {
    if n == 0 then [] else Digits(v / 0x100, n - 1) + [v % 0x100]
  }

  /** The number the bytes spell out, most significant first. */
  function Number(b: seq<byte>): (v: nat) {
    if b == [] then 0 else Number(b[..|b| - 1]) * 0x100 + b[|b| - 1]
  }

  function Power(n: nat): (m: nat)
    ensures m > 0
  {
    if n == 0 then 1 else 0x100 * Power(n - 1)
  }

  lemma {:induction false} ReadWritten(v: nat, n: nat)
    requires v < Power(n)
    ensures Number(Digits(v, n)) == v
    decreases n
  {
    if n > 0 {
      ReadWritten(v / 0x100, n - 1);
      assert Digits(v, n)[..n - 1] == Digits(v / 0x100, n - 1);
    }
  }

  lemma {:induction false} WrittenRead(b: seq<byte>)
    ensures Number(b) < Power(|b|) && Digits(Number(b), |b|) == b
  {
    if b != [] {
      var high, low := Number(b[..|b| - 1]), b[|b| - 1];
      WrittenRead(b[..|b| - 1]);
      assert (high * 0x100 + low) / 0x100 == high && (high * 0x100 + low) % 0x100 == low;
      assert b == b[..|b| - 1] + [low];
    }
  }
}
