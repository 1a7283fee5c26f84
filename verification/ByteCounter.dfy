/**
The big-endian counters with which vectors number consecutive values: msrp_increment_streamid and
mmrp_increment_macaddr. Both carry towards the front but never into the first byte.
*/
module ByteCounter {
  import opened Mrp
  import opened BigEndian

  /** Add one at position `i`, carrying down to position 1. */
  function Increment(s: seq<byte>, i: nat): (r: seq<byte>)
    requires i < |s|
    ensures |r| == |s|
    decreases i
  {
    if i == 0 then s
    else if s[i] != 255 then s[i := s[i] + 1]
    else Increment(s[i := 0], i - 1)
  }

  /** The number that positions 1..k+1 spell out: the first byte is never counted. */
  function Counted(s: seq<byte>, k: nat): (n: nat)
    requires k < |s|
  {
    Number(s[1..k + 1])
  }

  lemma CountedLast(s: seq<byte>, k: nat)
    requires 0 < k < |s|
    ensures Counted(s, k) == Counted(s, k - 1) * 0x100 + s[k]
  {
    assert s[1..k + 1][..k - 1] == s[1..k] && s[1..k + 1][k - 1] == s[k];
  }

  /** Positions outside 1..k are left alone. */
  lemma {:induction false} IncrementFrame(s: seq<byte>, k: nat, j: nat)
    requires k < |s| && j < |s| && (j == 0 || j > k)
    ensures Increment(s, k)[j] == s[j]
    decreases k
  {
    if k > 0 && s[k] == 255 {
      IncrementFrame(s[k := 0], k - 1, j);
    }
  }

  /** The counter counts: one more, modulo what its bytes can hold. */
  lemma {:induction false} IncrementCounts(s: seq<byte>, k: nat)
    requires k < |s|
    ensures Counted(Increment(s, k), k) == (if Counted(s, k) + 1 == Power(k) then 0 else Counted(s, k) + 1)
    decreases k
  {
    hide Number;
    WrittenRead(s[1..k + 1]);
    if k == 0 {
      assert s[1..1] == [];
    } else {
      WrittenRead(s[1..k]);
      CountedLast(s, k);
      CountedLast(Increment(s, k), k);
      if s[k] != 255 {
        assert s[k := s[k] + 1][1..k] == s[1..k];
      } else {
        var t := s[k := 0];
        assert t[1..k] == s[1..k];
        IncrementFrame(t, k - 1, k);
        IncrementCounts(t, k - 1);
      }
    }
  }

  /** The loop of both functions, in place on the byte array. */
  method IncrementInPlace(a: array<byte>)
    requires a.Length > 0
    modifies a
    ensures a[..] == Increment(old(a[..]), a.Length - 1)
  {
    var i := a.Length - 1;
    ghost var s := a[..];
    while i > 0
      invariant 0 <= i < a.Length
      invariant Increment(a[..], i) == Increment(s, a.Length - 1)
    {
      if a[i] != 255 {
        ghost var t := a[..];
        a[i] := a[i] + 1;
        assert a[..] == t[i := t[i] + 1];
        return;
      }
      ghost var t := a[..];
      a[i] := 0;
      assert a[..] == t[i := 0];
      i := i - 1;
    }
  }
}
