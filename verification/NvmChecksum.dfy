/**
The multi-region NVM checksum of kmod/igb/e1000_82575.c. The NVM is an array of words; an access past its end is the
read or write error that the source passes on.
*/
module NvmChecksum {
  import opened Mrp

  const NVM_SUM: u16 := 0xBABA
  const CHECKSUM_REG: nat := 0x3F
  const COMPATIBILITY_REG_3: nat := 3
  const COMPATIBILITY_BIT: nat := 0x8000

  /** NVM_82580_LAN_FUNC_OFFSET. */
  function Offset(j: nat): nat {
    if j == 0 then 0 else 0x40 + 0x40 * j
  }

  /** The 16-bit sum of words lo..hi. */
  function Sum(s: seq<u16>, lo: nat, hi: nat): (c: u16)
    requires lo <= hi <= |s|
    decreases hi
  {
    if lo == hi then 0 else (Sum(s, lo, hi - 1) + s[hi - 1]) % 0x1_0000
  }

  lemma {:induction false} SumFrame(s: seq<u16>, t: seq<u16>, lo: nat, hi: nat)
    requires lo <= hi <= |s| && |s| == |t| && forall i | lo <= i < hi :: s[i] == t[i]
    ensures Sum(s, lo, hi) == Sum(t, lo, hi)
    decreases hi
  {
    if lo < hi {
      SumFrame(s, t, lo, hi - 1);
    }
  }

  /** The region at `offset` is there and sums to 0xBABA. */
  predicate RegionOk(s: seq<u16>, offset: nat) {
    offset + CHECKSUM_REG < |s| && Sum(s, offset, offset + CHECKSUM_REG + 1) == NVM_SUM
  }

  lemma RegionFrame(s: seq<u16>, t: seq<u16>, offset: nat)
    requires RegionOk(s, offset) && |s| == |t|
    requires forall i | offset <= i <= offset + CHECKSUM_REG :: s[i] == t[i]
    ensures RegionOk(t, offset)
  {
    SumFrame(s, t, offset, offset + CHECKSUM_REG + 1);
  }

  /** The running sum of e1000_validate and e1000_update; None where a read fails. */
  method Add(nvm: array<u16>, offset: nat, end: nat) returns (checksum: Option<u16>)
    requires offset < end
    ensures checksum == if end <= nvm.Length then Some(Sum(nvm[..], offset, end)) else None
  {
    var i, sum: u16 := offset, 0;
    var ok := true;
    while i < end
      invariant offset <= i <= end && ok && (i > offset ==> i <= nvm.Length)
      invariant i == offset ==> sum == 0
      invariant i > offset ==> sum == Sum(nvm[..], offset, i)
    {
      if i >= nvm.Length {
        ok := false;
        break;
      }
      sum := (sum + nvm[i]) % 0x1_0000;
      i := i + 1;
    }
    checksum := if ok then Some(sum) else None;
  }

  /** e1000_validate_nvm_checksum_with_offset. */
  method ValidateRegion(nvm: array<u16>, offset: nat) returns (ok: bool)
    ensures ok <==> RegionOk(nvm[..], offset)
  {
    var sum := Add(nvm, offset, offset + CHECKSUM_REG + 1);
    ok := sum == Some(NVM_SUM);
  }

  /** e1000_update_nvm_checksum_with_offset: the region is valid afterwards, and only its checksum word changed. */
  method UpdateRegion(nvm: array<u16>, offset: nat) returns (ok: bool)
    modifies nvm
    ensures ok <==> offset + CHECKSUM_REG < nvm.Length
    ensures ok ==> RegionOk(nvm[..], offset)
    ensures forall i | 0 <= i < nvm.Length && i != offset + CHECKSUM_REG :: nvm[i] == old(nvm[i])
  {
    var sum := Add(nvm, offset, offset + CHECKSUM_REG);
    ok := sum.Some? && offset + CHECKSUM_REG < nvm.Length;
    if ok {
      ghost var s := nvm[..];
      nvm[offset + CHECKSUM_REG] := (NVM_SUM - sum.value) % 0x1_0000;
      SumFrame(s, nvm[..], offset, offset + CHECKSUM_REG);
    }
  }

  ghost predicate FirstRegionsOk(s: seq<u16>, n: nat) {
    forall j: nat | j < n :: RegionOk(s, Offset(j))
  }

  /** The regions do not overlap, so that a checksum word lies in no other region. */
  lemma RegionsApart(i: nat, j: nat)
    requires i != j
    ensures Offset(i) + CHECKSUM_REG < Offset(j) || Offset(j) + CHECKSUM_REG < Offset(i)
  {}

  /** e1000_update_nvm_checksum_i350, and the loop of the 82580 update. */
  method UpdateRegions(nvm: array<u16>) returns (ok: bool)
    modifies nvm
    ensures ok <==> Offset(3) + CHECKSUM_REG < nvm.Length
    ensures ok ==> FirstRegionsOk(nvm[..], 4)
    ensures forall i | 0 <= i < nvm.Length ::
      nvm[i] != old(nvm[i]) ==> exists j: nat | j < 4 :: i == Offset(j) + CHECKSUM_REG
  {
    ok := true;
    var j := 0;
    while j < 4 && ok
      invariant 0 <= j <= 4 && (ok ==> FirstRegionsOk(nvm[..], j))
      invariant ok ==> j > 0 ==> Offset(j - 1) + CHECKSUM_REG < nvm.Length
      invariant !ok ==> Offset(j) + CHECKSUM_REG >= nvm.Length && j < 4
      invariant forall i | 0 <= i < nvm.Length ::
        nvm[i] != old(nvm[i]) ==> exists m: nat | m < 4 :: i == Offset(m) + CHECKSUM_REG
      decreases 4 - j, ok
    {
      ghost var s := nvm[..];
      ok := UpdateRegion(nvm, Offset(j));
      if ok {
        forall m: nat | m < j ensures RegionOk(nvm[..], Offset(m)) {
          RegionsApart(m, j);
          RegionFrame(s, nvm[..], Offset(m));
        }
        j := j + 1;
      }
    }
  }

  /** The loop of both validations, over the first `n` regions. */
  method ValidateRegions(nvm: array<u16>, n: nat) returns (ok: bool)
    ensures ok <==> FirstRegionsOk(nvm[..], n)
  {
    ok := true;
    var j := 0;
    while j < n && ok
      invariant 0 <= j <= n && (ok <==> FirstRegionsOk(nvm[..], j))
      decreases n - j, ok
    {
      ok := ValidateRegion(nvm, Offset(j));
      j := j + 1;
    }
  }

  predicate AllRegions(word: u16) {
    word / COMPATIBILITY_BIT % 2 == 1
  }

  /** e1000_update_nvm_checksum_82580: sets the compatibility bit, then updates all regions. */
  method Update82580(nvm: array<u16>) returns (ok: bool)
    modifies nvm
    ensures ok <==> Offset(3) + CHECKSUM_REG < nvm.Length
    ensures ok ==> FirstRegionsOk(nvm[..], 4) && AllRegions(nvm[COMPATIBILITY_REG_3])
  {
    ok := COMPATIBILITY_REG_3 < nvm.Length;
    if ok {
      if !AllRegions(nvm[COMPATIBILITY_REG_3]) {
        nvm[COMPATIBILITY_REG_3] := nvm[COMPATIBILITY_REG_3] + COMPATIBILITY_BIT;
      }
      ghost var word := nvm[COMPATIBILITY_REG_3];
      ok := UpdateRegions(nvm);
      assert nvm[COMPATIBILITY_REG_3] == word;
    }
  }

  /** e1000_validate_nvm_checksum_82580: one region, or all four where the compatibility bit is set. */
  method Validate82580(nvm: array<u16>) returns (ok: bool)
    ensures ok <==> COMPATIBILITY_REG_3 < nvm.Length
                    && FirstRegionsOk(nvm[..], if AllRegions(nvm[COMPATIBILITY_REG_3]) then 4 else 1)
  {
    ok := COMPATIBILITY_REG_3 < nvm.Length;
    if ok {
      ok := ValidateRegions(nvm, if AllRegions(nvm[COMPATIBILITY_REG_3]) then 4 else 1);
    }
  }

  /** Whatever the NVM held: an update that succeeds is followed by a validation that succeeds, on both chips. */
  method UpdateThenValidate(nvm: array<u16>, i350: bool) returns (updated: bool, valid: bool)
    modifies nvm
    ensures updated ==> valid
    ensures updated <==> Offset(3) + CHECKSUM_REG < nvm.Length
  {
    if i350 {
      updated := UpdateRegions(nvm);
      valid := ValidateRegions(nvm, 4);
    } else {
      updated := Update82580(nvm);
      valid := Validate82580(nvm);
    }
  }
}
