/**
inet_checksum and inet_checksum_sg of examples/simple_talker/simple_talker.c on a little-endian host, against the
one's complement sum of section 1 of RFC 1071.
*/
module Checksum {
  import opened Mrp

  /* ---------- one's complement arithmetic ---------- */

  /** The 16-bit one's complement value of `x`: zero only for zero, else 1..0xFFFF in steps of 0xFFFF. */
  function Canon(x: nat): (c: nat)
    ensures c <= 0xFFFF && (c == 0 <==> x == 0)
  {
    if x <= 0xFFFF then x else Canon(x - 0xFFFF)
  }

  lemma {:induction false} CanonSteps(x: nat, h: nat)
    requires x > 0
    ensures Canon(x + 0xFFFF * h) == Canon(x)
    decreases h
  {
    if h > 0 {
      CanonSteps(x, h - 1);
    }
  }

  lemma {:induction false} CanonIsSteps(x: nat) returns (h: nat)
    ensures x == Canon(x) + 0xFFFF * h
  {
    if x <= 0xFFFF {
      h := 0;
    } else {
      h := CanonIsSteps(x - 0xFFFF);
      h := h + 1;
    }
  }

  /** Equal values stay equal when the same is added. */
  lemma CanonAdds(x: nat, y: nat, z: nat)
    requires Canon(x) == Canon(y)
    ensures Canon(x + z) == Canon(y + z)
  {
    var h := CanonIsSteps(x);
    var k := CanonIsSteps(y);
    var c := Canon(x);
    if c > 0 {
      CanonSteps(c + z, h);
      CanonSteps(c + z, k);
      assert x + z == (c + z) + 0xFFFF * h;
      assert y + z == (c + z) + 0xFFFF * k;
    }
  }

  /** Carries added back in. */
  function Fold(x: nat): nat {
    x % 0x1_0000 + x / 0x1_0000
  }

  lemma FoldKeeps(x: nat)
    ensures Canon(Fold(x)) == Canon(x)
    ensures x >= 0x1_0000 ==> Fold(x) < x
  {
    var h := x / 0x1_0000;
    assert x == Fold(x) + 0xFFFF * h;
    if h > 0 {
      CanonSteps(Fold(x), h);
    }
  }

  /* ---------- the words of a buffer ---------- */

  function LowHigh(low: int, high: int): int {
    low + 0x100 * high
  }

  /** The sum of the little-endian words, a left over byte counting as a low byte. */
  function WordSum(b: seq<byte>): (s: nat) {
    if b == [] then 0
    else if |b| == 1 then b[0]
    else LowHigh(b[0], b[1]) + WordSum(b[2..])
  }

  lemma {:induction false} WordSumConcat(a: seq<byte>, b: seq<byte>)
    requires |a| % 2 == 0
    ensures WordSum(a + b) == WordSum(a) + WordSum(b)
  {
    if a == [] {
      assert a + b == b;
    } else {
      assert (a + b)[2..] == a[2..] + b;
      WordSumConcat(a[2..], b);
    }
  }

  /** The checksum of RFC 1071. */
  function InternetChecksum(b: seq<byte>): (c: u16) {
    0xFFFF - Canon(WordSum(b))
  }

  /* ---------- the flat checksum ---------- */

  /** "if high order bit set, fold" */
  method FoldHigh(sum: u32) returns (r: u32)
    ensures Canon(r) == Canon(sum) && r < 0x8000_0000
    ensures sum < 0x8000_0000 ==> r == sum
  {
    r := sum;
    if sum >= 0x8000_0000 {
      FoldKeeps(sum);
      r := Fold(sum);
    }
  }

  method Finish(total: u32) returns (c: u16)
    ensures c == 0xFFFF - Canon(total)
  {
    var sum: u32 := total;
    while sum / 0x1_0000 != 0
      invariant Canon(sum) == Canon(total)
      decreases sum
    {
      FoldKeeps(sum);
      sum := Fold(sum);
    }
    c := 0xFFFF - sum;
  }

  /** inet_checksum; every addition stays within 32 bits. */
  method Flat(ip: seq<byte>) returns (c: u16)
    ensures c == InternetChecksum(ip)
  {
    var sum: u32 := 0;
    var i := 0;
    while |ip| - i > 1
      invariant 0 <= i <= |ip| && sum < 0x8000_0000
      invariant Canon(sum + WordSum(ip[i..])) == Canon(WordSum(ip))
    {
      var word := LowHigh(ip[i], ip[i + 1]);
      assert ip[i..][2..] == ip[i + 2..];
      ghost var s, rest := sum, WordSum(ip[i + 2..]);
      sum := sum + word;
      sum := FoldHigh(sum);
      CanonAdds(sum, s + word, rest);
      i := i + 2;
    }
    if |ip| - i == 1 {
      sum := sum + ip[i];
    }
    c := Finish(sum);
  }

  /* ---------- scatter/gather ---------- */

  /** Drain one buffer that starts on a word boundary: whole words, then perhaps a residual byte. */
  /** The full words of a buffer. */
  function Even(b: seq<byte>): seq<byte> {
    b[..|b| / 2 * 2]
  }

  function Whole(b: seq<byte>): nat {
    WordSum(Even(b))
  }

  function Odd(b: seq<byte>): Option<byte> {
    if |b| % 2 == 1 then Some(b[|b| - 1]) else None
  }

  /** The bytes the loop effectively sums, with `r` left over from before. An empty buffer ends a word half way. */
  function Spread(bufs: seq<seq<byte>>, r: Option<byte>): seq<byte> {
    if bufs == [] then (if r.Some? then [r.value] else [])
    else
      match r
      case None => bufs[0][..|bufs[0]| / 2 * 2] + Spread(bufs[1..], Odd(bufs[0]))
      case Some(x) =>
        if bufs[0] == [] then [x, 0] + Spread(bufs[1..], None)
        else
          var b := bufs[0][1..];
          [x, bufs[0][0]] + b[..|b| / 2 * 2] + Spread(bufs[1..], Odd(b))
  }

  function Concat(bufs: seq<seq<byte>>): seq<byte> {
    if bufs == [] then [] else bufs[0] + Concat(bufs[1..])
  }

  function ResidualBytes(r: Option<byte>): seq<byte> {
    if r.Some? then [r.value] else []
  }

  /** No buffer that meets a residual byte is empty. */
  predicate Seamless(bufs: seq<seq<byte>>, r: Option<byte>) {
    bufs == [] ||
    (if r.None? then Seamless(bufs[1..], Odd(bufs[0]))
     else bufs[0] != [] && Seamless(bufs[1..], Odd(bufs[0][1..])))
  }

  lemma {:induction false} NonEmptyIsSeamless(bufs: seq<seq<byte>>, r: Option<byte>)
    requires forall i | 0 <= i < |bufs| :: bufs[i] != []
    ensures Seamless(bufs, r)
  {
    if bufs != [] {
      NonEmptyIsSeamless(bufs[1..], if r.None? then Odd(bufs[0]) else Odd(bufs[0][1..]));
    }
  }

  lemma SplitOdd(b: seq<byte>)
    ensures b == b[..|b| / 2 * 2] + ResidualBytes(Odd(b))
  {}

  lemma Regroup(a: seq<byte>, b: seq<byte>, c: seq<byte>)
    ensures a + (b + c) == a + b + c
  {}

  lemma Front(x: byte, b: seq<byte>, rest: seq<byte>)
    requires b != []
    ensures [x, b[0]] + (b[1..] + rest) == [x] + (b + rest)
  {}

  lemma {:induction false} SeamlessSpread(bufs: seq<seq<byte>>, r: Option<byte>)
    requires Seamless(bufs, r)
    ensures Spread(bufs, r) == ResidualBytes(r) + Concat(bufs)
  {
    if bufs == [] {
      assert ResidualBytes(r) + [] == ResidualBytes(r);
    } else {
      var b := if r.None? then bufs[0] else bufs[0][1..];
      var even, odd, rest := b[..|b| / 2 * 2], ResidualBytes(Odd(b)), Concat(bufs[1..]);
      SplitOdd(b);
      SeamlessSpread(bufs[1..], Odd(b));
      Regroup(even, odd, rest);
      if r.None? {
        assert [] + (b + rest) == b + rest;
      } else {
        Regroup([r.value, bufs[0][0]], even, odd + rest);
        Front(r.value, bufs[0], rest);
      }
    }
  }

  /** Every seam puts a byte in that is in none of the buffers. */
  lemma {:induction false} SeamsLengthen(bufs: seq<seq<byte>>, r: Option<byte>)
    ensures |Spread(bufs, r)| >= |ResidualBytes(r)| + |Concat(bufs)|
    ensures !Seamless(bufs, r) ==> |Spread(bufs, r)| > |ResidualBytes(r)| + |Concat(bufs)|
  {
    if bufs != [] {
      var b := if r.None? || bufs[0] == [] then bufs[0] else bufs[0][1..];
      SeamsLengthen(bufs[1..], Odd(b));
    }
  }

  /** The loop sums exactly the bytes of the buffers, in order, if and only if no empty buffer meets a residual byte. */
  lemma SpreadExactly(bufs: seq<seq<byte>>)
    ensures Spread(bufs, None) == Concat(bufs) <==> Seamless(bufs, None)
  {
    assert ResidualBytes(None) + Concat(bufs) == Concat(bufs);
    if Seamless(bufs, None) {
      SeamlessSpread(bufs, None);
    } else {
      SeamsLengthen(bufs, None);
    }
  }

  /* ---------- the loop ---------- */

  /** The words of one buffer, in place: the iovec advances over them. */
  method DrainWords(iov: array<seq<byte>>, i: nat, start: u32) returns (sum: u32)
    requires i < iov.Length && start < 0x8001_0000
    modifies iov
    ensures sum < 0x8001_0000
    ensures Canon(sum) == Canon(start + Whole(old(iov[i])))
    ensures iov[i] == old(iov[i])[|old(iov[i])| / 2 * 2..]
    ensures forall j | 0 <= j < iov.Length && j != i :: iov[j] == old(iov[j])
  {
    sum := start;
    ghost var b, k: nat := iov[i], 0;
    assert b[..0] == [];
    while |iov[i]| > 1
      invariant 2 * k <= |b| && iov[i] == b[2 * k..] && sum < 0x8001_0000
      invariant Canon(sum) == Canon(start + WordSum(b[..2 * k]))
      invariant forall j | 0 <= j < iov.Length && j != i :: iov[j] == old(iov[j])
      decreases |iov[i]|
    {
      ghost var before := WordSum(b[..2 * k]);
      var word := LowHigh(iov[i][0], iov[i][1]);
      WordAppended(b, k);
      ghost var s := sum;
      sum := FoldHigh(sum);
      CanonAdds(sum, start + before, word);
      sum := sum + word;
      iov[i] := iov[i][2..];
      k := k + 1;
    }
  }

  lemma WordAppended(b: seq<byte>, k: nat)
    requires 2 * k + 2 <= |b|
    ensures WordSum(b[..2 * k + 2]) == WordSum(b[..2 * k]) + LowHigh(b[2 * k], b[2 * k + 1])
  {
    var w := [b[2 * k], b[2 * k + 1]];
    assert b[..2 * k + 2] == b[..2 * k] + w;
    WordSumConcat(b[..2 * k], w);
    assert w[2..] == [];
  }

  /** The byte left over from earlier buffers meets buffer `i`. */
  method JoinResidual(iov: array<seq<byte>>, i: nat, residual: byte, start: u32) returns (sum: u32)
    requires i < iov.Length && start < 0x8001_0000
    modifies iov
    ensures sum < 0x8001_0000
    ensures Canon(sum) == Canon(start + LowHigh(residual, if old(iov[i]) == [] then 0 else old(iov[i])[0]))
    ensures iov[i] == if old(iov[i]) == [] then [] else old(iov[i])[1..]
    ensures forall j | 0 <= j < iov.Length && j != i :: iov[j] == old(iov[j])
  {
    sum := FoldHigh(start);
    if |iov[i]| > 0 {
      CanonAdds(sum, start, LowHigh(residual, iov[i][0]));
      sum := sum + LowHigh(residual, iov[i][0]);
      iov[i] := iov[i][1..];
    } else {
      CanonAdds(sum, start, residual);
      sum := sum + residual;
    }
  }

  lemma SpreadStep(bufs: seq<seq<byte>>, r: Option<byte>)
    requires bufs != []
    ensures var b := if r.None? || bufs[0] == [] then bufs[0] else bufs[0][1..];
            var joined := if r.None? then 0 else LowHigh(r.value, if bufs[0] == [] then 0 else bufs[0][0]);
      WordSum(Spread(bufs, r)) == joined + Whole(b) + WordSum(Spread(bufs[1..], Odd(b)))
  {
    var b := if r.None? || bufs[0] == [] then bufs[0] else bufs[0][1..];
    var even, rest := b[..|b| / 2 * 2], Spread(bufs[1..], Odd(b));
    WordSumConcat(even, rest);
    if r.Some? {
      var pair: seq<byte> := [r.value, if bufs[0] == [] then 0 else bufs[0][0]];
      assert pair[2..] == [];
      if bufs[0] == [] {
        assert even == [] && [] + rest == rest;
        WordSumConcat(pair, rest);
      } else {
        assert pair + even + rest == pair + (even + rest);
        WordSumConcat(pair, even + rest);
      }
    }
  }

  lemma SpreadEnd(r: Option<byte>)
    ensures WordSum(Spread([], r)) == if r.Some? then r.value else 0
  {}

  /** One round of the outer loop; `tail` are the buffers still to come. */
  method Gather(iov: array<seq<byte>>, i: nat, residual: Option<byte>, start: u32, ghost tail: seq<seq<byte>>)
    returns (sum: u32, residual': Option<byte>)
    requires i < iov.Length && start < 0x8001_0000
    modifies iov
    ensures sum < 0x8001_0000
    ensures Canon(sum + WordSum(Spread(tail, residual')))
         == Canon(start + WordSum(Spread([old(iov[i])] + tail, residual)))
    ensures forall j | 0 <= j < iov.Length && j != i :: iov[j] == old(iov[j])
  {
    hide Spread, WordSum, Whole, Canon;
    sum := start;
    SpreadStep([iov[i]] + tail, residual);
    assert ([iov[i]] + tail)[1..] == tail;
    ghost var joined := 0;
    if residual.Some? {
      joined := LowHigh(residual.value, if iov[i] == [] then 0 else iov[i][0]);
      sum := JoinResidual(iov, i, residual.value, sum);
    }
    ghost var b, s := iov[i], sum;
    sum := DrainWords(iov, i, sum);
    residual' := if |iov[i]| > 0 then Some(iov[i][0]) else None;
    CanonAdds(s, start + joined, Whole(b));
    CanonAdds(sum, start + joined + Whole(b), WordSum(Spread(tail, Odd(b))));
  }

  /** inet_checksum_sg: the checksum of the bytes it effectively sums; additions stay within 32 bits. */
  method ScatterGather(iov: array<seq<byte>>) returns (c: u16)
    modifies iov
    ensures c == InternetChecksum(Spread(old(iov[..]), None))
  {
    hide Spread, WordSum, Canon;
    ghost var bufs := iov[..];
    var sum: u32 := 0;
    var residual: Option<byte> := None;
    var i := 0;
    assert bufs[0..] == bufs;
    while i < iov.Length
      invariant 0 <= i <= iov.Length && sum < 0x8001_0000
      invariant forall j | i <= j < iov.Length :: iov[j] == bufs[j]
      invariant Canon(sum + WordSum(Spread(bufs[i..], residual))) == Canon(WordSum(Spread(bufs, None)))
    {
      assert bufs[i..] == [bufs[i]] + bufs[i + 1..];
      sum, residual := Gather(iov, i, residual, sum, bufs[i + 1..]);
      i := i + 1;
    }
    assert bufs[iov.Length..] == [];
    SpreadEnd(residual);
    if residual.Some? {
      sum := sum + residual.value;
    }
    c := Finish(sum);
  }

  /** For buffers none of which is empty, scatter/gather and flat checksum agree. */
  lemma SameChecksum(bufs: seq<seq<byte>>)
    requires forall i | 0 <= i < |bufs| :: bufs[i] != []
    ensures InternetChecksum(Spread(bufs, None)) == InternetChecksum(Concat(bufs))
  {
    NonEmptyIsSeamless(bufs, None);
    SeamlessSpread(bufs, None);
    assert ResidualBytes(None) + Concat(bufs) == Concat(bufs);
  }

  /* ---------- exactly when both agree ---------- */

  function Lengths(bufs: seq<seq<byte>>): (lens: seq<nat>)
    ensures |lens| == |bufs|
  {
    seq(|bufs|, i requires 0 <= i < |bufs| => |bufs[i]|)
  }

  predicate AllEmpty(lens: seq<nat>) {
    forall i | 0 <= i < |lens| :: lens[i] == 0
  }

  /**
  Every empty buffer that meets a residual byte has only empty ones behind it; `odd` says whether one is left over.
  */
  predicate Aligned(lens: seq<nat>, odd: bool) {
    lens == [] ||
    (if odd && lens[0] == 0 then AllEmpty(lens)
     else Aligned(lens[1..], (lens[0] % 2 == 1) != odd))
  }

  lemma LengthsTail(bufs: seq<seq<byte>>)
    requires bufs != []
    ensures Lengths(bufs)[0] == |bufs[0]| && Lengths(bufs)[1..] == Lengths(bufs[1..])
  {}

  lemma EmptyTail(lens: seq<nat>)
    requires lens != []
    ensures AllEmpty(lens) <==> lens[0] == 0 && AllEmpty(lens[1..])
  {
    if lens[0] == 0 && AllEmpty(lens[1..]) {
      forall i | 0 <= i < |lens| ensures lens[i] == 0 {
        assert i > 0 ==> lens[i] == lens[1..][i - 1];
      }
    }
  }

  lemma {:induction false} NothingSpread(bufs: seq<seq<byte>>)
    requires AllEmpty(Lengths(bufs))
    ensures Spread(bufs, None) == [] && Concat(bufs) == []
  {
    if bufs != [] {
      LengthsTail(bufs);
      EmptyTail(Lengths(bufs));
      NothingSpread(bufs[1..]);
    }
  }

  lemma WordFirst(x: byte, y: byte, b: seq<byte>)
    ensures WordSum([x, y] + b) == LowHigh(x, y) + WordSum(b)
  {
    assert ([x, y] + b)[2..] == b;
  }

  /** What of a buffer starts on a word boundary. */
  function Rest(r: Option<byte>, b: seq<byte>): seq<byte>
    requires r.Some? ==> b != []
  {
    if r.None? then b else b[1..]
  }

  /** The word that a residual byte and the first byte of the buffer make. */
  function Joint(r: Option<byte>, b: seq<byte>): nat
    requires r.Some? ==> b != []
  {
    if r.None? then 0 else LowHigh(r.value, b[0])
  }

  /** The loop on one buffer that is no seam. */
  lemma SpreadSums(bufs: seq<seq<byte>>, r: Option<byte>)
    requires bufs != [] && (r.Some? ==> bufs[0] != [])
    ensures var b := Rest(r, bufs[0]);
      WordSum(Spread(bufs, r)) == Joint(r, bufs[0]) + Whole(b) + WordSum(Spread(bufs[1..], Odd(b)))
  {
    hide WordSum, Spread, Odd;
    if r.None? {
      SpreadFrom(bufs);
      EvenSums(bufs[0], Spread(bufs[1..], Odd(bufs[0])));
    } else {
      SpreadAfter(bufs, r.value);
      var b := bufs[0][1..];
      var rest := Spread(bufs[1..], Odd(b));
      EvenSums(b, rest);
      WordFirst(r.value, bufs[0][0], Even(b) + rest);
    }
  }

  lemma EvenSums(b: seq<byte>, rest: seq<byte>)
    ensures WordSum(Even(b) + rest) == Whole(b) + WordSum(rest)
  {
    hide WordSum;
    WordSumConcat(Even(b), rest);
  }

  lemma SpreadFrom(bufs: seq<seq<byte>>)
    requires bufs != []
    ensures Spread(bufs, None) == Even(bufs[0]) + Spread(bufs[1..], Odd(bufs[0]))
  {}

  lemma SpreadAfter(bufs: seq<seq<byte>>, x: byte)
    requires bufs != [] && bufs[0] != []
    ensures var b := bufs[0][1..];
      Spread(bufs, Some(x)) == [x, bufs[0][0]] + (Even(b) + Spread(bufs[1..], Odd(b)))
  {
    hide Odd;
    var b := bufs[0][1..];
    Regroup([x, bufs[0][0]], Even(b), Spread(bufs[1..], Odd(b)));
  }

  /** And what the flat checksum makes of the same bytes. */
  lemma ConcatSums(bufs: seq<seq<byte>>, r: Option<byte>)
    requires bufs != [] && (r.Some? ==> bufs[0] != [])
    ensures var b := Rest(r, bufs[0]);
      WordSum(ResidualBytes(r) + Concat(bufs))
      == Joint(r, bufs[0]) + Whole(b) + WordSum(ResidualBytes(Odd(b)) + Concat(bufs[1..]))
  {
    hide WordSum;
    var b, rest := Rest(r, bufs[0]), Concat(bufs[1..]);
    var even, odd := b[..|b| / 2 * 2], ResidualBytes(Odd(b));
    SplitOdd(b);
    Regroup(even, odd, rest);
    WordSumConcat(even, odd + rest);
    if r.Some? {
      Front(r.value, bufs[0], rest);
      WordFirst(r.value, bufs[0][0], b + rest);
    } else {
      assert [] + (b + rest) == b + rest;
    }
  }

  lemma {:induction false} AlignedSum(bufs: seq<seq<byte>>, r: Option<byte>)
    requires Aligned(Lengths(bufs), r.Some?)
    ensures WordSum(Spread(bufs, r)) == WordSum(ResidualBytes(r) + Concat(bufs))
  {
    if bufs == [] {
      assert ResidualBytes(r) + [] == ResidualBytes(r);
    } else {
      LengthsTail(bufs);
      if r.Some? && bufs[0] == [] {
        EmptyTail(Lengths(bufs));
        NothingSpread(bufs[1..]);
        assert [r.value, 0] + [] == [r.value, 0] && ResidualBytes(r) + ([] + []) == [r.value];
        WordFirst(r.value, 0, []);
      } else {
        AlignedRest(bufs, r);
        AlignedSum(bufs[1..], Odd(Rest(r, bufs[0])));
        SpreadSums(bufs, r);
        ConcatSums(bufs, r);
      }
    }
  }

  lemma AlignedRest(bufs: seq<seq<byte>>, r: Option<byte>)
    requires bufs != [] && (r.Some? ==> bufs[0] != []) && Aligned(Lengths(bufs), r.Some?)
    ensures Aligned(Lengths(bufs[1..]), Odd(Rest(r, bufs[0])).Some?)
  {
    LengthsTail(bufs);
  }

  function Zeroes(n: nat): (z: seq<byte>)
    ensures |z| == n
  {
    seq(n, _ => 0)
  }

  function Blank(lens: seq<nat>): (bufs: seq<seq<byte>>)
    ensures |bufs| == |lens| && Lengths(bufs) == lens
  {
    seq(|lens|, i requires 0 <= i < |lens| => Zeroes(lens[i]))
  }

  /** Buffers of these lengths, all zero but for the first byte of the first that is not empty. */
  function Marked(lens: seq<nat>): (bufs: seq<seq<byte>>)
    ensures |bufs| == |lens| && Lengths(bufs) == lens
  {
    if lens == [] then []
    else if lens[0] == 0 then [[]] + Marked(lens[1..])
    else [[1] + Zeroes(lens[0] - 1)] + Blank(lens[1..])
  }

  lemma {:induction false} ZeroSum(n: nat)
    ensures WordSum(Zeroes(n)) == 0
  {
    if n >= 2 {
      assert Zeroes(n)[2..] == Zeroes(n - 2);
      ZeroSum(n - 2);
    }
  }

  lemma BlankTail(lens: seq<nat>)
    requires lens != []
    ensures Blank(lens)[0] == Zeroes(lens[0]) && Blank(lens)[1..] == Blank(lens[1..])
  {}

  lemma {:induction false} BlankConcat(lens: seq<nat>) returns (n: nat)
    ensures Concat(Blank(lens)) == Zeroes(n)
  {
    n := 0;
    if lens != [] {
      BlankTail(lens);
      var m := BlankConcat(lens[1..]);
      n := lens[0] + m;
      assert Zeroes(lens[0]) + Zeroes(m) == Zeroes(n);
    }
  }

  lemma ZeroWhole(n: nat, m: nat)
    requires m <= n
    ensures Whole(Zeroes(n)[m..]) == 0 && Odd(Zeroes(n)[m..]) == Left((n - m) % 2 == 1)
  {
    var b := Zeroes(n)[m..];
    assert b[..|b| / 2 * 2] == Zeroes(|b| / 2 * 2);
    ZeroSum(|b| / 2 * 2);
  }

  /** The byte left over, when it is zero. */
  function Left(odd: bool): Option<byte> {
    if odd then Some(0) else None
  }

  lemma RestOfZeroes(r: Option<byte>, n: nat)
    requires r.Some? ==> n > 0
    ensures var b := Rest(r, Zeroes(n)); Whole(b) == 0 && Odd(b) == Left((n % 2 == 1) != r.Some?)
    ensures Joint(r, Zeroes(n)) == if r.Some? then r.value else 0
  {
    ZeroWhole(n, if r.Some? then 1 else 0);
    assert Zeroes(n)[0..] == Zeroes(n);
  }

  /** Of zero buffers only the residual byte counts. */
  lemma {:induction false} BlankSpread(lens: seq<nat>, r: Option<byte>)
    ensures WordSum(Spread(Blank(lens), r)) == if r.Some? then r.value else 0
  {
    if lens != [] {
      BlankTail(lens);
      if r.Some? && lens[0] == 0 {
        BlankSpread(lens[1..], None);
        WordFirst(r.value, 0, Spread(Blank(lens[1..]), None));
      } else {
        hide Spread, WordSum, Whole, Rest, Joint;
        RestOfZeroes(r, lens[0]);
        BlankSpread(lens[1..], Odd(Rest(r, Zeroes(lens[0]))));
        SpreadSums(Blank(lens), r);
      }
    }
  }

  lemma MarkWhole(n: nat)
    requires n > 0
    ensures var b := [1] + Zeroes(n - 1);
      if n == 1 then Whole(b) == 0 && Odd(b) == Some(1) else Whole(b) == 1 && Odd(b) == Left(n % 2 == 1)
  {
    var b := [1] + Zeroes(n - 1);
    if n > 1 {
      var m := n / 2 * 2 - 2;
      assert b[..n / 2 * 2] == [1, 0] + Zeroes(m);
      WordFirst(1, 0, Zeroes(m));
      ZeroSum(m);
    }
  }

  /** On a word boundary the mark counts as a low byte. */
  lemma {:induction false} MarkedSpread(lens: seq<nat>)
    requires !AllEmpty(lens)
    ensures WordSum(Spread(Marked(lens), None)) == 1
  {
    hide Spread, WordSum, Whole;
    var bufs := Marked(lens);
    EmptyTail(lens);
    SpreadSums(bufs, None);
    if lens[0] == 0 {
      assert bufs[1..] == Marked(lens[1..]);
      MarkedSpread(lens[1..]);
      ZeroWhole(0, 0);
      assert Zeroes(0)[0..] == [];
    } else {
      assert bufs[1..] == Blank(lens[1..]);
      MarkWhole(lens[0]);
      BlankSpread(lens[1..], Odd(bufs[0]));
    }
  }

  lemma {:induction false} MarkedConcat(lens: seq<nat>) returns (n: nat)
    requires !AllEmpty(lens)
    ensures Concat(Marked(lens)) == [1] + Zeroes(n)
  {
    EmptyTail(lens);
    if lens[0] == 0 {
      assert Marked(lens)[1..] == Marked(lens[1..]);
      n := MarkedConcat(lens[1..]);
    } else {
      assert Marked(lens)[1..] == Blank(lens[1..]);
      var m := BlankConcat(lens[1..]);
      n := lens[0] - 1 + m;
      assert [1] + Zeroes(lens[0] - 1) + Zeroes(m) == [1] + Zeroes(n);
    }
  }

  /** A seam with a byte behind it. */
  lemma SeamShifts(lens: seq<nat>) returns (bufs: seq<seq<byte>>)
    requires lens != [] && lens[0] == 0 && !AllEmpty(lens)
    ensures Lengths(bufs) == lens
    ensures WordSum(Spread(bufs, Some(0))) == 1 && WordSum([0] + Concat(bufs)) == 0x100
  {
    EmptyTail(lens);
    var rest := Marked(lens[1..]);
    bufs := [[]] + rest;
    assert bufs[1..] == rest && Lengths(bufs) == lens;
    MarkedSpread(lens[1..]);
    WordFirst(0, 0, Spread(rest, None));
    var n := MarkedConcat(lens[1..]);
    assert [0] + ([] + ([1] + Zeroes(n))) == [0, 1] + Zeroes(n);
    WordFirst(0, 1, Zeroes(n));
    ZeroSum(n);
  }

  /** Where a seam has a byte behind it, contents of these lengths that the two functions sum differently. */
  lemma {:induction false} Misaligned(lens: seq<nat>, odd: bool) returns (bufs: seq<seq<byte>>)
    requires !Aligned(lens, odd)
    ensures Lengths(bufs) == lens
    ensures WordSum(Spread(bufs, Left(odd))) == 1 && WordSum(ResidualBytes(Left(odd)) + Concat(bufs)) == 0x100
  {
    hide Spread, WordSum, Concat;
    if odd && lens[0] == 0 {
      bufs := SeamShifts(lens);
    } else {
      var rest := Misaligned(lens[1..], (lens[0] % 2 == 1) != odd);
      bufs := [Zeroes(lens[0])] + rest;
      assert Lengths(bufs) == lens;
      ZeroesFirst(lens[0], odd, rest);
    }
  }

  lemma ZeroesFirst(n: nat, odd: bool, rest: seq<seq<byte>>)
    requires odd ==> n > 0
    ensures var bufs := [Zeroes(n)] + rest; var odd' := (n % 2 == 1) != odd;
      && WordSum(Spread(bufs, Left(odd))) == WordSum(Spread(rest, Left(odd')))
      && WordSum(ResidualBytes(Left(odd)) + Concat(bufs)) == WordSum(ResidualBytes(Left(odd')) + Concat(rest))
  {
    hide Spread, WordSum, Whole, Rest, Joint, Concat;
    var bufs := [Zeroes(n)] + rest;
    assert bufs[1..] == rest && bufs[0] == Zeroes(n);
    RestOfZeroes(Left(odd), n);
    SpreadSums(bufs, Left(odd));
    ConcatSums(bufs, Left(odd));
  }

  predicate SameSums(bufs: seq<seq<byte>>) {
    InternetChecksum(Spread(bufs, None)) == InternetChecksum(Concat(bufs))
  }

  /**
  Buffers of given lengths have the same checksum scattered and flat, whatever is in them, if and only if every empty
  buffer that meets a residual byte has only empty buffers behind it.
  */
  lemma AgreeExactly(lens: seq<nat>)
    ensures Aligned(lens, false) <==> forall bufs: seq<seq<byte>> | Lengths(bufs) == lens :: SameSums(bufs)
  {
    if Aligned(lens, false) {
      forall bufs: seq<seq<byte>> | Lengths(bufs) == lens ensures SameSums(bufs) {
        AlignedSum(bufs, None);
        assert ResidualBytes(None) + Concat(bufs) == Concat(bufs);
      }
    } else {
      var bufs := Misaligned(lens, false);
      assert ResidualBytes(None) + Concat(bufs) == Concat(bufs);
      assert !SameSums(bufs);
    }
  }

  /* ---------- verification by the receiver ---------- */

  lemma {:induction false} CanonComplement(x: nat)
    ensures Canon(x + (0xFFFF - Canon(x))) == 0xFFFF
  {
    if x > 0xFFFF {
      CanonComplement(x - 0xFFFF);
    }
  }

  lemma {:induction false} StoredSum(b: seq<byte>, p: nat, c: u16)
    requires p % 2 == 0 && p + 2 <= |b| && b[p] == 0 && b[p + 1] == 0
    ensures WordSum(b[p := c % 0x100][p + 1 := c / 0x100]) == WordSum(b) + c
    decreases p
  {
    var t := b[p := c % 0x100][p + 1 := c / 0x100];
    if p == 0 {
      assert t[2..] == b[2..];
    } else {
      assert t[2..] == b[2..][p - 2 := c % 0x100][p - 1 := c / 0x100];
      StoredSum(b[2..], p - 2, c);
    }
  }

  /** Storing the checksum in a zeroed field at an even offset makes the checksum of the whole zero. */
  lemma StoredVerifies(b: seq<byte>, p: nat)
    requires p % 2 == 0 && p + 2 <= |b| && b[p] == 0 && b[p + 1] == 0
    ensures var c := InternetChecksum(b);
      InternetChecksum(b[p := c % 0x100][p + 1 := c / 0x100]) == 0
  {
    StoredSum(b, p, InternetChecksum(b));
    CanonComplement(WordSum(b));
  }
}
