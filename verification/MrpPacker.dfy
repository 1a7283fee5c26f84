/**
Writing a PDU into the frame buffer: two-byte fields, and the running three-pack that every emitter of daemons/mrpd
keeps while it walks the attribute list, where a full three of `vectevt` becomes the next byte.
*/
module MrpPacker {
  import opened Mrp
  import opened MrpPdu

  lemma {:induction false} PackAppend(codes: seq<Code>, last: seq<Code>)
    requires |codes| % 3 == 0 && 0 < |last| <= 3
    ensures Pack3(codes + last) == Pack3(codes) + Pack3(last)
    decreases |codes|
  {
    if codes == [] {
      assert codes + last == last;
    } else {
      PackAppend(codes[3..], last);
      assert (codes + last)[3..] == codes[3..] + last;
    }
  }

  lemma HoldsJoin(f: seq<byte>, p: nat, a: seq<byte>, b: seq<byte>)
    requires Holds(f, p, a) && Holds(f, p + |a|, b)
    ensures Holds(f, p, a + b)
  {
    assert f[p..p + |a| + |b|] == f[p..p + |a|] + f[p + |a|..p + |a| + |b|];
  }

  /** What lies before `q` is still there when only bytes from `q` on were written. */
  lemma HoldsBefore(f: seq<byte>, g: seq<byte>, q: nat, p: nat, a: seq<byte>)
    requires q <= |f| && q <= |g| && f[..q] == g[..q]
    requires Holds(f, p, a) && p + |a| <= q
    ensures Holds(g, p, a)
  {
    assert f[p..p + |a|] == f[..q][p..p + |a|];
    assert g[p..p + |a|] == g[..q][p..p + |a|];
  }

  lemma HoldsAfter(f: seq<byte>, g: seq<byte>, q: nat, p: nat, a: seq<byte>)
    requires |f| == |g| && q <= |f| && f[q..] == g[q..]
    requires Holds(f, p, a) && q <= p
    ensures Holds(g, p, a)
  {
    forall k | p <= k < p + |a| ensures f[k] == g[k] {
      assert f[q..][k - q] == g[q..][k - q];
    }
    assert f[p..p + |a|] == g[p..p + |a|];
  }

  lemma HoldsBoth(f: seq<byte>, g: seq<byte>, p: nat, a: seq<byte>, b: seq<byte>)
    requires Holds(f, p, a) && Holds(g, p + |a|, b) && |f| == |g| && f[..p + |a|] == g[..p + |a|]
    ensures Holds(g, p, a + b)
  {
    HoldsBefore(f, g, p + |a|, p, a);
    HoldsJoin(g, p, a, b);
  }

  lemma PrefixKept(f: seq<byte>, g: seq<byte>, p: nat, q: nat)
    requires p <= q <= |f| && q <= |g| && f[..q] == g[..q]
    ensures f[..p] == g[..p]
  {
    assert f[..p] == f[..q][..p];
  }

  /** Nothing is different at or behind `hi`. */
  ghost predicate Untouched(f: seq<byte>, g: seq<byte>, hi: nat) {
    |f| == |g| && hi <= |f| && f[hi..] == g[hi..]
  }

  lemma UntouchedMore(f: seq<byte>, g: seq<byte>, lo: nat, hi: nat)
    requires Untouched(f, g, lo) && lo <= hi <= |f|
    ensures Untouched(f, g, hi)
  {
    assert f[hi..] == f[lo..][hi - lo..] && g[hi..] == g[lo..][hi - lo..];
  }

  lemma UntouchedTwice(f: seq<byte>, g: seq<byte>, h: seq<byte>, lo: nat, hi: nat)
    requires Untouched(f, g, lo) && Untouched(g, h, hi) && lo <= hi
    ensures Untouched(f, h, hi)
  {
    UntouchedMore(f, g, lo, hi);
  }

  /* ---------- vectors done and vectors to come ---------- */

  function Prepend<V>(done: seq<V>, rest: Option<seq<V>>): Option<seq<V>> {
    if rest.None? then None else Some(done + rest.value)
  }

  lemma PrependTwice<V>(a: seq<V>, b: seq<V>, rest: Option<seq<V>>)
    ensures Prepend(a, Prepend(b, rest)) == Prepend(a + b, rest)
  {
    if rest.Some? {
      assert a + (b + rest.value) == a + b + rest.value;
    }
  }

  lemma PrependNothing<V>(rest: Option<seq<V>>)
    ensures Prepend([], rest) == rest
  {
    if rest.Some? {
      assert [] + rest.value == rest.value;
    }
  }

  /* ---------- writing ---------- */

  method WriteBytes(buf: array<byte>, p: nat, b: seq<byte>)
    requires p + |b| <= buf.Length
    modifies buf
    ensures Holds(buf[..], p, b)
    ensures buf[..p] == old(buf[..p]) && buf[p + |b|..] == old(buf[p + |b|..])
    ensures Untouched(old(buf[..]), buf[..], p + |b|)
  {
    forall k | 0 <= k < |b| { buf[p + k] := b[k]; }
    assert forall k | 0 <= k < |b| :: buf[..][p..p + |b|][k] == b[k];
  }

  method WriteWord(buf: array<byte>, p: nat, x: u16)
    requires p + 2 <= buf.Length
    modifies buf
    ensures Holds(buf[..], p, Word(x))
    ensures buf[..p] == old(buf[..p]) && buf[p + 2..] == old(buf[p + 2..])
    ensures Untouched(old(buf[..]), buf[..], p + 2)
  {
    buf[p] := x / 0x100;
    buf[p + 1] := x % 0x100;
  }

  /** One byte of events, the missing ones as zero. */
  function Encode(vectevt: seq<Code>): (b: byte)
    requires 0 < |vectevt| <= 3
    ensures [b] == Pack3(vectevt)
  {
    assert |vectevt| == 3 ==> Pack3(vectevt[3..]) == [];
    Encode3(vectevt[0], if |vectevt| > 1 then vectevt[1] else 0, if |vectevt| > 2 then vectevt[2] else 0)
  }

  /** The events `full + vectevt` stand packed from `start`: full threes in the buffer up to `pos`, the rest to come. */
  ghost predicate Packing(f: seq<byte>, start: nat, pos: nat, vectevt: seq<Code>, full: seq<Code>) {
    |vectevt| < 3 && |full| % 3 == 0 && pos == start + |full| / 3 && Holds(f, start, Pack3(full))
  }

  method Flush(buf: array<byte>, start: nat, pos: nat, vectevt: seq<Code>, ghost full: seq<Code>)
    requires |full| % 3 == 0 && pos == start + |full| / 3 < buf.Length && Holds(buf[..], start, Pack3(full))
    requires 0 < |vectevt| <= 3
    modifies buf
    ensures Holds(buf[..], start, Pack3(full + vectevt))
    ensures buf[..start] == old(buf[..start]) && Untouched(old(buf[..]), buf[..], pos + 1)
  {
    PackAppend(full, vectevt);
    buf[pos] := Encode(vectevt);
    HoldsBefore(old(buf[..]), buf[..], pos, start, Pack3(full));
    HoldsJoin(buf[..], start, Pack3(full), Pack3(vectevt));
  }

  method Push(buf: array<byte>, start: nat, pos: nat, vectevt: seq<Code>, ghost full: seq<Code>, c: Code)
    returns (pos': nat, vectevt': seq<Code>, ghost full': seq<Code>)
    requires Packing(buf[..], start, pos, vectevt, full) && pos < buf.Length
    modifies buf
    ensures Packing(buf[..], start, pos', vectevt', full') && full' + vectevt' == full + vectevt + [c]
    ensures buf[..start] == old(buf[..start]) && pos <= pos' && Untouched(old(buf[..]), buf[..], pos')
  {
    pos', vectevt', full' := pos, vectevt + [c], full;
    if |vectevt'| > 2 {
      Flush(buf, start, pos, vectevt', full);
      pos', vectevt', full' := pos + 1, [], full + vectevt';
    }
  }

  /** "handle any trailers" */
  method Finish(buf: array<byte>, start: nat, pos: nat, vectevt: seq<Code>, ghost full: seq<Code>)
    returns (pos': nat)
    requires Packing(buf[..], start, pos, vectevt, full) && pos < buf.Length
    modifies buf
    ensures pos' == start + (|full + vectevt| + 2) / 3 && Holds(buf[..], start, Pack3(full + vectevt))
    ensures buf[..start] == old(buf[..start]) && pos <= pos' && Untouched(old(buf[..]), buf[..], pos')
  {
    pos' := pos;
    if |vectevt| > 0 {
      Flush(buf, start, pos, vectevt, full);
      pos' := pos + 1;
    } else {
      assert full + vectevt == full;
    }
  }
}
