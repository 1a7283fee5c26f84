/**
The MVRP decoder of daemons/mrpd/mvrp.c is total: where its two loops stand on an arbitrary frame, how far every turn
takes them, and so how often they turn.
*/
module MvrpProgress {
  import opened Mrp
  import opened MrpPdu
  import opened MrpProgress
  import opened MvrpCodec

  /** Where the vector loop stands at each of its tests, from `p` on. */
  function VectorStops(f: seq<byte>, p: nat): (stops: seq<nat>)
    ensures stops != [] && stops[0] == p
    decreases if p < |f| then |f| - p else 0
  {
    if EndMarkAt(f, p) || RunsOff(f, p, NumValues(WordAt(f, p))) then [p]
    else [p] + VectorStops(f, p + VecSize(NumValues(WordAt(f, p))))
  }

  /** Every vector takes the cursor five bytes ahead at least; the loop ends where the decoder says. */
  lemma {:induction false} VectorsAdvance(f: seq<byte>, p: nat, saw: bool)
    ensures var stops := VectorStops(f, p);
      Rises(stops, 5, |f|) && (DecodeVectors(f, p, saw).ok ==> stops[|stops| - 1] == DecodeVectors(f, p, saw).ptr)
    decreases if p < |f| then |f| - p else 0
  {
    hide CodesAt, Actions, Rises, WordAt, NumValues, IsLva, EndMarkAt, LvaAction;
    NoRise(p, 5, |f|);
    var h := WordAt(f, p);
    var n := NumValues(h);
    if !EndMarkAt(f, p) && !RunsOff(f, p, n) {
      VectorsAdvance(f, p + VecSize(n), saw || IsLva(h));
      RisesCons(p, VectorStops(f, p + VecSize(n)), 5, |f|);
    }
  }

  /** Where the message loop stands at each of its tests, from `p` on. */
  function MessageStops(f: seq<byte>, p: nat, endmarks: nat, saw: bool): (stops: seq<nat>)
    ensures stops != [] && stops[0] == p
    decreases if p < |f| then |f| - p else 0
  {
    if p + ENDMARK_SIZE >= |f| then [p]
    else if EndMarkAt(f, p) then if endmarks + 1 < 2 then [p] + MessageStops(f, p + 2, endmarks + 1, saw) else [p]
    else if At(f, p) == VID_TYPE then
      var v := DecodeVectors(f, p + 2, saw);
      if At(f, p + 1) != 2 || !v.ok then [p] else [p] + MessageStops(f, v.ptr, 0, v.saw)
    else if At(f, ETH_HEADER_SIZE) == 0 then [p]
    else [p] + MessageStops(f, SkipUnknown(f, p), 0, saw)
  }

  /** Every message, and every end mark, takes the cursor two bytes ahead at least. */
  lemma {:induction false} MessagesAdvance(f: seq<byte>, p: nat, endmarks: nat, saw: bool)
    ensures Rises(MessageStops(f, p, endmarks, saw), 2, |f|)
    decreases if p < |f| then |f| - p else 0
  {
    hide DecodeVectors, EndMarkAt, Rises;
    NoRise(p, 2, |f|);
    if p + ENDMARK_SIZE < |f| {
      if EndMarkAt(f, p) {
        if endmarks + 1 < 2 {
          MessagesAdvance(f, p + 2, endmarks + 1, saw);
          RisesCons(p, MessageStops(f, p + 2, endmarks + 1, saw), 2, |f|);
        }
      } else if At(f, p) == VID_TYPE {
        var v := DecodeVectors(f, p + 2, saw);
        if At(f, p + 1) == 2 && v.ok {
          MessagesAdvance(f, v.ptr, 0, v.saw);
          RisesCons(p, MessageStops(f, v.ptr, 0, v.saw), 2, |f|);
        }
      } else if At(f, ETH_HEADER_SIZE) != 0 {
        MessagesAdvance(f, SkipUnknown(f, p), 0, saw);
        RisesCons(p, MessageStops(f, SkipUnknown(f, p), 0, saw), 2, |f|);
      }
    }
  }

  /** So the loops turn no more often than the frame is long: a half, and a fifth, of its bytes. */
  lemma DecodingIsBounded(f: seq<byte>, p: nat, endmarks: nat, saw: bool)
    ensures 2 * (|MessageStops(f, p, endmarks, saw)| - 2) <= |f|
    ensures 5 * (|VectorStops(f, p)| - 2) <= |f|
  {
    MessagesAdvance(f, p, endmarks, saw);
    VectorsAdvance(f, p, saw);
    RiseBound(MessageStops(f, p, endmarks, saw), 2, |f|);
    RiseBound(VectorStops(f, p), 5, |f|);
  }
}
