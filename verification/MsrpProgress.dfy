/**
The MSRP decoder of daemons/mrpd/msrp.c is total: where its loops stand on an arbitrary frame, how far every turn takes
them, and so how often they turn.
*/
module MsrpProgress {
  import opened Mrp
  import opened MrpPdu
  import opened MrpProgress
  import opened MsrpCodec

  /** Where the vector at `p` ends; one without values is its header and first value. */
  function NextVector(f: seq<byte>, p: nat, k: Kind): nat {
    p + VecSize(k, NumValues(WordAt(f, p)))
  }

  predicate LastVector(f: seq<byte>, p: nat, k: Kind) {
    var n := NumValues(WordAt(f, p));
    EndMarkAt(f, p) || (n > 0 && RunsOff(f, p, k, n))
  }

  /** Where the vector loop stands at each of its tests, from `p` on. */
  function VectorStops(f: seq<byte>, p: nat, k: Kind): (stops: seq<nat>)
    ensures stops != [] && stops[0] == p
    decreases if p < |f| then |f| - p else 0
  {
    if LastVector(f, p, k) then [p] else [p] + VectorStops(f, NextVector(f, p, k), k)
  }

  lemma VectorsNext(f: seq<byte>, p: nat, k: Kind, saw: set<Kind>)
    ensures var d := DecodeVectors(f, p, k, saw);
      if LastVector(f, p, k) then d.ok ==> d.ptr == p
      else
        var rest := DecodeVectors(f, NextVector(f, p, k), k, Saw(k, WordAt(f, p), saw));
        p < |f| && d.ok == rest.ok && d.ptr == rest.ptr
  {
    hide VectorAt, LvaAction, AttribLen, VecSize, EndMarkAt, WordAt, NumValues, Saw, RunsOff;
    NoEvents(k);
    InsideFrame(f, p);
  }

  lemma NoEvents(k: Kind)
    ensures VecSize(k, 0) == 2 + AttribLen(k)
  {}

  lemma InsideFrame(f: seq<byte>, p: nat)
    ensures p >= |f| ==> EndMarkAt(f, p)
  {}

  /** Every vector takes the cursor six bytes ahead at least; the loop ends where the decoder says. */
  lemma {:induction false} VectorsAdvance(f: seq<byte>, p: nat, k: Kind, saw: set<Kind>)
    ensures var stops := VectorStops(f, p, k);
      && Rises(stops, 6, |f|)
      && (DecodeVectors(f, p, k, saw).ok ==> stops[|stops| - 1] == DecodeVectors(f, p, k, saw).ptr)
    decreases if p < |f| then |f| - p else 0
  {
    hide DecodeVectors, Rises, WordAt, NumValues, Saw, LastVector;
    NoRise(p, 6, |f|);
    VectorsNext(f, p, k, saw);
    if !LastVector(f, p, k) {
      VectorsAdvance(f, NextVector(f, p, k), k, Saw(k, WordAt(f, p), saw));
      RisesCons(p, VectorStops(f, NextVector(f, p, k), k), 6, |f|);
    }
  }

  /** Where the message at `p` leaves the cursor and which LeaveAlls were heard by then; None where decoding ends. */
  function NextMessage(f: seq<byte>, p: nat, endmarks: nat, saw: set<Kind>): (next: Option<(nat, set<Kind>)>)
    ensures next.Some? ==> p + 2 <= next.value.0 && p < |f|
  {
    if p + ENDMARK_SIZE >= |f| then None
    else if EndMarkAt(f, p) then if endmarks + 1 < 2 then Some((p + 2, saw)) else None
    else
      match KindAt(f, p)
      case None => None
      case Some(k) =>
        if At(f, p + 1) != AttribLen(k) then None
        else if !ListLengthOk(f, p) then Some((SkipMessage(f, p, k), saw))
        else
          var v := DecodeVectors(f, p + 4, k, saw);
          if v.ok then Some((v.ptr, v.saw)) else None
  }

  function Marks(f: seq<byte>, p: nat, endmarks: nat): nat {
    if EndMarkAt(f, p) then endmarks + 1 else 0
  }

  /** Where the message loop stands at each of its tests, from `p` on. */
  function MessageStops(f: seq<byte>, p: nat, endmarks: nat, saw: set<Kind>): (stops: seq<nat>)
    ensures stops != [] && stops[0] == p
    decreases if p < |f| then |f| - p else 0
  {
    match NextMessage(f, p, endmarks, saw)
    case None => [p]
    case Some((q, saw')) => [p] + MessageStops(f, q, Marks(f, p, endmarks), saw')
  }

  /** Where there is a next stop the decoder goes on from it. */
  lemma MessagesNext(f: seq<byte>, p: nat, endmarks: nat, saw: set<Kind>)
    ensures var d, next := DecodeMessages(f, p, endmarks, saw), NextMessage(f, p, endmarks, saw);
      next.Some? ==>
        var rest := DecodeMessages(f, next.value.0, Marks(f, p, endmarks), next.value.1);
        d.ok == rest.ok && d.ptr == rest.ptr && rest.actions <= d.actions[|d.actions| - |rest.actions|..]
  {}

  /** Every message, and every end mark, takes the cursor two bytes ahead at least. */
  lemma {:induction false} MessagesAdvance(f: seq<byte>, p: nat, endmarks: nat, saw: set<Kind>)
    ensures Rises(MessageStops(f, p, endmarks, saw), 2, |f|)
    decreases if p < |f| then |f| - p else 0
  {
    hide NextMessage, Marks, Rises;
    NoRise(p, 2, |f|);
    var next := NextMessage(f, p, endmarks, saw);
    if next.Some? {
      MessagesAdvance(f, next.value.0, Marks(f, p, endmarks), next.value.1);
      RisesCons(p, MessageStops(f, next.value.0, Marks(f, p, endmarks), next.value.1), 2, |f|);
    }
  }

  /** So the loops turn no more often than the frame is long: a half, and a sixth, of its bytes. */
  lemma DecodingIsBounded(f: seq<byte>, p: nat, endmarks: nat, k: Kind, saw: set<Kind>)
    ensures 2 * (|MessageStops(f, p, endmarks, saw)| - 2) <= |f|
    ensures 6 * (|VectorStops(f, p, k)| - 2) <= |f|
  {
    MessagesAdvance(f, p, endmarks, saw);
    VectorsAdvance(f, p, k, saw);
    RiseBound(MessageStops(f, p, endmarks, saw), 2, |f|);
    RiseBound(VectorStops(f, p, k), 6, |f|);
  }
}
