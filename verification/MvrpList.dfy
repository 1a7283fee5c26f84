/** lookup, add and reclaim of daemons/mrpd/mvrp.c on the linked list. */
module MvrpList {
  import opened Mrp
  import opened MrpParticipant
  import opened MvrpStation
  import opened MvrpAttributes
  import opened AttribList

  /** mvrp_lookup. */
  method Lookup(list: List<Attribute>, v: u16) returns (n: Node?<Attribute>, ghost k: nat)
    requires list.Linked()
    ensures k == IndexOf(list.Contents(), v)
    ensures n == if k < |list.nodes| then list.nodes[k] else null
  {
    n := list.head;
    k := 0;
    while n != null
      invariant 0 <= k <= |list.nodes|
      invariant n == if k < |list.nodes| then list.nodes[k] else null
      invariant forall i | 0 <= i < k :: list.Contents()[i].vid != v
      decreases |list.nodes| - k
    {
      if n.data.vid == v {
        break;
      }
      list.LinksAt(k);
      n := n.next;
      k := k + 1;
    }
  }

  /** The walk of mvrp_add: the first attribute whose VID is not below `v`, else the last one. */
  method Position(list: List<Attribute>, v: u16) returns (attrib: Node<Attribute>, ghost k: nat)
    requires list.Linked() && list.nodes != []
    ensures k < |list.nodes| && attrib == list.nodes[k]
    ensures forall i | 0 <= i < k :: list.Contents()[i].vid < v
    ensures attrib.data.vid >= v || k == |list.nodes| - 1
  {
    attrib := list.head;
    k := 0;
    while attrib.data.vid < v && attrib.next != null
      invariant k < |list.nodes| && attrib == list.nodes[k]
      invariant forall i | 0 <= i < k :: list.Contents()[i].vid < v
      decreases |list.nodes| - k
    {
      list.LinksAt(k);
      attrib := attrib.next;
      k := k + 1;
    }
    list.LinksAt(k);
  }

  /** `r` goes behind `attrib` if its VID is larger, else before it. */
  method Stitch(list: List<Attribute>, r: Node<Attribute>, attrib: Node<Attribute>, ghost i: nat)
    returns (ghost k: nat)
    requires list.Linked() && i < |list.nodes| && list.nodes[i] == attrib
    requires r !in list.nodes
    modifies list, list.nodes`prev, list.nodes`next, r`prev, r`next
    ensures k == if attrib.data.vid < r.data.vid then i + 1 else i
    ensures list.nodes == old(list.nodes[..k] + [r] + list.nodes[k..]) && list.Linked()
    ensures list.Contents() == old(list.Contents()[..k] + [r.data] + list.Contents()[k..])
  {
    if attrib.data.vid < r.data.vid {
      list.InsertAfter(r, attrib, i);
      k := i + 1;
    } else {
      list.InsertBefore(r, attrib, i);
      k := i;
    }
  }

  /** mvrp_add: `r` is spliced in before the first attribute with a larger VID, or at the tail. */
  method Add(list: List<Attribute>, r: Node<Attribute>) returns (ghost k: nat)
    requires list.Linked() && r !in list.nodes
    modifies list, list.nodes`prev, list.nodes`next, r`prev, r`next
    ensures k == Place(old(list.Contents()), r.data.vid)
    ensures list.nodes == old(list.nodes[..k] + [r] + list.nodes[k..]) && list.Linked()
    ensures list.Contents() == Inserted(old(list.Contents()), r.data)
  {
    hide Place, Inserted, List.Linked, List.Contents;
    ghost var s := list.Contents();
    list.HeadIs();
    if list.head == null {
      k := 0;
      InsertedIs(s, r.data, 0);
      list.InsertFirst(r);
    } else {
      var attrib;
      attrib, k := Position(list, r.data.vid);
      assert list.Contents() == s && s[k] == attrib.data;
      k := Stitch(list, r, attrib, k);
      InsertedIs(s, r.data, k);
    }
  }

  /** mvrp_conditional_reclaim: unlink `n` if nobody needs it; `next` is where a walk of the list goes on. */
  method ConditionalReclaim(list: List<Attribute>, n: Node<Attribute>, ghost k: nat)
    returns (next: Node?<Attribute>, reclaimed: bool)
    requires list.Linked() && k < |list.nodes| && list.nodes[k] == n
    modifies list, list.nodes`prev, list.nodes`next
    ensures list.Linked()
    ensures reclaimed <==> Reclaimable(Abs(old(n.data)).att)
    ensures reclaimed ==> list.nodes == old(list.nodes[..k] + list.nodes[k + 1..])
    ensures reclaimed ==> list.Contents() == old(list.Contents()[..k] + list.Contents()[k + 1..])
    ensures !reclaimed ==> list.nodes == old(list.nodes) && list.Contents() == old(list.Contents())
    ensures next == (var k' := if reclaimed then k else k + 1; if k' < |list.nodes| then list.nodes[k'] else null)
  {
    var a := n.data;
    reclaimed := a.registrar.state == MT && a.applicant.state in {VO, AO, QO};
    if reclaimed {
      next := list.Unlink(n, k);
    } else {
      list.LinksAt(k);
      next := n.next;
    }
  }

  /** Where the walk of mvrp_reclaim stands: at node `attrib`, position `i`, with the first `k` of `s` dealt with. */
  ghost predicate Standing(list: List<Attribute>, s: seq<Attribute>, k: nat, i: nat, attrib: Node?<Attribute>,
                           all: seq<Node<Attribute>>)
    reads list, list.nodes
  {
    && list.Linked() && Reclaiming(s, s, k, i, list.Contents())
    && i <= |list.nodes| && attrib == (if i < |list.nodes| then list.nodes[i] else null)
    && forall j | 0 <= j < |list.nodes| :: list.nodes[j] in all
  }

  lemma WalkStep(s: seq<Attribute>, k: nat, i: nat, cur: seq<Attribute>)
    requires Reclaiming(s, s, k, i, cur) && i < |cur|
    ensures k < |s|
    ensures if Reclaimable(Abs(cur[i]).att) then Reclaiming(s, s, k + 1, i, cur[..i] + cur[i + 1..])
            else Reclaiming(s, s, k + 1, i + 1, cur)
  {
    hide Reclaiming, Reclaimable, Abs;
    ReclaimStep(s, s, k, i, cur);
    assert cur[i := s[k]] == cur;
  }

  method ReclaimNext(list: List<Attribute>, attrib: Node<Attribute>, ghost s: seq<Attribute>, ghost k: nat,
                     ghost i: nat, ghost all: seq<Node<Attribute>>)
    returns (next: Node?<Attribute>, ghost i': nat)
    requires Standing(list, s, k, i, attrib, all)
    modifies list, all`prev, all`next
    ensures k < |s| && Standing(list, s, k + 1, i', next, all)
  {
    hide Reclaiming, Reclaimable, Abs, List.Linked;
    WalkStep(s, k, i, list.Contents());
    var reclaimed;
    next, reclaimed := ConditionalReclaim(list, attrib, i);
    i' := if reclaimed then i else i + 1;
  }

  /** mvrp_reclaim: the walk unlinks every attribute nobody needs. */
  method Reclaim(list: List<Attribute>)
    requires list.Linked()
    modifies list, list.nodes`prev, list.nodes`next
    ensures list.Linked() && list.Contents() == KeptAttrs(old(list.Contents()))
    ensures forall n | n in list.nodes :: n in old(list.nodes)
  {
    hide KeptAttrs, Standing, List.Linked, List.Contents;
    ghost var s, k, i: nat, all := list.Contents(), 0, 0, list.nodes;
    var attrib := list.head;
    StandingStart(list);
    while attrib != null
      invariant k <= |s| && Standing(list, s, k, i, attrib, all)
      modifies list, all`prev, all`next
      decreases |s| - k
    {
      attrib, i := ReclaimNext(list, attrib, s, k, i, all);
      k := k + 1;
    }
    StandingEnd(list, s, k, i, all);
  }

  lemma StandingStart(list: List<Attribute>)
    requires list.Linked()
    ensures Standing(list, list.Contents(), 0, 0, list.head, list.nodes)
  {
    hide Reclaiming, List.Linked, List.Contents;
    list.HeadIs();
    ReclaimStart(list.Contents(), list.Contents());
  }

  lemma StandingEnd(list: List<Attribute>, s: seq<Attribute>, k: nat, i: nat, all: seq<Node<Attribute>>)
    requires Standing(list, s, k, i, null, all)
    ensures list.Linked() && list.Contents() == KeptAttrs(s)
    ensures forall n | n in list.nodes :: n in all
  {
    hide Reclaiming, List.Linked, List.Contents;
    ReclaimEnd(s, s, k, i, list.Contents());
  }
}
