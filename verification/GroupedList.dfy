/**
The attribute list of daemons/mrpd/mmrp.c and msrp.c, which hold attributes of several types: mmrp_add and msrp_add
look for the first run of the new attribute's own type and insert in order there, or else append at the tail.
*/
module GroupedList {
  import opened Mrp
  import opened MrpParticipant
  import opened AttribList

  /**
  An attribute as the list sees it: its type, and its place in the order memcmp gives among attributes of that type.
  */
  datatype Attribute<+V> = Attribute(kind: nat, rank: nat, value: V, applicant: Applicant, registrar: Registrar)

  /** The states of its two machines. */
  function StateOf<V>(a: Attribute<V>): Att {
    Att(a.applicant.state, a.registrar.state)
  }

  /** Where the walk stops when it starts at position `i`; the new attribute goes to the position returned. */
  function PlaceFrom<V>(s: seq<Attribute<V>>, i: nat, a: Attribute<V>): (k: nat)
    requires i <= |s|
    ensures i <= k <= |s|
    decreases |s| - i
  {
    if i == |s| then i
    else if s[i].kind != a.kind then PlaceFrom(s, i + 1, a)
    else if s[i].rank >= a.rank then i
    else if i + 1 < |s| && s[i + 1].kind == a.kind then PlaceFrom(s, i + 1, a)
    else i + 1
  }

  function Inserted<V>(s: seq<Attribute<V>>, a: Attribute<V>): (t: seq<Attribute<V>>)
    ensures |t| == |s| + 1
  {
    var k := PlaceFrom(s, 0, a);
    s[..k] + [a] + s[k..]
  }

  /** Attributes of one type stand together. */
  ghost predicate Grouped<V>(s: seq<Attribute<V>>) {
    forall i, j, k | 0 <= i < j < k < |s| && s[i].kind == s[k].kind :: s[j].kind == s[i].kind
  }

  /** And in order, without duplicates. */
  ghost predicate Ordered<V>(s: seq<Attribute<V>>) {
    forall i, j | 0 <= i < j < |s| && s[i].kind == s[j].kind :: s[i].rank < s[j].rank
  }

  ghost predicate AbsentKey<V>(s: seq<Attribute<V>>, a: Attribute<V>) {
    forall i | 0 <= i < |s| :: s[i].kind != a.kind || s[i].rank != a.rank
  }

  /** What the walk knows when it stands at position `i`: no attribute of the type before, or all before are smaller. */
  ghost predicate Passed<V>(s: seq<Attribute<V>>, i: nat, a: Attribute<V>) {
    && i <= |s|
    && (forall j | 0 <= j < i && s[j].kind == a.kind :: s[j].rank < a.rank)
    && (i > 0 && s[i - 1].kind == a.kind ==> i < |s| && s[i].kind == a.kind)
  }

  /** Where the new attribute fits: everything of its type before is smaller, everything behind is larger or equal. */
  ghost predicate Fits<V>(s: seq<Attribute<V>>, k: nat, a: Attribute<V>) {
    && k <= |s|
    && (forall j | 0 <= j < k && s[j].kind == a.kind :: s[j].rank < a.rank)
    && (forall j | k <= j < |s| && s[j].kind == a.kind :: a.rank <= s[j].rank)
  }

  /** Beside one of its type, or at the tail of a list that has none. */
  ghost predicate Beside<V>(s: seq<Attribute<V>>, k: nat, a: Attribute<V>)
    requires k <= |s|
  {
    || (k > 0 && s[k - 1].kind == a.kind) || (k < |s| && s[k].kind == a.kind)
    || (k == |s| && forall j | 0 <= j < |s| :: s[j].kind != a.kind)
  }

  lemma NoMoreOfKind<V>(s: seq<Attribute<V>>, i: nat, a: Attribute<V>)
    requires Grouped(s) && i < |s| && s[i].kind == a.kind
    requires i + 1 < |s| ==> s[i + 1].kind != a.kind
    ensures forall j | i < j < |s| :: s[j].kind != a.kind
  {
    forall j | i + 1 < j < |s| ensures s[j].kind != a.kind {
      assert s[i + 1].kind == s[i].kind || s[i].kind != s[j].kind;
    }
  }

  lemma {:induction false} PlaceAfterSmaller<V>(s: seq<Attribute<V>>, i: nat, a: Attribute<V>)
    requires i <= |s| && forall j | 0 <= j < i && s[j].kind == a.kind :: s[j].rank < a.rank
    ensures forall j | 0 <= j < PlaceFrom(s, i, a) && s[j].kind == a.kind :: s[j].rank < a.rank
    decreases |s| - i
  {
    if i < |s| && (s[i].kind != a.kind || (s[i].rank < a.rank && i + 1 < |s| && s[i + 1].kind == a.kind)) {
      PlaceAfterSmaller(s, i + 1, a);
    }
  }

  lemma {:induction false} PlaceBeforeLarger<V>(s: seq<Attribute<V>>, i: nat, a: Attribute<V>)
    requires Grouped(s) && Ordered(s) && i <= |s|
    ensures forall j | PlaceFrom(s, i, a) <= j < |s| && s[j].kind == a.kind :: a.rank <= s[j].rank
    decreases |s| - i
  {
    if i == |s| {
    } else if s[i].kind != a.kind {
      PlaceBeforeLarger(s, i + 1, a);
    } else if s[i].rank >= a.rank {
      forall j | i < j < |s| && s[j].kind == a.kind ensures a.rank <= s[j].rank {
        assert s[i].rank < s[j].rank;
      }
    } else if i + 1 < |s| && s[i + 1].kind == a.kind {
      PlaceBeforeLarger(s, i + 1, a);
    } else {
      NoMoreOfKind(s, i, a);
    }
  }

  lemma SpliceAt<V>(s: seq<Attribute<V>>, k: nat, a: Attribute<V>, j: nat)
    requires k <= |s| && j <= |s|
    ensures (s[..k] + [a] + s[k..])[j] == if j < k then s[j] else if j == k then a else s[j - 1]
  {}

  lemma {:induction false} FitsKeepsOrder<V>(s: seq<Attribute<V>>, k: nat, a: Attribute<V>)
    requires Ordered(s) && Fits(s, k, a) && AbsentKey(s, a)
    ensures Ordered(s[..k] + [a] + s[k..])
  {
    var t := s[..k] + [a] + s[k..];
    forall i, j | 0 <= i < j < |t| && t[i].kind == t[j].kind ensures t[i].rank < t[j].rank {
      SpliceAt(s, k, a, i);
      SpliceAt(s, k, a, j);
    }
  }

  lemma {:induction false} BesideKeepsGroups<V>(s: seq<Attribute<V>>, k: nat, a: Attribute<V>)
    requires Grouped(s) && k <= |s| && Beside(s, k, a)
    ensures Grouped(s[..k] + [a] + s[k..])
  {
    var t := s[..k] + [a] + s[k..];
    forall i, j, m | 0 <= i < j < m < |t| && t[i].kind == t[m].kind ensures t[j].kind == t[i].kind {
      SpliceAt(s, k, a, i);
      SpliceAt(s, k, a, j);
      SpliceAt(s, k, a, m);
    }
  }

  lemma {:induction false} PlaceBeside<V>(s: seq<Attribute<V>>, i: nat, a: Attribute<V>)
    requires Passed(s, i, a)
    requires (forall j | 0 <= j < i :: s[j].kind != a.kind) || (i > 0 && s[i - 1].kind == a.kind)
    ensures Beside(s, PlaceFrom(s, i, a), a)
    decreases |s| - i
  {
    if i < |s| && (s[i].kind != a.kind || (s[i].rank < a.rank && i + 1 < |s| && s[i + 1].kind == a.kind)) {
      PlaceBeside(s, i + 1, a);
    }
  }

  /** Insertion keeps the list grouped by type and in order within each type. */
  lemma InsertedInOrder<V>(s: seq<Attribute<V>>, a: Attribute<V>)
    requires Grouped(s) && Ordered(s) && AbsentKey(s, a)
    ensures Grouped(Inserted(s, a)) && Ordered(Inserted(s, a))
  {
    var k := PlaceFrom(s, 0, a);
    PlaceAfterSmaller(s, 0, a);
    PlaceBeforeLarger(s, 0, a);
    FitsKeepsOrder(s, k, a);
    PlaceBeside(s, 0, a);
    BesideKeepsGroups(s, k, a);
  }

  /* ---------- reclaiming ---------- */

  function Kept<V>(s: seq<Attribute<V>>): seq<Attribute<V>> {
    if s == [] then [] else (if Reclaimable(StateOf(s[0])) then [] else [s[0]]) + Kept(s[1..])
  }

  lemma {:induction false} KeptAppend<V>(s: seq<Attribute<V>>, a: Attribute<V>)
    ensures Kept(s + [a]) == Kept(s) + if Reclaimable(StateOf(a)) then [] else [a]
  {
    if s == [] {
      assert s + [a] == [a] && [a][1..] == [];
    } else {
      KeptAppend(s[1..], a);
      assert (s + [a])[1..] == s[1..] + [a];
    }
  }

  lemma {:induction false} KeptIn<V>(s: seq<Attribute<V>>, a: Attribute<V>)
    ensures a in Kept(s) <==> a in s && !Reclaimable(StateOf(a))
  {
    if s != [] {
      KeptIn(s[1..], a);
      assert a in s <==> a == s[0] || a in s[1..];
    }
  }

  /** A reclaiming walk has dealt with the first `k` of `s` and stands at position `i` of the list `cur`. */
  ghost predicate Walking<V>(s: seq<Attribute<V>>, k: nat, i: nat, cur: seq<Attribute<V>>) {
    k <= |s| && i == |Kept(s[..k])| && cur == Kept(s[..k]) + s[k..]
  }

  lemma WalkStart<V>(s: seq<Attribute<V>>)
    ensures Walking(s, 0, 0, s)
  {
    assert s[..0] == [];
  }

  lemma WalkStep<V>(s: seq<Attribute<V>>, k: nat, i: nat, cur: seq<Attribute<V>>)
    requires Walking(s, k, i, cur) && i < |cur|
    ensures k < |s| && cur[i] == s[k]
    ensures if Reclaimable(StateOf(cur[i])) then Walking(s, k + 1, i, cur[..i] + cur[i + 1..])
            else Walking(s, k + 1, i + 1, cur)
  {
    hide Kept, Reclaimable, StateOf;
    assert s[..k + 1] == s[..k] + [s[k]];
    KeptAppend(s[..k], s[k]);
  }

  lemma WalkEnd<V>(s: seq<Attribute<V>>, k: nat, i: nat, cur: seq<Attribute<V>>)
    requires Walking(s, k, i, cur) && i >= |cur|
    ensures k == |s| && cur == Kept(s)
  {
    assert s[..|s|] == s;
  }

  /* ---------- on the linked nodes ---------- */

  lemma PlaceStep<V>(s: seq<Attribute<V>>, i: nat, a: Attribute<V>)
    requires i < |s|
    ensures PlaceFrom(s, i, a) ==
      if s[i].kind != a.kind then PlaceFrom(s, i + 1, a)
      else if s[i].rank >= a.rank then i
      else if i + 1 < |s| && s[i + 1].kind == a.kind then PlaceFrom(s, i + 1, a)
      else i + 1
  {}

  /** The walk: the node to insert beside, and on which side; null for the empty list. */
  method Anchor<V>(list: List<Attribute<V>>, a: Attribute<V>)
    returns (anchor: Node?<Attribute<V>>, after: bool, ghost i: nat)
    requires list.Linked()
    ensures anchor == null ==> list.nodes == [] && list.head == null
    ensures anchor != null ==> i < |list.nodes| && anchor == list.nodes[i]
    ensures anchor != null ==> PlaceFrom(list.Contents(), 0, a) == if after then i + 1 else i
  {
    ghost var s := list.Contents();
    var attrib := list.head;
    var tail: Node?<Attribute<V>> := null;
    ghost var j := 0;
    anchor, after, i := null, true, 0;
    while attrib != null
      invariant 0 <= j <= |list.nodes| && attrib == if j < |list.nodes| then list.nodes[j] else null
      invariant tail == null ==> j == 0 || (j < |s| && s[j].kind == a.kind)
      invariant tail != null ==> i < j && tail == list.nodes[i] && (i + 1 == j || (j < |s| && s[j].kind == a.kind))
      invariant anchor == null && after && PlaceFrom(s, 0, a) == PlaceFrom(s, j, a)
      decreases |s| - j
    {
      PlaceStep(s, j, a);
      list.LinksAt(j);
      if attrib.data.kind == a.kind {
        if attrib.data.rank < a.rank {
          if attrib.next != null && attrib.next.data.kind == a.kind {
            attrib := attrib.next;
            j := j + 1;
            continue;
          }
          anchor, after, i := attrib, true, j;
        } else {
          anchor, after, i := attrib, false, j;
        }
        break;
      }
      tail, i := attrib, j;
      attrib := attrib.next;
      j := j + 1;
    }
    if anchor == null {
      anchor := tail;
    }
  }

  /** mmrp_add and msrp_add. */
  method Add<V>(list: List<Attribute<V>>, r: Node<Attribute<V>>) returns (ghost k: nat)
    requires list.Linked() && r !in list.nodes
    modifies list, list.nodes`prev, list.nodes`next, r`prev, r`next
    ensures k == PlaceFrom(old(list.Contents()), 0, r.data)
    ensures list.nodes == old(list.nodes[..k] + [r] + list.nodes[k..]) && list.Linked()
    ensures list.Contents() == Inserted(old(list.Contents()), r.data)
  {
    hide PlaceFrom, List.Linked;
    var anchor, after;
    anchor, after, k := Anchor(list, r.data);
    if anchor == null {
      k := 0;
      list.InsertFirst(r);
    } else if after {
      list.InsertAfter(r, anchor, k);
      k := k + 1;
    } else {
      list.InsertBefore(r, anchor, k);
    }
  }

  /** One step of a reclaiming walk. */
  method ReclaimOne<V>(list: List<Attribute<V>>, attrib: Node<Attribute<V>>, ghost i: nat,
                       ghost all: seq<Node<Attribute<V>>>)
    returns (next: Node?<Attribute<V>>, ghost i': nat)
    requires list.Linked() && i < |list.nodes| && list.nodes[i] == attrib
    requires forall j | 0 <= j < |list.nodes| :: list.nodes[j] in all
    modifies list, all`prev, all`next
    ensures list.Linked() && i' <= |list.nodes| && next == if i' < |list.nodes| then list.nodes[i'] else null
    ensures forall j | 0 <= j < |list.nodes| :: list.nodes[j] in all
    ensures i' == if Reclaimable(StateOf(old(attrib.data))) then i else i + 1
    ensures list.Contents() ==
      if Reclaimable(StateOf(old(attrib.data))) then old(list.Contents()[..i] + list.Contents()[i + 1..])
      else old(list.Contents())
  {
    if Reclaimable(StateOf(attrib.data)) {
      next := list.Unlink(attrib, i);
      i' := i;
    } else {
      list.LinksAt(i);
      next := attrib.next;
      i' := i + 1;
    }
  }

  /** Where a reclaiming walk stands: at node `attrib`, position `i`, with the first `k` of `s` dealt with. */
  ghost predicate Standing<V>(list: List<Attribute<V>>, s: seq<Attribute<V>>, k: nat, i: nat,
                              attrib: Node?<Attribute<V>>, all: seq<Node<Attribute<V>>>)
    reads list, list.nodes
  {
    && list.Linked() && k <= |s| && Walking(s, k, i, list.Contents())
    && i <= |list.nodes| && attrib == (if i < |list.nodes| then list.nodes[i] else null)
    && forall j | 0 <= j < |list.nodes| :: list.nodes[j] in all
  }

  method ReclaimNext<V>(list: List<Attribute<V>>, attrib: Node<Attribute<V>>, ghost s: seq<Attribute<V>>, ghost k: nat,
                        ghost i: nat, ghost all: seq<Node<Attribute<V>>>)
    returns (next: Node?<Attribute<V>>, ghost i': nat)
    requires Standing(list, s, k, i, attrib, all)
    modifies list, all`prev, all`next
    ensures k < |s| && Standing(list, s, k + 1, i', next, all)
  {
    hide Walking;
    ghost var cur := list.Contents();
    WalkStep(s, k, i, cur);
    assert attrib.data == cur[i];
    next, i' := ReclaimOne(list, attrib, i, all);
  }

  lemma StandingStart<V>(list: List<Attribute<V>>)
    requires list.Linked()
    ensures Standing(list, list.Contents(), 0, 0, list.head, list.nodes)
  {
    WalkStart(list.Contents());
  }

  lemma StandingEnd<V>(list: List<Attribute<V>>, s: seq<Attribute<V>>, k: nat, i: nat, all: seq<Node<Attribute<V>>>)
    requires Standing(list, s, k, i, null, all)
    ensures list.Linked() && list.Contents() == Kept(s)
  {
    WalkEnd(s, k, i, list.Contents());
  }

  /** The walk of mmrp_reclaim and msrp_reclaim: every attribute nobody needs is unlinked. */
  method Reclaim<V>(list: List<Attribute<V>>)
    requires list.Linked()
    modifies list, list.nodes`prev, list.nodes`next
    ensures list.Linked() && list.Contents() == Kept(old(list.Contents()))
  {
    hide Kept, Standing;
    ghost var s, k, i: nat, all := list.Contents(), 0, 0, list.nodes;
    var attrib := list.head;
    StandingStart(list);
    while attrib != null
      invariant k <= |s| && Standing(list, s, k, i, attrib, all)
      modifies list, all`prev, all`next
      decreases |s| - k
    {
      attrib, i := ReclaimNext(list, attrib, s, k, i, all);
      k := k + 1;
    }
    StandingEnd(list, s, k, i, all);
  }
}
