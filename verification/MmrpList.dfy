/**
The MMRP attribute list of daemons/mrpd/mmrp.c: service requirements and MAC addresses in one doubly linked list,
grouped by type and in memcmp order within each type, which behaves as a finite map.
*/
module MmrpList {
  import opened Mrp
  import opened AttribList
  import opened GroupedList
  import opened MrpParticipant
  import opened BigEndian

  const SVCREQ_TYPE: nat := 1
  const MACVEC_TYPE: nat := 2

  datatype Key = ServiceReq(svcreq: byte) | Mac(mac: seq<byte>)

  predicate ValidKey(k: Key) {
    k.Mac? ==> |k.mac| == 6
  }

  function KindOf(k: Key): nat {
    if k.ServiceReq? then SVCREQ_TYPE else MACVEC_TYPE
  }

  function RankOf(k: Key): nat {
    match k
    case ServiceReq(s) => s
    case Mac(m) => Number(m)
  }

  /* ---------- memcmp order ---------- */

  /** The sign of memcmp on strings of equal length. */
  function Memcmp(a: seq<byte>, b: seq<byte>): (r: int)
    requires |a| == |b|
  {
    if a == [] then 0 else if a[0] != b[0] then a[0] - b[0] else Memcmp(a[1..], b[1..])
  }

  lemma {:induction false} NumberFront(b: seq<byte>)
    requires b != []
    ensures Number(b) == b[0] * Power(|b| - 1) + Number(b[1..])
    decreases |b|
  {
    var front, last := b[..|b| - 1], b[|b| - 1];
    if |b| == 1 {
      assert front == [] && b[1..] == [];
    } else {
      NumberFront(front);
      assert b[1..][..|b| - 2] == front[1..];
      Spread3(b[0], Power(|b| - 2), Number(front[1..]));
    }
  }

  lemma Spread3(x: nat, p: nat, n: nat)
    ensures (x * p + n) * 0x100 == x * (0x100 * p) + n * 0x100
  {}

  lemma TimesMonotone(x: int, y: int, p: nat)
    requires x + 1 <= y
    ensures x * p + p <= y * p
  {
    assert (x + 1) * p <= y * p;
  }

  /** memcmp compares addresses as numbers. */
  lemma {:induction false} MemcmpIsNumeric(a: seq<byte>, b: seq<byte>)
    requires |a| == |b|
    ensures Memcmp(a, b) < 0 <==> Number(a) < Number(b)
    ensures Memcmp(a, b) == 0 <==> Number(a) == Number(b)
    ensures Memcmp(a, b) == 0 <==> a == b
  {
    if a != [] {
      NumberFront(a);
      NumberFront(b);
      WrittenRead(a[1..]);
      WrittenRead(b[1..]);
      MemcmpIsNumeric(a[1..], b[1..]);
      var p := Power(|a| - 1);
      if a[0] < b[0] {
        TimesMonotone(a[0], b[0], p);
      } else if b[0] < a[0] {
        TimesMonotone(b[0], a[0], p);
      } else {
        assert a == [a[0]] + a[1..] && b == [b[0]] + b[1..];
      }
    }
  }

  /** Type and rank identify the attribute, as mmrp_lookup compares it. */
  lemma KeysApart(k: Key, l: Key)
    requires ValidKey(k) && ValidKey(l)
    ensures k == l <==> KindOf(k) == KindOf(l) && RankOf(k) == RankOf(l)
  {
    if k.Mac? && l.Mac? {
      MemcmpIsNumeric(k.mac, l.mac);
    }
  }

  /* ---------- the list as a map ---------- */

  type MmrpAttribute = Attribute<()>

  ghost predicate InOrder(s: seq<MmrpAttribute>) {
    Grouped(s) && Ordered(s)
  }

  function At(s: seq<MmrpAttribute>, kind: nat, rank: nat): Option<MmrpAttribute> {
    if s == [] then None
    else if s[0].kind == kind && s[0].rank == rank then Some(s[0])
    else At(s[1..], kind, rank)
  }

  lemma {:induction false} AtNone(s: seq<MmrpAttribute>, kind: nat, rank: nat)
    ensures At(s, kind, rank) == None <==> forall i | 0 <= i < |s| :: s[i].kind != kind || s[i].rank != rank
  {
    if s != [] {
      AtNone(s[1..], kind, rank);
    }
  }

  lemma {:induction false} AtSpliced(s: seq<MmrpAttribute>, p: nat, a: MmrpAttribute, kind: nat, rank: nat)
    requires p <= |s| && AbsentKey(s, a)
    ensures At(s[..p] + [a] + s[p..], kind, rank)
         == if kind == a.kind && rank == a.rank then Some(a) else At(s, kind, rank)
    decreases p
  {
    var t := s[..p] + [a] + s[p..];
    if p == 0 {
      assert t == [a] + s && t[1..] == s;
    } else {
      assert t[1..] == s[1..][..p - 1] + [a] + s[1..][p - 1..];
      AtSpliced(s[1..], p - 1, a, kind, rank);
    }
  }

  /** Adding puts one key in the map and keeps the order. */
  lemma AddIsPut(s: seq<MmrpAttribute>, a: MmrpAttribute, kind: nat, rank: nat)
    requires InOrder(s) && At(s, a.kind, a.rank) == None
    ensures InOrder(Inserted(s, a))
    ensures At(Inserted(s, a), kind, rank) == if kind == a.kind && rank == a.rank then Some(a) else At(s, kind, rank)
  {
    AtNone(s, a.kind, a.rank);
    InsertedInOrder(s, a);
    AtSpliced(s, PlaceFrom(s, 0, a), a, kind, rank);
  }

  lemma {:induction false} OrderedTail(s: seq<MmrpAttribute>)
    requires InOrder(s) && s != []
    ensures InOrder(s[1..]) && At(s[1..], s[0].kind, s[0].rank) == None
  {
    AtNone(s[1..], s[0].kind, s[0].rank);
    forall i | 0 <= i < |s[1..]| ensures s[1..][i].kind != s[0].kind || s[1..][i].rank != s[0].rank {
      assert s[1..][i] == s[i + 1];
    }
  }

  /** Whatever stands before an attribute of type `kind` is of that type too. */
  ghost predicate LeadsWith(s: seq<MmrpAttribute>, kind: nat) {
    forall i, j | 0 <= i < j < |s| && s[j].kind == kind :: s[i].kind == kind
  }

  lemma {:induction false} KeptLeads(s: seq<MmrpAttribute>, kind: nat)
    requires LeadsWith(s, kind)
    ensures LeadsWith(Kept(s), kind)
  {
    if s != [] {
      KeptLeads(s[1..], kind);
      var rest := Kept(s[1..]);
      assert Kept(s) == if Reclaimable(StateOf(s[0])) then rest else [s[0]] + rest;
      forall j | 0 <= j < |rest| && rest[j].kind == kind ensures s[0].kind == kind {
        KeptIn(s[1..], rest[j]);
        var m :| 0 <= m < |s[1..]| && s[1..][m] == rest[j];
        assert s[m + 1].kind == kind;
      }
    }
  }

  lemma ConsOrdered(a: MmrpAttribute, s: seq<MmrpAttribute>)
    requires Ordered(s) && forall x | x in s && x.kind == a.kind :: a.rank < x.rank
    ensures Ordered([a] + s)
  {}

  lemma ConsGrouped(a: MmrpAttribute, s: seq<MmrpAttribute>)
    requires Grouped(s) && LeadsWith(s, a.kind)
    ensures Grouped([a] + s)
  {}

  lemma HeadLeads(s: seq<MmrpAttribute>)
    requires InOrder(s) && s != []
    ensures LeadsWith(s[1..], s[0].kind)
    ensures forall x | x in s[1..] && x.kind == s[0].kind :: s[0].rank < x.rank
  {
    forall i, j | 0 <= i < j < |s[1..]| && s[1..][j].kind == s[0].kind ensures s[1..][i].kind == s[0].kind {
      assert s[1..][j] == s[j + 1] && s[1..][i] == s[i + 1];
    }
  }

  /** Reclaiming keeps the list grouped and in order. */
  lemma {:induction false} KeptInOrder(s: seq<MmrpAttribute>)
    requires InOrder(s)
    ensures InOrder(Kept(s))
  {
    if s != [] {
      OrderedTail(s);
      KeptInOrder(s[1..]);
      HeadLeads(s);
      KeptLeads(s[1..], s[0].kind);
      var rest := Kept(s[1..]);
      forall x | x in rest && x.kind == s[0].kind ensures s[0].rank < x.rank {
        KeptIn(s[1..], x);
      }
      ConsOrdered(s[0], rest);
      ConsGrouped(s[0], rest);
      assert Kept(s) == if Reclaimable(StateOf(s[0])) then rest else [s[0]] + rest;
    }
  }

  /** Reclaiming takes exactly the keys out that nobody needs. */
  lemma {:induction false} ReclaimIsFilter(s: seq<MmrpAttribute>, kind: nat, rank: nat)
    requires InOrder(s)
    ensures At(Kept(s), kind, rank) ==
      (var o := At(s, kind, rank); if o.Some? && Reclaimable(StateOf(o.value)) then None else o)
  {
    hide Kept, At, Reclaimable, InOrder;
    if s == [] {
      NothingKept(kind, rank);
    } else {
      OrderedTail(s);
      ReclaimIsFilter(s[1..], kind, rank);
      KeptCons(s);
      AtCons(s[0], s[1..], kind, rank);
      AtCons(s[0], Kept(s[1..]), kind, rank);
      assert s == [s[0]] + s[1..];
    }
  }

  lemma NothingKept(kind: nat, rank: nat)
    ensures Kept<()>([]) == [] && At([], kind, rank) == None
  {}

  lemma KeptCons(s: seq<MmrpAttribute>)
    requires s != []
    ensures Kept(s) == if Reclaimable(StateOf(s[0])) then Kept(s[1..]) else [s[0]] + Kept(s[1..])
  {
    hide Reclaimable;
  }

  lemma AtCons(a: MmrpAttribute, s: seq<MmrpAttribute>, kind: nat, rank: nat)
    ensures At([a] + s, kind, rank) == if a.kind == kind && a.rank == rank then Some(a) else At(s, kind, rank)
  {
    assert ([a] + s)[1..] == s;
  }

  /** mmrp_lookup. */
  method Lookup(list: List<MmrpAttribute>, key: Key) returns (n: Node?<MmrpAttribute>, ghost k: nat)
    requires list.Linked() && ValidKey(key)
    ensures n != null ==> k < |list.nodes| && n == list.nodes[k]
    ensures n != null ==> At(list.Contents(), KindOf(key), RankOf(key)) == Some(n.data)
    ensures n == null ==> At(list.Contents(), KindOf(key), RankOf(key)) == None
  {
    ghost var s := list.Contents();
    n := list.head;
    k := 0;
    assert s[0..] == s;
    while n != null
      invariant 0 <= k <= |list.nodes| && n == if k < |list.nodes| then list.nodes[k] else null
      invariant At(s, KindOf(key), RankOf(key)) == At(s[k..], KindOf(key), RankOf(key))
      decreases |list.nodes| - k
    {
      assert n.data == s[k..][0] && s[k..][1..] == s[k + 1..];
      if n.data.kind == KindOf(key) && n.data.rank == RankOf(key) {
        break;
      }
      list.LinksAt(k);
      n := n.next;
      k := k + 1;
    }
  }

  /** mmrp_add after a lookup that found nothing: the key is in the map, the list linked, grouped and in order. */
  method AddNew(list: List<MmrpAttribute>, r: Node<MmrpAttribute>) returns (ghost k: nat)
    requires list.Linked() && r !in list.nodes && InOrder(list.Contents())
    requires At(list.Contents(), r.data.kind, r.data.rank) == None
    modifies list, list.nodes`prev, list.nodes`next, r`prev, r`next
    ensures list.Linked() && InOrder(list.Contents())
    ensures list.Contents() == Inserted(old(list.Contents()), r.data)
    ensures forall kind: nat, rank: nat :: (At(list.Contents(), kind, rank)
              == if kind == r.data.kind && rank == r.data.rank then Some(r.data)
                 else At(old(list.Contents()), kind, rank))
  {
    ghost var s, a := list.Contents(), r.data;
    AddIsPut(s, a, 0, 0);
    k := Add(list, r);
    forall kind: nat, rank: nat {
      AddIsPut(s, a, kind, rank);
    }
  }

  /** mmrp_reclaim: exactly the keys nobody needs leave the map; the list stays linked, grouped and in order. */
  method ReclaimAll(list: List<MmrpAttribute>)
    requires list.Linked() && InOrder(list.Contents())
    modifies list, list.nodes`prev, list.nodes`next
    ensures list.Linked() && InOrder(list.Contents())
    ensures forall kind: nat, rank: nat :: (At(list.Contents(), kind, rank) ==
              (var o := At(old(list.Contents()), kind, rank);
               if o.Some? && Reclaimable(StateOf(o.value)) then None else o))
  {
    ghost var s := list.Contents();
    Reclaim(list);
    KeptInOrder(s);
    forall kind: nat, rank: nat {
      ReclaimIsFilter(s, kind, rank);
    }
  }
}
