/**
The MVRP attribute with all its fields, and lookup, add and reclaim of daemons/mrpd/mvrp.c on the attributes in list
order. MvrpList holds the linked nodes that compute these.
*/
module MvrpAttributes {
  import opened Mrp
  import opened MrpPdu
  import opened MvrpCodec
  import opened MrpParticipant
  import opened MvrpStation
  import opened MvrpPointwise

  /** struct mvrp_attribute, without the links and the diagnostic MAC address. */
  datatype Attribute = Attribute(vid: u16, applicant: Applicant, registrar: Registrar)

  /** What of an attribute outlives an event. */
  function Abs(a: Attribute): Entry {
    Entry(a.vid, Att(a.applicant.state, a.registrar.state))
  }

  function AbsAll(s: seq<Attribute>): (es: seq<Entry>)
    ensures |es| == |s|
    ensures forall i | 0 <= i < |s| :: es[i] == Abs(s[i])
  {
    seq(|s|, i requires 0 <= i < |s| => Abs(s[i]))
  }

  /** mvrp_alloc. */
  function Alloc(v: u16): Attribute {
    Attribute(v, Applicant(VO, false, SndNull, true, None), Registrar(MT, NotifyNone))
  }

  ghost predicate SortedAttrs(s: seq<Attribute>) {
    forall i, j | 0 <= i < j < |s| :: s[i].vid < s[j].vid
  }

  /** Position of the attribute with VID `v`, or the length of the list. */
  function IndexOf(s: seq<Attribute>, v: u16): (k: nat)
    ensures k <= |s|
    ensures forall i | 0 <= i < k :: s[i].vid != v
    ensures k < |s| ==> s[k].vid == v
  {
    if s == [] || s[0].vid == v then 0 else 1 + IndexOf(s[1..], v)
  }

  /** Position of the first attribute whose VID is not below `v`, or the length of the list. */
  function Place(s: seq<Attribute>, v: u16): (k: nat)
    ensures k <= |s|
    ensures forall i | 0 <= i < k :: s[i].vid < v
    ensures k < |s| ==> s[k].vid >= v
  {
    if s == [] || s[0].vid >= v then 0 else 1 + Place(s[1..], v)
  }

  /** mvrp_add. */
  function Inserted(s: seq<Attribute>, a: Attribute): (t: seq<Attribute>)
    ensures |t| == |s| + 1
  {
    var k := Place(s, a.vid);
    s[..k] + [a] + s[k..]
  }

  lemma IndexIs(s: seq<Attribute>, k: nat)
    requires SortedAttrs(s) && k < |s|
    ensures IndexOf(s, s[k].vid) == k
  {}

  lemma InsertedIs(s: seq<Attribute>, a: Attribute, k: nat)
    requires k <= |s| && (k < |s| ==> s[k].vid >= a.vid)
    requires forall i | 0 <= i < k :: s[i].vid < a.vid
    ensures Place(s, a.vid) == k && Inserted(s, a) == s[..k] + [a] + s[k..]
  {}

  lemma SortedUpdate(w: seq<Attribute>, i: nat, b: Attribute)
    requires SortedAttrs(w) && i < |w| && b.vid == w[i].vid
    ensures SortedAttrs(w[i := b]) && SortedAttrs(w[..i] + w[i + 1..])
  {}

  lemma SpliceSorted(s: seq<Attribute>, k: nat, a: Attribute)
    requires SortedAttrs(s) && k <= |s|
    requires forall i | 0 <= i < k :: s[i].vid < a.vid
    requires forall i | k <= i < |s| :: a.vid < s[i].vid
    ensures SortedAttrs(s[..k] + [a] + s[k..])
  {}

  lemma PlaceSeparates(s: seq<Attribute>, v: u16)
    requires SortedAttrs(s) && IndexOf(s, v) == |s|
    ensures forall i | Place(s, v) <= i < |s| :: v < s[i].vid
  {
    var k := Place(s, v);
    forall i | k <= i < |s| ensures v < s[i].vid {
      assert s[k].vid <= s[i].vid && s[k].vid != v;
    }
  }

  lemma InsertedSorted(s: seq<Attribute>, a: Attribute)
    requires SortedAttrs(s) && IndexOf(s, a.vid) == |s|
    ensures SortedAttrs(Inserted(s, a))
    ensures IndexOf(Inserted(s, a), a.vid) == Place(s, a.vid) && Inserted(s, a)[Place(s, a.vid)] == a
  {
    PlaceSeparates(s, a.vid);
    SpliceSorted(s, Place(s, a.vid), a);
    IndexIs(Inserted(s, a), Place(s, a.vid));
  }

  lemma {:induction false} PutAt(es: seq<Entry>, k: nat, v: u16, a: Att)
    requires Sorted(es) && k <= |es|
    requires forall i | 0 <= i < k :: es[i].vid < v
    requires forall i | k <= i < |es| :: v < es[i].vid
    ensures Put(es, v, a) == es[..k] + [Entry(v, a)] + es[k..]
    ensures Drop(es, v) == es
  {
    if k > 0 {
      PutAt(es[1..], k - 1, v, a);
      assert es[..k] == [es[0]] + es[1..][..k - 1];
      assert es[k..] == es[1..][k - 1..];
    } else {
      DropAbsent(es, v);
    }
  }

  lemma {:induction false} DropAbsent(es: seq<Entry>, v: u16)
    requires forall i | 0 <= i < |es| :: es[i].vid != v
    ensures Drop(es, v) == es
  {
    if es != [] {
      DropAbsent(es[1..], v);
    }
  }

  lemma {:induction false} PutOver(es: seq<Entry>, k: nat, a: Att)
    requires Sorted(es) && k < |es|
    ensures Put(es, es[k].vid, a) == es[k := Entry(es[k].vid, a)]
  {
    if k > 0 {
      PutOver(es[1..], k - 1, a);
      assert es[k := Entry(es[k].vid, a)] == [es[0]] + es[1..][k - 1 := Entry(es[k].vid, a)];
    } else {
      assert es[0 := Entry(es[0].vid, a)] == [Entry(es[0].vid, a)] + es[1..];
    }
  }

  lemma {:induction false} DropAt(es: seq<Entry>, k: nat)
    requires Sorted(es) && k < |es|
    ensures Drop(es, es[k].vid) == es[..k] + es[k + 1..]
  {
    hide Drop;
    DropFirst(es, es[k].vid);
    if k == 0 {
      assert es[..0] + es[1..] == es[1..];
    } else {
      assert es[0].vid < es[k].vid && es[1..][k - 1] == es[k];
      DropAt(es[1..], k - 1);
      CutFirst(es, k);
    }
  }

  lemma DropFirst(es: seq<Entry>, v: u16)
    requires es != []
    ensures Drop(es, v) == if es[0].vid == v then es[1..] else [es[0]] + Drop(es[1..], v)
  {}

  lemma CutFirst(es: seq<Entry>, k: nat)
    requires 0 < k < |es|
    ensures es[..k] + es[k + 1..] == [es[0]] + (es[1..][..k - 1] + es[1..][k..])
  {}

  lemma FindIndex(s: seq<Attribute>, v: u16)
    requires SortedAttrs(s)
    ensures Find(AbsAll(s), v) == var k := IndexOf(s, v); if k < |s| then Some(Abs(s[k]).att) else None
  {
    var k := IndexOf(s, v);
    if k < |s| {
      FindAt(AbsAll(s), k);
    } else {
      FindNone(AbsAll(s), v);
    }
  }

  /* ---------- reclaiming ---------- */

  function KeptAttrs(s: seq<Attribute>): seq<Attribute> {
    if s == [] then [] else (if Reclaimable(Abs(s[0]).att) then [] else [s[0]]) + KeptAttrs(s[1..])
  }

  lemma {:induction false} KeptAppend(s: seq<Attribute>, a: Attribute)
    ensures KeptAttrs(s + [a]) == KeptAttrs(s) + if Reclaimable(Abs(a).att) then [] else [a]
  {
    if s == [] {
      assert s + [a] == [a] && [a][1..] == [];
    } else {
      KeptAppend(s[1..], a);
      assert (s + [a])[1..] == s[1..] + [a];
    }
  }

  lemma ConsInOrder(a: Attribute, s: seq<Attribute>)
    requires SortedAttrs(s) && forall x | x in s :: a.vid < x.vid
    ensures SortedAttrs([a] + s)
  {}

  lemma {:induction false} KeptIn(s: seq<Attribute>, a: Attribute)
    ensures a in KeptAttrs(s) <==> a in s && !Reclaimable(Abs(a).att)
  {
    if s != [] {
      KeptIn(s[1..], a);
      assert a in s <==> a == s[0] || a in s[1..];
    }
  }

  lemma {:induction false} KeptSortedAttrs(s: seq<Attribute>)
    requires SortedAttrs(s)
    ensures SortedAttrs(KeptAttrs(s))
  {
    if s != [] {
      KeptSortedAttrs(s[1..]);
      forall a | a in KeptAttrs(s[1..]) ensures s[0].vid < a.vid {
        KeptIn(s[1..], a);
      }
      ConsInOrder(s[0], KeptAttrs(s[1..]));
    }
  }

  lemma {:induction false} RemovalsAppend(es: seq<Entry>, e: Entry)
    ensures Removals(es + [e]) == Removals(es) + if Reclaimable(e.att) then [Note(e.vid, NotifyLv)] else []
  {
    if es == [] {
      assert es + [e] == [e] && [e][1..] == [];
    } else {
      RemovalsAppend(es[1..], e);
      assert (es + [e])[1..] == es[1..] + [e];
    }
  }

  /** The walk has dealt with the first `k` attributes of `s` and stands at position `i` of the list `cur`. */
  ghost predicate Reclaiming(moved: seq<Attribute>, s: seq<Attribute>, k: nat, i: nat, cur: seq<Attribute>) {
    && |moved| == |s| && k <= |s|
    && i == |KeptAttrs(moved[..k])| && cur == KeptAttrs(moved[..k]) + s[k..]
  }

  lemma ReclaimStart(moved: seq<Attribute>, s: seq<Attribute>)
    requires |moved| == |s|
    ensures Reclaiming(moved, s, 0, 0, s) && Removals(AbsAll(moved[..0])) == []
  {
    assert moved[..0] == [];
  }

  lemma ReclaimStep(moved: seq<Attribute>, s: seq<Attribute>, k: nat, i: nat, cur: seq<Attribute>)
    requires Reclaiming(moved, s, k, i, cur) && i < |cur|
    ensures k < |s| && cur[i] == s[k]
    ensures var c := cur[i := moved[k]];
            if Reclaimable(Abs(moved[k]).att) then Reclaiming(moved, s, k + 1, i, c[..i] + c[i + 1..])
            else Reclaiming(moved, s, k + 1, i + 1, c)
    ensures Removals(AbsAll(moved[..k + 1])) == Removals(AbsAll(moved[..k])) +
              if Reclaimable(Abs(moved[k]).att) then [Note(moved[k].vid, NotifyLv)] else []
  {
    assert moved[..k + 1] == moved[..k] + [moved[k]];
    KeptAppend(moved[..k], moved[k]);
    RemovalsAppend(AbsAll(moved[..k]), Abs(moved[k]));
    assert AbsAll(moved[..k + 1]) == AbsAll(moved[..k]) + [Abs(moved[k])];
  }

  lemma ReclaimEnd(moved: seq<Attribute>, s: seq<Attribute>, k: nat, i: nat, cur: seq<Attribute>)
    requires Reclaiming(moved, s, k, i, cur) && i >= |cur|
    ensures k == |s| && moved[..k] == moved && cur == KeptAttrs(moved)
  {
    assert moved[..|s|] == moved;
  }

  /* ---------- one attribute's event ---------- */

  /** The list an attribute event works on: the attribute is there, added if need be. */
  function WithAttr(s: seq<Attribute>, v: u16): seq<Attribute> {
    if IndexOf(s, v) < |s| then s else Inserted(s, Alloc(v))
  }
}
