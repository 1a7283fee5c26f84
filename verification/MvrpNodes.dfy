/**
All that mvrp_event of daemons/mrpd/mvrp.c does to its attribute list, in any order and any number, on the linked nodes:
the list stays linked and sorted, and what it holds of each VID is what these operations did to that VID.
*/
module MvrpNodes {
  import opened Mrp
  import opened MrpParticipant
  import opened MvrpStation
  import opened MvrpAttributes
  import opened AttribList
  import MvrpList

  datatype ListOp =
    /** Look the VID up, and add it if it is not there. */
    | Request(vid: u16)
    /** The state machines overwrite the two halves of the attribute, if it is there. */
    | Change(vid: u16, applicant: Applicant, registrar: Registrar)
    | ReclaimOne(vid: u16)
    | ReclaimAll

  /* ---------- on the attributes in list order ---------- */

  function Apply(s: seq<Attribute>, op: ListOp): seq<Attribute> {
    match op
    case Request(v) => WithAttr(s, v)
    case Change(v, app, reg) =>
      var k := IndexOf(s, v);
      if k < |s| then s[k := Attribute(v, app, reg)] else s
    case ReclaimOne(v) =>
      var k := IndexOf(s, v);
      if k < |s| && Reclaimable(Abs(s[k]).att) then s[..k] + s[k + 1..] else s
    case ReclaimAll => KeptAttrs(s)
  }

  function ApplyAll(s: seq<Attribute>, ops: seq<ListOp>): seq<Attribute> {
    if ops == [] then s else Apply(ApplyAll(s, ops[..|ops| - 1]), ops[|ops| - 1])
  }

  lemma AllocVid(v: u16)
    ensures Alloc(v).vid == v
  {}

  /** Every operation keeps the list strictly sorted by VID. */
  lemma ApplySorted(s: seq<Attribute>, op: ListOp)
    requires SortedAttrs(s)
    ensures SortedAttrs(Apply(s, op))
  {
    hide SortedAttrs, IndexOf, Inserted, KeptAttrs, Reclaimable, Abs, Alloc;
    match op
    case Request(v) =>
      AllocVid(v);
      if IndexOf(s, v) == |s| { InsertedSorted(s, Alloc(v)); }
    case Change(v, app, reg) =>
      var k := IndexOf(s, v);
      if k < |s| { SortedUpdate(s, k, Attribute(v, app, reg)); }
    case ReclaimOne(v) =>
      var k := IndexOf(s, v);
      if k < |s| { SortedUpdate(s, k, s[k]); }
    case ReclaimAll => KeptSortedAttrs(s);
  }

  /* ---------- on one VID ---------- */

  function FindAttr(s: seq<Attribute>, v: u16): Option<Attribute> {
    var k := IndexOf(s, v);
    if k < |s| then Some(s[k]) else None
  }

  predicate Unneeded(o: Option<Attribute>) {
    o.Some? && Reclaimable(Abs(o.value).att)
  }

  /** What an operation does to one VID. */
  function Local(o: Option<Attribute>, op: ListOp, v: u16): Option<Attribute> {
    match op
    case Request(w) => if w == v && o.None? then Some(Alloc(v)) else o
    case Change(w, app, reg) => if w == v && o.Some? then Some(Attribute(v, app, reg)) else o
    case ReclaimOne(w) => if w == v && Unneeded(o) then None else o
    case ReclaimAll => if Unneeded(o) then None else o
  }

  function LocalAll(ops: seq<ListOp>, v: u16): Option<Attribute> {
    if ops == [] then None else Local(LocalAll(ops[..|ops| - 1], v), ops[|ops| - 1], v)
  }

  lemma FindMember(s: seq<Attribute>, v: u16, a: Attribute)
    requires SortedAttrs(s)
    ensures FindAttr(s, v) == Some(a) <==> a in s && a.vid == v
  {
    if a in s && a.vid == v {
      var i :| 0 <= i < |s| && s[i] == a;
      IndexIs(s, i);
    }
  }

  /** Two lists in order that agree on their attributes for a VID agree on the VID. */
  lemma SameFind(o: Option<Attribute>, p: Option<Attribute>)
    requires forall a :: o == Some(a) <==> p == Some(a)
    ensures o == p
  {
    if o.Some? {
      assert o == Some(o.value);
    }
    if p.Some? {
      assert p == Some(p.value);
    }
  }

  lemma SplicedIn(s: seq<Attribute>, k: nat, x: Attribute, a: Attribute)
    requires k <= |s|
    ensures a in s[..k] + [x] + s[k..] <==> a == x || a in s
  {
    assert s == s[..k] + s[k..];
  }

  lemma ReplacedIn(s: seq<Attribute>, k: nat, x: Attribute, a: Attribute)
    requires SortedAttrs(s) && k < |s|
    ensures a.vid != s[k].vid ==> (a in s[k := x] <==> a in s || a == x)
    ensures a.vid == s[k].vid ==> (a in s[k := x] <==> a == x)
  {
    if a in s {
      var i :| 0 <= i < |s| && s[i] == a;
      assert i != k ==> s[k := x][i] == a;
    }
    assert s[k := x][k] == x;
  }

  lemma CutIn(s: seq<Attribute>, k: nat, a: Attribute)
    requires SortedAttrs(s) && k < |s|
    ensures a in s[..k] + s[k + 1..] <==> a in s && a.vid != s[k].vid
  {
    var t := s[..k] + s[k + 1..];
    if a in s && a.vid != s[k].vid {
      var i :| 0 <= i < |s| && s[i] == a;
      assert t[if i < k then i else i - 1] == a;
    }
    if a in t {
      var i :| 0 <= i < |t| && t[i] == a;
      assert s[if i < k then i else i + 1] == a;
    }
  }

  lemma ApplyOn(s: seq<Attribute>, op: ListOp, v: u16, a: Attribute)
    requires SortedAttrs(s)
    ensures FindAttr(Apply(s, op), v) == Some(a) <==> Local(FindAttr(s, v), op, v) == Some(a)
  {
    hide SortedAttrs, IndexOf, Place, KeptAttrs, Reclaimable, Abs, Alloc;
    ApplySorted(s, op);
    FindMember(s, v, a);
    FindMember(Apply(s, op), v, a);
    match op
    case Request(w) =>
      AllocVid(w);
      if IndexOf(s, w) == |s| { SplicedIn(s, Place(s, w), Alloc(w), a); }
    case Change(w, app, reg) =>
      var k := IndexOf(s, w);
      if k < |s| { ReplacedIn(s, k, Attribute(w, app, reg), a); }
    case ReclaimOne(w) =>
      var k := IndexOf(s, w);
      if k < |s| { CutIn(s, k, a); }
    case ReclaimAll => KeptIn(s, a);
  }

  lemma ApplyIsLocal(s: seq<Attribute>, op: ListOp, v: u16)
    requires SortedAttrs(s)
    ensures FindAttr(Apply(s, op), v) == Local(FindAttr(s, v), op, v)
  {
    hide FindAttr, Apply, Local;
    forall a ensures FindAttr(Apply(s, op), v) == Some(a) <==> Local(FindAttr(s, v), op, v) == Some(a) {
      ApplyOn(s, op, v, a);
    }
    SameFind(FindAttr(Apply(s, op), v), Local(FindAttr(s, v), op, v));
  }

  /** After any operations the list is sorted, and a finite map: of each VID it holds what they did to that VID. */
  lemma {:induction false} ListIsMap(ops: seq<ListOp>, v: u16)
    ensures SortedAttrs(ApplyAll([], ops)) && FindAttr(ApplyAll([], ops), v) == LocalAll(ops, v)
  {
    hide Apply, Local;
    if ops != [] {
      var before, op := ops[..|ops| - 1], ops[|ops| - 1];
      ListIsMap(before, v);
      ApplySorted(ApplyAll([], before), op);
      ApplyIsLocal(ApplyAll([], before), op, v);
    }
  }

  /* ---------- on the linked nodes ---------- */

  lemma Spliced(all: seq<Node<Attribute>>, k: nat, r: Node<Attribute>)
    requires k <= |all|
    ensures var s := all[..k] + [r] + all[k..]; forall i | 0 <= i < |s| :: s[i] == r || s[i] in all
  {}

  method DoRequest(list: List<Attribute>, v: u16)
    requires list.Linked()
    modifies list, list.nodes`prev, list.nodes`next
    ensures list.Linked() && list.Contents() == WithAttr(old(list.Contents()), v)
    ensures forall i | 0 <= i < |list.nodes| :: list.nodes[i] in old(list.nodes) || fresh(list.nodes[i])
  {
    hide IndexOf, Inserted, Alloc, Place, List.Linked, List.Contents;
    var n, _ := MvrpList.Lookup(list, v);
    if n == null {
      AllocVid(v);
      var r := new Node(Alloc(v));
      ghost var all := list.nodes;
      ghost var k := MvrpList.Add(list, r);
      Spliced(all, k, r);
    }
  }

  method DoChange(list: List<Attribute>, v: u16, app: Applicant, reg: Registrar)
    requires list.Linked()
    modifies list.nodes`data
    ensures list.Linked() && list.Contents() == Apply(old(list.Contents()), Change(v, app, reg))
  {
    hide IndexOf, Reclaimable, Abs, WithAttr, KeptAttrs;
    ghost var k;
    var n;
    n, k := MvrpList.Lookup(list, v);
    if n != null {
      n.data := Attribute(v, app, reg);
      assert list.Contents() == old(list.Contents())[k := n.data];
    }
  }

  method DoReclaimOne(list: List<Attribute>, v: u16)
    requires list.Linked()
    modifies list, list.nodes`prev, list.nodes`next
    ensures list.Linked() && list.Contents() == Apply(old(list.Contents()), ReclaimOne(v))
    ensures forall i | 0 <= i < |list.nodes| :: list.nodes[i] in old(list.nodes)
  {
    hide IndexOf, Reclaimable, Abs, WithAttr, KeptAttrs, List.Linked, List.Contents;
    ghost var k;
    var n;
    n, k := MvrpList.Lookup(list, v);
    if n != null {
      var _, _ := MvrpList.ConditionalReclaim(list, n, k);
    }
  }

  /** One operation on the nodes. */
  method Perform(list: List<Attribute>, op: ListOp)
    requires list.Linked()
    modifies list, list.nodes
    ensures list.Linked() && list.Contents() == Apply(old(list.Contents()), op)
    ensures forall i | 0 <= i < |list.nodes| :: list.nodes[i] in old(list.nodes) || fresh(list.nodes[i])
  {
    hide IndexOf, KeptAttrs, WithAttr, Reclaimable, Abs, Alloc;
    match op {
      case Request(v) => DoRequest(list, v);
      case Change(v, app, reg) => DoChange(list, v, app, reg);
      case ReclaimOne(v) => DoReclaimOne(list, v);
      case ReclaimAll => MvrpList.Reclaim(list);
    }
  }

  /** Any sequence of them, from the empty list on. */
  method PerformAll(ops: seq<ListOp>) returns (list: List<Attribute>)
    ensures list.Linked() && list.Contents() == ApplyAll([], ops)
  {
    hide Apply;
    list := new List();
    for i := 0 to |ops|
      invariant fresh(list) && list.Linked() && list.Contents() == ApplyAll([], ops[..i])
      invariant forall i | 0 <= i < |list.nodes| :: fresh(list.nodes[i])
    {
      Perform(list, ops[i]);
      assert ops[..i + 1][..i] == ops[..i];
    }
    assert ops[..|ops|] == ops;
  }
}
