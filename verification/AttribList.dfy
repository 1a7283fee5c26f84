/**
The doubly linked attribute list that mvrp.c, mmrp.c and msrp.c each keep: nodes with `prev` and `next`, a head
link in the database, and the three splices their add and reclaim functions perform.
*/
module AttribList {

  class Node<T> {
    var prev: Node?<T>
    var next: Node?<T>
    var data: T

    constructor (data: T)
      ensures this.data == data && prev == null && next == null
    {
      this.data := data;
      prev, next := null, null;
    }
  }

  class List<T> {
    var head: Node?<T>
    /** The nodes in list order. */
    ghost var nodes: seq<Node<T>>

    constructor ()
      ensures Linked() && nodes == []
    {
      head := null;
      nodes := [];
    }

    static ghost predicate Distinct(ns: seq<Node<T>>) {
      forall i, j | 0 <= i < j < |ns| :: ns[i] != ns[j]
    }

    static lemma OthersDiffer(ns: seq<Node<T>>, i: nat)
      requires Distinct(ns) && i < |ns|
      ensures forall j | 0 <= j < |ns| && j != i :: ns[j] != ns[i]
    {}

    /** The node at position `i`, null outside the list. */
    static ghost function NodeAt(ns: seq<Node<T>>, i: int): Node?<T> {
      if 0 <= i < |ns| then ns[i] else null
    }

    static ghost predicate LinkedAt(ns: seq<Node<T>>, i: nat)
      requires i < |ns|
      reads ns`prev, ns`next
    {
      ns[i].next == NodeAt(ns, i + 1) && ns[i].prev == NodeAt(ns, i - 1)
    }

    /** `prev` and `next` spell out the same order, forwards and backwards, from the head to null. */
    ghost predicate Linked()
      reads this, nodes`prev, nodes`next
    {
      Distinct(nodes) && head == NodeAt(nodes, 0) && forall i | 0 <= i < |nodes| :: LinkedAt(nodes, i)
    }

    static ghost function DataOf(ns: seq<Node<T>>): (s: seq<T>)
      reads ns`data
      ensures |s| == |ns|
      ensures forall i | 0 <= i < |ns| :: s[i] == ns[i].data
    {
      if ns == [] then [] else [ns[0].data] + DataOf(ns[1..])
    }

    ghost function Contents(): (s: seq<T>)
      reads this`nodes, nodes`data
      ensures |s| == |nodes|
      ensures forall i | 0 <= i < |nodes| :: s[i] == nodes[i].data
    {
      DataOf(nodes)
    }

    lemma HeadIs()
      requires Linked()
      ensures head == if nodes == [] then null else nodes[0]
    {}

    lemma LinksAt(i: nat)
      requires Linked() && i < |nodes|
      ensures nodes[i].next == if i == |nodes| - 1 then null else nodes[i + 1]
      ensures nodes[i].prev == if i == 0 then null else nodes[i - 1]
    {
      assert LinkedAt(nodes, i);
    }

    /** Links are mutually inverse. */
    lemma MutuallyInverse(n: Node<T>)
      requires Linked() && n in nodes
      ensures n.next != null ==> n.next in nodes && n.next.prev == n
      ensures n.prev != null ==> n.prev in nodes && n.prev.next == n
    {
      var i :| 0 <= i < |nodes| && nodes[i] == n;
      LinksAt(i);
      if i + 1 < |nodes| { LinksAt(i + 1); }
      if i > 0 { LinksAt(i - 1); }
    }

    /** `k` steps along `next` from the head; null once the list is over. */
    ghost function Walk(k: nat): Node?<T>
      reads *
    {
      if k == 0 then head
      else
        var before := Walk(k - 1);
        if before == null then null else before.next
    }

    /** The list is acyclic: following `next` meets every node once, in order, and then ends. */
    lemma {:induction false} WalkVisits(k: nat)
      requires Linked()
      ensures Walk(k) == if k < |nodes| then nodes[k] else null
    {
      if k > 0 {
        WalkVisits(k - 1);
        if k - 1 < |nodes| {
          LinksAt(k - 1);
        }
      }
    }

    static lemma DistinctWith(ns: seq<Node<T>>, i: nat, n: Node<T>)
      requires Distinct(ns) && i <= |ns| && n !in ns
      ensures Distinct(ns[..i] + [n] + ns[i..])
    {}

    static lemma DistinctWithout(ns: seq<Node<T>>, i: nat)
      requires Distinct(ns) && i < |ns|
      ensures Distinct(ns[..i] + ns[i + 1..])
    {}

    method SpliceBefore(n: Node<T>, at: Node<T>, ghost i: nat)
      requires Linked() && i < |nodes| && nodes[i] == at
      requires n !in nodes
      modifies this, nodes`prev, nodes`next, n`prev, n`next
      ensures nodes == old(nodes[..i] + [n] + nodes[i..]) && Linked()
    {
      hide Distinct;
      ghost var ns := nodes;
      LinksAt(i);
      OthersDiffer(ns, i);
      if i > 0 { OthersDiffer(ns, i - 1); }
      DistinctWith(ns, i, n);
      n.next := at;
      n.prev := at.prev;
      at.prev := n;
      if n.prev != null {
        n.prev.next := n;
      } else {
        head := n;
      }
      nodes := ns[..i] + [n] + ns[i..];
      forall j | 0 <= j < |nodes| ensures LinkedAt(nodes, j) {
        if j != i {
          assert old(LinkedAt(ns, if j < i then j else j - 1));
        }
      }
    }

    method SpliceAfter(n: Node<T>, at: Node<T>, ghost i: nat)
      requires Linked() && i < |nodes| && nodes[i] == at
      requires n !in nodes
      modifies this, nodes`prev, nodes`next, n`prev, n`next
      ensures nodes == old(nodes[..i + 1] + [n] + nodes[i + 1..]) && Linked()
    {
      hide Distinct;
      ghost var ns := nodes;
      LinksAt(i);
      OthersDiffer(ns, i);
      if i + 1 < |ns| { OthersDiffer(ns, i + 1); }
      DistinctWith(ns, i + 1, n);
      n.next := at.next;
      n.prev := at;
      at.next := n;
      if n.next != null {
        n.next.prev := n;
      }
      nodes := ns[..i + 1] + [n] + ns[i + 1..];
      forall j | 0 <= j < |nodes| ensures LinkedAt(nodes, j) {
        if j != i + 1 {
          assert old(LinkedAt(ns, if j <= i then j else j - 1));
        }
      }
    }

    /** The list was empty. */
    method InsertFirst(n: Node<T>)
      requires Linked() && nodes == []
      modifies this, n`prev, n`next
      ensures nodes == [n] && Linked() && Contents() == [n.data]
    {
      n.next := null;
      n.prev := null;
      head := n;
      nodes := [n];
    }

    method SpliceOut(at: Node<T>, ghost i: nat) returns (next: Node?<T>)
      requires Linked() && i < |nodes| && nodes[i] == at
      modifies this, nodes`prev, nodes`next
      ensures nodes == old(nodes[..i] + nodes[i + 1..]) && Linked()
      ensures next == if i < |nodes| then nodes[i] else null
    {
      hide Distinct;
      ghost var ns := nodes;
      LinksAt(i);
      OthersDiffer(ns, i);
      if i > 0 { OthersDiffer(ns, i - 1); }
      if i + 1 < |ns| { OthersDiffer(ns, i + 1); }
      DistinctWithout(ns, i);
      if at.prev != null {
        at.prev.next := at.next;
      } else {
        head := at.next;
      }
      if at.next != null {
        at.next.prev := at.prev;
      }
      next := at.next;
      nodes := ns[..i] + ns[i + 1..];
      forall j | 0 <= j < |nodes| ensures LinkedAt(nodes, j) {
        assert old(LinkedAt(ns, if j < i then j else j + 1));
      }
    }

    /** Insert `n` before `at` ("head insertion"). */
    method InsertBefore(n: Node<T>, at: Node<T>, ghost i: nat)
      requires Linked() && i < |nodes| && nodes[i] == at
      requires n !in nodes
      modifies this, nodes`prev, nodes`next, n`prev, n`next
      ensures nodes == old(nodes[..i] + [n] + nodes[i..]) && Linked()
      ensures Contents() == old(Contents()[..i] + [n.data] + Contents()[i..])
    {
      hide Linked;
      SpliceBefore(n, at, i);
    }

    /** Insert `n` after `at` ("tail insertion"). */
    method InsertAfter(n: Node<T>, at: Node<T>, ghost i: nat)
      requires Linked() && i < |nodes| && nodes[i] == at
      requires n !in nodes
      modifies this, nodes`prev, nodes`next, n`prev, n`next
      ensures nodes == old(nodes[..i + 1] + [n] + nodes[i + 1..]) && Linked()
      ensures Contents() == old(Contents()[..i + 1] + [n.data] + Contents()[i + 1..])
    {
      hide Linked;
      SpliceAfter(n, at, i);
    }

    /** Take `at` out of the list and return its successor. */
    method Unlink(at: Node<T>, ghost i: nat) returns (next: Node?<T>)
      requires Linked() && i < |nodes| && nodes[i] == at
      modifies this, nodes`prev, nodes`next
      ensures nodes == old(nodes[..i] + nodes[i + 1..]) && Linked()
      ensures Contents() == old(Contents()[..i] + Contents()[i + 1..])
      ensures next == if i < |nodes| then nodes[i] else null
    {
      hide Linked;
      next := SpliceOut(at, i);
    }
  }
}
