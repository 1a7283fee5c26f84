/**
The sorted-array set of daemons/common/eui64set.c: qsort after every change, bsearch to find, and removal by raising
the key to the highest value, sorting, and forgetting the last entry.
*/
module Eui64Set {
  import opened Mrp
  import opened BigEndian

  type u64 = x: int | 0 <= x < 0x1_0000_0000_0000_0000

  const ALL_ONES: u64 := 0xFFFF_FFFF_FFFF_FFFF

  /** `p` stands for the entry's payload. */
  datatype Entry = Entry(eui64: u64, p: int)

  /* ---------- network order ---------- */

  /** eui64_read and eui64_write undo each other. */
  lemma NetworkOrder(v: u64, b: seq<byte>)
    requires |b| == 8
    ensures Number(Digits(v, 8)) == v && Digits(Number(b), 8) == b
  {
    assert Power(8) == 0x1_0000_0000_0000_0000;
    ReadWritten(v, 8);
    WrittenRead(b);
  }

  /* ---------- sorting ---------- */

  ghost predicate Sorted(s: seq<Entry>) {
    forall i, j | 0 <= i < j < |s| :: s[i].eui64 <= s[j].eui64
  }

  /** What qsort may leave: any ordered arrangement of the same entries. */
  ghost predicate SortOf(s: seq<Entry>, t: seq<Entry>) {
    multiset(t) == multiset(s) && Sorted(t)
  }

  function Insert(s: seq<Entry>, e: Entry): seq<Entry> {
    if s == [] || e.eui64 <= s[0].eui64 then [e] + s else [s[0]] + Insert(s[1..], e)
  }

  lemma {:induction false} InsertAdds(s: seq<Entry>, e: Entry)
    ensures multiset(Insert(s, e)) == multiset(s) + multiset{e}
  {
    if s != [] && e.eui64 > s[0].eui64 {
      InsertAdds(s[1..], e);
      assert s == [s[0]] + s[1..];
    }
  }

  lemma ConsSorted(e: Entry, t: seq<Entry>)
    requires Sorted(t) && (t != [] ==> e.eui64 <= t[0].eui64)
    ensures Sorted([e] + t)
  {
    forall i | 0 <= i < |t| ensures e.eui64 <= t[i].eui64 {
      assert t[0].eui64 <= t[i].eui64;
    }
  }

  lemma {:induction false} InsertSorts(s: seq<Entry>, e: Entry)
    requires Sorted(s)
    ensures Sorted(Insert(s, e)) && Insert(s, e) != []
    ensures Insert(s, e)[0].eui64 == e.eui64 || (s != [] && Insert(s, e)[0] == s[0])
  {
    if s == [] || e.eui64 <= s[0].eui64 {
      ConsSorted(e, s);
    } else {
      InsertSorts(s[1..], e);
      ConsSorted(s[0], Insert(s[1..], e));
    }
  }

  function Sort(s: seq<Entry>): seq<Entry> {
    if s == [] then [] else Insert(Sort(s[..|s| - 1]), s[|s| - 1])
  }

  lemma SameSize(s: seq<Entry>, t: seq<Entry>)
    requires multiset(s) == multiset(t)
    ensures |s| == |t|
  {
    assert |s| == |multiset(s)| == |multiset(t)| == |t|;
  }

  lemma {:induction false} SortSorts(s: seq<Entry>)
    ensures SortOf(s, Sort(s)) && |Sort(s)| == |s|
  {
    if s != [] {
      hide Sorted, Insert;
      var front, last := s[..|s| - 1], s[|s| - 1];
      SortSorts(front);
      InsertSorts(Sort(front), last);
      InsertAdds(Sort(front), last);
      assert s == front + [last];
      SameSize(Sort(s), s);
    }
  }

  /* ---------- keys ---------- */

  function Keys(s: seq<Entry>): (k: seq<u64>)
    ensures |k| == |s|
    ensures forall i | 0 <= i < |s| :: k[i] == s[i].eui64
  {
    seq(|s|, i requires 0 <= i < |s| => s[i].eui64)
  }

  lemma Cut<X>(s: seq<X>, j: nat)
    requires j < |s|
    ensures multiset(s[..j] + s[j + 1..]) == multiset(s) - multiset{s[j]} && s[j] in multiset(s)
  {
    var a, b := s[..j], s[j + 1..];
    assert s == a + ([s[j]] + b);
    assert multiset(s) == multiset(a) + (multiset{s[j]} + multiset(b));
    assert multiset(a + b) == multiset(a) + multiset(b);
  }

  lemma Without(s: seq<Entry>, j: nat)
    requires j < |s|
    ensures multiset(s[..j] + s[j + 1..]) == multiset(s) - multiset{s[j]}
    ensures multiset(Keys(s[..j] + s[j + 1..])) == multiset(Keys(s)) - multiset{s[j].eui64}
  {
    Cut(s, j);
    Cut(Keys(s), j);
    assert Keys(s[..j] + s[j + 1..]) == Keys(s)[..j] + Keys(s)[j + 1..];
  }

  lemma KeyIn(s: seq<Entry>, j: nat)
    requires j < |s|
    ensures s[j].eui64 in multiset(Keys(s))
  {
    assert Keys(s)[j] in multiset(Keys(s));
  }

  lemma SameAgain(a: multiset<u64>, b: multiset<u64>, x: u64)
    requires x in a && x in b && a - multiset{x} == b - multiset{x}
    ensures a == b
  {
    assert a == a - multiset{x} + multiset{x};
    assert b == b - multiset{x} + multiset{x};
  }

  lemma KeyReplaced(s: seq<Entry>, k: nat, key: u64)
    requires k < |s|
    ensures multiset(Keys(s[k := s[k].(eui64 := key)])) - multiset{key} == multiset(Keys(s)) - multiset{s[k].eui64}
  {
    var t := s[k := s[k].(eui64 := key)];
    Without(s, k);
    Without(t, k);
    assert t[..k] + t[k + 1..] == s[..k] + s[k + 1..];
  }

  /** Whatever arrangement qsort leaves, the keys are the same. */
  lemma {:induction false} SortKeepsKeys(s: seq<Entry>, t: seq<Entry>)
    requires multiset(s) == multiset(t)
    ensures multiset(Keys(s)) == multiset(Keys(t)) && |s| == |t|
  {
    SameLength(s, t);
    if s == [] {
      assert Keys(s) == [] && Keys(t) == [];
    } else {
      var j := Occurrence(t, s[0]);
      RestSame(s, t, j);
      SortKeepsKeys(s[1..], t[..j] + t[j + 1..]);
      KeysSame(s, t, j);
    }
  }

  lemma RestSame(s: seq<Entry>, t: seq<Entry>, j: nat)
    requires multiset(s) == multiset(t) && s != [] && j < |t| && t[j] == s[0]
    ensures multiset(s[1..]) == multiset(t[..j] + t[j + 1..])
  {
    Cut(s, 0);
    Cut(t, j);
    DropFirst(s);
  }

  lemma DropFirst<X>(s: seq<X>)
    requires s != []
    ensures s[..0] + s[1..] == s[1..]
  {}

  lemma KeysSame(s: seq<Entry>, t: seq<Entry>, j: nat)
    requires s != [] && j < |t| && t[j] == s[0] && multiset(Keys(s[1..])) == multiset(Keys(t[..j] + t[j + 1..]))
    ensures multiset(Keys(s)) == multiset(Keys(t))
  {
    hide Keys;
    Without(s, 0);
    Without(t, j);
    KeyIn(s, 0);
    KeyIn(t, j);
    DropFirst(s);
    SameAgain(multiset(Keys(s)), multiset(Keys(t)), s[0].eui64);
  }

  lemma SameLength(s: seq<Entry>, t: seq<Entry>)
    requires multiset(s) == multiset(t)
    ensures |s| == |t| && (s != [] ==> s[0] in t)
  {
    SameSize(s, t);
    assert s != [] ==> s[0] in multiset(t);
  }

  lemma Occurrence(t: seq<Entry>, e: Entry) returns (j: nat)
    requires e in t
    ensures j < |t| && t[j] == e
  {
    j :| 0 <= j < |t| && t[j] == e;
  }

  /* ---------- removal ---------- */

  /** Raise the key of entry `k`, sort in whatever way, forget the last entry. */
  ghost predicate RemovedBy(s: seq<Entry>, k: nat, r: seq<Entry>)
    requires k < |s|
  {
    exists t :: SortOf(s[k := s[k].(eui64 := ALL_ONES)], t) && |t| == |s| && r == t[..|t| - 1]
  }

  lemma LastIsAllOnes(s: seq<Entry>, t: seq<Entry>)
    requires SortOf(s, t) && t != [] && exists e :: e in s && e.eui64 == ALL_ONES
    ensures t[|t| - 1].eui64 == ALL_ONES
  {
    var e :| e in s && e.eui64 == ALL_ONES;
    assert e in multiset(t);
    var j :| 0 <= j < |t| && t[j] == e;
    assert t[j].eui64 <= t[|t| - 1].eui64;
  }

  /** However the sort arranges equal keys, exactly one occurrence of the key goes, all-ones keys or not. */
  lemma RemovesOneKey(s: seq<Entry>, k: nat, r: seq<Entry>)
    requires k < |s| && RemovedBy(s, k, r)
    ensures multiset(Keys(r)) == multiset(Keys(s)) - multiset{s[k].eui64} && Sorted(r)
  {
    hide Keys, Sorted;
    var marked := s[k := s[k].(eui64 := ALL_ONES)];
    var t :| SortOf(marked, t) && |t| == |s| && r == t[..|t| - 1];
    assert marked[k] in marked;
    LastIsAllOnes(marked, t);
    SortKeepsKeys(marked, t);
    FrontKeys(t);
    KeyReplaced(s, k, ALL_ONES);
  }

  lemma FrontKeys(t: seq<Entry>)
    requires t != [] && Sorted(t)
    ensures var last := |t| - 1;
      Sorted(t[..last]) && multiset(Keys(t[..last])) == multiset(Keys(t)) - multiset{t[last].eui64}
  {
    var last := |t| - 1;
    assert Sorted(t[..last]);
    hide Keys, Sorted;
    Without(t, last);
    assert t[..last] + t[last + 1..] == t[..last];
  }

  /** Another entry with the all-ones key could be dropped in place of entry `k` only if it carried something else. */
  ghost predicate Unambiguous(s: seq<Entry>, k: nat)
    requires k < |s|
  {
    forall i | 0 <= i < |s| && i != k :: s[i].eui64 == ALL_ONES ==> s[i].p == s[k].p
  }

  lemma Replaced(s: seq<Entry>, k: nat, e: Entry)
    requires k < |s|
    ensures multiset(s[k := e]) - multiset{e} == multiset(s) - multiset{s[k]}
  {
    Without(s, k);
    Without(s[k := e], k);
    assert s[k := e][..k] + s[k := e][k + 1..] == s[..k] + s[k + 1..];
  }

  lemma RemovesThatEntry(s: seq<Entry>, k: nat, r: seq<Entry>)
    requires k < |s| && Unambiguous(s, k) && RemovedBy(s, k, r)
    ensures multiset(r) == multiset(s) - multiset{s[k]}
  {
    var m := s[k].(eui64 := ALL_ONES);
    var marked := s[k := m];
    var t :| SortOf(marked, t) && |t| == |s| && r == t[..|t| - 1];
    assert marked[k] in marked;
    LastIsAllOnes(marked, t);
    var last := |t| - 1;
    assert t[last] in multiset(marked);
    var i :| 0 <= i < |marked| && marked[i] == t[last];
    assert t[last] == m;
    assert t[..last] + t[last + 1..] == r;
    Without(t, last);
    Replaced(s, k, m);
  }

  lemma MinusDiffers(m: multiset<Entry>, a: Entry, b: Entry)
    requires a in m && a != b
    ensures m - multiset{a} != m - multiset{b}
  {
    assert (m - multiset{a})[a] == m[a] - 1;
    assert (m - multiset{b})[a] == m[a];
  }

  lemma TopLast(t: seq<Entry>, e: Entry)
    requires Sorted(t) && e.eui64 == ALL_ONES
    ensures Sorted(t + [e])
  {}

  lemma PutBack(m: multiset<Entry>, e: Entry)
    requires e in m
    ensures m - multiset{e} + multiset{e} == m
  {}

  /** Entry `i`, whose key is the highest there is, may end up last. */
  lemma MaySortLast(s: seq<Entry>, i: nat) returns (t: seq<Entry>)
    requires i < |s| && s[i].eui64 == ALL_ONES
    ensures SortOf(s, t) && |t| == |s| && t[|t| - 1] == s[i]
    ensures multiset(t[..|t| - 1]) == multiset(s) - multiset{s[i]}
  {
    var others := s[..i] + s[i + 1..];
    Without(s, i);
    SortSorts(others);
    TopLast(Sort(others), s[i]);
    t := Sort(others) + [s[i]];
    assert t[..|t| - 1] == Sort(others);
    Cut(s, i);
    PutBack(multiset(s), s[i]);
  }

  /** A sort that puts entry `i` last, although entry `k` was meant to go. */
  lemma WrongEntryGoes(s: seq<Entry>, k: nat, i: nat) returns (r: seq<Entry>)
    requires k < |s| && i < |s| && i != k && s[i].eui64 == ALL_ONES && s[i].p != s[k].p
    ensures RemovedBy(s, k, r) && multiset(r) != multiset(s) - multiset{s[k]}
  {
    var m := s[k].(eui64 := ALL_ONES);
    var marked := s[k := m];
    var t := MaySortLast(marked, i);
    r := t[..|t| - 1];
    Replaced(s, k, m);
    assert marked[i] in multiset(marked);
    MinusDiffers(multiset(marked), s[i], m);
  }

  /** Removal takes the entry it found, payload included, under every sort, exactly when that entry is unambiguous. */
  lemma RemovalIsExact(s: seq<Entry>, k: nat)
    requires k < |s|
    ensures Unambiguous(s, k) <==> forall r | RemovedBy(s, k, r) :: multiset(r) == multiset(s) - multiset{s[k]}
  {
    if Unambiguous(s, k) {
      forall r | RemovedBy(s, k, r) ensures multiset(r) == multiset(s) - multiset{s[k]} {
        RemovesThatEntry(s, k, r);
      }
    } else {
      var i :| 0 <= i < |s| && i != k && s[i].eui64 == ALL_ONES && s[i].p != s[k].p;
      var r := WrongEntryGoes(s, k, i);
    }
  }

  /* ---------- the set ---------- */

  class Set {
    const storage: array<Entry>
    var numEntries: nat

    /** eui64set_init. */
    constructor (maxEntries: nat)
      ensures Valid() && storage.Length == maxEntries && Contents() == [] && fresh(storage)
    {
      storage := new Entry[maxEntries](_ => Entry(0, 0));
      numEntries := 0;
    }

    ghost predicate Valid()
      reads this
    {
      numEntries <= storage.Length
    }

    function Contents(): (s: seq<Entry>)
      reads this, storage
      requires Valid()
    {
      storage[..numEntries]
    }

    method Clear()
      requires Valid()
      modifies this`numEntries
      ensures Valid() && Contents() == []
    {
      numEntries := 0;
    }

    method IsFull() returns (full: bool)
      requires Valid()
      ensures full <==> |Contents()| == storage.Length
    {
      full := numEntries >= storage.Length;
    }

    /** eui64set_insert: an entry at the end, if there is room. */
    method Insert(value: u64, p: int) returns (inserted: bool)
      requires Valid()
      modifies this`numEntries, storage
      ensures Valid() && (inserted <==> |old(Contents())| < storage.Length)
      ensures Contents() == if inserted then old(Contents()) + [Entry(value, p)] else old(Contents())
    {
      inserted := numEntries < storage.Length;
      if inserted {
        storage[numEntries] := Entry(value, p);
        numEntries := numEntries + 1;
      }
    }

    /** eui64set_sort. */
    method SortStorage()
      requires Valid()
      modifies storage
      ensures SortOf(old(Contents()), Contents())
    {
      ghost var s := Contents();
      var t := Sort(storage[..numEntries]);
      SortSorts(s);
      forall i | 0 <= i < numEntries {
        storage[i] := t[i];
      }
      assert Contents() == t;
    }

    method InsertAndSort(value: u64, p: int) returns (inserted: bool)
      requires Valid() && Sorted(Contents())
      modifies this`numEntries, storage
      ensures Valid() && Sorted(Contents()) && (inserted <==> |old(Contents())| < storage.Length)
      ensures multiset(Contents())
           == multiset(old(Contents())) + if inserted then multiset{Entry(value, p)} else multiset{}
    {
      inserted := Insert(value, p);
      if inserted {
        SortStorage();
      }
    }

    /** bsearch, as eui64set_find and eui64set_remove_and_sort use it: null (None) exactly when the key is absent. */
    method Find(value: u64) returns (k: Option<nat>)
      requires Valid() && Sorted(Contents())
      ensures k.Some? ==> k.value < |Contents()| && Contents()[k.value].eui64 == value
      ensures k.Some? <==> value in Keys(Contents())
    {
      var lo, hi := 0, numEntries;
      k := None;
      while lo < hi
        invariant 0 <= lo <= hi <= numEntries
        invariant forall i | 0 <= i < lo :: storage[i].eui64 < value
        invariant forall i | hi <= i < numEntries :: value < storage[i].eui64
      {
        var mid := (lo + hi) / 2;
        assert Contents()[mid] == storage[mid];
        if storage[mid].eui64 == value {
          k := Some(mid);
          KeyPresent(Contents(), mid);
          break;
        }
        SortedSplit(Contents(), mid);
        if storage[mid].eui64 < value {
          lo := mid + 1;
        } else {
          hi := mid;
        }
      }
      if k.None? {
        assert forall i | 0 <= i < |Contents()| :: Keys(Contents())[i] == storage[i].eui64;
      }
    }

    /** The entry found is raised to the top, and the top goes. */
    method RemoveAt(k: nat)
      requires Valid() && k < |Contents()|
      modifies this`numEntries, storage
      ensures Valid() && RemovedBy(old(Contents()), k, Contents())
    {
      hide Sorted, Keys;
      ghost var s := Contents();
      storage[k] := storage[k].(eui64 := ALL_ONES);
      ghost var marked := s[k := s[k].(eui64 := ALL_ONES)];
      assert Contents() == marked;
      SortStorage();
      ghost var t := Contents();
      SortKeepsKeys(marked, t);
      numEntries := numEntries - 1;
      assert Contents() == t[..|t| - 1];
    }

    /** eui64set_remove_and_sort. */
    method RemoveAndSort(value: u64) returns (removed: bool, ghost at: nat)
      requires Valid() && Sorted(Contents())
      modifies this`numEntries, storage
      ensures Valid() && Sorted(Contents()) && (removed <==> value in Keys(old(Contents())))
      ensures multiset(Keys(Contents())) == multiset(Keys(old(Contents()))) - multiset{value}
      ensures !removed ==> Contents() == old(Contents())
      ensures removed ==> at < |old(Contents())| && old(Contents())[at].eui64 == value
                          && RemovedBy(old(Contents()), at, Contents())
    {
      ghost var s := Contents();
      var k := Find(value);
      removed, at := k.Some?, 0;
      if removed {
        at := k.value;
        RemoveAt(k.value);
        RemovesOneKey(s, k.value, Contents());
      } else {
        assert value !in multiset(Keys(s));
      }
    }
  }

  lemma KeyPresent(s: seq<Entry>, k: nat)
    requires k < |s|
    ensures s[k].eui64 in Keys(s)
  {
    assert Keys(s)[k] == s[k].eui64;
  }

  lemma SortedSplit(s: seq<Entry>, k: nat)
    requires Sorted(s) && k < |s|
    ensures forall i | 0 <= i < k :: s[i].eui64 <= s[k].eui64
    ensures forall i | k < i < |s| :: s[k].eui64 <= s[i].eui64
  {}
}
