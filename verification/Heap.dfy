/**
 * The keyed heap of pending workloads (pkg/util/heap/heap.go) under the queue ordering
 * (pkg/queue/cluster_queue_strict_fifo.go).
 */
module Heaps {
  import opened Model

  // ---------- the ordering ----------

  /** Higher priority first, then earlier timestamp. A workload comes before itself: the relation is reflexive. */
  predicate Before(a: Info, b: Info) {
    if a.obj.spec.priority != b.obj.spec.priority then a.obj.spec.priority > b.obj.spec.priority
    else !(b.obj.QueueOrderTimestamp() < a.obj.QueueOrderTimestamp())
  }

  lemma BeforeIsTotalPreorder(a: Info, b: Info, c: Info)
    ensures Before(a, a) && (Before(a, b) || Before(b, a)) && (Before(a, b) && Before(b, c) ==> Before(a, c))
  {
  }

  // ---------- heap order on the array of objects ----------

  function Parent(i: nat): nat { if i == 0 then 0 else (i - 1) / 2 }

  ghost predicate Ordered(o: seq<Info>, n: nat)
    requires n <= |o|
  {
    forall k :: 1 <= k < n ==> Before(o[Parent(k)], o[k])
  }

  /** Ordered except between j and its parent; what lies below j is also below j's parent. */
  ghost predicate OrderedBelow(o: seq<Info>, n: nat, j: nat)
    requires n <= |o|
  {
    && (forall k :: 1 <= k < n && k != j ==> Before(o[Parent(k)], o[k]))
    && (forall k :: 1 <= k < n && Parent(k) == j && 0 < j ==> Before(o[Parent(j)], o[k]))
  }

  /** Ordered except around i: between i and its children, and, until something has moved, between i and its parent. */
  ghost predicate OrderedAround(o: seq<Info>, n: nat, i: nat, moved: bool)
    requires n <= |o|
  {
    && (forall k :: 1 <= k < n && Parent(k) != i && (k != i || moved) ==> Before(o[Parent(k)], o[k]))
    && (forall k :: 1 <= k < n && Parent(k) == i && 0 < i ==> Before(o[Parent(i)], o[k]))
  }

  function Swapped(o: seq<Info>, i: nat, j: nat): seq<Info>
    requires i < |o| && j < |o|
  {
    o[i := o[j]][j := o[i]]
  }

  lemma UpStep(o: seq<Info>, n: nat, j: nat)
    requires 0 < j < n <= |o| && OrderedBelow(o, n, j) && Before(o[j], o[Parent(j)])
    ensures OrderedBelow(Swapped(o, Parent(j), j), n, Parent(j))
  {
    hide Before;
    var i, o' := Parent(j), Swapped(o, Parent(j), j);
    forall k | 1 <= k < n && k != i ensures Before(o'[Parent(k)], o'[k]) {
      if Parent(k) == i && k != j { BeforeIsTotalPreorder(o[j], o[i], o[k]); }
    }
    forall k | 1 <= k < n && Parent(k) == i && 0 < i ensures Before(o'[Parent(i)], o'[k]) {
      BeforeIsTotalPreorder(o[Parent(i)], o[i], o[k]);
    }
  }

  lemma UpDone(o: seq<Info>, n: nat, j: nat)
    requires j < n <= |o| && OrderedBelow(o, n, j) && (j == 0 || !Before(o[j], o[Parent(j)]))
    ensures Ordered(o, n)
  {
    hide Before;
    BeforeIsTotalPreorder(o[j], o[Parent(j)], o[j]);
  }

  /** c is the child of i that comes first. */
  ghost predicate IsFirstChild(o: seq<Info>, n: nat, i: nat, c: nat)
    requires n <= |o|
  {
    c < n && 0 < c && Parent(c) == i && forall k :: 1 <= k < n && Parent(k) == i ==> Before(o[c], o[k])
  }

  lemma DownStep(o: seq<Info>, n: nat, i: nat, c: nat, moved: bool)
    requires i < n <= |o| && OrderedAround(o, n, i, moved) && IsFirstChild(o, n, i, c) && Before(o[c], o[i])
    ensures OrderedAround(Swapped(o, i, c), n, c, true)
  {
    hide Before;
    var o' := Swapped(o, i, c);
    forall k | 1 <= k < n && Parent(k) != c ensures Before(o'[Parent(k)], o'[k]) {
    }
  }

  lemma DownDone(o: seq<Info>, n: nat, i: nat, moved: bool)
    requires i < n <= |o| && OrderedAround(o, n, i, moved)
    requires forall k :: 1 <= k < n && Parent(k) == i ==> Before(o[i], o[k])
    ensures moved || i == 0 ==> Ordered(o, n)
    ensures OrderedBelow(o, n, i)
  {
    hide Before;
  }

  lemma {:induction false} RootIsFirst(o: seq<Info>, n: nat, i: nat)
    requires i < n <= |o| && Ordered(o, n)
    ensures Before(o[0], o[i])
    decreases i
  {
    if i > 0 {
      RootIsFirst(o, n, Parent(i));
      BeforeIsTotalPreorder(o[0], o[Parent(i)], o[i]);
    }
  }

  // ---------- the object ----------

  datatype HeapItem = HeapItem(obj: Info, index: int)

  /** The key slice and the index map are inverse to each other. */
  ghost predicate IndexedBy(keys: seq<Name>, items: map<Name, HeapItem>) {
    && (forall i :: 0 <= i < |keys| ==> keys[i] in items && items[keys[i]].index == i)
    && (forall k :: k in items ==>
          0 <= items[k].index < |keys| && keys[items[k].index] == k && items[k].obj.obj.key == k)
  }

  ghost function ObjsOf(keys: seq<Name>, items: map<Name, HeapItem>): seq<Info>
    requires IndexedBy(keys, items)
  {
    seq(|keys|, i requires 0 <= i < |keys| => items[keys[i]].obj)
  }

  function SwapKeys(keys: seq<Name>, i: nat, j: nat): seq<Name>
    requires i < |keys| && j < |keys|
  {
    keys[i := keys[j]][j := keys[i]]
  }

  ghost function SwapItems(keys: seq<Name>, items: map<Name, HeapItem>, i: nat, j: nat): map<Name, HeapItem>
    requires IndexedBy(keys, items) && i < |keys| && j < |keys|
  {
    var ks := SwapKeys(keys, i, j);
    var items' := items[ks[i] := items[ks[i]].(index := i)];
    items'[ks[j] := items'[ks[j]].(index := j)]
  }

  lemma SwapIndexed(keys: seq<Name>, items: map<Name, HeapItem>, i: nat, j: nat)
    requires IndexedBy(keys, items) && i < |keys| && j < |keys|
    ensures IndexedBy(SwapKeys(keys, i, j), SwapItems(keys, items, i, j))
    ensures SwapItems(keys, items, i, j).Keys == items.Keys
    ensures forall k :: k in items ==> SwapItems(keys, items, i, j)[k].obj == items[k].obj
  {
    hide SwapItems;
    SwapKeepsItems(keys, items, i, j);
    forall k | 0 <= k < |keys|
      ensures var ks, items' := SwapKeys(keys, i, j), SwapItems(keys, items, i, j);
              ks[k] in items' && items'[ks[k]].index == k
    {
      SwappedIndex(keys, items, i, j, k);
    }
    SwapIsOnto(keys, i, j);
  }

  lemma SwapKeepsItems(keys: seq<Name>, items: map<Name, HeapItem>, i: nat, j: nat)
    requires IndexedBy(keys, items) && i < |keys| && j < |keys|
    ensures SwapItems(keys, items, i, j).Keys == items.Keys
    ensures forall k :: k in items ==> SwapItems(keys, items, i, j)[k].obj == items[k].obj
  {
  }

  lemma SwappedIndex(keys: seq<Name>, items: map<Name, HeapItem>, i: nat, j: nat, k: nat)
    requires IndexedBy(keys, items) && i < |keys| && j < |keys| && k < |keys|
    ensures SwapKeys(keys, i, j)[k] in SwapItems(keys, items, i, j)
    ensures SwapItems(keys, items, i, j)[SwapKeys(keys, i, j)[k]].index == k
  {
  }

  lemma SwapIsOnto(keys: seq<Name>, i: nat, j: nat)
    requires i < |keys| && j < |keys|
    ensures forall k :: 0 <= k < |keys| ==>
              keys[k] == SwapKeys(keys, i, j)[if k == i then j else if k == j then i else k]
  {
  }

  lemma SwapObjs(keys: seq<Name>, items: map<Name, HeapItem>, i: nat, j: nat)
    requires IndexedBy(keys, items) && i < |keys| && j < |keys|
    requires IndexedBy(SwapKeys(keys, i, j), SwapItems(keys, items, i, j))
    requires forall k :: k in items ==>
               k in SwapItems(keys, items, i, j) && SwapItems(keys, items, i, j)[k].obj == items[k].obj
    ensures ObjsOf(SwapKeys(keys, i, j), SwapItems(keys, items, i, j)) == Swapped(ObjsOf(keys, items), i, j)
  {
    hide SwapItems;
  }

  class Heap {
    var items: map<Name, HeapItem>
    var keys: seq<Name>

    ghost predicate Indexed() reads this {
      IndexedBy(keys, items)
    }

    /** The objects in slice order. */
    ghost function Objs(): seq<Info>
      requires Indexed()
      reads this
    {
      ObjsOf(keys, items)
    }

    function Contents(): map<Name, Info> reads this {
      map k | k in items :: items[k].obj
    }

    ghost predicate Valid() reads this {
      Indexed() && Ordered(Objs(), |keys|)
    }

    constructor ()
      ensures Valid() && Contents() == map[]
    {
      items, keys := map[], [];
    }

    predicate Less(i: nat, j: nat)
      requires i < |keys| && j < |keys| && Indexed()
      reads this
    {
      Before(items[keys[i]].obj, items[keys[j]].obj)
    }

    method Swap(i: nat, j: nat)
      requires Indexed() && i < |keys| && j < |keys|
      modifies this
      ensures Indexed() && |keys| == old(|keys|) && Contents() == old(Contents())
      ensures Objs() == Swapped(old(Objs()), i, j)
      ensures keys == old(keys)[i := old(keys[j])][j := old(keys[i])]
    {
      keys := SwapKeys(keys, i, j);
      items := items[keys[i] := items[keys[i]].(index := i)];
      items := items[keys[j] := items[keys[j]].(index := j)];
      SwapIndexed(old(keys), old(items), i, j);
      SwapObjs(old(keys), old(items), i, j);
    }

    /** Sifts up; the order concerns the first n objects only. */
    method Up(start: nat, ghost n: nat)
      requires Indexed() && start < n <= |keys| && OrderedBelow(Objs(), n, start)
      modifies this
      ensures Indexed() && Contents() == old(Contents()) && |keys| == old(|keys|)
      ensures Ordered(Objs(), n) && keys[n..] == old(keys)[n..]
    {
      hide Before;
      var j: nat := start;
      while true
        invariant Indexed() && j < n <= |keys| == old(|keys|) && Contents() == old(Contents())
        invariant OrderedBelow(Objs(), n, j) && keys[n..] == old(keys)[n..]
        decreases j
      {
        var i := Parent(j);
        if i == j || !Less(j, i) {
          break;
        }
        UpStep(Objs(), n, j);
        Swap(i, j);
        j := i;
      }
      UpDone(Objs(), n, j);
    }

    method FirstChild(i: nat, n: nat) returns (c: nat)
      requires Indexed() && 2 * i + 1 < n <= |keys|
      ensures IsFirstChild(Objs(), n, i, c)
    {
      hide Before;
      c := 2 * i + 1;
      BeforeIsTotalPreorder(Objs()[c], Objs()[c], Objs()[c]);
      if c + 1 < n {
        BeforeIsTotalPreorder(Objs()[c], Objs()[c + 1], Objs()[c]);
        BeforeIsTotalPreorder(Objs()[c + 1], Objs()[c + 1], Objs()[c]);
        if Less(c + 1, c) {
          c := c + 1;
        }
      }
    }

    /** Sifts down within the first n objects; the objects from n on stay where they are. */
    method Down(start: nat, n: nat) returns (moved: bool)
      requires Indexed() && start < n <= |keys| && OrderedAround(Objs(), n, start, false)
      modifies this
      ensures Indexed() && Contents() == old(Contents()) && |keys| == old(|keys|)
      ensures keys[n..] == old(keys)[n..]
      ensures moved || start == 0 ==> Ordered(Objs(), n)
      ensures !moved ==> OrderedBelow(Objs(), n, start)
    {
      hide Before;
      var i: nat := start;
      while 2 * i + 1 < n
        invariant Indexed() && start <= i < n <= |keys| == old(|keys|) && Contents() == old(Contents())
        invariant keys[n..] == old(keys)[n..]
        invariant OrderedAround(Objs(), n, i, i > start)
        decreases n - i
      {
        var c := FirstChild(i, n);
        if !Less(c, i) {
          NothingBelow(Objs(), n, i, c);
          break;
        }
        DownStep(Objs(), n, i, c, i > start);
        Swap(i, c);
        i := c;
      }
      moved := i > start;
      DownDone(Objs(), n, i, moved);
    }

    /** heap.Fix, after the object at i has changed. */
    method Fix(i: nat)
      requires Indexed() && i < |keys| && OrderedAround(Objs(), |keys|, i, false)
      modifies this
      ensures Valid() && Contents() == old(Contents())
    {
      var moved := Down(i, |keys|);
      if !moved {
        Up(i, |keys|);
      }
    }

    method Append(k: Name, obj: Info)
      requires Valid() && k !in items && obj.obj.key == k
      modifies this
      ensures Valid() && Contents() == old(Contents())[k := obj]
    {
      hide Before;
      ghost var o := Objs();
      var n := |keys|;
      items := items[k := HeapItem(obj, |keys|)];
      keys := keys + [k];
      assert Objs() == o + [obj];
      assert Contents() == old(Contents())[k := obj];
      Up(n, n + 1);
    }

    /** Takes the last object out of the slice and the index. */
    method TakeLast() returns (obj: Info)
      requires Indexed() && |keys| > 0
      modifies this
      ensures Indexed() && |keys| == old(|keys|) - 1 && Objs() == old(Objs())[..|keys|]
      ensures obj == old(Contents()[keys[|keys| - 1]]) && Contents() == old(Contents()) - {old(keys)[|keys|]}
    {
      var k := keys[|keys| - 1];
      keys := keys[..|keys| - 1];
      obj := items[k].obj;
      items := items - {k};
    }

    method PushOrUpdate(obj: Info)
      requires Valid()
      modifies this
      ensures Valid() && Contents() == old(Contents())[obj.obj.key := obj]
    {
      hide Before;
      var k := obj.obj.key;
      if k in items {
        ghost var o, i := Objs(), items[k].index;
        items := items[k := items[k].(obj := obj)];
        assert Objs() == o[i := obj];
        assert Contents() == old(Contents())[k := obj];
        ChangedAt(o, i, obj);
        Fix(items[k].index);
      } else {
        Append(k, obj);
      }
    }

    method PushIfNotPresent(obj: Info) returns (added: bool)
      requires Valid()
      modifies this
      ensures Valid() && added == (obj.obj.key !in old(Contents()))
      ensures Contents() == if added then old(Contents())[obj.obj.key := obj] else old(Contents())
    {
      if obj.obj.key in items {
        return false;
      }
      Append(obj.obj.key, obj);
      return true;
    }

    method Delete(k: Name)
      requires Valid()
      modifies this
      ensures Valid() && Contents() == old(Contents()) - {k}
    {
      if k in items {
        RemoveAt(items[k].index);
      } else {
        assert Contents() - {k} == Contents();
      }
    }

    /** heap.Remove. */
    method RemoveAt(i: nat)
      requires Valid() && i < |keys|
      modifies this
      ensures Valid() && Contents() == old(Contents()) - {old(keys[i])}
    {
      hide Before, OrderedBelow, OrderedAround, Ordered;
      var n := |keys| - 1;
      if n != i {
        RemovedAt(Objs(), i, n);
        Swap(i, n);
        var moved := Down(i, n);
        if !moved {
          Up(i, n);
        }
      } else {
        OrderedShorter(Objs(), n);
      }
      assert keys[n..][0] == keys[n];
      OrderedPrefix(Objs(), n);
      var last := TakeLast();
    }

    /** Removes and returns an object that comes before every other. */
    method Pop() returns (obj: Info)
      requires Valid() && |keys| > 0
      modifies this
      ensures Valid() && obj.obj.key in old(Contents()) && old(Contents())[obj.obj.key] == obj
      ensures Contents() == old(Contents()) - {obj.obj.key}
      ensures forall k :: k in old(Contents()) ==> Before(obj, old(Contents())[k])
    {
      hide Before;
      ghost var o, c := Objs(), Contents();
      var n := |keys| - 1;
      forall k | k in c ensures Before(o[0], c[k]) {
        RootIsFirst(o, |keys|, items[k].index);
      }
      Swap(0, n);
      if n > 0 {
        RemovedAt(o, 0, n);
        var moved := Down(0, n);
      }
      assert keys[n..][0] == keys[n];
      OrderedPrefix(Objs(), n);
      obj := TakeLast();
    }
  }

  lemma NothingBelow(o: seq<Info>, n: nat, i: nat, c: nat)
    requires i < n <= |o| && IsFirstChild(o, n, i, c) && !Before(o[c], o[i])
    ensures forall k :: 1 <= k < n && Parent(k) == i ==> Before(o[i], o[k])
  {
    hide Before;
    forall k | 1 <= k < n && Parent(k) == i ensures Before(o[i], o[k]) {
      BeforeIsTotalPreorder(o[c], o[i], o[c]);
      BeforeIsTotalPreorder(o[i], o[c], o[k]);
    }
  }

  lemma ChangedAt(o: seq<Info>, i: nat, x: Info)
    requires i < |o| && Ordered(o, |o|)
    ensures OrderedAround(o[i := x], |o|, i, false)
  {
    hide Before;
    forall k | 1 <= k < |o| && Parent(k) == i && 0 < i ensures Before(o[i := x][Parent(i)], o[i := x][k]) {
      BeforeIsTotalPreorder(o[Parent(i)], o[i], o[k]);
    }
  }

  lemma RemovedAt(o: seq<Info>, i: nat, n: nat)
    requires i < n == |o| - 1 && Ordered(o, |o|)
    ensures OrderedAround(Swapped(o, i, n), n, i, false)
  {
    hide Before;
    ChangedAt(o, i, o[n]);
    var o' := Swapped(o, i, n);
    assert forall k :: 0 <= k < n ==> o'[k] == o[i := o[n]][k];
  }

  lemma OrderedShorter(o: seq<Info>, n: nat)
    requires n <= |o| && Ordered(o, |o|)
    ensures Ordered(o, n)
  {
  }

  lemma OrderedPrefix(o: seq<Info>, n: nat)
    requires n <= |o| && Ordered(o, n)
    ensures Ordered(o[..n], n)
  {
    hide Before;
  }
}
