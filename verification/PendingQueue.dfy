/**
 * A ClusterQueue's pending workloads (pkg/queue/cluster_queue_impl.go): a heap, a parking map and the cycle counters.
 */
module PendingQueues {
  import opened Model
  import opened Heaps

  datatype Strategy = StrictFIFO | BestEffortFIFO

  datatype RequeueReason = Generic | FailedAfterNomination | NamespaceMismatch | PendingPreemption

  datatype Pending = Pending(heap: map<Name, Info>, parked: map<Name, Info>, popCycle: int, flushCycle: int,
                             cohort: string, strategy: Strategy)

  /** Which requeued workloads go straight back to the heap. */
  predicate Immediate(strategy: Strategy, reason: RequeueReason) {
    match strategy
    case StrictFIFO => reason != NamespaceMismatch
    case BestEffortFIFO => reason == FailedAfterNomination || reason == PendingPreemption
  }

  /** Neither the spec nor the Evicted condition differs. */
  predicate Unchanged(was: Info, info: Info) {
    was.obj.spec == info.obj.spec && was.obj.evicted == info.obj.evicted
  }

  // ---------- the operations, on values ----------

  function NewPending(cohort: string, strategy: Strategy): Pending {
    Pending(map[], map[], 0, -1, cohort, strategy)
  }

  function AddFrom(q: Pending, items: map<Name, Info>): Pending {
    q.(heap := items + q.heap)
  }

  function Pushed(q: Pending, info: Info): Pending {
    var k := info.obj.key;
    if k in q.parked && Unchanged(q.parked[k], info) then q.(parked := q.parked[k := info])
    else q.(parked := q.parked - {k}, heap := q.heap[k := info])
  }

  function Drop(q: Pending, ks: set<Name>): Pending {
    q.(parked := q.parked - ks, heap := q.heap - ks)
  }

  /** A flush since the last Pop sends the workload to the heap, as capacity may have been freed while it was tried. */
  function Requeue(q: Pending, info: Info, immediate: bool): (r: (Pending, bool)) {
    var k := info.obj.key;
    if immediate || q.flushCycle >= q.popCycle then
      var back := if k in q.parked then q.parked[k] else info;
      (q.(parked := q.parked - {k}, heap := if k in q.heap then q.heap else q.heap[k := back]), k !in q.heap)
    else if k in q.parked || k in q.heap then (q, false)
    else (q.(parked := q.parked[k := info]), true)
  }

  function Stays(q: Pending, matches: string -> bool): map<Name, Info> {
    map k | k in q.parked && !matches(q.parked[k].obj.key.namespace) :: q.parked[k]
  }

  /** Some parked workload outside todo matches the selector and is new to the heap. */
  ghost predicate MovesAny(q: Pending, todo: set<Name>, matches: string -> bool) {
    exists k :: k in q.parked && k !in todo && matches(k.namespace) && k !in q.heap
  }

  lemma MovesNone(q: Pending, matches: string -> bool)
    ensures !MovesAny(q, q.parked.Keys, matches)
  {
  }

  lemma MovesOneMore(q: Pending, todo: set<Name>, k: Name, matches: string -> bool)
    requires k in todo && k in q.parked
    ensures MovesAny(q, todo - {k}, matches) <==> MovesAny(q, todo, matches) || (matches(k.namespace) && k !in q.heap)
  {
    if MovesAny(q, todo, matches) {
      var j :| j in q.parked && j !in todo && matches(j.namespace) && j !in q.heap;
      assert j !in todo - {k};
    }
  }

  function Flush(q: Pending, matches: string -> bool): Pending {
    q.(flushCycle := q.popCycle, parked := Stays(q, matches), heap := (q.parked - Stays(q, matches).Keys) + q.heap)
  }

  function PopKey(q: Pending, k: Name): Pending {
    q.(popCycle := q.popCycle + 1, heap := q.heap - {k})
  }

  function PopNothing(q: Pending): Pending {
    q.(popCycle := q.popCycle + 1)
  }

  /** k is a head of the queue: nothing in the heap has to come before it. */
  ghost predicate IsHead(q: Pending, k: Name) {
    k in q.heap && forall j :: j in q.heap ==> Before(q.heap[k], q.heap[j])
  }

  ghost predicate Keyed(m: map<Name, Info>) {
    forall k :: k in m ==> m[k].obj.key == k
  }

  /** Merging one more element of a under h: nothing changes if h has the key. */
  lemma MergeOneMore(a: map<Name, Info>, h: map<Name, Info>, todo: set<Name>, k: Name)
    requires k in a && k in todo
    ensures k in (a - todo) + h <==> k in h
    ensures (a - (todo - {k})) + h == if k in h then (a - todo) + h else ((a - todo) + h)[k := a[k]]
  {
  }

  lemma StaysIff(q: Pending, matches: string -> bool)
    ensures Stays(q, matches).Keys <= q.parked.Keys
    ensures forall k :: k in q.parked ==> (k in Stays(q, matches) <==> !matches(q.parked[k].obj.key.namespace))
    ensures forall k :: k in Stays(q, matches) ==> Stays(q, matches)[k] == q.parked[k]
  {
  }

  lemma NothingDone(a: map<Name, Info>, b: map<Name, Info>, h: map<Name, Info>, todo: set<Name>)
    requires a.Keys <= todo && b.Keys <= todo
    ensures a - todo == map[] && (b - todo) + h == h
  {
  }

  lemma OneOfThem(a: map<Name, Info>, b: map<Name, Info>, todo: set<Name>, k: Name)
    requires k in a && k !in b && k in todo
    ensures a - (todo - {k}) == (a - todo)[k := a[k]] && b - (todo - {k}) == b - todo
  {
  }

  // ---------- the object ----------

  class PendingQueue {
    const heap: Heap
    const strategy: Strategy
    var cohort: string
    var inadmissible: map<Name, Info>
    var popCycle: int
    var queueInadmissibleCycle: int

    ghost predicate Valid() reads this, heap {
      heap.Valid() && Keyed(inadmissible)
    }

    function View(): Pending reads this, heap {
      Pending(heap.Contents(), inadmissible, popCycle, queueInadmissibleCycle, cohort, strategy)
    }

    constructor (cohort: string, strategy: Strategy)
      ensures Valid() && fresh(heap) && View() == NewPending(cohort, strategy)
    {
      heap := new Heap();
      this.strategy, this.cohort := strategy, cohort;
      inadmissible, popCycle, queueInadmissibleCycle := map[], 0, -1;
    }

    method Update(cohort: string)
      requires Valid()
      modifies this
      ensures Valid() && View() == old(View()).(cohort := cohort)
    {
      this.cohort := cohort;
    }

    method AddFromLocalQueue(items: map<Name, Info>) returns (added: bool)
      requires Valid() && Keyed(items)
      modifies heap
      ensures Valid() && View() == AddFrom(old(View()), items)
      ensures added <==> exists k :: k in items && k !in old(heap.Contents())
    {
      hide Heap.Valid, Heap.Contents;
      added := false;
      var todo := items.Keys;
      ghost var before := heap.Contents();
      assert items - todo + before == before;
      while todo != {}
        invariant todo <= items.Keys && heap.Valid()
        invariant heap.Contents() == (items - todo) + before
        invariant added <==> exists k :: k in items && k !in todo && k !in before
        decreases todo
      {
        var k :| k in todo;
        MergeOneMore(items, before, todo, k);
        var pushed := heap.PushIfNotPresent(items[k]);
        added := added || pushed;
        todo := todo - {k};
      }
      assert items - {} == items;
    }

    method PushOrUpdate(info: Info)
      requires Valid()
      modifies this, heap
      ensures Valid() && View() == Pushed(old(View()), info)
    {
      var k := info.obj.key;
      if k in inadmissible {
        if Unchanged(inadmissible[k], info) {
          inadmissible := inadmissible[k := info];
          return;
        }
        inadmissible := inadmissible - {k};
      } else {
        assert inadmissible - {k} == inadmissible;
      }
      heap.PushOrUpdate(info);
    }

    method Delete(k: Name)
      requires Valid()
      modifies this, heap
      ensures Valid() && View() == Drop(old(View()), {k})
    {
      inadmissible := inadmissible - {k};
      heap.Delete(k);
    }

    method DeleteFromLocalQueue(items: map<Name, Info>)
      requires Valid()
      modifies this, heap
      ensures Valid() && View() == Drop(old(View()), items.Keys)
    {
      hide Heap.Valid, Heap.Contents;
      inadmissible := inadmissible - items.Keys;
      var todo := items.Keys;
      ghost var before := heap.Contents();
      assert before - (items.Keys - todo) == before;
      while todo != {}
        invariant todo <= items.Keys && Valid() && inadmissible == old(inadmissible) - items.Keys
        invariant heap.Contents() == before - (items.Keys - todo)
        invariant unchanged(this`popCycle) && unchanged(this`queueInadmissibleCycle) && unchanged(this`cohort)
        decreases todo
      {
        var k :| k in todo;
        assert inadmissible - {k} == inadmissible;
        Delete(k);
        assert before - (items.Keys - todo) - {k} == before - (items.Keys - (todo - {k}));
        todo := todo - {k};
      }
      assert items.Keys - {} == items.Keys;
    }

    method RequeueIfNotPresent(info: Info, reason: RequeueReason) returns (added: bool)
      requires Valid()
      modifies this, heap
      ensures Valid() && (View(), added) == Requeue(old(View()), info, Immediate(strategy, reason))
    {
      var k := info.obj.key;
      if Immediate(strategy, reason) || queueInadmissibleCycle >= popCycle {
        var back := info;
        if k in inadmissible {
          back := inadmissible[k];
          inadmissible := inadmissible - {k};
        } else {
          assert inadmissible - {k} == inadmissible;
        }
        added := heap.PushIfNotPresent(back);
        return;
      }
      if k in inadmissible || k in heap.Contents() {
        return false;
      }
      inadmissible := inadmissible[k := info];
      return true;
    }

    /** Moves what now matches the namespace selector to the heap and parks the rest again. */
    method QueueInadmissibleWorkloads(matches: string -> bool) returns (moved: bool)
      requires Valid()
      modifies this, heap
      ensures Valid() && View() == Flush(old(View()), matches)
      ensures moved <==> MovesAny(old(View()), {}, matches)
    {
      hide Heap.Valid, Heap.Contents, MovesAny, Stays;
      queueInadmissibleCycle := popCycle;
      moved := false;
      var kept: map<Name, Info> := map[];
      var todo := inadmissible.Keys;
      ghost var h, stays := heap.Contents(), Stays(old(View()), matches);
      ghost var moving := inadmissible - stays.Keys;
      StaysIff(old(View()), matches);
      NothingDone(stays, moving, h, todo);
      MovesNone(old(View()), matches);
      while todo != {}
        invariant todo <= inadmissible.Keys && heap.Valid()
        invariant kept == stays - todo && heap.Contents() == (moving - todo) + h
        invariant moved <==> MovesAny(old(View()), todo, matches)
        modifies heap
        decreases todo
      {
        var k :| k in todo;
        var info := inadmissible[k];
        MovesOneMore(old(View()), todo, k, matches);
        if !matches(info.obj.key.namespace) {
          kept := kept[k := info];
          OneOfThem(stays, moving, todo, k);
        } else {
          MergeOneMore(moving, h, todo, k);
          var pushed := heap.PushIfNotPresent(info);
          moved := pushed || moved;
          OneOfThem(moving, stays, todo, k);
        }
        todo := todo - {k};
      }
      assert stays - {} == stays && moving - {} == moving;
      inadmissible := kept;
    }

    method Pop() returns (head: Option<Info>)
      requires Valid()
      modifies this, heap
      ensures Valid()
      ensures head.None? ==> old(heap.Contents()) == map[] && View() == PopNothing(old(View()))
      ensures head.Some? ==>
                IsHead(old(View()), head.value.obj.key) && old(heap.Contents())[head.value.obj.key] == head.value
                             && View() == PopKey(old(View()), head.value.obj.key)
    {
      popCycle := popCycle + 1;
      if |heap.keys| == 0 {
        assert heap.items == map[];
        return None;
      }
      var info := heap.Pop();
      return Some(info);
    }
  }
}
