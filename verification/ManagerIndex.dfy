/** Every call on the manager keeps its index: what the cluster queues hold is what the local queues list. */
module ManagerIndex {
  import opened Model
  import opened Heaps
  import opened PendingQueues
  import opened Managers

  // ---------- one workload enters or leaves ----------

  /** q' is q except that it holds k, once, as a workload submitted to l. */
  ghost predicate PutAt(q: Pending, q': Pending, k: Name, l: Name) {
    && q'.cohort == q.cohort && q'.heap - {k} == q.heap - {k} && q'.parked - {k} == q.parked - {k}
    && Holds(q', k) && !(k in q'.heap && k in q'.parked)
    && (k in q'.heap ==> q'.heap[k].obj.key == k && q'.heap[k].obj.QueueKey() == l)
    && (k in q'.parked ==> q'.parked[k].obj.key == k && q'.parked[k].obj.QueueKey() == l)
  }

  lemma OffKey(a: map<Name, Info>, b: map<Name, Info>, k: Name, j: Name)
    requires a - {k} == b - {k} && j != k
    ensures (j in a <==> j in b) && (j in a ==> a[j] == b[j])
  {
    assert j in a <==> j in a - {k};
    assert j in b <==> j in b - {k};
  }

  lemma StoredAfterPut(m: ManagerState, l: Name, info: Info, n: string, s: map<Name, Info>)
    requires l in m.locals && AllStored(m, n, s)
    ensures AllStored(WithItem(m, l, info), n, s)
  {
  }

  lemma StoredOffKey(m: ManagerState, n: string, s: map<Name, Info>, s': map<Name, Info>, k: Name)
    requires AllStored(m, n, s) && s' - {k} == s - {k} && (k in s' ==> Stored(m, n, k, s'[k]))
    ensures AllStored(m, n, s')
  {
    hide Stored;
    forall j | j in s' ensures Stored(m, n, j, s'[j]) {
      if j != k { OffKey(s', s, k, j); }
    }
  }

  lemma StoredWithQueue(m: ManagerState, i: string, q: Pending, n: string, s: map<Name, Info>)
    ensures AllStored(WithQueue(m, i, q), n, s) <==> AllStored(m, n, s)
  {
    assert forall k, info :: Stored(WithQueue(m, i, q), n, k, info) <==> Stored(m, n, k, info);
  }

  lemma PutKeepsQueue(m: ManagerState, l: Name, info: Info, n: string, q': Pending, i: string)
    requires l in m.locals && m.locals[l].clusterQueue == n && n in m.queues && PutAt(m.queues[n], q', info.obj.key, l)
    requires i in m.queues && QueueIndexed(m, i) && QueueIndexed(m, n)
    ensures QueueIndexed(WithQueue(WithItem(m, l, info), n, q'), i)
  {
    hide AllStored;
    var k, m1 := info.obj.key, WithItem(m, l, info);
    var q := if i == n then q' else m.queues[i];
    StoredAfterPut(m, l, info, i, m.queues[i].heap);
    StoredAfterPut(m, l, info, i, m.queues[i].parked);
    StoredOffKey(m1, i, m.queues[i].heap, q.heap, k);
    StoredOffKey(m1, i, m.queues[i].parked, q.parked, k);
    StoredWithQueue(m1, n, q', i, q.heap);
    StoredWithQueue(m1, n, q', i, q.parked);
    if i == n { DisjointAfterPut(m.queues[n], q', k, l); }
  }

  lemma DisjointAfterPut(q: Pending, q': Pending, k: Name, l: Name)
    requires PutAt(q, q', k, l) && q.heap.Keys !! q.parked.Keys
    ensures q'.heap.Keys !! q'.parked.Keys
  {
    forall j | j in q'.heap ensures j !in q'.parked {
      if j != k {
        OffKey(q'.heap, q.heap, k, j);
        OffKey(q'.parked, q.parked, k, j);
      }
    }
  }

  lemma PutKeepsIndex(m: ManagerState, l: Name, info: Info, n: string, q': Pending)
    requires IndexOk(m) && l in m.locals && m.locals[l].clusterQueue == n && n in m.queues
    requires info.obj.QueueKey() == l && NotElsewhere(m, info.obj.key, l) && PutAt(m.queues[n], q', info.obj.key, l)
    ensures IndexOk(WithQueue(WithItem(m, l, info), n, q'))
  {
    hide QueueIndexed;
    var k, m' := info.obj.key, WithQueue(WithItem(m, l, info), n, q');
    forall i | i in m'.queues ensures QueueIndexed(m', i) { PutKeepsQueue(m, l, info, n, q', i); }
    forall i | i in m'.locals ensures LocalIndexed(m', i) {
      assert LocalIndexed(m, i);
      forall j | j in m'.locals[i].items && m'.locals[i].clusterQueue == n ensures Holds(q', j) {
        if j != k {
          OffKey(q'.heap, m.queues[n].heap, k, j);
          OffKey(q'.parked, m.queues[n].parked, k, j);
        }
      }
    }
    NotElsewhereAfterPut(m, l, info);
  }

  lemma NotElsewhereAfterPut(m: ManagerState, l: Name, info: Info)
    requires l in m.locals && NotElsewhere(m, info.obj.key, l)
    requires forall i, j :: i in m.locals && j in m.locals[i].items ==> NotElsewhere(m, j, i)
    ensures var m' := WithItem(m, l, info);
            forall i, j :: i in m'.locals && j in m'.locals[i].items ==> NotElsewhere(m', j, i)
  {
    var m' := WithItem(m, l, info);
    forall i, j | i in m'.locals && j in m'.locals[i].items ensures NotElsewhere(m', j, i) {
      assert j in m.locals[i].items ==> NotElsewhere(m, j, i);
    }
  }

  /** Only the items change, while the LocalQueue points to no existing queue. */
  lemma PutWithoutQueue(m: ManagerState, l: Name, info: Info)
    requires IndexOk(m) && l in m.locals && m.locals[l].clusterQueue !in m.queues
    requires info.obj.QueueKey() == l && NotElsewhere(m, info.obj.key, l)
    ensures IndexOk(WithItem(m, l, info))
  {
    hide AllStored;
    var m' := WithItem(m, l, info);
    forall n | n in m'.queues ensures QueueIndexed(m', n) {
      assert QueueIndexed(m, n);
      StoredAfterPut(m, l, info, n, m.queues[n].heap);
      StoredAfterPut(m, l, info, n, m.queues[n].parked);
    }
    forall i | i in m'.locals ensures LocalIndexed(m', i) { assert LocalIndexed(m, i); }
    NotElsewhereAfterPut(m, l, info);
  }

  lemma PushIsPut(q: Pending, info: Info, l: Name)
    requires info.obj.QueueKey() == l
    ensures (q.heap.Keys !! q.parked.Keys) ==> PutAt(q, Pushed(q, info), info.obj.key, l)
    ensures PutAt(q, Pushed(Drop(q, {info.obj.key}), info), info.obj.key, l)
  {
  }

  lemma RequeueIsPut(q: Pending, info: Info, l: Name, immediate: bool)
    requires info.obj.QueueKey() == l && q.heap.Keys !! q.parked.Keys
    requires forall k :: k in q.heap && k == info.obj.key ==> q.heap[k].obj.key == k && q.heap[k].obj.QueueKey() == l
    requires forall k :: k in q.parked && k == info.obj.key ==>
               q.parked[k].obj.key == k && q.parked[k].obj.QueueKey() == l
    ensures PutAt(q, Requeue(q, info, immediate).0, info.obj.key, l)
  {
  }

  lemma AddOrUpdateKeepsIndex(m: ManagerState, w: Workload)
    requires IndexOk(m) && NotElsewhere(m, w.key, w.QueueKey())
    ensures IndexOk(AddOrUpdate(m, w))
  {
    hide Pushed, PutAt;
    var l := w.QueueKey();
    if l in m.locals {
      var n := m.locals[l].clusterQueue;
      NewInfoKeeps(w);
      if n in m.queues {
        assert QueueIndexed(m, n);
        PushIsPut(m.queues[n], NewInfo(w), l);
        PutKeepsIndex(m, l, NewInfo(w), n, Pushed(m.queues[n], NewInfo(w)));
      } else {
        PutWithoutQueue(m, l, NewInfo(w));
      }
    }
  }

  lemma NewInfoKeeps(w: Workload)
    ensures NewInfo(w).obj == w
  {
  }

  lemma RequeueKeepsIndex(m: ManagerState, info: Info, current: Option<Workload>, reason: RequeueReason)
    requires IndexOk(m)
    requires current.Some? ==>
               current.value.key == info.obj.key && NotElsewhere(m, info.obj.key, current.value.QueueKey())
    ensures IndexOk(RequeueWorkload(m, info, current, reason))
  {
    hide PutAt, Requeue;
    if current.Some? && !current.value.IsAdmitted() && current.value.QueueKey() in m.locals {
      var l, info' := current.value.QueueKey(), info.(obj := current.value);
      var n := m.locals[l].clusterQueue;
      if n in m.queues {
        assert QueueIndexed(m, n);
        RequeueIsPut(m.queues[n], info', l, Immediate(m.queues[n].strategy, reason));
        PutKeepsIndex(m, l, info', n, Requeue(m.queues[n], info', Immediate(m.queues[n].strategy, reason)).0);
      } else {
        PutWithoutQueue(m, l, info');
      }
    }
  }

  // ---------- workloads leave ----------

  /** A workload that only l may hold is in no queue but the one l points to. */
  lemma NowhereElse(m: ManagerState, k: Name, l: Name, n: string)
    requires IndexOk(m) && NotElsewhere(m, k, l) && n in m.queues && (l !in m.locals || m.locals[l].clusterQueue != n)
    ensures !Holds(m.queues[n], k)
  {
    assert QueueIndexed(m, n);
  }

  lemma StoredAfterRemove(m: ManagerState, k: Name, l: Name, n: string, s: map<Name, Info>)
    requires AllStored(m, n, s) && k !in s
    ensures AllStored(RemoveWorkload(m, k, l), n, s)
  {
  }

  lemma RemoveKeepsQueue(m: ManagerState, k: Name, l: Name, n: string)
    requires IndexOk(m) && NotElsewhere(m, k, l) && l in m.locals && n in m.queues
    ensures QueueIndexed(RemoveWorkload(m, k, l), n)
  {
    hide AllStored, LocalIndexed, NotElsewhere, CohortsIndexed;
    assert QueueIndexed(m, n);
    if m.locals[l].clusterQueue != n {
      NowhereElse(m, k, l, n);
      StoredAfterRemove(m, k, l, n, m.queues[n].heap);
      StoredAfterRemove(m, k, l, n, m.queues[n].parked);
    } else {
      StoredSubset(m, n, m.queues[n].heap, m.queues[n].heap - {k});
      StoredSubset(m, n, m.queues[n].parked, m.queues[n].parked - {k});
      StoredAfterRemove(m, k, l, n, m.queues[n].heap - {k});
      StoredAfterRemove(m, k, l, n, m.queues[n].parked - {k});
    }
  }

  lemma StoredSubset(m: ManagerState, n: string, s: map<Name, Info>, s': map<Name, Info>)
    requires AllStored(m, n, s) && forall k :: k in s' ==> k in s && s'[k] == s[k]
    ensures AllStored(m, n, s')
  {
  }

  lemma RemoveKeepsIndex(m: ManagerState, k: Name, l: Name)
    requires IndexOk(m) && NotElsewhere(m, k, l)
    ensures IndexOk(RemoveWorkload(m, k, l))
    ensures forall j :: NotElsewhere(RemoveWorkload(m, k, l), k, j)
  {
    hide QueueIndexed;
    if l in m.locals {
      var m' := RemoveWorkload(m, k, l);
      forall n | n in m'.queues ensures QueueIndexed(m', n) { RemoveKeepsQueue(m, k, l, n); }
      forall i | i in m'.locals ensures LocalIndexed(m', i) { assert LocalIndexed(m, i); }
      forall i, j | i in m'.locals && j in m'.locals[i].items
        ensures NotElsewhere(m', j, i)
      {
        assert NotElsewhere(m, j, i);
      }
    }
  }

  lemma UpdateKeepsIndex(m: ManagerState, was: Workload, w: Workload)
    requires IndexOk(m) && was.key == w.key
    requires forall l :: l in m.locals && w.key in m.locals[l].items ==> l == was.QueueKey() || l == w.QueueKey()
    ensures IndexOk(UpdateWorkload(m, was, w))
  {
    hide IndexOk;
    var from, to := was.QueueKey(), w.QueueKey();
    if was.spec.queueName == w.spec.queueName {
      AddOrUpdateKeepsIndex(m, w);
    } else if to in m.locals && w.key in m.locals[to].items {
      MovedAlready(m, was, w);
    } else {
      RemoveKeepsIndex(m, w.key, from);
      AddOrUpdateKeepsIndex(RemoveWorkload(m, w.key, from), w);
    }
  }

  /** The newest version was requeued before its update event: the new LocalQueue already holds it. */
  lemma MovedAlready(m: ManagerState, was: Workload, w: Workload)
    requires IndexOk(m) && was.key == w.key && was.spec.queueName != w.spec.queueName
    requires w.QueueKey() in m.locals && w.key in m.locals[w.QueueKey()].items
    ensures IndexOk(UpdateWorkload(m, was, w))
  {
    hide PutAt, Pushed, NotElsewhere, QueueIndexed, LocalIndexed, CohortsIndexed, RemoveWorkload, NewInfo;
    var from, to, k := was.QueueKey(), w.QueueKey(), w.key;
    assert NotElsewhere(m, k, to);
    if from in m.locals {
      NothingToRemove(m, k, from, to);
      var n := m.locals[to].clusterQueue;
      if n in m.queues && m.locals[from].clusterQueue == n {
        NewInfoKeeps(w);
        PushIsPut(m.queues[n], NewInfo(w), to);
        PutKeepsIndex(m, to, NewInfo(w), n, Pushed(Drop(m.queues[n], {k}), NewInfo(w)));
        assert UpdateWorkload(m, was, w).queues ==
               WithQueue(WithItem(m, to, NewInfo(w)), n, Pushed(Drop(m.queues[n], {k}), NewInfo(w))).queues;
      } else {
        AddOrUpdateKeepsIndex(m, w);
      }
    } else {
      assert RemoveWorkload(m, k, from) == m by { RemoveFromNowhere(m, k, from); }
      AddOrUpdateKeepsIndex(m, w);
    }
  }

  lemma RemoveFromNowhere(m: ManagerState, k: Name, l: Name)
    requires l !in m.locals
    ensures RemoveWorkload(m, k, l) == m
  {
  }

  lemma NothingToRemove(m: ManagerState, k: Name, from: Name, to: Name)
    requires IndexOk(m) && NotElsewhere(m, k, to) && from != to && from in m.locals && to in m.locals
    ensures RemoveWorkload(m, k, from).locals == m.locals
    ensures m.locals[from].clusterQueue != m.locals[to].clusterQueue ==> RemoveWorkload(m, k, from) == m
    ensures RemoveWorkload(m, k, from) == DropFrom(m, m.locals[from].clusterQueue, {k})
  {
    var n := m.locals[from].clusterQueue;
    assert m.locals[from].items - {k} == m.locals[from].items;
    assert m.locals[from := m.locals[from].(items := m.locals[from].items - {k})] == m.locals;
    if n in m.queues && n != m.locals[to].clusterQueue {
      NowhereElse(m, k, to, n);
      assert m.queues[n].heap - {k} == m.queues[n].heap && m.queues[n].parked - {k} == m.queues[n].parked;
      assert m.queues[n := Drop(m.queues[n], {k})] == m.queues;
    }
  }

  // ---------- flushes and heads ----------

  lemma FlushKeepsHeld(q: Pending, matches: string -> bool)
    requires q.heap.Keys !! q.parked.Keys
    ensures var q' := Flush(q, matches);
            && q'.heap.Keys !! q'.parked.Keys && q'.heap.Keys + q'.parked.Keys == q.heap.Keys + q.parked.Keys
            && (forall k :: k in q'.heap ==> q'.heap[k] == if k in q.heap then q.heap[k] else q.parked[k])
            && (forall k :: k in q'.parked ==> k in q.parked && q'.parked[k] == q.parked[k])
  {
  }

  lemma FlushKeepsIndex(m: ManagerState, ns: set<string>, sel: Selector)
    requires IndexOk(m)
    ensures IndexOk(FlushThese(m, ns, sel))
  {
    hide Flush, Stored;
    var m' := FlushThese(m, ns, sel);
    SameLocals(m, m');
    forall n | n in m'.queues ensures QueueIndexed(m', n) {
      assert QueueIndexed(m, n);
      FlushKeepsHeld(m.queues[n], For(sel, n));
    }
    forall l | l in m'.locals ensures LocalIndexed(m', l) {
      assert LocalIndexed(m, l);
      var n := m.locals[l].clusterQueue;
      if n in m.queues {
        assert QueueIndexed(m, n);
        FlushKeepsHeld(m.queues[n], For(sel, n));
      }
    }
    forall l, k | l in m'.locals && k in m'.locals[l].items
      ensures NotElsewhere(m', k, l)
    {
      assert NotElsewhere(m, k, l);
    }
    FlushKeepsCohorts(m, ns, sel);
  }

  lemma SameLocals(m: ManagerState, m': ManagerState)
    requires m'.locals == m.locals
    ensures forall n, k, info :: Stored(m', n, k, info) <==> Stored(m, n, k, info)
  {
  }

  lemma FlushKeepsCohorts(m: ManagerState, ns: set<string>, sel: Selector)
    ensures CohortsIndexed(m) ==> CohortsIndexed(FlushThese(m, ns, sel))
  {
  }

  /** A key taken from a LocalQueue is the head of the queue that holds it. */
  lemma PoppedIsHead(m: ManagerState, picks: map<string, Name>, n: string, k: Name, info: Info)
    requires IndexOk(m) && n in m.queues && Stored(m, n, k, info) && k in PoppedFrom(m, picks, info.obj.QueueKey())
    ensures n in picks && picks[n] == k
  {
    hide LocalIndexed, CohortsIndexed, NotElsewhere;
    var j :| j in picks && j in m.queues && picks[j] in m.queues[j].heap
             && m.queues[j].heap[picks[j]].obj.QueueKey() == info.obj.QueueKey() && picks[j] == k;
    assert QueueIndexed(m, j);
    assert Stored(m, j, k, m.queues[j].heap[k]);
  }

  lemma HeadIsPopped(m: ManagerState, picks: map<string, Name>, n: string, l: Name, k: Name)
    requires IndexOk(m) && n in m.queues && n in picks && picks[n] == k && k in m.queues[n].heap
    requires l in m.locals && k in m.locals[l].items
    ensures k in PoppedFrom(m, picks, l)
  {
    hide LocalIndexed, CohortsIndexed;
    assert QueueIndexed(m, n) && Stored(m, n, k, m.queues[n].heap[k]);
    assert NotElsewhere(m, k, l);
  }

  lemma StoredAfterHeads(m: ManagerState, active: set<string>, picks: map<string, Name>, n: string, k: Name, info: Info)
    requires IndexOk(m) && n in m.queues && Stored(m, n, k, info) && (n in picks ==> picks[n] != k)
    ensures Stored(TakeHeads(m, active, picks), n, k, info)
  {
    hide IndexOk, PoppedFrom;
    if k in PoppedFrom(m, picks, info.obj.QueueKey()) { PoppedIsHead(m, picks, n, k, info); }
  }

  lemma HeadsKeepQueue(m: ManagerState, active: set<string>, picks: map<string, Name>, n: string)
    requires IndexOk(m) && PicksOk(m, active, picks) && n in m.queues
    ensures QueueIndexed(TakeHeads(m, active, picks), n)
  {
    hide LocalIndexed, CohortsIndexed, NotElsewhere, Stored;
    var m' := TakeHeads(m, active, picks);
    assert QueueIndexed(m, n);
    forall k | k in m'.queues[n].heap ensures Stored(m', n, k, m'.queues[n].heap[k]) {
      StoredAfterHeads(m, active, picks, n, k, m.queues[n].heap[k]);
    }
    forall k | k in m'.queues[n].parked ensures Stored(m', n, k, m'.queues[n].parked[k]) {
      StoredAfterHeads(m, active, picks, n, k, m.queues[n].parked[k]);
    }
  }

  lemma HeadsKeepLocal(m: ManagerState, active: set<string>, picks: map<string, Name>, l: Name)
    requires IndexOk(m) && PicksOk(m, active, picks) && l in m.locals
    ensures LocalIndexed(TakeHeads(m, active, picks), l)
  {
    hide CohortsIndexed, PoppedFrom, NotElsewhere;
    var m' := TakeHeads(m, active, picks);
    assert LocalIndexed(m, l);
    var n := m.locals[l].clusterQueue;
    forall k | k in m'.locals[l].items && n in m'.queues ensures Holds(m'.queues[n], k) {
      assert Holds(m.queues[n], k);
      if n in picks && picks[n] == k { HeadIsPopped(m, picks, n, l, k); }
    }
  }

  lemma HeadsKeepIndex(m: ManagerState, active: set<string>, picks: map<string, Name>)
    requires IndexOk(m) && PicksOk(m, active, picks)
    ensures IndexOk(TakeHeads(m, active, picks))
  {
    hide QueueIndexed, LocalIndexed, PicksOk;
    var m' := TakeHeads(m, active, picks);
    forall n | n in m'.queues ensures QueueIndexed(m', n) { HeadsKeepQueue(m, active, picks, n); }
    forall l | l in m'.locals ensures LocalIndexed(m', l) { HeadsKeepLocal(m, active, picks, l); }
    forall l, k | l in m'.locals && k in m'.locals[l].items
      ensures NotElsewhere(m', k, l)
    {
      assert NotElsewhere(m, k, l);
    }
  }

  // ---------- local queues come, move and go ----------

  lemma UnheldBy(m: ManagerState, n: string, k: Name)
    requires IndexOk(m) && n in m.queues
    requires forall l :: l in m.locals && m.locals[l].clusterQueue == n ==> k !in m.locals[l].items
    ensures !Holds(m.queues[n], k)
  {
    assert QueueIndexed(m, n);
  }

  /** Adds items of a LocalQueue to the queue it points to; the queue held none of them. */
  lemma AddToKeepsIndex(m: ManagerState, l: Name, lq: LocalQueue)
    requires IndexOk(m) && (l in m.locals ==> m.locals[l].items == lq.items && m.locals[l].clusterQueue !in m.queues)
    requires forall k :: k in lq.items ==>
               lq.items[k].obj.key == k && lq.items[k].obj.QueueKey() == l && NotElsewhere(m, k, l)
    ensures IndexOk(AddTo(WithLocal(m, l, lq), lq.clusterQueue, lq.items))
  {
    hide QueueIndexed, Workload.QueueKey;
    var n, m' := lq.clusterQueue, AddTo(WithLocal(m, l, lq), lq.clusterQueue, lq.items);
    assert m'.queues.Keys == m.queues.Keys && m'.locals == m.locals[l := lq];
    forall i | i in m'.queues ensures QueueIndexed(m', i) { AddToKeepsQueue(m, l, lq, i); }
    forall i | i in m'.locals ensures LocalIndexed(m', i) { if i != l { assert LocalIndexed(m, i); } }
    forall i, k | i in m'.locals && k in m'.locals[i].items ensures NotElsewhere(m', k, i) {
      if i != l { assert NotElsewhere(m, k, i); }
    }
  }

  lemma AddToKeepsQueue(m: ManagerState, l: Name, lq: LocalQueue, i: string)
    requires IndexOk(m) && (l in m.locals ==> m.locals[l].items == lq.items && m.locals[l].clusterQueue !in m.queues)
    requires forall k :: k in lq.items ==>
               lq.items[k].obj.key == k && lq.items[k].obj.QueueKey() == l && NotElsewhere(m, k, l)
    requires i in m.queues
    ensures QueueIndexed(AddTo(WithLocal(m, l, lq), lq.clusterQueue, lq.items), i)
  {
    hide LocalIndexed, CohortsIndexed;
    var n, m' := lq.clusterQueue, AddTo(WithLocal(m, l, lq), lq.clusterQueue, lq.items);
    if n == i {
      forall k | k in lq.items ensures !Holds(m.queues[n], k) { UnheldBy(m, n, k); }
    }
    assert QueueIndexed(m, i);
    StoredInOther(m, l, lq, i, m.queues[i].heap);
    StoredInOther(m, l, lq, i, m.queues[i].parked);
  }

  lemma StoredInOther(m: ManagerState, l: Name, lq: LocalQueue, n: string, s: map<Name, Info>)
    requires n in m.queues && AllStored(m, n, s) && (l in m.locals ==> m.locals[l].clusterQueue !in m.queues)
    ensures AllStored(WithLocal(m, l, lq), n, s)
  {
  }

  /** After its items are dropped from its queue, a LocalQueue may be deleted. */
  lemma DeleteLocalKeepsIndex(m: ManagerState, l: Name)
    requires IndexOk(m)
    ensures IndexOk(DeleteLocalQueue(m, l))
  {
    if l in m.locals {
      var m', n := DeleteLocalQueue(m, l), m.locals[l].clusterQueue;
      forall i | i in m'.queues ensures QueueIndexed(m', i) {
        DeleteLocalKeepsQueue(m, l, i);
      }
      forall i | i in m'.locals ensures LocalIndexed(m', i) {
        assert LocalIndexed(m, i);
        forall k | k in m.locals[i].items ensures k !in m.locals[l].items { assert NotElsewhere(m, k, i); }
      }
      forall i, k | i in m'.locals && k in m'.locals[i].items
        ensures NotElsewhere(m', k, i)
      {
        assert NotElsewhere(m, k, i);
      }
    }
  }

  lemma DeleteLocalKeepsQueue(m: ManagerState, l: Name, n: string)
    requires IndexOk(m) && l in m.locals && n in m.queues
    ensures QueueIndexed(DeleteLocalQueue(m, l), n)
  {
    hide LocalIndexed, CohortsIndexed, NotElsewhere;
    var m' := DeleteLocalQueue(m, l);
    assert QueueIndexed(m, n);
    StoredWithoutLocal(m, l, n, m.queues[n].heap, m'.queues[n].heap, m');
    StoredWithoutLocal(m, l, n, m.queues[n].parked, m'.queues[n].parked, m');
  }

  lemma StoredWithoutLocal(m: ManagerState, l: Name, n: string, s: map<Name, Info>, s': map<Name, Info>,
                           m': ManagerState)
    requires l in m.locals && AllStored(m, n, s) && m'.locals == m.locals - {l}
    requires s' == if m.locals[l].clusterQueue == n then s - m.locals[l].items.Keys else s
    ensures AllStored(m', n, s')
  {
    forall k | k in s' ensures Stored(m', n, k, s'[k]) { assert Stored(m, n, k, s[k]); }
  }

  lemma {:induction false} ItemsOfListed(ws: seq<Workload>, k: Name)
    requires k in ItemsOf(ws)
    ensures exists w :: w in ws && w.key == k && ItemsOf(ws)[k] == NewInfo(w)
    decreases |ws|
  {
    var i := |ws| - 1;
    if ws[i].IsAdmitted() || ws[i].key != k {
      ItemsOfListed(ws[..i], k);
    }
  }

  lemma AddLocalKeepsIndex(m: ManagerState, l: Name, n: string, listed: seq<Workload>)
    requires IndexOk(m) && forall w :: w in listed ==> w.QueueKey() == l && NotElsewhere(m, w.key, l)
    ensures IndexOk(AddLocalQueue(m, l, n, listed))
  {
    hide IndexOk, NotElsewhere, ItemsOf, AddTo;
    var items := ItemsOf(listed);
    if l !in m.locals {
      forall k | k in items ensures items[k].obj.key == k && items[k].obj.QueueKey() == l && NotElsewhere(m, k, l) {
        ItemsOfListed(listed, k);
        var w :| w in listed && w.key == k && items[k] == NewInfo(w);
        NewInfoKeeps(w);
      }
      AddToKeepsIndex(m, l, LocalQueue(n, items));
    }
  }

  lemma UpdateLocalKeepsIndex(m: ManagerState, l: Name, n: string)
    requires IndexOk(m)
    ensures IndexOk(UpdateLocalQueue(m, l, n))
  {
    hide QueueIndexed, CohortsIndexed;
    if l in m.locals {
      var lq := m.locals[l];
      if lq.clusterQueue == n {
        assert m.locals[l := lq] == m.locals;
      } else {
        var m0 := DeleteLocalQueue(m, l);
        DeleteLocalKeepsIndex(m, l);
        assert LocalIndexed(m, l);
        forall k | k in lq.items ensures NotElsewhere(m0, k, l) { assert NotElsewhere(m, k, l); }
        AddToKeepsIndex(m0, l, lq.(clusterQueue := n));
        assert (m.locals - {l})[l := lq.(clusterQueue := n)] == m.locals[l := lq.(clusterQueue := n)];
      }
    }
  }

  // ---------- cluster queues come, change and go ----------

  ghost predicate ListedIn(locals: map<Name, LocalQueue>, listed: seq<Name>, k: Name, info: Info) {
    exists l :: l in listed && l in locals && k in locals[l].items && locals[l].items[k] == info
  }

  lemma {:induction false} AddListedHolds(q: Pending, locals: map<Name, LocalQueue>, listed: seq<Name>)
    requires q.heap == map[]
    ensures var r := AddListed(q, locals, listed);
            && r == q.(heap := r.heap)
            && (forall k :: k in r.heap ==> ListedIn(locals, listed, k, r.heap[k]))
            && (forall l, k :: l in listed && l in locals && k in locals[l].items ==> k in r.heap)
    decreases |listed|
  {
    if listed != [] {
      var i := |listed| - 1;
      AddListedHolds(q, locals, listed[..i]);
      var before, r := AddListed(q, locals, listed[..i]), AddListed(q, locals, listed);
      forall k | k in r.heap ensures ListedIn(locals, listed, k, r.heap[k]) {
        if k in before.heap {
          assert ListedIn(locals, listed[..i], k, before.heap[k]);
          var l :| l in listed[..i] && l in locals && k in locals[l].items && locals[l].items[k] == before.heap[k];
          assert l in listed;
        } else {
          assert listed[i] in listed;
        }
      }
      assert forall l :: l in listed <==> l in listed[..i] || l == listed[i];
    }
  }

  lemma NewQueueIndexed(m: ManagerState, n: string, q: Pending, listed: seq<Name>)
    requires IndexOk(m) && n !in m.queues && q.heap == map[] == q.parked
    requires forall l :: l in m.locals ==> (m.locals[l].clusterQueue == n <==> l in listed)
    ensures var m' := WithQueue(m, n, AddListed(q, m.locals, listed));
            (forall i :: i in m'.queues ==> QueueIndexed(m', i)) && (forall l :: l in m'.locals ==> LocalIndexed(m', l))
  {
    hide AddListed, CohortsIndexed, NotElsewhere;
    var r := AddListed(q, m.locals, listed);
    var m' := WithQueue(m, n, r);
    AddListedHolds(q, m.locals, listed);
    SameLocals(m, m');
    forall i | i in m'.queues ensures QueueIndexed(m', i) {
      if i == n {
        forall k | k in r.heap ensures Stored(m', n, k, r.heap[k]) {
          assert ListedIn(m.locals, listed, k, r.heap[k]);
          var l :| l in listed && l in m.locals && k in m.locals[l].items && m.locals[l].items[k] == r.heap[k];
          assert LocalIndexed(m, l);
        }
      } else {
        assert QueueIndexed(m, i);
      }
    }
    forall l | l in m'.locals ensures LocalIndexed(m', l) { assert LocalIndexed(m, l); }
  }

  lemma AddQueueKeepsIndex(m: ManagerState, n: string, cohort: string, strategy: Strategy, listed: seq<Name>,
                           sel: Selector)
    requires IndexOk(m) && forall l :: l in m.locals ==> (m.locals[l].clusterQueue == n <==> l in listed)
    ensures IndexOk(AddClusterQueue(m, n, cohort, strategy, listed, sel))
  {
    hide AddListed, FlushThese, QueueIndexed, LocalIndexed, FlushedWith;
    if n !in m.queues {
      NewQueueIndexed(m, n, NewPending(cohort, strategy), listed);
      AddListedHolds(NewPending(cohort, strategy), m.locals, listed);
      var q := AddListed(NewPending(cohort, strategy), m.locals, listed);
      var m1 := WithQueue(m, n, q);
      var m' := m1.(cohorts := if cohort != "" then JoinCohort(m.cohorts, cohort, n) else m.cohorts);
      OtherCohorts(m1, m');
      forall l, k | l in m'.locals && k in m'.locals[l].items
        ensures NotElsewhere(m', k, l)
      {
        assert NotElsewhere(m, k, l);
      }
      FlushKeepsIndex(m', FlushedWith(m', n), sel);
    }
  }

  /** The index of workloads does not look at cohorts. */
  lemma OtherCohorts(m: ManagerState, m': ManagerState)
    requires m'.locals == m.locals && m'.queues.Keys == m.queues.Keys
    requires forall n :: n in m.queues ==>
               m'.queues[n].heap == m.queues[n].heap && m'.queues[n].parked == m.queues[n].parked
    ensures forall n :: n in m.queues && QueueIndexed(m, n) ==> QueueIndexed(m', n)
    ensures forall l :: l in m.locals && LocalIndexed(m, l) ==> LocalIndexed(m', l)
    ensures forall k, l :: NotElsewhere(m, k, l) ==> NotElsewhere(m', k, l)
  {
    hide Stored;
    SameLocals(m, m');
    forall l | l in m.locals && LocalIndexed(m, l) ensures LocalIndexed(m', l) {
      assert m'.locals[l] == m.locals[l];
    }
  }

  lemma RejoinedCohorts(m: ManagerState, n: string, cohort: string)
    requires CohortsIndexed(m) && n in m.queues
    ensures CohortsIndexed(Rejoined(m, n, cohort))
  {
    var m', left := Rejoined(m, n, cohort), LeaveCohort(m.cohorts, m.queues[n].cohort, n);
    forall i | i in m.queues && i != n && m.queues[i].cohort != ""
      ensures m.queues[i].cohort in left && i in left[m.queues[i].cohort]
    {
      assert i in m.cohorts[m.queues[i].cohort] - {n};
    }
  }

  lemma UpdateQueueKeepsIndex(m: ManagerState, n: string, cohort: string, sel: Selector)
    requires IndexOk(m)
    ensures IndexOk(UpdateClusterQueue(m, n, cohort, sel))
  {
    hide FlushThese, QueueIndexed, LocalIndexed, FlushedWith, NotElsewhere, CohortsIndexed;
    if n in m.queues {
      var m' := Rejoined(m, n, cohort);
      OtherCohorts(m, m');
      RejoinedCohorts(m, n, cohort);
      forall l, k | l in m'.locals && k in m'.locals[l].items
        ensures NotElsewhere(m', k, l)
      {
        assert NotElsewhere(m, k, l);
      }
      FlushKeepsIndex(m', FlushedWith(m', n), sel);
    }
  }

  lemma DeleteQueueKeepsIndex(m: ManagerState, n: string, cohort: string)
    requires IndexOk(m)
    ensures IndexOk(DeleteClusterQueue(m, n, cohort))
  {
    hide Stored;
    if n in m.queues {
      var m' := DeleteClusterQueue(m, n, cohort);
      SameLocals(m, m');
      forall i | i in m'.queues ensures QueueIndexed(m', i) { assert QueueIndexed(m, i); }
      forall l | l in m'.locals ensures LocalIndexed(m', l) { assert LocalIndexed(m, l); }
      forall l, k | l in m'.locals && k in m'.locals[l].items
        ensures NotElsewhere(m', k, l)
      {
        assert NotElsewhere(m, k, l);
      }
    }
  }

  // ---------- every run ----------

  lemma QueueStepKeepsIndex(m: ManagerState, ev: Event)
    requires IndexOk(m) && Allowed(m, ev)
    requires ev.EvAddClusterQueue? || ev.EvUpdateClusterQueue? || ev.EvDeleteClusterQueue? || ev.EvAddLocalQueue?
          || ev.EvUpdateLocalQueue? || ev.EvDeleteLocalQueue?
    ensures IndexOk(Apply(m, ev))
  {
    hide IndexOk, NotElsewhere, AddClusterQueue, UpdateClusterQueue, DeleteClusterQueue, AddLocalQueue,
      UpdateLocalQueue, DeleteLocalQueue;
    match ev
    case EvAddClusterQueue(n, cohort, strategy, listed, sel) => AddQueueKeepsIndex(m, n, cohort, strategy, listed, sel);
    case EvUpdateClusterQueue(n, cohort, sel) => UpdateQueueKeepsIndex(m, n, cohort, sel);
    case EvDeleteClusterQueue(n, cohort) => DeleteQueueKeepsIndex(m, n, cohort);
    case EvAddLocalQueue(l, n, listed) => AddLocalKeepsIndex(m, l, n, listed);
    case EvUpdateLocalQueue(l, n) => UpdateLocalKeepsIndex(m, l, n);
    case EvDeleteLocalQueue(l) => DeleteLocalKeepsIndex(m, l);
  }

  lemma StepKeepsIndex(m: ManagerState, ev: Event)
    requires IndexOk(m) && Allowed(m, ev)
    ensures IndexOk(Apply(m, ev))
  {
    hide IndexOk, NotElsewhere, AddClusterQueue, UpdateClusterQueue, DeleteClusterQueue, AddLocalQueue,
      UpdateLocalQueue, DeleteLocalQueue,
      AddOrUpdate, UpdateWorkload, RemoveWorkload, RequeueWorkload, TakeHeads, FlushThese;
    match ev
    case EvAddOrUpdateWorkload(w) => AddOrUpdateKeepsIndex(m, w);
    case EvUpdateWorkload(was, w) => UpdateKeepsIndex(m, was, w);
    case EvDeleteWorkload(w) => RemoveKeepsIndex(m, w.key, w.QueueKey());
    case EvRequeue(info, current, reason) => RequeueKeepsIndex(m, info, current, reason);
    case EvRelease(w, sel) =>
      if w.QueueKey() in m.locals && m.locals[w.QueueKey()].clusterQueue in m.queues {
        FlushKeepsIndex(m, FlushedWith(m, m.locals[w.QueueKey()].clusterQueue), sel);
      }
    case EvFlush(ns, sel) =>
      FlushKeepsIndex(m, set n, j | n in ns && n in m.queues && j in FlushedWith(m, n) :: j, sel);
    case EvHeads(active, picks) => HeadsKeepIndex(m, active, picks);
    case _ => QueueStepKeepsIndex(m, ev);
  }

  ghost predicate Run(m: ManagerState, evs: seq<Event>, m': ManagerState)
    decreases |evs|
  {
    if evs == [] then m' == m else Allowed(m, evs[0]) && Run(Apply(m, evs[0]), evs[1..], m')
  }

  /** Over every run of calls, each cluster queue holds exactly what its local queues list, once. */
  lemma {:induction false} RunKeepsIndex(m: ManagerState, evs: seq<Event>, m': ManagerState)
    requires IndexOk(m) && Run(m, evs, m')
    ensures IndexOk(m')
    decreases |evs|
  {
    hide IndexOk, Apply, Allowed;
    if evs != [] {
      StepKeepsIndex(m, evs[0]);
      RunKeepsIndex(Apply(m, evs[0]), evs[1..], m');
    }
  }
}
