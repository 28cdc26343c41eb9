/** The Manager object, over its PendingQueue objects; each method holds the lock for its whole body. */
module ManagerObjects {
  import opened Model
  import opened Heaps
  import opened PendingQueues
  import opened Managers
  import opened ManagerIndex

  class Manager {
    var clusterQueues: map<string, PendingQueue>
    var localQueues: map<Name, LocalQueue>
    var cohorts: map<string, set<string>>

    ghost function Heaps(): set<Heap> reads this {
      set n | n in clusterQueues :: clusterQueues[n].heap
    }

    /** No queue object or heap is shared between names, and items are stored under their keys. */
    ghost predicate Valid() reads this, clusterQueues.Values, Heaps() {
      && (forall a, b :: a in clusterQueues && b in clusterQueues && a != b ==>
            clusterQueues[a] != clusterQueues[b] && clusterQueues[a].heap != clusterQueues[b].heap)
      && (forall n :: n in clusterQueues ==> clusterQueues[n].Valid())
      && (forall l :: l in localQueues ==> Keyed(localQueues[l].items))
    }

    ghost function View(): ManagerState reads this, clusterQueues.Values, Heaps() {
      ManagerState(map n | n in clusterQueues :: clusterQueues[n].View(), localQueues, cohorts)
    }

    constructor ()
      ensures Valid() && View() == ManagerState(map[], map[], map[])
    {
      clusterQueues, localQueues, cohorts := map[], map[], map[];
    }

    // ---------- one queue at a time ----------

    /** Where one queue object was updated, only its value changes in the manager's view. */
    twostate lemma OneChanged(n: string)
      requires old(Valid()) && unchanged(this) && n in clusterQueues && clusterQueues[n].Valid()
      requires forall i :: i in clusterQueues && i != n ==>
                 unchanged(clusterQueues[i]) && unchanged(clusterQueues[i].heap)
      ensures Valid() && View() == WithQueue(old(View()), n, clusterQueues[n].View())
    {
      hide PendingQueue.Valid, PendingQueue.View, Keyed;
      forall i | i in clusterQueues && i != n
        ensures clusterQueues[i].Valid() && clusterQueues[i].View() == old(clusterQueues[i].View())
      {
      }
      assert View().queues == WithQueue(old(View()), n, clusterQueues[n].View()).queues;
    }

    method PushTo(n: string, info: Info)
      requires Valid() && n in clusterQueues
      modifies clusterQueues[n], clusterQueues[n].heap
      ensures Valid() && View() == WithQueue(old(View()), n, Pushed(old(View()).queues[n], info))
    {
      hide PendingQueue.Valid, PendingQueue.View, Pushed;
      clusterQueues[n].PushOrUpdate(info);
      OneChanged(n);
    }

    method RequeueIn(n: string, info: Info, reason: RequeueReason) returns (added: bool)
      requires Valid() && n in clusterQueues
      modifies clusterQueues[n], clusterQueues[n].heap
      ensures Valid()
      ensures var q := old(View()).queues[n]; var (q', a) := Requeue(q, info, Immediate(q.strategy, reason));
              View() == WithQueue(old(View()), n, q') && added == a
    {
      hide PendingQueue.Valid, Heap.Contents, Requeue, Immediate;
      added := clusterQueues[n].RequeueIfNotPresent(info, reason);
      OneChanged(n);
    }

    method DeleteIn(n: string, k: Name)
      requires Valid() && n in clusterQueues
      modifies clusterQueues[n], clusterQueues[n].heap
      ensures Valid() && View() == WithQueue(old(View()), n, Drop(old(View()).queues[n], {k}))
    {
      hide PendingQueue.Valid, PendingQueue.View, Drop;
      clusterQueues[n].Delete(k);
      OneChanged(n);
    }

    method DropItems(n: string, items: map<Name, Info>)
      requires Valid() && n in clusterQueues
      modifies clusterQueues[n], clusterQueues[n].heap
      ensures Valid() && View() == WithQueue(old(View()), n, Drop(old(View()).queues[n], items.Keys))
    {
      hide PendingQueue.Valid, PendingQueue.View, Drop;
      clusterQueues[n].DeleteFromLocalQueue(items);
      OneChanged(n);
    }

    method AddItems(n: string, items: map<Name, Info>)
      requires Valid() && n in clusterQueues && Keyed(items)
      modifies clusterQueues[n].heap
      ensures Valid() && View() == WithQueue(old(View()), n, AddFrom(old(View()).queues[n], items))
    {
      hide PendingQueue.Valid, PendingQueue.View, AddFrom;
      var added := clusterQueues[n].AddFromLocalQueue(items);
      OneChanged(n);
    }

    method FlushOne(n: string, sel: Selector) returns (moved: bool)
      requires Valid() && n in clusterQueues
      modifies clusterQueues[n], clusterQueues[n].heap
      ensures Valid() && View() == WithQueue(old(View()), n, Flush(old(View()).queues[n], For(sel, n)))
      ensures moved <==> MovesAny(old(View()).queues[n], {}, For(sel, n))
    {
      hide PendingQueue.Valid, PendingQueue.View, Flush, MovesAny;
      moved := clusterQueues[n].QueueInadmissibleWorkloads(For(sel, n));
      OneChanged(n);
    }

    method PopFrom(n: string) returns (head: Option<Info>)
      requires Valid() && n in clusterQueues
      modifies clusterQueues[n], clusterQueues[n].heap
      ensures Valid()
      ensures var q := old(View()).queues[n];
              match head
              case None => q.heap == map[] && View() == WithQueue(old(View()), n, PopNothing(q))
              case Some(info) =>
                && IsHead(q, info.obj.key) && q.heap[info.obj.key] == info
                && View() == WithQueue(old(View()), n, PopKey(q, info.obj.key))
    {
      hide PendingQueue.Valid, Heap.Contents, IsHead, PopNothing, PopKey;
      head := clusterQueues[n].Pop();
      OneChanged(n);
    }

    // ---------- flushes ----------

    /** queueAllInadmissibleWorkloadsInCohort, member by member. */
    method FlushCohort(n: string, sel: Selector) returns (queued: bool)
      requires Valid() && n in clusterQueues
      modifies clusterQueues.Values, Heaps()
      ensures Valid() && View() == FlushThese(old(View()), FlushedWith(old(View()), n), sel)
      ensures queued <==> AnyMoves(old(View()), FlushedWith(old(View()), n), sel)
    {
      hide Flush, MovesAny, AnyMoves, FlushThese, Valid, Heap.Contents;
      ghost var m := View();
      NoMoves(m, sel);
      FlushNone(m, sel);
      if clusterQueues[n].cohort == "" {
        FlushOneMore(m, {}, n, sel);
        MovesWith(m, {}, n, sel);
        assert {} + {n} == {n};
        queued := FlushOne(n, sel);
        return;
      }
      var members := if clusterQueues[n].cohort in cohorts then cohorts[clusterQueues[n].cohort] else {};
      queued := FlushMembers(members, sel);
      assert FlushedWith(m, n) == members * m.queues.Keys;
    }

    method FlushMembers(members: set<string>, sel: Selector) returns (queued: bool)
      requires Valid()
      modifies clusterQueues.Values, Heaps()
      ensures Valid() && View() == FlushThese(old(View()), members * old(View()).queues.Keys, sel)
      ensures queued <==> AnyMoves(old(View()), members * old(View()).queues.Keys, sel)
    {
      hide Flush, MovesAny, AnyMoves, FlushThese, Valid, PendingQueue.View;
      ghost var m := View();
      var todo := members;
      queued := false;
      NoMoves(m, sel);
      FlushNone(m, sel);
      assert (members - todo) * m.queues.Keys == {};
      while todo != {}
        invariant todo <= members && Valid() && View() == FlushThese(m, (members - todo) * m.queues.Keys, sel)
        invariant queued <==> AnyMoves(m, (members - todo) * m.queues.Keys, sel)
        decreases todo
      {
        var j :| j in todo;
        ghost var done := (members - todo) * m.queues.Keys;
        KeysAfterFlush(m, done, sel);
        if j in clusterQueues {
          FlushOneMore(m, done, j, sel);
          MovesWith(m, done, j, sel);
          var moved := FlushOne(j, sel);
          queued := moved || queued;
        }
        assert (members - (todo - {j})) * m.queues.Keys == if j in m.queues then done + {j} else done;
        todo := todo - {j};
      }
      assert members - {} == members;
    }

    method QueueAssociatedInadmissibleWorkloadsAfter(w: Workload, sel: Selector)
      requires Valid()
      modifies clusterQueues.Values, Heaps()
      ensures Valid() && View() == ReleaseAfter(old(View()), w, sel)
      ensures KeptIndexed(old(View()), EvRelease(w, sel), View())
    {
      hide KeptIndexed, Flush, PendingQueue.View, PendingQueue.Valid, FlushThese, FlushedWith;
      StepKept(View(), EvRelease(w, sel));
      if w.QueueKey() in localQueues && localQueues[w.QueueKey()].clusterQueue in clusterQueues {
        var queued := FlushCohort(localQueues[w.QueueKey()].clusterQueue, sel);
      }
    }

    /** Flushes the cohorts of several queues; a queue reached twice is flushed twice, to the same effect. */
    method QueueInadmissibleWorkloads(ns: set<string>, sel: Selector)
      requires Valid()
      modifies clusterQueues.Values, Heaps()
      ensures Valid() && View() == QueueInadmissible(old(View()), ns, sel)
      ensures KeptIndexed(old(View()), EvFlush(ns, sel), View())
    {
      hide KeptIndexed, FlushThese, FlushedWith, ReachedFrom, PendingQueue.View, Valid, AnyMoves;
      StepKept(View(), EvFlush(ns, sel));
      ghost var m := View();
      var todo := ns;
      FlushNone(m, sel);
      ReachedNone(m, ns);
      while todo != {}
        invariant todo <= ns && Valid() && View() == FlushThese(m, ReachedFrom(m, ns - todo), sel)
        decreases todo
      {
        var n :| n in todo;
        KeysAfterFlush(m, ReachedFrom(m, ns - todo), sel);
        ReachedOneMore(m, ns, todo, n);
        if n in clusterQueues {
          FlushAgain(m, ReachedFrom(m, ns - todo), n, sel);
          var queued := FlushCohort(n, sel);
        }
        todo := todo - {n};
      }
      assert ns - {} == ns;
    }

    // ---------- cluster queues ----------

    method AddClusterQueue(n: string, cohort: string, strategy: Strategy, listed: seq<Name>, sel: Selector)
      returns (ok: bool)
      requires Valid()
      modifies this, clusterQueues.Values, Heaps()
      ensures Valid() && ok == (n !in old(clusterQueues))
      ensures View() == Managers.AddClusterQueue(old(View()), n, cohort, strategy, listed, sel)
      ensures KeptIndexed(old(View()), EvAddClusterQueue(n, cohort, strategy, listed, sel), View())
    {
      hide KeptIndexed, FlushThese, FlushedWith, AddListed, PendingQueue.View, Valid, NewPending, JoinCohort;
      StepKept(View(), EvAddClusterQueue(n, cohort, strategy, listed, sel));
      if n in clusterQueues {
        return false;
      }
      Install(n, cohort, strategy);
      AddListedQueues(n, listed);
      ghost var q, qs := AddListed(NewPending(cohort, strategy), localQueues, listed), old(View()).queues;
      assert qs[n := NewPending(cohort, strategy)][n := q] == qs[n := q];
      var queued := FlushCohort(n, sel);
      return true;
    }

    method AddListedQueues(n: string, listed: seq<Name>)
      requires Valid() && n in clusterQueues
      modifies clusterQueues[n].heap
      ensures Valid() && View() == WithQueue(old(View()), n, AddListed(old(View()).queues[n], localQueues, listed))
    {
      hide AddFrom, PendingQueue.View, Valid;
      ghost var m := View();
      for i := 0 to |listed|
        invariant Valid() && View() == WithQueue(m, n, AddListed(m.queues[n], localQueues, listed[..i]))
      {
        assert listed[..i + 1][..i] == listed[..i];
        if listed[i] in localQueues {
          KeyedItems(listed[i]);
          AddItems(n, localQueues[listed[i]].items);
        }
      }
      assert listed[..|listed|] == listed;
    }

    lemma KeyedItems(l: Name)
      requires Valid() && l in localQueues
      ensures Keyed(localQueues[l].items)
    {
    }

    /** A new, empty queue object under a new name, entered in its cohort. */
    method Install(n: string, cohort: string, strategy: Strategy)
      requires Valid() && n !in clusterQueues
      modifies this
      ensures Valid() && n in clusterQueues && fresh(clusterQueues[n]) && fresh(clusterQueues[n].heap)
      ensures clusterQueues == old(clusterQueues)[n := clusterQueues[n]]
      ensures View() == old(View()).(queues := old(View()).queues[n := NewPending(cohort, strategy)],
                                     cohorts := if cohort != "" then JoinCohort(old(cohorts), cohort, n)
                                                else old(cohorts))
    {
      hide PendingQueue.View, NewPending, Valid;
      var q := new PendingQueue(cohort, strategy);
      clusterQueues := clusterQueues[n := q];
      OneAdded(n, q);
      if cohort != "" {
        SetCohorts(JoinCohort(cohorts, cohort, n));
      }
    }

    /** A new object under a new name adds its value to the manager's view. */
    twostate lemma OneAdded(n: string, new q: PendingQueue)
      requires old(Valid()) && n !in old(clusterQueues) && clusterQueues == old(clusterQueues)[n := q]
      requires unchanged(`localQueues) && unchanged(`cohorts) && fresh(q) && fresh(q.heap) && q.Valid()
      requires forall i :: i in old(clusterQueues) ==>
                 unchanged(old(clusterQueues)[i]) && unchanged(old(clusterQueues)[i].heap)
      ensures Valid() && View() == old(View()).(queues := old(View()).queues[n := q.View()])
    {
      hide PendingQueue.Valid, PendingQueue.View, Keyed;
      ghost var was := old(clusterQueues);
      forall i | i in was ensures clusterQueues[i] == was[i] && was[i].Valid() && was[i].View() == old(was[i].View()) {
      }
      assert View().queues == old(View()).queues[n := q.View()];
    }

    method SetCohorts(cs: map<string, set<string>>)
      requires Valid()
      modifies this`cohorts
      ensures Valid() && View() == old(View()).(cohorts := cs) && cohorts == cs
    {
      hide PendingQueue.View, PendingQueue.Valid, Keyed;
      cohorts := cs;
      assert View().queues == old(View()).queues;
    }

    method UpdateClusterQueue(n: string, cohort: string, sel: Selector) returns (ok: bool)
      requires Valid()
      modifies this, clusterQueues.Values, Heaps()
      ensures Valid() && ok == (n in old(clusterQueues))
      ensures View() == Managers.UpdateClusterQueue(old(View()), n, cohort, sel)
      ensures KeptIndexed(old(View()), EvUpdateClusterQueue(n, cohort, sel), View())
    {
      hide KeptIndexed, FlushThese, FlushedWith, Valid, Heap.Contents, JoinCohort, LeaveCohort;
      StepKept(View(), EvUpdateClusterQueue(n, cohort, sel));
      if n !in clusterQueues {
        return false;
      }
      var was := clusterQueues[n].cohort;
      UpdateSpec(n, cohort);
      if was != cohort {
        UpdateCohort(was, cohort, n);
      }
      var queued := FlushCohort(n, sel);
      return true;
    }

    method UpdateSpec(n: string, cohort: string)
      requires Valid() && n in clusterQueues
      modifies clusterQueues[n]
      ensures Valid() && View() == WithQueue(old(View()), n, old(View()).queues[n].(cohort := cohort))
    {
      hide PendingQueue.Valid, Heap.Contents;
      clusterQueues[n].Update(cohort);
      OneChanged(n);
    }

    method DeleteCohort(cohort: string, n: string)
      modifies this`cohorts
      ensures cohorts == LeaveCohort(old(cohorts), cohort, n)
    {
      if cohort != "" && cohort in cohorts {
        cohorts := cohorts[cohort := cohorts[cohort] - {n}];
        if cohorts[cohort] == {} {
          cohorts := cohorts - {cohort};
        }
      }
    }

    method UpdateCohort(was: string, cohort: string, n: string)
      requires Valid()
      modifies this`cohorts
      ensures Valid() && View() == old(View()).(cohorts := JoinCohort(LeaveCohort(old(cohorts), was, n), cohort, n))
    {
      hide PendingQueue.View, PendingQueue.Valid, Keyed, JoinCohort, LeaveCohort;
      DeleteCohort(was, n);
      cohorts := JoinCohort(cohorts, cohort, n);
      assert View().queues == old(View()).queues;
    }

    method DeleteClusterQueue(n: string, cohort: string)
      requires Valid()
      modifies this
      ensures Valid() && View() == Managers.DeleteClusterQueue(old(View()), n, cohort)
      ensures KeptIndexed(old(View()), EvDeleteClusterQueue(n, cohort), View())
    {
      hide KeptIndexed, PendingQueue.View, PendingQueue.Valid, Keyed, LeaveCohort;
      StepKept(View(), EvDeleteClusterQueue(n, cohort));
      if n in clusterQueues {
        clusterQueues := clusterQueues - {n};
        DeleteCohort(cohort, n);
        assert View().queues == old(View()).queues - {n};
      }
    }

    // ---------- local queues ----------

    method AddLocalQueue(l: Name, n: string, listed: seq<Workload>) returns (ok: bool)
      requires Valid()
      modifies this, clusterQueues.Values, Heaps()
      ensures Valid() && ok == (l !in old(localQueues))
      ensures View() == Managers.AddLocalQueue(old(View()), l, n, listed)
      ensures KeptIndexed(old(View()), EvAddLocalQueue(l, n, listed), View())
    {
      hide KeptIndexed, NewInfo, AddFrom, PendingQueue.View, PendingQueue.Valid;
      StepKept(View(), EvAddLocalQueue(l, n, listed));
      if l in localQueues {
        return false;
      }
      var items: map<Name, Info> := map[];
      for i := 0 to |listed|
        invariant items == ItemsOf(listed[..i]) && Keyed(items)
        modifies {}
      {
        assert listed[..i + 1][..i] == listed[..i];
        if !listed[i].IsAdmitted() {
          NewInfoKeeps(listed[i]);
          items := items[listed[i].key := NewInfo(listed[i])];
        }
      }
      assert listed[..|listed|] == listed;
      SetLocal(l, LocalQueue(n, items));
      if n in clusterQueues {
        AddItems(n, items);
      }
      return true;
    }

    method SetLocal(l: Name, lq: LocalQueue)
      requires Valid() && Keyed(lq.items)
      modifies this`localQueues
      ensures Valid() && View() == WithLocal(old(View()), l, lq)
    {
      hide PendingQueue.View, PendingQueue.Valid, Keyed;
      localQueues := localQueues[l := lq];
      assert View().queues == old(View()).queues;
    }

    method UpdateLocalQueue(l: Name, n: string) returns (ok: bool)
      requires Valid()
      modifies this, clusterQueues.Values, Heaps()
      ensures Valid() && ok == (l in old(localQueues))
      ensures View() == Managers.UpdateLocalQueue(old(View()), l, n)
      ensures KeptIndexed(old(View()), EvUpdateLocalQueue(l, n), View())
    {
      hide KeptIndexed, AddFrom, Drop, PendingQueue.View, PendingQueue.Valid, Keyed;
      StepKept(View(), EvUpdateLocalQueue(l, n));
      if l !in localQueues {
        return false;
      }
      var lq := localQueues[l];
      if lq.clusterQueue != n {
        if lq.clusterQueue in clusterQueues {
          DropItems(lq.clusterQueue, lq.items);
        }
        if n in clusterQueues {
          AddItems(n, lq.items);
        }
      }
      SetLocal(l, lq.(clusterQueue := n));
      return true;
    }

    method DeleteLocalQueue(l: Name)
      requires Valid()
      modifies this, clusterQueues.Values, Heaps()
      ensures Valid() && View() == Managers.DeleteLocalQueue(old(View()), l)
      ensures KeptIndexed(old(View()), EvDeleteLocalQueue(l), View())
    {
      hide KeptIndexed, Drop, PendingQueue.View, PendingQueue.Valid, Keyed;
      StepKept(View(), EvDeleteLocalQueue(l));
      if l in localQueues {
        var lq := localQueues[l];
        if lq.clusterQueue in clusterQueues {
          DropItems(lq.clusterQueue, lq.items);
        }
        RemoveLocal(l);
      }
    }

    method RemoveLocal(l: Name)
      requires Valid()
      modifies this`localQueues
      ensures Valid() && View() == old(View()).(locals := old(localQueues) - {l})
    {
      hide PendingQueue.View, PendingQueue.Valid, Keyed;
      localQueues := localQueues - {l};
      assert View().queues == old(View()).queues;
    }

    // ---------- workloads ----------

    method AddOrUpdateWorkload(w: Workload) returns (queued: bool)
      requires Valid()
      modifies this, clusterQueues.Values, Heaps()
      ensures Valid() && View() == AddOrUpdate(old(View()), w)
      ensures queued <==>
              w.QueueKey() in old(localQueues) && old(localQueues)[w.QueueKey()].clusterQueue in old(clusterQueues)
      ensures clusterQueues == old(clusterQueues)
      ensures KeptIndexed(old(View()), EvAddOrUpdateWorkload(w), View())
    {
      hide KeptIndexed, Pushed, NewInfo, PendingQueue.View, PendingQueue.Valid;
      StepKept(View(), EvAddOrUpdateWorkload(w));
      var l := w.QueueKey();
      if l !in localQueues {
        return false;
      }
      NewInfoKeeps(w);
      var info, n := NewInfo(w), localQueues[l].clusterQueue;
      SetLocal(l, localQueues[l].(items := localQueues[l].items[w.key := info]));
      if n !in clusterQueues {
        return false;
      }
      PushTo(n, info);
      return true;
    }

    method RequeueWorkload(info: Info, current: Option<Workload>, reason: RequeueReason) returns (added: bool)
      requires Valid()
      modifies this, clusterQueues.Values, Heaps()
      ensures Valid() && View() == Managers.RequeueWorkload(old(View()), info, current, reason)
      ensures added <==> RequeueAdds(old(View()), info, current, reason)
      ensures KeptIndexed(old(View()), EvRequeue(info, current, reason), View())
    {
      hide KeptIndexed, Requeue, Immediate, PendingQueue.View, PendingQueue.Valid;
      StepKept(View(), EvRequeue(info, current, reason));
      if current.None? || current.value.IsAdmitted() || current.value.QueueKey() !in localQueues {
        return false;
      }
      var l, info' := current.value.QueueKey(), info.(obj := current.value);
      var n := localQueues[l].clusterQueue;
      SetLocal(l, localQueues[l].(items := localQueues[l].items[info'.obj.key := info']));
      if n !in clusterQueues {
        return false;
      }
      added := RequeueIn(n, info', reason);
    }

    method DeleteFromQueues(k: Name, l: Name)
      requires Valid()
      modifies this, clusterQueues.Values, Heaps()
      ensures Valid() && View() == RemoveWorkload(old(View()), k, l)
      ensures clusterQueues == old(clusterQueues) && localQueues.Keys == old(localQueues.Keys)
      ensures forall j :: j in localQueues ==> localQueues[j].clusterQueue == old(localQueues)[j].clusterQueue
      ensures RemovedClean(old(View()), k, l, View())
    {
      hide Drop, PendingQueue.View, PendingQueue.Valid, RemovedClean;
      RemovedKept(View(), k, l);
      if l in localQueues {
        var n := localQueues[l].clusterQueue;
        SetLocal(l, localQueues[l].(items := localQueues[l].items - {k}));
        if n in clusterQueues {
          DeleteIn(n, k);
        }
      }
    }

    method UpdateWorkload(was: Workload, w: Workload) returns (queued: bool)
      requires Valid()
      modifies this, clusterQueues.Values, Heaps()
      ensures Valid() && View() == Managers.UpdateWorkload(old(View()), was, w)
      ensures queued <==>
              w.QueueKey() in old(localQueues) && old(localQueues)[w.QueueKey()].clusterQueue in old(clusterQueues)
      ensures KeptIndexed(old(View()), EvUpdateWorkload(was, w), View())
    {
      hide KeptIndexed, AddOrUpdate, RemoveWorkload, RemovedClean, PendingQueue.View, Valid;
      StepKept(View(), EvUpdateWorkload(was, w));
      if was.spec.queueName != w.spec.queueName {
        DeleteFromQueues(w.key, was.QueueKey());
      }
      queued := AddOrUpdateWorkload(w);
    }

    // ---------- heads ----------

    /** Pops the queue; a head also leaves the items of its LocalQueue. */
    method TakeHead(n: string) returns (head: Option<Info>)
      requires Valid() && n in clusterQueues && HeadsStored(View(), n)
      modifies this`localQueues, clusterQueues[n], clusterQueues[n].heap
      ensures Valid() && localQueues.Keys == old(localQueues.Keys)
      ensures var m := old(View()); var q := m.queues[n];
              match head
              case None => q.heap == map[] && View() == WithQueue(m, n, PopNothing(q))
              case Some(info) =>
                var k, l := info.obj.key, info.obj.QueueKey();
                && k in q.heap && IsHead(q, k) && q.heap[k] == info && l in m.locals
                && View() == WithLocal(WithQueue(m, n, PopKey(q, k)), l, m.locals[l].(items := m.locals[l].items - {k}))
    {
      hide PendingQueue.View, PendingQueue.Valid, PopNothing, PopKey;
      head := PopFrom(n);
      if head.Some? {
        var l := head.value.obj.QueueKey();
        SetLocal(l, localQueues[l].(items := localQueues[l].items - {head.value.obj.key}));
      }
    }

    /** Takes one head from every active queue; the LocalQueue of each head is there to be updated. */
    method Heads(active: set<string>) returns (heads: map<string, Info>, ghost picks: map<string, Name>)
      requires Valid() && IndexOk(View())
      modifies this`localQueues, clusterQueues.Values, Heaps()
      ensures Valid() && PicksOk(old(View()), active, picks) && View() == TakeHeads(old(View()), active, picks)
      ensures heads.Keys == picks.Keys
      ensures forall n :: n in heads ==>
                var q := old(View()).queues[n];
                picks[n] in q.heap && heads[n] == q.heap[picks[n]].(clusterQueue := n)
    {
      hide IndexOk, TakeHeads, PopNothing, PopKey, IsHead, PickedSoFar, Valid, PendingQueue.View;
      ghost var m := View();
      assert m.queues.Keys == clusterQueues.Keys;
      heads, picks := map[], map[];
      var todo := clusterQueues.Keys;
      NoHeadsYet(m, active);
      NonePicked(m, active);
      while todo != {}
        invariant todo <= m.queues.Keys && Valid() && View() == TakeHeads(m, active - todo, picks)
        invariant clusterQueues == old(clusterQueues) && forall n :: n in todo ==> View().queues[n] == m.queues[n]
        invariant PickedSoFar(m, active, todo, picks, heads)
        invariant localQueues.Keys == m.locals.Keys
        decreases todo
      {
        var n :| n in todo;
        if n in active {
          StoredHeads(m, n);
          var head := TakeHead(n);
          match head {
            case None =>
              NotPicked(m, active, todo, picks, heads, n);
              TookNothing(m, active - todo, picks, n);
            case Some(info) =>
              PickOneMore(m, active, todo, picks, heads, n, info);
              TookHead(m, active - todo, picks, n, info.obj.key);
              heads, picks := heads[n := info.(clusterQueue := n)], picks[n := info.obj.key];
          }
          assert active - (todo - {n}) == active - todo + {n};
        } else {
          NotPicked(m, active, todo, picks, heads, n);
          assert active - (todo - {n}) == active - todo;
        }
        todo := todo - {n};
      }
      assert active - {} == active;
      AllPicked(m, active, picks, heads);
    }
  }

  lemma NoMoves(m: ManagerState, sel: Selector)
    ensures !AnyMoves(m, {}, sel)
  {
  }

  lemma MovesWith(m: ManagerState, done: set<string>, j: string, sel: Selector)
    requires j in m.queues
    ensures AnyMoves(m, done + {j}, sel) <==> AnyMoves(m, done, sel) || MovesAny(m.queues[j], {}, For(sel, j))
  {
    hide MovesAny;
  }

  /** A consistent call leaves each cluster queue holding exactly what its LocalQueues list. */
  ghost predicate KeptIndexed(m: ManagerState, ev: Event, m': ManagerState) {
    IndexOk(m) && Allowed(m, ev) ==> IndexOk(m')
  }

  lemma StepKept(m: ManagerState, ev: Event)
    ensures KeptIndexed(m, ev, Apply(m, ev))
  {
    hide IndexOk, Allowed, Apply;
    if IndexOk(m) && Allowed(m, ev) { StepKeepsIndex(m, ev); }
  }

  /** A workload that only LocalQueue l lists is in no LocalQueue afterwards, and the queues hold what is listed. */
  ghost predicate RemovedClean(m: ManagerState, k: Name, l: Name, m': ManagerState) {
    IndexOk(m) && NotElsewhere(m, k, l) ==> IndexOk(m') && forall j :: j in m'.locals ==> k !in m'.locals[j].items
  }

  lemma RemovedKept(m: ManagerState, k: Name, l: Name)
    ensures RemovedClean(m, k, l, RemoveWorkload(m, k, l))
  {
    hide IndexOk;
    if IndexOk(m) && NotElsewhere(m, k, l) { RemoveKeepsIndex(m, k, l); }
  }

  /** The heap entries of queue n belong to LocalQueues that exist. */
  ghost predicate HeadsStored(m: ManagerState, n: string)
    requires n in m.queues
  {
    forall k :: k in m.queues[n].heap ==> m.queues[n].heap[k].obj.QueueKey() in m.locals
  }

  /** A flush of these queues brings some workload into a heap. */
  ghost predicate AnyMoves(m: ManagerState, ns: set<string>, sel: Selector) {
    exists j :: j in ns && j in m.queues && MovesAny(m.queues[j], {}, For(sel, j))
  }

  /** The heads taken from the queues that are done. */
  ghost predicate PickedSoFar(m: ManagerState, active: set<string>, todo: set<string>, picks: map<string, Name>,
                              heads: map<string, Info>) {
    && (forall n :: n in picks <==> n in m.queues && n !in todo && n in active && m.queues[n].heap != map[])
    && heads.Keys == picks.Keys
    && (forall n :: n in picks ==>
          IsHead(m.queues[n], picks[n]) && heads[n] == m.queues[n].heap[picks[n]].(clusterQueue := n))
  }

  lemma NonePicked(m: ManagerState, active: set<string>)
    ensures PickedSoFar(m, active, m.queues.Keys, map[], map[])
  {
  }

  lemma PickOneMore(m: ManagerState, active: set<string>, todo: set<string>, picks: map<string, Name>,
                    heads: map<string, Info>, n: string, info: Info)
    requires PickedSoFar(m, active, todo, picks, heads) && n in m.queues && n in todo && n in active
    requires m.queues[n].heap != map[]
    requires IsHead(m.queues[n], info.obj.key) && m.queues[n].heap[info.obj.key] == info
    ensures PickedSoFar(m, active, todo - {n}, picks[n := info.obj.key], heads[n := info.(clusterQueue := n)])
    ensures n !in picks
  {
    hide IsHead;
  }

  lemma NotPicked(m: ManagerState, active: set<string>, todo: set<string>, picks: map<string, Name>,
                  heads: map<string, Info>, n: string)
    requires PickedSoFar(m, active, todo, picks, heads) && n in todo && n in m.queues
    requires (n !in active || m.queues[n].heap == map[])
    ensures PickedSoFar(m, active, todo - {n}, picks, heads) && n !in picks
  {
    hide IsHead;
  }

  lemma AllPicked(m: ManagerState, active: set<string>, picks: map<string, Name>, heads: map<string, Info>)
    requires PickedSoFar(m, active, {}, picks, heads)
    ensures PicksOk(m, active, picks) && heads.Keys == picks.Keys
    ensures forall n :: n in heads ==>
              picks[n] in m.queues[n].heap && heads[n] == m.queues[n].heap[picks[n]].(clusterQueue := n)
  {
  }

  lemma FlushOneMore(m: ManagerState, done: set<string>, n: string, sel: Selector)
    requires n in m.queues && n !in done
    ensures WithQueue(FlushThese(m, done, sel), n, Flush(m.queues[n], For(sel, n))) == FlushThese(m, done + {n}, sel)
    ensures done == {} ==> WithQueue(m, n, Flush(m.queues[n], For(sel, n))) == FlushThese(m, {n}, sel)
    ensures FlushThese(m, done, sel).queues[n] == m.queues[n]
  {
    hide Flush;
    assert WithQueue(FlushThese(m, done, sel), n, Flush(m.queues[n], For(sel, n))).queues ==
           FlushThese(m, done + {n}, sel).queues;
  }

  lemma FlushNone(m: ManagerState, sel: Selector)
    ensures FlushThese(m, {}, sel) == m
  {
    hide Flush;
    assert FlushThese(m, {}, sel).queues == m.queues;
  }

  lemma ReachedNone(m: ManagerState, ns: set<string>)
    ensures ReachedFrom(m, ns - ns) == {}
  {
  }

  lemma ReachedOneMore(m: ManagerState, ns: set<string>, todo: set<string>, n: string)
    requires n in todo && n in ns
    ensures n in m.queues ==> ReachedFrom(m, ns - (todo - {n})) == ReachedFrom(m, ns - todo) + FlushedWith(m, n)
    ensures n !in m.queues ==> ReachedFrom(m, ns - (todo - {n})) == ReachedFrom(m, ns - todo)
  {
    hide FlushedWith;
  }

  lemma KeysAfterFlush(m: ManagerState, ns: set<string>, sel: Selector)
    ensures FlushThese(m, ns, sel).queues.Keys == m.queues.Keys
  {
  }

  lemma FlushTwice(q: Pending, matches: string -> bool)
    ensures Flush(Flush(q, matches), matches) == Flush(q, matches)
  {
    var q' := Flush(q, matches);
    assert Stays(q', matches) == q'.parked;
    assert q'.parked - q'.parked.Keys == map[];
    assert map[] + q'.heap == q'.heap;
  }

  lemma FlushAgain(m: ManagerState, done: set<string>, n: string, sel: Selector)
    requires n in m.queues
    ensures n in FlushThese(m, done, sel).queues
    ensures var m' := FlushThese(m, done, sel);
            FlushThese(m', FlushedWith(m', n), sel) == FlushThese(m, done + FlushedWith(m, n), sel)
  {
    var m', more := FlushThese(m, done, sel), FlushedWith(m, n);
    assert FlushedWith(m', n) == more by {
      assert m'.queues.Keys == m.queues.Keys && m'.cohorts == m.cohorts && m'.queues[n].cohort == m.queues[n].cohort;
    }
    forall i | i in m.queues ensures FlushThese(m', more, sel).queues[i] == FlushThese(m, done + more, sel).queues[i] {
      FlushTwice(m.queues[i], For(sel, i));
    }
    assert FlushThese(m', more, sel).queues == FlushThese(m, done + more, sel).queues;
  }

  lemma StoredHeads(m: ManagerState, n: string)
    requires IndexOk(m) && n in m.queues
    ensures HeadsStored(m, n)
  {
    assert QueueIndexed(m, n);
    forall k | k in m.queues[n].heap ensures m.queues[n].heap[k].obj.QueueKey() in m.locals {
      assert Stored(m, n, k, m.queues[n].heap[k]);
    }
  }

  lemma NoHeadsYet(m: ManagerState, active: set<string>)
    ensures TakeHeads(m, active - m.queues.Keys, map[]) == m
  {
    var m' := TakeHeads(m, active - m.queues.Keys, map[]);
    assert m'.queues == m.queues;
    forall l | l in m.locals ensures m'.locals[l] == m.locals[l] {
      assert PoppedFrom(m, map[], l) == {};
      assert m.locals[l].items - {} == m.locals[l].items;
    }
    assert m'.locals == m.locals;
  }

  lemma TookNothing(m: ManagerState, active: set<string>, picks: map<string, Name>, n: string)
    requires n in m.queues && n !in active && n !in picks
    ensures WithQueue(TakeHeads(m, active, picks), n, PopNothing(m.queues[n])) == TakeHeads(m, active + {n}, picks)
  {
    assert WithQueue(TakeHeads(m, active, picks), n, PopNothing(m.queues[n])).queues ==
           TakeHeads(m, active + {n}, picks).queues;
  }

  lemma TookHead(m: ManagerState, active: set<string>, picks: map<string, Name>, n: string, k: Name)
    requires n in m.queues && n !in active && n !in picks && k in m.queues[n].heap
    requires m.queues[n].heap[k].obj.QueueKey() in m.locals
    ensures var l, m' := m.queues[n].heap[k].obj.QueueKey(), TakeHeads(m, active, picks);
            l in m'.locals &&
            WithLocal(WithQueue(m', n, PopKey(m.queues[n], k)), l, m'.locals[l].(items := m'.locals[l].items - {k}))
            == TakeHeads(m, active + {n}, picks[n := k])
  {
    hide PopKey, PopNothing, PoppedFrom;
    TookHeadQueues(m, active, picks, n, k);
    TookHeadLocals(m, active, picks, n, k);
  }

  lemma TookHeadQueues(m: ManagerState, active: set<string>, picks: map<string, Name>, n: string, k: Name)
    requires n in m.queues && n !in active && n !in picks
    ensures TakeHeads(m, active, picks).queues[n := PopKey(m.queues[n], k)] ==
            TakeHeads(m, active + {n}, picks[n := k]).queues
  {
  }

  lemma TookHeadLocals(m: ManagerState, active: set<string>, picks: map<string, Name>, n: string, k: Name)
    requires n in m.queues && n !in picks && k in m.queues[n].heap && m.queues[n].heap[k].obj.QueueKey() in m.locals
    ensures var l, ls := m.queues[n].heap[k].obj.QueueKey(), TakeHeads(m, active, picks).locals;
            l in ls && ls[l := ls[l].(items := ls[l].items - {k})] == TakeHeads(m, active + {n}, picks[n := k]).locals
  {
    hide PopKey, PopNothing, PoppedFrom;
    var l, ls := m.queues[n].heap[k].obj.QueueKey(), TakeHeads(m, active, picks).locals;
    var ls' := TakeHeads(m, active + {n}, picks[n := k]).locals;
    PoppedOneMore(m, picks, n, k);
    forall i | i in m.locals ensures ls[l := ls[l].(items := ls[l].items - {k})][i] == ls'[i] {
      var items, popped := m.locals[i].items, PoppedFrom(m, picks, i);
      assert items - popped - {k} == items - (popped + {k}) && popped + {} == popped;
    }
  }

  lemma PoppedOneMore(m: ManagerState, picks: map<string, Name>, n: string, k: Name)
    requires n in m.queues && n !in picks && k in m.queues[n].heap
    ensures var l := m.queues[n].heap[k].obj.QueueKey();
            forall i :: PoppedFrom(m, picks[n := k], i) == PoppedFrom(m, picks, i) + if i == l then {k} else {}
  {
    var l, picks' := m.queues[n].heap[k].obj.QueueKey(), picks[n := k];
    forall i ensures PoppedFrom(m, picks', i) == PoppedFrom(m, picks, i) + if i == l then {k} else {} {
      forall j | j in PoppedFrom(m, picks, i) ensures j in PoppedFrom(m, picks', i) {
        var q :| q in picks && q in m.queues && picks[q] in m.queues[q].heap &&
                 m.queues[q].heap[picks[q]].obj.QueueKey() == i && picks[q] == j;
        assert picks'[q] == j;
      }
      if i == l { assert picks'[n] == k && k in PoppedFrom(m, picks', i); }
    }
  }
}
