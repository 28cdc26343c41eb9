/** The Cache object itself: its methods update the ClusterQueue objects in place. */
module CacheObjects {
  import opened Sums
  import opened Model
  import opened Ledgers
  import opened Caches

  class Cache {
    var queues: map<string, ClusterQueue>
    var cohorts: map<string, set<string>>
    var assumed: map<Name, string>

    /** No ClusterQueue object is stored under two names. */
    ghost predicate Valid() reads this {
      forall a, b :: a in queues && b in queues && queues[a] == queues[b] ==> a == b
    }

    function View(): CacheState reads this, queues.Values {
      CacheState(map n | n in queues :: queues[n].View(), cohorts, assumed)
    }

    constructor ()
      ensures Valid() && View() == CacheState(map[], map[], map[])
    {
      queues, cohorts, assumed := map[], map[], map[];
    }

    method AddTo(n: string, w: Workload) returns (ok: bool)
      requires Valid() && n in queues
      modifies queues[n]
      ensures Valid() && View() == WithQueue(old(View()), n, AddWorkload(old(queues[n].View()), w))
      ensures ok == (w.key !in old(queues[n].workloads))
    {
      ok := queues[n].Add(w);
    }

    method DeleteFrom(n: string, k: Name)
      requires Valid()
      modifies queues.Values
      ensures Valid() && View() == Without(old(View()), n, k)
    {
      if n in queues {
        queues[n].Delete(k);
      }
    }

    method CleanupAssumedState(w: Workload)
      requires Valid()
      modifies this`assumed, queues.Values
      ensures Valid() && View() == CleanupAssumed(old(View()), w)
    {
      if w.key in assumed {
        if w.IsAdmitted() && assumed[w.key] != w.admission.value.clusterQueue {
          DeleteFrom(assumed[w.key], w.key);
        }
        assumed := assumed - {w.key};
      }
    }

    method AddOrUpdateWorkload(w: Workload) returns (ok: bool)
      requires Valid()
      modifies this`assumed, queues.Values
      ensures Valid() && (View(), ok) == AddOrUpdate(old(View()), w)
    {
      if !w.IsAdmitted() || w.admission.value.clusterQueue !in queues {
        return false;
      }
      CleanupAssumedState(w);
      DeleteFrom(w.admission.value.clusterQueue, w.key);
      ok := AddTo(w.admission.value.clusterQueue, w);
    }

    method UpdateWorkload(was: Workload, w: Workload) returns (ok: bool)
      requires Valid()
      modifies this`assumed, queues.Values
      ensures Valid() && (View(), ok) == Caches.UpdateWorkload(old(View()), was, w)
    {
      if was.IsAdmitted() {
        if was.admission.value.clusterQueue !in queues {
          return false;
        }
        DeleteFrom(was.admission.value.clusterQueue, was.key);
      }
      CleanupAssumedState(was);
      if !w.IsAdmitted() {
        return true;
      }
      if w.admission.value.clusterQueue !in queues {
        return false;
      }
      ok := AddTo(w.admission.value.clusterQueue, w);
    }

    method AssumeWorkload(w: Workload) returns (ok: bool)
      requires Valid()
      modifies this`assumed, queues.Values
      ensures Valid() && (View(), ok) == Assume(old(View()), w)
    {
      if !w.IsAdmitted() || w.key in assumed || w.admission.value.clusterQueue !in queues {
        return false;
      }
      var n := w.admission.value.clusterQueue;
      ok := AddTo(n, w);
      ghost var qs := View().queues;
      if ok {
        assumed := assumed[w.key := n];
        assert View().queues == qs;
      } else {
        assert qs == old(View()).queues;
      }
    }

    method ForgetWorkload(w: Workload) returns (ok: bool)
      requires Valid()
      modifies this`assumed, queues.Values
      ensures Valid() && (View(), ok) == Forget(old(View()), w)
    {
      if w.key !in assumed {
        return false;
      }
      CleanupAssumedState(w);
      if !w.IsAdmitted() || w.admission.value.clusterQueue !in queues {
        return false;
      }
      DeleteFrom(w.admission.value.clusterQueue, w.key);
      return true;
    }

    method IsAssumedOrAdmittedWorkload(w: Info) returns (r: bool)
      requires Valid()
      ensures r == AssumedOrAdmitted(View(), w)
    {
      if w.obj.key in assumed {
        return true;
      }
      if w.clusterQueue in queues {
        return w.obj.key in queues[w.clusterQueue].workloads;
      }
      return false;
    }

    /** clusterQueueForWorkload: a workload that is not admitted is searched for in every queue. */
    method ClusterQueueForWorkload(w: Workload) returns (at: Option<string>)
      requires Valid()
      ensures QueueOf(View(), w, at)
    {
      if w.IsAdmitted() {
        return if w.admission.value.clusterQueue in queues then Some(w.admission.value.clusterQueue) else None;
      }
      var todo := queues.Keys;
      while todo != {}
        invariant todo <= queues.Keys
        invariant forall n :: n in queues && n !in todo ==> w.key !in View().queues[n].workloads
        decreases todo
      {
        var n :| n in todo;
        if w.key in queues[n].workloads {
          return Some(n);
        }
        todo := todo - {n};
      }
      return None;
    }

    method DeleteWorkload(w: Workload) returns (ok: bool, ghost at: Option<string>)
      requires Valid()
      modifies this`assumed, queues.Values
      ensures Valid() && QueueOf(old(View()), w, at) && (View(), ok) == Delete(old(View()), w, at)
    {
      var cq := ClusterQueueForWorkload(w);
      at := cq;
      if cq.None? {
        return false, at;
      }
      CleanupAssumedState(w);
      DeleteFrom(cq.value, w.key);
      return true, at;
    }

    method AddLocalQueue(n: string, q: Name) returns (ok: bool)
      requires Valid()
      modifies queues.Values
      ensures Valid() && View() == Apply(old(View()), OpAddLocal(n, q))
      ensures ok == (n in queues ==> q !in old(View()).queues[n].locals)
    {
      hide AddLocal;
      if n !in queues {
        return true;
      }
      ok := queues[n].AddLocalQueue(q);
      assert View().queues == old(View()).queues[n := queues[n].View()];
    }

    method DeleteLocalQueue(n: string, q: Name)
      requires Valid()
      modifies queues.Values
      ensures Valid() && View() == Apply(old(View()), OpDeleteLocal(n, q))
    {
      if n in queues {
        queues[n].DeleteLocalQueue(q);
      }
    }

    method AddToCohort(n: string, cohort: Option<string>)
      modifies this`cohorts
      ensures cohorts == JoinCohort(old(cohorts), cohort, n)
    {
      if cohort.Some? {
        if cohort.value !in cohorts {
          cohorts := cohorts[cohort.value := {}];
        }
        cohorts := cohorts[cohort.value := cohorts[cohort.value] + {n}];
      }
    }

    method DeleteFromCohort(n: string, cohort: Option<string>)
      modifies this`cohorts
      ensures cohorts == LeaveCohort(old(cohorts), cohort, n)
    {
      if cohort.Some? && cohort.value in cohorts {
        cohorts := cohorts[cohort.value := cohorts[cohort.value] - {n}];
        if cohorts[cohort.value] == {} {
          cohorts := cohorts - {cohort.value};
        }
      }
    }

    method UpdateClusterQueue(n: string, spec: QueueSpec, known: set<string>) returns (ok: bool)
      requires Valid()
      modifies this`cohorts, queues.Values
      ensures Valid() && (View(), ok) == UpdateQueue(old(View()), n, spec, known)
    {
      if n !in queues {
        return false;
      }
      var was := queues[n].spec.cohort;
      queues[n].UpdateSpec(spec, known);
      ghost var qs := View().queues;
      assert qs == old(View()).queues[n := Update(old(queues[n].View()), spec, known)];
      if was != spec.cohort {
        DeleteFromCohort(n, was);
        AddToCohort(n, spec.cohort);
      }
      assert View().queues == qs;
      return true;
    }

    method DeleteClusterQueue(n: string)
      requires Valid()
      modifies this
      ensures Valid() && View() == DeleteQueue(old(View()), n)
    {
      if n in queues {
        DeleteFromCohort(n, queues[n].spec.cohort);
        queues := queues - {n};
      }
    }

    method AddClusterQueue(n: string, spec: QueueSpec, known: set<string>, locals: seq<Name>, listed: seq<Workload>)
      returns (ok: bool)
      requires Valid()
      modifies this, queues.Values
      ensures Valid() && (View(), ok) == AddQueue(old(View()), n, spec, known, locals, listed)
    {
      hide JoinCohort, AddOrUpdate, AddLocal, Refit, StatusWith;
      if n in queues {
        return false;
      }
      var cq := new ClusterQueue(spec, known);
      AddListedLocals(cq, locals);
      Install(n, cq);
      AddListedWorkloads(listed);
      return true;
    }

    method Install(n: string, cq: ClusterQueue)
      requires Valid() && n !in queues && cq !in queues.Values
      modifies this`queues, this`cohorts
      ensures Valid() && queues == old(queues)[n := cq]
      ensures View() == WithQueue(old(View()), n, cq.View()).(cohorts := JoinCohort(old(cohorts), cq.spec.cohort, n))
    {
      AddToCohort(n, cq.spec.cohort);
      queues := queues[n := cq];
      assert View().queues == old(View()).queues[n := cq.View()];
    }

    method AddListedWorkloads(listed: seq<Workload>)
      requires Valid()
      modifies this`assumed, queues.Values
      ensures Valid() && View() == AddAll(old(View()), listed)
    {
      for i := 0 to |listed|
        invariant Valid() && View() == AddAll(old(View()), listed[..i])
      {
        var added := AddOrUpdateWorkload(listed[i]);
        assert listed[..i + 1][..i] == listed[..i];
      }
      assert listed[..|listed|] == listed;
    }

    method AddListedLocals(cq: ClusterQueue, locals: seq<Name>)
      modifies cq
      ensures cq.View() == WithLocals(old(cq.View()), locals) && cq.spec == old(cq.spec)
    {
      for i := 0 to |locals|
        invariant cq.View() == WithLocals(old(cq.View()), locals[..i]) && cq.spec == old(cq.spec)
      {
        var added := cq.AddLocalQueue(locals[i]);
        assert locals[..i + 1][..i] == locals[..i];
      }
      assert locals[..|locals|] == locals;
    }
  }
}
