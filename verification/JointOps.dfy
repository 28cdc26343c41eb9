/** What the cache's operations give to which queues: the annotations of the manager's history are the cache's truth. */
module JointOps {
  import opened Sums
  import opened Model
  import opened PendingQueues
  import opened Managers
  import opened WakeUp
  import Ledgers
  import Caches
  import opened Snapshots
  import S = SchedulingCycle
  import SchedulingProofs
  import SchedulingRuns
  import opened JointRuns

  // ---------- on the live queues ----------

  /** More usage and the same quotas give nothing to anybody. */
  lemma RaisedGivesNothing(qs: map<string, SnapQueue>, qs': map<string, SnapQueue>, n: string)
    requires SchedulingProofs.SameSpecs(qs', qs)
    requires forall m, p :: m in qs ==> At(qs[m].usage, p) <= At(qs'[m].usage, p)
    ensures NoRoomier(qs, qs', n)
  {
    hide Sum;
    if n in qs' {
      forall p, val | WithinLive(qs', n, p, val) ensures WithinLive(qs, n, p, val) {
        if qs[n].spec.cohort.Some? {
          var g := qs[n].spec.cohort.value;
          SchedulingProofs.SameSpecsCohort(qs', qs, g, p);
          SumMonotone(UsageOf(InCohort(qs, g), p), UsageOf(InCohort(qs', g), p));
        }
      }
    }
  }

  ghost predicate InCohortOf(qs: map<string, SnapQueue>, n: string, g: string) {
    n in qs && qs[n].spec.cohort == Some(g)
  }

  ghost predicate SameBut(qs: map<string, SnapQueue>, qs': map<string, SnapQueue>, q: string) {
    forall m :: m != q ==> (m in qs <==> m in qs') && (m in qs ==> qs'[m] == qs[m])
  }

  /** A change of queue q gives nothing to a queue that never shares a cohort with it. */
  lemma OthersUntouched(qs: map<string, SnapQueue>, qs': map<string, SnapQueue>, q: string, n: string)
    requires n != q && SameBut(qs, qs', q)
    requires n in qs && qs[n].spec.cohort.Some? ==>
               !InCohortOf(qs, q, qs[n].spec.cohort.value) && !InCohortOf(qs', q, qs[n].spec.cohort.value)
    ensures NoRoomier(qs, qs', n)
  {
    if n in qs' && qs[n].spec.cohort.Some? {
      var g := qs[n].spec.cohort.value;
      assert InCohort(qs', g) == InCohort(qs, g);
    }
  }

  /** A queue that leaves a cohort without having used more of any pair than it brought gives nothing to those left. */
  lemma LeavingGivesNothing(qs: map<string, SnapQueue>, qs': map<string, SnapQueue>, q: string, n: string)
    requires q in qs && n in qs && n != q && qs[q].spec.cohort.Some? && qs[n].spec.cohort == qs[q].spec.cohort
    requires SameBut(qs, qs', q) && !InCohortOf(qs', q, qs[q].spec.cohort.value)
    requires forall p :: At(qs[q].usage, p) <= qs[q].spec.Nominal(p)
    ensures NoRoomier(qs, qs', n)
  {
    hide S.CohortUsed, S.CohortRequestable;
    var g := qs[q].spec.cohort.value;
    forall p, val | WithinLive(qs', n, p, val) ensures WithinLive(qs, n, p, val) {
      SchedulingProofs.LeavingFreesIff(qs, qs', q, g, p);
    }
  }

  /** A changed queue gives nothing outside its new cohort, if it used no more in its old one than it brought. */
  lemma MovedGivesNothing(qs: map<string, SnapQueue>, qs': map<string, SnapQueue>, q: string, n: string)
    requires n != q && SameBut(qs, qs', q)
    requires n in qs && qs[n].spec.cohort.Some? ==> !InCohortOf(qs', q, qs[n].spec.cohort.value)
    requires (n in qs && qs[n].spec.cohort.Some? && InCohortOf(qs, q, qs[n].spec.cohort.value)) ==>
               forall p :: At(qs[q].usage, p) <= qs[q].spec.Nominal(p)
    ensures NoRoomier(qs, qs', n)
  {
    hide NoRoomier, At, QueueSpec.Nominal;
    if n in qs && qs[n].spec.cohort.Some? && InCohortOf(qs, q, qs[n].spec.cohort.value) {
      LeavingGivesNothing(qs, qs', q, n);
    } else {
      OthersUntouched(qs, qs', q, n);
    }
  }

  // ---------- on the cache ----------

  /** Manager and cache know the same queues under the same cohorts. */
  ghost predicate Agree(m: ManagerState, c: CacheState) {
    forall n :: n in c.queues ==>
      n in m.queues && (c.queues[n].spec.cohort == if m.queues[n].cohort == "" then None else Some(m.queues[n].cohort))
  }

  lemma SharesCohort(m: ManagerState, c: CacheState, q: string, n: string)
    requires Agree(m, c) && q in c.queues && n in c.queues && n !in CohortOf(m, q)
    ensures n != q && (c.queues[n].spec.cohort.Some? ==> c.queues[q].spec.cohort != c.queues[n].spec.cohort)
  {
  }

  lemma AssumeTruthful(c: CacheState, w: Workload)
    requires Caches.Ok(c)
    ensures Truthful(c, Caches.Assume(c, w).0, {})
  {
    hide WithinLive, Caches.Ok, NoRoomier;
    Caches.AssumeKeepsOk(c, w);
    var c' := Caches.Assume(c, w).0;
    AssumeRaises(c, w);
    forall n ensures NoRoomier(S.Live(c), S.Live(c'), n) { RaisedGivesNothing(S.Live(c), S.Live(c'), n); }
  }

  lemma AssumeRaises(c: CacheState, w: Workload)
    ensures var qs, qs' := S.Live(c), S.Live(Caches.Assume(c, w).0);
            && SchedulingProofs.SameSpecs(qs', qs)
            && forall m, p :: m in qs ==> At(qs[m].usage, p) <= At(qs'[m].usage, p)
  {
    hide Ledgers.AddWorkload, At;
    if Caches.Assume(c, w).1 {
      var q := w.admission.value.clusterQueue;
      AddRaises(c.queues[q], w);
      LiveBut(c, Caches.Assume(c, w).0, q);
      hide S.Live, Caches.Assume;
    }
  }

  /** A change of one ledger changes at most that queue among the live ones. */
  lemma LiveBut(c: CacheState, c': CacheState, q: string)
    requires forall n :: n != q ==>
               (n in c.queues <==> n in c'.queues) && (n in c.queues ==> c'.queues[n] == c.queues[n])
    ensures SameBut(S.Live(c), S.Live(c'), q)
    ensures q in S.Live(c) <==> q in c.queues && c.queues[q].status == Ledgers.Active
    ensures q in S.Live(c) ==> S.Live(c)[q] == Copied(c.queues[q])
    ensures q in S.Live(c') <==> q in c'.queues && c'.queues[q].status == Ledgers.Active
    ensures q in S.Live(c') ==> S.Live(c')[q] == Copied(c'.queues[q])
  {
  }

  lemma AddRaises(l: Ledgers.Ledger, w: Workload)
    ensures var l' := Ledgers.AddWorkload(l, w);
            l'.spec == l.spec && l'.status == l.status && forall p :: At(l.usage, p) <= At(l'.usage, p)
  {
    hide NewInfo, Charge;
  }

  /** Only the ledger of queue q may differ. */
  ghost predicate OnlyLedger(c: CacheState, c': CacheState, q: string) {
    && c'.queues.Keys == c.queues.Keys && q in c.queues && c'.queues[q].spec == c.queues[q].spec
    && forall n :: n in c.queues && n != q ==> c'.queues[n] == c.queues[n]
  }

  /** Whatever happens to the ledger of q alone, or to its status, concerns its own cohort only. */
  lemma LedgerTruthful(c: CacheState, c': CacheState, m: ManagerState, q: string)
    requires Agree(m, c) && OnlyLedger(c, c', q) && Caches.Ok(c')
    ensures Truthful(c, c', CohortOf(m, q))
  {
    hide WithinLive, Caches.Ok;
    var qs, qs' := S.Live(c), S.Live(c');
    forall n | n !in CohortOf(m, q) ensures NoRoomier(qs, qs', n) {
      if n in qs' {
        SharesCohort(m, c, q, n);
        OthersUntouched(qs, qs', q, n);
      }
    }
  }

  /** A release frees quota in the cohort of the queue that charged the workload. */
  lemma DeleteTruthful(c: CacheState, w: Workload, q: string, m: ManagerState)
    requires Caches.Ok(c) && Agree(m, c) && q in c.queues && (w.key in c.assumed ==> c.assumed[w.key] == q)
    ensures Truthful(c, Caches.Delete(c, w, Some(q)).0, CohortOf(m, q))
  {
    hide Caches.Ok, Ledgers.Charged, CohortOf, Truthful;
    Caches.DeleteKeepsOk(c, w, Some(q));
    DeletedSpec(c.queues[q], w.key);
    DeletedSpec(Ledgers.DeleteWorkload(c.queues[q], w.key), w.key);
    LedgerTruthful(c, Caches.Delete(c, w, Some(q)).0, m, q);
  }

  lemma DeletedSpec(l: Ledgers.Ledger, k: Name)
    ensures var l' := Ledgers.DeleteWorkload(l, k);
            l'.spec == l.spec && l'.status == l.status && l'.workloads == l.workloads - {k}
  {
  }

  /** So does forgetting an assumed workload, which the manager is not told. */
  lemma ForgetTruthful(c: CacheState, w: Workload, q: string, m: ManagerState)
    requires Caches.Ok(c) && Agree(m, c) && q in c.queues && w.key in c.assumed && c.assumed[w.key] == q
    requires w.IsAdmitted() && w.admission.value.clusterQueue == q
    ensures Truthful(c, Caches.Forget(c, w).0, CohortOf(m, q))
  {
    hide Caches.Ok, Ledgers.Charged, CohortOf, Truthful;
    Caches.ForgetKeepsOk(c, w);
    DeletedSpec(c.queues[q], w.key);
    LedgerTruthful(c, Caches.Forget(c, w).0, m, q);
  }

  /** TerminateClusterQueue: the queue leaves the snapshots, with its usage and its quota. */
  function Terminate(c: CacheState, q: string): CacheState {
    if q in c.queues then Caches.WithQueue(c, q, c.queues[q].(status := Ledgers.Terminating)) else c
  }

  lemma TerminateTruthful(c: CacheState, q: string, m: ManagerState)
    requires Caches.Ok(c) && Agree(m, c) && q in c.queues
    ensures Truthful(c, Terminate(c, q), CohortOf(m, q))
  {
    hide CohortOf, Truthful;
    TerminateKeepsOk(c, q);
    LedgerTruthful(c, Terminate(c, q), m, q);
  }

  lemma TerminateKeepsOk(c: CacheState, q: string)
    requires Caches.Ok(c) && q in c.queues
    ensures Caches.Ok(Terminate(c, q))
  {
    var l := c.queues[q].(status := Ledgers.Terminating);
    assert Caches.Sound(q, c.queues[q]);
    forall j | j in l.locals ensures Ledgers.ExactLocal(l, j) { assert Ledgers.ExactLocal(c.queues[q], j); }
    Caches.WithQueueKeepsOk(c, q, l);
  }

  /** A new queue may give quota to its own cohort only. */
  lemma AddQueueTruthful(c: CacheState, m: ManagerState, n: string, spec: QueueSpec, known: set<string>, ev: Event)
    requires Caches.Ok(c) && Agree(m, c) && CohortsIndexed(m) && n !in c.queues && n !in m.queues
    requires ev.EvAddClusterQueue? && ev.n == n && spec.cohort == if ev.cohort == "" then None else Some(ev.cohort)
    ensures Truthful(c, Caches.AddQueue(c, n, spec, known, [], []).0, GivenByCall(m, ev, false))
  {
    hide Caches.Ok, Apply, CohortOf, NoRoomier, S.Live, CohortsIndexed;
    Caches.AddQueueKeepsOk(c, n, spec, known, [], []);
    var c' := Caches.AddQueue(c, n, spec, known, [], []).0;
    LiveBut(c, c', n);
    LiveSpec(c);
    forall i | i !in GivenByCall(m, ev, false) ensures NoRoomier(S.Live(c), S.Live(c'), i) {
      JoinedCohort(m, ev, i);
      MovedGivesNothing(S.Live(c), S.Live(c'), n, i);
    }
  }

  lemma LiveSpec(c: CacheState)
    ensures forall n :: n in S.Live(c) ==> n in c.queues && S.Live(c)[n].spec == c.queues[n].spec
  {
  }

  /** The queues that share the cohort of a new or updated queue are given quota. */
  lemma JoinedCohort(m: ManagerState, ev: Event, i: string)
    requires CohortsIndexed(m)
    requires (ev.EvAddClusterQueue? && ev.n !in m.queues) || (ev.EvUpdateClusterQueue? && ev.n in m.queues)
    requires i !in CohortOf(Apply(m, ev), ev.n)
    ensures i != ev.n && (i in m.queues && ev.cohort != "" ==> m.queues[i].cohort != ev.cohort)
  {
    hide FlushThese, FlushedWith, AddListed;
    if ev.EvAddClusterQueue? {
      var q := AddListed(NewPending(ev.cohort, ev.strategy), m.locals, ev.listedQueues);
      AddListedCohort(NewPending(ev.cohort, ev.strategy), m.locals, ev.listedQueues);
      var m1 := m.(queues := m.queues[ev.n := q],
                   cohorts := if ev.cohort != "" then JoinCohort(m.cohorts, ev.cohort, ev.n) else m.cohorts);
      FlushTheseCounters(m1, FlushedWith(m1, ev.n), ev.sel);
    } else {
      var m1 := Rejoined(m, ev.n, ev.cohort);
      FlushTheseCounters(m1, FlushedWith(m1, ev.n), ev.sel);
    }
  }

  /**
   * A specification update may give quota to the queue's new cohort, and to the cohort that it leaves if it used more
   * of some pair there than it brought.
   */
  lemma UpdateQueueTruthful(c: CacheState, m: ManagerState, spec: QueueSpec, known: set<string>, ev: Event,
                            excess: bool)
    requires Caches.Ok(c) && Agree(m, c) && CohortsIndexed(m) && ev.EvUpdateClusterQueue? && ev.n in c.queues
    requires Ledgers.IntroducesOnlyUnused(c.queues[ev.n], spec)
    requires spec.cohort == if ev.cohort == "" then None else Some(ev.cohort)
    requires !excess ==> forall p :: At(c.queues[ev.n].usage, p) <= c.queues[ev.n].spec.Nominal(p)
    ensures Truthful(c, Caches.UpdateQueue(c, ev.n, spec, known).0, GivenByCall(m, ev, excess))
  {
    hide Caches.Ok, Apply, NoRoomier, Ledgers.IntroducesOnlyUnused, Ledgers.Update, S.Live, CohortsIndexed, At;
    hide QueueSpec.Nominal;
    Caches.UpdateQueueKeepsOkIff(c, ev.n, spec, known);
    Caches.UpdatedSpec(c.queues[ev.n], spec, known);
    var c' := Caches.UpdateQueue(c, ev.n, spec, known).0;
    LiveBut(c, c', ev.n);
    LiveSpec(c);
    forall i | i !in GivenByCall(m, ev, excess) ensures NoRoomier(S.Live(c), S.Live(c'), i) {
      JoinedCohort(m, ev, i);
      MovedGivesNothing(S.Live(c), S.Live(c'), ev.n, i);
    }
  }

  /** A deleted queue may give quota to the cohort that it leaves, if it used more of some pair than it brought. */
  lemma DeleteQueueTruthful(c: CacheState, m: ManagerState, n: string, cohort: string, excess: bool)
    requires Caches.Ok(c) && Agree(m, c) && n in c.queues
    requires !excess ==> forall p :: At(c.queues[n].usage, p) <= c.queues[n].spec.Nominal(p)
    ensures Truthful(c, Caches.DeleteQueue(c, n), GivenByCall(m, EvDeleteClusterQueue(n, cohort), excess))
  {
    hide Caches.Ok, NoRoomier, S.Live, At, QueueSpec.Nominal;
    Caches.DeleteQueueKeepsOk(c, n);
    var c' := Caches.DeleteQueue(c, n);
    LiveBut(c, c', n);
    LiveSpec(c);
    forall i | i !in GivenByCall(m, EvDeleteClusterQueue(n, cohort), excess)
      ensures NoRoomier(S.Live(c), S.Live(c'), i)
    {
      if i == n { NotLive(S.Live(c), S.Live(c'), i); } else { MovedGivesNothing(S.Live(c), S.Live(c'), n, i); }
    }
  }

  lemma NotLive(qs: map<string, SnapQueue>, qs': map<string, SnapQueue>, n: string)
    requires n !in qs'
    ensures NoRoomier(qs, qs', n)
  {
  }
}
