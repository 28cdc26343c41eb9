/** Which entries a cycle admits, and what its cohorts use afterwards, from the state at its start. */
module CycleTotals {
  import opened Sums
  import opened Model
  import opened Ledgers
  import opened Caches
  import opened Snapshots
  import opened FlavorAssigner
  import opened Assignments
  import opened AssignmentProofs
  import opened SchedulingCycle
  import opened SchedulingProofs
  import opened SchedulingRuns
  import opened Scheduler

  // ---------- decided at the start ----------

  /** An earlier entry of the cohort has flavors in some mode, so the cohort is used when the turn of entry i comes. */
  ghost predicate CohortTaken(s: Snap, es: seq<Entry>, i: nat, g: string)
    requires i <= |es|
  {
    exists j ::
      0 <= j < i && RepresentativeMode(es[j].assignment) != NoFit && CohortOf(s, es[j].info.clusterQueue) == Some(g)
  }

  ghost predicate SkippedAt(s: Snap, es: seq<Entry>, i: nat)
    requires i < |es|
  {
    var g := CohortOf(s, es[i].info.clusterQueue);
    Borrows(es[i].assignment) && g.Some? && CohortTaken(s, es, i, g.value)
  }

  /** The workload is neither assumed nor charged where it would be admitted. */
  ghost predicate Assumable(c: CacheState, e: Entry) {
    && e.info.clusterQueue in c.queues && e.info.obj.key !in c.assumed
    && e.info.obj.key !in c.queues[e.info.clusterQueue].workloads
  }

  /** Entry i will be admitted, by the cache, the snapshot and the entries that a cycle starts with. */
  ghost predicate Admits(c: CacheState, s: Snap, es: seq<Entry>, i: nat)
    requires i < |es|
    decreases i
  {
    && RepresentativeMode(es[i].assignment) == Fit && !SkippedAt(s, es, i) && Assumable(c, es[i])
    && (forall j :: 0 <= j < i && Admits(c, s, es, j) ==> es[j].info.obj.key != es[i].info.obj.key)
  }

  /** What the first n entries will add to a cohort's usage of a pair. */
  ghost function AddedTo(c: CacheState, s: Snap, es: seq<Entry>, n: nat, g: string, p: Pair): int
    requires n <= |es|
  {
    if n == 0 then 0
    else
      var e := es[n - 1];
      AddedTo(c, s, es, n - 1, g, p) +
      if Admits(c, s, es, n - 1) && CohortOf(s, e.info.clusterQueue) == Some(g) then At(e.assignment.usage, p) else 0
  }

  // ---------- the states of the cycle ----------

  ghost predicate UsedSoFar(s: Snap, es: seq<Entry>, n: nat, used: set<string>)
    requires n <= |es|
  {
    forall g :: g in used <==> CohortTaken(s, es, n, g)
  }

  ghost predicate AdmitsKey(c: CacheState, s: Snap, es: seq<Entry>, n: nat, k: Name)
    requires n <= |es|
  {
    exists j :: 0 <= j < n && Admits(c, s, es, j) && es[j].info.obj.key == k
  }

  ghost predicate AssumedSoFar(c: CacheState, s: Snap, es: seq<Entry>, n: nat, c': CacheState)
    requires n <= |es|
  {
    && c'.queues.Keys == c.queues.Keys
    && (forall k :: k in c'.assumed <==> k in c.assumed || AdmitsKey(c, s, es, n, k))
    && (forall m, k :: m in c.queues && k in c.queues[m].workloads ==> k in c'.queues[m].workloads)
    && (forall m, k :: m in c.queues && k in c'.queues[m].workloads ==> k in c.queues[m].workloads || k in c'.assumed)
  }

  ghost predicate Reached(c: CacheState, cy: Cycle, c': CacheState) {
    && cy.next <= |cy.entries| && Ok(c') && SameSpecs(Live(c'), Live(c))
    && UsedSoFar(cy.snap, cy.entries, cy.next, cy.used) && AssumedSoFar(c, cy.snap, cy.entries, cy.next, c')
  }

  ghost predicate TotalSoFar(c: CacheState, cy: Cycle, c': CacheState, g: string, p: Pair)
    requires cy.next <= |cy.entries|
  {
    CohortUsed(Live(c'), g, p) == CohortUsed(Live(c), g, p) + AddedTo(c, cy.snap, cy.entries, cy.next, g, p)
  }

  /** What every entry of a cycle on cache c meets. */
  ghost predicate Startable(c: CacheState, s: Snap, es: seq<Entry>) {
    IsSnapshotOf(s, c) && forall i :: 0 <= i < |es| ==> Nominated(s, es[i])
  }

  lemma UsedOneMore(s: Snap, es: seq<Entry>, n: nat, used: set<string>)
    requires n < |es| && UsedSoFar(s, es, n, used)
    ensures var g := CohortOf(s, es[n].info.clusterQueue);
            UsedSoFar(s, es, n + 1,
                      if RepresentativeMode(es[n].assignment) != NoFit && g.Some? then used + {g.value} else used)
  {
    hide RepresentativeMode;
    forall g ensures CohortTaken(s, es, n + 1, g) <==>
        CohortTaken(s, es, n, g) ||
        (RepresentativeMode(es[n].assignment) != NoFit && CohortOf(s, es[n].info.clusterQueue) == Some(g))
    {
    }
  }

  /** The entry is admitted at its turn exactly when it was to be admitted. */
  lemma TurnOf(c: CacheState, cy: Cycle, c': CacheState, now: int)
    requires Reached(c, cy, c') && cy.next < |cy.entries|
    ensures PassedOver(cy, cy.entries[cy.next]) <==> SkippedAt(cy.snap, cy.entries, cy.next)
    ensures ProcessOne(c', cy, now).2 == Assumed <==> Admits(c, cy.snap, cy.entries, cy.next)
  {
    hide RepresentativeMode, Ok, SameSpecs, WithAdmission, AddWorkload;
    var e := cy.entries[cy.next];
    AdmittedKey(e.info.obj, e.assignment, e.info.clusterQueue, now);
  }

  // ---------- step by step ----------

  lemma UsedNext(cy: Cycle, c: CacheState, now: int)
    requires cy.next < |cy.entries| && UsedSoFar(cy.snap, cy.entries, cy.next, cy.used)
    ensures var cy2 := ProcessOne(c, cy, now).1; UsedSoFar(cy2.snap, cy2.entries, cy2.next, cy2.used)
  {
    hide RepresentativeMode, CohortTaken, Assume, WithAdmission;
    UsedOneMore(cy.snap, cy.entries, cy.next, cy.used);
    var g := CohortOf(cy.snap, cy.entries[cy.next].info.clusterQueue);
    if PassedOver(cy, cy.entries[cy.next]) { assert cy.used + {g.value} == cy.used; }
  }

  lemma AssumedNext(c: CacheState, cy: Cycle, c': CacheState, now: int)
    requires cy.next < |cy.entries| && AssumedSoFar(c, cy.snap, cy.entries, cy.next, c')
    requires ProcessOne(c', cy, now).2 == Assumed <==> Admits(c, cy.snap, cy.entries, cy.next)
    ensures AssumedSoFar(c, cy.snap, cy.entries, cy.next + 1, ProcessOne(c', cy, now).0)
  {
    hide RepresentativeMode, Admits, AdmitsKey, WithAdmission, PassedOver, AssumedSoFar, Assume;
    var e, c2 := cy.entries[cy.next], ProcessOne(c', cy, now).0;
    if ProcessOne(c', cy, now).2 == Assumed {
      GrantedNext(c, cy.snap, cy.entries, cy.next, c', now);
    } else {
      NotGrantedNext(c, cy.snap, cy.entries, cy.next, c');
    }
  }

  lemma NotGrantedNext(c: CacheState, s: Snap, es: seq<Entry>, n: nat, c': CacheState)
    requires n < |es| && AssumedSoFar(c, s, es, n, c') && !Admits(c, s, es, n)
    ensures AssumedSoFar(c, s, es, n + 1, c')
  {
    hide Admits, AdmitsKey;
    forall k { KeyOneMore(c, s, es, n, k); }
  }

  lemma GrantedNext(c: CacheState, s: Snap, es: seq<Entry>, n: nat, c': CacheState, now: int)
    requires n < |es| && AssumedSoFar(c, s, es, n, c') && Admits(c, s, es, n)
    requires Assume(c', WithAdmission(es[n].info.obj, es[n].assignment, es[n].info.clusterQueue, now)).1
    ensures AssumedSoFar(c, s, es, n + 1,
                         Assume(c', WithAdmission(es[n].info.obj, es[n].assignment, es[n].info.clusterQueue, now)).0)
  {
    hide Admits, AdmitsKey, WithAdmission, AddWorkload;
    var e := es[n];
    AdmittedKey(e.info.obj, e.assignment, e.info.clusterQueue, now);
    AddedKeys(c'.queues[e.info.clusterQueue], WithAdmission(e.info.obj, e.assignment, e.info.clusterQueue, now));
    forall k { KeyOneMore(c, s, es, n, k); }
  }

  lemma AddedKeys(l: Ledger, w: Workload)
    ensures AddWorkload(l, w).workloads.Keys == l.workloads.Keys + {w.key}
  {
  }

  lemma KeyOneMore(c: CacheState, s: Snap, es: seq<Entry>, n: nat, k: Name)
    requires n < |es|
    ensures AdmitsKey(c, s, es, n + 1, k) <==>
            AdmitsKey(c, s, es, n, k) || (Admits(c, s, es, n) && es[n].info.obj.key == k)
  {
    hide Admits;
  }

  /** The effect of one turn on the live queues. */
  lemma LiveNext(c: CacheState, cy: Cycle, now: int, g: string, p: Pair)
    requires cy.next < |cy.entries| && Ok(c) && Nominated(cy.snap, cy.entries[cy.next])
    requires SameSpecs(Live(c), cy.snap.queues)
    ensures var (c2, _, st) := ProcessOne(c, cy, now);
            var e := cy.entries[cy.next];
            && Ok(c2) && SameSpecs(Live(c2), Live(c))
            && CohortUsed(Live(c2), g, p) == CohortUsed(Live(c), g, p) +
                 if st == Assumed && CohortOf(cy.snap, e.info.clusterQueue) == Some(g)
                 then At(e.assignment.usage, p) else 0
  {
    hide Ok, RepresentativeMode, WithAdmission, Assume, Live, CohortUsed, Nominated, PassedOver, TallyUsage,
      WithinLimits;
    var e := cy.entries[cy.next];
    var n, w := e.info.clusterQueue, WithAdmission(e.info.obj, e.assignment, e.info.clusterQueue, now);
    if ProcessOne(c, cy, now).2 == Assumed {
      EntryFits(cy.snap, e);
      AssumeKeepsOk(c, w);
      LiveAfterGrant(c, e.info.obj, e.assignment, n, now);
      GrantAdds(Live(c), Live(Assume(c, w).0), n, e.assignment.usage, g, p);
    }
  }

  /** An admission adds exactly its tally to the usage of its cohort. */
  lemma GrantAdds(qs: map<string, SnapQueue>, qs': map<string, SnapQueue>, b: string, usage: Quantities, g: string,
                  p: Pair)
    requires SameSpecs(qs', qs) && b in qs && forall n :: n in qs && n != b ==> qs'[n] == qs[n]
    requires At(qs'[b].usage, p) == At(qs[b].usage, p) + At(usage, p)
    ensures CohortUsed(qs', g, p) == CohortUsed(qs, g, p) + if qs[b].spec.cohort == Some(g) then At(usage, p) else 0
  {
    hide Sum;
    var u, u' := UsageOf(InCohort(qs, g), p), UsageOf(InCohort(qs', g), p);
    if b in InCohort(qs, g) {
      SumPut(u, b, u[b] + At(usage, p));
      assert u' == u[b := u[b] + At(usage, p)];
    } else {
      assert u' == u;
    }
  }

  lemma TurnNext(c: CacheState, cy: Cycle, c': CacheState, now: int, g: string, p: Pair)
    requires Reached(c, cy, c') && TotalSoFar(c, cy, c', g, p) && cy.next < |cy.entries|
    requires Startable(c, cy.snap, cy.entries)
    ensures var (c2, cy2, st) := ProcessOne(c', cy, now);
            && cy2.snap == cy.snap && cy2.entries == cy.entries && cy2.next == cy.next + 1
            && Reached(c, cy2, c2) && TotalSoFar(c, cy2, c2, g, p)
            && (st == Assumed <==> Admits(c, cy.snap, cy.entries, cy.next))
  {
    hide Ok, ProcessOne, UsedSoFar, AssumedSoFar, Admits, Nominated, CohortUsed, Balanced;
    ProcessAdvances(c', cy, now);
    TurnOf(c, cy, c', now);
    UsedNext(cy, c', now);
    AssumedNext(c, cy, c', now);
    assert SameSpecs(Live(c), cy.snap.queues);
    LiveNext(c', cy, now, g, p);
  }

  lemma {:induction false} FromHere(c: CacheState, cy: Cycle, c': CacheState, now: int, g: string, p: Pair)
    requires Reached(c, cy, c') && TotalSoFar(c, cy, c', g, p) && Startable(c, cy.snap, cy.entries)
    ensures var (c2, cy2, sts) := ProcessAll(c', cy, now);
            && cy2.snap == cy.snap && cy2.entries == cy.entries && cy2.next == |cy.entries| == cy.next + |sts|
            && Reached(c, cy2, c2) && TotalSoFar(c, cy2, c2, g, p)
            && forall i :: cy.next <= i < |cy.entries| ==>
                  (sts[i - cy.next] == Assumed <==> Admits(c, cy.snap, cy.entries, i))
    decreases |cy.entries| - cy.next
  {
    hide Reached, TotalSoFar, Startable, ProcessOne, Admits;
    ReachedBound(c, cy, c');
    if cy.next < |cy.entries| {
      TurnNext(c, cy, c', now, g, p);
      var (c1, cy1, st) := ProcessOne(c', cy, now);
      FromHere(c, cy1, c1, now, g, p);
    }
  }

  lemma ReachedBound(c: CacheState, cy: Cycle, c': CacheState)
    requires Reached(c, cy, c')
    ensures cy.next <= |cy.entries|
  {
  }

  // ---------- the whole cycle ----------

  /**
   * A cycle that nothing interrupts admits exactly the entries decided at its start, and adds exactly their requests to
   * each cohort. So a cohort ends above what it can request if and only if those requests exceed what it had left.
   */
  lemma CycleExceedsIff(c: CacheState, s: Snap, es: seq<Entry>, now: int, g: string, p: Pair)
    requires Ok(c) && Startable(c, s, es)
    ensures var (c', _, sts) := ProcessAll(c, Cycle(s, es, 0, {}, map[]), now);
            && |sts| == |es| && (forall i :: 0 <= i < |es| ==> (sts[i] == Assumed <==> Admits(c, s, es, i)))
            && CohortUsed(Live(c'), g, p) == CohortUsed(Live(c), g, p) + AddedTo(c, s, es, |es|, g, p)
            && CohortRequestable(Live(c'), g, p) == CohortRequestable(Live(c), g, p)
            && (CohortUsed(Live(c'), g, p) > CohortRequestable(Live(c'), g, p) <==>
                AddedTo(c, s, es, |es|, g, p) > CohortRequestable(Live(c), g, p) - CohortUsed(Live(c), g, p))
  {
    hide Ok, ProcessAll, Startable, Admits, CohortUsed, CohortRequestable;
    var cy := Cycle(s, es, 0, {}, map[]);
    assert Reached(c, cy, c) && TotalSoFar(c, cy, c, g, p);
    FromHere(c, cy, c, now, g, p);
    SameSpecsCohort(Live(ProcessAll(c, cy, now).0), Live(c), g, p);
  }
}
