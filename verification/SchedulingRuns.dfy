/** Every step of the scheduling system keeps the quota bounds, whatever the interleaving. */
module SchedulingRuns {
  import opened Sums
  import opened Model
  import opened Ledgers
  import opened Caches
  import opened Snapshots
  import opened FlavorAssigner
  import opened Assignments
  import opened AssignmentProofs
  import opened SchedulingCycle
  import opened SchedulingProofs

  // ---------- steps that only lower usage ----------

  ghost predicate Lower(qs: map<string, SnapQueue>, qs': map<string, SnapQueue>) {
    && SameSpecs(qs', qs)
    && (forall n, p :: n in qs ==> 0 <= At(qs'[n].usage, p) <= At(qs[n].usage, p))
  }

  lemma LowerKeepsBounded(qs: map<string, SnapQueue>, qs': map<string, SnapQueue>)
    requires Bounded(qs) && Lower(qs, qs')
    ensures Bounded(qs')
  {
    hide CohortBorrowed, CohortRequestable;
    forall n, p | n in qs' ensures QueueBound(qs'[n], p) {
      assert QueueBound(qs[n], p) && 0 <= At(qs'[n].usage, p) <= At(qs[n].usage, p);
    }
    forall g, p ensures CohortBorrowed(qs', g, p) <= CohortRequestable(qs', g, p) {
      SameSpecsCohort(qs', qs, g, p);
      BorrowedMonotone(qs', qs, g, p);
      assert CohortBorrowed(qs, g, p) <= CohortRequestable(qs, g, p);
    }
  }

  lemma LowerKeepsCycle(cy: Cycle, qs: map<string, SnapQueue>, qs': map<string, SnapQueue>)
    requires CycleOk(cy, qs) && Lower(qs, qs')
    ensures CycleOk(cy, qs')
  {
    hide SnapSound, Exclusive, GrantOk, GrantedAt;
    forall n, p | n in qs' ensures 0 <= At(qs'[n].usage, p) <= At(cy.snap.queues[n].usage, p) + GrantedAt(cy, n, p) {
      assert 0 <= At(qs'[n].usage, p) <= At(qs[n].usage, p);
    }
  }

  lemma UsageNonNegative(l: Ledger, p: Pair)
    requires Exact(l)
    ensures 0 <= At(l.usage, p)
  {
    hide Total;
    TotalNonNegative(l.workloads, p);
  }

  lemma LiveNonNegative(c: CacheState)
    requires Ok(c)
    ensures forall n, p :: n in Live(c) ==> 0 <= At(Live(c)[n].usage, p)
  {
    hide Exact, Housed;
    forall n, p | n in Live(c) ensures 0 <= At(Live(c)[n].usage, p) {
      assert Sound(n, c.queues[n]);
      UsageNonNegative(c.queues[n], p);
    }
  }

  /** No ledger shows more usage of any pair than before; queues, specifications and statuses are the same. */
  ghost predicate NotHigher(c: CacheState, c': CacheState) {
    && c'.queues.Keys == c.queues.Keys
    && (forall n :: n in c.queues ==>
          c'.queues[n].spec == c.queues[n].spec && c'.queues[n].status == c.queues[n].status
          && c'.queues[n].usage.Keys == c.queues[n].usage.Keys)
    && (forall n, p :: n in c.queues && p in c.queues[n].usage ==> c'.queues[n].usage[p] <= c.queues[n].usage[p])
  }

  lemma NotHigherIsLower(c: CacheState, c': CacheState)
    requires NotHigher(c, c') && Ok(c')
    ensures Lower(Live(c), Live(c'))
  {
    hide Ok;
    LiveNonNegative(c');
    forall n, p | n in Live(c) ensures 0 <= At(Live(c')[n].usage, p) <= At(Live(c)[n].usage, p) {
      assert n in Live(c');
    }
  }

  lemma NotHigherTransitive(c: CacheState, c': CacheState, c'': CacheState)
    requires NotHigher(c, c') && NotHigher(c', c'')
    ensures NotHigher(c, c'')
  {
    forall n, p | n in c.queues && p in c.queues[n].usage ensures c''.queues[n].usage[p] <= c.queues[n].usage[p] {
      assert c'.queues[n].usage[p] <= c.queues[n].usage[p] && c''.queues[n].usage[p] <= c'.queues[n].usage[p];
    }
  }

  lemma WithoutNotHigher(c: CacheState, n: string, k: Name)
    ensures NotHigher(c, Without(c, n, k))
  {
    hide ChargeOf;
  }

  lemma CleanupNotHigher(c: CacheState, w: Workload)
    ensures NotHigher(c, CleanupAssumed(c, w))
  {
    hide DeleteWorkload;
    if w.key in c.assumed { WithoutNotHigher(c, c.assumed[w.key], w.key); }
  }

  lemma DeleteNotHigher(c: CacheState, w: Workload, at: Option<string>)
    ensures NotHigher(c, Delete(c, w, at).0)
  {
    hide NotHigher, CleanupAssumed, Without;
    NotHigherReflexive(c);
    if at.Some? {
      CleanupNotHigher(c, w);
      WithoutNotHigher(CleanupAssumed(c, w), at.value, w.key);
      NotHigherTransitive(c, CleanupAssumed(c, w), Delete(c, w, at).0);
    }
  }

  lemma NotHigherReflexive(c: CacheState)
    ensures NotHigher(c, c)
  {
  }

  lemma ForgetNotHigher(c: CacheState, w: Workload)
    ensures NotHigher(c, Forget(c, w).0)
  {
    hide NotHigher, CleanupAssumed, Without;
    NotHigherReflexive(c);
    CleanupNotHigher(c, w);
    if Forget(c, w).1 {
      WithoutNotHigher(CleanupAssumed(c, w), w.admission.value.clusterQueue, w.key);
      NotHigherTransitive(c, CleanupAssumed(c, w), Forget(c, w).0);
    }
  }

  lemma ConfirmNotHigher(c: CacheState, w: Workload)
    requires Confirms(c, w)
    ensures NotHigher(c, AddOrUpdate(c, w).0)
  {
    hide NotHigher, AddWorkload, DeleteWorkload, Charge, NewInfo;
    var n := w.admission.value.clusterQueue;
    var c' := CleanupAssumed(c, w);
    CleanupNotHigher(c, w);
    assert c'.queues[n] == c.queues[n];
    ReAddNotHigher(c'.queues[n], w);
    ReplacedNotHigher(c', n, w.key, AddWorkload(DeleteWorkload(c'.queues[n], w.key), w));
    NotHigherTransitive(c, c', AddOrUpdate(c, w).0);
  }

  lemma ReAddNotHigher(l: Ledger, w: Workload)
    requires w.key in l.workloads && forall p :: Charge(NewInfo(w), p) <= Charge(l.workloads[w.key], p)
    ensures var l' := AddWorkload(DeleteWorkload(l, w.key), w);
            && l'.usage.Keys == l.usage.Keys && l'.spec == l.spec && l'.status == l.status
            && forall p :: p in l.usage ==> l'.usage[p] <= l.usage[p]
  {
    hide Charge, NewInfo;
  }

  lemma ReplacedNotHigher(c: CacheState, n: string, k: Name, l: Ledger)
    requires n in c.queues && l.spec == c.queues[n].spec && l.status == c.queues[n].status
    requires l.usage.Keys == c.queues[n].usage.Keys && forall p :: p in l.usage ==> l.usage[p] <= c.queues[n].usage[p]
    ensures NotHigher(c, WithQueue(Without(c, n, k), n, l))
  {
    hide DeleteWorkload;
    var c' := WithQueue(Without(c, n, k), n, l);
    assert c'.queues.Keys == c.queues.Keys;
    assert forall m :: m in c.queues && m != n ==> c'.queues[m] == c.queues[m];
  }

  // ---------- starting a cycle ----------

  lemma StartKeepsOk(c: CacheState, s: Snap, es: seq<Entry>)
    requires Ok(c) && Bounded(Live(c)) && IsSnapshotOf(s, c) && Sorted(es) && OnePerQueue(es)
    requires forall i :: 0 <= i < |es| ==> Nominated(s, es[i])
    ensures CycleOk(Cycle(s, es, 0, {}, map[]), Live(c))
  {
    hide Nominated, Balanced, Bounded, Ok, SnapOk, Sorted, OnePerQueue;
    SnapshotOk(s, c);
    LiveNonNegative(c);
    assert Live(c) == s.queues;
  }

  // ---------- one iteration of the admission loop ----------

  lemma AdvanceKeepsCycle(cy: Cycle, qs: map<string, SnapQueue>, used: set<string>)
    requires CycleOk(cy, qs) && cy.next < |cy.entries| && cy.used <= used
    ensures CycleOk(cy.(next := cy.next + 1, used := used), qs)
  {
    hide Nominated, Balanced, Bounded, SnapOk, Sorted, OnePerQueue, RepresentativeMode;
    var cy' := cy.(next := cy.next + 1, used := used);
    forall n | n in cy'.granted ensures GrantOk(cy', n) { assert GrantOk(cy, n); }
    forall n, m | n in cy'.granted && m in cy'.granted && n != m && SameCohort(cy'.snap, n, m)
      ensures !GrantBorrows(cy', n)
    {
      assert !GrantBorrows(cy, n);
    }
    forall n, p | n in qs ensures 0 <= At(qs[n].usage, p) <= At(cy'.snap.queues[n].usage, p) + GrantedAt(cy', n, p) {
      assert At(qs[n].usage, p) <= At(cy.snap.queues[n].usage, p) + GrantedAt(cy, n, p);
    }
  }

  /** A queue has at most one head in a cycle. */
  lemma NotGrantedYet(cy: Cycle, qs: map<string, SnapQueue>)
    requires CycleOk(cy, qs) && cy.next < |cy.entries|
    ensures cy.entries[cy.next].info.clusterQueue !in cy.granted
  {
    hide Nominated, Balanced, Bounded, SnapOk, Sorted, Covers, Exclusive, RepresentativeMode;
    var n := cy.entries[cy.next].info.clusterQueue;
    assert n in cy.granted ==> GrantOk(cy, n);
  }

  /** The order of entries and the used cohorts make borrowing exclusive. */
  lemma GrantKeepsExclusive(cy: Cycle, qs: map<string, SnapQueue>, cy': Cycle)
    requires CycleOk(cy, qs) && cy.next < |cy.entries| && !PassedOver(cy, cy.entries[cy.next])
    requires cy'.snap == cy.snap && cy'.entries == cy.entries
    requires cy'.granted == cy.granted[cy.entries[cy.next].info.clusterQueue := cy.next]
    ensures Exclusive(cy')
  {
    hide Nominated, Balanced, Bounded, SnapOk, OnePerQueue, Covers, RepresentativeMode;
    var e := cy.entries[cy.next];
    var b := e.info.clusterQueue;
    NotGrantedYet(cy, qs);
    forall m | m in cy.granted && SameCohort(cy.snap, b, m) ensures !Borrows(e.assignment) && !GrantBorrows(cy, m) {
      assert GrantOk(cy, m);
      assert !Less(e, cy.entries[cy.granted[m]]);
    }
    forall n, m | n in cy'.granted && m in cy'.granted && n != m && SameCohort(cy'.snap, n, m)
      ensures !GrantBorrows(cy', n)
    {
      if n != b {
        assert GrantBorrows(cy', n) <==> GrantBorrows(cy, n);
        if m == b { assert SameCohort(cy.snap, b, n); }
      }
    }
  }

  lemma GrantCovered(c: CacheState, cy: Cycle, now: int, cy': Cycle)
    requires Ok(c) && CycleOk(cy, Live(c)) && cy.next < |cy.entries|
    requires RepresentativeMode(cy.entries[cy.next].assignment) == Fit
    requires cy'.snap == cy.snap && cy'.entries == cy.entries
    requires cy'.granted == cy.granted[cy.entries[cy.next].info.clusterQueue := cy.next]
    requires Assume(c, WithAdmission(cy.entries[cy.next].info.obj, cy.entries[cy.next].assignment,
                                     cy.entries[cy.next].info.clusterQueue, now)).1
    ensures var c' := Assume(c, WithAdmission(cy.entries[cy.next].info.obj, cy.entries[cy.next].assignment,
                                              cy.entries[cy.next].info.clusterQueue, now)).0;
            Ok(c') && Covers(cy', Live(c')) && cy.entries[cy.next].info.clusterQueue in cy.snap.queues
  {
    hide Nominated, Balanced, Bounded, Sorted, OnePerQueue, Exclusive, RepresentativeMode, Ok, AddWorkload,
      WithAdmission, TallyUsage, WithinLimits, Assume, Live, SnapOk, GrantOk;
    var e := cy.entries[cy.next];
    var b, w := e.info.clusterQueue, WithAdmission(e.info.obj, e.assignment, e.info.clusterQueue, now);
    var c' := Assume(c, w).0;
    EntryFits(cy.snap, e);
    AssumeKeepsOk(c, w);
    NotGrantedYet(cy, Live(c));
    LiveAfterGrant(c, e.info.obj, e.assignment, b, now);
    LiveNonNegative(c');
    CoversAfterGrant(cy, cy', Live(c), Live(c'));
  }

  lemma CoversAfterGrant(cy: Cycle, cy': Cycle, qs: map<string, SnapQueue>, qs': map<string, SnapQueue>)
    requires cy.next < |cy.entries| && Covers(cy, qs) && SameSpecs(qs', qs)
    requires cy'.snap == cy.snap && cy'.entries == cy.entries
    requires cy'.granted == cy.granted[cy.entries[cy.next].info.clusterQueue := cy.next]
    requires cy.entries[cy.next].info.clusterQueue !in cy.granted
    requires forall n, p :: n in qs' ==> 0 <= At(qs'[n].usage, p)
    requires forall n :: n in qs && n != cy.entries[cy.next].info.clusterQueue ==> qs'[n] == qs[n]
    requires var b := cy.entries[cy.next].info.clusterQueue;
             && b in qs
             && forall p :: At(qs'[b].usage, p) == At(qs[b].usage, p) + At(cy.entries[cy.next].assignment.usage, p)
    ensures Covers(cy', qs')
  {
    forall n, p | n in qs' ensures At(qs'[n].usage, p) <= At(cy.snap.queues[n].usage, p) + GrantedAt(cy', n, p) {
      assert At(qs[n].usage, p) <= At(cy.snap.queues[n].usage, p) + GrantedAt(cy, n, p);
    }
  }

  /** The queue's usage grows by the assignment's tally; all else in the cache's live queues is the same. */
  lemma LiveAfterGrant(c: CacheState, w: Workload, a: Assignment, b: string, now: int)
    requires Ok(c) && a.usage == TallyUsage(a.podSets) && Assume(c, WithAdmission(w, a, b, now)).1
    requires b in Live(c) && a.usage.Keys <= Live(c)[b].spec.quotas.Keys
    ensures var qs, qs' := Live(c), Live(Assume(c, WithAdmission(w, a, b, now)).0);
            && SameSpecs(qs', qs)
            && (forall n :: n in qs && n != b ==> qs'[n] == qs[n])
            && (forall p :: At(qs'[b].usage, p) == At(qs[b].usage, p) + At(a.usage, p))
  {
    hide AddWorkload, WithAdmission, TallyUsage, Ok;
    AdmittedKey(w, a, b, now);
    AddedSpec(c.queues[b], WithAdmission(w, a, b, now));
    LedgerChargesWhatWasChecked(c.queues[b], w, a, b, now);
    LiveKeys(c, b);
    LiveWithQueue(c, b, AddWorkload(c.queues[b], WithAdmission(w, a, b, now)), c.assumed[w.key := b]);
    hide Live, Assume;
  }

  lemma LiveWithQueue(c: CacheState, n: string, l: Ledger, assumed: map<Name, string>)
    requires n in c.queues && l.status == c.queues[n].status == Active
    ensures Live(WithQueue(c, n, l).(assumed := assumed)) == Live(c)[n := Copied(l)]
  {
  }

  lemma LiveKeys(c: CacheState, n: string)
    requires Ok(c) && n in c.queues
    ensures c.queues[n].usage.Keys == c.queues[n].spec.quotas.Keys
  {
    assert Sound(n, c.queues[n]);
  }

  lemma AdmittedKey(w: Workload, a: Assignment, n: string, now: int)
    ensures var w' := WithAdmission(w, a, n, now);
            w'.key == w.key && w'.IsAdmitted() && w'.admission.value.clusterQueue == n
  {
  }

  lemma AddedSpec(l: Ledger, w: Workload)
    ensures AddWorkload(l, w).spec == l.spec && AddWorkload(l, w).status == l.status
  {
  }

  lemma ProcessKeepsOk(c: CacheState, cy: Cycle, now: int)
    requires Ok(c) && CycleOk(cy, Live(c)) && cy.next < |cy.entries|
    ensures var (c', cy', _) := ProcessOne(c, cy, now);
            Ok(c') && CycleOk(cy', Live(c'))
  {
    hide SnapSound, RepresentativeMode, Ok, WithAdmission, Assume, Covers, Exclusive;
    var e := cy.entries[cy.next];
    var (c', cy', st) := ProcessOne(c, cy, now);
    AdvanceKeepsCycle(cy, Live(c), cy'.used);
    if st == Assumed {
      GrantKeepsExclusive(cy, Live(c), cy');
      GrantCovered(c, cy, now, cy');
      SnapSoundAfter(cy, cy');
      forall n | n in cy'.granted ensures GrantOk(cy', n) {
        if n != e.info.clusterQueue { assert GrantOk(cy, n); }
      }
    }
  }

  lemma SnapSoundAfter(cy: Cycle, cy': Cycle)
    requires SnapSound(cy) && cy.next < |cy.entries|
    requires cy'.snap == cy.snap && cy'.entries == cy.entries && cy'.next == cy.next + 1
    ensures SnapSound(cy')
  {
    hide Nominated, Balanced, Bounded, SnapOk, Sorted, OnePerQueue;
  }

  // ---------- every run ----------

  lemma StepKeepsOk(x: Sys, ev: Event, y: Sys)
    requires SysOk(x) && Step(x, ev, y)
    ensures SysOk(y)
  {
    hide Ok, Bounded, CycleOk, IsSnapshotOf, Sorted, OnePerQueue, Nominated, ProcessOne, Delete, Forget, AddOrUpdate,
      QueueOf, Confirms;
    match ev
    case Start(s, es) =>
      StartKeepsOk(x.cache, s, es);
    case Process(now) =>
      ProcessKeepsOk(x.cache, x.cycle, now);
      BoundedInCycle(y.cycle, Live(y.cache));
    case Finish =>
    case Release(w, at) =>
      DeleteNotHigher(x.cache, w, at);
      DeleteKeepsOk(x.cache, w, at);
      LowerStepKeepsOk(x, y);
    case ForgetAssumed(w) =>
      ForgetNotHigher(x.cache, w);
      ForgetKeepsOk(x.cache, w);
      LowerStepKeepsOk(x, y);
    case Confirm(w) =>
      ConfirmNotHigher(x.cache, w);
      AddOrUpdateKeepsOk(x.cache, w);
      LowerStepKeepsOk(x, y);
  }

  lemma LowerStepKeepsOk(x: Sys, y: Sys)
    requires SysOk(x) && y == x.(cache := y.cache) && NotHigher(x.cache, y.cache) && Ok(y.cache)
    ensures SysOk(y)
  {
    hide Ok, Bounded, CycleOk, NotHigher, Lower;
    NotHigherIsLower(x.cache, y.cache);
    LowerKeepsBounded(Live(x.cache), Live(y.cache));
    if x.Busy? {
      LowerKeepsCycle(x.cycle, Live(x.cache), Live(y.cache));
    }
  }

  /**
   * Quota safety over every run of cycles, releases, forgets and confirmations with fixed quotas: each active queue
   * stays within its limits, a cohort borrows no more than it can request, and uses at most twice that.
   */
  lemma {:induction false} RunKeepsQuota(x: Sys, evs: seq<Event>, y: Sys)
    requires SysOk(x) && SchedulingCycle.Run(x, evs, y)
    ensures SysOk(y)
    ensures forall n, p :: n in Live(y.cache) ==> QueueBound(Live(y.cache)[n], p)
    ensures forall g, p :: CohortBorrowed(Live(y.cache), g, p) <= CohortRequestable(Live(y.cache), g, p)
    ensures forall g, p :: CohortUsed(Live(y.cache), g, p) <= 2 * CohortRequestable(Live(y.cache), g, p)
    decreases |evs|
  {
    hide QueueBound, CohortUsed, CohortBorrowed, CohortRequestable, Step, Ok, CycleOk;
    if evs != [] {
      var z :| Step(x, evs[0], z) && SchedulingCycle.Run(z, evs[1..], y);
      StepKeepsOk(x, evs[0], z);
      RunKeepsQuota(z, evs[1..], y);
    }
    forall g, p ensures CohortUsed(Live(y.cache), g, p) <= 2 * CohortRequestable(Live(y.cache), g, p) {
      UsedAtMostTwice(Live(y.cache), g, p);
    }
  }

  /** In every state a run reaches inside a cycle, borrowing is exclusive and each cohort pair meets its alternative. */
  lemma RunKeepsCycle(x: Sys, evs: seq<Event>, y: Sys, g: string, p: Pair)
    requires SysOk(x) && SchedulingCycle.Run(x, evs, y) && y.Busy?
    ensures Exclusive(y.cycle)
    ensures CohortBorrowed(Live(y.cache), g, p) <= CohortBorrowed(y.cycle.snap.queues, g, p)
         || CohortUsed(Live(y.cache), g, p) <= CohortRequestable(Live(y.cache), g, p)
    ensures CohortBorrowed(y.cycle.snap.queues, g, p) == 0 ==>
              CohortUsed(Live(y.cache), g, p) <= CohortRequestable(Live(y.cache), g, p)
  {
    hide CohortUsed, CohortBorrowed, CohortRequestable, SchedulingCycle.Run, Ok, SnapSound, Covers, GrantOk, Exclusive;
    RunKeepsQuota(x, evs, y);
    CycleAlternatives(y.cycle, Live(y.cache), g, p);
    if CohortBorrowed(y.cycle.snap.queues, g, p) == 0 {
      NoBorrowersNoExcess(y.cycle, Live(y.cache), g, p);
    }
  }
}
