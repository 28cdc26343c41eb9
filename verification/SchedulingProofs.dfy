/** Quota safety of scheduling cycles, over every run. */
module SchedulingProofs {
  import opened Sums
  import opened Model
  import opened Ledgers
  import opened Caches
  import opened Snapshots
  import opened FlavorAssigner
  import opened Assignments
  import opened AssignmentProofs
  import opened SchedulingCycle

  // ---------- sums over a cohort ----------

  ghost predicate SameSpecs(qs: map<string, SnapQueue>, qs': map<string, SnapQueue>) {
    qs.Keys == qs'.Keys && forall n :: n in qs ==> qs[n].spec == qs'[n].spec
  }

  lemma SameSpecsCohort(qs: map<string, SnapQueue>, qs': map<string, SnapQueue>, g: string, p: Pair)
    requires SameSpecs(qs, qs')
    ensures InCohort(qs, g).Keys == InCohort(qs', g).Keys
    ensures CohortRequestable(qs, g, p) == CohortRequestable(qs', g, p)
  {
    assert NominalOf(InCohort(qs, g), p) == NominalOf(InCohort(qs', g), p);
  }

  /** Usage splits into what is within nominal and what is borrowed. */
  lemma UsedAtMost(qs: map<string, SnapQueue>, g: string, p: Pair)
    ensures CohortUsed(qs, g, p) <= CohortRequestable(qs, g, p) + CohortBorrowed(qs, g, p)
  {
    var ms := InCohort(qs, g);
    var both := map n | n in ms :: NominalOf(ms, p)[n] + BorrowedOf(ms, p)[n];
    SumPlus(NominalOf(ms, p), BorrowedOf(ms, p), both);
    SumMonotone(UsageOf(ms, p), both);
  }

  lemma BorrowedAtMostUsed(qs: map<string, SnapQueue>, g: string, p: Pair)
    requires forall n :: n in qs ==> 0 <= At(qs[n].usage, p)
    ensures CohortBorrowed(qs, g, p) <= CohortUsed(qs, g, p)
  {
    SumMonotone(BorrowedOf(InCohort(qs, g), p), UsageOf(InCohort(qs, g), p));
  }

  lemma BorrowedMonotone(qs: map<string, SnapQueue>, qs': map<string, SnapQueue>, g: string, p: Pair)
    requires SameSpecs(qs, qs')
    requires forall n :: n in qs && qs[n].spec.cohort == Some(g) ==>
               Over(At(qs[n].usage, p), qs[n].spec.Nominal(p)) <= Over(At(qs'[n].usage, p), qs[n].spec.Nominal(p))
    ensures CohortBorrowed(qs, g, p) <= CohortBorrowed(qs', g, p)
  {
    SumMonotone(BorrowedOf(InCohort(qs, g), p), BorrowedOf(InCohort(qs', g), p));
  }

  /** If only queue b may exceed its old usage, by t, then so does the cohort. */
  lemma UsedAfterOneGrant(qs: map<string, SnapQueue>, qs': map<string, SnapQueue>, g: string, p: Pair, b: string,
                          t: int)
    requires SameSpecs(qs, qs') && b in qs && qs[b].spec.cohort == Some(g)
    requires forall n :: n in qs && qs[n].spec.cohort == Some(g) ==>
               At(qs[n].usage, p) <= At(qs'[n].usage, p) + if n == b then t else 0
    ensures CohortUsed(qs, g, p) <= CohortUsed(qs', g, p) + t
  {
    hide Sum;
    var u, u' := UsageOf(InCohort(qs, g), p), UsageOf(InCohort(qs', g), p);
    var most := u'[b := u'[b] + t];
    SumPut(u', b, u'[b] + t);
    assert u.Keys == most.Keys;
    assert forall n :: n in u ==> u[n] <= most[n];
    SumMonotone(u, most);
  }

  /** When a queue leaves a cohort, more is free for the others if and only if it used more than it brought. */
  lemma LeavingFreesIff(qs: map<string, SnapQueue>, qs': map<string, SnapQueue>, n: string, g: string, p: Pair)
    requires n in qs && qs[n].spec.cohort == Some(g) && !(n in qs' && qs'[n].spec.cohort == Some(g))
    requires forall m :: m != n ==> (m in qs <==> m in qs') && (m in qs ==> qs'[m] == qs[m])
    ensures var free := CohortRequestable(qs, g, p) - CohortUsed(qs, g, p);
            var free' := CohortRequestable(qs', g, p) - CohortUsed(qs', g, p);
            && free' == free + At(qs[n].usage, p) - qs[n].spec.Nominal(p)
            && (free' > free <==> At(qs[n].usage, p) > qs[n].spec.Nominal(p))
  {
    hide Sum, UsageOf, NominalOf, QueueSpec.Nominal, InCohort;
    CohortLeft(qs, qs', n, g);
    assert n in InCohort(qs, g) && InCohort(qs, g)[n] == qs[n] by { Member(qs, n, g); }
    WithoutOne(InCohort(qs, g), n, p);
  }

  lemma Member(qs: map<string, SnapQueue>, n: string, g: string)
    requires n in qs && qs[n].spec.cohort == Some(g)
    ensures n in InCohort(qs, g) && InCohort(qs, g)[n] == qs[n]
  {
  }

  lemma CohortLeft(qs: map<string, SnapQueue>, qs': map<string, SnapQueue>, n: string, g: string)
    requires n in qs && qs[n].spec.cohort == Some(g) && !(n in qs' && qs'[n].spec.cohort == Some(g))
    requires forall m :: m != n ==> (m in qs <==> m in qs') && (m in qs ==> qs'[m] == qs[m])
    ensures InCohort(qs', g) == InCohort(qs, g) - {n}
  {
    var ms, ms' := InCohort(qs, g) - {n}, InCohort(qs', g);
    assert forall m :: m in ms <==> m in ms';
    assert forall m :: m in ms ==> ms[m] == ms'[m];
  }

  lemma WithoutOne(qs: map<string, SnapQueue>, n: string, p: Pair)
    requires n in qs
    ensures Sum(UsageOf(qs - {n}, p)) == Sum(UsageOf(qs, p)) - At(qs[n].usage, p)
    ensures Sum(NominalOf(qs - {n}, p)) == Sum(NominalOf(qs, p)) - qs[n].spec.Nominal(p)
  {
    hide Sum, QueueSpec.Nominal;
    assert UsageOf(qs - {n}, p) == UsageOf(qs, p) - {n} && NominalOf(qs - {n}, p) == NominalOf(qs, p) - {n};
    SumTake(UsageOf(qs, p), n);
    SumTake(NominalOf(qs, p), n);
  }

  // ---------- what a grant guarantees ----------

  lemma GrantFits(cy: Cycle, n: string)
    requires SnapSound(cy) && n in cy.granted && GrantOk(cy, n)
    ensures var a, v := cy.entries[cy.granted[n]].assignment, ViewOf(cy.snap, n);
            && (forall p :: p in a.usage ==> WithinLimits(v, p, a.usage[p]))
            && (!Borrows(a) ==> forall p :: p in a.usage ==> At(v.usage, p) + a.usage[p] <= v.spec.Nominal(p))
            && a.usage.Keys <= v.spec.quotas.Keys
  {
    hide WithinLimits, IsAssignment, RepresentativeMode, Balanced, Bounded, QueueSpec.Valid;
    EntryFits(cy.snap, cy.entries[cy.granted[n]]);
  }

  lemma EntryFits(s: Snap, e: Entry)
    requires Nominated(s, e) && RepresentativeMode(e.assignment) == Fit
    ensures e.info.clusterQueue in s.queues
    ensures var a, v := e.assignment, ViewOf(s, e.info.clusterQueue);
            && (forall p :: p in a.usage ==> WithinLimits(v, p, a.usage[p]))
            && (!Borrows(a) ==> forall p :: p in a.usage ==> At(v.usage, p) + a.usage[p] <= v.spec.Nominal(p))
            && a.usage.Keys <= v.spec.quotas.Keys && a.usage == TallyUsage(a.podSets)
  {
    hide WithinLimits, QueueSpec.Valid, TallyUsage, TallyBorrow, OutcomeAt, AssignableAt;
    var v, pss := ViewOf(s, e.info.clusterQueue), CountedPodSets(e.info, s.queues[e.info.clusterQueue].spec);
    FitSound(e.assignment, v, pss, e.elig);
    UsageListed(e.assignment, v, pss, e.elig);
  }

  lemma QueueBoundInCycle(cy: Cycle, qs: map<string, SnapQueue>, n: string, p: Pair)
    requires CycleOk(cy, qs) && n in qs
    ensures QueueBound(qs[n], p)
  {
    hide Sorted, OnePerQueue, Nominated, Balanced, Exclusive, RepresentativeMode;
    assert QueueBound(cy.snap.queues[n], p);
    if n in cy.granted {
      assert GrantOk(cy, n);
      GrantFits(cy, n);
    }
  }

  /** A queue that was not granted borrowed quota of this pair does not borrow more of it than before. */
  lemma OverNotMore(cy: Cycle, qs: map<string, SnapQueue>, n: string, p: Pair)
    requires CycleOk(cy, qs) && n in qs
    requires !(GrantBorrows(cy, n) && p in cy.entries[cy.granted[n]].assignment.usage)
    ensures Over(At(qs[n].usage, p), qs[n].spec.Nominal(p)) <=
            Over(At(cy.snap.queues[n].usage, p), qs[n].spec.Nominal(p))
  {
    hide Sorted, OnePerQueue, Nominated, Balanced, Exclusive, RepresentativeMode, Bounded;
    if n in cy.granted {
      assert GrantOk(cy, n);
      GrantFits(cy, n);
    }
  }

  lemma BorrowerIsAlone(cy: Cycle, qs: map<string, SnapQueue>, g: string, b: string, p: Pair)
    requires CycleOk(cy, qs) && b in qs && qs[b].spec.cohort == Some(g)
    requires GrantBorrows(cy, b) && p in cy.entries[cy.granted[b]].assignment.usage
    ensures CohortUsed(qs, g, p) <= CohortRequestable(qs, g, p)
  {
    hide Sorted, OnePerQueue, Nominated, RepresentativeMode, Bounded;
    var s, t := cy.snap, cy.entries[cy.granted[b]].assignment.usage[p];
    assert GrantOk(cy, b);
    GrantFits(cy, b);
    forall n | n in qs && qs[n].spec.cohort == Some(g)
      ensures At(qs[n].usage, p) <= At(s.queues[n].usage, p) + if n == b then t else 0
    {
      assert At(qs[n].usage, p) <= At(s.queues[n].usage, p) + GrantedAt(cy, n, p);
      assert n in cy.granted && n != b ==> SameCohort(s, b, n);
    }
    UsedAfterOneGrant(qs, s.queues, g, p, b, t);
    SameSpecsCohort(qs, s.queues, g, p);
    assert QueueOk(b, s.queues[b]) && g in s.cohorts;
    assert TotalAt(s.cohorts[g], InCohort(s.queues, g), p);
    assert WithinLimits(ViewOf(s, b), p, t);
  }

  /** For each cohort pair, a cycle either adds no borrowing or leaves usage within what the cohort can request. */
  lemma CycleAlternatives(cy: Cycle, qs: map<string, SnapQueue>, g: string, p: Pair)
    requires CycleOk(cy, qs)
    ensures CohortBorrowed(qs, g, p) <= CohortBorrowed(cy.snap.queues, g, p)
         || CohortUsed(qs, g, p) <= CohortRequestable(qs, g, p)
  {
    hide SnapSound, Exclusive, GrantOk, CohortUsed, CohortBorrowed, CohortRequestable;
    if b :| b in qs && qs[b].spec.cohort == Some(g) && GrantBorrows(cy, b) &&
            p in cy.entries[cy.granted[b]].assignment.usage {
      BorrowerIsAlone(cy, qs, g, b, p);
    } else {
      forall n | n in qs && qs[n].spec.cohort == Some(g)
        ensures Over(At(qs[n].usage, p), qs[n].spec.Nominal(p)) <=
                Over(At(cy.snap.queues[n].usage, p), qs[n].spec.Nominal(p))
      {
        OverNotMore(cy, qs, n, p);
      }
      BorrowedMonotone(qs, cy.snap.queues, g, p);
    }
  }

  lemma BoundedInCycle(cy: Cycle, qs: map<string, SnapQueue>)
    requires CycleOk(cy, qs)
    ensures Bounded(qs)
  {
    hide QueueBound, CohortUsed, CohortBorrowed, CohortRequestable, Sorted, OnePerQueue, Nominated, Exclusive, GrantOk,
      Balanced, SnapOk;
    forall n, p | n in qs ensures QueueBound(qs[n], p) {
      QueueBoundInCycle(cy, qs, n, p);
    }
    forall g, p ensures CohortBorrowed(qs, g, p) <= CohortRequestable(qs, g, p) {
      CycleAlternatives(cy, qs, g, p);
      SameSpecsCohort(qs, cy.snap.queues, g, p);
      BorrowedAtMostUsed(qs, g, p);
      assert CohortBorrowed(cy.snap.queues, g, p) <= CohortRequestable(cy.snap.queues, g, p);
    }
  }

  /** If nobody in the cohort borrowed the pair when the cycle began, usage never exceeds what can be requested. */
  lemma NoBorrowersNoExcess(cy: Cycle, qs: map<string, SnapQueue>, g: string, p: Pair)
    requires CycleOk(cy, qs) && CohortBorrowed(cy.snap.queues, g, p) == 0
    ensures CohortUsed(qs, g, p) <= CohortRequestable(qs, g, p)
  {
    hide SnapSound, Covers, Exclusive, GrantOk, CohortUsed, CohortBorrowed, CohortRequestable;
    CycleAlternatives(cy, qs, g, p);
    UsedAtMost(qs, g, p);
  }

  lemma UsedAtMostTwice(qs: map<string, SnapQueue>, g: string, p: Pair)
    requires Bounded(qs)
    ensures CohortUsed(qs, g, p) <= 2 * CohortRequestable(qs, g, p)
  {
    hide QueueBound, CohortUsed, CohortBorrowed, CohortRequestable;
    UsedAtMost(qs, g, p);
    assert CohortBorrowed(qs, g, p) <= CohortRequestable(qs, g, p);
  }
}
