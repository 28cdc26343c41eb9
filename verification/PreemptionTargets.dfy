/** Preemptor.Do as a whole: candidates, the two attempts, and what holds of the targets. */
module PreemptionTargets {
  import opened Sums
  import opened Model
  import opened Ledgers
  import opened Snapshots
  import opened FlavorAssigner
  import opened Assignments
  import opened AssignmentProofs
  import opened Eviction
  import opened Preemption

  // ---------- candidates ----------

  predicate MayPreemptOwn(policy: Policy, wl: Workload, t: Workload) {
    && policy != Never && t.spec.priority <= wl.spec.priority
    && (t.spec.priority == wl.spec.priority ==>
          policy == LowerOrNewerEqualPriority && wl.QueueOrderTimestamp() < t.QueueOrderTimestamp())
  }

  predicate MayReclaim(policy: Policy, wl: Workload, t: Workload) {
    policy != Never && (policy == Any || t.spec.priority < wl.spec.priority)
  }

  ghost predicate InReach(s: Snap, n: string, m: string, needed: set<Pair>)
    requires n in s.queues
  {
    && s.queues[n].spec.cohort.Some? && s.queues[n].spec.cohort.value in s.cohorts
    && m != n && m in s.cohorts[s.queues[n].spec.cohort.value].members
    && m in s.queues && IsBorrowing(s.queues[m], needed)
  }

  /** The workloads that the preemption policies of queue n allow wl to preempt, for the needed pairs. */
  ghost predicate IsCandidate(s: Snap, wl: Workload, n: string, needed: set<Pair>, t: Info)
    requires n in s.queues
  {
    && PresentOne(s, t) && UsesAny(t, needed)
    && if t.clusterQueue == n then MayPreemptOwn(s.queues[n].spec.withinQueue, wl, t.obj)
       else MayReclaim(s.queues[n].spec.reclaim, wl, t.obj) && InReach(s, n, t.clusterQueue, needed)
  }

  /** findCandidates deletes the queue from its cohort's shared set of members. */
  function WithoutMember(s: Snap, n: string): Snap
    requires n in s.queues
  {
    var spec := s.queues[n].spec;
    if spec.cohort.Some? && spec.cohort.value in s.cohorts && spec.reclaim != Never then
      var c := s.cohorts[spec.cohort.value];
      s.(cohorts := s.cohorts[spec.cohort.value := c.(members := c.members - {n})])
    else s
  }

  /**
   * The effect on a later preemptor of the cohort: it no longer sees this queue's workloads, and nothing else
   * changes.
   */
  lemma CandidatesAfterWithoutMember(s: Snap, n: string, wl: Workload, m: string, needed: set<Pair>, t: Info)
    requires SnapOk(s) && n in s.queues && m in s.queues
    ensures IsCandidate(WithoutMember(s, n), wl, m, needed, t) <==>
            IsCandidate(s, wl, m, needed, t) && !(t.clusterQueue == n && m != n && WithoutMember(s, n) != s)
  {
    hide UsesAny, IsBorrowing;
    var spec := s.queues[n].spec;
    if t.clusterQueue == n && m != n && IsCandidate(s, wl, m, needed, t) {
      assert s.queues[m].spec.cohort == spec.cohort;
    }
  }

  // ---------- the two attempts ----------

  function OwnOnly(cands: seq<Info>, n: string): seq<Info> {
    if cands == [] then []
    else
      var rest := OwnOnly(cands[..|cands| - 1], n);
      if cands[|cands| - 1].clusterQueue == n then rest + [cands[|cands| - 1]] else rest
  }

  lemma {:induction false} OwnOnlyElems(cands: seq<Info>, n: string)
    ensures forall t :: t in OwnOnly(cands, n) <==> t in cands && t.clusterQueue == n
    ensures |OwnOnly(cands, n)| <= |cands|
    ensures |OwnOnly(cands, n)| == |cands| ==> OwnOnly(cands, n) == cands
    decreases |cands|
  {
    if cands != [] {
      var i := |cands| - 1;
      OwnOnlyElems(cands[..i], n);
      assert cands == cands[..i] + [cands[i]];
    }
  }

  lemma {:induction false} OwnOnlyNoDuplicates(cands: seq<Info>, n: string)
    requires NoDuplicates(cands)
    ensures NoDuplicates(OwnOnly(cands, n))
    decreases |cands|
  {
    if cands != [] {
      var i := |cands| - 1;
      OwnOnlyNoDuplicates(cands[..i], n);
      OwnOnlyElems(cands[..i], n);
      assert cands[i] !in cands[..i];
    }
  }

  /**
   * Without candidates of other queues borrowing is tried at once; otherwise only with own candidates, as a second
   * attempt.
   */
  ghost function Targets(s: Snap, a: Ask, cands: seq<Info>): set<Info> {
    var own := OwnOnly(cands, a.queue);
    if |own| == |cands| then Selected(s, a.(borrowing := true), cands)
    else
      var first := Selected(s, a.(borrowing := false), cands);
      if first != {} then first else Selected(s, a.(borrowing := true), own)
  }

  /** The attempt that produced the targets: its list of candidates and whether it borrowed. */
  ghost predicate ProducedBy(s: Snap, a: Ask, cands: seq<Info>, attempt: seq<Info>, borrowing: bool) {
    && NoDuplicates(attempt) && Targets(s, a, cands) == Selected(s, a.(borrowing := borrowing), attempt)
    && (attempt == cands || attempt == OwnOnly(cands, a.queue))
    && (borrowing ==> forall t :: t in attempt ==> t.clusterQueue == a.queue)
  }

  lemma SomeAttempt(s: Snap, a: Ask, cands: seq<Info>) returns (attempt: seq<Info>, borrowing: bool)
    requires NoDuplicates(cands)
    ensures ProducedBy(s, a, cands, attempt, borrowing)
  {
    OwnOnlyElems(cands, a.queue);
    OwnOnlyNoDuplicates(cands, a.queue);
    var own := OwnOnly(cands, a.queue);
    if |own| == |cands| {
      attempt, borrowing := cands, true;
    } else if Selected(s, a.(borrowing := false), cands) != {} {
      attempt, borrowing := cands, false;
    } else {
      attempt, borrowing := own, true;
    }
  }

  // ---------- the assigner's view and the preemptor's ----------

  /** The two checks differ only for a pair without a borrowing limit: unlimited there, nominal here. */
  lemma FitsAtIff(v: QueueView, p: Pair, amount: int)
    requires v.spec.Valid() && p in v.spec.quotas && (v.cohort.None? ==> v.spec.cohort.None?)
    ensures FitsAt(v, p, amount, true) <==>
            WithinLimits(v, p, amount) &&
            (v.spec.quotas[p].borrowingLimit.None? ==> At(v.usage, p) + amount <= v.spec.Nominal(p))
  {
  }

  lemma {:induction false} TallyGrows(pss: seq<PodSetAssignment>, i: nat, p: Pair)
    requires i <= |pss|
    ensures At(TallyUsage(pss[..i]), p) <= At(TallyUsage(pss), p)
    ensures p in TallyUsage(pss[..i]) ==> p in TallyUsage(pss)
    decreases |pss|
  {
    if i == |pss| {
      assert pss[..i] == pss;
    } else {
      TallyGrows(pss[..|pss| - 1], i, p);
      assert pss[..|pss| - 1][..i] == pss[..i];
    }
  }

  lemma TallyOfPair(pss: seq<PodSetAssignment>, i: nat, p: Pair)
    requires i < |pss| && Assigns(pss[i], p)
    ensures p in TallyUsage(pss)
    ensures At(TallyUsage(pss[..i]), p) + Amount(pss[i], p) <= At(TallyUsage(pss), p)
  {
    assert pss[..i + 1][..i] == pss[..i];
    PairsOfIff(pss[i]);
    TallyGrows(pss, i + 1, p);
  }

  lemma PreemptIsComplete(a: Assignment, v: QueueView, pss: seq<PodSetResources>, elig: Eligibilities)
    requires IsAssignment(a, v, pss, elig) && RepresentativeMode(a) == Preempt
    ensures Complete(a, v, pss, elig)
    ensures exists i, r :: 0 <= i < |a.podSets| && r in a.podSets[i].flavors && a.podSets[i].flavors[r].mode == Preempt
  {
    hide FitsResourceQuota, ChoiceOf, TallyUsage, TallyBorrow, Assignable;
    forall i | 0 <= i < |a.podSets| ensures AssignableAt(a, v, pss, elig, i) {
      assert OutcomeAt(a, v, pss, elig, i) && PodSetMode(a.podSets[i]) != NoFit;
    }
    var i :| 0 <= i < |a.podSets| && PodSetMode(a.podSets[i]) == Preempt;
    assert FlavorHasMode(a.podSets[i].flavors, Preempt);
  }

  /** A workload that the assigner sends to preemption does not fit, under either check, before anything is evicted. */
  lemma PreemptDoesNotFit(a: Assignment, v: QueueView, pss: seq<PodSetResources>, elig: Eligibilities, borrowing: bool)
    requires IsAssignment(a, v, pss, elig) && RepresentativeMode(a) == Preempt
    requires v.spec.Valid() && (v.cohort.None? ==> v.spec.cohort.None?)
    ensures !WorkloadFits(v, a.usage, borrowing)
  {
    hide FitsResourceQuota, ChoiceOf, TallyUsage, TallyBorrow, IsPodSetOutcome, Assignable, RepresentativeMode,
      WithinLimits, FitsAt;
    PreemptIsComplete(a, v, pss, elig);
    var i, r :| 0 <= i < |a.podSets| && r in a.podSets[i].flavors && a.podSets[i].flavors[r].mode == Preempt;
    var ps, u := a.podSets[i], TallyUsage(a.podSets[..i]);
    var p := Pair(ps.flavors[r].name, r);
    AssignedIsEvaluated(a, v, pss, elig, i);
    FitIffWithinLimits(v, p, ps.requests[r] + At(u, p));
    assert !WithinLimits(v, p, ps.requests[r] + At(u, p));
    TallyOfPair(a.podSets, i, p);
    UsageListed(a, v, pss, elig);
    LargerDoesNotFit(v, p, ps.requests[r] + At(u, p), a.usage[p], borrowing);
  }

  lemma LargerDoesNotFit(v: QueueView, p: Pair, amount: int, total: int, borrowing: bool)
    requires v.spec.Valid() && p in v.spec.quotas && (v.cohort.None? ==> v.spec.cohort.None?)
    requires amount <= total && !WithinLimits(v, p, amount)
    ensures !FitsAt(v, p, total, borrowing)
  {
  }

  /**
   * The preemptor's check refines the assigner's: where it passes, replaying the same assignment pod set by pod set,
   * each on top of the earlier ones, finds mode Fit for every resource.
   */
  lemma ReplayFits(v: QueueView, pss: seq<PodSetAssignment>, borrowing: bool, i: nat, r: string)
    requires v.spec.Valid() && (v.cohort.None? ==> v.spec.cohort.None?)
    requires WorkloadFits(v, TallyUsage(pss), borrowing) && TallyUsage(pss).Keys <= v.spec.quotas.Keys
    requires i < |pss| && r in pss[i].flavors && r in pss[i].requests
    ensures Outcome(v, pss[i].flavors[r].name, r, pss[i].requests[r], TallyUsage(pss[..i])).0 == Fit
  {
    hide FitsResourceQuota, TallyUsage, WithinLimits, FitsAt, QueueSpec.Valid;
    var p := Pair(pss[i].flavors[r].name, r);
    var val := pss[i].requests[r] + At(TallyUsage(pss[..i]), p);
    FitIffWithinLimits(v, p, val);
    TallyOfPair(pss, i, p);
    assert FitsAt(v, p, TallyUsage(pss)[p], borrowing);
    if !WithinLimits(v, p, val) {
      LargerDoesNotFit(v, p, val, TallyUsage(pss)[p], borrowing);
    }
  }

  // ---------- what holds of the targets ----------

  lemma ViewHasCohort(s: Snap, n: string)
    requires SnapOk(s) && n in s.queues
    ensures ViewOf(s, n).cohort.None? ==> ViewOf(s, n).spec.cohort.None?
  {
  }

  /**
   * For a workload the assigner sends to preemption: the targets make room,
   * and no proper subset of them does, under the check of the attempt that found them.
   */
  lemma TargetsMinimal(s: Snap, a: Assignment, pss: seq<PodSetResources>, elig: Eligibilities, ask: Ask,
                       cands: seq<Info>, attempt: seq<Info>, borrowing: bool)
    requires SnapOk(s) && ask.queue in s.queues && s.queues[ask.queue].spec.Valid() && NoDuplicates(cands)
    requires IsAssignment(a, ViewOf(s, ask.queue), pss, elig) && RepresentativeMode(a) == Preempt
    requires ask.request == a.usage
    requires ProducedBy(s, ask, cands, attempt, borrowing) && Targets(s, ask, cands) != {}
    ensures FitsAfter(s, ask.(borrowing := borrowing), Targets(s, ask, cands))
    ensures forall ws :: ws < Targets(s, ask, cands) ==> !FitsAfter(s, ask.(borrowing := borrowing), ws)
  {
    hide WorkloadFits, Selected, Evict, IsAssignment, RepresentativeMode;
    var ask' := ask.(borrowing := borrowing);
    ViewHasCohort(s, ask.queue);
    PreemptDoesNotFit(a, ViewOf(s, ask.queue), pss, elig, borrowing);
    EvictNone(s);
    SelectedMinimalIff(s, ask', attempt);
  }

  lemma InAttempt(s: Snap, ask: Ask, cands: seq<Info>, attempt: seq<Info>, borrowing: bool, t: Info)
    requires NoDuplicates(cands) && ProducedBy(s, ask, cands, attempt, borrowing) && t in Targets(s, ask, cands)
    ensures t in attempt && t in cands
    ensures t.clusterQueue != ask.queue ==> attempt == cands && !borrowing
  {
    hide Selected, Targets;
    SelectedBasics(s, ask.(borrowing := borrowing), attempt);
    OwnOnlyElems(cands, ask.queue);
  }

  /**
   * Every target is a candidate that the policies allow; one of another queue belongs to a queue that is still over
   * nominal on a needed pair after evicting the targets before it in candidate order.
   */
  lemma TargetsAllowed(s: Snap, wl: Workload, ask: Ask, cands: seq<Info>, i: nat)
    requires ask.queue in s.queues && NoDuplicates(cands) && i < |cands| && cands[i] in Targets(s, ask, cands)
    requires forall t :: t in cands ==> IsCandidate(s, wl, ask.queue, ask.needed, t)
    ensures IsCandidate(s, wl, ask.queue, ask.needed, cands[i])
    ensures cands[i].clusterQueue != ask.queue ==>
              cands[i].clusterQueue in s.queues &&
              IsBorrowing(Evict(s, Targets(s, ask, cands) * Elems(cands[..i])).queues[cands[i].clusterQueue],
                          ask.needed)
  {
    hide IsCandidate, IsBorrowing, Selected, Targets, Evict;
    var t := cands[i];
    var attempt, borrowing := SomeAttempt(s, ask, cands);
    InAttempt(s, ask, cands, attempt, borrowing, t);
    if t.clusterQueue != ask.queue {
      SelectedGuarded(s, ask.(borrowing := borrowing), cands);
      assert MayGo(s, ask.(borrowing := borrowing), Targets(s, ask, cands) * Elems(cands[..i]), t);
    }
  }

  /**
   * Anti-flapping: if any target is of another queue, then once the targets are gone and the preemptor is admitted,
   * its queue is within nominal on every pair it requested ...
   */
  lemma AntiFlapping(s: Snap, ask: Ask, cands: seq<Info>, t: Info, admitted: Info)
    requires ask.queue in s.queues && NoDuplicates(cands)
    requires t in Targets(s, ask, cands) && t.clusterQueue != ask.queue
    requires admitted.clusterQueue == ask.queue && forall p :: Charge(admitted, p) == At(ask.request, p)
    ensures var q := Added(Evict(s, Targets(s, ask, cands)), admitted).queues[ask.queue];
            && (forall p :: p in ask.request && p in q.spec.quotas ==> At(q.usage, p) <= q.spec.Nominal(p))
            && (forall needed :: needed <= ask.request.Keys ==> !IsBorrowing(q, needed))
  {
    hide Selected, Targets, Lowered;
    var attempt, borrowing := SomeAttempt(s, ask, cands);
    InAttempt(s, ask, cands, attempt, borrowing, t);
    var ws := Targets(s, ask, cands);
    SelectedBasics(s, ask.(borrowing := false), cands);
    var q0, q := Evict(s, ws).queues[ask.queue], Added(Evict(s, ws), admitted).queues[ask.queue];
    forall p | p in ask.request && p in q.spec.quotas ensures At(q.usage, p) <= q.spec.Nominal(p) {
      assert FitsAt(ViewOf(Evict(s, ws), ask.queue), p, ask.request[p], false);
      ShiftedAt(q0.usage, admitted, 1, p);
    }
  }

  /** ... so that none of its workloads is a candidate for a later preemptor that needs only those pairs. */
  lemma NoCounterPreemption(s: Snap, ask: Ask, cands: seq<Info>, t: Info, admitted: Info,
                            later: Workload, m: string, needed: set<Pair>, victim: Info)
    requires ask.queue in s.queues && NoDuplicates(cands)
    requires t in Targets(s, ask, cands) && t.clusterQueue != ask.queue
    requires admitted.clusterQueue == ask.queue && forall p :: Charge(admitted, p) == At(ask.request, p)
    requires m in s.queues && m != ask.queue && needed <= ask.request.Keys && victim.clusterQueue == ask.queue
    ensures !IsCandidate(Added(Evict(s, Targets(s, ask, cands)), admitted), later, m, needed, victim)
  {
    hide Targets, IsBorrowing, Lowered, UsesAny;
    AntiFlapping(s, ask, cands, t, admitted);
  }
}
