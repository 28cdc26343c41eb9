/**
 * What an assignment guarantees: quota limits, order independence, and that exactly the checked amounts get charged.
 */
module AssignmentProofs {
  import opened Sums
  import opened Model
  import opened Ledgers
  import opened Snapshots
  import opened FlavorAssigner
  import opened Assignments

  // ---------- Fit soundness ----------

  /** Each flavor assignment records how its own request fits on top of the usage u. */
  ghost predicate Evaluated(v: QueueView, u: Quantities, ps: PodSetAssignment) {
    && ps.flavors.Keys == ps.requests.Keys
    && forall r :: r in ps.flavors ==>
         Outcome(v, ps.flavors[r].name, r, ps.requests[r], u) == (ps.flavors[r].mode, ps.flavors[r].borrow)
  }

  lemma AssignedIsEvaluated(a: Assignment, v: QueueView, pss: seq<PodSetResources>, elig: Eligibilities, i: nat)
    requires i < |a.podSets| <= |pss| && OutcomeAt(a, v, pss, elig, i) && AssignableAt(a, v, pss, elig, i)
    ensures Evaluated(v, TallyUsage(a.podSets[..i]), a.podSets[i])
  {
    hide FitsResourceQuota, ChoiceOf, TallyUsage;
  }

  lemma FitMeansAllFit(a: Assignment, v: QueueView, pss: seq<PodSetResources>, elig: Eligibilities)
    requires IsAssignment(a, v, pss, elig) && RepresentativeMode(a) == Fit
    ensures Complete(a, v, pss, elig)
    ensures forall i :: 0 <= i < |a.podSets| ==> AllFit(a.podSets[i].flavors)
  {
    hide FitsResourceQuota, ChoiceOf, TallyUsage, TallyBorrow, Assignable;
    forall i | 0 <= i < |a.podSets| ensures AssignableAt(a, v, pss, elig, i) && AllFit(a.podSets[i].flavors) {
      assert OutcomeAt(a, v, pss, elig, i) && PodSetMode(a.podSets[i]) == Fit;
    }
  }

  /** At this pair the tally is within the limits, and the borrow tally is exactly the excess over nominal. */
  ghost predicate TallyFitsAt(v: QueueView, u: Quantities, b: Quantities, p: Pair) {
    && (p in u ==> WithinLimits(v, p, u[p]))
    && At(b, p) == (if p in u then Over(At(v.usage, p) + u[p], v.spec.Nominal(p)) else 0)
    && (p in b ==> b[p] > 0)
  }

  ghost predicate TallyFits(v: QueueView, u: Quantities, b: Quantities) {
    forall p :: TallyFitsAt(v, u, b, p)
  }

  lemma TallyFitsStepAt(v: QueueView, u: Quantities, b: Quantities, ps: PodSetAssignment, p: Pair)
    requires TallyFitsAt(v, u, b, p) && Evaluated(v, u, ps) && AllFit(ps.flavors)
    ensures TallyFitsAt(v, AppendUsage(u, ps), AppendBorrow(b, ps), p)
  {
    hide PairsOf, FitsResourceQuota, WithinLimits;
    PairsOfIff(ps);
    if Assigns(ps, p) {
      FitIffWithinLimits(v, p, AppendUsage(u, ps)[p]);
    }
  }

  lemma TallyFitsStep(v: QueueView, u: Quantities, b: Quantities, ps: PodSetAssignment)
    requires TallyFits(v, u, b) && Evaluated(v, u, ps) && AllFit(ps.flavors)
    ensures TallyFits(v, AppendUsage(u, ps), AppendBorrow(b, ps))
  {
    hide TallyFitsAt, AppendUsage, AppendBorrow, Evaluated;
    var u', b' := AppendUsage(u, ps), AppendBorrow(b, ps);
    forall p ensures TallyFitsAt(v, u', b', p) {
      assert TallyFitsAt(v, u, b, p);
      TallyFitsStepAt(v, u, b, ps, p);
    }
  }

  lemma {:induction false} TallyFitsUpTo(a: Assignment, v: QueueView, pss: seq<PodSetResources>, elig: Eligibilities,
                                         i: nat)
    requires IsAssignment(a, v, pss, elig) && RepresentativeMode(a) == Fit && i <= |a.podSets|
    ensures TallyFits(v, TallyUsage(a.podSets[..i]), TallyBorrow(a.podSets[..i]))
  {
    hide WithinLimits, RepresentativeMode, IsPodSetOutcome, AppendUsage, AppendBorrow, FitsResourceQuota;
    if i > 0 {
      TallyFitsUpTo(a, v, pss, elig, i - 1);
      FitMeansAllFit(a, v, pss, elig);
      AssignedIsEvaluated(a, v, pss, elig, i - 1);
      assert a.podSets[..i][..i - 1] == a.podSets[..i - 1];
      TallyFitsStep(v, TallyUsage(a.podSets[..i - 1]), TallyBorrow(a.podSets[..i - 1]), a.podSets[i - 1]);
    }
  }

  /**
   * When the representative mode is Fit, the total over all pod sets respects every limit,
   * and TotalBorrow is exactly what exceeds the nominal quota.
   */
  lemma FitSound(a: Assignment, v: QueueView, pss: seq<PodSetResources>, elig: Eligibilities)
    requires IsAssignment(a, v, pss, elig) && RepresentativeMode(a) == Fit
    ensures forall p :: p in a.usage ==> WithinLimits(v, p, a.usage[p])
    ensures forall p :: At(a.totalBorrow, p) ==
                        if p in a.usage then Over(At(v.usage, p) + a.usage[p], v.spec.Nominal(p)) else 0
    ensures Borrows(a) <==> exists p :: p in a.usage && At(v.usage, p) + a.usage[p] > v.spec.Nominal(p)
  {
    hide WithinLimits, RepresentativeMode, IsPodSetOutcome, TallyUsage, TallyBorrow;
    TallyFitsUpTo(a, v, pss, elig, |a.podSets|);
    FitMeansAllFit(a, v, pss, elig);
    assert a.podSets[..|a.podSets|] == a.podSets;
    forall p
      ensures p in a.usage ==> WithinLimits(v, p, a.usage[p])
      ensures At(a.totalBorrow, p) == if p in a.usage then Over(At(v.usage, p) + a.usage[p], v.spec.Nominal(p)) else 0
      ensures p in a.totalBorrow ==> a.totalBorrow[p] > 0
    {
      assert TallyFitsAt(v, a.usage, a.totalBorrow, p);
    }
    if Borrows(a) {
      var p :| p in a.totalBorrow;
      assert At(a.totalBorrow, p) > 0;
    }
  }

  // ---------- every assigned pair is listed ----------

  lemma AssignedIsListed(v: QueueView, reqs: Requests, used: Quantities, elig: Eligibilities, i: nat, r: string)
    requires v.spec.Valid() && r in reqs && ResourceAssignable(v, reqs, used, elig, i, r)
    ensures Pair(AssignmentOf(v, reqs, used, elig, i, r).name, r) in v.spec.quotas
  {
    hide FitsResourceQuota, WorstMode;
    GroupForCovers(v.spec.groups, r);
    var g := GroupFor(v.spec.groups, r).value;
    assert GroupLists(g, Pair(ChoiceOf(v, g, reqs, used, elig, i).flavor, r));
  }

  lemma {:induction false} UsageListedUpTo(a: Assignment, v: QueueView, pss: seq<PodSetResources>, elig: Eligibilities,
                                           i: nat)
    requires v.spec.Valid() && IsAssignment(a, v, pss, elig) && i <= |a.podSets|
    ensures TallyUsage(a.podSets[..i]).Keys <= v.spec.quotas.Keys
  {
    hide FitsResourceQuota, ChoiceOf;
    if i > 0 {
      var ps, u := a.podSets[i - 1], TallyUsage(a.podSets[..i - 1]);
      UsageListedUpTo(a, v, pss, elig, i - 1);
      assert a.podSets[..i][..i - 1] == a.podSets[..i - 1];
      assert OutcomeAt(a, v, pss, elig, i - 1);
      forall p | Assigns(ps, p) ensures p in v.spec.quotas {
        AssignedIsListed(v, pss[i - 1].requests, u, elig, i - 1, p.resource);
      }
      PairsOfIff(ps);
    }
  }

  lemma UsageListed(a: Assignment, v: QueueView, pss: seq<PodSetResources>, elig: Eligibilities)
    requires v.spec.Valid() && IsAssignment(a, v, pss, elig)
    ensures a.usage.Keys <= v.spec.quotas.Keys
  {
    UsageListedUpTo(a, v, pss, elig, |a.podSets|);
    assert a.podSets[..|a.podSets|] == a.podSets;
  }

  // ---------- the result does not depend on the order in which maps are visited ----------

  ghost predicate SameFlavors(x: seq<PodSetAssignment>, y: seq<PodSetAssignment>) {
    && |x| == |y|
    && forall i :: 0 <= i < |x| ==> x[i].flavors == y[i].flavors && x[i].requests == y[i].requests
  }

  lemma {:induction false} SameTally(x: seq<PodSetAssignment>, y: seq<PodSetAssignment>)
    requires SameFlavors(x, y)
    ensures TallyUsage(x) == TallyUsage(y) && TallyBorrow(x) == TallyBorrow(y)
    decreases |x|
  {
    if x != [] {
      SameTally(x[..|x| - 1], y[..|y| - 1]);
      SameAppend(TallyUsage(x[..|x| - 1]), TallyBorrow(x[..|x| - 1]), x[|x| - 1], y[|y| - 1]);
    }
  }

  lemma SameAppend(u: Quantities, b: Quantities, x: PodSetAssignment, y: PodSetAssignment)
    requires x.flavors == y.flavors && x.requests == y.requests
    ensures AppendUsage(u, x) == AppendUsage(u, y) && AppendBorrow(b, x) == AppendBorrow(b, y)
  {
    assert forall p :: Amount(x, p) == Amount(y, p) && (Borrowing(x, p) <==> Borrowing(y, p));
  }

  lemma {:induction false} SamePrefix(a: Assignment, b: Assignment, v: QueueView, pss: seq<PodSetResources>,
                                      elig: Eligibilities, i: nat)
    requires IsAssignment(a, v, pss, elig) && IsAssignment(b, v, pss, elig) && i <= |a.podSets| && i <= |b.podSets|
    ensures SameFlavors(a.podSets[..i], b.podSets[..i])
  {
    hide FitsResourceQuota, ChoiceOf, TallyUsage, TallyBorrow, AllFit;
    if i > 0 {
      SamePrefix(a, b, v, pss, elig, i - 1);
      SameTally(a.podSets[..i - 1], b.podSets[..i - 1]);
      assert OutcomeAt(a, v, pss, elig, i - 1) && OutcomeAt(b, v, pss, elig, i - 1);
      assert a.podSets[..i] == a.podSets[..i - 1] + [a.podSets[i - 1]];
      assert b.podSets[..i] == b.podSets[..i - 1] + [b.podSets[i - 1]];
    }
  }

  lemma NoShorter(a: Assignment, b: Assignment, v: QueueView, pss: seq<PodSetResources>, elig: Eligibilities)
    requires IsAssignment(a, v, pss, elig) && IsAssignment(b, v, pss, elig)
    ensures |a.podSets| >= |b.podSets|
  {
    hide OutcomeAt, Assignable, TallyUsage, TallyBorrow;
    var n := |a.podSets|;
    if n < |b.podSets| {
      assert AssignableAt(b, v, pss, elig, n - 1);
      SamePrefix(a, b, v, pss, elig, n - 1);
      SameTally(a.podSets[..n - 1], b.podSets[..n - 1]);
    }
  }

  /** Flavors, modes, usage and borrowing of an assignment are determined by the inputs alone. */
  lemma AssignmentDetermined(a: Assignment, b: Assignment, v: QueueView, pss: seq<PodSetResources>, elig: Eligibilities)
    requires IsAssignment(a, v, pss, elig) && IsAssignment(b, v, pss, elig)
    ensures SameFlavors(a.podSets, b.podSets) && a.usage == b.usage && a.totalBorrow == b.totalBorrow
  {
    hide OutcomeAt, Assignable, TallyUsage, TallyBorrow;
    NoShorter(a, b, v, pss, elig);
    NoShorter(b, a, v, pss, elig);
    var n := |a.podSets|;
    SamePrefix(a, b, v, pss, elig, n);
    assert a.podSets[..n] == a.podSets && b.podSets[..n] == b.podSets;
    SameTally(a.podSets, b.podSets);
    forall i | 0 <= i < n ensures AssignableAt(a, v, pss, elig, i) <==> AssignableAt(b, v, pss, elig, i) {
      SamePrefix(a, b, v, pss, elig, i);
      SameTally(a.podSets[..i], b.podSets[..i]);
    }
  }

  // ---------- what is charged is what was checked ----------

  function ToAPI(ps: PodSetAssignment): PodSetUsage {
    PodSetUsage(ps.name, map r | r in ps.flavors :: ps.flavors[r].name, ToResourceList(ps.requests))
  }

  /** admit: the admission is set on the workload and an Evicted condition is reset. */
  function WithAdmission(w: Workload, a: Assignment, cq: string, now: int): Workload {
    w.(admission := Some(Admission(cq, seq(|a.podSets|, i requires 0 <= i < |a.podSets| => ToAPI(a.podSets[i])), now)),
       evicted := if w.evicted.Some? then Some(w.evicted.value.(active := false, time := now)) else None)
  }

  function FromAPI(ps: PodSetUsage): PodSetResources {
    PodSetResources(ps.name, NewRequests(ps.resourceUsage), ps.flavors)
  }

  lemma {:induction false} TallyIsCharge(pss: seq<PodSetAssignment>, charged: seq<PodSetResources>, p: Pair)
    requires |charged| == |pss| && forall i :: 0 <= i < |pss| ==> charged[i] == FromAPI(ToAPI(pss[i]))
    ensures ChargeOf(charged, p) == At(TallyUsage(pss), p)
    decreases |pss|
  {
    if pss != [] {
      var n := |pss| - 1;
      TallyIsCharge(pss[..n], charged[..n], p);
      RequestsRoundTrip(pss[n].requests);
      PairsOfIff(pss[n]);
      assert charged[n] == FromAPI(ToAPI(pss[n]));
    }
  }

  /** Admission, conversion to the API object and back, and the ledger: the charge equals the assigner's tally. */
  lemma ChargedIsChecked(w: Workload, a: Assignment, cq: string, now: int, p: Pair)
    requires a.usage == TallyUsage(a.podSets)
    ensures Charge(NewInfo(WithAdmission(w, a, cq, now)), p) == At(a.usage, p)
  {
    TallyIsCharge(a.podSets, NewInfo(WithAdmission(w, a, cq, now)).totalRequests, p);
  }

  lemma LedgerChargesWhatWasChecked(l: Ledger, w: Workload, a: Assignment, cq: string, now: int)
    requires a.usage == TallyUsage(a.podSets) && w.key !in l.workloads
    ensures var l' := AddWorkload(l, WithAdmission(w, a, cq, now));
            l'.usage.Keys == l.usage.Keys && forall p :: p in l.usage ==> l'.usage[p] == l.usage[p] + At(a.usage, p)
  {
    hide TallyUsage, NewInfo, ChargeOf;
    forall p ensures Charge(NewInfo(WithAdmission(w, a, cq, now)), p) == At(a.usage, p) {
      ChargedIsChecked(w, a, cq, now, p);
    }
  }
}
