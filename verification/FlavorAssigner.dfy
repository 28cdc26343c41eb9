/** The flavor assigner (pkg/scheduler/flavorassigner/flavorassigner.go). */
module FlavorAssigner {
  import opened Sums
  import opened Model
  import opened Snapshots

  datatype Mode = NoFit | Preempt | Fit {
    function Rank(): nat {
      match this case NoFit => 0 case Preempt => 1 case Fit => 2
    }
  }

  datatype FlavorAssignment = FlavorAssignment(name: string, mode: Mode, borrow: int)

  type ResourceAssignment = map<string, FlavorAssignment>

  /** A nil status, one that holds reasons, and one that holds an error. */
  datatype Status = NoStatus | Reasons | Failed

  datatype PodSetAssignment = PodSetAssignment(name: string, flavors: ResourceAssignment, status: Status,
                                               requests: Requests)

  datatype Assignment = Assignment(podSets: seq<PodSetAssignment>, totalBorrow: Quantities, usage: Quantities)

  /** Flavor existence, taints and node affinity, decided outside this model for each pod set and flavor. */
  datatype Eligibility = Eligible | Skipped | MatchError

  type Eligibilities = (nat, string) -> Eligibility

  // ---------- one resource in one flavor ----------

  function FitsResourceQuota(v: QueueView, p: Pair, val: int): (Mode, int) {
    var quota := v.spec.Quota(p);
    var used := At(v.usage, p);
    var mode := if val <= quota.nominal then Preempt else NoFit;
    if quota.borrowingLimit.Some? && used + val > quota.nominal + quota.borrowingLimit.value then (mode, 0)
    else
      var cohortUsed := if v.cohort.Some? then At(v.cohort.value.usage, p) else used;
      var cohortAvailable := if v.cohort.Some? then At(v.cohort.value.requestable, p) else quota.nominal;
      if cohortUsed + val <= cohortAvailable then (Fit, Over(used + val, quota.nominal)) else (mode, 0)
  }

  function Over(amount: int, nominal: int): int {
    if amount > nominal then amount - nominal else 0
  }

  /** The promise of mode Fit, said without the assigner: both the queue's and the cohort's limits hold. */
  ghost predicate WithinLimits(v: QueueView, p: Pair, val: int) {
    && (v.spec.Quota(p).borrowingLimit.Some? ==>
          At(v.usage, p) + val <= v.spec.Nominal(p) + v.spec.Quota(p).borrowingLimit.value)
    && (v.cohort.Some? ==> At(v.cohort.value.usage, p) + val <= At(v.cohort.value.requestable, p))
    && (v.cohort.None? ==> At(v.usage, p) + val <= v.spec.Nominal(p))
  }

  lemma FitIffWithinLimits(v: QueueView, p: Pair, val: int)
    ensures FitsResourceQuota(v, p, val).0 == Fit <==> WithinLimits(v, p, val)
    ensures FitsResourceQuota(v, p, val).1 ==
            if WithinLimits(v, p, val) then Over(At(v.usage, p) + val, v.spec.Nominal(p)) else 0
  {
  }

  // ---------- one flavor for a group ----------

  function Wanted(reqs: Requests, g: ResourceGroup): Requests {
    map r | r in reqs && r in g.covered :: reqs[r]
  }

  /** Checks a request on top of what earlier pod sets of the workload use. */
  function Outcome(v: QueueView, f: string, r: string, amount: nat, used: Quantities): (Mode, int) {
    FitsResourceQuota(v, Pair(f, r), amount + At(used, Pair(f, r)))
  }

  predicate HasMode(v: QueueView, f: string, wanted: Requests, used: Quantities, m: Mode) {
    exists r | r in wanted :: Outcome(v, f, r, wanted[r], used).0 == m
  }

  function WorstMode(v: QueueView, f: string, wanted: Requests, used: Quantities): Mode {
    if HasMode(v, f, wanted, used, NoFit) then NoFit
    else if HasMode(v, f, wanted, used, Preempt) then Preempt
    else Fit
  }

  function Assigned(v: QueueView, f: string, wanted: Requests, used: Quantities): ResourceAssignment {
    map r | r in wanted :: FlavorAssignment(f, Outcome(v, f, r, wanted[r], used).0, Outcome(v, f, r, wanted[r], used).1)
  }

  method RateFlavor(v: QueueView, f: string, wanted: Requests, used: Quantities)
    returns (mode: Mode, flavors: ResourceAssignment)
    ensures mode == WorstMode(v, f, wanted, used)
    ensures mode != NoFit ==> flavors == Assigned(v, f, wanted, used)
  {
    hide FitsResourceQuota;
    mode, flavors := Fit, map[];
    var todo := wanted.Keys;
    while todo != {}
      invariant todo <= wanted.Keys && mode != NoFit
      invariant flavors == map r | r in wanted && r !in todo :: Assigned(v, f, wanted, used)[r]
      invariant forall r :: r in wanted && r !in todo ==>
                  mode.Rank() <= Outcome(v, f, r, wanted[r], used).0.Rank()
      invariant mode == Preempt ==> HasMode(v, f, wanted, used, Preempt)
      decreases todo
    {
      var r :| r in todo;
      var o := Outcome(v, f, r, wanted[r], used);
      if o.0.Rank() < mode.Rank() {
        mode := o.0;
      }
      if mode == NoFit {
        return;
      }
      flavors := flavors[r := FlavorAssignment(f, o.0, o.1)];
      todo := todo - {r};
    }
  }

  // ---------- the best flavor of a group ----------

  datatype Choice = Chosen(flavor: string) | NoFlavor | Error

  ghost predicate Rated(v: QueueView, fs: seq<string>, wanted: Requests, used: Quantities, elig: Eligibilities, i: nat,
                        k: int, m: Mode)
  {
    0 <= k < |fs| && elig(i, fs[k]) == Eligible && WorstMode(v, fs[k], wanted, used) == m
  }

  /** Flavor k attains the best mode of all eligible flavors, and no earlier one does. */
  ghost predicate IsBest(v: QueueView, fs: seq<string>, wanted: Requests, used: Quantities, elig: Eligibilities, i: nat,
                         k: int, m: Mode)
  {
    && Rated(v, fs, wanted, used, elig, i, k, m) && m != NoFit
    && (forall j, m' :: Rated(v, fs, wanted, used, elig, i, j, m') ==>
          m'.Rank() <= m.Rank() && (j < k ==> m'.Rank() < m.Rank()))
  }

  /** A node-affinity error is met before any flavor that fits. */
  ghost predicate Errs(v: QueueView, fs: seq<string>, wanted: Requests, used: Quantities, elig: Eligibilities, i: nat) {
    exists j :: 0 <= j < |fs| && elig(i, fs[j]) == MatchError &&
                forall k :: 0 <= k < j ==> !Rated(v, fs, wanted, used, elig, i, k, Fit)
  }

  lemma BestIsUnique(v: QueueView, fs: seq<string>, wanted: Requests, used: Quantities, elig: Eligibilities, i: nat,
                     k: int, m: Mode, k': int, m': Mode)
    requires IsBest(v, fs, wanted, used, elig, i, k, m) && IsBest(v, fs, wanted, used, elig, i, k', m')
    ensures k == k' && m == m'
  {
  }

  ghost function ChoiceOf(v: QueueView, g: ResourceGroup, reqs: Requests, used: Quantities, elig: Eligibilities,
                          i: nat): Choice
  {
    if Errs(v, g.flavors, Wanted(reqs, g), used, elig, i) then Error
    else if exists k, m :: IsBest(v, g.flavors, Wanted(reqs, g), used, elig, i, k, m) then
      var k, m :| IsBest(v, g.flavors, Wanted(reqs, g), used, elig, i, k, m);
      Chosen(g.flavors[k])
    else NoFlavor
  }

  /** The search stops at the first flavor that fits, and otherwise keeps the first of the best. */
  method FindFlavorForResourceGroup(v: QueueView, g: ResourceGroup, reqs: Requests, used: Quantities,
                                    elig: Eligibilities, i: nat)
    returns (flavors: ResourceAssignment, status: Status)
    ensures match ChoiceOf(v, g, reqs, used, elig, i)
            case Error => flavors == map[] && status == Failed
            case NoFlavor => flavors == map[] && status == Reasons
            case Chosen(f) =>
              && flavors == Assigned(v, f, Wanted(reqs, g), used)
              && status == if WorstMode(v, f, Wanted(reqs, g), used) == Fit then NoStatus else Reasons
  {
    hide WorstMode, Assigned;
    var fs, wanted := g.flavors, Wanted(reqs, g);
    flavors, status := map[], Reasons;
    var best := NoFit;
    ghost var k := -1;
    for j := 0 to |fs|
      invariant best != Fit && status == Reasons && k < j
      invariant forall l :: 0 <= l < j ==> elig(i, fs[l]) != MatchError
      invariant forall l, m :: l < j && Rated(v, fs, wanted, used, elig, i, l, m) ==>
                  m.Rank() <= best.Rank() && (l < k ==> m.Rank() < best.Rank())
      invariant best == NoFit ==> flavors == map[]
      invariant best != NoFit ==> Rated(v, fs, wanted, used, elig, i, k, best)
                                  && flavors == Assigned(v, fs[k], wanted, used)
    {
      if elig(i, fs[j]) == MatchError {
        return map[], Failed;
      }
      if elig(i, fs[j]) == Eligible {
        var mode, rated := RateFlavor(v, fs[j], wanted, used);
        assert Rated(v, fs, wanted, used, elig, i, j, mode);
        if mode.Rank() > best.Rank() {
          flavors, best, k := rated, mode, j;
          if best == Fit {
            assert IsBest(v, fs, wanted, used, elig, i, k, Fit);
            SettleChoice(v, g, reqs, used, elig, i, k, Fit);
            return flavors, NoStatus;
          }
        }
      }
    }
    if best != NoFit {
      assert IsBest(v, fs, wanted, used, elig, i, k, best);
      SettleChoice(v, g, reqs, used, elig, i, k, best);
    }
  }

  lemma SettleChoice(v: QueueView, g: ResourceGroup, reqs: Requests, used: Quantities, elig: Eligibilities, i: nat,
                     k: int, m: Mode)
    requires IsBest(v, g.flavors, Wanted(reqs, g), used, elig, i, k, m)
    requires !Errs(v, g.flavors, Wanted(reqs, g), used, elig, i)
    ensures ChoiceOf(v, g, reqs, used, elig, i) == Chosen(g.flavors[k])
  {
    forall k', m' | IsBest(v, g.flavors, Wanted(reqs, g), used, elig, i, k', m') ensures k' == k {
      BestIsUnique(v, g.flavors, Wanted(reqs, g), used, elig, i, k, m, k', m');
    }
  }

  // ---------- a pod set ----------

  /** RGByResource: the group that covers the resource; the index is filled in order, so the last one wins. */
  function GroupFor(groups: seq<ResourceGroup>, r: string): Option<ResourceGroup> {
    if groups == [] then None
    else if r in groups[|groups| - 1].covered then Some(groups[|groups| - 1])
    else GroupFor(groups[..|groups| - 1], r)
  }

  lemma {:induction false} GroupForCovers(groups: seq<ResourceGroup>, r: string)
    ensures GroupFor(groups, r).None? ==> forall i :: 0 <= i < |groups| ==> r !in groups[i].covered
    ensures GroupFor(groups, r).Some? ==>
              exists i :: 0 <= i < |groups| && groups[i] == GroupFor(groups, r).value && r in groups[i].covered
    decreases |groups|
  {
    if groups != [] && r !in groups[|groups| - 1].covered {
      GroupForCovers(groups[..|groups| - 1], r);
      assert forall i :: 0 <= i < |groups| - 1 ==> groups[..|groups| - 1][i] == groups[i];
    }
  }

  /** With disjoint groups, everything a group covers leads back to that group. */
  lemma GroupForIsGroup(spec: QueueSpec, r: string, g: ResourceGroup, r': string)
    requires spec.Valid() && GroupFor(spec.groups, r) == Some(g) && r' in g.covered
    ensures r in g.covered && GroupFor(spec.groups, r') == Some(g)
  {
    GroupForCovers(spec.groups, r);
    GroupForCovers(spec.groups, r');
  }

  ghost predicate ResourceAssignable(v: QueueView, reqs: Requests, used: Quantities, elig: Eligibilities, i: nat,
                                     r: string) {
    var g := GroupFor(v.spec.groups, r);
    g.Some? && ChoiceOf(v, g.value, reqs, used, elig, i).Chosen?
  }

  ghost predicate Assignable(v: QueueView, reqs: Requests, used: Quantities, elig: Eligibilities, i: nat) {
    forall r :: r in reqs ==> ResourceAssignable(v, reqs, used, elig, i, r)
  }

  /** What a requested resource is assigned: the chosen flavor of its group, and how that resource fits in it. */
  ghost function AssignmentOf(v: QueueView, reqs: Requests, used: Quantities, elig: Eligibilities, i: nat,
                              r: string): FlavorAssignment
    requires r in reqs && ResourceAssignable(v, reqs, used, elig, i, r)
  {
    var f := ChoiceOf(v, GroupFor(v.spec.groups, r).value, reqs, used, elig, i).flavor;
    FlavorAssignment(f, Outcome(v, f, r, reqs[r], used).0, Outcome(v, f, r, reqs[r], used).1)
  }

  predicate AllFit(flavors: ResourceAssignment) {
    forall r | r in flavors :: flavors[r].mode == Fit
  }

  /** The outcome for one pod set, whatever the order in which its requests are visited. */
  ghost predicate IsPodSetOutcome(v: QueueView, reqs: Requests, used: Quantities, elig: Eligibilities, i: nat,
                                  flavors: ResourceAssignment, status: Status)
  {
    if Assignable(v, reqs, used, elig, i) then
      && flavors == (map r | r in reqs :: AssignmentOf(v, reqs, used, elig, i, r))
      && status == if AllFit(flavors) then NoStatus else Reasons
    else
      flavors == map[] && status != NoStatus
  }

  lemma WorstIsFit(v: QueueView, f: string, wanted: Requests, used: Quantities)
    ensures WorstMode(v, f, wanted, used) == Fit <==> AllFit(Assigned(v, f, wanted, used))
  {
    hide FitsResourceQuota;
    var a := Assigned(v, f, wanted, used);
    forall m | HasMode(v, f, wanted, used, m) && m != Fit ensures !AllFit(a) {
      var r :| r in wanted && Outcome(v, f, r, wanted[r], used).0 == m;
      assert a[r].mode == m;
    }
    if !AllFit(a) {
      var r :| r in a && a[r].mode != Fit;
      assert HasMode(v, f, wanted, used, a[r].mode);
    }
  }

  lemma GroupAssigned(v: QueueView, g: ResourceGroup, reqs: Requests, used: Quantities, elig: Eligibilities, i: nat,
                      r: string)
    requires v.spec.Valid() && GroupFor(v.spec.groups, r) == Some(g)
    requires ChoiceOf(v, g, reqs, used, elig, i).Chosen?
    ensures forall r' :: r' in Wanted(reqs, g) ==>
              ResourceAssignable(v, reqs, used, elig, i, r') &&
              Assigned(v, ChoiceOf(v, g, reqs, used, elig, i).flavor, Wanted(reqs, g), used)[r'] ==
              AssignmentOf(v, reqs, used, elig, i, r')
  {
    hide FitsResourceQuota, ChoiceOf;
    forall r' | r' in Wanted(reqs, g) ensures GroupFor(v.spec.groups, r') == Some(g) {
      GroupForIsGroup(v.spec, r, g, r');
    }
  }

  method AssignPodSet(v: QueueView, reqs: Requests, used: Quantities, elig: Eligibilities, i: nat)
    returns (flavors: ResourceAssignment, status: Status)
    requires v.spec.Valid()
    ensures IsPodSetOutcome(v, reqs, used, elig, i, flavors, status)
  {
    hide FitsResourceQuota, ChoiceOf, Assigned, WorstMode;
    flavors, status := map[], NoStatus;
    var todo := reqs.Keys;
    while todo != {}
      invariant todo <= reqs.Keys
      invariant flavors.Keys <= reqs.Keys && reqs.Keys <= flavors.Keys + todo
      invariant forall r :: r in flavors ==>
                  ResourceAssignable(v, reqs, used, elig, i, r) && flavors[r] == AssignmentOf(v, reqs, used, elig, i, r)
      invariant status == if AllFit(flavors) then NoStatus else Reasons
      decreases todo
    {
      var r :| r in todo;
      todo := todo - {r};
      if r !in flavors {
        var g := GroupFor(v.spec.groups, r);
        if g.None? {
          assert !ResourceAssignable(v, reqs, used, elig, i, r);
          return map[], Reasons;
        }
        GroupForIsGroupSelf(v.spec, r, g.value);
        var found, s := FindFlavorForResourceGroup(v, g.value, reqs, used, elig, i);
        assert r in Wanted(reqs, g.value);
        AssignedKeys(v, Wanted(reqs, g.value), used);
        if found == map[] {
          assert !ResourceAssignable(v, reqs, used, elig, i, r);
          return map[], s;
        }
        WorstIsFit(v, ChoiceOf(v, g.value, reqs, used, elig, i).flavor, Wanted(reqs, g.value), used);
        GroupAssigned(v, g.value, reqs, used, elig, i, r);
        MergedAllFit(flavors, found);
        flavors := flavors + found;
        if status == NoStatus {
          status := s;
        }
      }
    }
  }

  lemma GroupForIsGroupSelf(spec: QueueSpec, r: string, g: ResourceGroup)
    requires GroupFor(spec.groups, r) == Some(g)
    ensures r in g.covered
  {
    GroupForCovers(spec.groups, r);
  }

  lemma AssignedKeys(v: QueueView, wanted: Requests, used: Quantities)
    ensures forall f :: Assigned(v, f, wanted, used).Keys == wanted.Keys
  {
  }

  lemma MergedAllFit(a: ResourceAssignment, b: ResourceAssignment)
    requires forall r :: r in a && r in b ==> a[r] == b[r]
    ensures AllFit(a + b) <==> AllFit(a) && AllFit(b)
  {
    if AllFit(a + b) {
      forall r | r in a ensures a[r].mode == Fit { assert (a + b)[r] == a[r]; }
      forall r | r in b ensures b[r].mode == Fit { assert (a + b)[r] == b[r]; }
    }
  }
}
