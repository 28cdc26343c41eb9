/** How the assigner's answer depends on what is in use: when a workload that does not fit cannot come to fit. */
module FitOrder {
  import opened Sums
  import opened Model
  import opened Snapshots
  import opened FlavorAssigner
  import opened Assignments
  import opened AssignmentProofs

  /** The same groups of flavors, and whatever is within the limits of v' is within those of v. */
  ghost predicate Fuller(v: QueueView, v': QueueView) {
    v'.spec.groups == v.spec.groups && forall p, val :: WithinLimits(v', p, val) ==> WithinLimits(v, p, val)
  }

  // ---------- one flavor, one group, one resource ----------

  lemma FlavorStillFits(v: QueueView, v': QueueView, f: string, wanted: Requests, used: Quantities)
    requires Fuller(v, v') && WorstMode(v', f, wanted, used) == Fit
    ensures WorstMode(v, f, wanted, used) == Fit
  {
    hide FitsResourceQuota, WithinLimits;
    forall r | r in wanted ensures Outcome(v, f, r, wanted[r], used).0 == Fit {
      FitIffWithinLimits(v', Pair(f, r), wanted[r] + At(used, Pair(f, r)));
      FitIffWithinLimits(v, Pair(f, r), wanted[r] + At(used, Pair(f, r)));
      assert Outcome(v', f, r, wanted[r], used).0 != NoFit && Outcome(v', f, r, wanted[r], used).0 != Preempt;
    }
  }

  /** The first flavor that fits in the fuller queue, or an earlier one, fits. */
  lemma ChoiceStillFits(v: QueueView, v': QueueView, g: ResourceGroup, reqs: Requests, used: Quantities,
                        elig: Eligibilities, i: nat)
    requires Fuller(v, v') && ChoiceOf(v', g, reqs, used, elig, i).Chosen?
    requires WorstMode(v', ChoiceOf(v', g, reqs, used, elig, i).flavor, Wanted(reqs, g), used) == Fit
    ensures ChoiceOf(v, g, reqs, used, elig, i).Chosen? && ChoiceOf(v, g, reqs, used, elig, i).flavor in g.flavors
    ensures WorstMode(v, ChoiceOf(v, g, reqs, used, elig, i).flavor, Wanted(reqs, g), used) == Fit
    ensures ChoiceOf(v', g, reqs, used, elig, i).flavor in g.flavors
  {
    hide WorstMode, WithinLimits;
    var fs, wanted := g.flavors, Wanted(reqs, g);
    var k', m' :| IsBest(v', fs, wanted, used, elig, i, k', m')
                  && ChoiceOf(v', g, reqs, used, elig, i) == Chosen(fs[k']);
    assert Rated(v', fs, wanted, used, elig, i, k', Fit);
    forall j | Rated(v', fs, wanted, used, elig, i, j, Fit) ensures Rated(v, fs, wanted, used, elig, i, j, Fit) {
      FlavorStillFits(v, v', fs[j], wanted, used);
    }
    var k := FirstFit(v, fs, wanted, used, elig, i, k');
    assert IsBest(v, fs, wanted, used, elig, i, k, Fit);
    assert !Errs(v, fs, wanted, used, elig, i);
    SettleChoice(v, g, reqs, used, elig, i, k, Fit);
  }

  lemma {:induction false} FirstFit(v: QueueView, fs: seq<string>, wanted: Requests, used: Quantities,
                                    elig: Eligibilities, i: nat, k': int) returns (k: int)
    requires Rated(v, fs, wanted, used, elig, i, k', Fit)
    ensures Rated(v, fs, wanted, used, elig, i, k, Fit)
    ensures forall j :: j < k ==> !Rated(v, fs, wanted, used, elig, i, j, Fit)
    decreases k'
  {
    hide WorstMode;
    if j :| 0 <= j < k' && Rated(v, fs, wanted, used, elig, i, j, Fit) {
      k := FirstFit(v, fs, wanted, used, elig, i, j);
    } else {
      k := k';
    }
  }

  lemma ResourceStillFits(v: QueueView, v': QueueView, reqs: Requests, used: Quantities, elig: Eligibilities, i: nat,
                          r: string, flavors: ResourceAssignment)
    requires Fuller(v, v') && v'.spec.Valid() && r in reqs && Assignable(v', reqs, used, elig, i)
    requires flavors == (map q | q in reqs :: AssignmentOf(v', reqs, used, elig, i, q)) && AllFit(flavors)
    ensures ResourceAssignable(v, reqs, used, elig, i, r) && AssignmentOf(v, reqs, used, elig, i, r).mode == Fit
    ensures OneFlavorPerGroup(v.spec) ==> AssignmentOf(v, reqs, used, elig, i, r).name == flavors[r].name
  {
    hide ChoiceOf, WithinLimits, FitsResourceQuota;
    assert ResourceAssignable(v', reqs, used, elig, i, r);
    var g := GroupFor(v'.spec.groups, r).value;
    GroupForIsGroupSelf(v'.spec, r, g);
    GroupForCovers(v'.spec.groups, r);
    GroupAssigned(v', g, reqs, used, elig, i, r);
    var f' := ChoiceOf(v', g, reqs, used, elig, i).flavor;
    forall q | q in Wanted(reqs, g) ensures Assigned(v', f', Wanted(reqs, g), used)[q].mode == Fit {
      assert flavors[q].mode == Fit;
    }
    WorstIsFit(v', f', Wanted(reqs, g), used);
    ChoiceStillFits(v, v', g, reqs, used, elig, i);
    var f := ChoiceOf(v, g, reqs, used, elig, i).flavor;
    WorstIsFit(v, f, Wanted(reqs, g), used);
    assert Assigned(v, f, Wanted(reqs, g), used)[r].mode == Fit;
  }

  // ---------- whole workloads ----------

  ghost predicate OneFlavorPerGroup(spec: QueueSpec) {
    forall i :: 0 <= i < |spec.groups| ==> |spec.groups[i].flavors| <= 1
  }

  /** Earlier pod sets cannot leave their flavor to a later one: there is one pod set, or no choice of flavors. */
  ghost predicate NoDetour(spec: QueueSpec, pss: seq<PodSetResources>) {
    |pss| <= 1 || OneFlavorPerGroup(spec)
  }

  ghost predicate SameNames(xs: seq<PodSetAssignment>, ys: seq<PodSetAssignment>) {
    |xs| == |ys| && forall i :: 0 <= i < |xs| ==>
      xs[i].requests == ys[i].requests && xs[i].flavors.Keys == ys[i].flavors.Keys
      && forall r :: r in xs[i].flavors ==> xs[i].flavors[r].name == ys[i].flavors[r].name
  }

  lemma {:induction false} SameNamesSameTally(xs: seq<PodSetAssignment>, ys: seq<PodSetAssignment>)
    requires SameNames(xs, ys)
    ensures TallyUsage(xs) == TallyUsage(ys)
    decreases |xs|
  {
    if xs != [] {
      var n := |xs| - 1;
      SameNamesSameTally(xs[..n], ys[..n]);
      assert PairsOf(xs[n].flavors) == PairsOf(ys[n].flavors) by {
        forall r | r in xs[n].flavors ensures Pair(xs[n].flavors[r].name, r) in PairsOf(ys[n].flavors) {}
      }
      assert AppendUsage(TallyUsage(xs[..n]), xs[n]) == AppendUsage(TallyUsage(ys[..n]), ys[n]);
    }
  }

  /** Pod set i of a workload fits, with the same flavors if there is no choice, when all earlier ones did. */
  lemma PodSetStillFits(a: Assignment, v: QueueView, a': Assignment, v': QueueView, pss: seq<PodSetResources>,
                        elig: Eligibilities, i: nat)
    requires Fuller(v, v') && v'.spec.Valid() && i < |a.podSets| <= |pss| && i < |a'.podSets| <= |pss|
    requires OutcomeAt(a, v, pss, elig, i) && OutcomeAt(a', v', pss, elig, i) && AssignableAt(a', v', pss, elig, i)
    requires AllFit(a'.podSets[i].flavors) && TallyUsage(a.podSets[..i]) == TallyUsage(a'.podSets[..i])
    ensures AssignableAt(a, v, pss, elig, i) && AllFit(a.podSets[i].flavors) && a.podSets[i].status == NoStatus
    ensures a.podSets[i].flavors.Keys == a'.podSets[i].flavors.Keys
    ensures OneFlavorPerGroup(v.spec) ==>
              forall r :: r in a.podSets[i].flavors ==> a.podSets[i].flavors[r].name == a'.podSets[i].flavors[r].name
  {
    hide ChoiceOf, WorstMode, Fuller, QueueSpec.Valid, TallyUsage, Outcome, OneFlavorPerGroup;
    var reqs, used := pss[i].requests, TallyUsage(a.podSets[..i]);
    forall r | r in reqs
      ensures ResourceAssignable(v, reqs, used, elig, i, r) && AssignmentOf(v, reqs, used, elig, i, r).mode == Fit
      ensures OneFlavorPerGroup(v.spec) ==>
                AssignmentOf(v, reqs, used, elig, i, r).name == a'.podSets[i].flavors[r].name
    {
      ResourceStillFits(v, v', reqs, used, elig, i, r, a'.podSets[i].flavors);
    }
  }

  lemma {:induction false} PodSetsStillFit(a: Assignment, v: QueueView, a': Assignment, v': QueueView,
                                           pss: seq<PodSetResources>, elig: Eligibilities, i: nat)
    requires NoDetour(v.spec, pss) && Fuller(v, v') && v'.spec.Valid() && i <= |a.podSets|
    requires IsAssignment(a, v, pss, elig) && IsAssignment(a', v', pss, elig) && RepresentativeMode(a') == Fit
    ensures |a'.podSets| == |pss| && i <= |a'.podSets|
    ensures forall j :: 0 <= j < i ==> AssignableAt(a, v, pss, elig, j) && a.podSets[j].status == NoStatus
    ensures OneFlavorPerGroup(v.spec) ==> SameNames(a.podSets[..i], a'.podSets[..i])
    decreases i
  {
    hide IsPodSetOutcome, Assignable, TallyBorrow, TallyUsage, Fuller, QueueSpec.Valid, RepresentativeMode,
      OneFlavorPerGroup;
    FitMeansAllFit(a', v', pss, elig);
    if i > 0 {
      PodSetsStillFit(a, v, a', v', pss, elig, i - 1);
      if OneFlavorPerGroup(v.spec) {
        SameNamesSameTally(a.podSets[..i - 1], a'.podSets[..i - 1]);
      } else {
        assert a.podSets[..i - 1] == [] == a'.podSets[..i - 1];
      }
      assert OutcomeAt(a, v, pss, elig, i - 1);
      assert OutcomeAt(a', v', pss, elig, i - 1) && AssignableAt(a', v', pss, elig, i - 1);
      PodSetStillFits(a, v, a', v', pss, elig, i - 1);
    }
  }

  /** Without detours, a workload that fits a fuller queue fits: more usage never helps. */
  lemma StillFits(a: Assignment, v: QueueView, a': Assignment, v': QueueView, pss: seq<PodSetResources>,
                  elig: Eligibilities)
    requires NoDetour(v.spec, pss) && Fuller(v, v') && v'.spec.Valid()
    requires IsAssignment(a, v, pss, elig) && IsAssignment(a', v', pss, elig) && RepresentativeMode(a') == Fit
    ensures RepresentativeMode(a) == Fit
  {
    hide IsPodSetOutcome, Assignable, TallyBorrow, TallyUsage, Fuller, QueueSpec.Valid, NoDetour;
    PodSetsStillFit(a, v, a', v', pss, elig, |a.podSets|);
    assert forall j :: 0 <= j < |a.podSets| ==> PodSetMode(a.podSets[j]) == Fit;
    assert a.podSets != [];
  }

  // ---------- assignments exist ----------

  lemma OutcomeExists(v: QueueView, reqs: Requests, used: Quantities, elig: Eligibilities, i: nat)
    returns (flavors: ResourceAssignment, status: Status)
    ensures IsPodSetOutcome(v, reqs, used, elig, i, flavors, status)
  {
    hide ChoiceOf, FitsResourceQuota;
    if Assignable(v, reqs, used, elig, i) {
      flavors := map r | r in reqs :: AssignmentOf(v, reqs, used, elig, i, r);
      status := if AllFit(flavors) then NoStatus else Reasons;
    } else {
      flavors, status := map[], Reasons;
    }
  }

  /** Every workload has an assignment in every queue. */
  lemma AssignmentExists(v: QueueView, pss: seq<PodSetResources>, elig: Eligibilities) returns (a: Assignment)
    ensures IsAssignment(a, v, pss, elig)
  {
    hide IsPodSetOutcome, Assignable, TallyUsage, TallyBorrow;
    var done, i := Assignment([], map[], map[]), 0;
    while i < |pss|
      invariant |done.podSets| == i <= |pss|
      invariant forall j :: 0 <= j < i ==> OutcomeAt(done, v, pss, elig, j) && AssignableAt(done, v, pss, elig, j)
    {
      var flavors, status := OutcomeExists(v, pss[i].requests, TallyUsage(done.podSets), elig, i);
      var ps := PodSetAssignment(pss[i].name, flavors, status, pss[i].requests);
      var more := Assignment(done.podSets + [ps], map[], TallyUsage(done.podSets + [ps]));
      assert more.podSets[..i] == done.podSets;
      ExtendsPrefix(done, more, v, pss, elig, i);
      if !AssignableAt(more, v, pss, elig, i) {
        return more;
      }
      done, i := more, i + 1;
    }
    a := Assignment(done.podSets, TallyBorrow(done.podSets), TallyUsage(done.podSets));
    forall j | 0 <= j < |pss| ensures OutcomeAt(a, v, pss, elig, j) && AssignableAt(a, v, pss, elig, j) {
      assert OutcomeAt(done, v, pss, elig, j) && AssignableAt(done, v, pss, elig, j);
    }
  }

  /**
   * One pod set that asks for one resource fits if and only if the amount is within the limits. Otherwise it waits for
   * preemption, if it is within the nominal quota.
   */
  lemma OneAskFitsIff(a: Assignment, v: QueueView, ps: PodSetResources, elig: Eligibilities, f: string, r: string)
    requires v.spec.groups == [ResourceGroup({r}, [f])] && ps.requests.Keys == {r} && elig(0, f) == Eligible
    requires IsAssignment(a, v, [ps], elig)
    ensures RepresentativeMode(a) == Fit <==> WithinLimits(v, Pair(f, r), ps.requests[r])
    ensures RepresentativeMode(a) != Fit && ps.requests[r] <= v.spec.Nominal(Pair(f, r)) ==>
              && RepresentativeMode(a) == Preempt && |a.podSets| == 1 && a.podSets[0].flavors.Keys == {r}
              && a.podSets[0].flavors[r].name == f && a.podSets[0].flavors[r].mode == Preempt
  {
    hide QueueSpec.Nominal;
    hide IsPodSetOutcome, Assignable, TallyBorrow, WithinLimits;
    assert |a.podSets| == 1 && OutcomeAt(a, v, [ps], elig, 0) && a.podSets[..0] == [];
    OneOutcome(v, ps.requests, elig, f, r, a.podSets[0].flavors, a.podSets[0].status);
    var flavors := a.podSets[0].flavors;
    assert PodSetMode(a.podSets[0]) == Fit <==> a.podSets[0].status == NoStatus;
    assert flavors.Keys == {r} && flavors[r].mode == Preempt ==> r in flavors && FlavorHasMode(flavors, Preempt);
  }

  lemma PreemptsWithinNominal(v: QueueView, p: Pair, val: nat)
    ensures val <= v.spec.Nominal(p) ==> FitsResourceQuota(v, p, val).0 != NoFit
  {
  }

  lemma OneOutcome(v: QueueView, reqs: Requests, elig: Eligibilities, f: string, r: string, flavors: ResourceAssignment,
                   status: Status)
    requires v.spec.groups == [ResourceGroup({r}, [f])] && reqs.Keys == {r} && elig(0, f) == Eligible
    requires IsPodSetOutcome(v, reqs, map[], elig, 0, flavors, status)
    ensures status == NoStatus <==> WithinLimits(v, Pair(f, r), reqs[r])
    ensures status != NoStatus ==> flavors == map[] || !AllFit(flavors)
    ensures status != NoStatus && reqs[r] <= v.spec.Nominal(Pair(f, r)) ==>
              flavors.Keys == {r} && flavors[r].name == f && flavors[r].mode == Preempt
  {
    PreemptsWithinNominal(v, Pair(f, r), reqs[r]);
    hide WithinLimits, FitsResourceQuota, QueueSpec.Nominal;
    var g := v.spec.groups[0];
    assert v.spec.groups[..0] == [] && GroupFor(v.spec.groups, r) == Some(g);
    assert Wanted(reqs, g) == reqs;
    FitIffWithinLimits(v, Pair(f, r), reqs[r]);
    var mode := Outcome(v, f, r, reqs[r], map[]).0;
    assert WorstMode(v, f, reqs, map[]) == mode;
    assert Rated(v, g.flavors, reqs, map[], elig, 0, 0, mode);
    if mode != NoFit {
      assert IsBest(v, g.flavors, reqs, map[], elig, 0, 0, mode);
      SettleChoice(v, g, reqs, map[], elig, 0, 0, mode);
      assert ResourceAssignable(v, reqs, map[], elig, 0, r);
      assert flavors[r].mode == mode;
    } else {
      assert !ResourceAssignable(v, reqs, map[], elig, 0, r);
    }
  }

  // ---------- a detour ----------

  /** Two units of r under flavor e and two under flavor f; some units of e are in use. */
  function Using(n: nat): QueueView {
    QueueView(QueueSpec(None, [ResourceGroup({"r"}, ["e", "f"])],
                        map[Pair("e", "r") := ResourceQuota(2, None), Pair("f", "r") := ResourceQuota(2, None)],
                        Never, Never),
              map[Pair("e", "r") := n, Pair("f", "r") := 0], None)
  }

  /** Two units for a pod set that may use both flavors, then one unit for a pod set that may use only e. */
  const ASKS: seq<PodSetResources> :=
    [PodSetResources("p", map["r" := 2], map[]), PodSetResources("q", map["r" := 1], map[])]
  const BOTH_THEN_E: Eligibilities := (i, f) => if i == 1 && f == "f" then Skipped else Eligible

  lemma ChosenFirst(v: QueueView, g: ResourceGroup, reqs: Requests, used: Quantities, elig: Eligibilities, i: nat,
                    k: nat)
    requires Rated(v, g.flavors, Wanted(reqs, g), used, elig, i, k, Fit)
    requires forall j :: 0 <= j < k ==> !Rated(v, g.flavors, Wanted(reqs, g), used, elig, i, j, Fit)
    requires forall j :: 0 <= j < |g.flavors| ==> elig(i, g.flavors[j]) != MatchError
    ensures ChoiceOf(v, g, reqs, used, elig, i) == Chosen(g.flavors[k])
  {
    hide WorstMode;
    assert IsBest(v, g.flavors, Wanted(reqs, g), used, elig, i, k, Fit);
    SettleChoice(v, g, reqs, used, elig, i, k, Fit);
  }

  lemma WorstOfOne(v: QueueView, f: string, r: string, amount: nat, used: Quantities)
    ensures WorstMode(v, f, map[r := amount], used) == Outcome(v, f, r, amount, used).0
  {
    hide FitsResourceQuota;
    var wanted: Requests := map[r := amount];
    assert r in wanted && HasMode(v, f, wanted, used, Outcome(v, f, r, wanted[r], used).0);
  }

  /** In this queue a pod set that asks for one resource gets the first of its flavors in which the amount fits. */
  lemma UsingOutcome(n: nat, used: Quantities, i: nat, amount: nat, k: nat)
    requires k < 2 && BOTH_THEN_E(i, ["e", "f"][k]) == Eligible
    requires WithinLimits(Using(n), Pair(["e", "f"][k], "r"), amount + At(used, Pair(["e", "f"][k], "r")))
    requires k == 1 ==> !WithinLimits(Using(n), Pair("e", "r"), amount + At(used, Pair("e", "r")))
    ensures var f := ["e", "f"][k];
            && Assignable(Using(n), map["r" := amount], used, BOTH_THEN_E, i)
            && AssignmentOf(Using(n), map["r" := amount], used, BOTH_THEN_E, i, "r").name == f
            && AssignmentOf(Using(n), map["r" := amount], used, BOTH_THEN_E, i, "r").mode == Fit
  {
    hide WithinLimits, FitsResourceQuota;
    var v, reqs: Requests := Using(n), map["r" := amount];
    var g := v.spec.groups[0];
    assert v.spec.groups[..0] == [] && GroupFor(v.spec.groups, "r") == Some(g) && Wanted(reqs, g) == reqs;
    FitIffWithinLimits(v, Pair("e", "r"), amount + At(used, Pair("e", "r")));
    FitIffWithinLimits(v, Pair("f", "r"), amount + At(used, Pair("f", "r")));
    WorstOfOne(v, "e", "r", amount, used);
    WorstOfOne(v, "f", "r", amount, used);
    hide WorstMode, Outcome;
    ChosenFirst(v, g, reqs, used, BOTH_THEN_E, i, k);
  }

  /** More usage can help: it sends the first pod set to another flavor, and the second one fits. */
  lemma UsageCanHelp() returns (a: Assignment, a': Assignment)
    ensures Fuller(Using(0), Using(1))
    ensures IsAssignment(a, Using(0), ASKS, BOTH_THEN_E) && RepresentativeMode(a) != Fit
    ensures IsAssignment(a', Using(1), ASKS, BOTH_THEN_E) && RepresentativeMode(a') == Fit
  {
    FullerUsing();
    hide *;
    a := AssignmentExists(Using(0), ASKS, BOTH_THEN_E);
    a' := AssignmentExists(Using(1), ASKS, BOTH_THEN_E);
    SecondDoesNotFit(a);
    BothFit(a');
  }

  lemma FullerUsing()
    ensures Fuller(Using(0), Using(1))
  {
  }

  lemma TallyOfOne(ps: PodSetAssignment, f: string, amount: nat)
    requires ps.requests == map["r" := amount] && ps.flavors.Keys == {"r"} && ps.flavors["r"].name == f
    ensures TallyUsage([ps]) == map[Pair(f, "r") := amount]
  {
    assert [ps][..0] == [];
    PairsOfIff(ps);
    assert AppendUsage(map[], ps) == map[Pair(f, "r") := amount];
  }

  lemma FirstGets(a: Assignment, n: nat, k: nat)
    requires IsAssignment(a, Using(n), ASKS, BOTH_THEN_E) && k < 2
    requires WithinLimits(Using(n), Pair(["e", "f"][k], "r"), 2)
    requires k == 1 ==> !WithinLimits(Using(n), Pair("e", "r"), 2)
    ensures |a.podSets| == 2 && a.podSets[0].status == NoStatus
    ensures TallyUsage(a.podSets[..1]) == map[Pair(["e", "f"][k], "r") := 2]
  {
    hide WithinLimits, ChoiceOf, FitsResourceQuota, TallyBorrow;
    assert ASKS[0].requests == map["r" := 2];
    assert a.podSets[..0] == [] && OutcomeAt(a, Using(n), ASKS, BOTH_THEN_E, 0);
    UsingOutcome(n, map[], 0, 2, k);
    assert AssignableAt(a, Using(n), ASKS, BOTH_THEN_E, 0);
    assert a.podSets[..1] == [a.podSets[0]];
    TallyOfOne(a.podSets[0], ["e", "f"][k], 2);
  }

  lemma SecondDoesNotFit(a: Assignment)
    requires IsAssignment(a, Using(0), ASKS, BOTH_THEN_E)
    ensures RepresentativeMode(a) != Fit
  {
    FirstGets(a, 0, 0);
    hide IsPodSetOutcome, TallyUsage, TallyBorrow, ChoiceOf;
    if RepresentativeMode(a) == Fit {
      FitMeansAllFit(a, Using(0), ASKS, BOTH_THEN_E);
      AssignedIsEvaluated(a, Using(0), ASKS, BOTH_THEN_E, 1);
      EligibleChoice(a);
    }
  }

  lemma EligibleChoice(a: Assignment)
    requires IsAssignment(a, Using(0), ASKS, BOTH_THEN_E) && |a.podSets| == 2
    requires AssignableAt(a, Using(0), ASKS, BOTH_THEN_E, 1)
    ensures "r" in a.podSets[1].flavors && a.podSets[1].flavors["r"].name == "e"
  {
    hide TallyUsage, TallyBorrow, WorstMode;
    var v := Using(0);
    assert OutcomeAt(a, v, ASKS, BOTH_THEN_E, 1);
    assert v.spec.groups[..0] == [] && GroupFor(v.spec.groups, "r") == Some(v.spec.groups[0]);
    assert ResourceAssignable(v, ASKS[1].requests, TallyUsage(a.podSets[..1]), BOTH_THEN_E, 1, "r");
  }

  lemma BothFit(a: Assignment)
    requires IsAssignment(a, Using(1), ASKS, BOTH_THEN_E)
    ensures RepresentativeMode(a) == Fit
  {
    hide *;
    OneUnitLess();
    FirstGets(a, 1, 1);
    SecondOutcome(a);
    AllWithoutReasons(a);
  }

  lemma OneUnitLess()
    ensures WithinLimits(Using(1), Pair("f", "r"), 2) && !WithinLimits(Using(1), Pair("e", "r"), 2)
    ensures ["e", "f"][1] == "f"
  {
  }

  lemma SecondOutcome(a: Assignment)
    requires IsAssignment(a, Using(1), ASKS, BOTH_THEN_E) && |a.podSets| == 2
    requires TallyUsage(a.podSets[..1]) == map[Pair(["e", "f"][1], "r") := 2]
    ensures a.podSets[1].status == NoStatus
  {
    hide IsPodSetOutcome, Assignable, TallyUsage, TallyBorrow, Using;
    assert OutcomeAt(a, Using(1), ASKS, BOTH_THEN_E, 1) && ASKS[1].requests == map["r" := 1];
    SecondFits(TallyUsage(a.podSets[..1]), a.podSets[1].flavors, a.podSets[1].status);
  }

  lemma AllWithoutReasons(a: Assignment)
    requires |a.podSets| == 2 && a.podSets[0].status == NoStatus && a.podSets[1].status == NoStatus
    ensures RepresentativeMode(a) == Fit
  {
  }

  lemma SecondFits(used: Quantities, flavors: ResourceAssignment, status: Status)
    requires used == map[Pair("f", "r") := 2]
    requires IsPodSetOutcome(Using(1), map["r" := 1], used, BOTH_THEN_E, 1, flavors, status)
    ensures status == NoStatus
  {
    assert WithinLimits(Using(1), Pair("e", "r"), 1 + At(used, Pair("e", "r")));
    UsingOutcome(1, used, 1, 1, 0);
    hide Assignable, AssignmentOf;
  }
}
