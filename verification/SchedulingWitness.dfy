/** A run at whose end a cohort uses more than it can request. */
module SchedulingWitness {
  import opened Sums
  import opened Model
  import opened Ledgers
  import opened Caches
  import CacheWitness
  import opened Snapshots
  import opened FlavorAssigner
  import opened Assignments
  import opened AssignmentProofs
  import opened PendingQueues
  import opened SchedulingCycle
  import opened SchedulingProofs
  import opened SchedulingRuns
  import opened Scheduler
  import opened CycleTotals

  // ---------- three queues, one of them borrowing ----------

  const P := Pair("f", "r")

  /** Queues A, B and C have two units of the pair each; A and B use none, C uses three. */
  ghost predicate Setting(c: CacheState, spec: QueueSpec) {
    && spec.cohort == Some("g") && spec.groups == [ResourceGroup({"r"}, ["f"])]
    && spec.quotas == map[P := ResourceQuota(2, None)]
    && c.queues.Keys == {"A", "B", "C"} && c.cohorts == map["g" := {"A", "B", "C"}] && c.assumed == map[]
    && (forall n :: n in c.queues ==> c.queues[n].spec == spec && c.queues[n].status == Active && Sound(n, c.queues[n]))
    && c.queues["A"].workloads == c.queues["B"].workloads == map[]
    && c.queues["A"].usage == c.queues["B"].usage == map[P := 0] && c.queues["C"].usage == map[P := 3]
  }

  lemma SpecIsValid(c: CacheState, spec: QueueSpec)
    requires Setting(c, spec)
    ensures spec.Valid() && (forall p :: spec.Nominal(p) == if p == P then 2 else 0)
    ensures forall p :: spec.Quota(p).borrowingLimit.None?
  {
    hide Sound;
    forall p: Pair ensures p in spec.quotas <==> exists i :: 0 <= i < |spec.groups| && GroupLists(spec.groups[i], p) {
      if p == P { assert GroupLists(spec.groups[0], p); }
    }
  }

  lemma SumOfThree(m: map<string, int>)
    requires m.Keys == {"A", "B", "C"}
    ensures Sum(m) == m["A"] + m["B"] + m["C"]
  {
    SumTake(m, "A");
    SumTake(m - {"A"}, "B");
    SumTake(m - {"A"} - {"B"}, "C");
    assert m - {"A"} - {"B"} - {"C"} == map[];
  }

  lemma SumsOfThree(qs: map<string, SnapQueue>, spec: QueueSpec, p: Pair)
    requires qs.Keys == {"A", "B", "C"} && forall n :: n in qs ==> qs[n].spec == spec
    requires spec.cohort == Some("g")
    ensures InCohort(qs, "g") == qs
    ensures CohortUsed(qs, "g", p) == At(qs["A"].usage, p) + At(qs["B"].usage, p) + At(qs["C"].usage, p)
    ensures CohortRequestable(qs, "g", p) == 3 * spec.Nominal(p)
    ensures CohortBorrowed(qs, "g", p) ==
            Over(At(qs["A"].usage, p), spec.Nominal(p)) + Over(At(qs["B"].usage, p), spec.Nominal(p)) +
            Over(At(qs["C"].usage, p), spec.Nominal(p))
  {
    hide Sum, QueueSpec.Nominal;
    assert InCohort(qs, "g") == qs;
    SumOfThree(UsageOf(qs, p));
    SumOfThree(NominalOf(qs, p));
    SumOfThree(BorrowedOf(qs, p));
  }

  lemma LiveOfSetting(c: CacheState, spec: QueueSpec)
    requires Setting(c, spec)
    ensures var qs := Live(c);
            && qs.Keys == {"A", "B", "C"} && (forall n :: n in qs ==> qs[n].spec == spec)
            && qs["A"].usage == qs["B"].usage == map[P := 0] && qs["C"].usage == map[P := 3]
  {
    hide Sound;
  }

  lemma CacheIsOk(c: CacheState, spec: QueueSpec)
    requires Setting(c, spec)
    ensures Caches.Ok(c)
  {
    hide Sound;
    assert forall n :: n in CohortsOf(c) ==> CohortsOf(c)[n] == Some("g");
    assert "g" in c.cohorts && c.cohorts["g"] == {"A", "B", "C"};
  }

  lemma OtherCohortEmpty(qs: map<string, SnapQueue>, g: string, p: Pair)
    requires forall n :: n in qs ==> qs[n].spec.cohort != Some(g)
    ensures CohortBorrowed(qs, g, p) == 0 == CohortRequestable(qs, g, p)
  {
    assert InCohort(qs, g) == map[];
    assert BorrowedOf(map[], p) == map[] == NominalOf(map[], p);
  }

  lemma StartIsOk(c: CacheState, spec: QueueSpec)
    requires Setting(c, spec)
    ensures SysOk(Idle(c))
  {
    hide Live, Caches.Ok, Setting, CohortBorrowed, CohortRequestable, CohortUsed, QueueSpec.Nominal, QueueSpec.Valid;
    CacheIsOk(c, spec);
    LiveOfSetting(c, spec);
    SpecIsValid(c, spec);
    assert spec.cohort == Some("g") by { CohortOfSetting(c, spec); }
    var qs := Live(c);
    forall g, p ensures CohortBorrowed(qs, g, p) <= CohortRequestable(qs, g, p) {
      if g == "g" { SumsOfThree(qs, spec, p); } else { OtherCohortEmpty(qs, g, p); }
    }
  }

  lemma CohortOfSetting(c: CacheState, spec: QueueSpec)
    requires Setting(c, spec)
    ensures spec.cohort == Some("g") && c.cohorts == map["g" := {"A", "B", "C"}]
  {
    hide Sound;
  }

  ghost function SnapOf(c: CacheState): Snap {
    Snap(Live(c), map["g" := SnapCohort({"A", "B", "C"}, map[P := 6], map[P := 3])])
  }

  lemma TotalsOfThree(qs: map<string, SnapQueue>, spec: QueueSpec, p: Pair)
    requires qs.Keys == {"A", "B", "C"} && (forall n :: n in qs ==> qs[n].spec == spec) && spec.cohort == Some("g")
    requires qs["A"].usage == qs["B"].usage == map[P := 0] && qs["C"].usage == map[P := 3]
    requires spec.Nominal(p) == if p == P then 2 else 0
    ensures TotalAt(SnapCohort({"A", "B", "C"}, map[P := 6], map[P := 3]), qs, p)
  {
    hide Sum, QueueSpec.Nominal;
    SumsOfThree(qs, spec, p);
    if p == P { assert "A" in qs && p in qs["A"].usage; }
    assert Tracked(qs, p) <==> p == P;
  }

  lemma SnapIsSnapshot(c: CacheState, spec: QueueSpec)
    requires Setting(c, spec)
    ensures IsSnapshotOf(SnapOf(c), c)
  {
    hide Setting, TotalAt, QueueSpec.Nominal, QueueSpec.Valid, Live, Balanced, CohortUsed, CohortBorrowed,
      CohortRequestable, InCohort;
    LiveOfSetting(c, spec);
    SpecIsValid(c, spec);
    CohortOfSetting(c, spec);
    LiveIsCopied(c);
    var qs, co := Live(c), SnapCohort({"A", "B", "C"}, map[P := 6], map[P := 3]);
    forall p ensures TotalAt(co, qs, p) { TotalsOfThree(qs, spec, p); }
    SumsOfThree(qs, spec, P);
    BalancedOne(qs, co);
  }

  lemma BalancedOne(qs: map<string, SnapQueue>, co: SnapCohort)
    requires InCohort(qs, "g") == qs && forall p :: TotalAt(co, qs, p)
    ensures Balanced(Snap(qs, map["g" := co]))
  {
    hide TotalAt, InCohort;
  }

  lemma LiveIsCopied(c: CacheState)
    ensures Live(c) == map n | n in c.queues && c.queues[n].status == Active :: Copied(c.queues[n])
  {
  }

  // ---------- a head that asks for two units ----------

  const ASSIGNED := Assignment(
    [PodSetAssignment("p", map["r" := FlavorAssignment("f", Fit, 0)], NoStatus, map["r" := 2])], map[], map[P := 2])

  function HeadOf(n: string): Info {
    Info(Workload(Name("n", n), Spec("q", 0, [PodSet("p", 1, map["r" := 2000])]), 0, None, None),
         [PodSetResources("p", map["r" := 2], map[])], n)
  }

  function EntryOf(n: string): Entry { Entry(HeadOf(n), (i, f) => Eligible, ASSIGNED, Generic) }

  lemma AssignedTally()
    ensures TallyUsage(ASSIGNED.podSets) == map[P := 2] && TallyBorrow(ASSIGNED.podSets) == map[]
  {
    var ps := ASSIGNED.podSets[0];
    assert ASSIGNED.podSets[..0] == [];
    PairsOfIff(ps);
    assert AppendUsage(map[], ps) == map[P := 2];
    assert AppendBorrow(map[], ps) == map[];
  }

  lemma ChoiceOfOne(v: QueueView, g: ResourceGroup, reqs: Requests, used: Quantities, elig: Eligibilities)
    requires g.flavors == ["f"] && elig(0, "f") == Eligible && WorstMode(v, "f", Wanted(reqs, g), used) == Fit
    ensures ChoiceOf(v, g, reqs, used, elig, 0) == Chosen("f")
  {
    hide WorstMode;
    assert Rated(v, g.flavors, Wanted(reqs, g), used, elig, 0, 0, Fit);
    assert IsBest(v, g.flavors, Wanted(reqs, g), used, elig, 0, 0, Fit);
    SettleChoice(v, g, reqs, used, elig, 0, 0, Fit);
  }

  /** Two units fit while at most four of six are used, and stay within the queue's own two. */
  lemma HeadFits(v: QueueView, e: Entry)
    requires v.spec.groups == [ResourceGroup({"r"}, ["f"])] && v.spec.Quota(P) == ResourceQuota(2, None)
    requires v.cohort.Some? && At(v.usage, P) == 0 && At(v.cohort.value.usage, P) == 3
    requires At(v.cohort.value.requestable, P) == 6
    requires e.assignment == ASSIGNED && e.elig(0, "f") == Eligible
    ensures IsAssignment(ASSIGNED, v, [PodSetResources("p", map["r" := 2], map[])], e.elig)
    ensures RepresentativeMode(ASSIGNED) == Fit
  {
    hide QueueSpec.Quota;
    var g, reqs: Requests, none: Quantities := v.spec.groups[0], map["r" := 2], map[];
    var pss := [PodSetResources("p", reqs, map[])];
    assert Wanted(reqs, g) == reqs;
    assert Outcome(v, "f", "r", 2, none) == (Fit, 0);
    assert WorstMode(v, "f", reqs, none) == Fit;
    ChoiceOfOne(v, g, reqs, none, e.elig);
    GroupOfR(v.spec.groups);
    OutcomeOfOne(v, e.elig);
    assert ASSIGNED.podSets[..0] == [];
    AssignedTally();
    hide IsPodSetOutcome, Assignable, TallyUsage, TallyBorrow;
    assert OutcomeAt(ASSIGNED, v, pss, e.elig, 0) && AssignableAt(ASSIGNED, v, pss, e.elig, 0);
  }

  lemma GroupOfR(groups: seq<ResourceGroup>)
    requires groups == [ResourceGroup({"r"}, ["f"])]
    ensures GroupFor(groups, "r") == Some(groups[0]) && GroupFor(groups, PODS) == None
  {
    assert groups[..0] == [];
  }

  lemma OutcomeOfOne(v: QueueView, elig: Eligibilities)
    requires GroupFor(v.spec.groups, "r").Some?
    requires ChoiceOf(v, GroupFor(v.spec.groups, "r").value, map["r" := 2], map[], elig, 0) == Chosen("f")
    requires Outcome(v, "f", "r", 2, map[]) == (Fit, 0)
    ensures Assignable(v, map["r" := 2], map[], elig, 0)
    ensures IsPodSetOutcome(v, map["r" := 2], map[], elig, 0, map["r" := FlavorAssignment("f", Fit, 0)], NoStatus)
  {
    hide ChoiceOf, Outcome, GroupFor;
    var reqs: Requests := map["r" := 2];
    var flavors := map["r" := FlavorAssignment("f", Fit, 0)];
    assert ResourceAssignable(v, reqs, map[], elig, 0, "r");
    assert flavors == map r | r in reqs :: AssignmentOf(v, reqs, map[], elig, 0, r);
  }

  lemma HeadNominated(c: CacheState, spec: QueueSpec, n: string)
    requires Setting(c, spec) && (n == "A" || n == "B")
    ensures Nominated(SnapOf(c), EntryOf(n)) && RepresentativeMode(ASSIGNED) == Fit
  {
    hide Setting, IsAssignment, RepresentativeMode, Live, QueueSpec.Valid;
    LiveOfSetting(c, spec);
    SpecIsValid(c, spec);
    CohortOfSetting(c, spec);
    GroupsOfSetting(c, spec);
    GroupOfR(spec.groups);
    var e := EntryOf(n);
    assert CountedPodSets(e.info, spec) == e.info.totalRequests;
    HeadFits(ViewOf(SnapOf(c), n), e);
  }

  lemma GroupsOfSetting(c: CacheState, spec: QueueSpec)
    requires Setting(c, spec)
    ensures spec.groups == [ResourceGroup({"r"}, ["f"])] && spec.Quota(P) == ResourceQuota(2, None)
    ensures spec.quotas.Keys == {P}
    ensures c.queues.Keys == {"A", "B", "C"} && c.assumed == map[]
    ensures c.queues["A"].workloads == c.queues["B"].workloads == map[]
  {
    hide Sound;
  }

  // ---------- the run ----------

  /**
   * From a state that meets every bound, one cycle admits two heads within nominal while a third queue borrows: 7 of
   * 6.
   */
  lemma CohortCanExceed(c: CacheState, spec: QueueSpec) returns (evs: seq<SchedulingCycle.Event>, y: Sys)
    requires Setting(c, spec)
    ensures SysOk(Idle(c)) && SchedulingCycle.Run(Idle(c), evs, y) && y.Idle?
    ensures CohortUsed(Live(y.cache), "g", P) == 7 && CohortRequestable(Live(y.cache), "g", P) == 6
  {
    hide Setting, Live, SysOk, ProcessAll, CohortUsed, CohortRequestable, Startable, SnapOf, Step, EntryOf, AddedTo,
      Admits;
    StartIsOk(c, spec);
    StartStep(c, spec);
    var s, es := SnapOf(c), [EntryOf("A"), EntryOf("B")];
    var cy := Cycle(s, es, 0, {}, map[]);
    var more := ProcessAllIsRun(c, cy, 0);
    evs, y := [Start(s, es)] + more, Idle(ProcessAll(c, cy, 0).0);
    assert evs[1..] == more;
    CacheIsOk(c, spec);
    CycleExceedsIff(c, s, es, 0, "g", P);
    FourAdded(c, spec);
    ThreeOfSix(c, spec);
  }

  lemma ThreeOfSix(c: CacheState, spec: QueueSpec)
    requires Setting(c, spec)
    ensures CohortUsed(Live(c), "g", P) == 3 && CohortRequestable(Live(c), "g", P) == 6
  {
    hide Setting, Live, CohortUsed, CohortRequestable, CohortBorrowed, QueueSpec.Nominal, QueueSpec.Valid;
    LiveOfSetting(c, spec);
    SpecIsValid(c, spec);
    CohortOfSetting(c, spec);
    SumsOfThree(Live(c), spec, P);
  }

  lemma FourAdded(c: CacheState, spec: QueueSpec)
    requires Setting(c, spec)
    ensures AddedTo(c, SnapOf(c), [EntryOf("A"), EntryOf("B")], 2, "g", P) == 4
  {
    hide Setting, Live, RepresentativeMode, EntryOf, TallyUsage, QueueSpec.Valid, QueueSpec.Nominal;
    LiveOfSetting(c, spec);
    CohortOfSetting(c, spec);
    GroupsOfSetting(c, spec);
    EntryFacts(c, spec, "A");
    EntryFacts(c, spec, "B");
    assert Name("n", "A") != Name("n", "B");
    var s, es := SnapOf(c), [EntryOf("A"), EntryOf("B")];
    assert Admits(c, s, es, 0) && Admits(c, s, es, 1);
    hide Admits;
    assert AddedTo(c, s, es, 1, "g", P) == 2;
  }

  lemma EntryFacts(c: CacheState, spec: QueueSpec, n: string)
    requires Setting(c, spec) && (n == "A" || n == "B")
    ensures var e := EntryOf(n);
            && e.info.clusterQueue == n && e.info.obj.key == Name("n", n) && RepresentativeMode(e.assignment) == Fit
            && !Borrows(e.assignment) && e.assignment.usage == TallyUsage(e.assignment.podSets) == map[P := 2]
  {
    hide Setting, Nominated, RepresentativeMode;
    HeadNominated(c, spec, n);
    AssignedTally();
  }

  lemma StartStep(c: CacheState, spec: QueueSpec)
    requires Setting(c, spec)
    ensures var es := [EntryOf("A"), EntryOf("B")];
            && Step(Idle(c), Start(SnapOf(c), es), Busy(c, Cycle(SnapOf(c), es, 0, {}, map[])))
            && Startable(c, SnapOf(c), es)
  {
    hide Setting, IsSnapshotOf, Nominated, SnapOf;
    SnapIsSnapshot(c, spec);
    HeadNominated(c, spec, "A");
    HeadNominated(c, spec, "B");
    var es := [EntryOf("A"), EntryOf("B")];
    assert Sorted(es) && OnePerQueue(es);
  }

  /** Such a setting exists: C holds one workload of three units. */
  lemma SettingExists() returns (c: CacheState, spec: QueueSpec)
    ensures Setting(c, spec)
  {
    spec := QueueSpec(Some("g"), [ResourceGroup({"r"}, ["f"])], map[P := ResourceQuota(2, None)], Never, Never);
    var w := Workload(Name("n", "c"), Spec("q", 0, []), 0, None,
                      Some(Admission("C", [PodSetUsage("p", map["r" := "f"], map["r" := 3000])], 0)));
    var free := Ledger(spec, Active, map[P := 0], map[], map[]);
    FreeIsExact(free);
    HeldLedger(free, w);
    var held := AddWorkload(free, w);
    hide AddWorkload, Exact;
    assert Sound("A", free) && Sound("B", free) && Sound("C", held);
    hide Sound;
    c := CacheState(map["A" := free, "B" := free, "C" := held], map["g" := {"A", "B", "C"}], map[]);
  }

  lemma FreeIsExact(l: Ledger)
    requires l.usage == map[P := 0] && l.spec.quotas.Keys == {P} && l.workloads == map[] && l.locals == map[]
    ensures Exact(l)
  {
    CountNone({P});
    assert CountOf(map[], {P}).usage[P] == 0;
  }

  lemma HeldLedger(free: Ledger, w: Workload)
    requires Exact(free) && free.usage == map[P := 0] && free.workloads == map[]
    requires w.admission.Some? && w.admission.value.clusterQueue == "C"
    requires w.admission.value.podSets == [PodSetUsage("p", map["r" := "f"], map["r" := 3000])]
    ensures var l := AddWorkload(free, w);
            l.usage == map[P := 3] && l.spec == free.spec && l.status == free.status && Exact(l) && Housed("C", l)
  {
    hide Exact;
    AddKeepsExact(free, w);
    CacheWitness.ThreeUnits(w);
  }
}
