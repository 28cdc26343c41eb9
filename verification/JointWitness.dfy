/**
 * Joint runs of cache, scheduler loop and queue manager that end with a workload parked although it fits: the ways in
 * which a wake-up can be lost.
 */
module JointWitness {
  import opened Sums
  import opened Model
  import opened Heaps
  import opened PendingQueues
  import opened Managers
  import opened WakeUp
  import Ledgers
  import Caches
  import CacheWitness
  import opened Snapshots
  import opened FlavorAssigner
  import opened Assignments
  import opened FitOrder
  import opened Eviction
  import opened Preemption
  import opened PreemptionTargets
  import S = SchedulingCycle
  import SchedulingProofs
  import opened JointRuns
  import opened JointOps
  import opened WakeUpSetting

  // ---------- one resource, one flavor ----------

  const P := Pair("f", "r")
  const KNOWN := {"f"}

  /** Two units of the pair; workloads may preempt those of lower priority in their own queue. */
  function SpecIn(cohort: string): QueueSpec {
    QueueSpec(if cohort == "" then None else Some(cohort), [ResourceGroup({"r"}, ["f"])],
              map[P := ResourceQuota(2, None)], LowerPriority, Never)
  }

  /** A workload that queue n admitted, and one that waits. */
  function Held(n: string, amount: nat): Workload {
    Workload(Name("n", "held"), Spec("h", 0, []), 0, None,
             Some(Admission(n, [PodSetUsage("p", map["r" := "f"], map["r" := amount * 1000])], 0)))
  }

  function Asking(amount: nat): Workload {
    Workload(Name("n", "w"), Spec("q", 0, [PodSet("p", 1, map["r" := amount * 1000])]), 0, None, None)
  }

  lemma SpecFacts(cohort: string)
    ensures SpecIn(cohort).Valid() && SpecIn(cohort).Nominal(P) == 2 && SpecIn(cohort).Quota(P).borrowingLimit.None?
  {
    var spec := SpecIn(cohort);
    forall p: Pair ensures p in spec.quotas <==> exists i :: 0 <= i < |spec.groups| && GroupLists(spec.groups[i], p) {
      if p == P { assert GroupLists(spec.groups[0], p); }
    }
  }

  lemma HeldCharge(n: string, amount: nat)
    ensures Charge(NewInfo(Held(n, amount)), P) == amount
  {
    var pss := NewInfo(Held(n, amount)).totalRequests;
    QuantityRoundTrip("r", amount);
    assert NewRequests(map["r" := amount * 1000]) == map["r" := amount];
    assert pss == [PodSetResources("p", map["r" := amount], map["r" := "f"])];
    assert pss[..0] == [] && ChargeOf(pss[..0], P) == 0;
  }

  lemma AskedPodSets(amount: nat, cohort: string)
    ensures PodSetsOf(Asking(amount).spec, SpecIn(cohort)) == [PodSetResources("p", map["r" := amount], map[])]
  {
    var groups := SpecIn(cohort).groups;
    assert groups[..0] == [] && GroupFor(groups, PODS) == None;
    QuantityRoundTrip("r", amount);
    assert Scaled(NewRequests(map["r" := amount * 1000]), 1) == map["r" := amount];
  }

  // ---------- room for a workload ----------

  ghost predicate Usable(t: Templates) { forall spec: Spec :: t(spec)(0, "f") == Eligible }

  /** What waits in queue n with this amount. */
  function TrialIn(n: string, amount: nat): Trial { Trial(n, Asking(amount).key, Asking(amount).spec) }

  lemma FoundIff(c: CacheState, s: Snap, a: Assignment, n: string, cohort: string, amount: nat, t: Templates)
    requires Caches.Ok(c) && Usable(t) && n in S.Live(c) && S.Live(c)[n].spec == SpecIn(cohort)
    requires IsSnapshotOf(s, c) && Finds(s, TrialIn(n, amount), t, a)
    ensures RepresentativeMode(a) == Fit <==> WithinLive(S.Live(c), n, P, amount)
  {
    hide Caches.Ok, Balanced, IsAssignment, RepresentativeMode, WithinLimits, WithinLive, QueueSpec.Valid;
    AskedPodSets(amount, cohort);
    assert s.queues[n].spec == SpecIn(cohort);
    OneAskFitsIff(a, ViewOf(s, n), PodSetResources("p", map["r" := amount], map[]), t(Asking(amount).spec), "f", "r");
    LiveIsView(c, s, n, P, amount);
  }

  lemma FitsIff(c: CacheState, n: string, cohort: string, amount: nat, t: Templates)
    requires Caches.Ok(c) && Usable(t) && n in S.Live(c) && S.Live(c)[n].spec == SpecIn(cohort)
    ensures DidNotFitIn(c, TrialIn(n, amount), t) <==> !WithinLive(S.Live(c), n, P, amount)
    ensures DoesNotFit(c, TrialIn(n, amount), t) <==> !WithinLive(S.Live(c), n, P, amount)
  {
    hide Caches.Ok, Balanced, IsAssignment, RepresentativeMode, WithinLive, QueueSpec.Valid, PodSetsOf;
    var e := TrialIn(n, amount);
    var s := SnapshotExists(c);
    SpecFacts(cohort);
    assert s.queues[n].spec == SpecIn(cohort);
    var a := AssignmentExists(ViewOf(s, n), PodSetsOf(e.spec, SpecIn(cohort)), t(e.spec));
    assert Finds(s, e, t, a);
    forall s, a | IsSnapshotOf(s, c) && Finds(s, e, t, a)
      ensures RepresentativeMode(a) == Fit <==> WithinLive(S.Live(c), n, P, amount)
    {
      FoundIff(c, s, a, n, cohort, amount, t);
    }
  }

  lemma RoomOfTwo(qs: map<string, SnapQueue>, n: string, other: string, g: string, amount: nat)
    requires n != other && g != "" && qs.Keys == {n, other} && qs[n].spec == qs[other].spec == SpecIn(g)
    ensures WithinLive(qs, n, P, amount) <==> At(qs[n].usage, P) + At(qs[other].usage, P) + amount <= 4
  {
    hide Sum, QueueSpec.Nominal, QueueSpec.Quota;
    SpecFacts(g);
    assert InCohort(qs, g) == qs;
    SumOfTwo(UsageOf(qs, P), n, other);
    SumOfTwo(NominalOf(qs, P), n, other);
  }

  lemma SumOfTwo(m: map<string, int>, a: string, b: string)
    requires a != b && m.Keys == {a, b}
    ensures Sum(m) == m[a] + m[b]
  {
    SumTake(m, a);
    SumTake(m - {a}, b);
    assert m - {a} - {b} == map[];
  }

  /** A queue without a cohort, or whose cohort has no other queue. */
  lemma RoomAlone(qs: map<string, SnapQueue>, n: string, cohort: string, amount: nat)
    requires n in qs && qs[n].spec == SpecIn(cohort)
    requires cohort != "" ==> forall m :: m in qs && m != n ==> qs[m].spec.cohort != Some(cohort)
    ensures WithinLive(qs, n, P, amount) <==> At(qs[n].usage, P) + amount <= 2
  {
    hide Sum, QueueSpec.Nominal, QueueSpec.Quota;
    SpecFacts(cohort);
    if cohort != "" {
      assert InCohort(qs, cohort) == map[n := qs[n]];
      SumOfOne(UsageOf(map[n := qs[n]], P), n);
      SumOfOne(NominalOf(map[n := qs[n]], P), n);
    }
  }

  lemma SumOfOne(m: map<string, int>, a: string)
    requires m.Keys == {a}
    ensures Sum(m) == m[a]
  {
    SumTake(m, a);
    assert m - {a} == map[];
  }

  // ---------- from the start to the head's trial ----------

  lemma {:induction false} RunMore(x: Joint, evs: seq<JointEvent>, y: Joint, ev: JointEvent, z: Joint, t: Templates)
    requires JointRun(x, evs, y, t) && Step(y, ev, z, t)
    ensures JointRun(x, evs + [ev], z, t)
    decreases |evs|
  {
    hide Step;
    if evs == [] {
      assert evs + [ev] == [ev] && [ev][1..] == [];
      assert Step(x, [ev][0], z, t) && JointRun(z, [ev][1..], z, t);
    } else {
      var x1 :| Step(x, evs[0], x1, t) && JointRun(x1, evs[1..], y, t);
      assert (evs + [ev])[1..] == evs[1..] + [ev];
      RunMore(x1, evs[1..], y, ev, z, t);
    }
  }

  /** The ledgers of these queues, all in one cohort or without one; the holder alone has admitted something. */
  ghost predicate Charging(c: CacheState, ns: set<string>, cohort: string, holder: string, amount: nat) {
    && Caches.Ok(c) && c.queues.Keys == ns
    && (forall n :: n in c.queues ==> c.queues[n].spec == SpecIn(cohort) && c.queues[n].status == Ledgers.Active)
    && (forall n :: n in c.queues ==>
          c.queues[n].workloads == if n == holder then map[Held(n, amount).key := NewInfo(Held(n, amount))] else map[])
    && c.assumed == if holder in ns then map[Held(holder, amount).key := holder] else map[]
  }

  lemma NewCharging(c: CacheState, ns: set<string>, n: string, cohort: string)
    requires Charging(c, ns, cohort, "", 0) && n !in ns && n != "" && "" !in ns
    ensures Charging(Caches.AddQueue(c, n, SpecIn(cohort), KNOWN, [], []).0, ns + {n}, cohort, "", 0)
  {
    hide Caches.Ok, NewInfo;
    Caches.AddQueueKeepsOk(c, n, SpecIn(cohort), KNOWN, [], []);
    assert Ledgers.FlavorsKnown(SpecIn(cohort), KNOWN);
  }

  lemma AssumedCharging(c: CacheState, ns: set<string>, cohort: string, holder: string, amount: nat)
    requires Charging(c, ns, cohort, "", 0) && "" !in ns && holder in ns
    ensures Charging(Caches.Assume(c, Held(holder, amount)).0, ns, cohort, holder, amount)
  {
    hide Caches.Ok, NewInfo;
    Caches.AssumeKeepsOk(c, Held(holder, amount));
  }

  lemma SameTruthful(c: CacheState, given: set<string>)
    requires Caches.Ok(c)
    ensures Truthful(c, c, given)
  {
    hide Caches.Ok, WithinLive;
  }

  lemma PlainAgrees(m: ManagerState, c: CacheState, ns: set<string>, cohort: string)
    requires m == Plain(ns, cohort) && Charging(c, ns, cohort, "", 0)
    ensures Agree(m, c) && CohortsIndexed(m)
  {
    hide Caches.Ok;
  }

  lemma UntriedPlain(x: Wake, e: Event, ns: set<string>, cohort: string)
    requires Untried(x) && Apply(x.m, e) == Plain(ns, cohort)
    ensures Untried(Next(x, Call(e, false))) && Next(x, Call(e, false)).m == Plain(ns, cohort)
  {
    hide Apply, Untried, Next;
    CallUntried(x, e, Plain(ns, cohort));
  }

  /** The queues were added so far, and the holder's workload was assumed. */
  ghost predicate Added(j: Joint, ns: set<string>, cohort: string, holder: string, amount: nat) {
    && j.wake.m == Plain(ns, cohort) && Untried(j.wake) && j.taken == None && j.found == map[]
    && "" !in ns && Charging(j.cache, ns, cohort, holder, amount)
  }

  lemma AddStep(evs: seq<JointEvent>, j: Joint, ns: set<string>, n: string, cohort: string, t: Templates)
    returns (evs': seq<JointEvent>, j': Joint)
    requires JointRun(JOINT_START, evs, j, t) && Added(j, ns, cohort, "", 0) && n !in ns && n != ""
    ensures JointRun(JOINT_START, evs', j', t) && Added(j', ns + {n}, cohort, "", 0)
  {
    hide JointRun, Truthful, Untried, Next, Plain, AddClusterQueue, Caches.Ok, Caches.AddQueue;
    var e := EvAddClusterQueue(n, cohort, BestEffortFIFO, [], ALL);
    AddedPlain(ns, n, cohort);
    UntriedPlain(j.wake, e, ns + {n}, cohort);
    var c := Caches.AddQueue(j.cache, n, SpecIn(cohort), KNOWN, [], []).0;
    PlainAgrees(j.wake.m, j.cache, ns, cohort);
    PlainKeys(ns, cohort);
    AddQueueTruthful(j.cache, j.wake.m, n, SpecIn(cohort), KNOWN, e);
    NewCharging(j.cache, ns, n, cohort);
    var ev := Both(Call(e, false), c, false);
    j' := Joint(c, Next(j.wake, Call(e, false)), None, map[]);
    assert Step(j, ev, j', t);
    RunMore(JOINT_START, evs, j, ev, j', t);
    evs' := evs + [ev];
  }

  lemma PlainKeys(ns: set<string>, cohort: string)
    ensures Plain(ns, cohort).queues.Keys == ns
  {
  }

  lemma AssumeStep(evs: seq<JointEvent>, j: Joint, ns: set<string>, cohort: string, holder: string, amount: nat,
                   t: Templates) returns (evs': seq<JointEvent>, j': Joint)
    requires JointRun(JOINT_START, evs, j, t) && Added(j, ns, cohort, "", 0) && holder in ns
    ensures JointRun(JOINT_START, evs', j', t) && Added(j', ns, cohort, holder, amount)
  {
    hide JointRun, Truthful, Untried, Plain, Caches.Ok, Caches.Assume;
    var c := Caches.Assume(j.cache, Held(holder, amount)).0;
    AssumeTruthful(j.cache, Held(holder, amount));
    AssumedCharging(j.cache, ns, cohort, holder, amount);
    j' := j.(cache := c);
    RunMore(JOINT_START, evs, j, CacheOnly(c), j', t);
    evs' := evs + [CacheOnly(c)];
  }

  /** The head of A, asking for this much, is tried against the cache as it is. */
  ghost predicate Considered(j: Joint, ask: nat, other: string, cohort: string, holder: string, amount: nat) {
    && Trying(j.wake, Asking(ask), other, cohort) && Charging(j.cache, {"A", other}, cohort, holder, amount)
    && j.taken == Some(j.cache) && j.found == map[]
  }

  lemma ConsiderSteps(evs: seq<JointEvent>, j: Joint, ask: nat, other: string, cohort: string, holder: string,
                      amount: nat, t: Templates) returns (evs': seq<JointEvent>, j': Joint)
    requires JointRun(JOINT_START, evs, j, t) && Added(j, {"A", other}, cohort, holder, amount) && other != "A"
    ensures JointRun(JOINT_START, evs', j', t) && Considered(j', ask, other, cohort, holder, amount)
  {
    hide JointRun, Truthful, Untried, Plain, Caches.Ok, AddLocalQueue, Next, Enabled, Listed, Trying;
    var w := Asking(ask);
    var e := EvAddLocalQueue(w.QueueKey(), "A", [w]);
    ListedLocal(w, other, cohort);
    UntriedListed(j.wake, e, w, other, cohort);
    SameTruthful(j.cache, {});
    var e1, e2 := Both(Call(e, false), j.cache, false), Both(Heads({"A", other}, map["A" := w.key]), j.cache, false);
    var j1 := j.(wake := Next(j.wake, e1.ev));
    RunMore(JOINT_START, evs, j, e1, j1, t);
    HeadTried(j1.wake, w, other, cohort);
    var j2 := j1.(wake := Next(j1.wake, e2.ev));
    RunMore(JOINT_START, evs + [e1], j1, e2, j2, t);
    j' := j2.(taken := Some(j.cache));
    RunMore(JOINT_START, evs + [e1] + [e2], j2, TakeSnapshot, j', t);
    evs' := evs + [e1] + [e2] + [TakeSnapshot];
  }

  lemma UntriedListed(x: Wake, e: Event, w: Workload, other: string, cohort: string)
    requires Untried(x) && Apply(x.m, e) == Listed(w, other, cohort) && e.EvAddLocalQueue?
    ensures Untried(Next(x, Call(e, false))) && Next(x, Call(e, false)).m == Listed(w, other, cohort)
    ensures Enabled(x, Call(e, false))
  {
    hide Apply, Untried, Next, NewInfo;
    CallUntried(x, e, Listed(w, other, cohort));
  }

  /** Two queues, one of which holds some quota; then the head of A is tried. */
  lemma Prepared(ask: nat, other: string, cohort: string, holder: string, amount: nat, t: Templates)
    returns (evs: seq<JointEvent>, j: Joint)
    requires other != "A" && other != "" && (holder == "A" || holder == other)
    ensures JointRun(JOINT_START, evs, j, t) && Considered(j, ask, other, cohort, holder, amount)
  {
    hide JointRun, Added, Considered;
    StartAdded(cohort, t);
    evs, j := AddStep([], JOINT_START, {}, "A", cohort, t);
    evs, j := AddStep(evs, j, {} + {"A"}, other, cohort, t);
    assert {} + {"A"} + {other} == {"A", other};
    evs, j := AssumeStep(evs, j, {"A", other}, cohort, holder, amount, t);
    evs, j := ConsiderSteps(evs, j, ask, other, cohort, holder, amount, t);
  }

  lemma StartAdded(cohort: string, t: Templates)
    ensures JointRun(JOINT_START, [], JOINT_START, t) && Added(JOINT_START, {}, cohort, "", 0)
  {
    hide Plain;
    PlainStart(cohort);
    CacheWitness.EmptyIsOk();
  }

  // ---------- the head is parked ----------

  lemma LedgerUses(n: string, l: Ledgers.Ledger, amount: nat)
    requires Caches.Sound(n, l) && P in l.spec.quotas
    ensures l.workloads == map[] ==> At(l.usage, P) == 0
    ensures l.workloads == map[Held(n, amount).key := NewInfo(Held(n, amount))] ==> At(l.usage, P) == amount
  {
    hide NewInfo, Sum;
    assert P in l.usage && l.usage[P] == Ledgers.Total(l.workloads, P);
    if l.workloads == map[] {
      SumZero(Ledgers.Charges(l.workloads, P));
      assert Held(n, amount).key !in l.workloads;
    } else {
      HeldCharge(n, amount);
      CacheWitness.TotalOfOne(Held(n, amount).key, NewInfo(Held(n, amount)), P);
    }
  }

  lemma LiveUses(c: CacheState, n: string, cohort: string, amount: nat)
    requires Caches.Ok(c) && n in S.Live(c) && c.queues[n].spec == SpecIn(cohort)
    ensures S.Live(c)[n].spec == SpecIn(cohort)
    ensures c.queues[n].workloads == map[] ==> At(S.Live(c)[n].usage, P) == 0
    ensures c.queues[n].workloads == map[Held(n, amount).key := NewInfo(Held(n, amount))] ==>
              At(S.Live(c)[n].usage, P) == amount
  {
    hide Caches.Sound, NewInfo;
    assert Caches.Sound(n, c.queues[n]);
    LedgerUses(n, c.queues[n], amount);
  }

  /** C holds three of the four units of its cohort: two more do not fit, one does. */
  lemma ThreeOfFour(c: CacheState, ask: nat, t: Templates)
    requires Charging(c, {"A", "C"}, "g", "C", 3) && Usable(t)
    ensures DidNotFitIn(c, TrialIn("A", ask), t) <==> ask > 1
    ensures DoesNotFit(c, TrialIn("A", ask), t) <==> ask > 1
  {
    hide Caches.Ok, NewInfo, DidNotFitIn, DoesNotFit, WithinLive;
    LiveUses(c, "A", "g", 3);
    LiveUses(c, "C", "g", 3);
    RoomOfTwo(S.Live(c), "A", "C", "g", ask);
    FitsIff(c, "A", "g", ask, t);
  }

  /** The workload is parked in A, alone, and found not to fit with C holding three units. */
  ghost predicate Parked(j: Joint) {
    && j.wake.m.queues.Keys == {"A", "C"} && j.wake.m.queues["A"].cohort == j.wake.m.queues["C"].cohort == "g"
    && j.wake.m.cohorts == map["g" := {"A", "C"}] && j.wake.m.locals.Keys == {Asking(2).QueueKey()}
    && InPlace(j.wake.m, "A", 2) && Timely(j.wake) && (forall n :: n in j.wake.stayed ==> j.wake.stayed[n] == {})
    && (forall e :: e in j.found ==> j.found[e].DidNotFit?) && Charging(j.cache, {"A", "C"}, "g", "C", 3)
  }

  ghost predicate InPlace(m: ManagerState, n: string, ask: nat) {
    && n in m.queues && Asking(ask).key in m.queues[n].parked
    && m.queues[n].parked[Asking(ask).key].obj.spec == Asking(ask).spec
  }

  /** Parked although it fits, and neither rejected nor kept by the selector. */
  ghost predicate Lost(y: Joint, n: string, ask: nat, t: Templates) {
    InPlace(y.wake.m, n, ask) && !HasReason(y, TrialIn(n, ask), t)
  }

  /** Requeueing the head of A, as it is now, parks it in the queue that its LocalQueue points to now. */
  lemma RetryStep(evs: seq<JointEvent>, j: Joint, ask: nat, w: Workload, n: string, t: Templates)
    returns (evs': seq<JointEvent>, j': Joint)
    requires JointRun(JOINT_START, evs, j, t) && j.taken.Some? && DidNotFitIn(j.taken.value, TrialIn("A", ask), t)
    requires Caches.Ok(j.cache) && j.wake.inFlight == {TrialIn("A", ask)} && j.found == map[] && Timely(j.wake)
    requires j.wake.tried == map[]
    requires !w.IsAdmitted() && w.key == Asking(ask).key && w.QueueKey() == Asking(ask).QueueKey()
    requires j.wake.m.locals == map[w.QueueKey() := LocalQueue(n, map[])] && n in j.wake.m.queues
    requires j.wake.m.queues[n] == Empty(j.wake.m.queues[n].cohort).(popCycle := 1)
    ensures JointRun(JOINT_START, evs', j', t)
    ensures j'.cache == j.cache && j'.found == map[TrialIn("A", ask) := DidNotFit(j.taken.value)]
    ensures j'.wake.stayed == j.wake.stayed && Timely(j'.wake) && j'.wake.tried.Keys == {TrialIn("A", ask)}
    ensures j'.wake.m.queues.Keys == j.wake.m.queues.Keys && j'.wake.m.cohorts == j.wake.m.cohorts
    ensures j'.wake.m.locals.Keys == {w.QueueKey()} && j'.wake.m.locals[w.QueueKey()].clusterQueue == n
    ensures forall i :: i in j.wake.m.queues ==> j'.wake.m.queues[i].cohort == j.wake.m.queues[i].cohort
    ensures n in j'.wake.m.queues && w.key in j'.wake.m.queues[n].parked && j'.wake.m.queues[n].parked[w.key].obj == w
  {
    hide JointRun, Truthful, DidNotFitIn, Caches.Ok, NewInfo, Timely, RequeueWorkload;
    var info := HeadOf(Asking(ask));
    HeadOfFacts(Asking(ask));
    var e := Retry(info, Some(w), Generic);
    SameTruthful(j.cache, {});
    StepKeepsTimely(j.wake, e);
    RequeuedIn(j.wake.m, info, w, n);
    j' := Joint(j.cache, Next(j.wake, e), j.taken, map[TrialIn("A", ask) := DidNotFit(j.taken.value)]);
    RunMore(JOINT_START, evs, j, Both(e, j.cache, false), j', t);
    evs' := evs + [Both(e, j.cache, false)];
  }

  lemma RequeuedIn(m: ManagerState, info: Info, w: Workload, n: string)
    requires !w.IsAdmitted() && m.locals == map[w.QueueKey() := LocalQueue(n, map[])] && n in m.queues
    requires m.queues[n] == Empty(m.queues[n].cohort).(popCycle := 1) && info.obj.key == w.key
    ensures var m' := RequeueWorkload(m, info, Some(w), Generic);
            && m'.queues.Keys == m.queues.Keys && m'.cohorts == m.cohorts && m'.locals.Keys == {w.QueueKey()}
            && m'.locals[w.QueueKey()].clusterQueue == n
            && (forall i :: i in m.queues ==> m'.queues[i].cohort == m.queues[i].cohort)
            && w.key in m'.queues[n].parked && m'.queues[n].parked[w.key].obj == w
  {
  }

  lemma HeadParked(t: Templates) returns (evs: seq<JointEvent>, j: Joint)
    requires Usable(t)
    ensures JointRun(JOINT_START, evs, j, t) && Parked(j)
  {
    hide JointRun, DidNotFitIn, DoesNotFit, Caches.Ok, NewInfo;
    evs, j := Prepared(2, "C", "g", "C", 3, t);
    ThreeOfFour(j.cache, 2, t);
    var j0 := j;
    evs, j := RetryStep(evs, j0, 2, Asking(2), "A", t);
  }

  lemma NoReason(y: Joint, n: string, cohort: string, ask: nat, t: Templates)
    requires n in y.wake.stayed ==> y.wake.stayed[n] == {}
    requires TrialIn(n, ask) in y.found ==> y.found[TrialIn(n, ask)].DidNotFit?
    requires Caches.Ok(y.cache) && Usable(t) && n in S.Live(y.cache) && S.Live(y.cache)[n].spec == SpecIn(cohort)
    requires WithinLive(S.Live(y.cache), n, P, ask)
    ensures !HasReason(y, TrialIn(n, ask), t)
  {
    hide Caches.Ok, WithinLive, DidNotFitIn, DoesNotFit;
    FitsIff(y.cache, n, cohort, ask, t);
  }

  // ---------- quota is freed in A's cohort and A is not told ----------

  lemma LastStep(evs: seq<JointEvent>, j: Joint, e: WakeEvent, c: CacheState, t: Templates)
    returns (evs': seq<JointEvent>, y: Joint)
    requires JointRun(JOINT_START, evs, j, t) && Parked(j) && Usable(t)
    requires Enabled(j.wake, e) && !e.Heads? && !e.Retry? && Truthful(j.cache, c, Given(j.wake, e))
    requires "A" in Next(j.wake, e).m.queues && Next(j.wake, e).m.queues["A"] == j.wake.m.queues["A"]
    requires "A" in Next(j.wake, e).stayed ==> Next(j.wake, e).stayed["A"] == {}
    requires "A" in S.Live(c) && S.Live(c)["A"].spec == SpecIn("g") && WithinLive(S.Live(c), "A", P, 2)
    ensures JointRun(JOINT_START, evs', y, t) && Lost(y, "A", 2, t)
  {
    hide JointRun, Next, Enabled, HasReason, WithinLive, NoRoomier, Caches.Ok, Charging, Given;
    y := j.(cache := c, wake := Next(j.wake, e));
    RunMore(JOINT_START, evs, j, Both(e, c, false), y, t);
    evs' := evs + [Both(e, c, false)];
    NoReason(y, "A", "g", 2, t);
  }

  lemma ParkedAgrees(j: Joint)
    requires Parked(j)
    ensures Agree(j.wake.m, j.cache) && CohortsIndexed(j.wake.m)
    ensures Caches.Ok(j.cache) && j.cache.queues.Keys == {"A", "C"}
  {
    hide Caches.Ok, InPlace, NewInfo;
  }

  /** Queue C holds three units, brought two and leaves the cohort; only the cohort that it joins is flushed. */
  lemma LeftBehindIsLost(t: Templates) returns (evs: seq<JointEvent>, y: Joint)
    requires Usable(t)
    ensures JointRun(JOINT_START, evs, y, t) && Lost(y, "A", 2, t)
  {
    hide JointRun, Parked, Lost, Truthful, Next, WithinLive, Caches.Ok, S.Live, CohortsIndexed, Agree,
      Caches.UpdateQueue;
    var j;
    evs, j := HeadParked(t);
    var e := EvUpdateClusterQueue("C", "h", ALL);
    var c := Caches.UpdateQueue(j.cache, "C", SpecIn("h"), KNOWN).0;
    ParkedAgrees(j);
    Leaving(j);
    UpdateQueueTruthful(j.cache, j.wake.m, SpecIn("h"), KNOWN, e, true);
    StaysBehind(j);
    evs, y := LastStep(evs, j, Call(e, true), c, t);
  }

  lemma Leaving(j: Joint)
    requires Parked(j)
    ensures "C" in j.cache.queues && Ledgers.IntroducesOnlyUnused(j.cache.queues["C"], SpecIn("h"))
    ensures var c := Caches.UpdateQueue(j.cache, "C", SpecIn("h"), KNOWN).0;
            "A" in S.Live(c) && S.Live(c)["A"].spec == SpecIn("g") && WithinLive(S.Live(c), "A", P, 2)
  {
    hide InPlace, NewInfo, WithinLive, Caches.Ok, Ledgers.Update, Ledgers.IntroducesOnlyUnused;
    NothingNew(j.cache.queues["C"], "g", "h");
    var c := Caches.UpdateQueue(j.cache, "C", SpecIn("h"), KNOWN).0;
    Caches.UpdateQueueKeepsOkIff(j.cache, "C", SpecIn("h"), KNOWN);
    Caches.UpdatedSpec(j.cache.queues["C"], SpecIn("h"), KNOWN);
    LeftAlone(c);
  }

  lemma NothingNew(l: Ledgers.Ledger, was: string, now: string)
    requires l.spec == SpecIn(was)
    ensures Ledgers.IntroducesOnlyUnused(l, SpecIn(now))
  {
  }

  lemma LeftAlone(c: CacheState)
    requires Caches.Ok(c) && c.queues.Keys == {"A", "C"} && c.queues["A"].workloads == map[]
    requires c.queues["A"].spec == SpecIn("g") && c.queues["A"].status == Ledgers.Active
    requires c.queues["C"].spec == SpecIn("h") || c.queues["C"].status != Ledgers.Active
    ensures "A" in S.Live(c) && S.Live(c)["A"].spec == SpecIn("g") && WithinLive(S.Live(c), "A", P, 2)
  {
    hide Caches.Ok, WithinLive;
    LiveUses(c, "A", "g", 0);
    RoomAlone(S.Live(c), "A", "g", 2);
  }

  lemma StaysBehind(j: Joint)
    requires Parked(j)
    ensures var x := Next(j.wake, Call(EvUpdateClusterQueue("C", "h", ALL), true));
            && "A" in x.m.queues && x.m.queues["A"] == j.wake.m.queues["A"]
            && ("A" in x.stayed ==> x.stayed["A"] == {})
  {
    hide FlushThese, Charging, InPlace;
    var m := j.wake.m;
    var m1 := Rejoined(m, "C", "h");
    assert {"A", "C"} - {"C"} == {"A"};
    assert FlushedWith(m1, "C") == {"C"};
    FlushTheseCounters(m1, {"C"}, ALL);
  }

  /** A step that tells the manager nothing leaves A as it is. */
  lemma FreedLeaves(j: Joint, from: string)
    requires Parked(j)
    ensures var x := Next(j.wake, Freed(from));
            x.m == j.wake.m && "A" in x.m.queues && ("A" in x.stayed ==> x.stayed["A"] == {})
  {
    hide Charging, InPlace;
  }

  /** The admission of C's workload could not be written, and its quota is given back; nobody is told. */
  lemma ForgottenIsLost(t: Templates) returns (evs: seq<JointEvent>, y: Joint)
    requires Usable(t)
    ensures JointRun(JOINT_START, evs, y, t) && Lost(y, "A", 2, t)
  {
    hide JointRun, Parked, Lost, Truthful, Next, WithinLive, Caches.Ok, S.Live, CohortsIndexed, Agree, Caches.Forget;
    var j;
    evs, j := HeadParked(t);
    ParkedAgrees(j);
    Forgetting(j);
    ForgetTruthful(j.cache, Held("C", 3), "C", j.wake.m);
    FreedLeaves(j, "C");
    evs, y := LastStep(evs, j, Freed("C"), Caches.Forget(j.cache, Held("C", 3)).0, t);
  }

  lemma Forgetting(j: Joint)
    requires Parked(j)
    ensures Held("C", 3).key in j.cache.assumed && j.cache.assumed[Held("C", 3).key] == "C"
    ensures var c := Caches.Forget(j.cache, Held("C", 3)).0;
            "A" in S.Live(c) && S.Live(c)["A"].spec == SpecIn("g") && WithinLive(S.Live(c), "A", P, 2)
  {
    hide InPlace, NewInfo, WithinLive, Caches.Ok, Ledgers.DeleteWorkload, S.Live;
    var c, k := Caches.Forget(j.cache, Held("C", 3)).0, Held("C", 3).key;
    assert c.queues == j.cache.queues["C" := Ledgers.DeleteWorkload(j.cache.queues["C"], k)];
    Caches.ForgetKeepsOk(j.cache, Held("C", 3));
    hide Caches.Forget;
    DeletedSpec(j.cache.queues["C"], k);
    NothingHeld(c);
  }

  lemma NothingHeld(c: CacheState)
    requires Caches.Ok(c) && c.queues.Keys == {"A", "C"}
    requires forall n :: n in c.queues ==>
               c.queues[n].spec == SpecIn("g") && c.queues[n].status == Ledgers.Active && c.queues[n].workloads == map[]
    ensures "A" in S.Live(c) && S.Live(c)["A"].spec == SpecIn("g") && WithinLive(S.Live(c), "A", P, 2)
  {
    hide Caches.Ok, WithinLive;
    LiveUses(c, "A", "g", 0);
    LiveUses(c, "C", "g", 0);
    RoomOfTwo(S.Live(c), "A", "C", "g", 2);
  }

  /** Queue C is being deleted and leaves the snapshots, with its quota and with all that it holds; nobody is told. */
  lemma TerminatedIsLost(t: Templates) returns (evs: seq<JointEvent>, y: Joint)
    requires Usable(t)
    ensures JointRun(JOINT_START, evs, y, t) && Lost(y, "A", 2, t)
  {
    hide JointRun, Parked, Lost, Truthful, Next, WithinLive, Caches.Ok, S.Live, CohortsIndexed, Agree, Terminate;
    var j;
    evs, j := HeadParked(t);
    ParkedAgrees(j);
    Terminating(j);
    TerminateTruthful(j.cache, "C", j.wake.m);
    FreedLeaves(j, "C");
    evs, y := LastStep(evs, j, Freed("C"), Terminate(j.cache, "C"), t);
  }

  lemma Terminating(j: Joint)
    requires Parked(j)
    ensures var c := Terminate(j.cache, "C");
            "A" in S.Live(c) && S.Live(c)["A"].spec == SpecIn("g") && WithinLive(S.Live(c), "A", P, 2)
  {
    hide InPlace, NewInfo, WithinLive, Caches.Ok;
    var c := Terminate(j.cache, "C");
    TerminateKeepsOk(j.cache, "C");
    LeftAlone(c);
  }

  /** The LocalQueue of C's workload is deleted; when the workload ends, nobody in its cohort is woken. */
  lemma OrphanedReleaseIsLost(t: Templates) returns (evs: seq<JointEvent>, y: Joint)
    requires Usable(t)
    ensures JointRun(JOINT_START, evs, y, t) && Lost(y, "A", 2, t)
  {
    hide JointRun, Parked, Lost, Truthful, Next, WithinLive, Caches.Ok, S.Live, CohortsIndexed, Agree, Caches.Delete;
    var j;
    evs, j := HeadParked(t);
    var v := Held("C", 3);
    var e1, e2 := Call(EvAddLocalQueue(v.QueueKey(), "C", []), false), Call(EvDeleteLocalQueue(v.QueueKey()), false);
    var j1, j2 := CameAndWent(j);
    ParkedAgrees(j);
    SameTruthful(j.cache, {});
    RunMore(JOINT_START, evs, j, Both(e1, j.cache, false), j1, t);
    evs := evs + [Both(e1, j.cache, false)];
    RunMore(JOINT_START, evs, j1, Both(e2, j.cache, false), j2, t);
    evs := evs + [Both(e2, j.cache, false)];
    ParkedAgrees(j2);
    Ending(j2);
    DeleteTruthful(j2.cache, v, "C", j2.wake.m);
    ReleaseLeaves(j2);
    evs, y := LastStep(evs, j2, Release(v, "C", ALL), Caches.Delete(j2.cache, v, Some("C")).0, t);
  }

  lemma CameAndWent(j: Joint) returns (j1: Joint, j2: Joint)
    requires Parked(j)
    ensures var l := Held("C", 3).QueueKey();
            && j1 == j.(wake := Next(j.wake, Call(EvAddLocalQueue(l, "C", []), false)))
            && j2 == j.(wake := Next(j1.wake, Call(EvDeleteLocalQueue(l), false)))
    ensures Parked(j2)
  {
    hide Charging, Flushed, FlushedByCall, GivenByCall;
    var l := Held("C", 3).QueueKey();
    var e1, e2 := EvAddLocalQueue(l, "C", []), EvDeleteLocalQueue(l);
    j1 := j.(wake := Next(j.wake, Call(e1, false)));
    j2 := j.(wake := Next(j1.wake, Call(e2, false)));
    hide Apply, Next, InPlace, Timely;
    LocalStep(j.wake, e1);
    LocalStep(j1.wake, e2);
    LocalCameAndWent(j.wake.m, l);
  }

  lemma LocalCameAndWent(m: ManagerState, l: Name)
    requires l !in m.locals && "C" in m.queues
    ensures Apply(Apply(m, EvAddLocalQueue(l, "C", [])), EvDeleteLocalQueue(l)) == m
  {
    var m1 := Apply(m, EvAddLocalQueue(l, "C", []));
    assert ItemsOf([]) == map[];
    assert m1.queues["C"].heap == m.queues["C"].heap;
    assert m1.queues == m.queues;
    var m2 := Apply(m1, EvDeleteLocalQueue(l));
    assert m2.queues["C"].heap == m.queues["C"].heap && m2.queues["C"].parked == m.queues["C"].parked;
    assert m2.queues == m.queues && m2.locals == m.locals;
  }

  lemma LocalStep(x: Wake, ev: Event)
    requires (ev.EvAddLocalQueue? || ev.EvDeleteLocalQueue? || ev.EvUpdateLocalQueue?) && Timely(x)
    ensures var y := Next(x, Call(ev, false));
            && y.m == Apply(x.m, ev) && y.inFlight == x.inFlight && y.tried == x.tried && y.stayed == x.stayed
            && Timely(y)
  {
    hide Apply;
    assert Next(x, Call(ev, false)).stayed == x.stayed;
  }

  lemma Ending(j: Joint)
    requires Parked(j)
    ensures Held("C", 3).key in j.cache.assumed ==> j.cache.assumed[Held("C", 3).key] == "C"
    ensures var c := Caches.Delete(j.cache, Held("C", 3), Some("C")).0;
            "A" in S.Live(c) && S.Live(c)["A"].spec == SpecIn("g") && WithinLive(S.Live(c), "A", P, 2)
  {
    hide InPlace, NewInfo, WithinLive, Caches.Ok, Ledgers.DeleteWorkload, S.Live;
    var c, k := Caches.Delete(j.cache, Held("C", 3), Some("C")).0, Held("C", 3).key;
    assert c.queues == j.cache.queues["C" := Ledgers.DeleteWorkload(j.cache.queues["C"], k)];
    Caches.DeleteKeepsOk(j.cache, Held("C", 3), Some("C"));
    hide Caches.Delete;
    DeletedSpec(j.cache.queues["C"], k);
    NothingHeld(c);
  }

  lemma ReleaseLeaves(j: Joint)
    requires Parked(j)
    ensures var x := Next(j.wake, Release(Held("C", 3), "C", ALL));
            x.m == j.wake.m && "A" in x.m.queues && ("A" in x.stayed ==> x.stayed["A"] == {})
  {
    hide Charging, InPlace;
  }

  // ---------- a head that changes while it is tried ----------

  /**
   * The LocalQueue is pointed to queue B while its workload is tried in A, which is full; requeueing parks the workload
   * in B, which is empty.
   */
  lemma MovedHeadIsLost(t: Templates) returns (evs: seq<JointEvent>, y: Joint)
    requires Usable(t)
    ensures JointRun(JOINT_START, evs, y, t) && Lost(y, "B", 2, t)
  {
    hide JointRun, Truthful, Next, WithinLive, Caches.Ok, NewInfo, DidNotFitIn, DoesNotFit, HasReason;
    var j;
    evs, j := Prepared(2, "B", "", "A", 2, t);
    TwoOfTwo(j.cache, t);
    var e := Call(EvUpdateLocalQueue(Asking(2).QueueKey(), "B"), false);
    var j1 := j.(wake := Next(j.wake, e));
    Repointed(j.wake);
    SameTruthful(j.cache, {});
    RunMore(JOINT_START, evs, j, Both(e, j.cache, false), j1, t);
    evs := evs + [Both(e, j.cache, false)];
    evs, y := RetryStep(evs, j1, 2, Asking(2), "B", t);
    NoReason(y, "B", "", 2, t);
  }

  lemma TwoOfTwo(c: CacheState, t: Templates)
    requires Charging(c, {"A", "B"}, "", "A", 2) && Usable(t)
    ensures DidNotFitIn(c, TrialIn("A", 2), t)
    ensures "B" in S.Live(c) && S.Live(c)["B"].spec == SpecIn("") && WithinLive(S.Live(c), "B", P, 2)
  {
    hide Caches.Ok, NewInfo, DidNotFitIn, DoesNotFit, WithinLive;
    LiveUses(c, "A", "", 2);
    LiveUses(c, "B", "", 2);
    RoomAlone(S.Live(c), "A", "", 2);
    RoomAlone(S.Live(c), "B", "", 2);
    FitsIff(c, "A", "", 2, t);
  }

  lemma Repointed(x: Wake)
    requires Trying(x, Asking(2), "B", "")
    ensures var y := Next(x, Call(EvUpdateLocalQueue(Asking(2).QueueKey(), "B"), false));
            && y.inFlight == x.inFlight && y.tried == x.tried && y.stayed == x.stayed && Timely(y)
            && y.m == x.m.(locals := map[Asking(2).QueueKey() := LocalQueue("B", map[])])
  {
    hide Next;
    var e := EvUpdateLocalQueue(Asking(2).QueueKey(), "B");
    LocalStep(x, e);
    assert Apply(x.m, e).queues == x.m.queues;
  }

  /** The waiting workload with a raised priority. */
  function Raised(amount: nat): Workload { Asking(amount).(spec := Asking(amount).spec.(priority := 1)) }

  /** As it was, the workload had no candidates; as it is, evicting the workload that A holds makes room for it. */
  ghost predicate OnlyRaisedMayPreempt(s: Snap) {
    && "A" in s.queues && (forall v :: !IsCandidate(s, Asking(2), "A", {P}, v))
    && IsCandidate(s, Raised(2), "A", {P}, NewInfo(Held("A", 2)))
    && FitsAfter(s, Ask("A", {P}, map[P := 2], true), {NewInfo(Held("A", 2))})
  }

  /**
   * The priority of the workload is raised while it is tried in A, which is full: the newest version is parked untried,
   * and the update event finds nothing to change.
   */
  lemma RaisedHeadIsLost(t: Templates) returns (evs: seq<JointEvent>, y: Joint)
    requires Usable(t)
    ensures JointRun(JOINT_START, evs, y, t)
    ensures "A" in y.wake.m.queues && Raised(2).key in y.wake.m.queues["A"].parked
    ensures y.wake.m.queues["A"].parked[Raised(2).key].obj.spec == Raised(2).spec
    ensures !RightlyParked(y.wake, "A", Raised(2).key, Raised(2).spec)
    ensures forall s :: IsSnapshotOf(s, y.cache) ==> OnlyRaisedMayPreempt(s)
  {
    hide JointRun, Truthful, Next, Caches.Ok, NewInfo, IsSnapshotOf, OnlyRaisedMayPreempt, RaisedInA;
    var j;
    evs, j := RaisedParked(t);
    var e := Call(EvUpdateWorkload(Asking(2), Raised(2)), false);
    UpdateLeaves(j.wake);
    SameTruthful(j.cache, {});
    y := j.(wake := Next(j.wake, e));
    RunMore(JOINT_START, evs, j, Both(e, j.cache, false), y, t);
    evs := evs + [Both(e, j.cache, false)];
    forall s | IsSnapshotOf(s, y.cache) ensures OnlyRaisedMayPreempt(s) { MayPreempt(y.cache, s); }
  }

  /** The workload is parked in A with its raised priority and was tried with the old one. */
  ghost predicate RaisedInA(x: Wake) {
    && "A" in x.m.queues && Raised(2).key in x.m.queues["A"].parked
    && x.m.queues["A"].parked[Raised(2).key].obj == Raised(2)
    && x.m.locals.Keys == {Raised(2).QueueKey()} && x.m.locals[Raised(2).QueueKey()].clusterQueue == "A"
    && x.tried.Keys == {TrialIn("A", 2)} && ("A" in x.stayed ==> x.stayed["A"] == {})
  }

  lemma RaisedParked(t: Templates) returns (evs: seq<JointEvent>, j: Joint)
    requires Usable(t)
    ensures JointRun(JOINT_START, evs, j, t) && RaisedInA(j.wake) && Charging(j.cache, {"A", "B"}, "", "A", 2)
    ensures Caches.Ok(j.cache)
  {
    hide JointRun, WithinLive, Caches.Ok, NewInfo, DidNotFitIn, DoesNotFit;
    evs, j := Prepared(2, "B", "", "A", 2, t);
    TwoOfTwo(j.cache, t);
    evs, j := RetryStep(evs, j, 2, Raised(2), "A", t);
  }

  lemma UpdateLeaves(x: Wake)
    requires RaisedInA(x)
    ensures var y := Next(x, Call(EvUpdateWorkload(Asking(2), Raised(2)), false));
            && "A" in y.m.queues && Raised(2).key in y.m.queues["A"].parked
            && y.m.queues["A"].parked[Raised(2).key].obj.spec == Raised(2).spec
            && !RightlyParked(y, "A", Raised(2).key, Raised(2).spec)
  {
    var e := EvUpdateWorkload(Asking(2), Raised(2));
    assert Next(x, Call(e, false)).stayed == x.stayed;
  }

  lemma MayPreempt(c: CacheState, s: Snap)
    requires Charging(c, {"A", "B"}, "", "A", 2) && IsSnapshotOf(s, c)
    ensures OnlyRaisedMayPreempt(s)
  {
    hide Caches.Ok, FitsAfter, NewInfo, Balanced, IsCandidate;
    var v := NewInfo(Held("A", 2));
    HeldInfo("A", 2);
    assert "A" in s.queues && s.queues["A"].spec == SpecIn("") && s.queues["A"].workloads == map[v.obj.key := v];
    LiveUses(c, "A", "", 2);
    hide Charging, Charge;
    RaisedMayPreempt(s, v);
    RoomAfter(s, v);
  }

  lemma RaisedMayPreempt(s: Snap, v: Info)
    requires "A" in s.queues && s.queues["A"].spec == SpecIn("") && s.queues["A"].workloads == map[v.obj.key := v]
    requires v.obj == Held("A", 2) && v.clusterQueue == "A" && UsesAny(v, {P})
    ensures (forall u :: !IsCandidate(s, Asking(2), "A", {P}, u)) && IsCandidate(s, Raised(2), "A", {P}, v)
  {
    hide UsesAny;
  }

  lemma HeldInfo(n: string, amount: nat)
    ensures var v := NewInfo(Held(n, amount));
            v.obj == Held(n, amount) && v.clusterQueue == n && UsesAny(v, {P}) && Charge(v, P) == amount
  {
    HeldCharge(n, amount);
    var v := NewInfo(Held(n, amount));
    assert "r" in v.totalRequests[0].flavors && Pair(v.totalRequests[0].flavors["r"], "r") in {P};
  }

  lemma RoomAfter(s: Snap, v: Info)
    requires "A" in s.queues && s.queues["A"].spec == SpecIn("") && v.clusterQueue == "A"
    requires At(s.queues["A"].usage, P) == 2 == Charge(v, P)
    ensures FitsAfter(s, Ask("A", {P}, map[P := 2], true), {v})
  {
    hide Evict, Removed, Charge, WorkloadFits, SpecIn;
    EvictNone(s);
    EvictMore(s, {}, v);
    assert {} + {v} == {v};
    Emptied(s, v);
    TwoFit(ViewOf(Removed(s, v), "A"));
  }

  lemma Emptied(s: Snap, v: Info)
    requires "A" in s.queues && s.queues["A"].spec == SpecIn("") && v.clusterQueue == "A"
    requires At(s.queues["A"].usage, P) == 2 == Charge(v, P)
    ensures var s' := Removed(s, v);
            "A" in s'.queues && s'.queues["A"].spec == SpecIn("") && At(s'.queues["A"].usage, P) == 0
    ensures ViewOf(Removed(s, v), "A").cohort.None?
  {
    hide Charge;
  }

  lemma TwoFit(v: QueueView)
    requires v.spec == SpecIn("") && At(v.usage, P) == 0 && v.cohort.None?
    ensures WorkloadFits(v, map[P := 2], true)
  {
  }
}
