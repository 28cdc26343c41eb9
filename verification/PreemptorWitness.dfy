/** A run of the cache after which a preemptor can meet a missing quota. */
module PreemptorWitness {
  import opened Sums
  import opened Model
  import Ledgers
  import Caches
  import CacheWitness
  import opened Snapshots
  import opened FlavorAssigner
  import opened Assignments
  import opened FitOrder
  import opened Preemption
  import opened BorrowCheck
  import opened Preemptor
  import SchedulingProofs
  import opened JointWitness

  /** Queue A has one unit of P and may reclaim; queue B lists the same flavor, for another resource. */
  const OWN := QueueSpec(Some("g"), [ResourceGroup({"r"}, ["f"])], map[P := ResourceQuota(1, None)], Never, Any)
  const M := Pair("f", "m")
  const OTHER := QueueSpec(Some("g"), [ResourceGroup({"m"}, ["f"])], map[M := ResourceQuota(1, None)], Never, Never)

  const ASKED := [PodSetResources("p", map["r" := 1], map[])]
  const FREE: Eligibilities := (i, f) => Eligible

  lemma BothValid()
    ensures OWN.Valid() && OTHER.Valid()
  {
    forall p: Pair ensures p in OWN.quotas <==> exists i :: 0 <= i < |OWN.groups| && GroupLists(OWN.groups[i], p) {
      if p == P { assert GroupLists(OWN.groups[0], p); }
    }
    forall p: Pair
      ensures p in OTHER.quotas <==> exists i :: 0 <= i < |OTHER.groups| && GroupLists(OTHER.groups[i], p)
    {
      if p == M { assert GroupLists(OTHER.groups[0], p); }
    }
  }

  /** A holds its one unit, B nothing. */
  ghost predicate Reached(c: Caches.CacheState) {
    && Caches.Ok(c) && c.queues.Keys == {"A", "B"} && c.queues["A"].spec == OWN && c.queues["B"].spec == OTHER
    && c.queues["A"].status == c.queues["B"].status == Ledgers.Active
    && c.queues["A"].workloads == map[Held("A", 1).key := NewInfo(Held("A", 1))]
  }

  lemma ReachedByRun() returns (ops: seq<Caches.Op>, c: Caches.CacheState)
    ensures Caches.Run(Caches.EMPTY, ops, c) && Reached(c)
  {
    hide Caches.Ok, Caches.Apply, NewInfo;
    var o1, o2 := Caches.OpAddQueue("A", OWN, KNOWN, [], []), Caches.OpAddQueue("B", OTHER, KNOWN, [], []);
    var o3 := Caches.OpAssume(Held("A", 1));
    var c1 := Caches.Apply(Caches.EMPTY, o1);
    var c2 := Caches.Apply(c1, o2);
    ops, c := [o1, o2, o3], Caches.Apply(c2, o3);
    assert ops[1..] == [o2, o3] && ops[1..][1..] == [o3] && ops[1..][1..][1..] == [];
    assert Caches.Run(c, [], c) && Caches.Run(c2, [o3], c) && Caches.Run(c1, [o2, o3], c);
    CacheWitness.EmptyIsOk();
    AddedFresh(Caches.EMPTY, "A", OWN);
    AddedFresh(c1, "B", OTHER);
    AssumedInA(c2);
  }

  /** A new queue holds nothing. */
  lemma AddedFresh(c: Caches.CacheState, n: string, spec: QueueSpec)
    requires Caches.Ok(c) && n !in c.queues && c.assumed == map[] && (spec == OWN || spec == OTHER)
    ensures var c' := Caches.Apply(c, Caches.OpAddQueue(n, spec, KNOWN, [], []));
            && Caches.Ok(c') && c'.queues.Keys == c.queues.Keys + {n} && c'.assumed == map[]
            && c'.queues[n].spec == spec && c'.queues[n].status == Ledgers.Active && c'.queues[n].workloads == map[]
            && forall m :: m in c.queues ==> c'.queues[m] == c.queues[m]
  {
    hide Caches.Ok;
    Caches.AddQueueKeepsOk(c, n, spec, KNOWN, [], []);
  }

  lemma AssumedInA(c: Caches.CacheState)
    requires Caches.Ok(c) && c.queues.Keys == {"A", "B"} && c.assumed == map[] && c.queues["A"].workloads == map[]
    ensures var c' := Caches.Apply(c, Caches.OpAssume(Held("A", 1)));
            && Caches.Ok(c') && c'.queues.Keys == c.queues.Keys && c'.queues["B"] == c.queues["B"]
            && c'.queues["A"].spec == c.queues["A"].spec && c'.queues["A"].status == c.queues["A"].status
            && c'.queues["A"].workloads == map[Held("A", 1).key := NewInfo(Held("A", 1))]
  {
    hide Caches.Ok, NewInfo, Ledgers.Shifted;
    Caches.AssumeKeepsOk(c, Held("A", 1));
  }

  lemma Members(c: Caches.CacheState, s: Snap)
    requires Reached(c) && IsSnapshotOf(s, c)
    ensures s.queues.Keys == {"A", "B"} && s.queues["A"].spec == OWN && s.queues["B"].spec == OTHER && SnapOk(s)
    ensures "g" in s.cohorts && InCohort(s.queues, "g") == s.queues && "B" in s.cohorts["g"].members
    ensures TotalAt(s.cohorts["g"], s.queues, P)
    ensures s.queues["A"].usage == c.queues["A"].usage && s.queues["B"].usage == c.queues["B"].usage
  {
    hide Caches.Ok, NewInfo, TotalAt, QueueOk;
    SnapshotOk(s, c);
    assert s.queues["A"].spec.cohort == Some("g") && "g" in s.cohorts;
    assert InCohort(s.queues, "g") == s.queues;
    assert Totals(s.cohorts["g"], InCohort(s.queues, "g"));
  }

  lemma ViewOfA(c: Caches.CacheState, s: Snap)
    requires Reached(c) && IsSnapshotOf(s, c)
    ensures s.queues.Keys == {"A", "B"} && s.queues["A"].spec == OWN && s.queues["B"].spec == OTHER && SnapOk(s)
    ensures "g" in s.cohorts && "B" in s.cohorts["g"].members
    ensures ViewOf(s, "A").spec == OWN && !WithinLimits(ViewOf(s, "A"), P, 1)
  {
    hide Caches.Ok, NewInfo, Sum, SnapOk, Balanced, Caches.Sound;
    Members(c, s);
    assert Caches.Sound("A", c.queues["A"]) && Caches.Sound("B", c.queues["B"]) by { SoundQueues(c); }
    LedgerUses("A", c.queues["A"], 1);
    Unlisted("B", c.queues["B"]);
    SumOfTwo(UsageOf(s.queues, P), "A", "B");
    SumOfTwo(NominalOf(s.queues, P), "A", "B");
  }

  lemma Unlisted(n: string, l: Ledgers.Ledger)
    requires Caches.Sound(n, l) && P !in l.spec.quotas
    ensures At(l.usage, P) == 0
  {
  }

  lemma SoundQueues(c: Caches.CacheState)
    requires Caches.Ok(c)
    ensures forall n :: n in c.queues ==> Caches.Sound(n, c.queues[n])
  {
  }

  lemma GapInB(s: Snap) returns (order: seq<Pair>)
    requires "B" in s.queues && s.queues["B"].spec == OTHER
    ensures CanMiss(s.queues["B"], {P}) && PairsIn(order) == {P} && CheckBorrowing(s.queues["B"], order) == Missing
  {
    var q := s.queues["B"];
    assert OTHER.groups[1..] == [] && FlavorsOf(OTHER.groups) == ["f"];
    assert P in {P} && P.flavor == "f" && P !in OTHER.quotas;
    assert GapBefore(q, {P}, ["f"], 0);
    order := MissingHappens(q, {P});
  }

  /**
   * Valid queues of a reachable cache can break the check: A is full and a workload of A needs preemption, and for some
   * order of the checks the preemptor reads a quota that B does not have.
   */
  lemma CheckCanPanic() returns (ops: seq<Caches.Op>, c: Caches.CacheState, s: Snap, a: Assignment, order: seq<Pair>)
    ensures Caches.Run(Caches.EMPTY, ops, c) && IsSnapshotOf(s, c) && SnapOk(s) && SpecsValid(s)
    ensures "A" in s.queues && IsAssignment(a, ViewOf(s, "A"), ASKED, FREE) && RepresentativeMode(a) == Mode.Preempt
    ensures CanPanic(s, "A", NeededBy(a)) && "B" in s.queues
    ensures PairsIn(order) == NeededBy(a) && CheckBorrowing(s.queues["B"], order) == Missing
  {
    hide Caches.Run, Reached, Balanced, SnapOk, IsAssignment, RepresentativeMode, WithinLimits, CheckBorrowing, CanMiss,
      QueueSpec.Valid, NeededBy;
    ops, c := ReachedByRun();
    s := SnapshotExists(c);
    ViewOfA(c, s);
    BothValid();
    a := AssignmentExists(ViewOf(s, "A"), ASKED, FREE);
    OneAskFitsIff(a, ViewOf(s, "A"), ASKED[0], FREE, "f", "r");
    NeedsP(a);
    order := GapInB(s);
  }

  lemma NeedsP(a: Assignment)
    requires |a.podSets| == 1 && a.podSets[0].flavors.Keys == {"r"}
    requires a.podSets[0].flavors["r"].name == "f" && a.podSets[0].flavors["r"].mode == Mode.Preempt
    ensures NeededBy(a) == {P}
  {
    assert IsNeeded(a, P);
  }
}
