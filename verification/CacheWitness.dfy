/** Runs of the cache in which a ledger, or the totals of a snapshot, stop being the sums they stand for. */
module CacheWitness {
  import opened Sums
  import opened Model
  import opened Ledgers
  import opened Caches
  import opened Snapshots

  const P := Pair("f", "r")

  /** Two units of resource r, under flavor f or under another flavor. */
  function SpecWith(flavor: string): QueueSpec {
    QueueSpec(Some("g"), [ResourceGroup({"r"}, [flavor])], map[Pair(flavor, "r") := ResourceQuota(2, None)],
              Never, Never)
  }

  const KNOWN := {"e", "f"}

  /** Admitted by queue A, holding three units of P. */
  const HELD := Workload(Name("n", "w"), Spec("q", 0, []), 0, None,
                         Some(Admission("A", [PodSetUsage("p", map["r" := "f"], map["r" := 3000])], 0)))

  lemma ThreeUnits(w: Workload)
    requires w.admission.Some? && w.admission.value.podSets == [PodSetUsage("p", map["r" := "f"], map["r" := 3000])]
    ensures Charge(NewInfo(w), P) == 3 && Charge(NewInfo(w), Pair("e", "r")) == 0
  {
    var pss := NewInfo(w).totalRequests;
    assert "r" != CPU && ResourceValue("r", 3000) == 3;
    assert NewRequests(map["r" := 3000]) == map["r" := 3];
    assert pss == [PodSetResources("p", map["r" := 3], map["r" := "f"])];
    assert pss[..0] == [] && ChargeOf(pss[..0], P) == 0 == ChargeOf(pss[..0], Pair("e", "r"));
  }

  lemma TotalOfOne(k: Name, wi: Info, p: Pair)
    ensures Total(map[k := wi], p) == Charge(wi, p)
  {
    var none: map<Name, Info> := map[];
    assert Charges(none, p) == map[];
    TotalPut(none, k, wi, p);
  }

  /** Queue A charges HELD and is active; its specification lists the one flavor. */
  ghost predicate Holding(c: CacheState, flavor: string) {
    && "A" in c.queues && c.queues["A"].spec == SpecWith(flavor) && c.queues["A"].status == Active
    && c.queues["A"].workloads == map[HELD.key := NewInfo(HELD)]
  }

  ghost predicate Fresh(c: CacheState, n: string) {
    && n in c.queues && c.queues[n].workloads == map[] && c.queues[n].spec == SpecWith("f")
    && c.queues[n].status == Active
    && P in c.queues[n].usage && HELD.key !in c.assumed
  }

  lemma AddFresh(c: CacheState, n: string)
    requires n !in c.queues && HELD.key !in c.assumed
    ensures var c' := Apply(c, OpAddQueue(n, SpecWith("f"), KNOWN, [], []));
            Fresh(c', n) && c'.queues.Keys == c.queues.Keys + {n} && c'.assumed == c.assumed
            && forall m :: m in c.queues ==> c'.queues[m] == c.queues[m]
  {
  }

  lemma AssumeHeld(c: CacheState)
    requires Fresh(c, "A")
    ensures var c' := Apply(c, OpAssume(HELD));
            && Holding(c', "f") && c'.queues.Keys == c.queues.Keys
            && forall m :: m in c.queues && m != "A" ==> c'.queues[m] == c.queues[m]
  {
    hide NewInfo;
  }

  lemma SwapFlavor(c: CacheState)
    requires Holding(c, "f")
    ensures var c' := Apply(c, OpUpdateQueue("A", SpecWith("e"), KNOWN));
            && Holding(c', "e") && c'.queues.Keys == c.queues.Keys
            && forall m :: m in c.queues && m != "A" ==> c'.queues[m] == c.queues[m]
    ensures Allowed(c, OpUpdateQueue("A", SpecWith("e"), KNOWN))
  {
    hide NewInfo, Total, Charge;
    ThreeUnits(HELD);
    TotalOfOne(HELD.key, NewInfo(HELD), Pair("e", "r"));
  }

  // ---------- a pair that is listed again ----------

  /**
   * A workload holds three units under flavor f; the queue drops the flavor and lists it again, and shows none in
   * use.
   */
  lemma RelistedPairLosesUsage() returns (ops: seq<Op>, c: CacheState)
    ensures Run(EMPTY, ops, c) && !Ok(c)
    ensures "A" in c.queues && At(c.queues["A"].usage, P) == 0 && Total(c.queues["A"].workloads, P) == 3
  {
    hide Apply, Ok, Total, Holding, Fresh;
    var o1, o2 := OpAddQueue("A", SpecWith("f"), KNOWN, [], []), OpAssume(HELD);
    var o3, o4 := OpUpdateQueue("A", SpecWith("e"), KNOWN), OpUpdateQueue("A", SpecWith("f"), KNOWN);
    var c1 := Apply(EMPTY, o1);
    var c2 := Apply(c1, o2);
    var c3 := Apply(c2, o3);
    c, ops := Apply(c3, o4), [o1, o2, o3, o4];
    AddFresh(EMPTY, "A");
    AssumeHeld(c1);
    SwapFlavor(c2);
    assert Run(EMPTY, ops, c) by { FourOps(EMPTY, o1, o2, o3, o4); }
    assert Ok(EMPTY) by { EmptyIsOk(); }
    StepKeepsOkIff(EMPTY, o1);
    StepKeepsOkIff(c1, o2);
    StepKeepsOkIff(c2, o3);
    StepKeepsOkIff(c3, o4);
    Relisted(c3);
  }

  lemma EmptyIsOk()
    ensures Ok(EMPTY)
  {
  }

  lemma FourOps(c: CacheState, o1: Op, o2: Op, o3: Op, o4: Op)
    ensures Run(c, [o1, o2, o3, o4], Apply(Apply(Apply(Apply(c, o1), o2), o3), o4))
  {
    hide Apply;
    var ops := [o1, o2, o3, o4];
    assert ops[1..] == [o2, o3, o4] && ops[1..][1..] == [o3, o4] && ops[1..][1..][1..] == [o4];
    assert ops[1..][1..][1..][1..] == [];
    var c3 := Apply(Apply(Apply(c, o1), o2), o3);
    assert Run(c3, [o4], Apply(c3, o4));
    assert Run(Apply(Apply(c, o1), o2), [o3, o4], Apply(c3, o4));
  }

  lemma Relisted(c: CacheState)
    requires Holding(c, "e") && Ok(c)
    ensures !Allowed(c, OpUpdateQueue("A", SpecWith("f"), KNOWN))
    ensures var c' := Apply(c, OpUpdateQueue("A", SpecWith("f"), KNOWN));
            "A" in c'.queues && At(c'.queues["A"].usage, P) == 0 && Total(c'.queues["A"].workloads, P) == 3
  {
    hide NewInfo, Total, Charge;
    assert Sound("A", c.queues["A"]);
    ThreeUnits(HELD);
    TotalOfOne(HELD.key, NewInfo(HELD), P);
    assert P in SpecWith("f").quotas && P !in SpecWith("e").quotas;
  }

  // ---------- a workload that holds what its queue no longer lists ----------

  /** Queue B keeps listing flavor f; A, in the same cohort, drops it while its workload holds three units. */
  lemma RemovalUnbalances() returns (ops: seq<Op>, c: CacheState)
    ensures Run(EMPTY, ops, c) && Ok(c)
    ensures forall s :: IsSnapshotOf(s, c) ==>
              "A" in s.queues && HELD.key in s.queues["A"].workloads &&
              s.queues["A"].workloads[HELD.key].clusterQueue == "A"
              && Balanced(s) && !Balanced(Removed(s, s.queues["A"].workloads[HELD.key]))
  {
    hide Apply, Ok, Holding, Fresh, Balanced, IsSnapshotOf;
    var o1, o2 := OpAddQueue("B", SpecWith("f"), KNOWN, [], []), OpAddQueue("A", SpecWith("f"), KNOWN, [], []);
    var o3, o4 := OpAssume(HELD), OpUpdateQueue("A", SpecWith("e"), KNOWN);
    var c1 := Apply(EMPTY, o1);
    var c2 := Apply(c1, o2);
    var c3 := Apply(c2, o3);
    c, ops := Apply(c3, o4), [o1, o2, o3, o4];
    AddFresh(EMPTY, "B");
    AddFresh(c1, "A");
    AssumeHeld(c2);
    SwapFlavor(c3);
    assert Run(EMPTY, ops, c) by { FourOps(EMPTY, o1, o2, o3, o4); }
    assert Ok(EMPTY) by { EmptyIsOk(); }
    StepKeepsOkIff(EMPTY, o1);
    StepKeepsOkIff(c1, o2);
    StepKeepsOkIff(c2, o3);
    StepKeepsOkIff(c3, o4);
    assert Fresh(c1, "B") && c.queues["B"] == c1.queues["B"];
    forall s | IsSnapshotOf(s, c)
      ensures "A" in s.queues && HELD.key in s.queues["A"].workloads
      ensures s.queues["A"].workloads[HELD.key].clusterQueue == "A"
              && Balanced(s) && !Balanced(Removed(s, s.queues["A"].workloads[HELD.key]))
    {
      Unbalanced(s, c, c1);
    }
  }

  lemma Unbalanced(s: Snap, c: CacheState, c1: CacheState)
    requires IsSnapshotOf(s, c) && Ok(c) && Holding(c, "e") && Fresh(c1, "B") && "B" in c.queues
    requires c.queues["B"] == c1.queues["B"]
    ensures "A" in s.queues && HELD.key in s.queues["A"].workloads
    ensures s.queues["A"].workloads[HELD.key].clusterQueue == "A"
    ensures Balanced(s) && !Balanced(Removed(s, s.queues["A"].workloads[HELD.key]))
  {
    hide NewInfo, Charge, Balanced, Moved;
    var wi := NewInfo(HELD);
    assert Sound("A", c.queues["A"]);
    assert CohortsOf(c)["A"] == Some("g") && "g" in s.cohorts;
    ThreeUnits(HELD);
    assert s.queues["A"].workloads[HELD.key] == wi;
    InCohortTracks(s);
    assert !HoldsOnlyListed(s, wi);
    MovedKeepsBalancedIff(s, wi, -1, s.queues["A"].workloads - {wi.obj.key});
  }

  lemma InCohortTracks(s: Snap)
    requires Balanced(s) && "g" in s.cohorts && "B" in s.queues && s.queues["B"].spec.cohort == Some("g")
    requires P in s.queues["B"].usage
    ensures P in s.cohorts["g"].usage
  {
    var qs := InCohort(s.queues, "g");
    assert "B" in qs && P in qs["B"].usage && Tracked(qs, P);
    assert Totals(s.cohorts["g"], qs) && TotalAt(s.cohorts["g"], qs, P);
  }
}
