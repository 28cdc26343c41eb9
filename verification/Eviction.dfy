/** The snapshot after evicting a set of workloads, said without an order of removal. */
module Eviction {
  import opened Sums
  import opened Model
  import opened Ledgers
  import opened Snapshots

  ghost function SetCharges(ws: set<Info>, p: Pair): map<Info, int> {
    map t | t in ws :: Charge(t, p)
  }

  ghost function ChargeSum(ws: set<Info>, p: Pair): int { Sum(SetCharges(ws, p)) }

  ghost function From(ws: set<Info>, n: string): set<Info> {
    set t | t in ws && t.clusterQueue == n
  }

  ghost function FromCohort(s: Snap, ws: set<Info>, g: string): set<Info> {
    set t | t in ws && t.clusterQueue in s.queues && s.queues[t.clusterQueue].spec.cohort == Some(g)
  }

  ghost function KeysOf(ws: set<Info>): set<Name> { set t | t in ws :: t.obj.key }

  ghost function Lowered(u: Quantities, ws: set<Info>): Quantities {
    map p | p in u :: u[p] - ChargeSum(ws, p)
  }

  ghost function EvictedQueue(q: SnapQueue, ws: set<Info>): SnapQueue {
    q.(usage := Lowered(q.usage, ws), workloads := q.workloads - KeysOf(ws))
  }

  ghost function Evict(s: Snap, ws: set<Info>): Snap {
    Snap(map n | n in s.queues :: EvictedQueue(s.queues[n], From(ws, n)),
         map g | g in s.cohorts :: s.cohorts[g].(usage := Lowered(s.cohorts[g].usage, FromCohort(s, ws, g))))
  }

  ghost predicate PresentOne(s: Snap, t: Info) {
    && t.clusterQueue in s.queues
    && t.obj.key in s.queues[t.clusterQueue].workloads && s.queues[t.clusterQueue].workloads[t.obj.key] == t
  }

  /** The workloads are stored in the snapshot's queues, under their own keys. */
  ghost predicate Present(s: Snap, ws: set<Info>) {
    forall t :: t in ws ==> PresentOne(s, t)
  }

  // ---------- sums of charges ----------

  lemma ChargeSumPut(ws: set<Info>, t: Info, p: Pair)
    requires t !in ws
    ensures ChargeSum(ws + {t}, p) == ChargeSum(ws, p) + Charge(t, p)
  {
    SumPut(SetCharges(ws, p), t, Charge(t, p));
    assert SetCharges(ws + {t}, p) == SetCharges(ws, p)[t := Charge(t, p)];
  }

  lemma ChargeSumMonotone(ws: set<Info>, ws': set<Info>, p: Pair)
    requires ws <= ws'
    ensures 0 <= ChargeSum(ws, p) <= ChargeSum(ws', p)
  {
    SumNonNegative(SetCharges(ws, p));
    SumSubset(SetCharges(ws, p), SetCharges(ws', p));
  }

  lemma LoweredMonotone(u: Quantities, ws: set<Info>, ws': set<Info>, p: Pair)
    requires ws <= ws'
    ensures At(Lowered(u, ws'), p) <= At(Lowered(u, ws), p)
  {
    ChargeSumMonotone(ws, ws', p);
  }

  lemma LoweredPut(u: Quantities, ws: set<Info>, t: Info)
    requires t !in ws
    ensures Lowered(u, ws + {t}) == Shifted(Lowered(u, ws), t, -1)
  {
    hide ChargeSum, ChargeOf;
    forall p | p in u ensures ChargeSum(ws + {t}, p) == ChargeSum(ws, p) + Charge(t, p) {
      ChargeSumPut(ws, t, p);
    }
    IsShifted(Lowered(u, ws), t, -1, Lowered(u, ws + {t}));
  }

  lemma LoweredNone(u: Quantities)
    ensures Lowered(u, {}) == u
  {
    forall p ensures ChargeSum({}, p) == 0 {
      assert SetCharges({}, p) == map[];
    }
  }

  // ---------- one workload more, one workload less ----------

  lemma EvictNone(s: Snap)
    ensures Evict(s, {}) == s
  {
    hide Lowered, KeysOf;
    forall n | n in s.queues ensures EvictedQueue(s.queues[n], From({}, n)) == s.queues[n] {
      LoweredNone(s.queues[n].usage);
      KeysOfNone();
      assert From({}, n) == {};
      assert s.queues[n].workloads - {} == s.queues[n].workloads;
    }
    forall g | g in s.cohorts ensures Lowered(s.cohorts[g].usage, FromCohort(s, {}, g)) == s.cohorts[g].usage {
      LoweredNone(s.cohorts[g].usage);
      assert FromCohort(s, {}, g) == {};
    }
  }

  lemma KeysOfNone()
    ensures KeysOf({}) == {}
  {
  }

  lemma EvictedQueuePut(q: SnapQueue, ws: set<Info>, t: Info)
    requires t !in ws
    ensures EvictedQueue(q, ws + {t}) ==
            EvictedQueue(q, ws).(usage := Shifted(EvictedQueue(q, ws).usage, t, -1),
                                 workloads := EvictedQueue(q, ws).workloads - {t.obj.key})
  {
    hide Lowered, Shifted;
    LoweredPut(q.usage, ws, t);
    assert KeysOf(ws + {t}) == KeysOf(ws) + {t.obj.key};
    assert q.workloads - (KeysOf(ws) + {t.obj.key}) == q.workloads - KeysOf(ws) - {t.obj.key};
  }

  lemma EvictMore(s: Snap, ws: set<Info>, t: Info)
    requires t !in ws && t.clusterQueue in s.queues
    ensures Removed(Evict(s, ws), t) == Evict(s, ws + {t})
  {
    hide EvictedQueue, Lowered, Shifted;
    var e, e', r := Evict(s, ws), Evict(s, ws + {t}), Removed(Evict(s, ws), t);
    forall n | n in s.queues ensures r.queues[n] == e'.queues[n] {
      EvictMoreQueue(s, ws, t, n);
    }
    forall g | g in s.cohorts ensures r.cohorts[g] == e'.cohorts[g] {
      EvictMoreCohort(s, ws, t, g);
    }
    assert r.queues == e'.queues && r.cohorts == e'.cohorts;
  }

  lemma EvictMoreQueue(s: Snap, ws: set<Info>, t: Info, n: string)
    requires t !in ws && t.clusterQueue in s.queues && n in s.queues
    ensures Removed(Evict(s, ws), t).queues[n] == Evict(s, ws + {t}).queues[n]
  {
    hide Lowered, Shifted, KeysOf;
    if n == t.clusterQueue {
      EvictedQueuePut(s.queues[n], From(ws, n), t);
      assert From(ws + {t}, n) == From(ws, n) + {t};
    } else {
      assert From(ws + {t}, n) == From(ws, n);
    }
  }

  lemma EvictMoreCohort(s: Snap, ws: set<Info>, t: Info, g: string)
    requires t !in ws && t.clusterQueue in s.queues && g in s.cohorts
    ensures Removed(Evict(s, ws), t).cohorts[g] == Evict(s, ws + {t}).cohorts[g]
  {
    hide Lowered, Shifted, KeysOf;
    if s.queues[t.clusterQueue].spec.cohort == Some(g) {
      LoweredPut(s.cohorts[g].usage, FromCohort(s, ws, g), t);
      assert FromCohort(s, ws + {t}, g) == FromCohort(s, ws, g) + {t};
    } else {
      assert FromCohort(s, ws + {t}, g) == FromCohort(s, ws, g);
    }
  }

  lemma StillPresent(s: Snap, ws: set<Info>, t: Info)
    requires Present(s, ws) && PresentOne(s, t) && t !in ws
    ensures PresentOne(Evict(s, ws), t)
  {
    hide Lowered;
    var q := s.queues[t.clusterQueue];
    forall x | x in From(ws, t.clusterQueue) ensures x.obj.key != t.obj.key {
      assert PresentOne(s, x);
    }
  }

  lemma RemoveAdd(s: Snap, t: Info)
    requires PresentOne(s, t)
    ensures Added(Removed(s, t), t) == s
  {
    hide Shifted;
    var n, q := t.clusterQueue, s.queues[t.clusterQueue];
    UndoShift(q.usage, t);
    assert (q.workloads - {t.obj.key})[t.obj.key := t] == q.workloads;
    if q.spec.cohort.Some? && q.spec.cohort.value in s.cohorts {
      UndoShift(s.cohorts[q.spec.cohort.value].usage, t);
      assert Added(Removed(s, t), t).cohorts == s.cohorts;
    }
    assert Added(Removed(s, t), t).queues == s.queues;
  }

  lemma EvictLess(s: Snap, ws: set<Info>, t: Info)
    requires Present(s, ws) && t in ws
    ensures t.clusterQueue in s.queues && Added(Evict(s, ws), t) == Evict(s, ws - {t})
  {
    hide Evict, Removed, Added;
    assert PresentOne(s, t);
    EvictMore(s, ws - {t}, t);
    assert ws - {t} + {t} == ws;
    StillPresent(s, ws - {t}, t);
    RemoveAdd(Evict(s, ws - {t}), t);
  }
}
