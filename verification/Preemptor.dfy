/** The preemptor's procedures, working in place on a Snapshot object. */
module Preemptor {
  import opened Sums
  import opened Model
  import opened Snapshots
  import opened FlavorAssigner
  import opened Assignments
  import opened AssignmentProofs
  import opened Eviction
  import opened Preemption
  import opened BorrowCheck
  import opened PreemptionTargets

  // ---------- minimalPreemptions ----------

  lemma SwapOut(ws: seq<Info>, i: nat)
    requires NoDuplicates(ws) && i < |ws| - 1
    ensures var ws' := ws[i := ws[|ws| - 1]][..|ws| - 1];
            NoDuplicates(ws') && Elems(ws') == Elems(ws) - {ws[i]} && ws'[..i] == ws[..i]
  {
    var ws' := ws[i := ws[|ws| - 1]][..|ws| - 1];
    forall t | t in ws && t != ws[i] ensures t in ws' {
      var j :| 0 <= j < |ws| && ws[j] == t;
      assert ws'[if j == |ws| - 1 then i else j] == t;
    }
  }

  /** Some candidate of another queue can make the check meet a missing quota. */
  ghost predicate GapAmong(s: Snap, a: Ask, cands: seq<Info>) {
    exists t :: t in cands && t.clusterQueue != a.queue && t.clusterQueue in s.queues
                && HasGap(s.queues[t.clusterQueue].spec, a.needed)
  }

  /**
   * The first loop: candidates leave the snapshot until the request fits. A missing quota ends the loop, and the cycle,
   * with a panic.
   */
  method TakeOut(snapshot: Snapshot, a: Ask, cands: seq<Info>) returns (targets: seq<Info>, fits: bool, panics: bool)
    requires a.queue in snapshot.queues && NoDuplicates(cands) && Present(snapshot.View(), Elems(cands))
    requires SpecsValid(snapshot.View())
    modifies snapshot
    ensures !panics ==> (targets, fits) == Scan(old(snapshot.View()), a, cands, [])
    ensures panics ==> GapAmong(old(snapshot.View()), a, cands)
    ensures Elems(targets) <= Elems(cands) && NoDuplicates(targets)
    ensures snapshot.View() == Evict(old(snapshot.View()), Elems(targets))
  {
    hide WorkloadFits, IsBorrowing, CheckBorrowing, CanMiss, HasGap, QueueSpec.Valid, Evict, Removed;
    ghost var s := snapshot.View();
    targets, fits, panics := [], false, false;
    EvictNone(s);
    assert Elems(targets) == {};
    for i := 0 to |cands|
      invariant Elems(targets) <= Elems(cands[..i]) && NoDuplicates(targets) && !fits && !panics
      invariant snapshot.View() == Evict(s, Elems(targets))
      invariant Scan(s, a, cands, []) == Scan(s, a, cands[i..], targets)
    {
      var cand := cands[i];
      assert cand in Elems(cands) && PresentOne(s, cand);
      QueuesOfEvict(s, Elems(targets));
      assert cands[i..][0] == cand && cands[i..][1..] == cands[i + 1..] && cands[..i + 1] == cands[..i] + [cand];
      if cand.clusterQueue != a.queue {
        EvictedSpec(s, Elems(targets), cand.clusterQueue);
        var check := ChecksBorrowing(snapshot.queues[cand.clusterQueue], a.needed);
        if check == Missing {
          CanMissHasGap(snapshot.queues[cand.clusterQueue], a.needed);
          return targets, false, true;
        }
        if check != Exceeds {
          continue;
        }
      }
      assert cand !in Elems(cands[..i]);
      EvictMore(s, Elems(targets), cand);
      ElemsPut(targets, cand);
      QueuesOfEvict(s, Elems(targets) + {cand});
      snapshot.RemoveWorkload(cand);
      targets := targets + [cand];
      if WorkloadFits(ViewOf(snapshot.View(), a.queue), a.request, a.borrowing) {
        return targets, true, false;
      }
    }
  }

  /** The check in whatever order the maps are visited. */
  method ChecksBorrowing(q: SnapQueue, needed: set<Pair>) returns (r: Check)
    requires q.spec.Valid()
    ensures r == Missing ==> CanMiss(q, needed)
    ensures r != Missing ==> (r == Exceeds <==> IsBorrowing(q, needed))
  {
    hide QueueSpec.Valid, CheckBorrowing, CanMiss, IsBorrowing;
    var order := AnyOrder(needed);
    r := CqIsBorrowing(q, order);
  }

  /** The reverse loop, with O(1) deletion: the last target overwrites the one that is given back. */
  method GiveBack(snapshot: Snapshot, a: Ask, ghost s: Snap, picked: seq<Info>) returns (targets: seq<Info>)
    requires a.queue in s.queues && NoDuplicates(picked) && picked != [] && Present(s, Elems(picked))
    requires snapshot.View() == Evict(s, Elems(picked))
    modifies snapshot
    ensures NoDuplicates(targets) && Elems(targets) <= Elems(picked)
    ensures Elems(targets) == AddBack(s, a, picked[..|picked| - 1], Elems(picked))
    ensures snapshot.View() == Evict(s, Elems(targets))
  {
    hide WorkloadFits, Evict, Removed, Added, NoDuplicates;
    targets := picked;
    var i := |picked| - 2;
    while i >= 0
      invariant -1 <= i <= |targets| - 2 && NoDuplicates(targets) && Elems(targets) <= Elems(picked)
      invariant i < |picked| && targets[..i + 1] == picked[..i + 1]
      invariant snapshot.View() == Evict(s, Elems(targets))
      invariant AddBack(s, a, picked[..|picked| - 1], Elems(picked)) == AddBack(s, a, picked[..i + 1], Elems(targets))
    {
      ghost var ws := Elems(targets);
      var t := targets[i];
      assert t == targets[..i + 1][i] == picked[..i + 1][i];
      assert picked[..i + 1][..i] == picked[..i] && targets[..i] == targets[..i + 1][..i];
      EvictLess(s, ws, t);
      QueuesOfEvict(s, ws);
      QueuesOfEvict(s, ws - {t});
      snapshot.AddWorkload(t);
      if WorkloadFits(ViewOf(snapshot.View(), a.queue), a.request, a.borrowing) {
        SwapOut(targets, i);
        targets := targets[i := targets[|targets| - 1]];
        targets := targets[..|targets| - 1];
      } else {
        EvictMore(s, ws - {t}, t);
        assert ws - {t} + {t} == ws;
        snapshot.RemoveWorkload(t);
      }
      i := i - 1;
    }
    assert picked[..0] == [];
  }

  lemma EvictedSpec(s: Snap, ws: set<Info>, n: string)
    requires n in s.queues
    ensures n in Evict(s, ws).queues && Evict(s, ws).queues[n].spec == s.queues[n].spec
  {
  }

  lemma QueuesOfEvict(s: Snap, ws: set<Info>)
    ensures Evict(s, ws).queues.Keys == s.queues.Keys
  {
  }

  method PutBack(snapshot: Snapshot, ghost s: Snap, targets: seq<Info>)
    requires NoDuplicates(targets) && Present(s, Elems(targets)) && snapshot.View() == Evict(s, Elems(targets))
    modifies snapshot
    ensures snapshot.View() == s
  {
    hide Evict, Added;
    assert targets[0..] == targets;
    for j := 0 to |targets|
      invariant snapshot.View() == Evict(s, Elems(targets[j..]))
    {
      ghost var ws := Elems(targets[j..]);
      assert targets[j] in targets[j..] && PresentOne(s, targets[j]);
      assert ws - {targets[j]} == Elems(targets[j + 1..]);
      EvictLess(s, ws, targets[j]);
      QueuesOfEvict(s, ws);
      snapshot.AddWorkload(targets[j]);
    }
    assert Elems(targets[|targets|..]) == {};
    EvictNone(s);
  }

  /** Without a panic the snapshot ends as it began, and the targets are the set that the plain search selects. */
  method MinimalPreemptions(snapshot: Snapshot, a: Ask, cands: seq<Info>) returns (targets: seq<Info>, panics: bool)
    requires a.queue in snapshot.queues && NoDuplicates(cands) && Present(snapshot.View(), Elems(cands))
    requires SpecsValid(snapshot.View())
    modifies snapshot
    ensures panics ==> GapAmong(old(snapshot.View()), a, cands)
    ensures !panics ==> snapshot.View() == old(snapshot.View())
    ensures !panics ==> NoDuplicates(targets) && Elems(targets) == Selected(old(snapshot.View()), a, cands)
  {
    hide Scan, AddBack, Evict, GapAmong, QueueSpec.Valid;
    ghost var s := snapshot.View();
    var picked, fits;
    picked, fits, panics := TakeOut(snapshot, a, cands);
    targets := [];
    if panics {
      return;
    }
    if !fits {
      PutBack(snapshot, s, picked);
      assert Elems(targets) == {};
      return;
    }
    ScanStops(s, a, cands, []);
    targets := GiveBack(snapshot, a, s, picked);
    PutBack(snapshot, s, targets);
  }

  // ---------- findCandidates ----------

  lemma PresentByKey(s: Snap, n: string, k: Name)
    requires SnapOk(s) && n in s.queues && k in s.queues[n].workloads
    ensures PresentOne(s, s.queues[n].workloads[k]) && s.queues[n].workloads[k].clusterQueue == n
    ensures s.queues[n].workloads[k].obj.key == k
  {
    assert QueueOk(n, s.queues[n]);
  }

  /** Appends the workloads of one queue that pass a policy and use a needed pair. */
  method CollectFrom(ghost s: Snap, n: string, q: SnapQueue, needed: set<Pair>, allowed: Workload -> bool,
                     found: seq<Info>)
    returns (cands: seq<Info>)
    requires SnapOk(s) && n in s.queues && s.queues[n] == q
    requires NoDuplicates(found) && forall t :: t in found ==> t.clusterQueue != n
    ensures NoDuplicates(cands)
    ensures forall t :: t in cands <==>
              t in found || (PresentOne(s, t) && t.clusterQueue == n && allowed(t.obj) && UsesAny(t, needed))
  {
    hide UsesAny;
    cands := found;
    var todo := q.workloads.Keys;
    while todo != {}
      invariant todo <= q.workloads.Keys && NoDuplicates(cands)
      invariant forall t :: t in cands <==>
                  t in found ||
                  (PresentOne(s, t) && t.clusterQueue == n && t.obj.key !in todo &&
                   allowed(t.obj) && UsesAny(t, needed))
      decreases todo
    {
      var k :| k in todo;
      var t := q.workloads[k];
      PresentByKey(s, n, k);
      if allowed(t.obj) && UsesAny(t, needed) {
        cands := cands + [t];
      }
      todo := todo - {k};
    }
  }

  /** The check of some other member of the cohort can meet a missing quota. */
  ghost predicate CanPanic(s: Snap, n: string, needed: set<Pair>)
    requires n in s.queues
  {
    var spec := s.queues[n].spec;
    && spec.cohort.Some? && spec.cohort.value in s.cohorts && spec.reclaim != Never
    && exists m :: m in s.cohorts[spec.cohort.value].members - {n} && m in s.queues && CanMiss(s.queues[m], needed)
  }

  /**
   * Finds the candidates and, when the policy allows reclaiming, drops the queue from its cohort's member set. Every
   * other member is checked, and a missing quota ends in a panic.
   */
  method FindCandidates(snapshot: Snapshot, wl: Workload, n: string, needed: set<Pair>)
    returns (cands: seq<Info>, panics: bool)
    requires SnapOk(snapshot.View()) && n in snapshot.queues && SpecsValid(snapshot.View())
    modifies snapshot
    ensures snapshot.View() == WithoutMember(old(snapshot.View()), n)
    ensures panics ==> CanPanic(old(snapshot.View()), n, needed)
    ensures !panics ==>
              NoDuplicates(cands) && forall t :: t in cands <==> IsCandidate(old(snapshot.View()), wl, n, needed, t)
  {
    hide UsesAny, IsBorrowing, CanMiss, QueueSpec.Valid;
    ghost var s := snapshot.View();
    var q := snapshot.queues[n];
    var policy := q.spec.withinQueue;
    cands := CollectFrom(s, n, q, needed, t => MayPreemptOwn(policy, wl, t), []);
    panics := false;
    if q.spec.cohort.Some? && q.spec.reclaim != Never {
      var g := q.spec.cohort.value;
      assert QueueOk(n, q) && g in snapshot.cohorts;
      snapshot.cohorts := snapshot.cohorts[g := snapshot.cohorts[g].(members := snapshot.cohorts[g].members - {n})];
      var reclaim := q.spec.reclaim;
      ghost var own := cands;
      var todo := snapshot.cohorts[g].members;
      while todo != {}
        invariant snapshot.View() == WithoutMember(s, n) && !panics
        invariant todo <= s.cohorts[g].members - {n} && NoDuplicates(cands)
        invariant forall t :: t in cands <==>
                    t in own || (t.clusterQueue !in todo && t.clusterQueue != n && IsCandidate(s, wl, n, needed, t))
        decreases todo
      {
        var m :| m in todo;
        assert m in s.queues && snapshot.queues[m] == s.queues[m];
        var check := ChecksBorrowing(snapshot.queues[m], needed);
        if check == Missing {
          return cands, true;
        }
        if check == Exceeds {
          cands := CollectFrom(s, m, snapshot.queues[m], needed, t => MayReclaim(reclaim, wl, t), cands);
        }
        todo := todo - {m};
      }
    }
  }

  // ---------- ordering the candidates ----------

  function AdmissionTime(w: Workload, now: int): int {
    if w.admission.Some? then w.admission.value.time else now
  }

  /** Other queues first, then lower priority, then earlier admission. */
  predicate Before(x: Info, y: Info, n: string, now: int) {
    if (x.clusterQueue == n) != (y.clusterQueue == n) then x.clusterQueue != n
    else if x.obj.spec.priority != y.obj.spec.priority then x.obj.spec.priority < y.obj.spec.priority
    else AdmissionTime(x.obj, now) < AdmissionTime(y.obj, now)
  }

  predicate Ordered(ws: seq<Info>, n: string, now: int) {
    forall i, j | 0 <= i < j < |ws| :: !Before(ws[j], ws[i], n, now)
  }

  /** sort.Slice: any ordered permutation will do; only this contract is used. */
  method SortCandidates(cands: seq<Info>, n: string, now: int) returns (r: seq<Info>)
    requires NoDuplicates(cands)
    ensures Ordered(r, n, now) && NoDuplicates(r) && Elems(r) == Elems(cands) && |r| == |cands|
  {
    r := [];
    for i := 0 to |cands|
      invariant Ordered(r, n, now) && NoDuplicates(r) && Elems(r) == Elems(cands[..i]) && |r| == i
    {
      assert cands[..i + 1] == cands[..i] + [cands[i]];
      ElemsPut(cands[..i], cands[i]);
      assert cands[i] !in cands[..i] && cands[i] !in Elems(r);
      r := InsertOrdered(r, cands[i], n, now);
    }
    assert cands[..|cands|] == cands;
  }

  method InsertOrdered(ws: seq<Info>, t: Info, n: string, now: int) returns (r: seq<Info>)
    requires Ordered(ws, n, now) && NoDuplicates(ws) && t !in Elems(ws)
    ensures Ordered(r, n, now) && NoDuplicates(r) && Elems(r) == Elems(ws) + {t} && |r| == |ws| + 1
  {
    var k := |ws|;
    while k > 0 && Before(t, ws[k - 1], n, now)
      invariant 0 <= k <= |ws|
      invariant forall j :: k <= j < |ws| ==> Before(t, ws[j], n, now)
    {
      k := k - 1;
    }
    r := ws[..k] + [t] + ws[k..];
    forall j | 0 <= j < k ensures !Before(t, ws[j], n, now) {
      assert j < k - 1 ==> !Before(ws[k - 1], ws[j], n, now);
    }
    assert Elems(r) == Elems(ws) + {t} by {
      hide Before;
      assert ws == ws[..k] + ws[k..];
    }
  }

  // ---------- requests and needs of an assignment ----------

  /** The assigner marked the pair as obtainable by preemption only. */
  ghost predicate IsNeeded(a: Assignment, p: Pair) {
    exists i ::
      0 <= i < |a.podSets| && Assigns(a.podSets[i], p) && a.podSets[i].flavors[p.resource].mode == Mode.Preempt
  }

  ghost function NeededBy(a: Assignment): (r: set<Pair>)
    ensures forall p :: p in r <==> IsNeeded(a, p)
  {
    set i, res | 0 <= i < |a.podSets| && res in a.podSets[i].flavors && a.podSets[i].flavors[res].mode == Mode.Preempt
      :: Pair(a.podSets[i].flavors[res].name, res)
  }

  method ResourcesRequiringPreemption(a: Assignment) returns (needed: set<Pair>)
    ensures forall p :: p in needed <==> IsNeeded(a, p)
    ensures needed == NeededBy(a)
  {
    needed := {};
    for i := 0 to |a.podSets|
      invariant forall p :: p in needed <==>
                  exists j ::
                    0 <= j < i && Assigns(a.podSets[j], p) && a.podSets[j].flavors[p.resource].mode == Mode.Preempt
    {
      var flavors := a.podSets[i].flavors;
      needed := needed + set r | r in flavors && flavors[r].mode == Mode.Preempt :: Pair(flavors[r].name, r);
    }
  }

  /** The workload's requests, resource by resource, under the flavors of the assignment. */
  ghost predicate Matches(wl: Info, a: Assignment) {
    && |a.podSets| == |wl.totalRequests|
    && forall i :: 0 <= i < |a.podSets| ==>
         a.podSets[i].requests == wl.totalRequests[i].requests &&
         a.podSets[i].flavors.Keys == a.podSets[i].requests.Keys
  }

  method TotalRequestsForAssignment(wl: Info, a: Assignment) returns (req: Quantities)
    requires Matches(wl, a)
    ensures req == TallyUsage(a.podSets)
  {
    hide AppendUsage;
    req := map[];
    for i := 0 to |wl.totalRequests|
      invariant req == TallyUsage(a.podSets[..i])
    {
      req := AddRequests(req, wl.totalRequests[i].requests, a.podSets[i]);
      assert a.podSets[..i + 1][..i] == a.podSets[..i];
    }
    assert a.podSets[..|a.podSets|] == a.podSets;
  }

  method AddRequests(u: Quantities, requests: Requests, ps: PodSetAssignment) returns (r: Quantities)
    requires ps.requests == requests && ps.flavors.Keys == requests.Keys
    ensures r == AppendUsage(u, ps)
  {
    hide AppendUsage;
    r := u;
    var todo := requests.Keys;
    AppendNothing(u, map[], ps.(flavors := ps.flavors - todo));
    while todo != {}
      invariant todo <= requests.Keys
      invariant r == AppendUsage(u, ps.(flavors := ps.flavors - todo))
      decreases todo
    {
      var res :| res in todo;
      var p := Pair(ps.flavors[res].name, res);
      AppendUsageStep(u, ps.(flavors := ps.flavors - todo), res, ps.flavors[res]);
      assert (ps.flavors - todo)[res := ps.flavors[res]] == ps.flavors - (todo - {res});
      r := r[p := At(r, p) + requests[res]];
      todo := todo - {res};
    }
    assert ps.flavors - {} == ps.flavors;
  }

  method CandidatesOnlyFromQueue(cands: seq<Info>, n: string) returns (own: seq<Info>)
    ensures own == OwnOnly(cands, n)
  {
    own := [];
    for i := 0 to |cands|
      invariant own == OwnOnly(cands[..i], n)
    {
      assert cands[..i + 1][..i] == cands[..i];
      if cands[i].clusterQueue == n {
        own := own + [cands[i]];
      }
    }
    assert cands[..|cands|] == cands;
  }

  // ---------- Do ----------

  /** Another queue of the cohort that n may reclaim from lists a needed flavor without a needed resource. */
  ghost predicate GapNearby(s: Snap, n: string, needed: set<Pair>)
    requires n in s.queues
  {
    var spec := s.queues[n].spec;
    && spec.cohort.Some? && spec.reclaim != Never
    && exists m :: m in s.queues && m != n && s.queues[m].spec.cohort == spec.cohort && HasGap(s.queues[m].spec, needed)
  }

  /** findCandidates can panic if and only if the check of some other member does, in some order of the needed pairs. */
  lemma CanPanicIff(s: Snap, n: string, needed: set<Pair>)
    requires n in s.queues
    ensures var spec := s.queues[n].spec;
            CanPanic(s, n, needed) <==>
            && spec.cohort.Some? && spec.cohort.value in s.cohorts && spec.reclaim != Never
            && exists m, order :: m in s.cohorts[spec.cohort.value].members - {n} && m in s.queues
                                  && PairsIn(order) == needed && CheckBorrowing(s.queues[m], order) == Missing
  {
    hide CanMiss, CheckBorrowing, PairsIn;
    forall m | m in s.queues
      ensures CanMiss(s.queues[m], needed) <==>
              exists order :: PairsIn(order) == needed && CheckBorrowing(s.queues[m], order) == Missing
    {
      MissesIff(s.queues[m], needed);
    }
  }

  lemma PanicNeedsGap(s: Snap, n: string, needed: set<Pair>)
    requires SnapOk(s) && n in s.queues && CanPanic(s, n, needed)
    ensures GapNearby(s, n, needed)
  {
    hide CanMiss, HasGap, QueueOk;
    var m :| m in s.cohorts[s.queues[n].spec.cohort.value].members - {n} && m in s.queues
             && CanMiss(s.queues[m], needed);
    CanMissHasGap(s.queues[m], needed);
  }

  lemma GapOfCandidates(s: Snap, s': Snap, wl: Workload, a: Ask, cands: seq<Info>)
    requires SnapOk(s) && s'.queues == s.queues && a.queue in s.queues && GapAmong(s', a, cands)
    requires forall t :: t in cands ==> IsCandidate(s, wl, a.queue, a.needed, t)
    ensures GapNearby(s, a.queue, a.needed)
  {
    hide HasGap, QueueOk, UsesAny, IsBorrowing;
    var t :| t in cands && t.clusterQueue != a.queue && t.clusterQueue in s'.queues
             && HasGap(s'.queues[t.clusterQueue].spec, a.needed);
    assert IsCandidate(s, wl, a.queue, a.needed, t);
  }

  /** The targets for a workload; all that changes in the snapshot is that the cohort may lose the queue as a member. */
  method Do(snapshot: Snapshot, wl: Info, a: Assignment, now: int)
    returns (targets: seq<Info>, panics: bool, ghost ask: Ask, ghost cands: seq<Info>)
    requires SnapOk(snapshot.View()) && wl.clusterQueue in snapshot.queues && Matches(wl, a)
    requires SpecsValid(snapshot.View())
    modifies snapshot
    ensures panics ==> GapNearby(old(snapshot.View()), wl.clusterQueue, NeededBy(a))
    ensures ask.queue == wl.clusterQueue && ask.request == TallyUsage(a.podSets) && ask.needed == NeededBy(a)
    ensures !panics ==>
              && snapshot.View() == WithoutMember(old(snapshot.View()), wl.clusterQueue)
              && NoDuplicates(cands) && Ordered(cands, wl.clusterQueue, now)
              && (forall t :: t in cands <==>
                    IsCandidate(old(snapshot.View()), wl.obj, wl.clusterQueue, ask.needed, t))
              && NoDuplicates(targets) && Elems(targets) == Targets(snapshot.View(), ask, cands)
  {
    hide NeededBy, TallyUsage, UsesAny, CanPanic, GapNearby, GapAmong, QueueSpec.Valid, Ordered, Targets, IsCandidate,
      SnapOk, WithoutMember;
    ghost var s := snapshot.View();
    var needed := ResourcesRequiringPreemption(a);
    var request := TotalRequestsForAssignment(wl, a);
    var asked := Ask(wl.clusterQueue, needed, request, true);
    ask, targets, cands := asked, [], [];
    var found;
    found, panics := FindCandidates(snapshot, wl.obj, wl.clusterQueue, needed);
    if panics {
      PanicNeedsGap(s, wl.clusterQueue, needed);
      return;
    }
    var sorted := SortCandidates(found, wl.clusterQueue, now);
    cands := sorted;
    SameElems(sorted, found);
    StillOk(s, wl.clusterQueue);
    CandidatesPresent(s, snapshot.View(), wl, needed, sorted);
    targets, panics := Attempts(snapshot, asked, sorted);
    if panics {
      GapOfCandidates(s, WithoutMember(s, wl.clusterQueue), wl.obj, ask, sorted);
    }
  }

  lemma SameElems(xs: seq<Info>, ys: seq<Info>)
    requires Elems(xs) == Elems(ys)
    ensures forall t :: t in xs <==> t in ys
  {
    assert forall t :: t in xs <==> t in Elems(xs);
    assert forall t :: t in ys <==> t in Elems(ys);
  }

  lemma CandidatesPresent(s: Snap, s': Snap, wl: Info, needed: set<Pair>, cands: seq<Info>)
    requires wl.clusterQueue in s.queues && s'.queues == s.queues
    requires forall t :: t in cands ==> IsCandidate(s, wl.obj, wl.clusterQueue, needed, t)
    ensures Present(s', Elems(cands))
  {
    hide UsesAny, IsBorrowing;
    forall t | t in Elems(cands) ensures PresentOne(s', t) {
      assert IsCandidate(s, wl.obj, wl.clusterQueue, needed, t);
    }
  }

  /** With candidates of other queues, first without borrowing, and then with borrowing but the own candidates only. */
  method Attempts(snapshot: Snapshot, a: Ask, cands: seq<Info>) returns (targets: seq<Info>, panics: bool)
    requires a.queue in snapshot.queues && NoDuplicates(cands) && Present(snapshot.View(), Elems(cands))
    requires SpecsValid(snapshot.View())
    modifies snapshot
    ensures panics ==> GapAmong(old(snapshot.View()), a, cands)
    ensures !panics ==> snapshot.View() == old(snapshot.View())
    ensures !panics ==> NoDuplicates(targets) && Elems(targets) == Targets(old(snapshot.View()), a, cands)
  {
    hide Selected, HasGap, QueueSpec.Valid;
    var own := CandidatesOnlyFromQueue(cands, a.queue);
    OwnOnlyElems(cands, a.queue);
    OwnOnlyNoDuplicates(cands, a.queue);
    if |own| == |cands| {
      targets, panics := MinimalPreemptions(snapshot, a.(borrowing := true), cands);
    } else {
      targets, panics := MinimalPreemptions(snapshot, a.(borrowing := false), cands);
      if panics {
        return;
      }
      if |targets| == 0 {
        assert Elems(targets) == {};
        targets, panics := MinimalPreemptions(snapshot, a.(borrowing := true), own);
      } else {
        assert targets[0] in Elems(targets);
      }
    }
  }

  /** A target of another queue goes while its queue is over nominal, with the targets before it gone. */
  ghost predicate GuardedAt(s: Snap, ask: Ask, cands: seq<Info>, i: nat)
    requires i < |cands|
  {
    var t, ws := cands[i], Targets(s, ask, cands);
    t in ws && t.clusterQueue != ask.queue ==>
      t.clusterQueue in s.queues && IsBorrowing(Evict(s, ws * Elems(cands[..i])).queues[t.clusterQueue], ask.needed)
  }

  /** With the evicted gone and the preemptor admitted, its queue is within nominal on every pair it requested. */
  ghost predicate EndsWithinNominal(s: Snap, ask: Ask, ws: set<Info>, admitted: Info) {
    && ask.queue in s.queues
    && (admitted.clusterQueue == ask.queue && (forall p :: Charge(admitted, p) == At(ask.request, p)) ==>
          var q := Added(Evict(s, ws), admitted).queues[ask.queue];
          forall p :: p in ask.request && p in q.spec.quotas ==> At(q.usage, p) <= q.spec.Nominal(p))
  }

  lemma DoIsGuarded(s: Snap, wl: Info, ask: Ask, cands: seq<Info>)
    requires SnapOk(s) && wl.clusterQueue in s.queues && ask.queue == wl.clusterQueue && NoDuplicates(cands)
    requires forall t :: t in cands ==> IsCandidate(s, wl.obj, wl.clusterQueue, ask.needed, t)
    ensures var s', ws := WithoutMember(s, wl.clusterQueue), Targets(WithoutMember(s, wl.clusterQueue), ask, cands);
            && (forall i :: 0 <= i < |cands| ==> GuardedAt(s', ask, cands, i))
            && (forall t, admitted :: t in ws && t.clusterQueue != ask.queue ==>
                  EndsWithinNominal(s', ask, ws, admitted))
  {
    hide IsCandidate, Targets, Evict, SnapOk, IsBorrowing, Added, WithoutMember, QueueSpec.Nominal;
    var n := wl.clusterQueue;
    var s', ws := WithoutMember(s, n), Targets(WithoutMember(s, n), ask, cands);
    StillOk(s, n);
    forall t | t in cands ensures IsCandidate(s', wl.obj, n, ask.needed, t) {
      CandidatesAfterWithoutMember(s, n, wl.obj, n, ask.needed, t);
    }
    forall i | 0 <= i < |cands| ensures GuardedAt(s', ask, cands, i) {
      if cands[i] in ws { TargetsAllowed(s', wl.obj, ask, cands, i); }
    }
    forall t, admitted | t in ws && t.clusterQueue != ask.queue ensures EndsWithinNominal(s', ask, ws, admitted) {
      if admitted.clusterQueue == ask.queue && forall p :: Charge(admitted, p) == At(ask.request, p) {
        AntiFlapping(s', ask, cands, t, admitted);
      }
    }
  }

  /**
   * What the targets of Do are for a workload that the assigner sent to preemption: candidates that the policies
   * allow, of queues that borrow when their turn comes; evicting them makes room and evicting fewer of them does not,
   * under the check of the attempt that found them; once they are gone, replaying the assignment finds mode Fit for
   * every resource of every pod set; and if one is of another queue, the preemptor's queue ends within nominal.
   */
  lemma DoIsMinimal(s: Snap, wl: Info, a: Assignment, pss: seq<PodSetResources>, elig: Eligibilities,
                    ask: Ask, cands: seq<Info>) returns (borrowing: bool)
    requires SnapOk(s) && wl.clusterQueue in s.queues && s.queues[wl.clusterQueue].spec.Valid()
    requires IsAssignment(a, ViewOf(s, wl.clusterQueue), pss, elig) && RepresentativeMode(a) == Mode.Preempt
    requires ask.queue == wl.clusterQueue && ask.request == TallyUsage(a.podSets) && NoDuplicates(cands)
    requires forall t :: t in cands ==> IsCandidate(s, wl.obj, wl.clusterQueue, ask.needed, t)
    requires Targets(WithoutMember(s, wl.clusterQueue), ask, cands) != {}
    ensures var s', ws := WithoutMember(s, wl.clusterQueue), Targets(WithoutMember(s, wl.clusterQueue), ask, cands);
            && (forall t :: t in ws ==> IsCandidate(s, wl.obj, wl.clusterQueue, ask.needed, t))
            && (forall i :: 0 <= i < |cands| ==> GuardedAt(s', ask, cands, i))
            && FitsAfter(s', ask.(borrowing := borrowing), ws)
            && (forall fewer :: fewer < ws ==> !FitsAfter(s', ask.(borrowing := borrowing), fewer))
            && (forall i, r :: 0 <= i < |a.podSets| && r in a.podSets[i].flavors && r in a.podSets[i].requests ==>
                  ReplaysFit(Evict(s', ws), wl.clusterQueue, a, i, r))
            && (forall t, admitted :: t in ws && t.clusterQueue != ask.queue ==>
                  EndsWithinNominal(s', ask, ws, admitted))
  {
    hide IsCandidate, Targets, Evict, FitsAfter, IsAssignment, RepresentativeMode, TallyUsage, QueueSpec.Valid,
      ReplaysFit, SnapOk, GuardedAt, EndsWithinNominal;
    var n := wl.clusterQueue;
    var s', ws := WithoutMember(s, n), Targets(WithoutMember(s, n), ask, cands);
    StillOk(s, n);
    var attempt;
    attempt, borrowing := SomeAttempt(s', ask, cands);
    AssignmentTally(a, ViewOf(s, n), pss, elig);
    TargetsMinimal(s', a, pss, elig, ask, cands, attempt, borrowing);
    DoIsGuarded(s, wl, ask, cands);
    forall t | t in ws ensures IsCandidate(s, wl.obj, n, ask.needed, t) {
      InAttempt(s', ask, cands, attempt, borrowing, t);
    }
    forall i, r | 0 <= i < |a.podSets| && r in a.podSets[i].flavors && r in a.podSets[i].requests
      ensures ReplaysFit(Evict(s', ws), n, a, i, r)
    {
      ReplayAfter(s', a, pss, elig, ask.(borrowing := borrowing), ws, i, r);
    }
  }

  /** Assigning resource r of pod set i again, on top of the earlier pod sets, finds mode Fit. */
  ghost predicate ReplaysFit(s: Snap, n: string, a: Assignment, i: nat, r: string) {
    && n in s.queues && i < |a.podSets| && r in a.podSets[i].flavors && r in a.podSets[i].requests
    && var ps := a.podSets[i];
    Outcome(ViewOf(s, n), ps.flavors[r].name, r, ps.requests[r], TallyUsage(a.podSets[..i])).0 == Fit
  }

  lemma StillOk(s: Snap, n: string)
    requires SnapOk(s) && n in s.queues
    ensures SnapOk(WithoutMember(s, n)) && n in WithoutMember(s, n).queues && WithoutMember(s, n).queues == s.queues
    ensures ViewOf(WithoutMember(s, n), n) == ViewOf(s, n)
  {
    hide QueueOk;
  }

  lemma AssignmentTally(a: Assignment, v: QueueView, pss: seq<PodSetResources>, elig: Eligibilities)
    requires IsAssignment(a, v, pss, elig) && RepresentativeMode(a) == Mode.Preempt
    ensures a.usage == TallyUsage(a.podSets)
  {
    hide RepresentativeMode, TallyUsage, TallyBorrow, OutcomeAt, AssignableAt;
    PreemptIsComplete(a, v, pss, elig);
  }

  lemma ReplayAfter(s: Snap, a: Assignment, pss: seq<PodSetResources>, elig: Eligibilities, ask: Ask, ws: set<Info>,
                    i: nat, r: string)
    requires SnapOk(s) && ask.queue in s.queues && s.queues[ask.queue].spec.Valid()
    requires IsAssignment(a, ViewOf(s, ask.queue), pss, elig) && ask.request == TallyUsage(a.podSets) == a.usage
    requires FitsAfter(s, ask, ws) && i < |a.podSets| && r in a.podSets[i].flavors && r in a.podSets[i].requests
    ensures ReplaysFit(Evict(s, ws), ask.queue, a, i, r)
  {
    hide IsAssignment, TallyUsage, QueueSpec.Valid, WorkloadFits, Lowered, KeysOf, Outcome;
    UsageListed(a, ViewOf(s, ask.queue), pss, elig);
    ViewHasCohort(s, ask.queue);
    var v := ViewOf(Evict(s, ws), ask.queue);
    assert v.spec == s.queues[ask.queue].spec && (v.cohort.None? ==> v.spec.cohort.None?);
    ReplayFits(v, a.podSets, ask.borrowing, i, r);
  }
}
