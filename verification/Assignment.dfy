/** Whole assignments: pod sets one after the other, each on top of what the earlier ones use. */
module Assignments {
  import opened Sums
  import opened Model
  import opened Snapshots
  import opened FlavorAssigner

  // ---------- what an assignment accumulates ----------

  predicate Assigns(ps: PodSetAssignment, p: Pair) {
    p.resource in ps.flavors && ps.flavors[p.resource].name == p.flavor
  }

  function Amount(ps: PodSetAssignment, p: Pair): nat {
    if Assigns(ps, p) && p.resource in ps.requests then ps.requests[p.resource] else 0
  }

  predicate Borrowing(ps: PodSetAssignment, p: Pair) {
    Assigns(ps, p) && ps.flavors[p.resource].borrow > 0
  }

  function PairsOf(flavors: ResourceAssignment): set<Pair> {
    set r | r in flavors :: Pair(flavors[r].name, r)
  }

  function AppendUsage(u: Quantities, ps: PodSetAssignment): Quantities {
    map p | p in u.Keys + PairsOf(ps.flavors) :: At(u, p) + Amount(ps, p)
  }

  /** Borrowing is not added up: the value found for a later pod set already counts the earlier ones. */
  function AppendBorrow(b: Quantities, ps: PodSetAssignment): Quantities {
    map p | p in b.Keys + PairsOf(ps.flavors) && (p in b || Borrowing(ps, p)) ::
      if Borrowing(ps, p) then ps.flavors[p.resource].borrow else b[p]
  }

  function TallyUsage(pss: seq<PodSetAssignment>): Quantities {
    if pss == [] then map[] else AppendUsage(TallyUsage(pss[..|pss| - 1]), pss[|pss| - 1])
  }

  function TallyBorrow(pss: seq<PodSetAssignment>): Quantities {
    if pss == [] then map[] else AppendBorrow(TallyBorrow(pss[..|pss| - 1]), pss[|pss| - 1])
  }

  predicate Borrows(a: Assignment) { a.totalBorrow != map[] }

  // ---------- representative modes ----------

  predicate FlavorHasMode(flavors: ResourceAssignment, m: Mode) {
    exists r | r in flavors :: flavors[r].mode == m
  }

  function PodSetMode(ps: PodSetAssignment): Mode {
    if ps.status == NoStatus then Fit
    else if ps.flavors == map[] then NoFit
    else if FlavorHasMode(ps.flavors, NoFit) then NoFit
    else if FlavorHasMode(ps.flavors, Preempt) then Preempt
    else Fit
  }

  predicate SomePodSet(pss: seq<PodSetAssignment>, m: Mode) {
    exists i | 0 <= i < |pss| :: PodSetMode(pss[i]) == m
  }

  /** The worst mode among the pod sets. */
  function RepresentativeMode(a: Assignment): Mode {
    if a.podSets == [] || SomePodSet(a.podSets, NoFit) then NoFit
    else if SomePodSet(a.podSets, Preempt) then Preempt
    else Fit
  }

  // ---------- reference: which assignments AssignFlavors may return ----------

  ghost predicate AssignableAt(a: Assignment, v: QueueView, pss: seq<PodSetResources>, elig: Eligibilities, i: nat)
    requires i < |a.podSets| && i < |pss|
  {
    Assignable(v, pss[i].requests, TallyUsage(a.podSets[..i]), elig, i)
  }

  ghost predicate OutcomeAt(a: Assignment, v: QueueView, pss: seq<PodSetResources>, elig: Eligibilities, i: nat)
    requires i < |a.podSets| && i < |pss|
  {
    var ps := a.podSets[i];
    && ps.name == pss[i].name && ps.requests == pss[i].requests
    && IsPodSetOutcome(v, pss[i].requests, TallyUsage(a.podSets[..i]), elig, i, ps.flavors, ps.status)
  }

  /** Every pod set was assigned. */
  ghost predicate Complete(a: Assignment, v: QueueView, pss: seq<PodSetResources>, elig: Eligibilities)
    requires |a.podSets| <= |pss|
  {
    |a.podSets| == |pss| && forall i :: 0 <= i < |a.podSets| ==> AssignableAt(a, v, pss, elig, i)
  }

  ghost predicate IsAssignment(a: Assignment, v: QueueView, pss: seq<PodSetResources>, elig: Eligibilities) {
    && |a.podSets| <= |pss|
    && (forall i :: 0 <= i < |a.podSets| ==> OutcomeAt(a, v, pss, elig, i))
    && (forall i :: 0 <= i < |a.podSets| - 1 ==> AssignableAt(a, v, pss, elig, i))
    && (|a.podSets| < |pss| ==> a.podSets != [] && !AssignableAt(a, v, pss, elig, |a.podSets| - 1))
    && a.usage == TallyUsage(a.podSets)
    && a.totalBorrow == if Complete(a, v, pss, elig) then TallyBorrow(a.podSets) else map[]
  }

  // ---------- the assigner ----------

  /** Where the queue has quota for pods, the pod count becomes a request, in the workload's own map. */
  function CountedPodSet(ps: PodSetResources, spec: QueueSpec, count: nat): PodSetResources {
    if GroupFor(spec.groups, PODS).Some? then ps.(requests := ps.requests[PODS := count]) else ps
  }

  function CountedPodSets(wl: Info, spec: QueueSpec): seq<PodSetResources>
    requires |wl.totalRequests| <= |wl.obj.spec.podSets|
  {
    seq(|wl.totalRequests|, i requires 0 <= i < |wl.totalRequests| =>
          CountedPodSet(wl.totalRequests[i], spec, wl.obj.spec.podSets[i].count))
  }

  method AssignFlavors(wl: Info, v: QueueView, elig: Eligibilities) returns (a: Assignment, wl': Info)
    requires v.spec.Valid() && |wl.totalRequests| <= |wl.obj.spec.podSets|
    ensures IsAssignment(a, v, CountedPodSets(wl, v.spec), elig)
    ensures wl' == wl.(totalRequests := CountedPodSets(wl, v.spec)[..|a.podSets|] + wl.totalRequests[|a.podSets|..])
  {
    hide AppendUsage, AppendBorrow, IsPodSetOutcome, Assignable, OutcomeAt, AssignableAt, IsAssignment;
    var pss := CountedPodSets(wl, v.spec);
    a, wl' := Assignment([], map[], map[]), wl;
    for i := 0 to |wl.totalRequests|
      invariant |a.podSets| == i && AssignedSoFar(a, v, pss, elig)
      invariant wl' == wl.(totalRequests := pss[..i] + wl.totalRequests[i..])
    {
      var podSet := CountedPodSet(wl.totalRequests[i], v.spec, wl.obj.spec.podSets[i].count);
      wl' := wl'.(totalRequests := wl'.totalRequests[i := podSet]);
      SetNext(pss, wl.totalRequests, i);
      var flavors, status := AssignPodSet(v, podSet.requests, a.usage, elig, i);
      var ps := PodSetAssignment(podSet.name, flavors, status, podSet.requests);
      OneMoreAssigned(a, v, pss, elig, i, ps);
      a := Append(a, ps);
      if status == Failed || (podSet.requests != map[] && flavors == map[]) {
        a := a.(totalBorrow := map[]);
        return;
      }
    }
    AllAssigned(a, v, pss, elig);
  }

  /** All pod sets so far were assigned, and the totals are theirs. */
  ghost predicate AssignedSoFar(a: Assignment, v: QueueView, pss: seq<PodSetResources>, elig: Eligibilities) {
    && |a.podSets| <= |pss| && a.usage == TallyUsage(a.podSets) && a.totalBorrow == TallyBorrow(a.podSets)
    && forall j :: 0 <= j < |a.podSets| ==> OutcomeAt(a, v, pss, elig, j) && AssignableAt(a, v, pss, elig, j)
  }

  lemma AllAssigned(a: Assignment, v: QueueView, pss: seq<PodSetResources>, elig: Eligibilities)
    requires AssignedSoFar(a, v, pss, elig) && |a.podSets| == |pss|
    ensures IsAssignment(a, v, pss, elig)
  {
    hide OutcomeAt, AssignableAt, TallyUsage, TallyBorrow;
  }

  /** One more pod set continues the assignment, or ends it when it could not be assigned. */
  lemma OneMoreAssigned(a: Assignment, v: QueueView, pss: seq<PodSetResources>, elig: Eligibilities, i: nat,
                        ps: PodSetAssignment)
    requires AssignedSoFar(a, v, pss, elig) && |a.podSets| == i < |pss|
    requires ps.name == pss[i].name && ps.requests == pss[i].requests
    requires IsPodSetOutcome(v, ps.requests, a.usage, elig, i, ps.flavors, ps.status)
    ensures var a' := Assignment(a.podSets + [ps], AppendBorrow(a.totalBorrow, ps), AppendUsage(a.usage, ps));
            if ps.status == Failed || (ps.requests != map[] && ps.flavors == map[])
            then IsAssignment(a'.(totalBorrow := map[]), v, pss, elig)
            else AssignedSoFar(a', v, pss, elig)
  {
    hide IsPodSetOutcome, Assignable, AppendUsage, AppendBorrow;
    var more := a.podSets + [ps];
    var a' := Assignment(more, AppendBorrow(a.totalBorrow, ps), AppendUsage(a.usage, ps));
    assert more[..i] == a.podSets && more[i] == ps;
    assert TallyUsage(more) == a'.usage && TallyBorrow(more) == a'.totalBorrow;
    hide TallyUsage, TallyBorrow;
    AssignableIff(v, ps.requests, a.usage, elig, i, ps.flavors, ps.status);
    ExtendsPrefix(a, a', v, pss, elig, i);
    ExtendsPrefix(a, a'.(totalBorrow := map[]), v, pss, elig, i);
    if !Assignable(v, ps.requests, a.usage, elig, i) {
      UnassignedLast(a'.(totalBorrow := map[]), v, pss, elig, i);
    }
  }

  lemma SetNext(pss: seq<PodSetResources>, rest: seq<PodSetResources>, i: nat)
    requires i < |pss| == |rest|
    ensures (pss[..i] + rest[i..])[i := pss[i]] == pss[..i + 1] + rest[i + 1..]
  {
  }

  /** Assignment.append: counts the pod set's usage and overwrites what it borrows. */
  method Append(a: Assignment, ps: PodSetAssignment) returns (r: Assignment)
    ensures r == Assignment(a.podSets + [ps], AppendBorrow(a.totalBorrow, ps), AppendUsage(a.usage, ps))
  {
    hide AppendUsage, AppendBorrow;
    var b, u := a.totalBorrow, a.usage;
    var todo := ps.flavors.Keys;
    AppendNothing(u, b, ps.(flavors := ps.flavors - todo));
    while todo != {}
      invariant todo <= ps.flavors.Keys
      invariant u == AppendUsage(a.usage, ps.(flavors := ps.flavors - todo))
      invariant b == AppendBorrow(a.totalBorrow, ps.(flavors := ps.flavors - todo))
      decreases todo
    {
      var r :| r in todo;
      var fa := ps.flavors[r];
      AppendUsageStep(a.usage, ps.(flavors := ps.flavors - todo), r, fa);
      AppendBorrowStep(a.totalBorrow, ps.(flavors := ps.flavors - todo), r, fa);
      assert (ps.flavors - todo)[r := fa] == ps.flavors - (todo - {r});
      if fa.borrow > 0 {
        b := b[Pair(fa.name, r) := fa.borrow];
      }
      u := u[Pair(fa.name, r) := At(u, Pair(fa.name, r)) + if r in ps.requests then ps.requests[r] else 0];
      todo := todo - {r};
    }
    assert ps.flavors - {} == ps.flavors;
    return Assignment(a.podSets + [ps], b, u);
  }

  lemma PairsOfIff(ps: PodSetAssignment)
    ensures forall p :: p in PairsOf(ps.flavors) <==> Assigns(ps, p)
  {
    forall p | Assigns(ps, p) ensures p in PairsOf(ps.flavors) {
      assert p == Pair(ps.flavors[p.resource].name, p.resource);
    }
  }

  lemma AppendNothing(u: Quantities, b: Quantities, ps: PodSetAssignment)
    requires ps.flavors.Keys == {}
    ensures AppendUsage(u, ps) == u && AppendBorrow(b, ps) == b
  {
  }

  lemma AppendUsageStep(u: Quantities, ps: PodSetAssignment, r: string, fa: FlavorAssignment)
    requires r !in ps.flavors
    ensures var p := Pair(fa.name, r);
            AppendUsage(u, ps.(flavors := ps.flavors[r := fa])) ==
            AppendUsage(u, ps)[p := At(AppendUsage(u, ps), p) + if r in ps.requests then ps.requests[r] else 0]
  {
    hide PairsOf;
    PairsOfIff(ps);
    PairsOfIff(ps.(flavors := ps.flavors[r := fa]));
  }

  lemma AppendBorrowStep(b: Quantities, ps: PodSetAssignment, r: string, fa: FlavorAssignment)
    requires r !in ps.flavors
    ensures AppendBorrow(b, ps.(flavors := ps.flavors[r := fa])) ==
            if fa.borrow > 0 then AppendBorrow(b, ps)[Pair(fa.name, r) := fa.borrow] else AppendBorrow(b, ps)
  {
    hide PairsOf;
    PairsOfIff(ps);
    PairsOfIff(ps.(flavors := ps.flavors[r := fa]));
  }

  lemma ExtendsPrefix(a: Assignment, a': Assignment, v: QueueView, pss: seq<PodSetResources>, elig: Eligibilities,
                      i: nat)
    requires |a.podSets| == i < |pss| && |a'.podSets| == i + 1 && a'.podSets[..i] == a.podSets
    requires a'.podSets[i].name == pss[i].name && a'.podSets[i].requests == pss[i].requests
    requires IsPodSetOutcome(v, pss[i].requests, TallyUsage(a.podSets), elig, i,
                             a'.podSets[i].flavors, a'.podSets[i].status)
    requires forall j :: 0 <= j < i ==> OutcomeAt(a, v, pss, elig, j) && AssignableAt(a, v, pss, elig, j)
    ensures forall j :: 0 <= j < i ==> OutcomeAt(a', v, pss, elig, j) && AssignableAt(a', v, pss, elig, j)
    ensures OutcomeAt(a', v, pss, elig, i)
  {
    hide IsPodSetOutcome, Assignable, TallyUsage;
    forall j | 0 <= j < i ensures OutcomeAt(a', v, pss, elig, j) && AssignableAt(a', v, pss, elig, j) {
      assert OutcomeAt(a, v, pss, elig, j) && AssignableAt(a, v, pss, elig, j);
      assert a'.podSets[j] == a.podSets[j] && a'.podSets[..j] == a.podSets[..j];
    }
  }

  /** The early return is taken exactly when the pod set could not be assigned. */
  lemma AssignableIff(v: QueueView, reqs: Requests, used: Quantities, elig: Eligibilities, i: nat,
                      flavors: ResourceAssignment, status: Status)
    requires IsPodSetOutcome(v, reqs, used, elig, i, flavors, status)
    ensures Assignable(v, reqs, used, elig, i) <==> !(status == Failed || (reqs != map[] && flavors == map[]))
  {
    hide ChoiceOf, FitsResourceQuota;
    if Assignable(v, reqs, used, elig, i) && reqs != map[] {
      var r :| r in reqs;
      assert r in flavors;
    }
  }

  lemma UnassignedLast(a: Assignment, v: QueueView, pss: seq<PodSetResources>, elig: Eligibilities, i: nat)
    requires |a.podSets| == i + 1 <= |pss| && OutcomeAt(a, v, pss, elig, i) && !AssignableAt(a, v, pss, elig, i)
    requires forall j :: 0 <= j < i ==> OutcomeAt(a, v, pss, elig, j) && AssignableAt(a, v, pss, elig, j)
    requires a.usage == TallyUsage(a.podSets) && a.totalBorrow == map[]
    ensures IsAssignment(a, v, pss, elig)
  {
    hide AssignableAt, OutcomeAt, TallyUsage, TallyBorrow;
  }
}
