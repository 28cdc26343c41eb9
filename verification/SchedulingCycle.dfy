/** Scheduling cycles (pkg/scheduler/scheduler.go) interleaved with releases, as a state machine over the cache. */
module SchedulingCycle {
  import opened Sums
  import opened Model
  import opened Ledgers
  import opened Caches
  import opened Snapshots
  import opened FlavorAssigner
  import opened Assignments
  import opened AssignmentProofs
  import opened PendingQueues

  // ---------- entries and their order ----------

  /**
   * A head of a queue, with the flavor eligibility that its pod templates determine and the reason to requeue it so
   * far.
   */
  datatype Entry = Entry(info: Info, elig: Eligibilities, assignment: Assignment, reason: RequeueReason)

  const NOT_EVALUATED := Assignment([], map[], map[])

  /** A head is either rejected before flavors are considered, or assigned flavors against the snapshot. */
  ghost predicate Nominated(s: Snap, e: Entry) {
    e.assignment == NOT_EVALUATED ||
    (&& e.info.clusterQueue in s.queues && s.queues[e.info.clusterQueue].spec.Valid()
     && |e.info.totalRequests| <= |e.info.obj.spec.podSets|
     && var v := ViewOf(s, e.info.clusterQueue);
     IsAssignment(e.assignment, v, CountedPodSets(e.info, v.spec), e.elig))
  }

  /** entryOrdering.Less: requests within nominal quota first, then first in, first out. */
  predicate Less(x: Entry, y: Entry) {
    if Borrows(x.assignment) != Borrows(y.assignment) then !Borrows(x.assignment)
    else x.info.obj.QueueOrderTimestamp() < y.info.obj.QueueOrderTimestamp()
  }

  predicate Sorted(es: seq<Entry>) {
    forall i, j | 0 <= i < j < |es| :: !Less(es[j], es[i])
  }

  predicate OnePerQueue(es: seq<Entry>) {
    forall i, j | 0 <= i < j < |es| :: es[i].info.clusterQueue != es[j].info.clusterQueue
  }

  // ---------- the cycle ----------

  /** granted records, for each queue that admitted its head in this cycle, the entry it admitted. */
  datatype Cycle = Cycle(snap: Snap, entries: seq<Entry>, next: nat, used: set<string>, granted: map<string, nat>)

  datatype EntryStatus = NotNominated | SkippedInCycle | NominatedOnly | Assumed

  function CohortOf(s: Snap, n: string): Option<string> {
    if n in s.queues then s.queues[n].spec.cohort else None
  }

  predicate PassedOver(cy: Cycle, e: Entry) {
    var g := CohortOf(cy.snap, e.info.clusterQueue);
    Borrows(e.assignment) && g.Some? && g.value in cy.used
  }

  /** One iteration of the admission loop; `now` stamps the admission. */
  function ProcessOne(c: CacheState, cy: Cycle, now: int): (CacheState, Cycle, EntryStatus)
    requires cy.next < |cy.entries|
  {
    var e := cy.entries[cy.next];
    var cy1 := cy.(next := cy.next + 1);
    if RepresentativeMode(e.assignment) == NoFit then (c, cy1, NotNominated)
    else if PassedOver(cy, e) then (c, cy1, SkippedInCycle)
    else
      var g := CohortOf(cy.snap, e.info.clusterQueue);
      var cy2 := cy1.(used := if g.Some? then cy.used + {g.value} else cy.used);
      if RepresentativeMode(e.assignment) != Fit then (c, cy2, NotNominated)
      else
        var (c', ok) := Assume(c, WithAdmission(e.info.obj, e.assignment, e.info.clusterQueue, now));
        if ok then (c', cy2.(granted := cy2.granted[e.info.clusterQueue := cy.next]), Assumed)
        else (c, cy2, NominatedOnly)
  }

  // ---------- the system ----------

  datatype Sys = Idle(cache: CacheState) | Busy(cache: CacheState, cycle: Cycle)

  datatype Event =
    | Start(snap: Snap, entries: seq<Entry>)
    | Process(now: int)
    | Finish
    | Release(w: Workload, at: Option<string>)
    | ForgetAssumed(w: Workload)
    | Confirm(w: Workload)

  /** A confirmation charges no more of any pair than what is charged already. */
  ghost predicate Confirms(c: CacheState, w: Workload) {
    && w.IsAdmitted() && w.admission.value.clusterQueue in c.queues
    && w.key in c.queues[w.admission.value.clusterQueue].workloads
    && forall p :: Charge(NewInfo(w), p) <= Charge(c.queues[w.admission.value.clusterQueue].workloads[w.key], p)
  }

  ghost predicate Step(x: Sys, ev: Event, y: Sys) {
    match ev
    case Start(s, es) =>
      && x.Idle? && IsSnapshotOf(s, x.cache) && Sorted(es) && OnePerQueue(es)
      && (forall i :: 0 <= i < |es| ==> Nominated(s, es[i]))
      && y == Busy(x.cache, Cycle(s, es, 0, {}, map[]))
    case Process(now) =>
      && x.Busy? && x.cycle.next < |x.cycle.entries|
      && var (c, cy, _) := ProcessOne(x.cache, x.cycle, now);
      y == Busy(c, cy)
    case Finish => x.Busy? && x.cycle.next == |x.cycle.entries| && y == Idle(x.cache)
    case Release(w, at) => QueueOf(x.cache, w, at) && y == x.(cache := Delete(x.cache, w, at).0)
    case ForgetAssumed(w) => y == x.(cache := Forget(x.cache, w).0)
    case Confirm(w) => Confirms(x.cache, w) && y == x.(cache := AddOrUpdate(x.cache, w).0)
  }

  ghost predicate Run(x: Sys, evs: seq<Event>, y: Sys)
    decreases |evs|
  {
    if evs == [] then y == x
    else exists z :: Step(x, evs[0], z) && Run(z, evs[1..], y)
  }

  // ---------- quota bounds ----------

  ghost function Live(c: CacheState): map<string, SnapQueue> {
    map n | n in c.queues && c.queues[n].status == Active :: Copied(c.queues[n])
  }

  ghost function BorrowedOf(qs: map<string, SnapQueue>, p: Pair): map<string, int> {
    map n | n in qs :: Over(At(qs[n].usage, p), qs[n].spec.Nominal(p))
  }

  ghost function CohortUsed(qs: map<string, SnapQueue>, g: string, p: Pair): int {
    Sum(UsageOf(InCohort(qs, g), p))
  }

  ghost function CohortRequestable(qs: map<string, SnapQueue>, g: string, p: Pair): int {
    Sum(NominalOf(InCohort(qs, g), p))
  }

  ghost function CohortBorrowed(qs: map<string, SnapQueue>, g: string, p: Pair): int {
    Sum(BorrowedOf(InCohort(qs, g), p))
  }

  /** A queue stays within nominal plus its borrowing limit, and within nominal when it has no cohort. */
  ghost predicate QueueBound(q: SnapQueue, p: Pair) {
    && (q.spec.Quota(p).borrowingLimit.Some? ==>
          At(q.usage, p) <= q.spec.Nominal(p) + q.spec.Quota(p).borrowingLimit.value)
    && (q.spec.cohort.None? ==> At(q.usage, p) <= q.spec.Nominal(p))
  }

  ghost predicate Bounded(qs: map<string, SnapQueue>) {
    && (forall n, p :: n in qs ==> QueueBound(qs[n], p))
    && (forall g, p :: CohortBorrowed(qs, g, p) <= CohortRequestable(qs, g, p))
  }

  // ---------- the invariant inside a cycle ----------

  /** What the cycle has added to a queue so far. */
  ghost function GrantedAt(cy: Cycle, n: string, p: Pair): int {
    if n in cy.granted && cy.granted[n] < |cy.entries| then At(cy.entries[cy.granted[n]].assignment.usage, p) else 0
  }

  /** The live ledgers hold at most the snapshot's usage plus the grants. */
  ghost predicate Covers(cy: Cycle, qs: map<string, SnapQueue>) {
    && qs.Keys == cy.snap.queues.Keys
    && (forall n :: n in qs ==> qs[n].spec == cy.snap.queues[n].spec)
    && (forall n, p :: n in qs ==> 0 <= At(qs[n].usage, p) <= At(cy.snap.queues[n].usage, p) + GrantedAt(cy, n, p))
  }

  ghost predicate GrantOk(cy: Cycle, n: string)
    requires n in cy.granted
  {
    var i := cy.granted[n];
    && i < cy.next && i < |cy.entries| && n in cy.snap.queues && cy.entries[i].info.clusterQueue == n
    && RepresentativeMode(cy.entries[i].assignment) == Fit
    && (CohortOf(cy.snap, n).Some? ==> CohortOf(cy.snap, n).value in cy.used)
  }

  ghost predicate GrantBorrows(cy: Cycle, n: string) {
    n in cy.granted && cy.granted[n] < |cy.entries| && Borrows(cy.entries[cy.granted[n]].assignment)
  }

  predicate SameCohort(s: Snap, n: string, m: string) {
    CohortOf(s, n).Some? && CohortOf(s, n) == CohortOf(s, m)
  }

  /** Whoever borrows has its cohort to itself for the cycle. */
  ghost predicate Exclusive(cy: Cycle) {
    forall n, m :: n in cy.granted && m in cy.granted && n != m && SameCohort(cy.snap, n, m) ==> !GrantBorrows(cy, n)
  }

  ghost predicate SnapSound(cy: Cycle) {
    && SnapOk(cy.snap) && Balanced(cy.snap) && Bounded(cy.snap.queues)
    && Sorted(cy.entries) && OnePerQueue(cy.entries) && cy.next <= |cy.entries|
    && (forall i :: 0 <= i < |cy.entries| ==> Nominated(cy.snap, cy.entries[i]))
  }

  ghost predicate CycleOk(cy: Cycle, qs: map<string, SnapQueue>) {
    && SnapSound(cy) && Covers(cy, qs)
    && (forall n :: n in cy.granted ==> GrantOk(cy, n))
    && Exclusive(cy)
  }

  ghost predicate SysOk(x: Sys) {
    && Ok(x.cache) && Bounded(Live(x.cache))
    && (x.Busy? ==> CycleOk(x.cycle, Live(x.cache)))
  }
}
