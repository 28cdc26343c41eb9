/**
 * Cache, scheduler loop and queue manager together: what is parked does not fit now. Every freed quota in the cache has
 * to show in the event that the manager's history records.
 */
module JointRuns {
  import opened Sums
  import opened Model
  import opened Heaps
  import opened PendingQueues
  import opened Managers
  import opened WakeUp
  import Ledgers
  import Caches
  import opened Snapshots
  import opened FlavorAssigner
  import opened Assignments
  import opened AssignmentProofs
  import opened FitOrder
  import S = SchedulingCycle
  import SchedulingProofs

  type CacheState = Caches.CacheState

  // ---------- room in a queue ----------

  /** Amount val of the pair is within the limits of queue n and its cohort, read off the live queues. */
  ghost predicate WithinLive(qs: map<string, SnapQueue>, n: string, p: Pair, val: int)
    requires n in qs
  {
    var spec := qs[n].spec;
    && (spec.Quota(p).borrowingLimit.Some? ==>
          At(qs[n].usage, p) + val <= spec.Nominal(p) + spec.Quota(p).borrowingLimit.value)
    && (spec.cohort.Some? ==>
          S.CohortUsed(qs, spec.cohort.value, p) + val <= S.CohortRequestable(qs, spec.cohort.value, p))
    && (spec.cohort.None? ==> At(qs[n].usage, p) + val <= spec.Nominal(p))
  }

  lemma LiveIsView(c: CacheState, s: Snap, n: string, p: Pair, val: int)
    requires Caches.Ok(c) && IsSnapshotOf(s, c) && n in s.queues
    ensures n in S.Live(c) && (WithinLimits(ViewOf(s, n), p, val) <==> WithinLive(S.Live(c), n, p, val))
  {
    hide Caches.Ok;
    SnapshotOk(s, c);
    assert s.queues == S.Live(c);
    if s.queues[n].spec.cohort.Some? {
      var g := s.queues[n].spec.cohort.value;
      assert g in s.cohorts && Totals(s.cohorts[g], InCohort(s.queues, g));
      assert TotalAt(s.cohorts[g], InCohort(s.queues, g), p);
    }
  }

  /** Queue n has no more room in qs' than in qs; where it is not active, nothing fits. */
  ghost predicate NoRoomier(qs: map<string, SnapQueue>, qs': map<string, SnapQueue>, n: string) {
    n in qs' ==>
      && n in qs && qs'[n].spec.groups == qs[n].spec.groups
      && forall p, val :: WithinLive(qs', n, p, val) ==> WithinLive(qs, n, p, val)
  }

  lemma NoRoomierTrans(qs: map<string, SnapQueue>, qs': map<string, SnapQueue>, qs'': map<string, SnapQueue>, n: string)
    requires NoRoomier(qs, qs', n) && NoRoomier(qs', qs'', n)
    ensures NoRoomier(qs, qs'', n)
  {
    hide WithinLive;
  }

  // ---------- trials against the cache ----------

  /** The pod sets that the assigner sees for a pending workload with this specification. */
  function PodSetsOf(spec: Spec, q: QueueSpec): seq<PodSetResources> {
    CountedPodSets(NewInfo(Workload(Name("", ""), spec, 0, None, None)), q)
  }

  /** Which flavors the pod sets of a specification may use; flavors do not change during a run. */
  type Templates = Spec -> Eligibilities

  /** Assignment a is what the assigner finds for the trial in snapshot s. */
  ghost predicate Finds(s: Snap, e: Trial, t: Templates, a: Assignment) {
    && e.queue in s.queues && s.queues[e.queue].spec.Valid()
    && IsAssignment(a, ViewOf(s, e.queue), PodSetsOf(e.spec, s.queues[e.queue].spec), t(e.spec))
  }

  ghost predicate DidNotFitIn(c: CacheState, e: Trial, t: Templates) {
    exists s, a :: IsSnapshotOf(s, c) && Finds(s, e, t, a) && RepresentativeMode(a) != Fit
  }

  ghost predicate DoesNotFit(c: CacheState, e: Trial, t: Templates) {
    forall s, a :: IsSnapshotOf(s, c) && Finds(s, e, t, a) ==> RepresentativeMode(a) != Fit
  }

  /** Without detours, what did not fit does not fit where there is no more room. */
  lemma StillDoesNotFit(c: CacheState, c': CacheState, e: Trial, t: Templates)
    requires Caches.Ok(c) && Caches.Ok(c') && DidNotFitIn(c, e, t) && NoRoomier(S.Live(c), S.Live(c'), e.queue)
    requires e.queue in S.Live(c') ==> NoDetour(S.Live(c')[e.queue].spec, PodSetsOf(e.spec, S.Live(c')[e.queue].spec))
    ensures DoesNotFit(c', e, t)
  {
    hide Caches.Ok, IsAssignment, RepresentativeMode, WithinLive, WithinLimits, NoDetour, QueueSpec.Valid, Balanced;
    var s, a :| IsSnapshotOf(s, c) && Finds(s, e, t, a) && RepresentativeMode(a) != Fit;
    forall s', a' | IsSnapshotOf(s', c') && Finds(s', e, t, a') ensures RepresentativeMode(a') != Fit {
      assert s.queues == S.Live(c) && s'.queues == S.Live(c');
      var v, v' := ViewOf(s, e.queue), ViewOf(s', e.queue);
      forall p, val | WithinLimits(v', p, val) ensures WithinLimits(v, p, val) {
        LiveIsView(c, s, e.queue, p, val);
        LiveIsView(c', s', e.queue, p, val);
      }
      assert Fuller(v, v');
      SameDetour(v.spec, v'.spec, e.spec);
      if RepresentativeMode(a') == Fit {
        StillFits(a, v, a', v', PodSetsOf(e.spec, v.spec), t(e.spec));
      }
    }
  }

  lemma SameDetour(q: QueueSpec, q': QueueSpec, spec: Spec)
    requires q.groups == q'.groups
    ensures PodSetsOf(spec, q) == PodSetsOf(spec, q')
    ensures NoDetour(q, PodSetsOf(spec, q)) <==> NoDetour(q', PodSetsOf(spec, q'))
  {
  }

  // ---------- the machine ----------

  /** What a requeued trial found: it was rejected before flavors were considered, or did not fit in this cache. */
  datatype Found = Rejected | DidNotFit(cache: CacheState)

  /** `taken` is the cache of which the current cycle took its snapshot; `found` belongs to the manager's `tried`. */
  datatype Joint = Joint(cache: CacheState, wake: Wake, taken: Option<CacheState>, found: map<Trial, Found>)

  /** A step of the manager's history with the cache after it, a change of the cache alone, or the cycle's snapshot. */
  datatype JointEvent =
    | Both(ev: WakeEvent, cache: CacheState, rejected: bool)
    | CacheOnly(cache: CacheState)
    | TakeSnapshot

  /** The queues to which an event may give quota, as the history records it. */
  ghost function Given(x: Wake, ev: WakeEvent): set<string> {
    match ev
    case Release(_, from, _) => CohortOf(x.m, from)
    case Freed(from) => CohortOf(x.m, from)
    case Call(ev, excess) => GivenByCall(x.m, ev, excess)
    case _ => {}
  }

  /** Only the given queues may have gained room. */
  ghost predicate Truthful(c: CacheState, c': CacheState, given: set<string>) {
    Caches.Ok(c') && forall n :: n !in given ==> NoRoomier(S.Live(c), S.Live(c'), n)
  }

  ghost predicate Records(ev: WakeEvent) { ev.Retry? && Unsuccessful(ev.reason) }

  ghost predicate Step(x: Joint, ev: JointEvent, y: Joint, t: Templates) {
    match ev
    case TakeSnapshot => x.taken.None? && y == x.(taken := Some(x.cache))
    case CacheOnly(c) => Truthful(x.cache, c, {}) && y == x.(cache := c)
    case Both(e, c, rejected) =>
      && Enabled(x.wake, e) && Truthful(x.cache, c, Given(x.wake, e))
      && (Records(e) ==> x.taken.Some? && (rejected || DidNotFitIn(x.taken.value, TrialOf(e.info), t)))
      && y.cache == c && y.wake == Next(x.wake, e) && y.taken == (if e.Heads? then None else x.taken)
      && y.found == if Records(e)
                    then x.found[TrialOf(e.info) := if rejected then Rejected else DidNotFit(x.taken.value)]
                    else x.found
  }

  ghost predicate JointRun(x: Joint, evs: seq<JointEvent>, y: Joint, t: Templates)
    decreases |evs|
  {
    if evs == [] then y == x else exists z :: Step(x, evs[0], z, t) && JointRun(z, evs[1..], y, t)
  }

  const JOINT_START := Joint(Caches.EMPTY, START, None, map[])

  /** The manager's part of a run. */
  function WakeEvents(evs: seq<JointEvent>): seq<WakeEvent> {
    if evs == [] then []
    else if evs[0].Both? then [evs[0].ev] + WakeEvents(evs[1..]) else WakeEvents(evs[1..])
  }

  lemma {:induction false} RunProjects(x: Joint, evs: seq<JointEvent>, y: Joint, t: Templates)
    requires JointRun(x, evs, y, t)
    ensures Run(x.wake, WakeEvents(evs), y.wake)
    decreases |evs|
  {
    hide Truthful, DidNotFitIn, Next, Enabled;
    if evs != [] {
      var z :| Step(x, evs[0], z, t) && JointRun(z, evs[1..], y, t);
      RunProjects(z, evs[1..], y, t);
      if evs[0].Both? {
        var ws := WakeEvents(evs);
        assert ws[0] == evs[0].ev && ws[1..] == WakeEvents(evs[1..]);
      }
    }
  }

  // ---------- the invariant ----------

  /** Since this time nothing gave quota to queue n. */
  ghost predicate NothingSince(x: Wake, n: string, time: nat) {
    n in x.capacity ==> x.capacity[n] < time
  }

  ghost predicate FoundOk(x: Joint, e: Trial, t: Templates) {
    e in x.found && x.found[e].DidNotFit? && e in x.wake.tried && NothingSince(x.wake, e.queue, x.wake.tried[e]) ==>
      && Caches.Ok(x.found[e].cache) && DidNotFitIn(x.found[e].cache, e, t)
      && NoRoomier(S.Live(x.found[e].cache), S.Live(x.cache), e.queue)
  }

  ghost predicate TakenOk(x: Joint, n: string) {
    x.taken.Some? && NothingSince(x.wake, n, x.wake.headsAt) ==>
      NoRoomier(S.Live(x.taken.value), S.Live(x.cache), n)
  }

  ghost predicate Inv(x: Joint, t: Templates) {
    && Caches.Ok(x.cache) && (x.taken.Some? ==> Caches.Ok(x.taken.value)) && Timely(x.wake)
    && x.found.Keys == x.wake.tried.Keys
    && (forall e :: FoundOk(x, e, t)) && (forall n :: TakenOk(x, n))
  }

  /** A step gives quota only to the queues of Given, now, and to the others it gives nothing. */
  lemma CapacityNext(x: Wake, ev: WakeEvent, n: string, time: nat)
    requires Timely(x) && time <= x.clock && NothingSince(Next(x, ev), n, time)
    ensures NothingSince(x, n, time) && n !in Given(x, ev)
  {
    hide Apply, ReleaseAfter, RequeueWorkload, TakeHeads, FlushedByCall, GivenByCall, CohortOf, FlushedBy;
  }

  lemma TriedNext(x: Wake, ev: WakeEvent)
    ensures Next(x, ev).tried == if Records(ev) then x.tried[TrialOf(ev.info) := x.headsAt] else x.tried
    ensures !ev.Heads? ==> Next(x, ev).headsAt == x.headsAt
  {
    hide Apply, ReleaseAfter, RequeueWorkload, TakeHeads, FlushedByCall, GivenByCall, CohortOf, FlushedBy;
  }

  lemma BothKeepsTaken(x: Joint, ev: JointEvent, y: Joint, t: Templates, n: string)
    requires Inv(x, t) && ev.Both? && Step(x, ev, y, t)
    ensures TakenOk(y, n)
  {
    hide DidNotFitIn, Caches.Ok, NoRoomier, Next, Given, FoundOk, Enabled;
    TriedNext(x.wake, ev.ev);
    if y.taken.Some? && NothingSince(y.wake, n, y.wake.headsAt) {
      CapacityNext(x.wake, ev.ev, n, x.wake.headsAt);
      assert TakenOk(x, n);
      NoRoomierTrans(S.Live(x.taken.value), S.Live(x.cache), S.Live(y.cache), n);
    }
  }

  lemma BothKeepsFound(x: Joint, ev: JointEvent, y: Joint, t: Templates, e: Trial)
    requires Inv(x, t) && ev.Both? && Step(x, ev, y, t) && TakenOk(y, e.queue)
    ensures FoundOk(y, e, t)
  {
    hide DidNotFitIn, Caches.Ok, NoRoomier, Next, Given, Enabled;
    TriedNext(x.wake, ev.ev);
    if e in y.found && y.found[e].DidNotFit? && e in y.wake.tried && NothingSince(y.wake, e.queue, y.wake.tried[e]) {
      if !(Records(ev.ev) && e == TrialOf(ev.ev.info)) {
        CapacityNext(x.wake, ev.ev, e.queue, x.wake.tried[e]);
        assert FoundOk(x, e, t);
        NoRoomierTrans(S.Live(x.found[e].cache), S.Live(x.cache), S.Live(y.cache), e.queue);
      }
    }
  }

  lemma StepKeepsInv(x: Joint, ev: JointEvent, y: Joint, t: Templates)
    requires Inv(x, t) && Step(x, ev, y, t)
    ensures Inv(y, t)
  {
    hide DidNotFitIn, Caches.Ok, NoRoomier, Next, Given, Enabled, FoundOk, TakenOk, Timely;
    if ev.Both? {
      StepKeepsTimely(x.wake, ev.ev);
      TriedNext(x.wake, ev.ev);
      forall n ensures TakenOk(y, n) { BothKeepsTaken(x, ev, y, t, n); }
      forall e ensures FoundOk(y, e, t) { BothKeepsFound(x, ev, y, t, e); }
    } else {
      forall n ensures TakenOk(y, n) { CacheStepKeepsTaken(x, ev, y, t, n); }
      forall e ensures FoundOk(y, e, t) { CacheStepKeepsFound(x, ev, y, t, e); }
    }
  }

  lemma CacheStepKeepsTaken(x: Joint, ev: JointEvent, y: Joint, t: Templates, n: string)
    requires TakenOk(x, n) && !ev.Both? && Step(x, ev, y, t)
    ensures TakenOk(y, n)
  {
    hide WithinLive, Caches.Ok;
    if ev.CacheOnly? && x.taken.Some? && NothingSince(x.wake, n, x.wake.headsAt) {
      NoRoomierTrans(S.Live(x.taken.value), S.Live(x.cache), S.Live(y.cache), n);
    }
  }

  lemma CacheStepKeepsFound(x: Joint, ev: JointEvent, y: Joint, t: Templates, e: Trial)
    requires FoundOk(x, e, t) && !ev.Both? && Step(x, ev, y, t)
    ensures FoundOk(y, e, t)
  {
    hide DidNotFitIn, Caches.Ok, NoRoomier;
    if ev.CacheOnly? && e in x.found && x.found[e].DidNotFit? && e in x.wake.tried
       && NothingSince(x.wake, e.queue, x.wake.tried[e]) {
      NoRoomierTrans(S.Live(x.found[e].cache), S.Live(x.cache), S.Live(y.cache), e.queue);
    }
  }

  lemma {:induction false} RunKeepsInv(x: Joint, evs: seq<JointEvent>, y: Joint, t: Templates)
    requires Inv(x, t) && JointRun(x, evs, y, t)
    ensures Inv(y, t)
    decreases |evs|
  {
    hide Inv, Step;
    if evs != [] {
      var z :| Step(x, evs[0], z, t) && JointRun(z, evs[1..], y, t);
      StepKeepsInv(x, evs[0], z, t);
      RunKeepsInv(z, evs[1..], y, t);
    }
  }

  // ---------- what is parked does not fit ----------

  /** The trial is parked for a reason: it failed the selector, was rejected, or does not fit now. */
  ghost predicate HasReason(x: Joint, e: Trial, t: Templates) {
    || (e.queue in x.wake.stayed && e.key in x.wake.stayed[e.queue])
    || (e in x.found && x.found[e].Rejected?)
    || DoesNotFit(x.cache, e, t)
  }

  /**
   * In every joint run in which each step of the manager's history meets its condition, a parked workload without
   * detours failed the selector, was rejected at its last trial, or does not fit the cache as it is now.
   */
  lemma ParkedDoesNotFit(evs: seq<JointEvent>, y: Joint, t: Templates, n: string, k: Name)
    requires JointRun(JOINT_START, evs, y, t) && AllKeep(START, WakeEvents(evs))
    requires n in y.wake.m.queues && k in y.wake.m.queues[n].parked
    requires var e := Trial(n, k, y.wake.m.queues[n].parked[k].obj.spec);
             n in S.Live(y.cache) ==> NoDetour(S.Live(y.cache)[n].spec, PodSetsOf(e.spec, S.Live(y.cache)[n].spec))
    ensures HasReason(y, Trial(n, k, y.wake.m.queues[n].parked[k].obj.spec), t)
  {
    hide JointRun, AllKeep, DidNotFitIn, DoesNotFit, NoDetour, NoRoomier, Caches.Ok, Run;
    StartOk(t);
    RunKeepsInv(JOINT_START, evs, y, t);
    RunProjects(JOINT_START, evs, y, t);
    RunKeepsIff(START, WakeEvents(evs), y.wake);
    var e := Trial(n, k, y.wake.m.queues[n].parked[k].obj.spec);
    assert RightlyParked(y.wake, n, k, e.spec);
    if !(n in y.wake.stayed && k in y.wake.stayed[n]) && !y.found[e].Rejected? {
      assert FoundOk(y, e, t);
      StillDoesNotFit(y.found[e].cache, y.cache, e, t);
    }
  }

  /** So it is in every joint run of settled steps. */
  lemma SettledParkedDoesNotFit(evs: seq<JointEvent>, y: Joint, t: Templates, n: string, k: Name)
    requires JointRun(JOINT_START, evs, y, t) && AllSettled(START, WakeEvents(evs))
    requires n in y.wake.m.queues && k in y.wake.m.queues[n].parked
    requires var e := Trial(n, k, y.wake.m.queues[n].parked[k].obj.spec);
             n in S.Live(y.cache) ==> NoDetour(S.Live(y.cache)[n].spec, PodSetsOf(e.spec, S.Live(y.cache)[n].spec))
    ensures HasReason(y, Trial(n, k, y.wake.m.queues[n].parked[k].obj.spec), t)
  {
    hide JointRun, AllKeep, AllSettled, HasReason, NoDetour, Run, NeverLost, Inv;
    StartOk(t);
    RunProjects(JOINT_START, evs, y, t);
    SettledNeverLoses(START, WakeEvents(evs), y.wake);
    ParkedDoesNotFit(evs, y, t, n, k);
  }

  lemma StartOk(t: Templates)
    ensures Inv(JOINT_START, t) && NoLostWakeUp(START) && Sane(START)
  {
  }
}
