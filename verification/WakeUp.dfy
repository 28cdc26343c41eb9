/**
 * No lost wake-up: the scheduler loop, releases and all other manager calls in any order
 * (pkg/queue/cluster_queue_impl.go, pkg/queue/manager.go).
 */
module WakeUp {
  import opened Model
  import opened Heaps
  import opened PendingQueues
  import opened Managers
  import opened ManagerIndex

  /** A workload, with the specification that it has, as the head of a queue. */
  datatype Trial = Trial(queue: string, key: Name, spec: Spec)

  /**
   * The manager with its history. Times are values of `clock`, which counts steps.
   *   headsAt    when the scheduler last took heads
   *   inFlight   heads of the current cycle that were not requeued or settled yet
   *   tried      for each workload as it is and each queue, when the heads were taken with which it was last tried
   *              there and found not to fit or rejected
   *   capacity   for each queue, the last event that may have freed quota in its cohort
   *   stayed     for each queue, what failed the namespace selector at its latest flush
   */
  datatype Wake = Wake(m: ManagerState, clock: nat, headsAt: nat, inFlight: set<Trial>, tried: map<Trial, nat>,
                       capacity: map<string, nat>, stayed: map<string, set<Name>>)

  /**
   * Retry is the requeueing at the end of a cycle; the info names the queue that it was popped from. A release frees
   * quota in queue `from`; so does Freed, but without telling the manager, as when an assumed workload is forgotten
   * because its admission could not be written. A call says whether a queue that it takes out of a cohort used more
   * there than it brought.
   */
  datatype WakeEvent =
    | Heads(active: set<string>, picks: map<string, Name>)
    | Retry(info: Info, current: Option<Workload>, reason: RequeueReason)
    | Settle(head: Trial)
    | LateRetry(info: Info, current: Option<Workload>)
    | Release(w: Workload, from: string, sel: Selector)
    | Freed(from: string)
    | Call(ev: Event, excess: bool)

  /** The queues that share quota with n. */
  ghost function CohortOf(m: ManagerState, n: string): set<string> {
    set j | j in m.queues && n in m.queues &&
            (j == n || (m.queues[j].cohort == m.queues[n].cohort && m.queues[n].cohort != ""))
  }

  /** The queues that a release flushes: those of the LocalQueue the released workload was submitted to. */
  function FlushedBy(m: ManagerState, w: Workload): set<string> {
    if w.QueueKey() in m.locals && m.locals[w.QueueKey()].clusterQueue in m.queues
    then FlushedWith(m, m.locals[w.QueueKey()].clusterQueue) else {}
  }

  /** The LocalQueue of the released workload still exists and still points into the cohort that it frees quota in. */
  ghost predicate Routed(m: ManagerState, w: Workload, from: string) {
    w.QueueKey() in m.locals && m.locals[w.QueueKey()].clusterQueue in CohortOf(m, from)
  }

  /** The queues that a call other than a release flushes, and those whose cohort it may give quota to. */
  ghost function FlushedByCall(m: ManagerState, ev: Event): set<string> {
    match ev
    case EvAddClusterQueue(n, cohort, strategy, listed, sel) =>
      if n in m.queues then {} else FlushedWith(AddClusterQueue(m, n, cohort, strategy, listed, sel), n)
    case EvUpdateClusterQueue(n, cohort, sel) =>
      if n !in m.queues then {} else FlushedWith(UpdateClusterQueue(m, n, cohort, sel), n)
    case EvFlush(ns, sel) => ReachedFrom(m, ns)
    case _ => {}
  }

  ghost function GivenByCall(m: ManagerState, ev: Event, excess: bool): set<string> {
    match ev
    case EvAddClusterQueue(n, _, _, _, _) => if n in m.queues then {} else CohortOf(Apply(m, ev), n)
    case EvUpdateClusterQueue(n, cohort, _) =>
      if n !in m.queues then {}
      else CohortOf(Apply(m, ev), n) + if cohort != m.queues[n].cohort && excess then CohortOf(m, n) - {n} else {}
    case EvDeleteClusterQueue(n, _) => if excess then CohortOf(m, n) - {n} else {}
    case EvFlush(ns, sel) => set n, j | n in ns && n in m.queues && j in CohortOf(m, n) :: j
    case _ => {}
  }

  ghost predicate Enabled(x: Wake, ev: WakeEvent) {
    match ev
    case Heads(active, picks) => x.inFlight == {} && PicksOk(x.m, active, picks)
    case Retry(info, current, _) =>
      TrialOf(info) in x.inFlight && (current.Some? ==> current.value.key == info.obj.key)
    case Settle(_) => true
    case LateRetry(info, current) => current.Some? ==> current.value.key == info.obj.key
    case Release(_, _, _) => true
    case Freed(_) => true
    case Call(ev, _) => !ev.EvHeads? && !ev.EvRequeue? && !ev.EvRelease?
  }

  /** Records a step that flushed some queues and may have given quota to some. */
  ghost function Flushed(x: Wake, m: ManagerState, flushed: set<string>, given: set<string>): Wake {
    x.(m := m, clock := x.clock + 1,
       capacity := map n | n in x.capacity.Keys + given :: if n in given then x.clock + 1 else x.capacity[n],
       stayed := map n | n in x.stayed.Keys + (flushed * m.queues.Keys) ::
         if n in flushed && n in m.queues then m.queues[n].parked.Keys else x.stayed[n])
  }

  ghost function Trials(m: ManagerState, picks: map<string, Name>): set<Trial> {
    set n | n in picks && n in m.queues && picks[n] in m.queues[n].heap ::
      Trial(n, picks[n], m.queues[n].heap[picks[n]].obj.spec)
  }

  /** The trial that a head's info stands for. */
  function TrialOf(info: Info): Trial { Trial(info.clusterQueue, info.obj.key, info.obj.spec) }

  /** A head that did not fit or was rejected is requeued with one of these reasons. */
  predicate Unsuccessful(reason: RequeueReason) { reason == Generic || reason == NamespaceMismatch }

  ghost function Recorded(x: Wake, info: Info, reason: RequeueReason): Wake {
    if Unsuccessful(reason) then x.(tried := x.tried[TrialOf(info) := x.headsAt]) else x
  }

  ghost function Next(x: Wake, ev: WakeEvent): Wake {
    match ev
    case Heads(active, picks) =>
      var t := x.clock + 1;
      x.(m := TakeHeads(x.m, active, picks), clock := t, headsAt := t, inFlight := Trials(x.m, picks))
    case Retry(info, current, reason) =>
      Recorded(x, info, reason).(m := RequeueWorkload(x.m, info, current, reason), clock := x.clock + 1,
                                 inFlight := x.inFlight - {TrialOf(info)})
    case Settle(head) => x.(clock := x.clock + 1, inFlight := x.inFlight - {head})
    case LateRetry(info, current) =>
      x.(m := RequeueWorkload(x.m, info, current, FailedAfterNomination), clock := x.clock + 1)
    case Release(w, from, sel) => Flushed(x, ReleaseAfter(x.m, w, sel), FlushedBy(x.m, w), CohortOf(x.m, from))
    case Freed(from) => Flushed(x, x.m, {}, CohortOf(x.m, from))
    case Call(ev, excess) => Flushed(x, Apply(x.m, ev), FlushedByCall(x.m, ev), GivenByCall(x.m, ev, excess))
  }

  ghost predicate Run(x: Wake, evs: seq<WakeEvent>, y: Wake)
    decreases |evs|
  {
    if evs == [] then y == x else Enabled(x, evs[0]) && Run(Next(x, evs[0]), evs[1..], y)
  }

  const START := Wake(ManagerState(map[], map[], map[]), 0, 0, {}, map[], map[], map[])

  // ---------- the property ----------

  /**
   * Workload k with this specification, parked in queue n, has nothing to wait for: it failed the namespace selector at
   * the latest flush of n, or was tried in n, as it is and without success, with heads taken after the last event that
   * may have freed quota in n's cohort.
   */
  ghost predicate RightlyParked(x: Wake, n: string, k: Name, spec: Spec) {
    (n in x.stayed && k in x.stayed[n]) ||
    (Trial(n, k, spec) in x.tried && (n in x.capacity ==> x.capacity[n] < x.tried[Trial(n, k, spec)]))
  }

  ghost predicate NoLostWakeUp(x: Wake) {
    forall n, k :: n in x.m.queues && k in x.m.queues[n].parked ==>
      RightlyParked(x, n, k, x.m.queues[n].parked[k].obj.spec)
  }

  // ---------- when a step keeps the property ----------

  /** Everything that queue n parks failed the selector at its latest flush. */
  ghost predicate AllStayed(x: Wake, n: string) {
    n in x.m.queues ==> forall k :: k in x.m.queues[n].parked ==> n in x.stayed && k in x.stayed[n]
  }

  /** Requeueing puts the newest version in the parking map of the queue that its LocalQueue points to now. */
  ghost predicate Parks(m: ManagerState, info: Info, current: Option<Workload>, reason: RequeueReason) {
    && current.Some? && !current.value.IsAdmitted() && current.value.QueueKey() in m.locals
    && var n := m.locals[current.value.QueueKey()].clusterQueue;
    && n in m.queues && !Immediate(m.queues[n].strategy, reason) && m.queues[n].flushCycle < m.queues[n].popCycle
    && !Holds(m.queues[n], current.value.key)
  }

  /**
   * The exact condition for each step. A head may be parked where it had its turn, as it is, after the last event that
   * may have freed quota. Quota may be freed in queues that the step flushes, or where all that is parked failed the
   * selector.
   */
  ghost predicate Keeps(x: Wake, ev: WakeEvent) {
    match ev
    case Retry(info, current, reason) =>
      Parks(x.m, info, current, reason) ==>
        RightlyParked(Recorded(x, info, reason), x.m.locals[current.value.QueueKey()].clusterQueue, info.obj.key,
                      current.value.spec)
    case Release(w, from, _) => forall n :: n in CohortOf(x.m, from) - FlushedBy(x.m, w) ==> AllStayed(x, n)
    case Freed(from) => forall n :: n in CohortOf(x.m, from) ==> AllStayed(x, n)
    case Call(ev, excess) =>
      forall n :: n in GivenByCall(x.m, ev, excess) - FlushedByCall(x.m, ev) ==> AllStayed(x, n)
    case _ => true
  }

  /** What every history has: times in order, and every queue listed under its cohort. */
  ghost predicate Sane(x: Wake) {
    Timely(x) && CohortsIndexed(x.m)
  }

  ghost predicate Timely(x: Wake) {
    && x.headsAt <= x.clock && (forall n :: n in x.capacity ==> x.capacity[n] <= x.clock)
    && (forall e :: e in x.tried ==> x.tried[e] <= x.headsAt)
  }

  // ---------- steps that neither park, pop nor flush ----------

  /** What a queue may become in a step that neither parks in it, pops nor flushes it. */
  ghost predicate NoFuller(q: Pending, was: Pending) {
    && (forall k :: k in q.parked ==> k in was.parked && q.parked[k].obj.spec == was.parked[k].obj.spec)
    && q.popCycle == was.popCycle && q.flushCycle == was.flushCycle
  }

  ghost predicate Calmer(m: ManagerState, m': ManagerState) {
    forall n :: n in m'.queues ==>
      n in m.queues && NoFuller(m'.queues[n], m.queues[n]) && m'.queues[n].cohort == m.queues[n].cohort
  }

  /** A step in which nothing is tried, parked or given keeps the property. */
  lemma CalmerKeeps(x: Wake, y: Wake)
    requires NoLostWakeUp(x) && Calmer(x.m, y.m)
    requires y.capacity == x.capacity && y.stayed == x.stayed
    requires forall e :: e in x.tried ==> e in y.tried && x.tried[e] <= y.tried[e]
    ensures NoLostWakeUp(y)
  {
    forall n, k | n in y.m.queues && k in y.m.queues[n].parked
      ensures RightlyParked(y, n, k, y.m.queues[n].parked[k].obj.spec)
    {
      assert RightlyParked(x, n, k, x.m.queues[n].parked[k].obj.spec);
    }
  }

  lemma CalmerTransitive(m: ManagerState, m': ManagerState, m'': ManagerState)
    requires Calmer(m, m') && Calmer(m', m'')
    ensures Calmer(m, m'')
  {
  }

  lemma DropCalmer(m: ManagerState, n: string, ks: set<Name>)
    ensures Calmer(m, DropFrom(m, n, ks))
  {
  }

  lemma AddCalmer(m: ManagerState, n: string, items: map<Name, Info>)
    ensures Calmer(m, AddTo(m, n, items))
  {
  }

  lemma UpdateLocalCalmer(m: ManagerState, l: Name, n: string)
    ensures Calmer(m, UpdateLocalQueue(m, l, n))
  {
    hide DropFrom, AddTo;
    if l in m.locals {
      var lq := m.locals[l];
      DropCalmer(m, lq.clusterQueue, lq.items.Keys);
      AddCalmer(DropFrom(m, lq.clusterQueue, lq.items.Keys), n, lq.items);
    }
  }

  lemma PushedNoFuller(q: Pending, info: Info)
    ensures NoFuller(Pushed(q, info), q) && Pushed(q, info).cohort == q.cohort
  {
  }

  lemma NoFullerItself(m: ManagerState)
    ensures forall n :: n in m.queues ==> NoFuller(m.queues[n], m.queues[n])
  {
  }

  lemma WorkloadCalmer(m: ManagerState, k: Name, l: Name, w: Workload)
    ensures Calmer(m, AddOrUpdate(m, w)) && Calmer(m, RemoveWorkload(m, k, l))
  {
    hide DropFrom, Pushed, NoFuller;
    if w.QueueKey() in m.locals && m.locals[w.QueueKey()].clusterQueue in m.queues {
      PushedNoFuller(m.queues[m.locals[w.QueueKey()].clusterQueue], NewInfo(w));
    }
    NoFullerItself(m);
    if l in m.locals {
      DropCalmer(WithLocal(m, l, m.locals[l].(items := m.locals[l].items - {k})), m.locals[l].clusterQueue, {k});
    }
  }

  lemma UpdateWorkloadCalmer(m: ManagerState, was: Workload, w: Workload)
    ensures Calmer(m, UpdateWorkload(m, was, w))
  {
    hide Calmer, AddOrUpdate, RemoveWorkload;
    WorkloadCalmer(m, w.key, was.QueueKey(), w);
    var m' := RemoveWorkload(m, w.key, was.QueueKey());
    WorkloadCalmer(m', w.key, was.QueueKey(), w);
    CalmerTransitive(m, m', AddOrUpdate(m', w));
  }

  /** A workload whose admission failed late goes straight back to the heap, under both queueing strategies. */
  lemma LateRetryCalmer(m: ManagerState, info: Info, current: Option<Workload>)
    ensures Calmer(m, RequeueWorkload(m, info, current, FailedAfterNomination))
  {
  }

  lemma CalmCall(m: ManagerState, ev: Event)
    requires ev.EvDeleteClusterQueue? || ev.EvAddLocalQueue? || ev.EvUpdateLocalQueue? || ev.EvDeleteLocalQueue?
          || ev.EvAddOrUpdateWorkload? || ev.EvUpdateWorkload? || ev.EvDeleteWorkload?
    ensures Calmer(m, Apply(m, ev))
  {
    hide UpdateLocalQueue, UpdateWorkload, AddOrUpdate, RemoveWorkload, DropFrom, AddTo;
    match ev
    case EvDeleteClusterQueue(n, cohort) =>
    case EvAddLocalQueue(l, n, listed) =>
      AddCalmer(WithLocal(m, l, LocalQueue(n, ItemsOf(listed))), n, ItemsOf(listed));
    case EvUpdateLocalQueue(l, n) => UpdateLocalCalmer(m, l, n);
    case EvDeleteLocalQueue(l) => if l in m.locals { DropCalmer(m, m.locals[l].clusterQueue, m.locals[l].items.Keys); }
    case EvAddOrUpdateWorkload(w) => WorkloadCalmer(m, w.key, w.QueueKey(), w);
    case EvUpdateWorkload(was, w) => UpdateWorkloadCalmer(m, was, w);
    case EvDeleteWorkload(w) => WorkloadCalmer(m, w.key, w.QueueKey(), w);
  }

  lemma CalmCallKeepsCohorts(m: ManagerState, ev: Event)
    requires ev.EvDeleteClusterQueue? || ev.EvAddLocalQueue? || ev.EvUpdateLocalQueue? || ev.EvDeleteLocalQueue?
          || ev.EvAddOrUpdateWorkload? || ev.EvUpdateWorkload? || ev.EvDeleteWorkload?
    requires CohortsIndexed(m)
    ensures CohortsIndexed(Apply(m, ev))
  {
    hide Apply;
    CalmCall(m, ev);
    if ev.EvDeleteClusterQueue? {
      DeleteQueueKeepsCohorts(m, ev);
    } else {
      CallKeepsCohortMap(m, ev);
    }
  }

  lemma DeleteQueueKeepsCohorts(m: ManagerState, ev: Event)
    requires ev.EvDeleteClusterQueue? && CohortsIndexed(m)
    ensures CohortsIndexed(Apply(m, ev))
  {
    var m' := Apply(m, ev);
    forall i | i in m'.queues && m'.queues[i].cohort != ""
      ensures m'.queues[i].cohort in m'.cohorts && i in m'.cohorts[m'.queues[i].cohort]
    {
      if ev.n in m.queues { assert i in m.cohorts[m.queues[i].cohort] - {ev.n}; }
    }
  }

  lemma CallKeepsCohortMap(m: ManagerState, ev: Event)
    requires ev.EvAddLocalQueue? || ev.EvUpdateLocalQueue? || ev.EvDeleteLocalQueue?
          || ev.EvAddOrUpdateWorkload? || ev.EvUpdateWorkload? || ev.EvDeleteWorkload?
    ensures Apply(m, ev).cohorts == m.cohorts
  {
    hide Pushed, NewInfo, Drop, AddFrom, ItemsOf;
  }

  // ---------- steps that flush ----------

  /**
   * What such a step does to the manager: flushed queues have recorded the flush, the others hold no more than before,
   * and a queue that is given quota without a flush is as it was.
   */
  ghost predicate Shape(m: ManagerState, m': ManagerState, flushed: set<string>, given: set<string>) {
    && CohortsIndexed(m')
    && (forall n :: n in m'.queues && n in flushed ==> m'.queues[n].flushCycle == m'.queues[n].popCycle)
    && (forall n :: n in m'.queues && n !in flushed ==> n in m.queues && NoFuller(m'.queues[n], m.queues[n]))
    && (forall n :: n in given && n !in flushed ==> n in m'.queues && n in m.queues && m'.queues[n] == m.queues[n])
  }

  lemma FlushedKeepsIff(x: Wake, m: ManagerState, flushed: set<string>, given: set<string>)
    requires NoLostWakeUp(x) && Timely(x) && Shape(x.m, m, flushed, given)
    ensures NoLostWakeUp(Flushed(x, m, flushed, given)) <==> forall n :: n in given - flushed ==> AllStayed(x, n)
  {
    hide CohortsIndexed;
    if forall n :: n in given - flushed ==> AllStayed(x, n) {
      FlushedKeeps(x, m, flushed, given);
    } else {
      var n :| n in given - flushed && !AllStayed(x, n);
      FlushedLoses(x, m, flushed, given, n);
    }
  }

  lemma FlushedKeeps(x: Wake, m: ManagerState, flushed: set<string>, given: set<string>)
    requires NoLostWakeUp(x) && Shape(x.m, m, flushed, given) && forall n :: n in given - flushed ==> AllStayed(x, n)
    ensures NoLostWakeUp(Flushed(x, m, flushed, given))
  {
    hide CohortsIndexed;
    var y := Flushed(x, m, flushed, given);
    forall n, k | n in y.m.queues && k in y.m.queues[n].parked
      ensures RightlyParked(y, n, k, y.m.queues[n].parked[k].obj.spec)
    {
      if n !in flushed {
        assert RightlyParked(x, n, k, x.m.queues[n].parked[k].obj.spec);
        assert n in given ==> n in given - flushed;
      }
    }
  }

  lemma FlushedLoses(x: Wake, m: ManagerState, flushed: set<string>, given: set<string>, n: string)
    requires Timely(x) && n in given - flushed && !AllStayed(x, n) && Shape(x.m, m, flushed, given)
    ensures !NoLostWakeUp(Flushed(x, m, flushed, given))
  {
    hide CohortsIndexed;
    var y := Flushed(x, m, flushed, given);
    assert y.capacity[n] == x.clock + 1;
    var k :| k in x.m.queues[n].parked && !(n in x.stayed && k in x.stayed[n]);
    assert k in y.m.queues[n].parked && !RightlyParked(y, n, k, y.m.queues[n].parked[k].obj.spec);
  }

  lemma FlushTheseCounters(m: ManagerState, ns: set<string>, sel: Selector)
    ensures var m' := FlushThese(m, ns, sel);
            && m'.queues.Keys == m.queues.Keys && m'.cohorts == m.cohorts
            && (forall n :: n in m.queues ==> m'.queues[n].cohort == m.queues[n].cohort)
            && (forall n :: n in m.queues && n in ns ==> m'.queues[n].flushCycle == m'.queues[n].popCycle)
            && (forall n :: n in m.queues && n !in ns ==> m'.queues[n] == m.queues[n])
            && (forall n :: n in m.queues ==> FlushedWith(m', n) == FlushedWith(m, n))
            && (forall n :: CohortOf(m', n) == CohortOf(m, n))
            && (CohortsIndexed(m) ==> CohortsIndexed(m'))
  {
    hide Stays;
  }

  /** The cohort index finds every queue that shares quota. */
  lemma CohortIsFlushed(m: ManagerState, n: string, j: string)
    requires CohortsIndexed(m) && j in m.queues && n in CohortOf(m, j)
    ensures n in m.queues && CohortOf(m, j) <= FlushedWith(m, n)
  {
  }

  lemma FlushShape(m: ManagerState, ns: set<string>, sel: Selector, given: set<string>)
    requires CohortsIndexed(m) && given <= m.queues.Keys
    ensures Shape(m, FlushThese(m, ns, sel), ns, given)
  {
    hide FlushThese, CohortsIndexed;
    FlushTheseCounters(m, ns, sel);
  }

  lemma ReleaseShape(m: ManagerState, w: Workload, from: string, sel: Selector)
    requires CohortsIndexed(m)
    ensures Shape(m, ReleaseAfter(m, w, sel), FlushedBy(m, w), CohortOf(m, from))
  {
    hide FlushThese, FlushedWith, CohortsIndexed, Shape;
    CohortsAreQueues(m, from);
    if w.QueueKey() in m.locals && m.locals[w.QueueKey()].clusterQueue in m.queues {
      FlushShape(m, FlushedBy(m, w), sel, CohortOf(m, from));
    } else {
      FlushNothing(m, sel);
      FlushShape(m, {}, sel, CohortOf(m, from));
    }
  }

  lemma FlushNothing(m: ManagerState, sel: Selector)
    ensures FlushThese(m, {}, sel) == m
  {
    hide Flush;
    assert FlushThese(m, {}, sel).queues == m.queues;
  }

  lemma CohortsAreQueues(m: ManagerState, n: string)
    ensures CohortOf(m, n) <= m.queues.Keys
  {
  }

  /** One queue is new or changed, its cohort is flushed, and the cohort that it left may have been given quota. */
  lemma QueueEventShape(m: ManagerState, m1: ManagerState, n: string, sel: Selector, left: set<string>)
    requires CohortsIndexed(m1) && n in m1.queues && left <= m.queues.Keys - {n}
    requires m1.queues.Keys == m.queues.Keys + {n}
    requires forall i :: i in m1.queues && i != n ==> i in m.queues && m1.queues[i] == m.queues[i]
    ensures var m' := FlushThese(m1, FlushedWith(m1, n), sel);
            Shape(m, m', FlushedWith(m', n), CohortOf(m', n) + left)
  {
    hide FlushThese;
    FlushTheseCounters(m1, FlushedWith(m1, n), sel);
    CohortIsFlushed(m1, n, n);
  }

  lemma AddQueueShape(m: ManagerState, ev: Event, excess: bool)
    requires CohortsIndexed(m) && ev.EvAddClusterQueue?
    ensures Shape(m, Apply(m, ev), FlushedByCall(m, ev), GivenByCall(m, ev, excess))
  {
    hide FlushThese, FlushedWith, CohortOf, AddListed, CohortsIndexed;
    if ev.n !in m.queues {
      AddedIndexed(m, ev.n, ev.cohort, ev.strategy, ev.listedQueues);
      var m1 := m.(queues := m.queues[ev.n := AddListed(NewPending(ev.cohort, ev.strategy), m.locals, ev.listedQueues)],
                   cohorts := if ev.cohort != "" then JoinCohort(m.cohorts, ev.cohort, ev.n) else m.cohorts);
      QueueEventShape(m, m1, ev.n, ev.sel, {});
      assert GivenByCall(m, ev, excess) + {} == GivenByCall(m, ev, excess);
    }
  }

  lemma UpdateQueueShape(m: ManagerState, ev: Event, excess: bool)
    requires CohortsIndexed(m) && ev.EvUpdateClusterQueue?
    ensures Shape(m, Apply(m, ev), FlushedByCall(m, ev), GivenByCall(m, ev, excess))
  {
    hide FlushThese, FlushedWith, CohortOf, CohortsIndexed;
    if ev.n in m.queues {
      RejoinedCohorts(m, ev.n, ev.cohort);
      CohortsAreQueues(m, ev.n);
      var left := if ev.cohort != m.queues[ev.n].cohort && excess then CohortOf(m, ev.n) - {ev.n} else {};
      QueueEventShape(m, Rejoined(m, ev.n, ev.cohort), ev.n, ev.sel, left);
    }
  }

  lemma CallShape(m: ManagerState, ev: Event, excess: bool)
    requires CohortsIndexed(m) && !ev.EvHeads? && !ev.EvRequeue? && !ev.EvRelease?
    ensures Shape(m, Apply(m, ev), FlushedByCall(m, ev), GivenByCall(m, ev, excess))
  {
    if ev.EvAddClusterQueue? {
      AddQueueShape(m, ev, excess);
    } else if ev.EvUpdateClusterQueue? {
      UpdateQueueShape(m, ev, excess);
    } else if ev.EvFlush? {
      hide FlushThese, FlushedWith, CohortsIndexed;
      var given := set n, j | n in ev.ns && n in m.queues && j in CohortOf(m, n) :: j;
      FlushShape(m, ReachedFrom(m, ev.ns), ev.sel, given);
    } else {
      CalmShape(m, ev, excess);
    }
  }

  lemma CalmShape(m: ManagerState, ev: Event, excess: bool)
    requires ev.EvDeleteClusterQueue? || ev.EvAddLocalQueue? || ev.EvUpdateLocalQueue? || ev.EvDeleteLocalQueue?
          || ev.EvAddOrUpdateWorkload? || ev.EvUpdateWorkload? || ev.EvDeleteWorkload?
    requires CohortsIndexed(m)
    ensures Shape(m, Apply(m, ev), FlushedByCall(m, ev), GivenByCall(m, ev, excess))
  {
    hide CohortsIndexed, NoFuller;
    CalmCall(m, ev);
    CalmCallKeepsCohorts(m, ev);
    if ev.EvDeleteClusterQueue? {
      hide LeaveCohort;
      assert forall n :: n in GivenByCall(m, ev, excess) ==> n in m.queues && n != ev.n;
    } else {
      hide Apply;
      assert GivenByCall(m, ev, excess) == {};
    }
  }

  lemma {:induction false} AddListedCohort(q: Pending, locals: map<Name, LocalQueue>, listed: seq<Name>)
    ensures AddListed(q, locals, listed).cohort == q.cohort
    decreases |listed|
  {
    if listed != [] { AddListedCohort(q, locals, listed[..|listed| - 1]); }
  }

  // ---------- the scheduler loop ----------

  lemma HeadsKeep(x: Wake, active: set<string>, picks: map<string, Name>)
    requires NoLostWakeUp(x) && Sane(x)
    ensures NoLostWakeUp(Next(x, Heads(active, picks)))
  {
    hide CohortsIndexed;
    var y := Next(x, Heads(active, picks));
    forall n, k | n in y.m.queues && k in y.m.queues[n].parked
      ensures RightlyParked(y, n, k, y.m.queues[n].parked[k].obj.spec)
    {
      assert RightlyParked(x, n, k, x.m.queues[n].parked[k].obj.spec);
    }
  }

  /** Requeueing keeps the property if and only if it parks nothing, or the newest version had its turn there. */
  lemma RetryKeepsIff(x: Wake, info: Info, current: Option<Workload>, reason: RequeueReason)
    requires NoLostWakeUp(x) && Timely(x) && Enabled(x, Retry(info, current, reason))
    ensures NoLostWakeUp(Next(x, Retry(info, current, reason))) <==> Keeps(x, Retry(info, current, reason))
  {
    var z := Recorded(x, info, reason);
    CalmerReflexive(x.m);
    CalmerKeeps(x, z);
    if Parks(x.m, info, current, reason) {
      RetryParks(z, info, current, reason, Next(x, Retry(info, current, reason)));
    } else {
      hide RequeueWorkload, Calmer, NoLostWakeUp;
      RequeueParksNothing(x.m, info, current, reason);
      CalmerKeeps(z, Next(x, Retry(info, current, reason)));
    }
  }

  lemma RequeueKeepsCounters(m: ManagerState, info: Info, current: Option<Workload>, reason: RequeueReason)
    ensures var m' := RequeueWorkload(m, info, current, reason);
            && m'.queues.Keys == m.queues.Keys && (CohortsIndexed(m) ==> CohortsIndexed(m'))
            && (forall n :: n in m.queues ==>
                  m'.queues[n].popCycle == m.queues[n].popCycle && m'.queues[n].flushCycle == m.queues[n].flushCycle)
  {
  }

  lemma RequeueParksNothing(m: ManagerState, info: Info, current: Option<Workload>, reason: RequeueReason)
    requires !Parks(m, info, current, reason) && (current.Some? ==> current.value.key == info.obj.key)
    ensures Calmer(m, RequeueWorkload(m, info, current, reason))
  {
  }

  lemma RequeueParks(m: ManagerState, info: Info, current: Option<Workload>, reason: RequeueReason)
    requires Parks(m, info, current, reason) && current.value.key == info.obj.key
    ensures var n, m' := m.locals[current.value.QueueKey()].clusterQueue, RequeueWorkload(m, info, current, reason);
            && m'.queues.Keys == m.queues.Keys && info.obj.key !in m.queues[n].parked
            && m'.queues[n].parked == m.queues[n].parked[info.obj.key := info.(obj := current.value)]
            && (forall i :: i in m.queues && i != n ==> m'.queues[i] == m.queues[i])
  {
  }

  lemma RetryParks(x: Wake, info: Info, current: Option<Workload>, reason: RequeueReason, y: Wake)
    requires NoLostWakeUp(x) && Parks(x.m, info, current, reason) && current.value.key == info.obj.key
    requires y.m == RequeueWorkload(x.m, info, current, reason)
    requires y.tried == x.tried && y.capacity == x.capacity && y.stayed == x.stayed
    ensures NoLostWakeUp(y) <==>
            RightlyParked(x, x.m.locals[current.value.QueueKey()].clusterQueue, info.obj.key, current.value.spec)
  {
    hide RequeueWorkload;
    var n := x.m.locals[current.value.QueueKey()].clusterQueue;
    RequeueParks(x.m, info, current, reason);
    assert y.m.queues[n].parked[info.obj.key].obj.spec == current.value.spec;
    if RightlyParked(x, n, info.obj.key, current.value.spec) {
      forall i, k | i in y.m.queues && k in y.m.queues[i].parked
        ensures RightlyParked(y, i, k, y.m.queues[i].parked[k].obj.spec)
      {
        if !(i == n && k == info.obj.key) { assert RightlyParked(x, i, k, x.m.queues[i].parked[k].obj.spec); }
      }
    }
  }

  /**
   * A head that never had its turn, as it is now, in the queue its LocalQueue points to now: the condition is about
   * that queue alone.
   */
  lemma MovedHeadKeepsIff(x: Wake, info: Info, w: Workload, reason: RequeueReason)
    requires NoLostWakeUp(x) && Timely(x) && Enabled(x, Retry(info, Some(w), reason))
    requires !w.IsAdmitted() && w.QueueKey() in x.m.locals
    requires var n := x.m.locals[w.QueueKey()].clusterQueue;
             && n in x.m.queues && !Holds(x.m.queues[n], w.key)
             && Trial(n, w.key, w.spec) != TrialOf(info) && !RightlyParked(x, n, w.key, w.spec)
    ensures var q := x.m.queues[x.m.locals[w.QueueKey()].clusterQueue];
            NoLostWakeUp(Next(x, Retry(info, Some(w), reason))) <==>
            Immediate(q.strategy, reason) || q.flushCycle >= q.popCycle
  {
    hide NoLostWakeUp, Next, Immediate;
    RetryKeepsIff(x, info, Some(w), reason);
  }

  // ---------- every run ----------

  /** For every step of the scheduler loop, every release and every call: the exact condition for losing no wake-up. */
  lemma StepKeepsIff(x: Wake, ev: WakeEvent)
    requires NoLostWakeUp(x) && Sane(x) && Enabled(x, ev)
    ensures NoLostWakeUp(Next(x, ev)) <==> Keeps(x, ev)
  {
    hide NoLostWakeUp, CohortsIndexed, Shape, Flushed, AllStayed, PicksOk, TakeHeads, RequeueWorkload, RightlyParked,
      Parks, Timely, Apply, Calmer;
    match ev
    case Heads(active, picks) => HeadsKeep(x, active, picks);
    case Retry(info, current, reason) => RetryKeepsIff(x, info, current, reason);
    case Settle(head) =>
      CalmerReflexive(x.m);
      CalmerKeeps(x, Next(x, ev));
    case LateRetry(info, current) =>
      LateRetryCalmer(x.m, info, current);
      CalmerKeeps(x, Next(x, ev));
    case Release(w, from, sel) =>
      ReleaseShape(x.m, w, from, sel);
      FlushedKeepsIff(x, ReleaseAfter(x.m, w, sel), FlushedBy(x.m, w), CohortOf(x.m, from));
    case Freed(from) =>
      FreedShape(x.m, from);
      FlushedKeepsIff(x, x.m, {}, CohortOf(x.m, from));
      assert CohortOf(x.m, from) - {} == CohortOf(x.m, from);
    case Call(ev, excess) =>
      CallShape(x.m, ev, excess);
      FlushedKeepsIff(x, Apply(x.m, ev), FlushedByCall(x.m, ev), GivenByCall(x.m, ev, excess));
  }

  lemma CalmerReflexive(m: ManagerState)
    ensures Calmer(m, m)
  {
  }

  lemma FreedShape(m: ManagerState, from: string)
    requires CohortsIndexed(m)
    ensures Shape(m, m, {}, CohortOf(m, from))
  {
    hide CohortsIndexed;
  }

  lemma StepKeepsSane(x: Wake, ev: WakeEvent)
    requires Sane(x) && Enabled(x, ev)
    ensures Sane(Next(x, ev))
  {
    hide CohortsIndexed, Timely;
    StepKeepsIndexed(x, ev);
    StepKeepsTimely(x, ev);
  }

  lemma StepKeepsTimely(x: Wake, ev: WakeEvent)
    requires Timely(x)
    ensures Timely(Next(x, ev))
  {
    hide Apply, ReleaseAfter, RequeueWorkload, TakeHeads, FlushedByCall, GivenByCall, CohortOf, FlushedBy;
  }

  lemma StepKeepsIndexed(x: Wake, ev: WakeEvent)
    requires CohortsIndexed(x.m) && Enabled(x, ev)
    ensures CohortsIndexed(Next(x, ev).m)
  {
    hide CohortsIndexed, Apply, ReleaseAfter, RequeueWorkload, TakeHeads, FlushedByCall, GivenByCall, CohortOf,
      FlushedBy;
    match ev
    case Heads(active, picks) => HeadsIndexed(x.m, active, picks);
    case Retry(info, current, reason) => RequeueKeepsCounters(x.m, info, current, reason);
    case Settle(head) =>
    case LateRetry(info, current) => RequeueKeepsCounters(x.m, info, current, FailedAfterNomination);
    case Release(w, from, sel) => ReleaseShape(x.m, w, from, sel);
    case Freed(from) =>
    case Call(ev, excess) => CallShape(x.m, ev, excess);
  }

  lemma HeadsIndexed(m: ManagerState, active: set<string>, picks: map<string, Name>)
    requires CohortsIndexed(m)
    ensures CohortsIndexed(TakeHeads(m, active, picks))
  {
    hide PoppedFrom;
  }

  ghost predicate AllKeep(x: Wake, evs: seq<WakeEvent>)
    decreases |evs|
  {
    evs == [] || (Keeps(x, evs[0]) && AllKeep(Next(x, evs[0]), evs[1..]))
  }

  ghost predicate NeverLost(x: Wake, evs: seq<WakeEvent>)
    decreases |evs|
  {
    NoLostWakeUp(x) && (evs != [] ==> NeverLost(Next(x, evs[0]), evs[1..]))
  }

  /** No state of a history has lost a wake-up if and only if each of its steps meets its condition. */
  lemma {:induction false} RunKeepsIff(x: Wake, evs: seq<WakeEvent>, y: Wake)
    requires NoLostWakeUp(x) && Sane(x) && Run(x, evs, y)
    ensures NeverLost(x, evs) <==> AllKeep(x, evs)
    ensures NeverLost(x, evs) ==> NoLostWakeUp(y)
    decreases |evs|
  {
    hide NoLostWakeUp, Sane, Next, Enabled, Keeps;
    if evs != [] {
      StepKeepsIff(x, evs[0]);
      StepKeepsSane(x, evs[0]);
      if NoLostWakeUp(Next(x, evs[0])) { RunKeepsIff(Next(x, evs[0]), evs[1..], y); }
    }
  }

  /**
   * For every interleaving of one scheduler loop with releases and any other calls: in all its states, each parked
   * workload failed the namespace selector at its queue's latest flush, or was tried there, as it is, with heads taken
   * after the last event that may have freed quota in its cohort, if and only if each step meets its condition.
   */
  lemma NoLostWakeUpIff(evs: seq<WakeEvent>, y: Wake)
    requires Run(START, evs, y)
    ensures NeverLost(START, evs) <==> AllKeep(START, evs)
  {
    hide Run, NeverLost, AllKeep;
    assert NoLostWakeUp(START) && Sane(START);
    RunKeepsIff(START, evs, y);
  }

  // ---------- the everyday case, by the handshake ----------

  /**
   * The handshake: while no flush followed the last Pop of a head's queue, its last capacity event came before the
   * heads.
   */
  ghost predicate Handshake(x: Wake) {
    forall e :: e in x.inFlight && e.queue in x.m.queues && e.queue in x.capacity
                && x.m.queues[e.queue].flushCycle < x.m.queues[e.queue].popCycle ==>
      x.capacity[e.queue] < x.headsAt
  }

  /**
   * A requeued head has the specification that was tried, and its LocalQueue still points to the queue that it was
   * popped from; a released workload's LocalQueue points into the cohort that it frees quota in; every freed quota is
   * announced; and no queue takes borrowed quota out of a cohort.
   */
  ghost predicate Settled(x: Wake, ev: WakeEvent) {
    match ev
    case Retry(info, current, _) =>
      current.Some? && current.value.QueueKey() in x.m.locals ==>
        && x.m.locals[current.value.QueueKey()].clusterQueue == info.clusterQueue
        && current.value.spec == info.obj.spec
    case Release(w, from, _) => Routed(x.m, w, from)
    case Freed(_) => false
    case Call(_, excess) => !excess
    case _ => true
  }

  lemma SettledKeeps(x: Wake, ev: WakeEvent)
    requires Sane(x) && Handshake(x) && Enabled(x, ev) && Settled(x, ev)
    ensures Keeps(x, ev)
  {
    hide FlushedWith, CohortsIndexed, CohortOf, AllStayed;
    match ev
    case Release(w, from, sel) => RoutedReaches(x.m, w, from);
    case Call(ev, _) => GivenIsFlushed(x.m, ev);
    case _ =>
  }

  /** A release whose LocalQueue exists and points into the cohort that it frees quota in reaches all of it. */
  lemma RoutedReaches(m: ManagerState, w: Workload, from: string)
    requires CohortsIndexed(m) && Routed(m, w, from)
    ensures CohortOf(m, from) <= FlushedBy(m, w)
  {
    hide FlushedWith, CohortsIndexed;
    CohortIsFlushed(m, m.locals[w.QueueKey()].clusterQueue, from);
  }

  /** Where every given queue is flushed, the handshake is kept. */
  lemma FlushedHandshake(x: Wake, m: ManagerState, flushed: set<string>, given: set<string>)
    requires Handshake(x) && Shape(x.m, m, flushed, given) && given <= flushed
    ensures Handshake(Flushed(x, m, flushed, given))
  {
    hide CohortsIndexed;
    var y := Flushed(x, m, flushed, given);
    forall e | e in y.inFlight && e.queue in y.m.queues && e.queue in y.capacity
               && y.m.queues[e.queue].flushCycle < y.m.queues[e.queue].popCycle
      ensures y.capacity[e.queue] < y.headsAt
    {
      assert e.queue !in flushed;
    }
  }

  lemma SettledHandshake(x: Wake, ev: WakeEvent)
    requires Sane(x) && Handshake(x) && Enabled(x, ev) && Settled(x, ev)
    ensures Handshake(Next(x, ev))
  {
    hide CohortsIndexed, Shape, Flushed, RequeueWorkload, Apply, CohortOf, FlushedByCall, GivenByCall, FlushedBy;
    match ev
    case Heads(active, picks) =>
    case Retry(info, current, reason) => RequeueKeepsCounters(x.m, info, current, reason);
    case Settle(head) =>
    case LateRetry(info, current) => RequeueKeepsCounters(x.m, info, current, FailedAfterNomination);
    case Release(w, from, sel) =>
      ReleaseShape(x.m, w, from, sel);
      RoutedReaches(x.m, w, from);
      FlushedHandshake(x, ReleaseAfter(x.m, w, sel), FlushedBy(x.m, w), CohortOf(x.m, from));
    case Call(ev, excess) =>
      CallShape(x.m, ev, excess);
      GivenIsFlushed(x.m, ev);
      FlushedHandshake(x, Apply(x.m, ev), FlushedByCall(x.m, ev), GivenByCall(x.m, ev, excess));
  }

  /** Apart from queues that leave a cohort, every call flushes all queues that it may give quota to. */
  lemma GivenIsFlushed(m: ManagerState, ev: Event)
    requires CohortsIndexed(m)
    ensures GivenByCall(m, ev, false) <= FlushedByCall(m, ev)
  {
    hide FlushThese, FlushedWith, CohortOf, AddListed, CohortsIndexed;
    match ev
    case EvAddClusterQueue(n, cohort, strategy, listed, sel) =>
      if n !in m.queues {
        AddedIndexed(m, n, cohort, strategy, listed);
        var m1 := m.(queues := m.queues[n := AddListed(NewPending(cohort, strategy), m.locals, listed)],
                     cohorts := if cohort != "" then JoinCohort(m.cohorts, cohort, n) else m.cohorts);
        FlushTheseCounters(m1, FlushedWith(m1, n), sel);
        OwnCohort(Apply(m, ev), n);
      }
    case EvUpdateClusterQueue(n, cohort, sel) =>
      if n in m.queues {
        RejoinedCohorts(m, n, cohort);
        FlushTheseCounters(Rejoined(m, n, cohort), FlushedWith(Rejoined(m, n, cohort), n), sel);
        OwnCohort(Apply(m, ev), n);
      }
    case EvFlush(ns, sel) =>
      forall n | n in ns && n in m.queues ensures CohortOf(m, n) <= FlushedWith(m, n) { OwnCohort(m, n); }
    case _ =>
  }

  lemma OwnCohort(m: ManagerState, n: string)
    requires CohortsIndexed(m) && n in m.queues
    ensures CohortOf(m, n) <= FlushedWith(m, n)
  {
    CohortIsFlushed(m, n, n);
  }

  lemma AddedIndexed(m: ManagerState, n: string, cohort: string, strategy: Strategy, listed: seq<Name>)
    requires CohortsIndexed(m) && n !in m.queues
    ensures CohortsIndexed(m.(queues := m.queues[n := AddListed(NewPending(cohort, strategy), m.locals, listed)],
                              cohorts := if cohort != "" then JoinCohort(m.cohorts, cohort, n) else m.cohorts))
  {
    AddListedCohort(NewPending(cohort, strategy), m.locals, listed);
    hide AddListed;
  }

  ghost predicate AllSettled(x: Wake, evs: seq<WakeEvent>)
    decreases |evs|
  {
    evs == [] || (Settled(x, evs[0]) && AllSettled(Next(x, evs[0]), evs[1..]))
  }

  /** No wake-up is lost in any history of settled steps. */
  lemma {:induction false} SettledNeverLoses(x: Wake, evs: seq<WakeEvent>, y: Wake)
    requires NoLostWakeUp(x) && Sane(x) && Handshake(x) && Run(x, evs, y) && AllSettled(x, evs)
    ensures AllKeep(x, evs) && NeverLost(x, evs) && NoLostWakeUp(y)
    decreases |evs|
  {
    hide NoLostWakeUp, Sane, Handshake, Next, Enabled, Keeps, Settled;
    if evs != [] {
      SettledKeeps(x, evs[0]);
      StepKeepsIff(x, evs[0]);
      StepKeepsSane(x, evs[0]);
      SettledHandshake(x, evs[0]);
      SettledNeverLoses(Next(x, evs[0]), evs[1..], y);
    }
  }

  /**
   * What a broken handshake leads to: quota was freed for a head's queue after the heads were taken and no flush
   * followed its Pop, so requeueing the head parks it although it was not tried since.
   */
  lemma BrokenHandshakeLoses(x: Wake, info: Info, w: Workload, reason: RequeueReason)
    requires Timely(x) && Enabled(x, Retry(info, Some(w), reason)) && Parks(x.m, info, Some(w), reason)
    requires var n := info.clusterQueue;
             && x.m.locals[w.QueueKey()].clusterQueue == n && n in x.capacity && x.capacity[n] >= x.headsAt
             && !(n in x.stayed && w.key in x.stayed[n]) && w.spec == info.obj.spec
    ensures !NoLostWakeUp(Next(x, Retry(info, Some(w), reason)))
  {
    var y, n := Next(x, Retry(info, Some(w), reason)), info.clusterQueue;
    RequeueParks(x.m, info, Some(w), reason);
    assert w.key in y.m.queues[n].parked && !RightlyParked(y, n, w.key, y.m.queues[n].parked[w.key].obj.spec);
  }
}
