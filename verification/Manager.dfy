/**
 * The queue manager (pkg/queue/manager.go): local queues, cluster queues and the cohort index, one atomic step per
 * call.
 */
module Managers {
  import opened Model
  import opened Heaps
  import opened PendingQueues

  datatype LocalQueue = LocalQueue(clusterQueue: string, items: map<Name, Info>)

  datatype ManagerState = ManagerState(queues: map<string, Pending>, locals: map<Name, LocalQueue>,
                                       cohorts: map<string, set<string>>)

  /** Whether a namespace can be read and matches a queue's selector, at the time of a flush. */
  type Selector = (string, string) -> bool

  function For(sel: Selector, n: string): string -> bool { ns => sel(n, ns) }

  // ---------- the operations, on values ----------

  function WithQueue(m: ManagerState, n: string, q: Pending): ManagerState { m.(queues := m.queues[n := q]) }

  function WithLocal(m: ManagerState, l: Name, lq: LocalQueue): ManagerState { m.(locals := m.locals[l := lq]) }

  function JoinCohort(cohorts: map<string, set<string>>, cohort: string, n: string): map<string, set<string>> {
    cohorts[cohort := (if cohort in cohorts then cohorts[cohort] else {}) + {n}]
  }

  function LeaveCohort(cohorts: map<string, set<string>>, cohort: string, n: string): map<string, set<string>> {
    if cohort == "" || cohort !in cohorts then cohorts
    else if cohorts[cohort] - {n} == {} then cohorts - {cohort}
    else cohorts[cohort := cohorts[cohort] - {n}]
  }

  /** The queues flushed together with n: its whole cohort, or n alone. */
  function FlushedWith(m: ManagerState, n: string): set<string>
    requires n in m.queues
  {
    var cohort := m.queues[n].cohort;
    if cohort == "" then {n} else if cohort in m.cohorts then m.cohorts[cohort] * m.queues.Keys else {}
  }

  function FlushThese(m: ManagerState, ns: set<string>, sel: Selector): ManagerState {
    m.(queues := map n | n in m.queues :: if n in ns then Flush(m.queues[n], For(sel, n)) else m.queues[n])
  }

  function AddListed(q: Pending, locals: map<Name, LocalQueue>, listed: seq<Name>): Pending {
    if listed == [] then q
    else
      var r, l := AddListed(q, locals, listed[..|listed| - 1]), listed[|listed| - 1];
      if l in locals then AddFrom(r, locals[l].items) else r
  }

  function AddClusterQueue(m: ManagerState, n: string, cohort: string, strategy: Strategy, listed: seq<Name>,
                           sel: Selector): ManagerState {
    if n in m.queues then m
    else
      var m' := m.(queues := m.queues[n := AddListed(NewPending(cohort, strategy), m.locals, listed)],
                   cohorts := if cohort != "" then JoinCohort(m.cohorts, cohort, n) else m.cohorts);
      FlushThese(m', FlushedWith(m', n), sel)
  }

  function Rejoined(m: ManagerState, n: string, cohort: string): ManagerState
    requires n in m.queues
  {
    var was := m.queues[n].cohort;
    WithQueue(m, n, m.queues[n].(cohort := cohort)).(
      cohorts := if was != cohort then JoinCohort(LeaveCohort(m.cohorts, was, n), cohort, n) else m.cohorts)
  }

  function UpdateClusterQueue(m: ManagerState, n: string, cohort: string, sel: Selector): ManagerState {
    if n !in m.queues then m
    else
      var m' := Rejoined(m, n, cohort);
      FlushThese(m', FlushedWith(m', n), sel)
  }

  /** The cohort to leave is read from the deleted API object. */
  function DeleteClusterQueue(m: ManagerState, n: string, cohort: string): ManagerState {
    if n !in m.queues then m else m.(queues := m.queues - {n}, cohorts := LeaveCohort(m.cohorts, cohort, n))
  }

  function ItemsOf(ws: seq<Workload>): map<Name, Info> {
    if ws == [] then map[]
    else
      var items, w := ItemsOf(ws[..|ws| - 1]), ws[|ws| - 1];
      if w.IsAdmitted() then items else items[w.key := NewInfo(w)]
  }

  function AddTo(m: ManagerState, n: string, items: map<Name, Info>): ManagerState {
    if n in m.queues then WithQueue(m, n, AddFrom(m.queues[n], items)) else m
  }

  function DropFrom(m: ManagerState, n: string, ks: set<Name>): ManagerState {
    if n in m.queues then WithQueue(m, n, Drop(m.queues[n], ks)) else m
  }

  function AddLocalQueue(m: ManagerState, l: Name, n: string, listed: seq<Workload>): ManagerState {
    if l in m.locals then m else AddTo(WithLocal(m, l, LocalQueue(n, ItemsOf(listed))), n, ItemsOf(listed))
  }

  function UpdateLocalQueue(m: ManagerState, l: Name, n: string): ManagerState {
    if l !in m.locals then m
    else
      var lq := m.locals[l];
      var m' := if lq.clusterQueue != n then AddTo(DropFrom(m, lq.clusterQueue, lq.items.Keys), n, lq.items) else m;
      WithLocal(m', l, lq.(clusterQueue := n))
  }

  function DeleteLocalQueue(m: ManagerState, l: Name): ManagerState {
    if l !in m.locals then m
    else
      var m' := DropFrom(m, m.locals[l].clusterQueue, m.locals[l].items.Keys);
      m'.(locals := m'.locals - {l})
  }

  function WithItem(m: ManagerState, l: Name, info: Info): ManagerState
    requires l in m.locals
  {
    WithLocal(m, l, m.locals[l].(items := m.locals[l].items[info.obj.key := info]))
  }

  function AddOrUpdate(m: ManagerState, w: Workload): ManagerState {
    var l := w.QueueKey();
    if l !in m.locals then m
    else
      var m', n := WithItem(m, l, NewInfo(w)), m.locals[l].clusterQueue;
      if n in m.queues then WithQueue(m', n, Pushed(m.queues[n], NewInfo(w))) else m'
  }

  /** `current` is the newest version of the workload, if it still exists. */
  function RequeueWorkload(m: ManagerState, info: Info, current: Option<Workload>,
                           reason: RequeueReason): ManagerState {
    if current.None? || current.value.IsAdmitted() || current.value.QueueKey() !in m.locals then m
    else
      var l, info' := current.value.QueueKey(), info.(obj := current.value);
      var m', n := WithItem(m, l, info'), m.locals[l].clusterQueue;
      if n in m.queues
      then WithQueue(m', n, Requeue(m.queues[n], info', Immediate(m.queues[n].strategy, reason)).0) else m'
  }

  /** Requeueing reports whether the newest version entered the heap or the parking map of an existing queue. */
  predicate RequeueAdds(m: ManagerState, info: Info, current: Option<Workload>, reason: RequeueReason) {
    && current.Some? && !current.value.IsAdmitted() && current.value.QueueKey() in m.locals
    && var n := m.locals[current.value.QueueKey()].clusterQueue;
    n in m.queues && Requeue(m.queues[n], info.(obj := current.value), Immediate(m.queues[n].strategy, reason)).1
  }

  function RemoveWorkload(m: ManagerState, k: Name, l: Name): ManagerState {
    if l !in m.locals then m
    else DropFrom(WithLocal(m, l, m.locals[l].(items := m.locals[l].items - {k})), m.locals[l].clusterQueue, {k})
  }

  function UpdateWorkload(m: ManagerState, was: Workload, w: Workload): ManagerState {
    AddOrUpdate(if was.spec.queueName != w.spec.queueName then RemoveWorkload(m, w.key, was.QueueKey()) else m, w)
  }

  /** QueueAssociatedInadmissibleWorkloadsAfter: the LocalQueue of the released workload decides what is flushed. */
  function ReleaseAfter(m: ManagerState, w: Workload, sel: Selector): ManagerState {
    if w.QueueKey() in m.locals && m.locals[w.QueueKey()].clusterQueue in m.queues
    then FlushThese(m, FlushedWith(m, m.locals[w.QueueKey()].clusterQueue), sel) else m
  }

  /** The queues flushed together with any of ns. */
  function ReachedFrom(m: ManagerState, ns: set<string>): set<string> {
    set n, j | n in ns && n in m.queues && j in FlushedWith(m, n) :: j
  }

  function QueueInadmissible(m: ManagerState, ns: set<string>, sel: Selector): ManagerState {
    FlushThese(m, ReachedFrom(m, ns), sel)
  }

  /** The heads taken from the active queues: one from each that has any, and one that may come first. */
  ghost predicate PicksOk(m: ManagerState, active: set<string>, picks: map<string, Name>) {
    && picks.Keys == (set n | n in m.queues && n in active && m.queues[n].heap != map[])
    && (forall n :: n in picks ==> IsHead(m.queues[n], picks[n]))
  }

  function PoppedFrom(m: ManagerState, picks: map<string, Name>, l: Name): set<Name> {
    set n | n in picks && n in m.queues && picks[n] in m.queues[n].heap
            && m.queues[n].heap[picks[n]].obj.QueueKey() == l :: picks[n]
  }

  function TakeHeads(m: ManagerState, active: set<string>, picks: map<string, Name>): ManagerState {
    m.(queues := map n | n in m.queues ::
         if n !in active then m.queues[n]
         else if n in picks then PopKey(m.queues[n], picks[n]) else PopNothing(m.queues[n]),
       locals := map l | l in m.locals :: m.locals[l].(items := m.locals[l].items - PoppedFrom(m, picks, l)))
  }

  datatype Event =
    | EvAddClusterQueue(n: string, cohort: string, strategy: Strategy, listedQueues: seq<Name>, sel: Selector)
    | EvUpdateClusterQueue(n: string, cohort: string, sel: Selector)
    | EvDeleteClusterQueue(n: string, cohort: string)
    | EvAddLocalQueue(l: Name, n: string, listed: seq<Workload>)
    | EvUpdateLocalQueue(l: Name, n: string)
    | EvDeleteLocalQueue(l: Name)
    | EvAddOrUpdateWorkload(w: Workload)
    | EvUpdateWorkload(was: Workload, w: Workload)
    | EvDeleteWorkload(w: Workload)
    | EvRequeue(info: Info, current: Option<Workload>, reason: RequeueReason)
    | EvRelease(w: Workload, sel: Selector)
    | EvFlush(ns: set<string>, sel: Selector)
    | EvHeads(active: set<string>, picks: map<string, Name>)

  function Apply(m: ManagerState, ev: Event): ManagerState {
    match ev
    case EvAddClusterQueue(n, cohort, strategy, listed, sel) => AddClusterQueue(m, n, cohort, strategy, listed, sel)
    case EvUpdateClusterQueue(n, cohort, sel) => UpdateClusterQueue(m, n, cohort, sel)
    case EvDeleteClusterQueue(n, cohort) => DeleteClusterQueue(m, n, cohort)
    case EvAddLocalQueue(l, n, listed) => AddLocalQueue(m, l, n, listed)
    case EvUpdateLocalQueue(l, n) => UpdateLocalQueue(m, l, n)
    case EvDeleteLocalQueue(l) => DeleteLocalQueue(m, l)
    case EvAddOrUpdateWorkload(w) => AddOrUpdate(m, w)
    case EvUpdateWorkload(was, w) => UpdateWorkload(m, was, w)
    case EvDeleteWorkload(w) => RemoveWorkload(m, w.key, w.QueueKey())
    case EvRequeue(info, current, reason) => RequeueWorkload(m, info, current, reason)
    case EvRelease(w, sel) => ReleaseAfter(m, w, sel)
    case EvFlush(ns, sel) => QueueInadmissible(m, ns, sel)
    case EvHeads(active, picks) => TakeHeads(m, active, picks)
  }

  /** No LocalQueue but l holds the workload. */
  ghost predicate NotElsewhere(m: ManagerState, k: Name, l: Name) {
    forall j :: j in m.locals && j != l ==> k !in m.locals[j].items
  }

  /** Workloads change LocalQueue only through UpdateWorkload, and listings agree with the manager. */
  ghost predicate Allowed(m: ManagerState, ev: Event) {
    match ev
    case EvAddClusterQueue(n, _, _, listed, _) =>
      forall l :: l in m.locals ==> (m.locals[l].clusterQueue == n <==> l in listed)
    case EvAddLocalQueue(l, _, listed) => forall w :: w in listed ==> w.QueueKey() == l && NotElsewhere(m, w.key, l)
    case EvAddOrUpdateWorkload(w) => NotElsewhere(m, w.key, w.QueueKey())
    case EvUpdateWorkload(was, w) =>
      && was.key == w.key
      && forall l :: l in m.locals && w.key in m.locals[l].items ==> l == was.QueueKey() || l == w.QueueKey()
    case EvDeleteWorkload(w) => NotElsewhere(m, w.key, w.QueueKey())
    case EvRequeue(info, current, _) =>
      current.Some? ==> current.value.key == info.obj.key && NotElsewhere(m, info.obj.key, current.value.QueueKey())
    case EvHeads(active, picks) => PicksOk(m, active, picks)
    case _ => true
  }

  // ---------- the index invariant ----------

  /** A workload stored in queue n sits in the items of its own LocalQueue, which points to n. */
  ghost predicate Stored(m: ManagerState, n: string, k: Name, info: Info) {
    var l := info.obj.QueueKey();
    info.obj.key == k && l in m.locals && m.locals[l].clusterQueue == n && k in m.locals[l].items
  }

  ghost predicate Holds(q: Pending, k: Name) { k in q.heap || k in q.parked }

  ghost predicate QueueIndexed(m: ManagerState, n: string)
    requires n in m.queues
  {
    && m.queues[n].heap.Keys !! m.queues[n].parked.Keys
    && AllStored(m, n, m.queues[n].heap) && AllStored(m, n, m.queues[n].parked)
  }

  ghost predicate AllStored(m: ManagerState, n: string, s: map<Name, Info>) {
    forall k :: k in s ==> Stored(m, n, k, s[k])
  }

  ghost predicate LocalIndexed(m: ManagerState, l: Name)
    requires l in m.locals
  {
    forall k :: k in m.locals[l].items ==>
      && m.locals[l].items[k].obj.key == k && m.locals[l].items[k].obj.QueueKey() == l
      && (m.locals[l].clusterQueue in m.queues ==> Holds(m.queues[m.locals[l].clusterQueue], k))
  }

  ghost predicate CohortsIndexed(m: ManagerState) {
    forall n :: n in m.queues && m.queues[n].cohort != "" ==>
      m.queues[n].cohort in m.cohorts && n in m.cohorts[m.queues[n].cohort]
  }

  ghost predicate IndexOk(m: ManagerState) {
    && (forall n :: n in m.queues ==> QueueIndexed(m, n))
    && (forall l :: l in m.locals ==> LocalIndexed(m, l))
    && (forall l, k :: l in m.locals && k in m.locals[l].items ==> NotElsewhere(m, k, l))
    && CohortsIndexed(m)
  }

  /** Heap and parking map are disjoint and together hold exactly the items of the LocalQueues pointing to the queue. */
  lemma IndexIsExact(m: ManagerState, n: string, k: Name)
    requires IndexOk(m) && n in m.queues
    ensures !(k in m.queues[n].heap && k in m.queues[n].parked)
    ensures Holds(m.queues[n], k) <==>
            exists l :: l in m.locals && m.locals[l].clusterQueue == n && k in m.locals[l].items
    ensures k in m.queues[n].heap ==> m.queues[n].heap[k].obj.QueueKey() in m.locals
  {
    assert QueueIndexed(m, n);
    if l :| l in m.locals && m.locals[l].clusterQueue == n && k in m.locals[l].items {
      assert LocalIndexed(m, l);
    }
  }
}
