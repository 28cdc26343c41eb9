/** The cache of admitted workloads (pkg/cache/cache.go): all ledgers, the cohort index and the assumed workloads. */
module Caches {
  import opened Sums
  import opened Model
  import opened Ledgers

  datatype CacheState = CacheState(queues: map<string, Ledger>, cohorts: map<string, set<string>>,
                                   assumed: map<Name, string>)

  // ---------- the operations, on values ----------

  function WithQueue(c: CacheState, n: string, l: Ledger): CacheState {
    c.(queues := c.queues[n := l])
  }

  function Without(c: CacheState, n: string, k: Name): CacheState {
    if n in c.queues then WithQueue(c, n, DeleteWorkload(c.queues[n], k)) else c
  }

  /** cleanupAssumedState: a workload admitted elsewhere is also taken out of the queue it was assumed in. */
  function CleanupAssumed(c: CacheState, w: Workload): CacheState {
    if w.key !in c.assumed then c
    else
      var n := c.assumed[w.key];
      var c' := if w.IsAdmitted() && n != w.admission.value.clusterQueue then Without(c, n, w.key) else c;
      c'.(assumed := c'.assumed - {w.key})
  }

  function AddOrUpdate(c: CacheState, w: Workload): (r: (CacheState, bool)) {
    if !w.IsAdmitted() || w.admission.value.clusterQueue !in c.queues then (c, false)
    else
      var n := w.admission.value.clusterQueue;
      var c' := Without(CleanupAssumed(c, w), n, w.key);
      (WithQueue(c', n, AddWorkload(c'.queues[n], w)), true)
  }

  function UpdateWorkload(c: CacheState, was: Workload, w: Workload): (r: (CacheState, bool)) {
    if was.IsAdmitted() && was.admission.value.clusterQueue !in c.queues then (c, false)
    else
      var c1 := if was.IsAdmitted() then Without(c, was.admission.value.clusterQueue, was.key) else c;
      var c2 := CleanupAssumed(c1, was);
      if !w.IsAdmitted() then (c2, true)
      else if w.admission.value.clusterQueue !in c2.queues then (c2, false)
      else
        var n := w.admission.value.clusterQueue;
        (WithQueue(c2, n, AddWorkload(c2.queues[n], w)), w.key !in c2.queues[n].workloads)
  }

  function Assume(c: CacheState, w: Workload): (r: (CacheState, bool)) {
    if !w.IsAdmitted() || w.key in c.assumed || w.admission.value.clusterQueue !in c.queues then (c, false)
    else
      var n := w.admission.value.clusterQueue;
      if w.key in c.queues[n].workloads then (c, false)
      else (WithQueue(c, n, AddWorkload(c.queues[n], w)).(assumed := c.assumed[w.key := n]), true)
  }

  function Forget(c: CacheState, w: Workload): (r: (CacheState, bool)) {
    if w.key !in c.assumed then (c, false)
    else
      var c' := CleanupAssumed(c, w);
      if !w.IsAdmitted() || w.admission.value.clusterQueue !in c'.queues then (c', false)
      else (Without(c', w.admission.value.clusterQueue, w.key), true)
  }

  /** The queue that clusterQueueForWorkload may answer; for a workload that is not admitted, any queue charging it. */
  ghost predicate QueueOf(c: CacheState, w: Workload, n: Option<string>) {
    if w.IsAdmitted() then
      n == if w.admission.value.clusterQueue in c.queues then Some(w.admission.value.clusterQueue) else None
    else if n.Some? then n.value in c.queues && w.key in c.queues[n.value].workloads
    else forall q :: q in c.queues ==> w.key !in c.queues[q].workloads
  }

  function Delete(c: CacheState, w: Workload, n: Option<string>): (r: (CacheState, bool)) {
    if n.None? then (c, false) else (Without(CleanupAssumed(c, w), n.value, w.key), true)
  }

  predicate AssumedOrAdmitted(c: CacheState, w: Info) {
    w.obj.key in c.assumed || (w.clusterQueue in c.queues && w.obj.key in c.queues[w.clusterQueue].workloads)
  }

  function JoinCohort(cohorts: map<string, set<string>>, cohort: Option<string>, n: string): map<string, set<string>> {
    if cohort.None? then cohorts
    else cohorts[cohort.value := (if cohort.value in cohorts then cohorts[cohort.value] else {}) + {n}]
  }

  function LeaveCohort(cohorts: map<string, set<string>>, cohort: Option<string>, n: string): map<string, set<string>> {
    if cohort.None? || cohort.value !in cohorts then cohorts
    else if cohorts[cohort.value] - {n} == {} then cohorts - {cohort.value}
    else cohorts[cohort.value := cohorts[cohort.value] - {n}]
  }

  function UpdateQueue(c: CacheState, n: string, spec: QueueSpec, known: set<string>): (r: (CacheState, bool)) {
    if n !in c.queues then (c, false)
    else
      var was := c.queues[n].spec.cohort;
      var cohorts := if was == spec.cohort then c.cohorts
                     else JoinCohort(LeaveCohort(c.cohorts, was, n), spec.cohort, n);
      (WithQueue(c, n, Update(c.queues[n], spec, known)).(cohorts := cohorts), true)
  }

  function DeleteQueue(c: CacheState, n: string): CacheState {
    if n !in c.queues then c
    else c.(queues := c.queues - {n}, cohorts := LeaveCohort(c.cohorts, c.queues[n].spec.cohort, n))
  }

  ghost function WithLocals(l: Ledger, qs: seq<Name>): Ledger {
    if qs == [] then l else AddLocal(WithLocals(l, qs[..|qs| - 1]), qs[|qs| - 1])
  }

  function AddAll(c: CacheState, ws: seq<Workload>): CacheState {
    if ws == [] then c else AddOrUpdate(AddAll(c, ws[..|ws| - 1]), ws[|ws| - 1]).0
  }

  /** The LocalQueues and workloads that exist already are listed and added. */
  ghost function AddQueue(c: CacheState, n: string, spec: QueueSpec, known: set<string>,
                          locals: seq<Name>, ws: seq<Workload>): (CacheState, bool)
  {
    if n in c.queues then (c, false)
    else
      var l := WithLocals(NewLedger(spec, known), locals);
      (AddAll(WithQueue(c, n, l).(cohorts := JoinCohort(c.cohorts, spec.cohort, n)), ws), true)
  }

  // ---------- the cache invariant ----------

  /** A ledger only holds workloads admitted by its own queue, under their own keys. */
  ghost predicate Housed(n: string, l: Ledger) {
    forall k :: k in l.workloads ==> l.workloads[k].obj.key == k && l.workloads[k].clusterQueue == n
  }

  ghost function CohortsOf(c: CacheState): map<string, Option<string>> {
    map n | n in c.queues :: c.queues[n].spec.cohort
  }

  /** A queue is listed under its own cohort and nowhere else. */
  ghost predicate Indexed(of: map<string, Option<string>>, cohorts: map<string, set<string>>) {
    && (forall n :: n in of && of[n].Some? ==> of[n].value in cohorts && n in cohorts[of[n].value])
    && (forall g, n :: g in cohorts && n in cohorts[g] ==> n in of && of[n] == Some(g))
  }

  ghost predicate Sound(n: string, l: Ledger) {
    Exact(l) && Housed(n, l)
  }

  ghost predicate Ok(c: CacheState) {
    && (forall n :: n in c.queues ==> Sound(n, c.queues[n]))
    && Indexed(CohortsOf(c), c.cohorts)
  }

  datatype Op =
    | OpAddOrUpdate(w: Workload)
    | OpUpdateWorkload(was: Workload, w: Workload)
    | OpAssume(w: Workload)
    | OpForget(w: Workload)
    | OpDelete(w: Workload, at: Option<string>)
    | OpAddLocal(n: string, q: Name)
    | OpDeleteLocal(n: string, q: Name)
    | OpAddQueue(n: string, spec: QueueSpec, known: set<string>, locals: seq<Name>, listed: seq<Workload>)
    | OpUpdateQueue(n: string, spec: QueueSpec, known: set<string>)
    | OpDeleteQueue(n: string)

  ghost function Apply(c: CacheState, op: Op): CacheState {
    match op
    case OpAddOrUpdate(w) => AddOrUpdate(c, w).0
    case OpUpdateWorkload(was, w) => UpdateWorkload(c, was, w).0
    case OpAssume(w) => Assume(c, w).0
    case OpForget(w) => Forget(c, w).0
    case OpDelete(w, at) => Delete(c, w, at).0
    case OpAddLocal(n, q) => if n in c.queues then WithQueue(c, n, AddLocal(c.queues[n], q)) else c
    case OpDeleteLocal(n, q) => if n in c.queues then WithQueue(c, n, DeleteLocal(c.queues[n], q)) else c
    case OpAddQueue(n, spec, known, locals, listed) => AddQueue(c, n, spec, known, locals, listed).0
    case OpUpdateQueue(n, spec, known) => UpdateQueue(c, n, spec, known).0
    case OpDeleteQueue(n) => DeleteQueue(c, n)
  }

  /** The one condition on operations: a specification update introduces no pair that is already in use. */
  ghost predicate Allowed(c: CacheState, op: Op) {
    op.OpUpdateQueue? && op.n in c.queues ==> IntroducesOnlyUnused(c.queues[op.n], op.spec)
  }

  ghost predicate Run(c: CacheState, ops: seq<Op>, c': CacheState)
    decreases |ops|
  {
    if ops == [] then c' == c else Run(Apply(c, ops[0]), ops[1..], c')
  }

  ghost predicate AllAllowed(c: CacheState, ops: seq<Op>)
    decreases |ops|
  {
    ops == [] || (Allowed(c, ops[0]) && AllAllowed(Apply(c, ops[0]), ops[1..]))
  }

  ghost predicate AlwaysOk(c: CacheState, ops: seq<Op>)
    decreases |ops|
  {
    Ok(c) && (ops != [] ==> AlwaysOk(Apply(c, ops[0]), ops[1..]))
  }

  const EMPTY := CacheState(map[], map[], map[])

  // ---------- every operation keeps it ----------

  lemma ReplaceKeepsOk(c: CacheState, n: string, l: Ledger, cohorts: map<string, set<string>>)
    requires Ok(c) && Sound(n, l) && Indexed(CohortsOf(c)[n := l.spec.cohort], cohorts)
    ensures Ok(WithQueue(c, n, l).(cohorts := cohorts))
  {
    assert CohortsOf(WithQueue(c, n, l)) == CohortsOf(c)[n := l.spec.cohort];
    assert CohortsOf(WithQueue(c, n, l).(cohorts := cohorts)) == CohortsOf(c)[n := l.spec.cohort];
  }

  lemma WithQueueKeepsOk(c: CacheState, n: string, l: Ledger)
    requires Ok(c) && n in c.queues && Exact(l) && Housed(n, l) && l.spec.cohort == c.queues[n].spec.cohort
    ensures Ok(WithQueue(c, n, l))
  {
    assert CohortsOf(c)[n := l.spec.cohort] == CohortsOf(c);
    ReplaceKeepsOk(c, n, l, c.cohorts);
  }

  lemma JoinKeepsIndex(of: map<string, Option<string>>, cohorts: map<string, set<string>>, n: string, g: Option<string>)
    requires Indexed(of, cohorts) && n !in of
    ensures Indexed(of[n := g], JoinCohort(cohorts, g, n))
  {
  }

  lemma LeaveKeepsIndex(of: map<string, Option<string>>, cohorts: map<string, set<string>>, n: string)
    requires Indexed(of, cohorts) && n in of
    ensures Indexed(of - {n}, LeaveCohort(cohorts, of[n], n))
  {
  }

  lemma WithoutKeepsOk(c: CacheState, n: string, k: Name)
    requires Ok(c)
    ensures Ok(Without(c, n, k))
  {
    if n in c.queues {
      DeleteKeepsExact(c.queues[n], k);
      WithQueueKeepsOk(c, n, DeleteWorkload(c.queues[n], k));
    }
  }

  lemma CleanupKeepsOk(c: CacheState, w: Workload)
    requires Ok(c)
    ensures Ok(CleanupAssumed(c, w))
  {
    if w.key in c.assumed { WithoutKeepsOk(c, c.assumed[w.key], w.key); }
  }

  lemma AddKeepsOk(c: CacheState, n: string, w: Workload)
    requires Ok(c) && n in c.queues && w.IsAdmitted() && w.admission.value.clusterQueue == n
    ensures Ok(WithQueue(c, n, AddWorkload(c.queues[n], w)))
  {
    AddKeepsExact(c.queues[n], w);
    WithQueueKeepsOk(c, n, AddWorkload(c.queues[n], w));
  }

  lemma AddOrUpdateKeepsOk(c: CacheState, w: Workload)
    requires Ok(c)
    ensures Ok(AddOrUpdate(c, w).0)
  {
    if w.IsAdmitted() && w.admission.value.clusterQueue in c.queues {
      var n := w.admission.value.clusterQueue;
      CleanupKeepsOk(c, w);
      WithoutKeepsOk(CleanupAssumed(c, w), n, w.key);
      AddKeepsOk(Without(CleanupAssumed(c, w), n, w.key), n, w);
    }
  }

  lemma UpdateWorkloadKeepsOk(c: CacheState, was: Workload, w: Workload)
    requires Ok(c)
    ensures Ok(UpdateWorkload(c, was, w).0)
  {
    if !(was.IsAdmitted() && was.admission.value.clusterQueue !in c.queues) {
      var c1 := if was.IsAdmitted() then Without(c, was.admission.value.clusterQueue, was.key) else c;
      if was.IsAdmitted() { WithoutKeepsOk(c, was.admission.value.clusterQueue, was.key); }
      CleanupKeepsOk(c1, was);
      var c2 := CleanupAssumed(c1, was);
      if w.IsAdmitted() && w.admission.value.clusterQueue in c2.queues {
        AddKeepsOk(c2, w.admission.value.clusterQueue, w);
      }
    }
  }

  lemma {:induction false} AddAllKeepsOk(c: CacheState, ws: seq<Workload>)
    requires Ok(c)
    ensures Ok(AddAll(c, ws))
    decreases |ws|
  {
    if ws != [] {
      AddAllKeepsOk(c, ws[..|ws| - 1]);
      AddOrUpdateKeepsOk(AddAll(c, ws[..|ws| - 1]), ws[|ws| - 1]);
    }
  }

  lemma {:induction false} WithLocalsKeepsExact(l: Ledger, qs: seq<Name>)
    requires Exact(l)
    ensures Exact(WithLocals(l, qs))
    ensures WithLocals(l, qs).workloads == l.workloads && WithLocals(l, qs).spec == l.spec
    decreases |qs|
  {
    if qs != [] {
      WithLocalsKeepsExact(l, qs[..|qs| - 1]);
      LocalsKeepExact(WithLocals(l, qs[..|qs| - 1]), qs[|qs| - 1]);
    }
  }

  lemma AddQueueKeepsOk(c: CacheState, n: string, spec: QueueSpec, known: set<string>, locals: seq<Name>,
                        ws: seq<Workload>)
    requires Ok(c)
    ensures Ok(AddQueue(c, n, spec, known, locals, ws).0)
  {
    if n !in c.queues {
      NewLedgerExact(spec, known);
      WithLocalsKeepsExact(NewLedger(spec, known), locals);
      var l := WithLocals(NewLedger(spec, known), locals);
      var c' := WithQueue(c, n, l).(cohorts := JoinCohort(c.cohorts, spec.cohort, n));
      JoinKeepsIndex(CohortsOf(c), c.cohorts, n, spec.cohort);
      ReplaceKeepsOk(c, n, l, c'.cohorts);
      AddAllKeepsOk(c', ws);
    }
  }

  /** A specification update keeps the cache right if and only if it introduces no pair in use. */
  lemma UpdateQueueKeepsOkIff(c: CacheState, n: string, spec: QueueSpec, known: set<string>)
    requires Ok(c)
    ensures Ok(UpdateQueue(c, n, spec, known).0) <==> (n in c.queues ==> IntroducesOnlyUnused(c.queues[n], spec))
  {
    hide Exact, IntroducesOnlyUnused, Update;
    if n in c.queues {
      assert Sound(n, c.queues[n]);
      UpdateKeepsExactIff(c.queues[n], spec, known);
      UpdatedSpec(c.queues[n], spec, known);
      var of, l, c' := CohortsOf(c), Update(c.queues[n], spec, known), UpdateQueue(c, n, spec, known).0;
      LeaveKeepsIndex(of, c.cohorts, n);
      JoinKeepsIndex(of - {n}, LeaveCohort(c.cohorts, of[n], n), n, spec.cohort);
      assert of[n := spec.cohort] == (of - {n})[n := spec.cohort];
      if of[n] == spec.cohort { assert of[n := spec.cohort] == of; }
      if Exact(l) {
        ReplaceKeepsOk(c, n, l, c'.cohorts);
      } else {
        assert n in c'.queues && !Sound(n, c'.queues[n]);
      }
    }
  }

  lemma UpdatedSpec(l: Ledger, spec: QueueSpec, known: set<string>)
    ensures Update(l, spec, known).spec == spec && Update(l, spec, known).workloads == l.workloads
  {
  }

  lemma DeleteQueueKeepsOk(c: CacheState, n: string)
    requires Ok(c)
    ensures Ok(DeleteQueue(c, n))
  {
    if n in c.queues {
      LeaveKeepsIndex(CohortsOf(c), c.cohorts, n);
      assert CohortsOf(DeleteQueue(c, n)) == CohortsOf(c) - {n};
    }
  }

  lemma AssumeKeepsOk(c: CacheState, w: Workload)
    requires Ok(c)
    ensures Ok(Assume(c, w).0)
  {
    if Assume(c, w).1 {
      var n := w.admission.value.clusterQueue;
      AddKeepsOk(c, n, w);
      assert CohortsOf(Assume(c, w).0) == CohortsOf(WithQueue(c, n, AddWorkload(c.queues[n], w)));
    }
  }

  lemma ForgetKeepsOk(c: CacheState, w: Workload)
    requires Ok(c)
    ensures Ok(Forget(c, w).0)
  {
    CleanupKeepsOk(c, w);
    if Forget(c, w).1 { WithoutKeepsOk(CleanupAssumed(c, w), w.admission.value.clusterQueue, w.key); }
  }

  lemma DeleteKeepsOk(c: CacheState, w: Workload, at: Option<string>)
    requires Ok(c)
    ensures Ok(Delete(c, w, at).0)
  {
    CleanupKeepsOk(c, w);
    if at.Some? { WithoutKeepsOk(CleanupAssumed(c, w), at.value, w.key); }
  }

  lemma LocalQueuesKeepOk(c: CacheState, n: string, q: Name)
    requires Ok(c) && n in c.queues
    ensures Ok(WithQueue(c, n, AddLocal(c.queues[n], q)))
    ensures Ok(WithQueue(c, n, DeleteLocal(c.queues[n], q)))
  {
    LocalsKeepExact(c.queues[n], q);
    WithQueueKeepsOk(c, n, AddLocal(c.queues[n], q));
    WithQueueKeepsOk(c, n, DeleteLocal(c.queues[n], q));
  }

  lemma WorkloadStepKeepsOk(c: CacheState, op: Op)
    requires Ok(c) && !op.OpAddLocal? && !op.OpDeleteLocal? && !op.OpAddQueue? && !op.OpUpdateQueue?
    requires !op.OpDeleteQueue?
    ensures Ok(Apply(c, op))
  {
    match op
    case OpAddOrUpdate(w) => AddOrUpdateKeepsOk(c, w);
    case OpUpdateWorkload(was, w) => UpdateWorkloadKeepsOk(c, was, w);
    case OpAssume(w) => AssumeKeepsOk(c, w);
    case OpForget(w) => ForgetKeepsOk(c, w);
    case OpDelete(w, at) => DeleteKeepsOk(c, w, at);
  }

  /** Each operation keeps the cache right if and only if it is not an update that introduces a pair in use. */
  lemma StepKeepsOkIff(c: CacheState, op: Op)
    requires Ok(c)
    ensures Ok(Apply(c, op)) <==> Allowed(c, op)
  {
    hide Ok, IntroducesOnlyUnused;
    match op
    case OpAddLocal(n, q) => if n in c.queues { LocalQueuesKeepOk(c, n, q); }
    case OpDeleteLocal(n, q) => if n in c.queues { LocalQueuesKeepOk(c, n, q); }
    case OpAddQueue(n, spec, known, locals, listed) => AddQueueKeepsOk(c, n, spec, known, locals, listed);
    case OpUpdateQueue(n, spec, known) => UpdateQueueKeepsOkIff(c, n, spec, known);
    case OpDeleteQueue(n) => DeleteQueueKeepsOk(c, n);
    case _ => WorkloadStepKeepsOk(c, op);
  }

  /** The ledger invariant holds in every state of a run if and only if no update in it introduces a pair in use. */
  lemma {:induction false} RunKeepsOkIff(c: CacheState, ops: seq<Op>, c': CacheState)
    requires Ok(c) && Run(c, ops, c')
    ensures AlwaysOk(c, ops) <==> AllAllowed(c, ops)
    ensures AlwaysOk(c, ops) ==> Ok(c')
    decreases |ops|
  {
    hide Ok, Apply, Allowed;
    if ops != [] {
      StepKeepsOkIff(c, ops[0]);
      if Ok(Apply(c, ops[0])) { RunKeepsOkIff(Apply(c, ops[0]), ops[1..], c'); }
    }
  }
}
