/** A manager with two queues, from the empty one to the moment when the head of one of them is tried. */
module WakeUpSetting {
  import opened Model
  import opened Heaps
  import opened PendingQueues
  import opened Managers
  import opened WakeUp

  const ALL: Selector := (n, ns) => true

  // ---------- the manager's states ----------

  function Empty(cohort: string): Pending { Pending(map[], map[], 0, 0, cohort, BestEffortFIFO) }

  /** Only empty queues, all in one cohort or without one. */
  function Plain(ns: set<string>, cohort: string): ManagerState {
    ManagerState(map n | n in ns :: Empty(cohort), map[], if cohort == "" || ns == {} then map[] else map[cohort := ns])
  }

  /** Then A's LocalQueue is added with one workload. */
  function Listed(w: Workload, other: string, cohort: string): ManagerState {
    var items := map[w.key := NewInfo(w)];
    ManagerState(map["A" := Empty(cohort).(heap := items), other := Empty(cohort)],
                 map[w.QueueKey() := LocalQueue("A", items)],
                 if cohort == "" then map[] else map[cohort := {"A", other}])
  }

  /** Then the workload is taken as the head of A: its LocalQueue is left without items. */
  function Taken(w: Workload, other: string, cohort: string): ManagerState {
    ManagerState(map["A" := Empty(cohort).(popCycle := 1), other := Empty(cohort).(popCycle := 1)],
                 map[w.QueueKey() := LocalQueue("A", map[])],
                 if cohort == "" then map[] else map[cohort := {"A", other}])
  }

  lemma PlainStart(cohort: string)
    ensures START.m == Plain({}, cohort)
  {
  }

  lemma FlushEmpty(cohort: string, flushCycle: int, matches: string -> bool)
    ensures Flush(Empty(cohort).(flushCycle := flushCycle), matches) == Empty(cohort)
  {
  }

  /** Adding a queue to empty ones flushes its cohort to no effect. */
  lemma AddedPlain(ns: set<string>, n: string, cohort: string)
    requires n !in ns
    ensures AddClusterQueue(Plain(ns, cohort), n, cohort, BestEffortFIFO, [], ALL) == Plain(ns + {n}, cohort)
  {
    hide FlushThese, FlushedWith;
    var m := Plain(ns, cohort);
    var m1 := m.(queues := m.queues[n := NewPending(cohort, BestEffortFIFO)],
                 cohorts := if cohort != "" then JoinCohort(m.cohorts, cohort, n) else m.cohorts);
    assert AddClusterQueue(m, n, cohort, BestEffortFIFO, [], ALL) == FlushThese(m1, FlushedWith(m1, n), ALL);
    assert cohort != "" ==> m1.cohorts == map[cohort := ns + {n}];
    FlushesItself(m1, n);
    FlushedPlain(m1, ns + {n}, cohort, FlushedWith(m1, n));
  }

  lemma FlushesItself(m: ManagerState, n: string)
    requires n in m.queues
    requires m.queues[n].cohort != "" ==> m.queues[n].cohort in m.cohorts && n in m.cohorts[m.queues[n].cohort]
    ensures n in FlushedWith(m, n)
  {
  }

  lemma FlushedPlain(m: ManagerState, ns: set<string>, cohort: string, flushed: set<string>)
    requires m.queues.Keys == ns && m.locals == map[] && m.cohorts == Plain(ns, cohort).cohorts
    requires forall n :: n in ns ==> m.queues[n] == Empty(cohort).(flushCycle := m.queues[n].flushCycle)
    requires forall n :: n in ns && n !in flushed ==> m.queues[n].flushCycle == 0
    ensures FlushThese(m, flushed, ALL) == Plain(ns, cohort)
  {
    hide Flush;
    forall n | n in ns ensures Flush(m.queues[n], For(ALL, n)) == Empty(cohort) {
      FlushEmpty(cohort, m.queues[n].flushCycle, For(ALL, n));
    }
    assert FlushThese(m, flushed, ALL).queues == Plain(ns, cohort).queues;
  }

  lemma ListedLocal(w: Workload, other: string, cohort: string)
    requires other != "A" && !w.IsAdmitted()
    ensures AddLocalQueue(Plain({"A", other}, cohort), w.QueueKey(), "A", [w]) == Listed(w, other, cohort)
  {
    hide NewInfo;
    var items := map[w.key := NewInfo(w)];
    assert [w][..0] == [] && ItemsOf([w]) == items;
    assert items + map[] == items;
    var m' := AddLocalQueue(Plain({"A", other}, cohort), w.QueueKey(), "A", [w]);
    assert m'.queues == Listed(w, other, cohort).queues;
  }

  lemma PickedIt(w: Workload, other: string, cohort: string)
    requires other != "A"
    ensures PicksOk(Listed(w, other, cohort), {"A", other}, map["A" := w.key])
  {
    hide NewInfo, Before;
    var m, picks := Listed(w, other, cohort), map["A" := w.key];
    assert picks["A"] == w.key && w.key in m.queues["A"].heap;
    BeforeIsTotalPreorder(NewInfo(w), NewInfo(w), NewInfo(w));
    assert picks.Keys == (set n | n in m.queues && n in {"A", other} && m.queues[n].heap != map[]);
  }

  lemma TookIt(w: Workload, other: string, cohort: string)
    requires other != "A"
    ensures TakeHeads(Listed(w, other, cohort), {"A", other}, map["A" := w.key]) == Taken(w, other, cohort)
  {
    hide NewInfo, PoppedFrom;
    var picks := map["A" := w.key];
    assert picks["A"] == w.key;
    PoppedIt(w, other, cohort);
    var m' := TakeHeads(Listed(w, other, cohort), {"A", other}, picks);
    assert m'.queues == Taken(w, other, cohort).queues;
    assert m'.locals == Taken(w, other, cohort).locals;
  }

  lemma PoppedIt(w: Workload, other: string, cohort: string)
    requires other != "A"
    ensures PoppedFrom(Listed(w, other, cohort), map["A" := w.key], w.QueueKey()) == {w.key}
    ensures Trials(Listed(w, other, cohort), map["A" := w.key]) == {Trial("A", w.key, w.spec)}
  {
    NewInfoOf(w);
    hide NewInfo;
    var m, picks := Listed(w, other, cohort), map["A" := w.key];
    assert picks["A"] == w.key && m.queues["A"].heap[w.key] == NewInfo(w);
  }

  lemma NewInfoOf(w: Workload)
    ensures NewInfo(w).obj == w
  {
  }

  // ---------- the history ----------

  /** Nothing was tried so far, and nothing failed a selector. */
  ghost predicate Untried(x: Wake) {
    && x.inFlight == {} && x.tried == map[] && Timely(x)
    && (forall n :: n in x.stayed ==> x.stayed[n] == {})
    && (forall n :: n in x.m.queues ==> x.m.queues[n].parked == map[])
  }

  /** The head of A is being tried. */
  ghost predicate Trying(x: Wake, w: Workload, other: string, cohort: string) {
    && x.m == Taken(w, other, cohort) && x.inFlight == {Trial("A", w.key, w.spec)} && x.tried == map[] && Timely(x)
    && (forall n :: n in x.stayed ==> x.stayed[n] == {})
  }

  lemma CallUntried(x: Wake, ev: Event, m: ManagerState)
    requires Untried(x) && Apply(x.m, ev) == m && forall n :: n in m.queues ==> m.queues[n].parked == map[]
    ensures Untried(Next(x, Call(ev, false))) && Next(x, Call(ev, false)).m == m
  {
    hide Apply, FlushedByCall, GivenByCall;
  }

  lemma HeadTried(x: Wake, w: Workload, other: string, cohort: string)
    requires Untried(x) && x.m == Listed(w, other, cohort) && other != "A"
    ensures var ev := Heads({"A", other}, map["A" := w.key]);
            Enabled(x, ev) && Trying(Next(x, ev), w, other, cohort)
  {
    hide TakeHeads, PicksOk, Trials;
    PickedIt(w, other, cohort);
    TookIt(w, other, cohort);
    PoppedIt(w, other, cohort);
  }

  /** The info that the scheduler holds of the head of A. */
  function HeadOf(w: Workload): Info { NewInfo(w).(clusterQueue := "A") }

  lemma HeadOfFacts(w: Workload)
    ensures HeadOf(w).obj == w && TrialOf(HeadOf(w)) == Trial("A", w.key, w.spec)
  {
  }
}
