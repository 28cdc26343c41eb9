/** The scheduler's procedures: one cycle from heads to admissions, on the cache and snapshot objects. */
module Scheduler {
  import opened Sums
  import opened Model
  import opened Ledgers
  import opened Caches
  import opened CacheObjects
  import opened Snapshots
  import opened FlavorAssigner
  import opened Assignments
  import opened AssignmentProofs
  import opened PendingQueues
  import opened Preemption
  import opened PreemptionTargets
  import opened BorrowCheck
  import Preemptor
  import opened SchedulingCycle
  import opened SchedulingProofs
  import opened SchedulingRuns

  /** What the checks that read the API decide about a head: its namespace, resource limits and limit ranges. */
  datatype Gate = WrongNamespace | Reject | Evaluate

  datatype Head = Head(info: Info, gate: Gate, elig: Eligibilities)

  // ---------- the admission loop as a fold ----------

  function ProcessAll(c: CacheState, cy: Cycle, now: int): (CacheState, Cycle, seq<EntryStatus>)
    requires cy.next <= |cy.entries|
    decreases |cy.entries| - cy.next
  {
    if cy.next == |cy.entries| then (c, cy, [])
    else
      var (c1, cy1, st) := ProcessOne(c, cy, now);
      var (c2, cy2, rest) := ProcessAll(c1, cy1, now);
      (c2, cy2, [st] + rest)
  }

  /** One more entry is processed last. */
  lemma {:induction false} ProcessAllMore(c: CacheState, cy: Cycle, now: int, e: Entry)
    requires cy.next <= |cy.entries|
    ensures var (c1, cy1, sts) := ProcessAll(c, cy, now);
            && cy1.next == |cy1.entries| && cy1.entries == cy.entries && cy1.snap == cy.snap
            && |sts| == |cy.entries| - cy.next
            && var (c2, cy2, st) := ProcessOne(c1, cy1.(entries := cy1.entries + [e]), now);
            ProcessAll(c, cy.(entries := cy.entries + [e]), now) == (c2, cy2, sts + [st])
    decreases |cy.entries| - cy.next
  {
    hide ProcessOne;
    var more := cy.(entries := cy.entries + [e]);
    if cy.next < |cy.entries| {
      ProcessAdvances(c, cy, now);
      ProcessedAlike(c, cy, now, e);
      var (c1, cy1, st1) := ProcessOne(c, cy, now);
      ProcessAllMore(c1, cy1, now, e);
      var (c2, cy2, sts) := ProcessAll(c1, cy1, now);
      var last := [ProcessOne(c2, cy2.(entries := more.entries), now).2];
      assert [st1] + (sts + last) == [st1] + sts + last;
    } else {
      var (c2, cy2, st) := ProcessOne(c, more, now);
      ProcessAdvances(c, more, now);
      assert ProcessAll(c2, cy2, now) == (c2, cy2, []);
      assert [] + [st] == [st] + [];
    }
  }

  lemma ProcessedAlike(c: CacheState, cy: Cycle, now: int, e: Entry)
    requires cy.next < |cy.entries|
    ensures var (c1, cy1, st) := ProcessOne(c, cy, now);
            ProcessOne(c, cy.(entries := cy.entries + [e]), now) == (c1, cy1.(entries := cy.entries + [e]), st)
  {
    hide RepresentativeMode, Assume, WithAdmission;
  }

  /** A cycle that nothing interrupts is one of the runs of the system. */
  lemma {:induction false} ProcessAllIsRun(c: CacheState, cy: Cycle, now: int) returns (evs: seq<Event>)
    requires cy.next <= |cy.entries|
    ensures SchedulingCycle.Run(Busy(c, cy), evs, Idle(ProcessAll(c, cy, now).0))
    decreases |cy.entries| - cy.next
  {
    hide ProcessOne;
    if cy.next == |cy.entries| {
      evs := [Finish];
      assert Step(Busy(c, cy), Finish, Idle(c)) && SchedulingCycle.Run(Idle(c), evs[1..], Idle(c));
    } else {
      ProcessAdvances(c, cy, now);
      var (c1, cy1, st) := ProcessOne(c, cy, now);
      var rest := ProcessAllIsRun(c1, cy1, now);
      evs := [Process(now)] + rest;
      assert evs[1..] == rest && Step(Busy(c, cy), Process(now), Busy(c1, cy1));
    }
  }

  lemma ProcessAdvances(c: CacheState, cy: Cycle, now: int)
    requires cy.next < |cy.entries|
    ensures var cy' := ProcessOne(c, cy, now).1;
            cy'.next == cy.next + 1 && cy'.entries == cy.entries && cy'.snap == cy.snap
  {
  }

  lemma CycleKeepsOk(c: CacheState, s: Snap, es: seq<Entry>, now: int)
    requires SysOk(Idle(c)) && IsSnapshotOf(s, c) && Sorted(es) && OnePerQueue(es)
    requires forall i :: 0 <= i < |es| ==> Nominated(s, es[i])
    ensures SysOk(Idle(ProcessAll(c, Cycle(s, es, 0, {}, map[]), now).0))
  {
    hide SysOk, Nominated, IsSnapshotOf, ProcessAll;
    var cy := Cycle(s, es, 0, {}, map[]);
    var evs := ProcessAllIsRun(c, cy, now);
    var x, y := Idle(c), Idle(ProcessAll(c, cy, now).0);
    var all := [Start(s, es)] + evs;
    assert all[1..] == evs && Step(x, all[0], Busy(c, cy));
    RunKeepsQuota(x, all, y);
  }

  // ---------- nominate ----------

  ghost predicate HeadsOk(heads: seq<Head>) {
    && (forall i, j :: 0 <= i < j < |heads| ==> heads[i].info.clusterQueue != heads[j].info.clusterQueue)
    && (forall i :: 0 <= i < |heads| ==> |heads[i].info.totalRequests| <= |heads[i].info.obj.spec.podSets|)
  }

  /** The assigner leaves the pod counts in the head's own requests; counting them again changes nothing. */
  lemma CountedAgain(wl: Info, spec: QueueSpec, n: nat)
    requires |wl.totalRequests| <= |wl.obj.spec.podSets| && n <= |wl.totalRequests|
    ensures var wl' := wl.(totalRequests := CountedPodSets(wl, spec)[..n] + wl.totalRequests[n..]);
            |wl'.totalRequests| == |wl.totalRequests| && CountedPodSets(wl', spec) == CountedPodSets(wl, spec)
  {
    var wl' := wl.(totalRequests := CountedPodSets(wl, spec)[..n] + wl.totalRequests[n..]);
    forall i | 0 <= i < |wl.totalRequests| ensures CountedPodSets(wl', spec)[i] == CountedPodSets(wl, spec)[i] {
      CountedTwice(wl.totalRequests[i], spec, wl.obj.spec.podSets[i].count);
    }
  }

  lemma CountedTwice(ps: PodSetResources, spec: QueueSpec, count: nat)
    ensures CountedPodSet(CountedPodSet(ps, spec, count), spec, count) == CountedPodSet(ps, spec, count)
  {
    assert ps.requests[PODS := count][PODS := count] == ps.requests[PODS := count];
  }

  /** The heads that the cache neither assumed nor charges, in order. */
  function Kept(c: CacheState, heads: seq<Head>): seq<Head> {
    if heads == [] then []
    else
      var rest, h := Kept(c, heads[..|heads| - 1]), heads[|heads| - 1];
      if AssumedOrAdmitted(c, h.info) then rest else rest + [h]
  }

  /** What becomes of a head: flavors are assigned only in an active queue and past the gate. */
  ghost predicate EntryFor(s: Snap, h: Head, e: Entry) {
    && e.info.obj == h.info.obj && e.info.clusterQueue == h.info.clusterQueue && e.elig == h.elig
    && (h.gate == Evaluate && h.info.clusterQueue in s.queues ==> AssignedTo(s, h, e))
    && (!(h.gate == Evaluate && h.info.clusterQueue in s.queues) ==> e.assignment == NOT_EVALUATED)
    && e.reason == if h.gate == WrongNamespace && h.info.clusterQueue in s.queues then NamespaceMismatch else Generic
  }

  ghost predicate AssignedTo(s: Snap, h: Head, e: Entry)
    requires h.info.clusterQueue in s.queues
  {
    var v := ViewOf(s, h.info.clusterQueue);
    |h.info.totalRequests| <= |h.info.obj.spec.podSets| &&
    IsAssignment(e.assignment, v, CountedPodSets(h.info, v.spec), e.elig)
  }

  /** The entries of a cycle: heads kept in order, evaluated against the snapshot when they may be. */
  method Nominate(cache: Cache, snapshot: Snapshot, heads: seq<Head>) returns (entries: seq<Entry>)
    requires cache.Valid() && SpecsValid(snapshot.View()) && HeadsOk(heads)
    ensures var kept := Kept(cache.View(), heads);
            |entries| == |kept| && forall i :: 0 <= i < |kept| ==> EntryFor(snapshot.View(), kept[i], entries[i])
    ensures OnePerQueue(entries) && forall i :: 0 <= i < |entries| ==> Nominated(snapshot.View(), entries[i])
    ensures forall i :: 0 <= i < |entries| ==> ReadyForPreemptor(entries[i])
  {
    hide IsAssignment, QueueSpec.Valid, RepresentativeMode, AssumedOrAdmitted, Nominated, ReadyForPreemptor, EntryFor;
    entries := [];
    for i := 0 to |heads|
      invariant var kept := Kept(cache.View(), heads[..i]);
                |entries| == |kept| && forall j :: 0 <= j < |kept| ==> EntryFor(snapshot.View(), kept[j], entries[j])
      invariant forall j :: 0 <= j < |entries| ==>
                  Nominated(snapshot.View(), entries[j]) && ReadyForPreemptor(entries[j])
    {
      assert heads[..i + 1][..i] == heads[..i];
      var known := cache.IsAssumedOrAdmittedWorkload(heads[i].info);
      if !known {
        var e := NominateOne(snapshot, heads[i]);
        entries := entries + [e];
      }
    }
    assert heads[..|heads|] == heads;
    KeptOnce(cache.View(), heads);
    EntriesOnce(snapshot.View(), Kept(cache.View(), heads), entries);
  }

  method NominateOne(snapshot: Snapshot, h: Head) returns (e: Entry)
    requires SpecsValid(snapshot.View()) && |h.info.totalRequests| <= |h.info.obj.spec.podSets|
    ensures EntryFor(snapshot.View(), h, e) && Nominated(snapshot.View(), e) && ReadyForPreemptor(e)
  {
    hide IsAssignment, QueueSpec.Valid, RepresentativeMode, CountedPodSets, Preemptor.Matches;
    if h.gate == Evaluate && h.info.clusterQueue in snapshot.queues {
      var v := ViewOf(snapshot.View(), h.info.clusterQueue);
      var a, wl := AssignFlavors(h.info, v, h.elig);
      AssignmentLength(a, v, CountedPodSets(h.info, v.spec), h.elig);
      CountedLength(h.info, v.spec);
      CountedAgain(h.info, v.spec, |a.podSets|);
      PodSetsMatch(a, v, h.info, wl, h.elig);
      return Entry(wl, h.elig, a, Generic);
    }
    NotEvaluatedIsNoFit();
    var mismatch := h.gate == WrongNamespace && h.info.clusterQueue in snapshot.queues;
    return Entry(h.info, h.elig, NOT_EVALUATED, if mismatch then NamespaceMismatch else Generic);
  }

  lemma CountedLength(wl: Info, spec: QueueSpec)
    requires |wl.totalRequests| <= |wl.obj.spec.podSets|
    ensures |CountedPodSets(wl, spec)| == |wl.totalRequests|
  {
  }

  lemma {:induction false} KeptOnce(c: CacheState, heads: seq<Head>)
    requires forall i, j :: 0 <= i < j < |heads| ==> heads[i].info.clusterQueue != heads[j].info.clusterQueue
    ensures var kept := Kept(c, heads);
            && (forall i, j :: 0 <= i < j < |kept| ==> kept[i].info.clusterQueue != kept[j].info.clusterQueue)
            && (forall i :: 0 <= i < |kept| ==> kept[i] in heads)
    decreases |heads|
  {
    hide AssumedOrAdmitted;
    if heads != [] {
      var n := |heads| - 1;
      KeptOnce(c, heads[..n]);
      assert heads == heads[..n] + [heads[n]];
      forall i | 0 <= i < |Kept(c, heads[..n])|
        ensures Kept(c, heads[..n])[i].info.clusterQueue != heads[n].info.clusterQueue
      {
        assert Kept(c, heads[..n])[i] in heads[..n];
      }
    }
  }

  lemma EntriesOnce(s: Snap, kept: seq<Head>, entries: seq<Entry>)
    requires |entries| == |kept| && forall i :: 0 <= i < |kept| ==> EntryFor(s, kept[i], entries[i])
    requires forall i, j :: 0 <= i < j < |kept| ==> kept[i].info.clusterQueue != kept[j].info.clusterQueue
    ensures OnePerQueue(entries)
  {
    hide AssignedTo;
  }

  lemma AssignmentLength(a: Assignment, v: QueueView, pss: seq<PodSetResources>, elig: Eligibilities)
    requires IsAssignment(a, v, pss, elig)
    ensures |a.podSets| <= |pss|
  {
  }

  lemma NotEvaluatedIsNoFit()
    ensures RepresentativeMode(NOT_EVALUATED) == NoFit
  {
  }

  /** An entry that needs preemption has a flavor for every request of every pod set. */
  ghost predicate ReadyForPreemptor(e: Entry) {
    RepresentativeMode(e.assignment) == Preempt ==> Preemptor.Matches(e.info, e.assignment)
  }

  lemma PodSetsMatch(a: Assignment, v: QueueView, wl: Info, wl': Info, elig: Eligibilities)
    requires |wl.totalRequests| <= |wl.obj.spec.podSets| && IsAssignment(a, v, CountedPodSets(wl, v.spec), elig)
    requires wl' == wl.(totalRequests := CountedPodSets(wl, v.spec)[..|a.podSets|] + wl.totalRequests[|a.podSets|..])
    ensures RepresentativeMode(a) == Preempt ==> Preemptor.Matches(wl', a)
  {
    hide IsPodSetOutcome, RepresentativeMode, TallyUsage, TallyBorrow, Assignable;
    var pss := CountedPodSets(wl, v.spec);
    if RepresentativeMode(a) == Preempt {
      PreemptIsComplete(a, v, pss, elig);
      forall i | 0 <= i < |a.podSets|
        ensures a.podSets[i].requests == wl'.totalRequests[i].requests
        ensures a.podSets[i].flavors.Keys == a.podSets[i].requests.Keys
      {
        assert OutcomeAt(a, v, pss, elig, i) && AssignableAt(a, v, pss, elig, i);
        AssignedIsEvaluated(a, v, pss, elig, i);
      }
    }
  }

  // ---------- sorting the entries ----------

  /** sort.Sort: any sorted permutation will do; only this contract is used. */
  method SortEntries(entries: seq<Entry>) returns (r: seq<Entry>)
    requires OnePerQueue(entries)
    ensures Sorted(r) && OnePerQueue(r) && |r| == |entries|
    ensures forall e :: e in r <==> e in entries
  {
    r := [];
    for i := 0 to |entries|
      invariant Sorted(r) && OnePerQueue(r) && |r| == i
      invariant forall e :: e in r <==> e in entries[..i]
    {
      assert entries[..i + 1] == entries[..i] + [entries[i]];
      forall e | e in r ensures e.info.clusterQueue != entries[i].info.clusterQueue {
        assert e in entries[..i];
      }
      r := InsertSorted(r, entries[i]);
    }
    assert entries[..|entries|] == entries;
  }

  method InsertSorted(es: seq<Entry>, e: Entry) returns (r: seq<Entry>)
    requires Sorted(es) && OnePerQueue(es) && forall x :: x in es ==> x.info.clusterQueue != e.info.clusterQueue
    ensures Sorted(r) && OnePerQueue(r) && |r| == |es| + 1
    ensures forall x :: x in r <==> x in es || x == e
  {
    hide Less, OnePerQueue;
    var k := |es|;
    while k > 0 && Less(e, es[k - 1])
      invariant 0 <= k <= |es|
      invariant forall j :: k <= j < |es| ==> Less(e, es[j])
    {
      k := k - 1;
    }
    r := es[..k] + [e] + es[k..];
    InsertedSorted(es, e, k);
    InsertedOnce(es, e, k);
    InsertedElems(es, e, k);
  }

  lemma InsertedSorted(es: seq<Entry>, e: Entry, k: nat)
    requires k <= |es| && Sorted(es) && (k > 0 ==> !Less(e, es[k - 1])) && forall j :: k <= j < |es| ==> Less(e, es[j])
    ensures Sorted(es[..k] + [e] + es[k..])
  {
    hide Less;
    forall j | 0 <= j < k ensures !Less(e, es[j]) {
      if j < k - 1 { NotLessThanEarlier(e, es[k - 1], es[j]); }
    }
    forall j | k <= j < |es| ensures !Less(es[j], e) { LessOneWay(e, es[j]); }
  }

  lemma NotLessThanEarlier(e: Entry, x: Entry, y: Entry)
    requires !Less(e, x) && !Less(x, y)
    ensures !Less(e, y)
  {
    hide Borrows;
  }

  lemma LessOneWay(x: Entry, y: Entry)
    requires Less(x, y)
    ensures !Less(y, x)
  {
    hide Borrows;
  }

  lemma InsertedOnce(es: seq<Entry>, e: Entry, k: nat)
    requires k <= |es| && OnePerQueue(es) && forall x :: x in es ==> x.info.clusterQueue != e.info.clusterQueue
    ensures OnePerQueue(es[..k] + [e] + es[k..])
  {
  }

  lemma InsertedElems(es: seq<Entry>, e: Entry, k: nat)
    requires k <= |es|
    ensures forall x :: x in es[..k] + [e] + es[k..] <==> x in es || x == e
  {
    assert es == es[..k] + es[k..];
  }

  // ---------- schedule ----------

  ghost predicate Together(specs: map<string, QueueSpec>, n: string, m: string) {
    n in specs && m in specs && specs[n].cohort.Some? && specs[n].cohort == specs[m].cohort
  }

  /** Queues of a cohort that list the same flavor list the same resources under it. */
  ghost predicate Agreeing(specs: map<string, QueueSpec>) {
    forall n, m :: Together(specs, n, m) ==>
      forall p :: p in specs[n].quotas && FlavorListed(specs[m], p.flavor) ==> p in specs[m].quotas
  }

  ghost function SpecsOf(qs: map<string, SnapQueue>): map<string, QueueSpec> { map n | n in qs :: qs[n].spec }

  ghost function CacheSpecs(c: CacheState): map<string, QueueSpec> { map n | n in c.queues :: c.queues[n].spec }

  /** The reason that an entry is requeued with at the end of the cycle. */
  function FinalReason(reason: RequeueReason, status: EntryStatus, preempted: bool): RequeueReason {
    var r := if preempted then PendingPreemption else reason;
    if status != NotNominated && r == Generic then FailedAfterNomination else r
  }

  /**
   * Which entries go straight back to the heap: those that were nominated, skipped or wait for evictions, and under
   * StrictFIFO also those that do not fit.
   */
  lemma RequeuedAtOnceIff(s: Snap, h: Head, e: Entry, status: EntryStatus, preempted: bool, strategy: Strategy)
    requires EntryFor(s, h, e)
    requires status != NotNominated || preempted ==> RepresentativeMode(e.assignment) != NoFit
    ensures Immediate(strategy, FinalReason(e.reason, status, preempted)) <==>
            status != NotNominated || preempted || (strategy == StrictFIFO && e.reason != NamespaceMismatch)
  {
    NotEvaluatedIsNoFit();
    hide RepresentativeMode, AssignedTo;
  }

  /**
   * A cycle on the live cache: its effect is that of the plain fold over the sorted entries, it keeps the quota bounds,
   * and every entry that was not assumed is requeued with the reason that its status gives. When the preemptor panics
   * at an entry, the fold ends before it and nothing is requeued.
   */
  method Schedule(cache: Cache, heads: seq<Head>, now: int, evictions: seq<Info> -> nat)
    returns (entries: seq<Entry>, statuses: seq<EntryStatus>, requeues: seq<Option<RequeueReason>>, panics: bool,
             ghost snap: Snap, ghost preempted: seq<bool>)
    requires cache.Valid() && Ok(cache.View()) && HeadsOk(heads)
    requires forall n :: n in cache.queues ==> cache.queues[n].spec.Valid()
    modifies cache, cache.queues.Values
    ensures cache.Valid() && IsSnapshotOf(snap, old(cache.View()))
    ensures EntriesOf(old(cache.View()), snap, heads, entries)
    ensures if panics then |statuses| < |entries| && PanicsAt(snap, entries[|statuses|]) else |statuses| == |entries|
    ensures Agreeing(CacheSpecs(old(cache.View()))) ==> !panics
    ensures var (c, cy, sts) :=
              ProcessAll(old(cache.View()), Cycle(snap, entries[..|statuses|], 0, {}, map[]), now);
            cache.View() == c && statuses == sts
    ensures panics ==> requeues == []
    ensures !panics ==> |requeues| == |preempted| == |entries|
    ensures !panics ==> forall i :: 0 <= i < |entries| ==>
              requeues[i] == if statuses[i] == Assumed then None
                             else Some(FinalReason(entries[i].reason, statuses[i], preempted[i]))
    ensures !panics ==> forall i :: 0 <= i < |entries| && preempted[i] ==>
              statuses[i] == NotNominated && RepresentativeMode(entries[i].assignment) == Preempt
    ensures SysOk(Idle(old(cache.View()))) ==> SysOk(Idle(cache.View()))
  {
    hide IsAssignment, Balanced, Ok, Sorted, SysOk, ProcessAll, IsSnapshotOf, Nominated, OnePerQueue, SnapOk,
      QueueSpec.Valid, Cache.Valid, ReadyForPreemptor, EntryFor, Agreeing, RepresentativeMode, Kept, Requeues,
      FinalReason, CacheSpecs, PanicsAt, EntriesOf, SpecsValid;
    var snapshot := new Snapshot(cache.View());
    snap := snapshot.View();
    ghost var c0 := cache.View();
    SnapshotOk(snap, c0);
    SnapshotSpecs(snap, c0);
    entries := SortedEntries(cache, snapshot, heads);
    var evicted;
    statuses, evicted, panics := AdmitAll(cache, snapshot, entries, now, evictions);
    preempted, requeues := evicted, [];
    assert Sorted(entries) && OnePerQueue(entries) by { EntriesSorted(c0, snap, heads, entries); }
    PrefixKeepsOk(c0, snap, entries, |statuses|, now);
    if panics {
      NoPanicIfAgreeing(c0, snap, entries[|statuses|]);
      return;
    }
    requeues := Requeues(entries, statuses, evicted);
  }

  /** The entries of a cycle: one for every head that the cache does not know, sorted. */
  ghost predicate EntriesOf(c: CacheState, s: Snap, heads: seq<Head>, entries: seq<Entry>) {
    && Sorted(entries) && OnePerQueue(entries) && |entries| == |Kept(c, heads)|
    && (forall e :: e in entries ==> Nominated(s, e) && exists h :: h in Kept(c, heads) && EntryFor(s, h, e))
  }

  lemma EntriesSorted(c: CacheState, s: Snap, heads: seq<Head>, entries: seq<Entry>)
    requires EntriesOf(c, s, heads, entries)
    ensures Sorted(entries) && OnePerQueue(entries)
  {
    hide Less;
  }

  method SortedEntries(cache: Cache, snapshot: Snapshot, heads: seq<Head>) returns (entries: seq<Entry>)
    requires cache.Valid() && SpecsValid(snapshot.View()) && HeadsOk(heads)
    ensures EntriesOf(cache.View(), snapshot.View(), heads, entries)
    ensures forall i :: 0 <= i < |entries| ==> Nominated(snapshot.View(), entries[i]) && ReadyForPreemptor(entries[i])
  {
    hide Sorted, Nominated, OnePerQueue, Cache.Valid, SpecsValid, ReadyForPreemptor, EntryFor, Kept, HeadsOk;
    var nominated := Nominate(cache, snapshot, heads);
    entries := SortEntries(nominated);
    ghost var kept, s := Kept(cache.View(), heads), snapshot.View();
    forall e | e in entries
      ensures Nominated(s, e) && ReadyForPreemptor(e) && exists h :: h in kept && EntryFor(s, h, e)
    {
      var i :| 0 <= i < |nominated| && nominated[i] == e;
      assert kept[i] in kept;
    }
  }

  /** The entries before a panic are a cycle of their own. */
  lemma PrefixKeepsOk(c: CacheState, s: Snap, es: seq<Entry>, k: nat, now: int)
    requires k <= |es| && IsSnapshotOf(s, c) && Sorted(es) && OnePerQueue(es)
    requires forall i :: 0 <= i < |es| ==> Nominated(s, es[i])
    ensures SysOk(Idle(c)) ==> SysOk(Idle(ProcessAll(c, Cycle(s, es[..k], 0, {}, map[]), now).0))
  {
    hide SysOk, Nominated, IsSnapshotOf, ProcessAll, Less;
    if SysOk(Idle(c)) { CycleKeepsOk(c, s, es[..k], now); }
  }

  lemma NoPanicIfAgreeing(c: CacheState, s: Snap, e: Entry)
    requires IsSnapshotOf(s, c) && SpecsValid(s) && Nominated(s, e)
    ensures Agreeing(CacheSpecs(c)) ==> !PanicsAt(s, e)
  {
    hide IsSnapshotOf, SpecsValid, Nominated, Agreeing, PanicsAt;
    if Agreeing(CacheSpecs(c)) {
      SnapshotAgrees(s, c);
      AgreeingNeverPanics(s, e);
    }
  }

  /** The entry needs preemption, and the check of another queue of its cohort may meet a missing quota. */
  ghost predicate PanicsAt(s: Snap, e: Entry) {
    && e.info.clusterQueue in s.queues && RepresentativeMode(e.assignment) == Preempt
    && Preemptor.GapNearby(s, e.info.clusterQueue, Preemptor.NeededBy(e.assignment))
  }

  /** The last loop: what is not assumed is requeued. */
  function Requeues(entries: seq<Entry>, statuses: seq<EntryStatus>,
                    preempted: seq<bool>): (r: seq<Option<RequeueReason>>)
    requires |entries| == |statuses| == |preempted|
    ensures |r| == |entries|
    ensures forall i :: 0 <= i < |r| ==>
              r[i] == if statuses[i] == Assumed then None
                      else Some(FinalReason(entries[i].reason, statuses[i], preempted[i]))
  {
    if entries == [] then []
    else
      var n := |entries| - 1;
      Requeues(entries[..n], statuses[..n], preempted[..n]) +
      [if statuses[n] == Assumed then None else Some(FinalReason(entries[n].reason, statuses[n], preempted[n]))]
  }

  lemma SnapshotAgrees(s: Snap, c: CacheState)
    requires IsSnapshotOf(s, c) && Agreeing(CacheSpecs(c))
    ensures Agreeing(SpecsOf(s.queues))
  {
    hide Balanced;
    var specs, all := SpecsOf(s.queues), CacheSpecs(c);
    assert forall n :: n in specs ==> n in all && specs[n] == all[n];
    assert forall n, m :: Together(specs, n, m) ==> Together(all, n, m);
  }

  lemma SnapshotSpecs(s: Snap, c: CacheState)
    requires IsSnapshotOf(s, c) && forall n :: n in c.queues ==> c.queues[n].spec.Valid()
    ensures SpecsValid(s)
  {
    hide Balanced, QueueSpec.Valid;
  }

  /**
   * The admission loop, up to the end or to a panic. The preemptor may drop members from a cohort of the snapshot,
   * which the loop does not read.
   */
  method AdmitAll(cache: Cache, snapshot: Snapshot, entries: seq<Entry>, now: int, evictions: seq<Info> -> nat)
    returns (statuses: seq<EntryStatus>, preempted: seq<bool>, panics: bool)
    requires cache.Valid() && SnapOk(snapshot.View()) && SpecsValid(snapshot.View())
    requires forall i :: 0 <= i < |entries| ==> Nominated(snapshot.View(), entries[i]) && ReadyForPreemptor(entries[i])
    modifies cache, cache.queues.Values, snapshot
    ensures cache.Valid()
    ensures if panics then |statuses| < |entries| && PanicsAt(old(snapshot.View()), entries[|statuses|])
            else |statuses| == |entries|
    ensures var (c, cy, sts) :=
              ProcessAll(old(cache.View()), Cycle(old(snapshot.View()), entries[..|statuses|], 0, {}, map[]), now);
            cache.View() == c && statuses == sts
    ensures |preempted| == |statuses|
    ensures forall i :: 0 <= i < |statuses| && preempted[i] ==>
              statuses[i] == NotNominated && RepresentativeMode(entries[i].assignment) == Preempt
  {
    hide RepresentativeMode, IsAssignment, ProcessOne, SnapOk, ProcessAll, Nominated, SpecsValid, PanicsAt;
    ghost var s := snapshot.View();
    ghost var c0, cy := cache.View(), Cycle(s, [], 0, {}, map[]);
    var used: set<string> := {};
    statuses, preempted, panics := [], [], false;
    assert entries[..0] == [];
    EndOfCycle(c0, cy, now);
    for i := 0 to |entries|
      invariant cache.Valid() && cache.queues == old(cache.queues) && !panics
      invariant snapshot.queues == s.queues && SnapOk(snapshot.View())
      invariant |preempted| == |statuses| == i
      invariant forall j :: 0 <= j < i && preempted[j] ==>
                  statuses[j] == NotNominated && RepresentativeMode(entries[j].assignment) == Preempt
      invariant ProcessAll(c0, Cycle(s, entries[..i], 0, {}, map[]), now) == (cache.View(), cy, statuses)
      invariant cy.used == used
    {
      ghost var before, c := Cycle(s, entries[..i], 0, {}, map[]), cache.View();
      ProcessAllMore(c0, before, now, entries[i]);
      assert entries[..i] + [entries[i]] == entries[..i + 1];
      ghost var cy1 := cy.(entries := entries[..i + 1]);
      assert Nominated(s, entries[i]) && ReadyForPreemptor(entries[i]);
      SameSpecsValid(snapshot.View(), s);
      var status, used', evicted;
      status, used', evicted, panics := AdmitOne(cache, snapshot, entries[i], used, now, evictions, cy1);
      if panics {
        return;
      }
      used, statuses, preempted := used', statuses + [status], preempted + [evicted];
      cy := ProcessOne(c, cy1, now).1;
    }
    assert entries[..|entries|] == entries;
  }

  lemma EndOfCycle(c: CacheState, cy: Cycle, now: int)
    requires cy.next == |cy.entries|
    ensures ProcessAll(c, cy, now) == (c, cy, [])
  {
  }

  lemma SameSpecsValid(s: Snap, s': Snap)
    requires s.queues == s'.queues
    ensures SpecsValid(s) <==> SpecsValid(s')
  {
  }

  /** `evictions` is the number of targets that the API server lets go. */
  method AdmitOne(cache: Cache, snapshot: Snapshot, e: Entry, used: set<string>, now: int, evictions: seq<Info> -> nat,
                  ghost cy: Cycle)
    returns (status: EntryStatus, used': set<string>, preempted: bool, panics: bool)
    requires cache.Valid() && SnapOk(snapshot.View()) && snapshot.queues == cy.snap.queues
    requires SpecsValid(snapshot.View())
    requires cy.next < |cy.entries| && cy.entries[cy.next] == e && cy.used == used
    requires Nominated(cy.snap, e) && ReadyForPreemptor(e)
    modifies cache, cache.queues.Values, snapshot
    ensures cache.Valid() && cache.queues == old(cache.queues)
    ensures panics ==> cache.View() == old(cache.View()) && PanicsAt(cy.snap, e)
    ensures !panics ==> SnapOk(snapshot.View()) && snapshot.queues == old(snapshot.queues)
    ensures !panics ==>
              var (c, cy', st) := ProcessOne(old(cache.View()), cy, now);
              cache.View() == c && status == st && used' == cy'.used
    ensures !panics && preempted ==> status == NotNominated && RepresentativeMode(e.assignment) == Preempt
  {
    hide RepresentativeMode, IsAssignment, Assume, WithAdmission, IsCandidate, Targets, TallyUsage, SnapOk, SpecsValid,
      Preemptor.Ordered, Preemptor.NeededBy, Preemptor.Matches, HasGap;
    NotEvaluatedIsNoFit();
    status, used', preempted, panics := NotNominated, used, false, false;
    if RepresentativeMode(e.assignment) == NoFit {
      return;
    }
    var g := snapshot.queues[e.info.clusterQueue].spec.cohort;
    if Borrows(e.assignment) && g.Some? && g.value in used {
      return SkippedInCycle, used, false, false;
    }
    if g.Some? {
      used' := used + {g.value};
    }
    if RepresentativeMode(e.assignment) != Fit {
      WithoutMemberOk(snapshot.View(), e.info.clusterQueue);
      var targets, failed, ask, cands := Preemptor.Do(snapshot, e.info, e.assignment, now);
      preempted, panics := |targets| > 0 && evictions(targets) > 0, failed;
      return;
    }
    AssumeFails(cache.View(), WithAdmission(e.info.obj, e.assignment, e.info.clusterQueue, now));
    var ok := cache.AssumeWorkload(WithAdmission(e.info.obj, e.assignment, e.info.clusterQueue, now));
    status := if ok then Assumed else NominatedOnly;
  }

  /** What an entry needs is listed by its own queue, and so wherever its flavor is listed in the cohort. */
  lemma AgreeingNeverPanics(s: Snap, e: Entry)
    requires SpecsValid(s) && Agreeing(SpecsOf(s.queues)) && Nominated(s, e)
    ensures !PanicsAt(s, e)
  {
    hide IsAssignment, RepresentativeMode, TallyUsage, QueueSpec.Valid, Preemptor.NeededBy, FlavorListed;
    NotEvaluatedIsNoFit();
    var n, a := e.info.clusterQueue, e.assignment;
    if n in s.queues && RepresentativeMode(a) == Preempt {
      var v, specs := ViewOf(s, n), SpecsOf(s.queues);
      NeededIsListed(a, v, CountedPodSets(e.info, v.spec), e.elig);
      assert n in specs && specs[n] == v.spec;
      forall m | m in s.queues && s.queues[m].spec.cohort == v.spec.cohort && v.spec.cohort.Some?
        ensures !HasGap(s.queues[m].spec, Preemptor.NeededBy(a))
      {
        assert Together(specs, n, m) && specs[m] == s.queues[m].spec;
      }
    }
  }

  lemma NeededIsListed(a: Assignment, v: QueueView, pss: seq<PodSetResources>, elig: Eligibilities)
    requires v.spec.Valid() && IsAssignment(a, v, pss, elig) && RepresentativeMode(a) == Preempt
    ensures forall p :: p in Preemptor.NeededBy(a) ==> p in v.spec.quotas
  {
    hide IsAssignment, RepresentativeMode, TallyUsage, QueueSpec.Valid, Preemptor.NeededBy;
    Preemptor.AssignmentTally(a, v, pss, elig);
    UsageListed(a, v, pss, elig);
    forall p | p in Preemptor.NeededBy(a) ensures p in v.spec.quotas {
      assert Preemptor.IsNeeded(a, p);
      var i :| 0 <= i < |a.podSets| && Assignments.Assigns(a.podSets[i], p);
      TallyOfPair(a.podSets, i, p);
    }
  }

  lemma AssumeFails(c: CacheState, w: Workload)
    ensures !Assume(c, w).1 ==> Assume(c, w).0 == c
  {
  }

  lemma WithoutMemberOk(s: Snap, n: string)
    requires SnapOk(s) && n in s.queues
    ensures SnapOk(WithoutMember(s, n)) && WithoutMember(s, n).queues == s.queues
  {
    hide QueueOk;
  }
}
