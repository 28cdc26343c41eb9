/** The snapshot a scheduling cycle works on (pkg/cache/snapshot.go). */
module Snapshots {
  import opened Sums
  import opened Model
  import opened Ledgers
  import opened Caches

  datatype SnapQueue = SnapQueue(spec: QueueSpec, usage: Quantities, workloads: map<Name, Info>)

  datatype SnapCohort = SnapCohort(members: set<string>, requestable: Quantities, usage: Quantities)

  datatype Snap = Snap(queues: map<string, SnapQueue>, cohorts: map<string, SnapCohort>)

  // ---------- reference: cohort totals as sums over the member queues ----------

  ghost function InCohort(qs: map<string, SnapQueue>, g: string): map<string, SnapQueue> {
    map n | n in qs && qs[n].spec.cohort == Some(g) :: qs[n]
  }

  ghost function UsageOf(qs: map<string, SnapQueue>, p: Pair): map<string, int> {
    map n | n in qs :: At(qs[n].usage, p)
  }

  ghost function NominalOf(qs: map<string, SnapQueue>, p: Pair): map<string, int> {
    map n | n in qs :: qs[n].spec.Nominal(p)
  }

  ghost predicate Tracked(qs: map<string, SnapQueue>, p: Pair) {
    exists n :: n in qs && p in qs[n].usage
  }

  ghost predicate TotalAt(c: SnapCohort, qs: map<string, SnapQueue>, p: Pair) {
    && At(c.usage, p) == Sum(UsageOf(qs, p))
    && At(c.requestable, p) == Sum(NominalOf(qs, p))
    && (p in c.usage <==> Tracked(qs, p))
  }

  /** The totals of one cohort equal the sums over its queues, pair by pair. */
  ghost predicate Totals(c: SnapCohort, qs: map<string, SnapQueue>) {
    forall p :: TotalAt(c, qs, p)
  }

  lemma SumsPut(qs: map<string, SnapQueue>, n: string, q: SnapQueue, p: Pair)
    ensures Sum(UsageOf(qs[n := q], p)) == Sum(UsageOf(qs, p)) - At(UsageOf(qs, p), n) + At(q.usage, p)
    ensures Sum(NominalOf(qs[n := q], p)) == Sum(NominalOf(qs, p)) - At(NominalOf(qs, p), n) + q.spec.Nominal(p)
  {
    assert UsageOf(qs[n := q], p) == UsageOf(qs, p)[n := At(q.usage, p)];
    assert NominalOf(qs[n := q], p) == NominalOf(qs, p)[n := q.spec.Nominal(p)];
    SumPut(UsageOf(qs, p), n, At(q.usage, p));
    SumPut(NominalOf(qs, p), n, q.spec.Nominal(p));
  }

  lemma TrackedPut(qs: map<string, SnapQueue>, n: string, q: SnapQueue, p: Pair)
    requires n in qs ==> qs[n].usage.Keys == q.usage.Keys
    ensures Tracked(qs[n := q], p) <==> Tracked(qs, p) || p in q.usage
  {
    var qs' := qs[n := q];
    if Tracked(qs, p) {
      var j :| j in qs && p in qs[j].usage;
      assert j in qs' && p in qs'[j].usage;
    }
    if p in q.usage { assert n in qs' && p in qs'[n].usage; }
  }

  ghost predicate Balanced(s: Snap) {
    forall g :: g in s.cohorts ==> Totals(s.cohorts[g], InCohort(s.queues, g))
  }

  ghost predicate QueueOk(n: string, q: SnapQueue) {
    && q.usage.Keys == q.spec.quotas.Keys
    && (forall k :: k in q.workloads ==> q.workloads[k].obj.key == k && q.workloads[k].clusterQueue == n)
  }

  ghost predicate SnapOk(s: Snap) {
    && (forall n :: n in s.queues ==>
          QueueOk(n, s.queues[n]) && (s.queues[n].spec.cohort.Some? ==> s.queues[n].spec.cohort.value in s.cohorts))
    && (forall g, n :: g in s.cohorts && n in s.cohorts[g].members ==>
          n in s.queues && s.queues[n].spec.cohort == Some(g))
  }

  function Copied(l: Ledger): SnapQueue {
    SnapQueue(l.spec, l.usage, l.workloads)
  }

  /** What Cache.Snapshot must return; this determines the snapshot. */
  ghost predicate IsSnapshotOf(s: Snap, c: CacheState) {
    && s.queues == (map n | n in c.queues && c.queues[n].status == Active :: Copied(c.queues[n]))
    && s.cohorts.Keys == c.cohorts.Keys
    && (forall g :: g in s.cohorts ==> s.cohorts[g].members == InCohort(s.queues, g).Keys)
    && Balanced(s)
  }

  lemma SnapshotOk(s: Snap, c: CacheState)
    requires Ok(c) && IsSnapshotOf(s, c)
    ensures SnapOk(s)
  {
    forall n | n in s.queues
      ensures QueueOk(n, s.queues[n]) && (s.queues[n].spec.cohort.Some? ==> s.queues[n].spec.cohort.value in s.cohorts)
    {
      assert Sound(n, c.queues[n]);
      assert CohortsOf(c)[n] == s.queues[n].spec.cohort;
    }
  }

  ghost function TotalsOf(qs: map<string, SnapQueue>): SnapCohort {
    var listed := set n, p | n in qs && p in qs[n].spec.quotas :: p;
    var tracked := set n, p | n in qs && p in qs[n].usage :: p;
    SnapCohort(qs.Keys, map p | p in listed :: Sum(NominalOf(qs, p)), map p | p in tracked :: Sum(UsageOf(qs, p)))
  }

  lemma TotalsOfAreTotals(qs: map<string, SnapQueue>, p: Pair)
    ensures TotalAt(TotalsOf(qs), qs, p)
  {
    hide Sum;
    if forall n :: n in qs ==> p !in qs[n].spec.quotas { SumZero(NominalOf(qs, p)); }
    if forall n :: n in qs ==> p !in qs[n].usage { SumZero(UsageOf(qs, p)); }
  }

  /** Every cache has a snapshot. */
  lemma SnapshotExists(c: CacheState) returns (s: Snap)
    ensures IsSnapshotOf(s, c)
  {
    hide TotalAt, TotalsOf;
    var qs := map n | n in c.queues && c.queues[n].status == Active :: Copied(c.queues[n]);
    s := Snap(qs, map g | g in c.cohorts :: TotalsOf(InCohort(qs, g)));
    forall g | g in s.cohorts
      ensures s.cohorts[g].members == InCohort(s.queues, g).Keys && Totals(s.cohorts[g], InCohort(s.queues, g))
    {
      MembersOfTotals(InCohort(qs, g));
      forall p ensures TotalAt(s.cohorts[g], InCohort(qs, g), p) { TotalsOfAreTotals(InCohort(qs, g), p); }
    }
  }

  lemma MembersOfTotals(qs: map<string, SnapQueue>)
    ensures TotalsOf(qs).members == qs.Keys
  {
  }

  lemma ActiveMembers(c: CacheState, qs: map<string, SnapQueue>, g: string)
    requires Ok(c) && g in c.cohorts
    requires qs == map n | n in c.queues && c.queues[n].status == Active :: Copied(c.queues[n])
    ensures (set n | n in c.cohorts[g] && n in qs) == InCohort(qs, g).Keys
    ensures (map n | n in InCohort(qs, g).Keys :: qs[n]) == InCohort(qs, g)
  {
    forall n | n in qs ensures n in c.cohorts[g] <==> n in InCohort(qs, g) {
      assert CohortsOf(c)[n] == qs[n].spec.cohort;
    }
  }

  // ---------- adding and removing a workload ----------

  function Moved(s: Snap, wi: Info, m: Sign, ws: map<Name, Info>): Snap
    requires wi.clusterQueue in s.queues
  {
    var n := wi.clusterQueue;
    var q := s.queues[n];
    Snap(s.queues[n := q.(usage := Shifted(q.usage, wi, m), workloads := ws)],
         if q.spec.cohort.Some? && q.spec.cohort.value in s.cohorts then
           var g := q.spec.cohort.value;
           s.cohorts[g := s.cohorts[g].(usage := Shifted(s.cohorts[g].usage, wi, m))]
         else s.cohorts)
  }

  function Removed(s: Snap, wi: Info): Snap
    requires wi.clusterQueue in s.queues
  {
    Moved(s, wi, -1, s.queues[wi.clusterQueue].workloads - {wi.obj.key})
  }

  function Added(s: Snap, wi: Info): Snap
    requires wi.clusterQueue in s.queues
  {
    Moved(s, wi, 1, s.queues[wi.clusterQueue].workloads[wi.obj.key := wi])
  }

  /** The workload holds nothing that its cohort tracks and its own queue does not list. */
  ghost predicate HoldsOnlyListed(s: Snap, wi: Info)
    requires wi.clusterQueue in s.queues
  {
    var q := s.queues[wi.clusterQueue];
    q.spec.cohort.Some? && q.spec.cohort.value in s.cohorts ==>
      forall p :: p in s.cohorts[q.spec.cohort.value].usage && p !in q.usage ==> Charge(wi, p) == 0
  }

  lemma MovedTotalAt(c: SnapCohort, qs: map<string, SnapQueue>, n: string, wi: Info, m: Sign, q': SnapQueue, p: Pair)
    requires n in qs && q'.usage == Shifted(qs[n].usage, wi, m) && q'.spec == qs[n].spec && TotalAt(c, qs, p)
    ensures TotalAt(c.(usage := Shifted(c.usage, wi, m)), qs[n := q'], p) <==>
            (p in c.usage && p !in qs[n].usage ==> Charge(wi, p) == 0)
  {
    ShiftedAt(c.usage, wi, m, p);
    ShiftedAt(qs[n].usage, wi, m, p);
    SumsPut(qs, n, q', p);
    TrackedPut(qs, n, q', p);
    assert p in qs[n].usage ==> Tracked(qs, p);
  }

  lemma ShiftedAt(u: Quantities, wi: Info, m: Sign, p: Pair)
    ensures At(Shifted(u, wi, m), p) == At(u, p) + if p in u then Signed(m, Charge(wi, p)) else 0
  {
  }

  lemma MovedTotals(c: SnapCohort, qs: map<string, SnapQueue>, n: string, wi: Info, m: Sign, q': SnapQueue)
    requires n in qs && q'.usage == Shifted(qs[n].usage, wi, m) && q'.spec == qs[n].spec && Totals(c, qs)
    ensures Totals(c.(usage := Shifted(c.usage, wi, m)), qs[n := q']) <==>
            forall p :: p in c.usage && p !in qs[n].usage ==> Charge(wi, p) == 0
  {
    var c', qs' := c.(usage := Shifted(c.usage, wi, m)), qs[n := q'];
    forall p ensures TotalAt(c', qs', p) <==> (p in c.usage && p !in qs[n].usage ==> Charge(wi, p) == 0) {
      assert TotalAt(c, qs, p);
      MovedTotalAt(c, qs, n, wi, m, q', p);
    }
  }

  lemma MovedInOwnCohort(s: Snap, wi: Info, m: Sign, ws: map<Name, Info>, g: string)
    requires Balanced(s) && wi.clusterQueue in s.queues
    requires s.queues[wi.clusterQueue].spec.cohort == Some(g) && g in s.cohorts
    ensures Totals(Moved(s, wi, m, ws).cohorts[g], InCohort(Moved(s, wi, m, ws).queues, g)) <==> HoldsOnlyListed(s, wi)
  {
    var s', n, qs := Moved(s, wi, m, ws), wi.clusterQueue, InCohort(s.queues, g);
    MovedTotals(s.cohorts[g], qs, n, wi, m, s'.queues[n]);
    InCohortPut(s.queues, n, s'.queues[n], g);
  }

  lemma InCohortPut(qs: map<string, SnapQueue>, n: string, q: SnapQueue, g: string)
    requires q.spec.cohort == Some(g)
    ensures InCohort(qs[n := q], g) == InCohort(qs, g)[n := q]
  {
  }

  lemma MovedInOtherCohort(s: Snap, wi: Info, m: Sign, ws: map<Name, Info>, g: string)
    requires Balanced(s) && wi.clusterQueue in s.queues
    requires s.queues[wi.clusterQueue].spec.cohort != Some(g) && g in s.cohorts
    ensures Totals(Moved(s, wi, m, ws).cohorts[g], InCohort(Moved(s, wi, m, ws).queues, g))
  {
    var s' := Moved(s, wi, m, ws);
    assert InCohort(s'.queues, g) == InCohort(s.queues, g);
    assert s'.cohorts[g] == s.cohorts[g];
  }

  /** Adding or removing a workload keeps cohort totals equal to the sums exactly when it holds only listed pairs. */
  lemma MovedKeepsBalancedIff(s: Snap, wi: Info, m: Sign, ws: map<Name, Info>)
    requires Balanced(s) && wi.clusterQueue in s.queues
    ensures Balanced(Moved(s, wi, m, ws)) <==> HoldsOnlyListed(s, wi)
  {
    var own := s.queues[wi.clusterQueue].spec.cohort;
    forall g | g in s.cohorts && own != Some(g)
      ensures Totals(Moved(s, wi, m, ws).cohorts[g], InCohort(Moved(s, wi, m, ws).queues, g))
    {
      MovedInOtherCohort(s, wi, m, ws, g);
    }
    if own.Some? && own.value in s.cohorts {
      MovedInOwnCohort(s, wi, m, ws, own.value);
    }
  }

  // ---------- any sequence of additions and removals ----------

  datatype Move = Move(wi: Info, m: Sign, ws: map<Name, Info>)

  ghost predicate Movable(s: Snap, moves: seq<Move>) {
    forall i :: 0 <= i < |moves| ==> moves[i].wi.clusterQueue in s.queues
  }

  ghost function MovedAll(s: Snap, moves: seq<Move>): (r: Snap)
    requires Movable(s, moves)
    ensures r.queues.Keys == s.queues.Keys
  {
    if moves == [] then s
    else
      var last := moves[|moves| - 1];
      Moved(MovedAll(s, moves[..|moves| - 1]), last.wi, last.m, last.ws)
  }

  /** What a move adds to the cohort's total of a pair that the workload's own queue does not list. */
  ghost function Unlisted(s: Snap, mv: Move, g: string, p: Pair): int
    requires mv.wi.clusterQueue in s.queues
  {
    var q := s.queues[mv.wi.clusterQueue];
    if q.spec.cohort == Some(g) && g in s.cohorts && p in s.cohorts[g].usage && p !in q.usage
    then Signed(mv.m, Charge(mv.wi, p)) else 0
  }

  ghost function Drift(s: Snap, moves: seq<Move>, g: string, p: Pair): int
    requires Movable(s, moves)
  {
    if moves == [] then 0
    else Drift(s, moves[..|moves| - 1], g, p) + Unlisted(s, moves[|moves| - 1], g, p)
  }

  /** The cohort's total of the pair is d more than the sum over its queues. */
  ghost predicate OffBy(s: Snap, g: string, p: Pair, d: int)
    requires g in s.cohorts
  {
    var c, qs := s.cohorts[g], InCohort(s.queues, g);
    && At(c.usage, p) == Sum(UsageOf(qs, p)) + d
    && At(c.requestable, p) == Sum(NominalOf(qs, p)) && (p in c.usage <==> Tracked(qs, p))
  }

  /** Moves change neither specifications nor which pairs are listed. */
  ghost predicate SameLists(s: Snap, s': Snap) {
    && s'.queues.Keys == s.queues.Keys && s'.cohorts.Keys == s.cohorts.Keys
    && (forall n :: n in s.queues ==>
          s'.queues[n].spec == s.queues[n].spec && s'.queues[n].usage.Keys == s.queues[n].usage.Keys)
    && (forall g :: g in s.cohorts ==> s'.cohorts[g].usage.Keys == s.cohorts[g].usage.Keys)
  }

  lemma MovedLists(s: Snap, mv: Move)
    requires mv.wi.clusterQueue in s.queues
    ensures SameLists(s, Moved(s, mv.wi, mv.m, mv.ws))
  {
    hide Charge;
  }

  lemma MovedOffBy(s: Snap, mv: Move, g: string, p: Pair, d: int)
    requires mv.wi.clusterQueue in s.queues && g in s.cohorts && OffBy(s, g, p, d)
    ensures g in Moved(s, mv.wi, mv.m, mv.ws).cohorts
    ensures OffBy(Moved(s, mv.wi, mv.m, mv.ws), g, p, d + Unlisted(s, mv, g, p))
  {
    hide Sum, Charge, Shifted;
    var s', n, qs := Moved(s, mv.wi, mv.m, mv.ws), mv.wi.clusterQueue, InCohort(s.queues, g);
    if s.queues[n].spec.cohort == Some(g) {
      InCohortPut(s.queues, n, s'.queues[n], g);
      ShiftedAt(s.cohorts[g].usage, mv.wi, mv.m, p);
      ShiftedAt(qs[n].usage, mv.wi, mv.m, p);
      ShiftedKeys(s.cohorts[g].usage, mv.wi, mv.m);
      ShiftedKeys(qs[n].usage, mv.wi, mv.m);
      SumsPut(qs, n, s'.queues[n], p);
      TrackedPut(qs, n, s'.queues[n], p);
      assert p in qs[n].usage ==> Tracked(qs, p);
    } else {
      assert InCohort(s'.queues, g) == qs;
    }
  }

  lemma ShiftedKeys(u: Quantities, wi: Info, m: Sign)
    ensures Shifted(u, wi, m).Keys == u.Keys
  {
  }

  lemma {:induction false} MovedAllOffBy(s: Snap, moves: seq<Move>, g: string, p: Pair)
    requires Balanced(s) && Movable(s, moves) && g in s.cohorts
    ensures SameLists(s, MovedAll(s, moves)) && OffBy(MovedAll(s, moves), g, p, Drift(s, moves, g, p))
    decreases |moves|
  {
    hide OffBy, SameLists, Moved, Unlisted, Balanced;
    if moves == [] {
      BalancedOffBy(s, g, p);
    } else {
      var before, last := moves[..|moves| - 1], moves[|moves| - 1];
      MovedAllOffBy(s, before, g, p);
      MovedLists(MovedAll(s, before), last);
      ListsChain(s, MovedAll(s, before), MovedAll(s, moves), last, g, p);
      MovedOffBy(MovedAll(s, before), last, g, p, Drift(s, before, g, p));
    }
  }

  lemma BalancedOffBy(s: Snap, g: string, p: Pair)
    requires Balanced(s) && g in s.cohorts
    ensures OffBy(s, g, p, 0) && SameLists(s, s)
  {
    hide Sum;
    assert Totals(s.cohorts[g], InCohort(s.queues, g)) && TotalAt(s.cohorts[g], InCohort(s.queues, g), p);
  }

  lemma ListsChain(s: Snap, s': Snap, s'': Snap, mv: Move, g: string, p: Pair)
    requires SameLists(s, s') && SameLists(s', s'') && mv.wi.clusterQueue in s.queues && g in s.cohorts
    ensures SameLists(s, s'') && g in s'.cohorts && g in s''.cohorts && Unlisted(s', mv, g, p) == Unlisted(s, mv, g, p)
  {
    hide Charge;
  }

  /**
   * After any sequence of additions and removals the cohort totals equal the sums over the queues if and only if, for
   * each cohort and pair, what was added and removed of pairs that the workload's own queue does not list cancels out.
   */
  lemma MovesKeepBalancedIff(s: Snap, moves: seq<Move>)
    requires Balanced(s) && Movable(s, moves)
    ensures Balanced(MovedAll(s, moves)) <==> forall g :: g in s.cohorts ==> NoDrift(s, moves, g)
  {
    hide Totals, Movable, NoDrift;
    SameCohorts(s, moves);
    forall g | g in s.cohorts
      ensures NoDrift(s, moves, g) <==> Totals(MovedAll(s, moves).cohorts[g], InCohort(MovedAll(s, moves).queues, g))
    {
      NoDriftIff(s, moves, g);
    }
  }

  ghost predicate NoDrift(s: Snap, moves: seq<Move>, g: string)
    requires Movable(s, moves)
  {
    forall p :: Drift(s, moves, g, p) == 0
  }

  lemma NoDriftIff(s: Snap, moves: seq<Move>, g: string)
    requires Balanced(s) && Movable(s, moves) && g in s.cohorts && g in MovedAll(s, moves).cohorts
    ensures var s' := MovedAll(s, moves);
            NoDrift(s, moves, g) <==> Totals(s'.cohorts[g], InCohort(s'.queues, g))
  {
    hide TotalAt, Movable, Balanced;
    var s' := MovedAll(s, moves);
    forall p ensures TotalAt(s'.cohorts[g], InCohort(s'.queues, g), p) <==> Drift(s, moves, g, p) == 0 {
      MovedTotalIff(s, moves, g, p);
    }
  }

  lemma MovedTotalIff(s: Snap, moves: seq<Move>, g: string, p: Pair)
    requires Balanced(s) && Movable(s, moves) && g in s.cohorts && g in MovedAll(s, moves).cohorts
    ensures var s' := MovedAll(s, moves);
            TotalAt(s'.cohorts[g], InCohort(s'.queues, g), p) <==> Drift(s, moves, g, p) == 0
  {
    hide Sum, MovedAll, Drift, Movable, Balanced;
    MovedAllOffBy(s, moves, g, p);
  }

  lemma {:induction false} SameCohorts(s: Snap, moves: seq<Move>)
    requires Movable(s, moves)
    ensures MovedAll(s, moves).cohorts.Keys == s.cohorts.Keys
    decreases |moves|
  {
    hide Moved;
    if moves != [] {
      SameCohorts(s, moves[..|moves| - 1]);
      MovedLists(MovedAll(s, moves[..|moves| - 1]), moves[|moves| - 1]);
    }
  }

  // ---------- what the flavor assigner reads ----------

  datatype CohortTotals = CohortTotals(usage: Quantities, requestable: Quantities)

  datatype QueueView = QueueView(spec: QueueSpec, usage: Quantities, cohort: Option<CohortTotals>)

  function ViewOf(s: Snap, n: string): QueueView
    requires n in s.queues
  {
    var q := s.queues[n];
    QueueView(q.spec, q.usage,
              if q.spec.cohort.Some? && q.spec.cohort.value in s.cohorts then
                Some(CohortTotals(s.cohorts[q.spec.cohort.value].usage, s.cohorts[q.spec.cohort.value].requestable))
              else None)
  }

  // ---------- the object ----------

  class Snapshot {
    var queues: map<string, SnapQueue>
    var cohorts: map<string, SnapCohort>

    function View(): Snap reads this { Snap(queues, cohorts) }

    /** Copies the active queues and adds up each cohort's totals, member by member. */
    constructor (c: CacheState)
      requires Ok(c)
      ensures IsSnapshotOf(View(), c)
    {
      queues := map n | n in c.queues && c.queues[n].status == Active :: Copied(c.queues[n]);
      cohorts := map[];
      new;
      var todo := c.cohorts.Keys;
      while todo != {}
        invariant todo <= c.cohorts.Keys && cohorts.Keys == c.cohorts.Keys - todo
        invariant queues == map n | n in c.queues && c.queues[n].status == Active :: Copied(c.queues[n])
        invariant forall g :: g in cohorts ==>
                    cohorts[g].members == InCohort(queues, g).Keys && Totals(cohorts[g], InCohort(queues, g))
        decreases todo
      {
        var g :| g in todo;
        var members := set n | n in c.cohorts[g] && n in queues;
        ActiveMembers(c, queues, g);
        var copy := Gather(members);
        cohorts := cohorts[g := copy];
        todo := todo - {g};
      }
    }

    method Gather(members: set<string>) returns (cohort: SnapCohort)
      requires members <= queues.Keys
      ensures cohort.members == members && Totals(cohort, map n | n in members :: queues[n])
    {
      cohort := SnapCohort({}, map[], map[]);
      var todo := members;
      ghost var done: map<string, SnapQueue> := map[];
      EmptyTotals();
      while todo != {}
        invariant todo <= members && cohort.members == members - todo
        invariant done == map n | n in members && n !in todo :: queues[n]
        invariant Totals(cohort, done)
        decreases todo
      {
        var n :| n in todo;
        var q := queues[n];
        var r := Accumulate(cohort.requestable, map p | p in q.spec.quotas :: q.spec.quotas[p].nominal);
        var u := Accumulate(cohort.usage, q.usage);
        JoinTotals(cohort, done, n, q, SnapCohort(cohort.members + {n}, r, u));
        cohort := SnapCohort(cohort.members + {n}, r, u);
        done := done[n := q];
        todo := todo - {n};
      }
      assert done == map n | n in members :: queues[n];
    }

    method RemoveWorkload(wi: Info)
      requires wi.clusterQueue in queues
      modifies this
      ensures View() == Removed(old(View()), wi)
    {
      Move(wi, -1, queues[wi.clusterQueue].workloads - {wi.obj.key});
    }

    method AddWorkload(wi: Info)
      requires wi.clusterQueue in queues
      modifies this
      ensures View() == Added(old(View()), wi)
    {
      Move(wi, 1, queues[wi.clusterQueue].workloads[wi.obj.key := wi]);
    }

    method Move(wi: Info, m: Sign, ws: map<Name, Info>)
      requires wi.clusterQueue in queues
      modifies this
      ensures View() == Moved(old(View()), wi, m, ws)
    {
      var n := wi.clusterQueue;
      var q := queues[n];
      var u := UpdateUsage(wi, q.usage, m);
      queues := queues[n := q.(usage := u, workloads := ws)];
      if q.spec.cohort.Some? && q.spec.cohort.value in cohorts {
        var g := q.spec.cohort.value;
        var cu := UpdateUsage(wi, cohorts[g].usage, m);
        cohorts := cohorts[g := cohorts[g].(usage := cu)];
      }
    }
  }

  /** accumulateResources, for one of the two maps. */
  method Accumulate(total: Quantities, add: Quantities) returns (r: Quantities)
    ensures r.Keys == total.Keys + add.Keys
    ensures forall p :: At(r, p) == At(total, p) + At(add, p)
  {
    r := total;
    var todo := add.Keys;
    while todo != {}
      invariant todo <= add.Keys && r.Keys == total.Keys + (add.Keys - todo)
      invariant forall p :: At(r, p) == At(total, p) + if p in todo then 0 else At(add, p)
      decreases todo
    {
      var p :| p in todo;
      r := r[p := At(r, p) + add[p]];
      todo := todo - {p};
    }
  }

  lemma EmptyTotals()
    ensures Totals(SnapCohort({}, map[], map[]), map[])
  {
    var none: map<string, SnapQueue> := map[];
    forall p ensures TotalAt(SnapCohort({}, map[], map[]), none, p) {
      assert UsageOf(none, p) == map[] && NominalOf(none, p) == map[];
    }
  }

  lemma JoinTotals(c: SnapCohort, qs: map<string, SnapQueue>, n: string, q: SnapQueue, c': SnapCohort)
    requires Totals(c, qs) && n !in qs
    requires forall p :: At(c'.requestable, p) == At(c.requestable, p) + q.spec.Nominal(p)
    requires forall p :: At(c'.usage, p) == At(c.usage, p) + At(q.usage, p)
    requires c'.usage.Keys == c.usage.Keys + q.usage.Keys
    ensures Totals(c', qs[n := q])
  {
    var qs' := qs[n := q];
    forall p ensures TotalAt(c', qs', p) {
      assert TotalAt(c, qs, p);
      SumsPut(qs, n, q, p);
      TrackedPut(qs, n, q, p);
    }
  }
}
