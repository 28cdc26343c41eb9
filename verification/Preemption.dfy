/** Which workloads the preemptor evicts (pkg/scheduler/preemption/preemption.go), as functions of the snapshot. */
module Preemption {
  import opened Sums
  import opened Model
  import opened Ledgers
  import opened Snapshots
  import opened Eviction

  // ---------- the two checks ----------

  predicate FitsAt(v: QueueView, p: Pair, amount: int, borrowing: bool) {
    var quota := v.spec.Quota(p);
    var limit := quota.nominal + if quota.borrowingLimit.Some? && borrowing then quota.borrowingLimit.value else 0;
    && At(v.usage, p) + amount <= limit
    && (v.cohort.Some? ==> At(v.cohort.value.usage, p) + amount <= At(v.cohort.value.requestable, p))
  }

  predicate WorkloadFits(v: QueueView, req: Quantities, borrowing: bool) {
    forall p | p in req && p in v.spec.quotas :: FitsAt(v, p, req[p], borrowing)
  }

  predicate IsBorrowing(q: SnapQueue, needed: set<Pair>) {
    q.spec.cohort.Some? && exists p | p in needed && p in q.spec.quotas :: At(q.usage, p) > q.spec.Nominal(p)
  }

  ghost predicate FlavorListed(spec: QueueSpec, f: string) {
    exists i :: 0 <= i < |spec.groups| && f in spec.groups[i].flavors
  }

  ghost predicate SpecsValid(s: Snap) {
    forall n :: n in s.queues ==> s.queues[n].spec.Valid()
  }

  // ---------- the search, without in-place deletion or a mutated snapshot ----------

  /** What the preemptor asks for: room for a request in a queue, on pairs that need preemption. */
  datatype Ask = Ask(queue: string, needed: set<Pair>, request: Quantities, borrowing: bool)

  ghost predicate FitsAfter(s: Snap, a: Ask, ws: set<Info>) {
    a.queue in s.queues && WorkloadFits(ViewOf(Evict(s, ws), a.queue), a.request, a.borrowing)
  }

  /** A workload of another queue may only go while its queue is over its nominal quota on a needed pair. */
  ghost predicate MayGo(s: Snap, a: Ask, ws: set<Info>, t: Info) {
    t.clusterQueue == a.queue ||
    (t.clusterQueue in s.queues && IsBorrowing(Evict(s, ws).queues[t.clusterQueue], a.needed))
  }

  function Elems(ws: seq<Info>): set<Info> { set t | t in ws }

  predicate NoDuplicates(ws: seq<Info>) {
    forall i, j | 0 <= i < j < |ws| :: ws[i] != ws[j]
  }

  /** Candidates are taken in order until the request fits. */
  ghost function Scan(s: Snap, a: Ask, cands: seq<Info>, picked: seq<Info>): (seq<Info>, bool)
    decreases |cands|
  {
    if cands == [] then (picked, false)
    else if !MayGo(s, a, Elems(picked), cands[0]) then Scan(s, a, cands[1..], picked)
    else
      var more := picked + [cands[0]];
      if FitsAfter(s, a, Elems(more)) then (more, true) else Scan(s, a, cands[1..], more)
  }

  /** In reverse order, a picked workload that the request can do without is given back. */
  ghost function AddBack(s: Snap, a: Ask, picked: seq<Info>, ws: set<Info>): set<Info>
    decreases |picked|
  {
    if picked == [] then ws
    else
      var t := picked[|picked| - 1];
      AddBack(s, a, picked[..|picked| - 1], if FitsAfter(s, a, ws - {t}) then ws - {t} else ws)
  }

  ghost function Selected(s: Snap, a: Ask, cands: seq<Info>): set<Info> {
    var (picked, fits) := Scan(s, a, cands, []);
    if fits && picked != [] then AddBack(s, a, picked[..|picked| - 1], Elems(picked)) else {}
  }

  // ---------- monotonicity ----------

  lemma FitsMonotone(s: Snap, a: Ask, ws: set<Info>, ws': set<Info>)
    requires ws <= ws' && FitsAfter(s, a, ws)
    ensures FitsAfter(s, a, ws')
  {
    hide Lowered, KeysOf;
    var v, v' := ViewOf(Evict(s, ws), a.queue), ViewOf(Evict(s, ws'), a.queue);
    forall p | p in a.request && p in v.spec.quotas ensures FitsAt(v', p, a.request[p], a.borrowing) {
      assert FitsAt(v, p, a.request[p], a.borrowing);
      LoweredMonotone(s.queues[a.queue].usage, From(ws, a.queue), From(ws', a.queue), p);
      if v.cohort.Some? {
        var g := v.spec.cohort.value;
        LoweredMonotone(s.cohorts[g].usage, FromCohort(s, ws, g), FromCohort(s, ws', g), p);
      }
    }
  }

  lemma MayGoAntitone(s: Snap, a: Ask, ws: set<Info>, ws': set<Info>, t: Info)
    requires ws <= ws' && MayGo(s, a, ws', t)
    ensures MayGo(s, a, ws, t)
  {
    hide Lowered, KeysOf;
    if t.clusterQueue != a.queue {
      var n := t.clusterQueue;
      var p :| p in a.needed && p in s.queues[n].spec.quotas &&
               At(Evict(s, ws').queues[n].usage, p) > s.queues[n].spec.Nominal(p);
      LoweredMonotone(s.queues[n].usage, From(ws, n), From(ws', n), p);
    }
  }

  // ---------- the forward scan ----------

  lemma {:induction false} ScanStops(s: Snap, a: Ask, cands: seq<Info>, picked: seq<Info>)
    requires picked != [] ==> !FitsAfter(s, a, Elems(picked))
    ensures var (r, fits) := Scan(s, a, cands, picked);
            && picked <= r
            && (fits ==>
                  |picked| < |r| && FitsAfter(s, a, Elems(r)) && (|r| > 1 ==> !FitsAfter(s, a, Elems(r[..|r| - 1]))))
            && (!fits && r != [] ==> !FitsAfter(s, a, Elems(r)))
    decreases |cands|
  {
    hide FitsAfter, MayGo;
    if cands != [] {
      if !MayGo(s, a, Elems(picked), cands[0]) {
        ScanStops(s, a, cands[1..], picked);
      } else {
        var more := picked + [cands[0]];
        assert more[..|more| - 1] == picked;
        if !FitsAfter(s, a, Elems(more)) { ScanStops(s, a, cands[1..], more); }
      }
    }
  }

  lemma ElemsPut(ws: seq<Info>, t: Info)
    ensures Elems(ws + [t]) == Elems(ws) + {t}
  {
  }

  ghost predicate Guarded(s: Snap, a: Ask, cands: seq<Info>, ws: set<Info>, j: nat)
    requires j <= |cands|
  {
    forall i :: 0 <= i < j && cands[i] in ws ==> MayGo(s, a, ws * Elems(cands[..i]), cands[i])
  }

  lemma {:induction false} ScanGuarded(s: Snap, a: Ask, cands: seq<Info>, i: nat, picked: seq<Info>)
    requires NoDuplicates(cands) && i <= |cands|
    requires Elems(picked) <= Elems(cands[..i]) && Guarded(s, a, cands, Elems(picked), i) && NoDuplicates(picked)
    ensures var r := Scan(s, a, cands[i..], picked).0;
            Elems(r) <= Elems(cands) && Guarded(s, a, cands, Elems(r), |cands|) && NoDuplicates(r)
    decreases |cands| - i
  {
    hide FitsAfter, MayGo;
    if i == |cands| {
      assert cands[..i] == cands;
    } else {
      var more := picked + [cands[i]];
      assert cands[i..][1..] == cands[i + 1..] && cands[..i + 1] == cands[..i] + [cands[i]];
      ElemsPut(cands[..i], cands[i]);
      ElemsPut(picked, cands[i]);
      assert cands[i] !in Elems(cands[..i]);
      if !MayGo(s, a, Elems(picked), cands[i]) {
        ScanGuarded(s, a, cands, i + 1, picked);
      } else {
        forall j | 0 <= j < i + 1 && cands[j] in Elems(more)
          ensures MayGo(s, a, Elems(more) * Elems(cands[..j]), cands[j])
        {
          assert Elems(more) * Elems(cands[..j]) == Elems(picked) * Elems(cands[..j]);
          if j == i { assert Elems(picked) * Elems(cands[..i]) == Elems(picked); }
        }
        GuardedBeyond(s, a, cands, more, i + 1);
        if !FitsAfter(s, a, Elems(more)) { ScanGuarded(s, a, cands, i + 1, more); }
      }
    }
  }

  lemma GuardedBeyond(s: Snap, a: Ask, cands: seq<Info>, picked: seq<Info>, i: nat)
    requires NoDuplicates(cands) && i <= |cands| && Elems(picked) <= Elems(cands[..i])
    requires Guarded(s, a, cands, Elems(picked), i)
    ensures Elems(picked) <= Elems(cands) && Guarded(s, a, cands, Elems(picked), |cands|)
  {
    hide MayGo;
    forall j | i <= j < |cands| ensures cands[j] !in Elems(picked) {
      assert cands[j] !in cands[..i];
    }
  }

  lemma {:induction false} ScanOwn(s: Snap, a: Ask, cands: seq<Info>, picked: seq<Info>)
    requires forall t :: t in cands ==> t.clusterQueue == a.queue
    ensures !Scan(s, a, cands, picked).1 ==> Scan(s, a, cands, picked).0 == picked + cands
    decreases |cands|
  {
    hide FitsAfter;
    if cands != [] {
      ScanOwn(s, a, cands[1..], picked + [cands[0]]);
      assert picked + [cands[0]] + cands[1..] == picked + cands;
    }
  }

  // ---------- the reverse scan ----------

  lemma {:induction false} AddBackMinimal(s: Snap, a: Ask, picked: seq<Info>, ws: set<Info>)
    requires NoDuplicates(picked) && Elems(picked) <= ws && FitsAfter(s, a, ws)
    requires forall t :: t in ws && t !in picked ==> !FitsAfter(s, a, ws - {t})
    ensures var r := AddBack(s, a, picked, ws);
            r <= ws && FitsAfter(s, a, r) && forall t :: t in r ==> !FitsAfter(s, a, r - {t})
    decreases |picked|
  {
    hide FitsAfter;
    if picked != [] {
      var n := |picked| - 1;
      var t, rest := picked[n], picked[..n];
      var ws' := if FitsAfter(s, a, ws - {t}) then ws - {t} else ws;
      forall x | x in ws' && x !in rest ensures !FitsAfter(s, a, ws' - {x}) {
        if x !in picked && FitsAfter(s, a, ws' - {x}) {
          FitsMonotone(s, a, ws' - {x}, ws - {x});
        }
      }
      AddBackMinimal(s, a, rest, ws');
    }
  }

  lemma {:induction false} AddBackKeeps(s: Snap, a: Ask, picked: seq<Info>, ws: set<Info>)
    ensures AddBack(s, a, picked, ws) <= ws
    ensures forall t :: t in ws && t !in picked ==> t in AddBack(s, a, picked, ws)
    ensures FitsAfter(s, a, ws) ==> FitsAfter(s, a, AddBack(s, a, picked, ws))
    decreases |picked|
  {
    hide FitsAfter;
    if picked != [] {
      var n := |picked| - 1;
      AddBackKeeps(s, a, picked[..n], if FitsAfter(s, a, ws - {picked[n]}) then ws - {picked[n]} else ws);
    }
  }

  // ---------- what the selected set guarantees ----------

  lemma SelectedBasics(s: Snap, a: Ask, cands: seq<Info>)
    requires NoDuplicates(cands)
    ensures Selected(s, a, cands) <= Elems(cands)
    ensures Selected(s, a, cands) != {} <==> Scan(s, a, cands, []).1
    ensures Selected(s, a, cands) != {} ==> FitsAfter(s, a, Selected(s, a, cands))
  {
    hide FitsAfter, Guarded;
    var (picked, fits) := Scan(s, a, cands, []);
    ScanStops(s, a, cands, []);
    ScanGuardedAll(s, a, cands);
    if fits {
      var n := |picked| - 1;
      AddBackKeeps(s, a, picked[..n], Elems(picked));
      assert picked[n] in Selected(s, a, cands);
    }
  }

  lemma ScanGuardedAll(s: Snap, a: Ask, cands: seq<Info>)
    requires NoDuplicates(cands)
    ensures var r := Scan(s, a, cands, []).0;
            Elems(r) <= Elems(cands) && Guarded(s, a, cands, Elems(r), |cands|) && NoDuplicates(r)
  {
    hide MayGo, FitsAfter, Scan;
    assert cands[0..] == cands;
    ScanGuarded(s, a, cands, 0, []);
  }

  lemma SelectedNecessary(s: Snap, a: Ask, cands: seq<Info>)
    requires NoDuplicates(cands) && !FitsAfter(s, a, {}) && Selected(s, a, cands) != {}
    ensures forall t :: t in Selected(s, a, cands) ==> !FitsAfter(s, a, Selected(s, a, cands) - {t})
  {
    hide FitsAfter, Guarded, Scan;
    var (picked, fits) := Scan(s, a, cands, []);
    ScanStops(s, a, cands, []);
    ScanGuardedAll(s, a, cands);
    var n := |picked| - 1;
    ElemsPut(picked[..n], picked[n]);
    assert picked[..n] + [picked[n]] == picked;
    assert Elems(picked) - {picked[n]} == Elems(picked[..n]);
    if n == 0 { assert Elems(picked[..n]) == {}; }
    AddBackMinimal(s, a, picked[..n], Elems(picked));
  }

  /**
   * A non-empty result is minimal under inclusion - no proper subset of it makes room -
   * if and only if the workload did not fit to begin with.
   */
  lemma SelectedMinimalIff(s: Snap, a: Ask, cands: seq<Info>)
    requires NoDuplicates(cands) && Selected(s, a, cands) != {}
    ensures FitsAfter(s, a, Selected(s, a, cands))
    ensures (forall ws :: ws < Selected(s, a, cands) ==> !FitsAfter(s, a, ws)) <==> !FitsAfter(s, a, {})
  {
    hide FitsAfter, Selected;
    var c := Selected(s, a, cands);
    SelectedBasics(s, a, cands);
    if !FitsAfter(s, a, {}) {
      SelectedNecessary(s, a, cands);
      forall ws | ws < c ensures !FitsAfter(s, a, ws) {
        var t :| t in c && t !in ws;
        if FitsAfter(s, a, ws) { FitsMonotone(s, a, ws, c - {t}); }
      }
    } else {
      assert {} < c;
    }
  }

  /** A selected workload of another queue: its queue still borrows after evicting all selected ones before it. */
  lemma SelectedGuarded(s: Snap, a: Ask, cands: seq<Info>)
    requires NoDuplicates(cands)
    ensures Guarded(s, a, cands, Selected(s, a, cands), |cands|)
  {
    hide FitsAfter, Scan, MayGo;
    var picked, c := Scan(s, a, cands, []).0, Selected(s, a, cands);
    ScanGuardedAll(s, a, cands);
    if picked != [] { AddBackKeeps(s, a, picked[..|picked| - 1], Elems(picked)); }
    forall i | 0 <= i < |cands| && cands[i] in c ensures MayGo(s, a, c * Elems(cands[..i]), cands[i]) {
      MayGoAntitone(s, a, c * Elems(cands[..i]), Elems(picked) * Elems(cands[..i]), cands[i]);
    }
  }

  /** When all candidates are the queue's own, a set is found exactly when some subset would do. */
  lemma OwnCandidatesComplete(s: Snap, a: Ask, cands: seq<Info>)
    requires NoDuplicates(cands) && cands != [] && forall t :: t in cands ==> t.clusterQueue == a.queue
    ensures Selected(s, a, cands) != {} <==> exists ws :: ws <= Elems(cands) && FitsAfter(s, a, ws)
  {
    hide FitsAfter, Selected;
    SelectedBasics(s, a, cands);
    ScanOwn(s, a, cands, []);
    ScanStops(s, a, cands, []);
    if Selected(s, a, cands) == {} {
      assert [] + cands == cands;
      forall ws | ws <= Elems(cands) ensures !FitsAfter(s, a, ws) {
        if FitsAfter(s, a, ws) { FitsMonotone(s, a, ws, Elems(cands)); }
      }
    }
  }
}
