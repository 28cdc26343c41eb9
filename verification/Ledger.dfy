/** The quota ledger of one ClusterQueue (pkg/cache/cache.go): usage kept incrementally as workloads come and go. */
module Ledgers {
  import opened Sums
  import opened Model

  datatype Status = Pending | Active | Terminating

  /** What the ledger keeps for a LocalQueue. */
  datatype LocalUsage = LocalUsage(admitted: int, usage: Quantities)

  datatype Ledger = Ledger(spec: QueueSpec, status: Status, usage: Quantities,
                           workloads: map<Name, Info>, locals: map<Name, LocalUsage>)

  // ---------- reference: sums over the charged workloads ----------

  ghost function Total(ws: map<Name, Info>, p: Pair): int {
    Sum(Charges(ws, p))
  }

  ghost function Charges(ws: map<Name, Info>, p: Pair): map<Name, int> {
    map k | k in ws :: Charge(ws[k], p)
  }

  function SubmittedTo(ws: map<Name, Info>, q: Name): map<Name, Info> {
    map k | k in ws && ws[k].obj.QueueKey() == q :: ws[k]
  }

  /** The ledger invariant: every counter equals the sum it stands for. */
  ghost predicate Exact(l: Ledger) {
    && ExactUsage(l)
    && (forall q :: q in l.locals ==> ExactLocal(l, q))
  }

  ghost predicate ExactUsage(l: Ledger) {
    && l.usage.Keys == l.spec.quotas.Keys
    && (forall p :: p in l.usage ==> l.usage[p] == Total(l.workloads, p))
  }

  ghost predicate ExactLocal(l: Ledger, q: Name)
    requires q in l.locals
  {
    l.locals[q] == Counted(l, q)
  }

  ghost function Counted(l: Ledger, q: Name): LocalUsage {
    CountOf(SubmittedTo(l.workloads, q), l.usage.Keys)
  }

  ghost function CountOf(ws: map<Name, Info>, pairs: set<Pair>): LocalUsage {
    LocalUsage(|ws|, map p | p in pairs :: Total(ws, p))
  }

  lemma TotalPut(ws: map<Name, Info>, k: Name, wi: Info, p: Pair)
    requires k !in ws
    ensures Total(ws[k := wi], p) == Total(ws, p) + Charge(wi, p)
  {
    SumPut(Charges(ws, p), k, Charge(wi, p));
    assert Charges(ws[k := wi], p) == Charges(ws, p)[k := Charge(wi, p)];
  }

  lemma TotalDrop(ws: map<Name, Info>, k: Name, p: Pair)
    requires k in ws
    ensures Total(ws - {k}, p) == Total(ws, p) - Charge(ws[k], p)
  {
    TotalPut(ws - {k}, k, ws[k], p);
    assert (ws - {k})[k := ws[k]] == ws;
  }

  lemma TotalNonNegative(ws: map<Name, Info>, p: Pair)
    ensures 0 <= Total(ws, p)
  {
    SumNonNegative(Charges(ws, p));
  }

  lemma TotalOfSubmitted(ws: map<Name, Info>, q: Name, p: Pair)
    ensures 0 <= Total(SubmittedTo(ws, q), p) <= Total(ws, p)
  {
    TotalNonNegative(SubmittedTo(ws, q), p);
    SumSubset(Charges(SubmittedTo(ws, q), p), Charges(ws, p));
  }

  // ---------- the operations, on values ----------

  /** The multiplier of updateUsage: 1 when a workload is added, -1 when it goes. */
  type Sign = m: int | m == 1 || m == -1 witness 1

  function Signed(m: Sign, v: int): int {
    if m == 1 then v else 0 - v
  }

  function Shifted(u: Quantities, wi: Info, m: Sign): Quantities {
    map p | p in u :: u[p] + Signed(m, Charge(wi, p))
  }

  /** Keeps the pairs of a new specification; a pair that was not listed before starts at zero. */
  function Refit(u: Quantities, pairs: set<Pair>): Quantities {
    map p | p in pairs :: At(u, p)
  }

  function Charged(l: Ledger, wi: Info, m: Sign): Ledger {
    var q := wi.obj.QueueKey();
    l.(usage := Shifted(l.usage, wi, m),
       locals := if q in l.locals
                 then l.locals[q := LocalUsage(l.locals[q].admitted + m, Shifted(l.locals[q].usage, wi, m))]
                 else l.locals)
  }

  function AddWorkload(l: Ledger, w: Workload): Ledger {
    if w.key in l.workloads then l
    else Charged(l.(workloads := l.workloads[w.key := NewInfo(w)]), NewInfo(w), 1)
  }

  function DeleteWorkload(l: Ledger, k: Name): Ledger {
    if k !in l.workloads then l
    else Charged(l.(workloads := l.workloads - {k}), l.workloads[k], -1)
  }

  ghost function AddLocal(l: Ledger, q: Name): Ledger {
    if q in l.locals then l else l.(locals := l.locals[q := Counted(l, q)])
  }

  function DeleteLocal(l: Ledger, q: Name): Ledger {
    l.(locals := l.locals - {q})
  }

  predicate FlavorsKnown(spec: QueueSpec, known: set<string>) {
    forall i | 0 <= i < |spec.groups| :: forall f | f in spec.groups[i].flavors :: f in known
  }

  function StatusWith(status: Status, spec: QueueSpec, known: set<string>): Status {
    if status == Terminating then Terminating else if FlavorsKnown(spec, known) then Active else Pending
  }

  function Update(l: Ledger, spec: QueueSpec, known: set<string>): Ledger {
    Ledger(spec, StatusWith(l.status, spec, known), Refit(l.usage, spec.quotas.Keys), l.workloads,
           map q | q in l.locals :: l.locals[q].(usage := Refit(l.locals[q].usage, spec.quotas.Keys)))
  }

  function NewLedger(spec: QueueSpec, known: set<string>): Ledger {
    Update(Ledger(spec, Pending, map[], map[], map[]), spec, known)
  }

  // ---------- the invariant is kept ----------

  lemma AddKeepsExact(l: Ledger, w: Workload)
    requires Exact(l)
    ensures Exact(AddWorkload(l, w))
  {
    if w.key !in l.workloads {
      AddKeepsUsage(l, w);
      forall q | q in l.locals ensures ExactLocal(AddWorkload(l, w), q) {
        AddKeepsLocal(l, w, q);
      }
    }
  }

  lemma AddKeepsUsage(l: Ledger, w: Workload)
    requires w.key !in l.workloads && ExactUsage(l)
    ensures ExactUsage(AddWorkload(l, w))
  {
    hide Total;
    forall p | p in l.usage ensures AddWorkload(l, w).usage[p] == Total(AddWorkload(l, w).workloads, p) {
      TotalPut(l.workloads, w.key, NewInfo(w), p);
    }
  }

  lemma SubmittedPut(ws: map<Name, Info>, k: Name, wi: Info, q: Name)
    requires k !in ws
    ensures SubmittedTo(ws[k := wi], q) ==
            if wi.obj.QueueKey() == q then SubmittedTo(ws, q)[k := wi] else SubmittedTo(ws, q)
  {
  }

  lemma CountPut(ws: map<Name, Info>, k: Name, wi: Info, pairs: set<Pair>)
    requires k !in ws
    ensures CountOf(ws[k := wi], pairs) ==
            LocalUsage(|ws| + 1, Shifted(CountOf(ws, pairs).usage, wi, 1))
  {
    var u, u' := CountOf(ws, pairs).usage, CountOf(ws[k := wi], pairs).usage;
    forall p | p in pairs ensures u'[p] == u[p] + Charge(wi, p) {
      TotalPut(ws, k, wi, p);
    }
    IsShifted(u, wi, 1, u');
    assert ws[k := wi].Keys == ws.Keys + {k};
  }

  lemma IsShifted(u: Quantities, wi: Info, m: Sign, u': Quantities)
    requires u'.Keys == u.Keys && forall p :: p in u ==> u'[p] == u[p] + Signed(m, Charge(wi, p))
    ensures u' == Shifted(u, wi, m)
  {
  }

  lemma AddKeepsLocal(l: Ledger, w: Workload, q: Name)
    requires w.key !in l.workloads && q in l.locals && ExactLocal(l, q)
    ensures ExactLocal(AddWorkload(l, w), q)
  {
    var wi := NewInfo(w);
    SubmittedPut(l.workloads, w.key, wi, q);
    CountPut(SubmittedTo(l.workloads, q), w.key, wi, l.usage.Keys);
    assert AddWorkload(l, w).usage.Keys == l.usage.Keys;
  }

  lemma DeleteKeepsExact(l: Ledger, k: Name)
    requires Exact(l)
    ensures Exact(DeleteWorkload(l, k))
  {
    if k in l.workloads {
      DeleteKeepsUsage(l, k);
      forall q | q in l.locals ensures ExactLocal(DeleteWorkload(l, k), q) {
        DeleteKeepsLocal(l, k, q);
      }
    }
  }

  lemma DeleteKeepsUsage(l: Ledger, k: Name)
    requires k in l.workloads && ExactUsage(l)
    ensures ExactUsage(DeleteWorkload(l, k))
  {
    forall p | p in l.usage ensures DeleteWorkload(l, k).usage[p] == Total(DeleteWorkload(l, k).workloads, p) {
      TotalDrop(l.workloads, k, p);
    }
  }

  lemma DeleteKeepsLocal(l: Ledger, k: Name, q: Name)
    requires k in l.workloads && q in l.locals && ExactLocal(l, q)
    ensures ExactLocal(DeleteWorkload(l, k), q)
  {
    var ws, wi := l.workloads - {k}, l.workloads[k];
    assert ws[k := wi] == l.workloads;
    SubmittedPut(ws, k, wi, q);
    CountPut(SubmittedTo(ws, q), k, wi, l.usage.Keys);
    assert DeleteWorkload(l, k).usage.Keys == l.usage.Keys;
    UndoShift(CountOf(SubmittedTo(ws, q), l.usage.Keys).usage, wi);
  }

  lemma UndoShift(u: Quantities, wi: Info)
    ensures Shifted(Shifted(u, wi, 1), wi, -1) == u == Shifted(Shifted(u, wi, -1), wi, 1)
  {
  }

  lemma LocalsKeepExact(l: Ledger, q: Name)
    requires Exact(l)
    ensures Exact(AddLocal(l, q)) && Exact(DeleteLocal(l, q))
  {
    forall j | j in AddLocal(l, q).locals ensures ExactLocal(AddLocal(l, q), j) {
      if j in l.locals { assert ExactLocal(l, j); }
    }
    forall j | j in DeleteLocal(l, q).locals ensures ExactLocal(DeleteLocal(l, q), j) {
      assert ExactLocal(l, j);
    }
  }

  /** No pair that the new specification introduces is held by a charged workload. */
  ghost predicate IntroducesOnlyUnused(l: Ledger, spec: QueueSpec) {
    forall p :: p in spec.quotas && p !in l.spec.quotas ==> Total(l.workloads, p) == 0
  }

  /** A specification update keeps the ledger exact if and only if it introduces no pair already in use. */
  lemma UpdateKeepsExactIff(l: Ledger, spec: QueueSpec, known: set<string>)
    requires Exact(l)
    ensures Exact(Update(l, spec, known)) <==> IntroducesOnlyUnused(l, spec)
  {
    hide Total;
    var l' := Update(l, spec, known);
    if IntroducesOnlyUnused(l, spec) {
      forall q | q in l'.locals ensures ExactLocal(l', q) {
        UpdateKeepsLocal(l, spec, known, q);
      }
    }
    if Exact(l') {
      forall p | p in spec.quotas && p !in l.spec.quotas ensures Total(l.workloads, p) == 0 {
        assert l'.usage[p] == 0;
      }
    }
  }

  lemma UpdateKeepsLocal(l: Ledger, spec: QueueSpec, known: set<string>, q: Name)
    requires Exact(l) && IntroducesOnlyUnused(l, spec) && q in l.locals
    ensures ExactLocal(Update(l, spec, known), q)
  {
    assert ExactLocal(l, q);
    forall p | p in spec.quotas && p !in l.spec.quotas ensures Total(SubmittedTo(l.workloads, q), p) == 0 {
      TotalOfSubmitted(l.workloads, q, p);
    }
    CountRefit(SubmittedTo(l.workloads, q), l.usage.Keys, spec.quotas.Keys);
    assert Update(l, spec, known).usage.Keys == spec.quotas.Keys;
  }

  lemma CountRefit(ws: map<Name, Info>, pairs: set<Pair>, pairs': set<Pair>)
    requires forall p :: p in pairs' && p !in pairs ==> Total(ws, p) == 0
    ensures CountOf(ws, pairs') == LocalUsage(|ws|, Refit(CountOf(ws, pairs).usage, pairs'))
  {
    IsRefit(CountOf(ws, pairs).usage, CountOf(ws, pairs').usage);
  }

  lemma IsRefit(u: Quantities, u': Quantities)
    requires forall p :: p in u' ==> u'[p] == At(u, p)
    ensures u' == Refit(u, u'.Keys)
  {
  }

  lemma CountNone(pairs: set<Pair>)
    ensures CountOf(map[], pairs) == LocalUsage(0, Refit(map[], pairs))
  {
    var none: map<Name, Info> := map[];
    forall p ensures Total(none, p) == 0 {
      assert Charges(none, p) == map[];
    }
  }

  lemma NewLedgerExact(spec: QueueSpec, known: set<string>)
    ensures Exact(NewLedger(spec, known))
  {
    CountNone(spec.quotas.Keys);
    forall p | p in spec.quotas ensures Total(map[], p) == 0 {
      assert CountOf(map[], spec.quotas.Keys).usage[p] == 0;
    }
  }

  // ---------- the loops over pod sets ----------

  /** Adds m times the workload's charge to every listed pair, pod set by pod set and resource by resource. */
  method UpdateUsage(wi: Info, usage: Quantities, m: Sign) returns (r: Quantities)
    ensures r == Shifted(usage, wi, m)
  {
    r := usage;
    for i := 0 to |wi.totalRequests|
      invariant r.Keys == usage.Keys
      invariant forall p :: p in r ==> r[p] == usage[p] + Signed(m, ChargeOf(wi.totalRequests[..i], p))
    {
      var ps := wi.totalRequests[i];
      assert wi.totalRequests[..i + 1][..i] == wi.totalRequests[..i];
      r := UpdatePodSetUsage(ps, r, m);
    }
    assert wi.totalRequests[..|wi.totalRequests|] == wi.totalRequests;
  }

  method UpdatePodSetUsage(ps: PodSetResources, usage: Quantities, m: Sign) returns (r: Quantities)
    ensures r == map p | p in usage :: usage[p] + Signed(m, PodCharge(ps, p))
  {
    r := usage;
    var todo := ps.flavors.Keys;
    while todo != {}
      invariant todo <= ps.flavors.Keys
      invariant r.Keys == usage.Keys
      invariant forall p :: p in r ==> r[p] == usage[p] + if p.resource in todo then 0 else Signed(m, PodCharge(ps, p))
      decreases todo
    {
      var res :| res in todo;
      var p := Pair(ps.flavors[res], res);
      if res in ps.requests && p in r {
        r := r[p := r[p] + Signed(m, ps.requests[res])];
      }
      todo := todo - {res};
    }
  }

  // ---------- the ClusterQueue object ----------

  class ClusterQueue {
    var spec: QueueSpec
    var status: Status
    var usage: Quantities
    var workloads: map<Name, Info>
    var locals: map<Name, LocalUsage>

    function View(): Ledger reads this { Ledger(spec, status, usage, workloads, locals) }

    constructor (spec: QueueSpec, known: set<string>)
      ensures View() == NewLedger(spec, known)
    {
      var l := NewLedger(spec, known);
      this.spec, status, usage, workloads, locals := l.spec, l.status, l.usage, l.workloads, l.locals;
    }

    method UpdateWorkloadUsage(wi: Info, m: Sign)
      modifies this
      ensures View() == Charged(old(View()), wi, m)
    {
      usage := UpdateUsage(wi, usage, m);
      var q := wi.obj.QueueKey();
      if q in locals {
        var u := UpdateUsage(wi, locals[q].usage, m);
        locals := locals[q := LocalUsage(locals[q].admitted + m, u)];
      }
    }

    method Add(w: Workload) returns (ok: bool)
      modifies this
      ensures View() == AddWorkload(old(View()), w)
      ensures ok == (w.key !in old(workloads))
    {
      if w.key in workloads {
        return false;
      }
      var wi := NewInfo(w);
      workloads := workloads[w.key := wi];
      UpdateWorkloadUsage(wi, 1);
      return true;
    }

    method Delete(k: Name)
      modifies this
      ensures View() == DeleteWorkload(old(View()), k)
    {
      if k in workloads {
        UpdateWorkloadUsage(workloads[k], -1);
        workloads := workloads - {k};
      }
    }

    method AddLocalQueue(q: Name) returns (ok: bool)
      modifies this
      ensures View() == AddLocal(old(View()), q)
      ensures ok == (q !in old(locals))
    {
      if q in locals {
        return false;
      }
      var local := CountAdmitted(q);
      locals := locals[q := local];
      return true;
    }

    /** Counts the workloads that were admitted before the LocalQueue's add event arrived. */
    method CountAdmitted(q: Name) returns (local: LocalUsage)
      ensures local == Counted(View(), q)
    {
      local := LocalUsage(0, Refit(map[], usage.Keys));
      var todo := workloads.Keys;
      ghost var seen: map<Name, Info> := map[];
      CountNone(usage.Keys);
      while todo != {}
        invariant todo <= workloads.Keys
        invariant seen == SubmittedTo(workloads - todo, q)
        invariant local == CountOf(seen, usage.Keys)
        decreases todo
      {
        var k :| k in todo;
        var wi := workloads[k];
        SubmittedPut(workloads - todo, k, wi, q);
        assert (workloads - todo)[k := wi] == workloads - (todo - {k});
        if wi.obj.QueueKey() == q {
          CountPut(seen, k, wi, usage.Keys);
          var u := UpdateUsage(wi, local.usage, 1);
          local := LocalUsage(local.admitted + 1, u);
          seen := seen[k := wi];
        }
        todo := todo - {k};
      }
      assert workloads - {} == workloads;
    }

    method DeleteLocalQueue(q: Name)
      modifies this
      ensures View() == DeleteLocal(old(View()), q)
    {
      locals := locals - {q};
    }

    /** ClusterQueue.update followed by resetFlavorsAndResources on each LocalQueue. */
    method UpdateSpec(in_: QueueSpec, known: set<string>)
      modifies this
      ensures View() == Update(old(View()), in_, known)
    {
      spec := in_;
      usage := Refit(usage, in_.quotas.Keys);
      status := StatusWith(status, spec, known);
      assert usage.Keys == in_.quotas.Keys;
      locals := map q | q in locals :: locals[q].(usage := Refit(locals[q].usage, usage.Keys));
    }
  }
}
