/** Workloads, quotas and cluster-queue specifications (pkg/workload, pkg/cache, apis). */
module Model {
  import opened Sums

  datatype Option<+T> = None | Some(value: T)

  /** The "namespace/name" keys of workloads and local queues. */
  datatype Name = Name(namespace: string, name: string)

  /** FlavorResourceQuantities: the two-level map, flattened. */
  datatype Pair = Pair(flavor: string, resource: string)
  type Quantities = map<Pair, int>

  type Requests = map<string, nat>

  /** A resource.Quantity, in thousandths of a unit. */
  type Milli = nat

  // ---------- API objects ----------

  datatype PodSet = PodSet(name: string, count: nat, perPod: map<string, Milli>)

  datatype PodSetUsage = PodSetUsage(name: string, flavors: map<string, string>, resourceUsage: map<string, Milli>)

  datatype Admission = Admission(clusterQueue: string, podSets: seq<PodSetUsage>, time: int)

  datatype Eviction = Eviction(active: bool, podsReadyTimeout: bool, time: int)

  datatype Spec = Spec(queueName: string, priority: int, podSets: seq<PodSet>)

  datatype Workload = Workload(key: Name, spec: Spec, created: int,
                               evicted: Option<Eviction>, admission: Option<Admission>)
  {
    predicate IsAdmitted() { admission.Some? }

    /** The key of the LocalQueue this workload is submitted to. */
    function QueueKey(): Name { Name(key.namespace, spec.queueName) }

    /** Creation time, or the time of an eviction caused by a PodsReady timeout. */
    function QueueOrderTimestamp(): int {
      if evicted.Some? && evicted.value.active && evicted.value.podsReadyTimeout then evicted.value.time else created
    }
  }

  // ---------- workload.Info ----------

  datatype PodSetResources = PodSetResources(name: string, requests: Requests, flavors: map<string, string>)

  datatype Info = Info(obj: Workload, totalRequests: seq<PodSetResources>, clusterQueue: string)

  const CPU := "cpu"
  const PODS := "pods"

  /** Milli-units for CPU, whole units rounded up for everything else. */
  function ResourceValue(name: string, q: Milli): nat {
    if name == CPU then q else (q + 999) / 1000
  }

  function ResourceQuantity(name: string, v: nat): Milli {
    if name == CPU then v else v * 1000
  }

  lemma QuantityRoundTrip(name: string, v: nat)
    ensures ResourceValue(name, ResourceQuantity(name, v)) == v
  {
    assert (v * 1000 + 999) / 1000 == v;
  }

  function NewRequests(rl: map<string, Milli>): Requests {
    map r | r in rl :: ResourceValue(r, rl[r])
  }

  function ToResourceList(reqs: Requests): map<string, Milli> {
    map r | r in reqs :: ResourceQuantity(r, reqs[r])
  }

  lemma RequestsRoundTrip(reqs: Requests)
    ensures NewRequests(ToResourceList(reqs)) == reqs
  {
    forall r | r in reqs ensures NewRequests(ToResourceList(reqs))[r] == reqs[r] {
      QuantityRoundTrip(r, reqs[r]);
    }
  }

  function Scaled(reqs: Requests, count: nat): Requests {
    map r | r in reqs :: reqs[r] * count
  }

  function NewInfo(w: Workload): Info {
    if w.admission.Some? then
      var a := w.admission.value;
      Info(w, seq(|a.podSets|, i requires 0 <= i < |a.podSets| =>
                    PodSetResources(a.podSets[i].name, NewRequests(a.podSets[i].resourceUsage), a.podSets[i].flavors)),
           a.clusterQueue)
    else
      Info(w, seq(|w.spec.podSets|, i requires 0 <= i < |w.spec.podSets| =>
                    var ps := w.spec.podSets[i];
                    PodSetResources(ps.name, Scaled(NewRequests(ps.perPod), ps.count), map[])),
           "")
  }

  // ---------- what a workload charges ----------

  function PodCharge(ps: PodSetResources, p: Pair): nat {
    if p.resource in ps.flavors && ps.flavors[p.resource] == p.flavor && p.resource in ps.requests
    then ps.requests[p.resource] else 0
  }

  function ChargeOf(pss: seq<PodSetResources>, p: Pair): nat {
    if pss == [] then 0 else ChargeOf(pss[..|pss| - 1], p) + PodCharge(pss[|pss| - 1], p)
  }

  /** The amount of pair p that an admitted workload holds. */
  function Charge(wi: Info, p: Pair): nat { ChargeOf(wi.totalRequests, p) }

  predicate UsesAny(wi: Info, pairs: set<Pair>) {
    exists i, r | 0 <= i < |wi.totalRequests| && r in wi.totalRequests[i].flavors ::
      Pair(wi.totalRequests[i].flavors[r], r) in pairs
  }

  // ---------- quotas ----------

  datatype ResourceQuota = ResourceQuota(nominal: nat, borrowingLimit: Option<nat>)

  datatype ResourceGroup = ResourceGroup(covered: set<string>, flavors: seq<string>)

  datatype Policy = Never | LowerPriority | LowerOrNewerEqualPriority | Any

  /** The quotas of a group's flavors sit in one flat map; a valid spec lists each flavor in one group only. */
  datatype QueueSpec = QueueSpec(cohort: Option<string>, groups: seq<ResourceGroup>, quotas: map<Pair, ResourceQuota>,
                                 withinQueue: Policy, reclaim: Policy)
  {
    /** Only listed pairs are ever looked up by the code; the zero quota makes the function total. */
    function Quota(p: Pair): ResourceQuota { if p in quotas then quotas[p] else ResourceQuota(0, None) }

    function Nominal(p: Pair): nat { Quota(p).nominal }

    /** What the webhook's validation establishes, plus "a borrowing limit needs a cohort". */
    ghost predicate Valid() {
      && (forall p :: p in quotas <==> exists i :: 0 <= i < |groups| && GroupLists(groups[i], p))
      && (forall i, j :: 0 <= i < j < |groups| ==> groups[i].covered !! groups[j].covered)
      && (forall i, j :: 0 <= i < j < |groups| ==> forall f :: !(f in groups[i].flavors && f in groups[j].flavors))
      && (cohort.None? ==> forall p :: p in quotas ==> quotas[p].borrowingLimit.None?)
    }
  }

  predicate GroupLists(g: ResourceGroup, p: Pair) {
    p.flavor in g.flavors && p.resource in g.covered
  }
}
