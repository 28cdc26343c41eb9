/**
 * Whether a queue borrows, read flavor by flavor (cqIsBorrowing): the code dereferences the quota of every needed
 * resource under every listed flavor, and panics where there is none.
 */
module BorrowCheck {
  import opened Sums
  import opened Model
  import opened Snapshots
  import opened Preemption

  datatype Check = Within | Exceeds | Missing

  /** The flavors of a queue in the order in which they are visited. */
  function FlavorsOf(groups: seq<ResourceGroup>): seq<string> {
    if groups == [] then [] else groups[0].flavors + FlavorsOf(groups[1..])
  }

  /** One flavor; `order` is the order in which the needed pairs are met. */
  function CheckFlavor(q: SnapQueue, f: string, order: seq<Pair>): Check {
    if order == [] then Within
    else if order[0].flavor != f then CheckFlavor(q, f, order[1..])
    else if order[0] !in q.spec.quotas then Missing
    else if At(q.usage, order[0]) > q.spec.quotas[order[0]].nominal then Exceeds
    else CheckFlavor(q, f, order[1..])
  }

  function CheckFlavors(q: SnapQueue, fs: seq<string>, order: seq<Pair>): Check {
    if fs == [] then Within
    else
      var r := CheckFlavor(q, fs[0], order);
      if r != Within then r else CheckFlavors(q, fs[1..], order)
  }

  function CheckBorrowing(q: SnapQueue, order: seq<Pair>): Check {
    if q.spec.cohort.None? then Within else CheckFlavors(q, FlavorsOf(q.spec.groups), order)
  }

  function PairsIn(order: seq<Pair>): set<Pair> { set p | p in order }

  // ---------- the procedure ----------

  /** Without a panic the answer is the right one; with one, the queue can make the check panic. */
  method CqIsBorrowing(q: SnapQueue, order: seq<Pair>) returns (r: Check)
    ensures r == CheckBorrowing(q, order)
    ensures r == Missing ==> CanMiss(q, PairsIn(order))
    ensures r != Missing && q.spec.Valid() ==> (r == Exceeds <==> IsBorrowing(q, PairsIn(order)))
  {
    hide CheckFlavor, FlavorsOf, CanMiss, IsBorrowing, QueueSpec.Valid, PairsIn;
    r := Within;
    if q.spec.cohort.Some? {
      r := CheckGroups(q, order);
    }
    if r == Missing {
      MissingMeans(q, order);
    } else if q.spec.Valid() {
      AnswerIsRight(q, order);
    }
  }

  method CheckGroups(q: SnapQueue, order: seq<Pair>) returns (r: Check)
    ensures r == CheckFlavors(q, FlavorsOf(q.spec.groups), order)
  {
    hide CheckFlavor, FlavorsOf;
    var groups := q.spec.groups;
    assert groups[0..] == groups;
    for i := 0 to |groups|
      invariant CheckFlavors(q, FlavorsOf(groups), order) == CheckFlavors(q, FlavorsOf(groups[i..]), order)
    {
      var flavors := groups[i].flavors;
      FlavorsFrom(groups, i);
      ghost var rest := FlavorsOf(groups[i + 1..]);
      assert flavors[0..] == flavors;
      for j := 0 to |flavors|
        invariant CheckFlavors(q, FlavorsOf(groups), order) == CheckFlavors(q, flavors[j..] + rest, order)
      {
        assert (flavors[j..] + rest)[0] == flavors[j] && (flavors[j..] + rest)[1..] == flavors[j + 1..] + rest;
        r := FlavorOver(q, flavors[j], order);
        if r != Within {
          return;
        }
      }
      assert flavors[|flavors|..] + rest == rest;
    }
    NoFlavors(groups);
    return Within;
  }

  lemma NoFlavors(groups: seq<ResourceGroup>)
    ensures FlavorsOf(groups[|groups|..]) == []
  {
  }

  lemma FlavorsFrom(groups: seq<ResourceGroup>, i: nat)
    requires i < |groups|
    ensures FlavorsOf(groups[i..]) == groups[i].flavors + FlavorsOf(groups[i + 1..])
  {
    assert groups[i..][1..] == groups[i + 1..];
  }

  method FlavorOver(q: SnapQueue, f: string, order: seq<Pair>) returns (r: Check)
    ensures r == CheckFlavor(q, f, order)
  {
    assert order[0..] == order;
    for k := 0 to |order|
      invariant CheckFlavor(q, f, order) == CheckFlavor(q, f, order[k..])
    {
      assert order[k..][0] == order[k] && order[k..][1..] == order[k + 1..];
      if order[k].flavor == f {
        if order[k] !in q.spec.quotas {
          return Missing;
        }
        if At(q.usage, order[k]) > q.spec.quotas[order[k]].nominal {
          return Exceeds;
        }
      }
    }
    return Within;
  }

  /** Maps are visited in any order. */
  method AnyOrder(needed: set<Pair>) returns (order: seq<Pair>)
    ensures PairsIn(order) == needed
  {
    order := [];
    var todo := needed;
    while todo != {}
      invariant todo <= needed && PairsIn(order) == needed - todo
      decreases todo
    {
      var p :| p in todo;
      assert PairsIn(order + [p]) == PairsIn(order) + {p};
      order, todo := order + [p], todo - {p};
    }
  }

  // ---------- what the answers mean ----------

  /** The queue lists flavor f without one of the needed resources. */
  ghost predicate GapAt(spec: QueueSpec, needed: set<Pair>, f: string) {
    exists p :: p in needed && p.flavor == f && p !in spec.quotas
  }

  /** A needed pair of flavor f is over its nominal quota. */
  ghost predicate OverAt(q: SnapQueue, needed: set<Pair>, f: string) {
    exists p :: p in needed && p.flavor == f && p in q.spec.quotas && At(q.usage, p) > q.spec.Nominal(p)
  }

  lemma {:induction false} CheckFlavorMeans(q: SnapQueue, f: string, order: seq<Pair>)
    ensures CheckFlavor(q, f, order) == Within <==> !GapAt(q.spec, PairsIn(order), f) && !OverAt(q, PairsIn(order), f)
    ensures CheckFlavor(q, f, order) == Missing ==> GapAt(q.spec, PairsIn(order), f)
    ensures CheckFlavor(q, f, order) == Exceeds ==> OverAt(q, PairsIn(order), f)
    decreases |order|
  {
    if order != [] {
      CheckFlavorMeans(q, f, order[1..]);
      assert PairsIn(order) == {order[0]} + PairsIn(order[1..]);
    }
  }

  /** The answer is that of the first flavor with another answer than "within". */
  lemma {:induction false} CheckFlavorsFirst(q: SnapQueue, fs: seq<string>, order: seq<Pair>) returns (k: nat)
    ensures k <= |fs| && forall j :: 0 <= j < k ==> CheckFlavor(q, fs[j], order) == Within
    ensures CheckFlavors(q, fs, order) == if k < |fs| then CheckFlavor(q, fs[k], order) else Within
    ensures k < |fs| ==> CheckFlavor(q, fs[k], order) != Within
    decreases |fs|
  {
    hide CheckFlavor;
    if fs == [] || CheckFlavor(q, fs[0], order) != Within {
      k := 0;
    } else {
      var k' := CheckFlavorsFirst(q, fs[1..], order);
      k := k' + 1;
      assert forall j :: 1 <= j < |fs| ==> fs[j] == fs[1..][j - 1];
    }
  }

  /** A flavor with a gap is listed, and no flavor listed before it is over nominal on a needed pair. */
  ghost predicate CanMiss(q: SnapQueue, needed: set<Pair>) {
    var fs := FlavorsOf(q.spec.groups);
    q.spec.cohort.Some? && exists k :: 0 <= k < |fs| && GapBefore(q, needed, fs, k)
  }

  ghost predicate GapBefore(q: SnapQueue, needed: set<Pair>, fs: seq<string>, k: nat)
    requires k < |fs|
  {
    GapAt(q.spec, needed, fs[k]) && forall j :: 0 <= j < k ==> !OverAt(q, needed, fs[j])
  }

  lemma MissingMeans(q: SnapQueue, order: seq<Pair>)
    requires CheckBorrowing(q, order) == Missing
    ensures CanMiss(q, PairsIn(order))
  {
    hide CheckFlavor, GapAt, OverAt, PairsIn;
    var fs := FlavorsOf(q.spec.groups);
    var k := CheckFlavorsFirst(q, fs, order);
    forall j | 0 <= j <= k ensures CheckFlavor(q, fs[j], order) == Within ==> !OverAt(q, PairsIn(order), fs[j]) {
      CheckFlavorMeans(q, fs[j], order);
    }
    CheckFlavorMeans(q, fs[k], order);
    assert GapBefore(q, PairsIn(order), fs, k);
  }

  /** The first gap comes first in some order. */
  lemma MissingHappens(q: SnapQueue, needed: set<Pair>) returns (order: seq<Pair>)
    requires CanMiss(q, needed)
    ensures PairsIn(order) == needed && CheckBorrowing(q, order) == Missing
  {
    hide CheckFlavor, OverAt;
    var fs := FlavorsOf(q.spec.groups);
    var k0 :| 0 <= k0 < |fs| && GapBefore(q, needed, fs, k0);
    var k := FirstGap(q.spec, needed, fs, k0);
    var p :| p in needed && p.flavor == fs[k] && p !in q.spec.quotas;
    var rest := SomeOrder(needed - {p});
    order := [p] + rest;
    assert PairsIn(order) == {p} + PairsIn(rest) == needed;
    var first := CheckFlavorsFirst(q, fs, order);
    forall j | 0 <= j < k ensures CheckFlavor(q, fs[j], order) == Within { CheckFlavorMeans(q, fs[j], order); }
    assert CheckFlavor(q, fs[k], order) == Missing by { FirstMissing(q, fs[k], p, rest); }
    assert first == k;
  }

  lemma FirstMissing(q: SnapQueue, f: string, p: Pair, rest: seq<Pair>)
    requires p.flavor == f && p !in q.spec.quotas
    ensures CheckFlavor(q, f, [p] + rest) == Missing
  {
  }

  lemma {:induction false} FirstGap(spec: QueueSpec, needed: set<Pair>, fs: seq<string>, k0: nat) returns (k: nat)
    requires k0 < |fs| && GapAt(spec, needed, fs[k0])
    ensures k <= k0 && GapAt(spec, needed, fs[k]) && forall j :: 0 <= j < k ==> !GapAt(spec, needed, fs[j])
    decreases k0
  {
    hide GapAt;
    if j :| 0 <= j < k0 && GapAt(spec, needed, fs[j]) { k := FirstGap(spec, needed, fs, j); } else { k := k0; }
  }

  lemma {:induction false} SomeOrder(needed: set<Pair>) returns (order: seq<Pair>)
    ensures PairsIn(order) == needed
    decreases needed
  {
    if needed == {} {
      order := [];
    } else {
      var p :| p in needed;
      var rest := SomeOrder(needed - {p});
      order := [p] + rest;
      assert PairsIn(order) == {p} + PairsIn(rest);
    }
  }

  /**
   * The check can meet a missing quota, in some order of the needed pairs, if and only if the queue has a cohort, lists
   * a needed flavor without a needed resource, and lists before it no flavor that is over nominal on a needed pair.
   */
  lemma MissesIff(q: SnapQueue, needed: set<Pair>)
    ensures (exists order :: PairsIn(order) == needed && CheckBorrowing(q, order) == Missing) <==> CanMiss(q, needed)
  {
    hide CheckBorrowing, CanMiss, PairsIn;
    if CanMiss(q, needed) { var order := MissingHappens(q, needed); }
    if order :| PairsIn(order) == needed && CheckBorrowing(q, order) == Missing { MissingMeans(q, order); }
  }

  lemma {:induction false} FlavorsOfListed(groups: seq<ResourceGroup>, f: string)
    ensures f in FlavorsOf(groups) <==> exists i :: 0 <= i < |groups| && f in groups[i].flavors
    decreases |groups|
  {
    if groups != [] {
      FlavorsOfListed(groups[1..], f);
      if f in FlavorsOf(groups[1..]) {
        var i :| 0 <= i < |groups[1..]| && f in groups[1..][i].flavors;
        assert f in groups[i + 1].flavors;
      }
      if i :| 1 <= i < |groups| && f in groups[i].flavors { assert f in groups[1..][i - 1].flavors; }
    }
  }

  /** Some listed flavor lacks a needed resource. */
  ghost predicate HasGap(spec: QueueSpec, needed: set<Pair>) {
    spec.cohort.Some? && exists p :: p in needed && FlavorListed(spec, p.flavor) && p !in spec.quotas
  }

  lemma CanMissHasGap(q: SnapQueue, needed: set<Pair>)
    requires CanMiss(q, needed)
    ensures HasGap(q.spec, needed)
  {
    hide OverAt;
    var fs := FlavorsOf(q.spec.groups);
    var k :| 0 <= k < |fs| && GapBefore(q, needed, fs, k);
    FlavorsOfListed(q.spec.groups, fs[k]);
  }

  /** An answer other than "missing" is the right one, in every order. */
  lemma AnswerIsRight(q: SnapQueue, order: seq<Pair>)
    requires q.spec.Valid() && CheckBorrowing(q, order) != Missing
    ensures CheckBorrowing(q, order) == Exceeds <==> IsBorrowing(q, PairsIn(order))
  {
    hide CheckFlavor, PairsIn;
    if q.spec.cohort.Some? {
      var fs := FlavorsOf(q.spec.groups);
      var k := CheckFlavorsFirst(q, fs, order);
      if k < |fs| {
        CheckFlavorMeans(q, fs[k], order);
      } else {
        forall p | p in PairsIn(order) && p in q.spec.quotas ensures At(q.usage, p) <= q.spec.Nominal(p) {
          ListedFlavor(q.spec, p);
          var j :| 0 <= j < |fs| && fs[j] == p.flavor;
          CheckFlavorMeans(q, fs[j], order);
        }
      }
    }
  }

  lemma ListedFlavor(spec: QueueSpec, p: Pair)
    requires spec.Valid() && p in spec.quotas
    ensures p.flavor in FlavorsOf(spec.groups)
  {
    var i :| 0 <= i < |spec.groups| && GroupLists(spec.groups[i], p);
    FlavorsOfListed(spec.groups, p.flavor);
  }
}
