/** The capacity preflight: additive demand over workloads, and what its verdict says of joint rollouts. */
module Preflight {
  import opened Text
  import opened Rollout

  datatype Dimension = Cpu | Memory | Storage | PodCount

  /** Requests of one pod. */
  datatype Requests = Requests(cpu: nat, memory: nat, storage: nat) {
    function Of(d: Dimension): nat {
      match d
      case Cpu => cpu
      case Memory => memory
      case Storage => storage
      case PodCount => 1
    }
  }

  datatype Workload = Workload(name: string, replicas: nat, requests: Requests, maxSurge: nat)
  datatype CurrentWorkload = CurrentWorkload(replicas: nat, requests: Requests)

  /** The deployments the target slot runs now. */
  type Slot = map<string, CurrentWorkload>

  function HeldBy(c: CurrentWorkload, d: Dimension): nat {
    c.replicas * c.requests.Of(d)
  }

  /** What the cluster must find for one workload beyond what it holds. */
  function Additional(w: Workload, slot: Slot, d: Dimension): nat {
    if w.name !in slot then w.requests.Of(d) * w.replicas
    else
      var current := slot[w.name];
      Extra(Plan(w.replicas, w.maxSurge, current.replicas), w.requests.Of(d), current.requests.Of(d))
  }

  function Total(ws: seq<Workload>, slot: Slot, d: Dimension): nat {
    if ws == [] then 0 else Total(ws[..|ws| - 1], slot, d) + Additional(ws[|ws| - 1], slot, d)
  }

  method Summarise(ws: seq<Workload>, slot: Slot) returns (cpu: nat, memory: nat, storage: nat, pods: nat)
    ensures cpu == Total(ws, slot, Cpu) && memory == Total(ws, slot, Memory)
    ensures storage == Total(ws, slot, Storage) && pods == Total(ws, slot, PodCount)
  {
    cpu, memory, storage, pods := 0, 0, 0, 0;
    for i := 0 to |ws|
      invariant cpu == Total(ws[..i], slot, Cpu) && memory == Total(ws[..i], slot, Memory)
      invariant storage == Total(ws[..i], slot, Storage) && pods == Total(ws[..i], slot, PodCount)
    {
      assert ws[..i + 1][..i] == ws[..i];
      cpu := cpu + Additional(ws[i], slot, Cpu);
      memory := memory + Additional(ws[i], slot, Memory);
      storage := storage + Additional(ws[i], slot, Storage);
      pods := pods + Additional(ws[i], slot, PodCount);
    }
    assert ws[..|ws|] == ws;
  }

  // ----- all rollouts together -----

  function PlanOf(w: Workload, slot: Slot): Plan {
    Plan(w.replicas, w.maxSurge, if w.name in slot then slot[w.name].replicas else 0)
  }

  function OldCost(w: Workload, slot: Slot, d: Dimension): nat {
    if w.name in slot then slot[w.name].requests.Of(d) else 0
  }

  function Start(ws: seq<Workload>, slot: Slot): seq<Pods> {
    seq(|ws|, i requires 0 <= i < |ws| => PlanOf(ws[i], slot).Start())
  }

  /** One of the deployments takes one step. */
  ghost predicate JointStep(ws: seq<Workload>, slot: Slot, s: seq<Pods>, t: seq<Pods>) {
    && |s| == |ws| == |t|
    && exists i | 0 <= i < |ws| :: PlanOf(ws[i], slot).Step(s[i], t[i]) && t == s[i := t[i]]
  }

  ghost predicate JointlyReachedIn(ws: seq<Workload>, slot: Slot, n: nat, s: seq<Pods>) {
    if n == 0 then s == Start(ws, slot)
    else exists r :: JointlyReachedIn(ws, slot, n - 1, r) && JointStep(ws, slot, r, s)
  }

  /** Some interleaving of the rollouts passes through `s`. */
  ghost predicate JointlyReachable(ws: seq<Workload>, slot: Slot, s: seq<Pods>) {
    exists n: nat :: JointlyReachedIn(ws, slot, n, s)
  }

  ghost predicate EachReachable(ws: seq<Workload>, slot: Slot, s: seq<Pods>) {
    |s| == |ws| && forall i | 0 <= i < |ws| :: PlanOf(ws[i], slot).Reachable(s[i])
  }

  lemma StepReachable(plan: Plan, p: Pods, q: Pods)
    requires plan.Reachable(p) && plan.Step(p, q)
    ensures plan.Reachable(q)
  {
    var n: nat :| plan.ReachedIn(n, p);
    assert plan.ReachedIn(n + 1, q);
  }

  lemma StartIsReachable(ws: seq<Workload>, slot: Slot)
    ensures EachReachable(ws, slot, Start(ws, slot))
  {
    forall i | 0 <= i < |ws|
      ensures PlanOf(ws[i], slot).Reachable(Start(ws, slot)[i])
    {
      assert PlanOf(ws[i], slot).ReachedIn(0, Start(ws, slot)[i]);
    }
  }

  lemma {:induction false} JointMeansEach(ws: seq<Workload>, slot: Slot, n: nat, s: seq<Pods>)
    requires JointlyReachedIn(ws, slot, n, s)
    ensures EachReachable(ws, slot, s)
  {
    if n == 0 {
      StartIsReachable(ws, slot);
    } else {
      var r :| JointlyReachedIn(ws, slot, n - 1, r) && JointStep(ws, slot, r, s);
      JointMeansEach(ws, slot, n - 1, r);
      var i :| 0 <= i < |ws| && PlanOf(ws[i], slot).Step(r[i], s[i]) && s == r[i := s[i]];
      StepReachable(PlanOf(ws[i], slot), r[i], s[i]);
    }
  }

  /** One rollout may run while the others stand still. */
  lemma {:induction false} RunOne(ws: seq<Workload>, slot: Slot, s: seq<Pods>, i: nat, n: nat, p: Pods)
    requires JointlyReachable(ws, slot, s) && |s| == |ws| && i < |ws|
    requires s[i] == PlanOf(ws[i], slot).Start() && PlanOf(ws[i], slot).ReachedIn(n, p)
    ensures JointlyReachable(ws, slot, s[i := p])
    decreases n
  {
    if n == 0 {
      assert s[i := p] == s;
    } else {
      var q :| PlanOf(ws[i], slot).ReachedIn(n - 1, q) && PlanOf(ws[i], slot).Step(q, p);
      RunOne(ws, slot, s, i, n - 1, q);
      var r := s[i := q];
      var m: nat :| JointlyReachedIn(ws, slot, m, r);
      assert s[i := p] == r[i := p];
      assert JointStep(ws, slot, r, s[i := p]) by {
        assert s[i := p][i] == p;
      }
      assert JointlyReachedIn(ws, slot, m + 1, s[i := p]);
    }
  }

  /** The first `k` rollouts where `s` has them, the others at their start. */
  ghost function RunUpTo(ws: seq<Workload>, slot: Slot, s: seq<Pods>, k: nat): (r: seq<Pods>)
    requires |s| == |ws| && k <= |ws|
    ensures |r| == |ws|
  {
    s[..k] + Start(ws, slot)[k..]
  }

  lemma OneFurther(ws: seq<Workload>, slot: Slot, s: seq<Pods>, k: nat)
    requires |s| == |ws| && k < |ws|
    ensures RunUpTo(ws, slot, s, k)[k] == PlanOf(ws[k], slot).Start()
    ensures RunUpTo(ws, slot, s, k)[k := s[k]] == RunUpTo(ws, slot, s, k + 1)
  {
  }

  lemma {:induction false} RunInTurn(ws: seq<Workload>, slot: Slot, s: seq<Pods>, k: nat)
    requires EachReachable(ws, slot, s) && k <= |ws|
    ensures JointlyReachable(ws, slot, RunUpTo(ws, slot, s, k))
  {
    if k == 0 {
      assert RunUpTo(ws, slot, s, 0) == Start(ws, slot);
      assert JointlyReachedIn(ws, slot, 0, Start(ws, slot));
    } else {
      RunInTurn(ws, slot, s, k - 1);
      var n: nat :| PlanOf(ws[k - 1], slot).ReachedIn(n, s[k - 1]);
      OneFurther(ws, slot, s, k - 1);
      RunOne(ws, slot, RunUpTo(ws, slot, s, k - 1), k - 1, n, s[k - 1]);
    }
  }

  /** Together the rollouts can be at just those instants that each of them can be at alone. */
  lemma JointlyReachableExact(ws: seq<Workload>, slot: Slot, s: seq<Pods>)
    ensures JointlyReachable(ws, slot, s) <==> EachReachable(ws, slot, s)
  {
    if JointlyReachable(ws, slot, s) {
      var n: nat :| JointlyReachedIn(ws, slot, n, s);
      JointMeansEach(ws, slot, n, s);
    }
    if EachReachable(ws, slot, s) {
      RunInTurn(ws, slot, s, |ws|);
      assert RunUpTo(ws, slot, s, |ws|) == s;
    }
  }

  // ----- what an instant costs -----

  function CostOf(w: Workload, slot: Slot, d: Dimension, p: Pods): nat {
    p.Cost(w.requests.Of(d), OldCost(w, slot, d))
  }

  function Usage(ws: seq<Workload>, slot: Slot, d: Dimension, s: seq<Pods>): nat
    requires |s| == |ws|
  {
    if ws == [] then 0
    else Usage(ws[..|ws| - 1], slot, d, s[..|ws| - 1]) + CostOf(ws[|ws| - 1], slot, d, s[|ws| - 1])
  }

  function HeldTotal(ws: seq<Workload>, slot: Slot, d: Dimension): nat {
    if ws == [] then 0
    else HeldTotal(ws[..|ws| - 1], slot, d) + Held(PlanOf(ws[|ws| - 1], slot), OldCost(ws[|ws| - 1], slot, d))
  }

  lemma AdditionalIsExtra(w: Workload, slot: Slot, d: Dimension)
    ensures Additional(w, slot, d) == Extra(PlanOf(w, slot), w.requests.Of(d), OldCost(w, slot, d))
  {
    if w.name !in slot {
      MissingSlotIsEmptySlot(w.replicas, w.maxSurge, w.requests.Of(d), 0);
    }
  }

  function Worst(w: Workload, slot: Slot, d: Dimension): Pods {
    WorstInstant(PlanOf(w, slot), w.requests.Of(d), OldCost(w, slot, d))
  }

  lemma WorstOfOne(w: Workload, slot: Slot, d: Dimension, p: Pods)
    ensures PlanOf(w, slot).Reachable(Worst(w, slot, d))
    ensures CostOf(w, slot, d, Worst(w, slot, d)) == Held(PlanOf(w, slot), OldCost(w, slot, d)) + Additional(w, slot, d)
    ensures PlanOf(w, slot).Reachable(p) ==> CostOf(w, slot, d, p) <= CostOf(w, slot, d, Worst(w, slot, d))
  {
    AdditionalIsExtra(w, slot, d);
    ReachableCost(PlanOf(w, slot), w.requests.Of(d), OldCost(w, slot, d), p);
    ExtraExact(PlanOf(w, slot), w.requests.Of(d), OldCost(w, slot, d));
  }

  function WorstTogether(ws: seq<Workload>, slot: Slot, d: Dimension): (s: seq<Pods>)
    ensures |s| == |ws|
  {
    seq(|ws|, i requires 0 <= i < |ws| => Worst(ws[i], slot, d))
  }

  lemma {:induction false} UsageBound(ws: seq<Workload>, slot: Slot, d: Dimension, s: seq<Pods>)
    requires |s| == |ws|
    ensures EachReachable(ws, slot, s) ==> Usage(ws, slot, d, s) <= HeldTotal(ws, slot, d) + Total(ws, slot, d)
    ensures Usage(ws, slot, d, WorstTogether(ws, slot, d)) == HeldTotal(ws, slot, d) + Total(ws, slot, d)
    decreases |ws|
  {
    if ws != [] {
      var k := |ws| - 1;
      UsageBound(ws[..k], slot, d, s[..k]);
      WorstOfOne(ws[k], slot, d, s[k]);
      assert WorstTogether(ws, slot, d)[..k] == WorstTogether(ws[..k], slot, d);
    }
  }

  // ----- the slot's share of what is committed -----

  ghost predicate DistinctNames(ws: seq<Workload>) {
    forall i, j | 0 <= i < j < |ws| :: ws[i].name != ws[j].name
  }

  function NamesOf(ws: seq<Workload>): set<string> {
    set w <- ws :: w.name
  }

  /** What the deployments with these names hold in the slot now. */
  ghost function Share(slot: Slot, names: set<string>, d: Dimension): nat
    decreases names
  {
    if names == {} then 0
    else
      var n :| n in names;
      (if n in slot then HeldBy(slot[n], d) else 0) + Share(slot, names - {n}, d)
  }

  lemma {:induction false} ShareWithout(slot: Slot, names: set<string>, d: Dimension, n: string)
    requires n in names
    ensures Share(slot, names, d) == (if n in slot then HeldBy(slot[n], d) else 0) + Share(slot, names - {n}, d)
    decreases names
  {
    var m :| m in names && Share(slot, names, d) == (if m in slot then HeldBy(slot[m], d) else 0) + Share(slot, names - {m}, d);
    if m != n {
      ShareWithout(slot, names - {m}, d, n);
      ShareWithout(slot, names - {n}, d, m);
      assert names - {m} - {n} == names - {n} - {m};
    }
  }

  lemma {:induction false} HeldTotalIsShare(ws: seq<Workload>, slot: Slot, d: Dimension)
    requires DistinctNames(ws)
    ensures HeldTotal(ws, slot, d) == Share(slot, NamesOf(ws), d)
    decreases |ws|
  {
    if ws != [] {
      var k := |ws| - 1;
      HeldTotalIsShare(ws[..k], slot, d);
      assert ws[k].name in NamesOf(ws);
      ShareWithout(slot, NamesOf(ws), d, ws[k].name);
      assert NamesOf(ws) - {ws[k].name} == NamesOf(ws[..k]) by {
        assert forall w :: w in ws <==> w in ws[..k] || w == ws[k];
      }
    }
  }

  /** Committed in the cluster while the rollouts are at `s`: what was, without the slot's share, plus the rollouts. */
  ghost function CommittedAt(ws: seq<Workload>, slot: Slot, d: Dimension, used: nat, s: seq<Pods>): int
    requires |s| == |ws|
  {
    used - Share(slot, NamesOf(ws), d) + Usage(ws, slot, d, s)
  }

  /**
   The comparison is exact: the demand fits what is free just when, at every instant that the
   interleaved rollouts of all workloads can reach, no more than the limit is committed.
   */
  lemma FitExact(ws: seq<Workload>, slot: Slot, d: Dimension, hard: nat, used: nat)
    requires DistinctNames(ws)
    ensures Total(ws, slot, d) <= hard - used
      <==> forall s: seq<Pods> | JointlyReachable(ws, slot, s) && |s| == |ws| :: CommittedAt(ws, slot, d, used, s) <= hard
  {
    HeldTotalIsShare(ws, slot, d);
    forall s: seq<Pods> | JointlyReachable(ws, slot, s) && |s| == |ws|
      ensures CommittedAt(ws, slot, d, used, s) <= used + Total(ws, slot, d)
    {
      JointlyReachableExact(ws, slot, s);
      UsageBound(ws, slot, d, s);
    }
    var worst := WorstTogether(ws, slot, d);
    UsageBound(ws, slot, d, worst);
    forall i | 0 <= i < |ws|
      ensures PlanOf(ws[i], slot).Reachable(worst[i])
    {
      WorstOfOne(ws[i], slot, d, worst[i]);
    }
    JointlyReachableExact(ws, slot, worst);
    assert CommittedAt(ws, slot, d, used, worst) == used + Total(ws, slot, d);
  }

  // ----- the demand of the four dimensions, written out -----

  function SumOver<T>(items: seq<T>, f: T -> nat): nat {
    if items == [] then 0 else SumOver(items[..|items| - 1], f) + f(items[|items| - 1])
  }

  /** A first deploy needs the requests of every replica, and one pod slot for each. */
  lemma FirstDeployMeans(ws: seq<Workload>)
    ensures Total(ws, map[], Cpu) == SumOver(ws, (w: Workload) => w.replicas * w.requests.cpu)
    ensures Total(ws, map[], Memory) == SumOver(ws, (w: Workload) => w.replicas * w.requests.memory)
    ensures Total(ws, map[], Storage) == SumOver(ws, (w: Workload) => w.replicas * w.requests.storage)
    ensures Total(ws, map[], PodCount) == SumOver(ws, (w: Workload) => w.replicas)
  {
    FirstDeployNeeds(ws, Cpu, (w: Workload) => w.replicas * w.requests.cpu);
    FirstDeployNeeds(ws, Memory, (w: Workload) => w.replicas * w.requests.memory);
    FirstDeployNeeds(ws, Storage, (w: Workload) => w.replicas * w.requests.storage);
    FirstDeployNeeds(ws, PodCount, (w: Workload) => w.replicas);
  }

  lemma {:induction false} FirstDeployNeeds(ws: seq<Workload>, d: Dimension, need: Workload -> nat)
    requires forall w :: need(w) == w.replicas * w.requests.Of(d)
    ensures Total(ws, map[], d) == SumOver(ws, need)
    decreases |ws|
  {
    if ws != [] {
      FirstDeployNeeds(ws[..|ws| - 1], d, need);
    }
  }

  /**
   A workload that is not in the slot needs all its replicas. One that replaces running pods needs what
   its worst instant costs beyond what these hold, in each dimension by the requests of that dimension.
   */
  lemma AdditionalMeans(w: Workload, slot: Slot)
    ensures w.name !in slot ==>
      && Additional(w, slot, Cpu) == w.replicas * w.requests.cpu && Additional(w, slot, Memory) == w.replicas * w.requests.memory
      && Additional(w, slot, Storage) == w.replicas * w.requests.storage && Additional(w, slot, PodCount) == w.replicas
    ensures w.name in slot ==>
      var c := slot[w.name];
      && IsWorst(c.replicas * c.requests.cpu + Additional(w, slot, Cpu),
                 w.replicas, w.maxSurge, c.replicas, w.requests.cpu, c.requests.cpu)
      && IsWorst(c.replicas * c.requests.memory + Additional(w, slot, Memory),
                 w.replicas, w.maxSurge, c.replicas, w.requests.memory, c.requests.memory)
      && IsWorst(c.replicas * c.requests.storage + Additional(w, slot, Storage),
                 w.replicas, w.maxSurge, c.replicas, w.requests.storage, c.requests.storage)
      && IsWorst(c.replicas + Additional(w, slot, PodCount), w.replicas, w.maxSurge, c.replicas, 1, 1)
  {
    if w.name in slot {
      var c := slot[w.name];
      ExtraMeans(w.replicas, w.maxSurge, c.replicas, w.requests.cpu, c.requests.cpu);
      ExtraMeans(w.replicas, w.maxSurge, c.replicas, w.requests.memory, c.requests.memory);
      ExtraMeans(w.replicas, w.maxSurge, c.replicas, w.requests.storage, c.requests.storage);
      ExtraMeans(w.replicas, w.maxSurge, c.replicas, 1, 1);
    }
  }

  lemma ExtraMeans(desired: nat, surge: nat, current: nat, newCost: nat, oldCost: nat)
    ensures IsWorst(current * oldCost + Extra(Plan(desired, surge, current), newCost, oldCost),
                    desired, surge, current, newCost, oldCost)
  {
    PeakIsGreatest(desired, surge, current, newCost, oldCost);
  }

  /** The whole demand is the sum of these. */
  lemma {:induction false} TotalMeans(ws: seq<Workload>, slot: Slot, d: Dimension)
    ensures Total(ws, slot, d) == SumOver(ws, (w: Workload) => Additional(w, slot, d))
    decreases |ws|
  {
    if ws != [] {
      TotalMeans(ws[..|ws| - 1], slot, d);
    }
  }
}
