/** One Deployment's RollingUpdate as a step system, and the closed form for its worst instant. */
module Rollout {
  import Quantity

  /** Pods of the new and of the old ReplicaSet that exist at one instant. */
  datatype Pods = Pods(next: nat, prior: nat) {
    function Cost(newCost: nat, oldCost: nat): nat {
      next * newCost + prior * oldCost
    }
  }

  /** A rollout to `desired` pods with `surge` more allowed, over `current` running pods of the old version. */
  datatype Plan = Plan(desired: nat, surge: nat, current: nat) {
    function Cap(): nat {
      desired + surge
    }

    function Start(): Pods {
      Pods(0, current)
    }

    /** Within the three limits of the controller. */
    predicate Within(p: Pods) {
      p.next <= desired && p.prior <= current && p.next + p.prior <= Cap()
    }

    /** Pods are created only below the cap; they may stop at any time. */
    predicate Step(p: Pods, q: Pods) {
      || (q == p.(next := p.next + 1) && p.next < desired && p.next + p.prior < Cap())
      || (q == p.(prior := p.prior + 1) && p.prior < current && p.next + p.prior < Cap())
      || (p.next > 0 && q == p.(next := p.next - 1))
      || (p.prior > 0 && q == p.(prior := p.prior - 1))
    }

    ghost predicate ReachedIn(n: nat, p: Pods) {
      if n == 0 then p == Start() else exists q :: ReachedIn(n - 1, q) && Step(q, p)
    }

    ghost predicate Reachable(p: Pods) {
      exists n: nat :: ReachedIn(n, p)
    }
  }

  /** The most of one resource a RollingUpdate can hold at once. */
  function RolloutPeak(plan: Plan, newCost: nat, oldCost: nat): nat {
    WorstSplit(plan, newCost, oldCost).Cost(newCost, oldCost)
  }

  function Min(a: int, b: int): int {
    if a < b then a else b
  }

  function Max(a: int, b: int): int {
    if a < b then b else a
  }

  /** The expensive kind first, the remainder to the other. */
  function WorstSplit(plan: Plan, newCost: nat, oldCost: nat): Pods {
    if newCost >= oldCost then
      var next := Min(plan.desired, plan.Cap());
      Pods(next, Min(plan.current, plan.Cap() - next))
    else
      var prior := Min(plan.current, plan.Cap());
      Pods(Min(plan.desired, plan.Cap() - prior), prior)
  }

  /** Swapping some pods of the cheaper kind for at least as many of the dearer one costs no less. */
  lemma Exchange(gain: nat, loss: nat, dear: nat, cheap: nat)
    requires loss <= gain && cheap <= dear
    ensures loss * cheap <= gain * dear
  {
    Quantity.MulMonotone(loss, gain, cheap);
    assert gain * cheap <= gain * dear;
  }

  /** The closed form is the maximum over all splits within the limits, and is itself such a split. */
  lemma PeakIsMaximum(plan: Plan, newCost: nat, oldCost: nat, p: Pods)
    ensures plan.Within(WorstSplit(plan, newCost, oldCost))
    ensures plan.Within(p) ==> p.Cost(newCost, oldCost) <= RolloutPeak(plan, newCost, oldCost)
  {
    var w := WorstSplit(plan, newCost, oldCost);
    if plan.Within(p) {
      if p.next <= w.next && p.prior <= w.prior {
        Quantity.MulMonotone(p.next, w.next, newCost);
        Quantity.MulMonotone(p.prior, w.prior, oldCost);
      } else if newCost >= oldCost {
        Exchange(w.next - p.next, p.prior - w.prior, newCost, oldCost);
        assert w.next * newCost == p.next * newCost + (w.next - p.next) * newCost;
        assert p.prior * oldCost == w.prior * oldCost + (p.prior - w.prior) * oldCost;
      } else {
        Exchange(w.prior - p.prior, p.next - w.next, oldCost, newCost);
        assert w.prior * oldCost == p.prior * oldCost + (w.prior - p.prior) * oldCost;
        assert p.next * newCost == w.next * newCost + (p.next - w.next) * newCost;
      }
    }
  }

  /** A scale-down starts above the cap; until it is below, no new pod exists. */
  ghost predicate Invariant(plan: Plan, p: Pods) {
    plan.Within(p) || (p.next == 0 && p.prior <= plan.current)
  }

  lemma {:induction false} ReachedInvariant(plan: Plan, n: nat, p: Pods)
    requires plan.ReachedIn(n, p)
    ensures Invariant(plan, p)
  {
    if n > 0 {
      var q :| plan.ReachedIn(n - 1, q) && plan.Step(q, p);
      ReachedInvariant(plan, n - 1, q);
    }
  }

  lemma {:induction false} ReachByStopping(plan: Plan, k: nat)
    requires k <= plan.current
    ensures plan.ReachedIn(k, Pods(0, plan.current - k))
  {
    if k > 0 {
      ReachByStopping(plan, k - 1);
      assert plan.Step(Pods(0, plan.current - (k - 1)), Pods(0, plan.current - k));
    }
  }

  lemma {:induction false} ReachByCreating(plan: Plan, p: Pods)
    requires plan.Within(p)
    ensures plan.ReachedIn(plan.current - p.prior + p.next, p)
    decreases p.next
  {
    if p.next == 0 {
      ReachByStopping(plan, plan.current - p.prior);
    } else {
      var q := p.(next := p.next - 1);
      ReachByCreating(plan, q);
      assert plan.Step(q, p);
    }
  }

  /** The reachable instants are the splits within the limits, and old pods not yet scaled down. */
  lemma ReachableExact(plan: Plan, p: Pods)
    ensures plan.Reachable(p) <==> Invariant(plan, p)
  {
    if plan.Reachable(p) {
      var n: nat :| plan.ReachedIn(n, p);
      ReachedInvariant(plan, n, p);
    }
    if plan.Within(p) {
      ReachByCreating(plan, p);
    } else if Invariant(plan, p) {
      ReachByStopping(plan, plan.current - p.prior);
    }
  }

  /** What the old pods hold before the rollout. */
  function Held(plan: Plan, oldCost: nat): nat {
    plan.current * oldCost
  }

  /** The instant a rollout is dearest at: its start, or the worst split. */
  function WorstInstant(plan: Plan, newCost: nat, oldCost: nat): Pods {
    if RolloutPeak(plan, newCost, oldCost) >= Held(plan, oldCost) then WorstSplit(plan, newCost, oldCost)
    else plan.Start()
  }

  /** No reachable instant costs more than the peak or the old pods, and one costs just that. */
  lemma ReachableCost(plan: Plan, newCost: nat, oldCost: nat, p: Pods)
    ensures plan.Reachable(p) ==>
      p.Cost(newCost, oldCost) <= Max(RolloutPeak(plan, newCost, oldCost), Held(plan, oldCost))
    ensures var w := WorstInstant(plan, newCost, oldCost);
      plan.Reachable(w) && w.Cost(newCost, oldCost) == Max(RolloutPeak(plan, newCost, oldCost), Held(plan, oldCost))
  {
    PeakIsMaximum(plan, newCost, oldCost, p);
    ReachableExact(plan, p);
    if plan.Reachable(p) && !plan.Within(p) {
      Quantity.MulMonotone(p.prior, plan.current, oldCost);
    }
    ReachableExact(plan, WorstInstant(plan, newCost, oldCost));
    assert plan.Start().Cost(newCost, oldCost) == Held(plan, oldCost);
  }

  /** What the cluster must find beyond what it holds. */
  function Extra(plan: Plan, newCost: nat, oldCost: nat): nat {
    Max(0, RolloutPeak(plan, newCost, oldCost) - Held(plan, oldCost))
  }

  lemma ExtraExact(plan: Plan, newCost: nat, oldCost: nat)
    ensures Held(plan, oldCost) + Extra(plan, newCost, oldCost) == WorstInstant(plan, newCost, oldCost).Cost(newCost, oldCost)
  {
    ReachableCost(plan, newCost, oldCost, plan.Start());
  }

  /** A slot that does not exist costs what a slot with no replicas costs: the whole new version. */
  lemma MissingSlotIsEmptySlot(desired: nat, surge: nat, newCost: nat, oldCost: nat)
    ensures Extra(Plan(desired, surge, 0), newCost, oldCost) == newCost * desired
  {
  }

  // ----- with the limits written out -----

  /** What a RollingUpdate may hold at most: no more new pods than desired, no more old ones than run, and the surge over both. */
  predicate Allowed(desired: nat, surge: nat, current: nat, next: nat, prior: nat) {
    next <= desired && prior <= current && next + prior <= desired + surge
  }

  /** `total` is the greatest cost among the splits allowed. */
  ghost predicate IsPeak(total: nat, desired: nat, surge: nat, current: nat, newCost: nat, oldCost: nat) {
    && (forall next: nat, prior: nat | Allowed(desired, surge, current, next, prior) :: next * newCost + prior * oldCost <= total)
    && exists next: nat, prior: nat :: Allowed(desired, surge, current, next, prior) && next * newCost + prior * oldCost == total
  }

  /** `total` is what the old pods cost, or that peak, whichever is more. */
  ghost predicate IsWorst(total: nat, desired: nat, surge: nat, current: nat, newCost: nat, oldCost: nat) {
    exists peak: nat :: IsPeak(peak, desired, surge, current, newCost, oldCost) && total == Max(current * oldCost, peak)
  }

  /** The closed form, whatever it is made of, is the greatest cost of a split within the three limits. */
  lemma PeakIsGreatest(desired: nat, surge: nat, current: nat, newCost: nat, oldCost: nat)
    ensures IsPeak(RolloutPeak(Plan(desired, surge, current), newCost, oldCost), desired, surge, current, newCost, oldCost)
  {
    var plan := Plan(desired, surge, current);
    var w := WorstSplit(plan, newCost, oldCost);
    forall next: nat, prior: nat | Allowed(desired, surge, current, next, prior)
      ensures next * newCost + prior * oldCost <= RolloutPeak(plan, newCost, oldCost)
    {
      PeakIsMaximum(plan, newCost, oldCost, Pods(next, prior));
    }
    PeakIsMaximum(plan, newCost, oldCost, w);
    assert Allowed(desired, surge, current, w.next, w.prior);
  }

  /** The rollout can pass through every split within the limits, and through every scale-down of the old pods. */
  lemma PassesThrough(desired: nat, surge: nat, current: nat, next: nat, prior: nat)
    ensures Plan(desired, surge, current).Reachable(Pods(next, prior))
      <==> Allowed(desired, surge, current, next, prior) || (next == 0 && prior <= current)
  {
    ReachableExact(Plan(desired, surge, current), Pods(next, prior));
  }

  /** In particular the surge is used: all new pods beside as many old ones as it allows. */
  lemma SurgeIsUsed(plan: Plan, k: nat)
    ensures plan.Reachable(Pods(plan.desired, k)) <==> k <= plan.current && (k <= plan.surge || plan.desired == 0)
  {
    PassesThrough(plan.desired, plan.surge, plan.current, plan.desired, k);
  }
}
