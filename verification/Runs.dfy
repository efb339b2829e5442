/** Runs of a step relation, and the one induction over them. */
module Runs {

  ghost predicate ReachesIn<S(!new)>(step: (S, S) -> bool, n: nat, s: S, t: S) {
    if n == 0 then t == s
    else exists r: S :: ReachesIn(step, n - 1, s, r) && step(r, t)
  }

  /** Some run of steps leads from `s` to `t`. */
  ghost predicate Reaches<S(!new)>(step: (S, S) -> bool, s: S, t: S) {
    exists n: nat :: ReachesIn(step, n, s, t)
  }

  lemma ReachesItself<S(!new)>(step: (S, S) -> bool, s: S)
    ensures Reaches(step, s, s)
  {
    assert ReachesIn(step, 0, s, s);
  }

  lemma ReachesOneMore<S(!new)>(step: (S, S) -> bool, s: S, t: S, u: S)
    requires Reaches(step, s, t) && step(t, u)
    ensures Reaches(step, s, u)
  {
    var n: nat :| ReachesIn(step, n, s, t);
    assert ReachesIn(step, n + 1, s, u);
  }

  /** One run after another. */
  lemma ReachesOn<S(!new)>(step: (S, S) -> bool, s: S, t: S, u: S)
    requires Reaches(step, s, t) && Reaches(step, t, u)
    ensures Reaches(step, s, u)
  {
    var holds := (x: S) => Reaches(step, s, x);
    forall r, r' | holds(r) && step(r, r')
      ensures holds(r')
    {
      ReachesOneMore(step, s, r, r');
    }
    Throughout(step, holds, t, u);
  }

  lemma {:induction false} ThroughoutIn<S(!new)>(step: (S, S) -> bool, holds: S -> bool, n: nat, s: S, t: S)
    requires holds(s) && forall r, r' :: holds(r) && step(r, r') ==> holds(r')
    requires ReachesIn(step, n, s, t)
    ensures holds(t)
    decreases n
  {
    if n > 0 {
      var r :| ReachesIn(step, n - 1, s, r) && step(r, t);
      ThroughoutIn(step, holds, n - 1, s, r);
    }
  }

  /** What holds at the start and is kept by every step holds throughout. */
  lemma Throughout<S(!new)>(step: (S, S) -> bool, holds: S -> bool, s: S, t: S)
    requires holds(s) && forall r, r' :: holds(r) && step(r, r') ==> holds(r')
    requires Reaches(step, s, t)
    ensures holds(t)
  {
    var n: nat :| ReachesIn(step, n, s, t);
    ThroughoutIn(step, holds, n, s, t);
  }
}
