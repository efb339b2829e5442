/** The shared store's processes get the lock, and each of them gets through when nobody stops it. */
module SharedStoreProgress {
  import opened Text
  import opened Publication
  import opened Runs
  import opened SharedStore
  import opened SharedStoreSafety
  import opened StorePrograms

  // ----- the lock -----

  /** What asks for the lock has done nothing yet. */
  predicate AtItsStart(q: Process) {
    q.Holding? || q == Observing(Selecting) || q == Pruning(Looking) || (q.Publishing? && q.publisher == Begin)
  }

  predicate HoldsShared(q: Process) {
    q.Observing? || q == Holding(true)
  }

  /**
   An idle store grants the lock to whoever asks. A store in use grants it to those who share it, beside
   others who share it; everybody else is refused.
   */
  lemma LockIsGranted(p: Platform, s: System, id: nat, q: Process)
    requires id !in s.procs && AtItsStart(q)
    ensures (exists t :: Step(p, s, Start(id, q), t))
      <==> s.procs == map[] || (HoldsShared(q) && forall i <- s.procs :: HoldsShared(s.procs[i]))
    ensures forall t | Step(p, s, Start(id, q), t) :: t == System(s.root, s.procs[id := q])
  {
    if s.procs == map[] || (HoldsShared(q) && forall i <- s.procs :: HoldsShared(s.procs[i])) {
      assert Step(p, s, Start(id, q), System(s.root, s.procs[id := q]));
    }
  }

  /** Whoever holds the lock can give it up, at any moment. */
  lemma LockIsReturned(p: Platform, s: System, id: nat)
    requires id in s.procs
    ensures Step(p, s, Stop(id), System(s.root, s.procs - {id}))
  {
  }

  // ----- runs of the whole system -----

  ghost function SystemSteps(p: Platform): (System, System) -> bool {
    (s: System, t: System) => exists e :: Step(p, s, e, t)
  }

  ghost predicate Passes(p: Platform, s: System, t: System) {
    Reaches(SystemSteps(p), s, t)
  }

  lemma PassesBy(p: Platform, r: System, s: System, e: Event, t: System)
    requires Passes(p, r, s) && Step(p, s, e, t)
    ensures Passes(p, r, t)
  {
    ReachesOneMore(SystemSteps(p), r, s, t);
  }

  lemma PassesOn(p: Platform, r: System, s: System, t: System)
    requires Passes(p, r, s) && Passes(p, s, t)
    ensures Passes(p, r, t)
  {
    ReachesOn(SystemSteps(p), r, s, t);
  }

  lemma Starts(p: Platform, r: System, s: System, id: nat, q: Process)
    requires Passes(p, r, s) && id !in s.procs && AtItsStart(q)
    requires s.procs == map[] || (HoldsShared(q) && forall i <- s.procs :: HoldsShared(s.procs[i]))
    ensures Passes(p, r, System(s.root, s.procs[id := q]))
  {
    PassesBy(p, r, s, Start(id, q), System(s.root, s.procs[id := q]));
  }

  lemma Works(p: Platform, r: System, s: System, id: nat, root: Root, q: Process)
    requires Passes(p, r, s) && id in s.procs && Work(p, s.root, s.procs[id], root, q)
    ensures Passes(p, r, System(root, s.procs[id := q]))
  {
    PassesBy(p, r, s, Advance(id), System(root, s.procs[id := q]));
  }

  /** A process that has the lock to itself returns it. */
  lemma Ends(p: Platform, r: System, root: Root, id: nat, q: Process)
    requires Passes(p, r, System(root, map[id := q]))
    ensures Passes(p, r, System(root, map[]))
  {
    assert map[id := q] - {id} == map[];
    PassesBy(p, r, System(root, map[id := q]), Stop(id), System(root, map[]));
  }

  lemma {:induction false} RunOf(p: Platform, n: nat, t: System)
    requires ReachesIn(SystemSteps(p), n, System(EMPTY, map[]), t)
    ensures exists states, events :: Run(p, states, events) && states[|events|] == t
    decreases n
  {
    if n == 0 {
      var none: seq<Event> := [];
      assert Run(p, [t], none) && [t][|none|] == t;
    } else {
      var s :| ReachesIn(SystemSteps(p), n - 1, System(EMPTY, map[]), s) && SystemSteps(p)(s, t);
      RunOf(p, n - 1, s);
      var states, events :| Run(p, states, events) && states[|events|] == s;
      var e :| Step(p, s, e, t);
      assert Run(p, states + [t], events + [e]);
      assert (states + [t])[|events + [e]|] == t;
    }
  }

  /** What is passed from the empty store stands at the end of a run. */
  lemma PassedIsRun(p: Platform, t: System)
    requires Passes(p, System(EMPTY, map[]), t)
    ensures exists states, events :: Run(p, states, events) && states[|events|] == t
  {
    var n: nat :| ReachesIn(SystemSteps(p), n, System(EMPTY, map[]), t);
    RunOf(p, n, t);
  }

  // ----- publishers -----

  /** What a publisher does alone it does in the system. */
  lemma PublisherRuns(p: Platform, n: nat, id: nat, s: System, r: Root, at: Publisher, r': Root, at': Publisher)
    requires Passes(p, s, System(r, map[id := Publishing(n, at)])) && Publishes(p, n, r, at, r', at')
    ensures Passes(p, s, System(r', map[id := Publishing(n, at')]))
  {
    var holds := (x: (Root, Publisher)) => Passes(p, s, System(x.0, map[id := Publishing(n, x.1)]));
    forall x, y | holds(x) && PublisherSteps(p, n)(x, y)
      ensures holds(y)
    {
      Works(p, s, System(x.0, map[id := Publishing(n, x.1)]), id, y.0, Publishing(n, y.1));
      assert map[id := Publishing(n, x.1)][id := Publishing(n, y.1)] == map[id := Publishing(n, y.1)];
    }
    Throughout(PublisherSteps(p, n), holds, (r, at), (r', at'));
  }

  lemma FillsAlone(p: Platform, n: nat, r: Root, k: nat)
    requires n !in r.candidates && k <= 3
    ensures Publishes(p, n, r, Begin, r.(candidates := r.candidates[n := FirstParts(n, k)]), Filling(k))
  {
    if k == 0 {
      PublishesNothing(p, n, r, Begin);
      PublishesOneMore(p, n, r, Begin, r, Begin, r.(candidates := r.candidates[n := map[]]), Filling(0));
    } else {
      FillsAlone(p, n, r, k - 1);
      PublishesOnePart(p, n, k - 1, r, r.(candidates := r.candidates[n := FirstParts(n, k - 1)]));
      PartFilled(r.candidates, n, k - 1);
    }
  }

  function Published(p: Platform, r: Root, n: nat): Root {
    Root(r.candidates, r.generations[n := Complete(n)], None, Some(p.dump(StateOf(p, n))))
  }

  lemma PublishesAlone(p: Platform, n: nat, r: Root)
    requires n !in r.candidates && CanRenameOnto(r, n) && r.next.None?
    ensures Publishes(p, n, r, Begin, Published(p, r, n), Finished)
  {
    FillsAlone(p, n, r, 3);
    var filled := r.(candidates := r.candidates[n := Complete(n)]);
    var renamed := r.(generations := r.generations[n := Complete(n)]);
    assert filled.candidates - {n} == r.candidates;
    PublishesOneMore(p, n, r, Begin, filled, Filling(3), renamed, Renamed);
    PublishesRecord(p, n, r, renamed);
  }

  /** On an idle store, a publication of a free generation can go through, to the store it is to leave. */
  lemma PublicationGetsThrough(p: Platform, n: nat, r: Root)
    requires n !in r.candidates && CanRenameOnto(r, n) && r.next.None?
    ensures Passes(p, System(r, map[]), System(Published(p, r, n), map[])) && Selects(p, Published(p, r, n), n)
  {
    var idle := System(r, map[]);
    ReachesItself(SystemSteps(p), idle);
    Starts(p, idle, idle, 0, Publishing(n, Begin));
    PublishesAlone(p, n, r);
    PublisherRuns(p, n, 0, idle, r, Begin, Published(p, r, n), Finished);
    Ends(p, idle, Published(p, r, n), 0, Publishing(n, Finished));
  }

  ghost predicate CanGoOn(p: Platform, n: nat, r: Root, at: Publisher) {
    exists r': Root, at': Publisher :: PublishStep(p, n, r, at, r', at')
  }

  /** Where a publisher has to stop: at a candidate of that name, at a generation in its place, at a half-written record. */
  predicate MeetsObstacle(n: nat, r: Root, at: Publisher) {
    || (at == Begin && n in r.candidates)
    || (at == Filling(3) && n in r.generations && r.generations[n] != map[])
    || (at == Renamed && r.next.Some?)
  }

  lemma WritesOn(p: Platform, n: nat, r: Root, at: Publisher)
    requires (at.Writing? || at.Recording?) && PublisherKnows(p, n, r, at)
    ensures CanGoOn(p, n, r, at)
  {
    var left := at.left;
    var all := |left|;
    assert left[..all] == left && left[all..] == "";
    if at.Writing? {
      var part := PARTS[at.done];
      var r' := if left == "" then r else WithPart(r, n, part, r.candidates[n][part] + left[..all]);
      assert PublishStep(p, n, r, at, r', if left == "" then Filling(at.done + 1) else Writing(at.done, left[all..]));
    } else {
      var r' := if left == "" then r.(json := r.next, next := None) else r.(next := Some(r.next.value + left[..all]));
      assert PublishStep(p, n, r, at, r', if left == "" then Finished else Recording(left[all..]));
    }
  }

  /** A publisher goes on until it has finished, unless it meets one of these. */
  lemma PublisherStopsExactly(p: Platform, n: nat, r: Root, at: Publisher)
    requires PublisherKnows(p, n, r, at)
    ensures !CanGoOn(p, n, r, at) <==> at == Finished || MeetsObstacle(n, r, at)
  {
    match at
    case Begin =>
      if n !in r.candidates {
        assert PublishStep(p, n, r, at, r.(candidates := r.candidates[n := map[]]), Filling(0));
      }
    case Filling(k) =>
      if k < 3 {
        NewPart(n, k);
        assert PublishStep(p, n, r, at, WithPart(r, n, PARTS[k], ""), Writing(k, Data(n, PARTS[k])));
      } else if CanRenameOnto(r, n) {
        var moved := r.(generations := r.generations[n := r.candidates[n]], candidates := r.candidates - {n});
        assert PublishStep(p, n, r, at, moved, Renamed);
      }
    case Renamed =>
      if r.next.None? {
        assert PublishStep(p, n, r, at, r.(next := Some("")), Recording(p.dump(StateOf(p, n))));
      }
    case Finished =>
    case _ =>
      WritesOn(p, n, r, at);
  }

  // ----- pruners -----

  lemma PrunerRuns(p: Platform, id: nat, s: System, r: Root, at: Pruner, r': Root, at': Pruner)
    requires Passes(p, s, System(r, map[id := Pruning(at)])) && Prunes(p, r, at, r', at')
    ensures Passes(p, s, System(r', map[id := Pruning(at')]))
  {
    var holds := (x: (Root, Pruner)) => Passes(p, s, System(x.0, map[id := Pruning(x.1)]));
    forall x, y | holds(x) && PrunerSteps(p)(x, y)
      ensures holds(y)
    {
      Works(p, s, System(x.0, map[id := Pruning(x.1)]), id, y.0, Pruning(y.1));
      assert map[id := Pruning(x.1)][id := Pruning(y.1)] == map[id := Pruning(y.1)];
    }
    Throughout(PrunerSteps(p), holds, (r, at), (r', at'));
  }

  function Without(r: Root, victim: nat): Root {
    r.(generations := r.generations - {victim})
  }

  function Stripped(r: Root, victim: nat, k: nat): Root
    requires victim in r.generations && k <= 3
  {
    r.(generations := r.generations[victim := r.generations[victim] - set i | 0 <= i < k :: PARTS[i]])
  }

  lemma {:induction false} StripsAlone(p: Platform, r: Root, active: nat, victim: nat, todo: seq<nat>, k: nat)
    requires victim in r.generations && Whole(r.generations[victim]) && k <= 3
    ensures Prunes(p, r, Unlinking(active, victim, 0, todo), Stripped(r, victim, k), Unlinking(active, victim, k, todo))
  {
    if k == 0 {
      assert Stripped(r, victim, 0).generations[victim] == r.generations[victim];
      assert Stripped(r, victim, 0).generations == r.generations;
      PrunesNothing(p, r, Unlinking(active, victim, 0, todo));
    } else {
      StripsAlone(p, r, active, victim, todo, k - 1);
      var s, t := Stripped(r, victim, k - 1), Stripped(r, victim, k);
      assert PARTS[k - 1] in s.generations[victim];
      assert s.generations[victim] - {PARTS[k - 1]} == t.generations[victim];
      Overwritten(r.generations, victim, s.generations[victim], t.generations[victim]);
      PrunesOneMore(p, r, Unlinking(active, victim, 0, todo), s, Unlinking(active, victim, k - 1, todo),
                    t, Unlinking(active, victim, k, todo));
    }
  }

  lemma RemovesAlone(p: Platform, r: Root, active: nat, victim: nat, todo: seq<nat>)
    requires victim in r.generations && Whole(r.generations[victim]) && victim != active
    ensures Prunes(p, r, Sweeping(active, [victim] + todo), Without(r, victim), Sweeping(active, todo))
  {
    var from, at := Sweeping(active, [victim] + todo), Unlinking(active, victim, 0, todo);
    PrunesNothing(p, r, from);
    PrunesOneMore(p, r, from, r, from, r, at);
    StripsAlone(p, r, active, victim, todo, 3);
    ReachesOn(PrunerSteps(p), (r, from), (r, at), (Stripped(r, victim, 3), Unlinking(active, victim, 3, todo)));
    NothingButParts(r.generations[victim]);
    assert Stripped(r, victim, 3).generations - {victim} == r.generations - {victim};
    PrunesOneMore(p, r, from, Stripped(r, victim, 3), Unlinking(active, victim, 3, todo),
                  Without(r, victim), Sweeping(active, todo));
  }

  function SweptOf(r: Root, active: nat, todo: seq<nat>): Root {
    r.(generations := r.generations - set g <- todo | g != active)
  }

  ghost predicate Sweepable(r: Root, active: nat, todo: seq<nat>) {
    && (forall g <- todo :: g in r.generations && (g != active ==> Whole(r.generations[g])))
    && forall i, j | 0 <= i < j < |todo| :: todo[i] != todo[j]
  }

  lemma {:induction false} SweepsAlone(p: Platform, r: Root, active: nat, todo: seq<nat>)
    requires Sweepable(r, active, todo)
    ensures Prunes(p, r, Sweeping(active, todo), SweptOf(r, active, todo), Swept)
    decreases |todo|
  {
    PrunesNothing(p, r, Sweeping(active, todo));
    if todo == [] {
      assert SweptOf(r, active, todo) == r;
      PrunesOneMore(p, r, Sweeping(active, todo), r, Sweeping(active, todo), r, Swept);
    } else {
      var g, rest := todo[0], todo[1..];
      assert todo == [g] + rest;
      var s := if g == active then r else Without(r, g);
      if g == active {
        PrunesOneMore(p, r, Sweeping(active, todo), r, Sweeping(active, todo), r, Sweeping(active, rest));
      } else {
        RemovesAlone(p, r, active, g, rest);
      }
      SweepsAlone(p, s, active, rest);
      assert SweptOf(s, active, rest) == SweptOf(r, active, todo);
      ReachesOn(PrunerSteps(p), (r, Sweeping(active, todo)), (s, Sweeping(active, rest)), (SweptOf(r, active, todo), Swept));
    }
  }

  /** Every directory can be listed. */
  lemma {:induction false} Listing(generations: map<nat, Directory>) returns (names: seq<nat>)
    ensures Lists(names, generations)
    decreases |generations|
  {
    if generations == map[] {
      names := [];
    } else {
      var g :| g in generations;
      var rest := Listing(generations - {g});
      names := [g] + rest;
    }
  }

  /** On an idle store with a record and no broken generation, a pruning can go through; what is selected alone is left. */
  lemma PruningGetsThrough(p: Platform, r: Root, n: nat)
    requires p.Honest() && Selects(p, r, n) && OthersWhole(r.generations, n)
    ensures Passes(p, System(r, map[]), System(r.(generations := map[n := Complete(n)]), map[]))
  {
    var idle := System(r, map[]);
    var names := Listing(r.generations);
    var pruned := r.(generations := map[n := Complete(n)]);
    SelectionLoads(p, r, n);
    PrunesNothing(p, r, Looking);
    PrunesOneMore(p, r, Looking, r, Looking, r, Sweeping(n, names));
    SweepsAlone(p, r, n, names);
    assert SweptOf(r, n, names) == pruned;
    ReachesOn(PrunerSteps(p), (r, Looking), (r, Sweeping(n, names)), (pruned, Swept));
    ReachesItself(SystemSteps(p), idle);
    Starts(p, idle, idle, 0, Pruning(Looking));
    PrunerRuns(p, 0, idle, r, Looking, pruned, Swept);
    Ends(p, idle, pruned, 0, Pruning(Swept));
  }

  // ----- observers -----

  lemma Observes(p: Platform, r: System, s: System, id: nat, at: Observer)
    requires id in s.procs && Passes(p, r, System(s.root, s.procs[id := Observing(at)]))
    ensures Passes(p, r, System(s.root, s.procs[id := Observing(ObserveStep(p, s.root, at))]))
  {
    var here := System(s.root, s.procs[id := Observing(at)]);
    Works(p, r, here, id, s.root, Observing(ObserveStep(p, s.root, at)));
    Overwritten(s.procs, id, Observing(at), Observing(ObserveStep(p, s.root, at)));
  }

  lemma {:induction false} ChecksTheRest(p: Platform, r: System, s: System, id: nat, n: nat, left: seq<Part>)
    requires id in s.procs && Selects(p, s.root, n)
    requires Passes(p, r, System(s.root, s.procs[id := Observing(Checking(StateOf(p, n), left))]))
    ensures Passes(p, r, System(s.root, s.procs[id := Observing(Verified(n))]))
    decreases |left|
  {
    Observes(p, r, s, id, Checking(StateOf(p, n), left));
    if left != [] {
      PartMatches(p, s.root, n, left[0]);
      ChecksTheRest(p, r, s, id, n, left[1..]);
    }
  }

  lemma PartMatches(p: Platform, r: Root, n: nat, part: Part)
    requires Selects(p, r, n)
    ensures part in StateOf(p, n).hashes && Matches(p, r, StateOf(p, n), part)
  {
    SelectedIsVerified(p, r, n);
    EachPart(part);
  }

  /** An observer that holds the lock verifies what is selected, whoever holds it too. */
  lemma ObserverVerifies(p: Platform, r: System, s: System, id: nat, n: nat)
    requires p.Honest() && Selects(p, s.root, n)
    requires id in s.procs && s.procs[id] == Observing(Selecting) && Passes(p, r, s)
    ensures Passes(p, r, System(s.root, s.procs[id := Observing(Verified(n))]))
  {
    SelectionLoads(p, s.root, n);
    assert s.procs[id := Observing(Selecting)] == s.procs;
    Observes(p, r, s, id, Selecting);
    ChecksTheRest(p, r, s, id, n, Recorded(StateOf(p, n)));
  }

  function AllVerified(ids: set<nat>, n: nat): map<nat, Process> {
    map id | id in ids :: Observing(Verified(n))
  }

  /** Any number of observers can hold the lock at once, each with the selected generation verified. */
  lemma {:induction false} ObserversTogether(p: Platform, r: Root, n: nat, ids: set<nat>)
    requires p.Honest() && Selects(p, r, n)
    ensures Passes(p, System(r, map[]), System(r, AllVerified(ids, n)))
    decreases ids
  {
    var idle := System(r, map[]);
    if ids == {} {
      assert AllVerified(ids, n) == map[];
      ReachesItself(SystemSteps(p), idle);
    } else {
      var id :| id in ids;
      var others := AllVerified(ids - {id}, n);
      ObserversTogether(p, r, n, ids - {id});
      Starts(p, idle, System(r, others), id, Observing(Selecting));
      ObserverVerifies(p, idle, System(r, others[id := Observing(Selecting)]), id, n);
      assert others[id := Observing(Selecting)][id := Observing(Verified(n))] == AllVerified(ids, n);
    }
  }

  // ----- a whole run -----

  /**
   From the initialised store there is a run in which one generation is published, then another,
   the first is pruned away, and any number of observers hold the lock at once with the second verified.
   */
  lemma SomeRunSucceeds(p: Platform, m: nat, n: nat, ids: set<nat>)
    requires p.Honest() && m != n
    ensures exists states: seq<System>, events: seq<Event> ::
      && Run(p, states, events)
      && Selects(p, states[|events|].root, n) && states[|events|].root.generations.Keys == {n}
      && states[|events|].procs == AllVerified(ids, n)
  {
    var start := System(EMPTY, map[]);
    var one := Published(p, EMPTY, m);
    var two := Published(p, one, n);
    var pruned := two.(generations := map[n := Complete(n)]);
    PublicationGetsThrough(p, m, EMPTY);
    PublicationGetsThrough(p, n, one);
    PassesOn(p, start, System(one, map[]), System(two, map[]));
    CompleteHolds(m, 3);
    assert Main == PARTS[0] && Daily == PARTS[1] && Bytecode == PARTS[2];
    PruningGetsThrough(p, two, n);
    PassesOn(p, start, System(two, map[]), System(pruned, map[]));
    ObserversTogether(p, pruned, n, ids);
    PassesOn(p, start, System(pruned, map[]), System(pruned, AllVerified(ids, n)));
    PassedIsRun(p, System(pruned, AllVerified(ids, n)));
  }
}
