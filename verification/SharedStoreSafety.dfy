/** What every interleaving of publishers, pruners and observers keeps, whoever dies where. */
module SharedStoreSafety {
  import opened Text
  import opened Publication
  import opened SharedStore

  lemma CompleteHolds(n: nat, k: nat)
    requires k <= 3
    ensures FirstParts(n, k).Keys == set i | 0 <= i < k :: PARTS[i]
    ensures forall i | 0 <= i < k :: FirstParts(n, k)[PARTS[i]] == Data(n, PARTS[i])
  {
    if k > 0 {
      CompleteHolds(n, k - 1);
    }
  }

  lemma SelectionIsUnique(p: Platform, r: Root, m: nat, n: nat)
    requires p.Honest() && Selects(p, r, m) && Selects(p, r, n)
    ensures m == n
  {
    assert p.load(p.dump(StateOf(p, m))) == Some(StateOf(p, m));
    assert p.load(p.dump(StateOf(p, n))) == Some(StateOf(p, n));
  }

  lemma SelectionLoads(p: Platform, r: Root, n: nat)
    requires p.Honest() && Selects(p, r, n)
    ensures r.json.Some? && p.load(r.json.value) == Some(StateOf(p, n))
  {
  }

  lemma WritingKeeps(p: Platform, n: nat, r: Root, at: Publisher, r': Root, at': Publisher)
    requires at.Writing? && PublisherKnows(p, n, r, at) && PublishStep(p, n, r, at, r', at')
    ensures PublisherKnows(p, n, r', at') && r'.generations == r.generations && r'.json == r.json
  {
    var k, left, whole := at.done, at.left, Data(n, PARTS[at.done]);
    var text :| text + left == whole && r.candidates[n] == FirstParts(n, k)[PARTS[k] := text];
    if left == "" {
      NothingYet(text);
    } else {
      var c :| 1 <= c <= |left| && r' == WithPart(r, n, PARTS[k], r.candidates[n][PARTS[k]] + left[..c])
               && at' == Writing(k, left[c..]);
      OneMore(text, left, c);
      assert r'.candidates[n] == FirstParts(n, k)[PARTS[k] := text + left[..c]];
    }
  }

  /** While it fills its candidate, a publisher touches nothing else. */
  lemma FillingKeeps(p: Platform, n: nat, r: Root, at: Publisher, r': Root, at': Publisher)
    requires at.Begin? || at.Writing? || (at.Filling? && at.done < 3)
    requires PublisherKnows(p, n, r, at) && PublishStep(p, n, r, at, r', at')
    ensures PublisherKnows(p, n, r', at')
    ensures r'.generations == r.generations && r'.json == r.json
  {
    if at.Writing? {
      WritingKeeps(p, n, r, at, r', at');
    } else if at.Filling? {
      NothingYet(Data(n, PARTS[at.done]));
    }
  }

  /** A whole generation appears at once, and only where none was. */
  lemma RenamingKeeps(p: Platform, n: nat, r: Root, r': Root, at': Publisher)
    requires PublisherKnows(p, n, r, Filling(3)) && PublishStep(p, n, r, Filling(3), r', at')
    ensures PublisherKnows(p, n, r', at')
    ensures forall m | Selects(p, r, m) :: Selects(p, r', m)
  {
    CompleteHolds(n, 3);
    assert Main == PARTS[0] && Main in Complete(n);
  }

  lemma RecordingKeeps(p: Platform, n: nat, r: Root, at: Publisher, r': Root, at': Publisher)
    requires at.Renamed? || at.Recording?
    requires PublisherKnows(p, n, r, at) && PublishStep(p, n, r, at, r', at')
    ensures PublisherKnows(p, n, r', at')
    ensures at != Recording("") ==> r'.generations == r.generations && r'.json == r.json
  {
    if at.Renamed? {
      NothingYet(p.dump(StateOf(p, n)));
    } else if at.left != "" {
      var text, left := r.next.value, at.left;
      var c :| 1 <= c <= |left| && r' == r.(next := Some(text + left[..c])) && at' == Recording(left[c..]);
      OneMore(text, left, c);
    } else {
      NothingYet(r.next.value);
    }
  }

  lemma PublisherKeeps(p: Platform, n: nat, r: Root, at: Publisher, r': Root, at': Publisher)
    requires Consistent(p, r) && PublisherKnows(p, n, r, at) && PublishStep(p, n, r, at, r', at')
    ensures Consistent(p, r') && PublisherKnows(p, n, r', at')
    ensures forall m | Selects(p, r, m) :: Selects(p, r', m) || (at == Recording("") && Selects(p, r', n))
  {
    if at.Begin? || at.Writing? || (at.Filling? && at.done < 3) {
      FillingKeeps(p, n, r, at, r', at');
    } else if at.Filling? {
      RenamingKeeps(p, n, r, r', at');
    } else {
      RecordingKeeps(p, n, r, at, r', at');
    }
    if r.json.Some? {
      var m: nat :| Selects(p, r, m);
      assert Selects(p, r', m) || Selects(p, r', n);
    }
  }

  lemma PrunerKeeps(p: Platform, r: Root, at: Pruner, r': Root, at': Pruner)
    requires p.Honest() && Consistent(p, r) && PrunerKnows(p, r, at) && PruneStep(p, r, at, r', at')
    ensures Consistent(p, r') && PrunerKnows(p, r', at')
    ensures forall m | Selects(p, r, m) :: Selects(p, r', m)
  {
    if at.Looking? {
      var n: nat :| Selects(p, r, n);
      SelectionLoads(p, r, n);
    } else {
      forall m | Selects(p, r, m)
        ensures Selects(p, r', m)
      {
        SelectionIsUnique(p, r, m, at.active);
      }
    }
  }

  lemma ObserverKeeps(p: Platform, r: Root, at: Observer)
    requires p.Honest() && Consistent(p, r) && ObserverKnows(p, r, at)
    ensures ObserverKnows(p, r, ObserveStep(p, r, at))
  {
    if at.Selecting? && r.json.Some? {
      var n: nat :| Selects(p, r, n);
      SelectionLoads(p, r, n);
    } else if at.Checking? {
      var n: nat :| Selects(p, r, n) && at.state == StateOf(p, n);
      CompleteHolds(n, 3);
      if at.left != [] {
        var part := at.left[0];
        assert part == PARTS[0] || part == PARTS[1] || part == PARTS[2];
      }
    }
  }

  lemma WorkKeeps(p: Platform, r: Root, q: Process, r': Root, q': Process)
    requires p.Honest() && Consistent(p, r) && Knows(p, r, q) && Work(p, r, q, r', q')
    ensures Consistent(p, r') && Knows(p, r', q') && q'.Shared() == q.Shared()
    ensures q.Shared() ==> r' == r
    ensures forall m | Selects(p, r, m) ::
      Selects(p, r', m) || (q.Publishing? && q.publisher == Recording("") && Selects(p, r', q.sequence))
  {
    match q
    case Publishing(n, at) => PublisherKeeps(p, n, r, at, r', q'.publisher);
    case Observing(at) => ObserverKeeps(p, r, at);
    case Pruning(at) => PrunerKeeps(p, r, at, r', q'.pruner);
    case Holding(_) =>
  }

  lemma StepKeeps(p: Platform, s: System, e: Event, t: System)
    requires p.Honest() && Safe(p, s) && Step(p, s, e, t)
    ensures Safe(p, t)
    ensures forall m | Selects(p, s.root, m) :: Selects(p, t.root, m) || Republishes(s, e)
  {
    if e.Advance? {
      var q, q' := s.procs[e.id], t.procs[e.id];
      WorkKeeps(p, s.root, q, t.root, q');
      if !q.Shared() {
        assert forall i <- s.procs :: i == e.id;
      }
    }
  }

  /** The event is a publisher's replacement of state.json. */
  predicate Republishes(s: System, e: Event) {
    && e.Advance? && e.id in s.procs
    && s.procs[e.id].Publishing? && s.procs[e.id].publisher == Recording("")
  }

  lemma {:induction false} RunIsSafe(p: Platform, states: seq<System>, events: seq<Event>, i: nat)
    requires p.Honest() && Run(p, states, events) && i < |states|
    ensures Safe(p, states[i])
  {
    if i > 0 {
      RunIsSafe(p, states, events, i - 1);
      StepKeeps(p, states[i - 1], events[i - 1], states[i]);
    }
  }

  /**
   At every instant of every run: state.json, where it exists, is the record of a generation whose
   three parts are there with the recorded hashes; no observer has met anything else, and one that
   verified a generation verified that one.
   */
  lemma NoPartialPublication(p: Platform, states: seq<System>, events: seq<Event>, i: nat)
    requires p.Honest() && Run(p, states, events) && i < |states|
    ensures var r := states[i].root;
      r.json.Some? ==>
        && p.load(r.json.value).Some?
        && var state := p.load(r.json.value).value;
        && state.generation in r.generations
        && var directory := r.generations[state.generation];
        && (forall part :: part in directory && part in state.hashes && p.sha(directory[part]) == state.hashes[part])
        && (forall part :: directory[part] == Data(state.generation, part))
    ensures forall id | id in states[i].procs && states[i].procs[id].Observing? ::
      var at := states[i].procs[id].observer;
      at != Inconsistent && (at.Verified? ==> Selects(p, states[i].root, at.generation))
  {
    RunIsSafe(p, states, events, i);
    var r := states[i].root;
    if r.json.Some? {
      var n: nat :| Selects(p, r, n);
      SelectionLoads(p, r, n);
      CompleteHolds(n, 3);
      forall part: Part
        ensures part in Complete(n) && Complete(n)[part] == Data(n, part) && part in StateOf(p, n).hashes
        ensures p.sha(Data(n, part)) == StateOf(p, n).hashes[part]
      {
        assert part == PARTS[0] || part == PARTS[1] || part == PARTS[2];
      }
    }
    forall id | id in states[i].procs && states[i].procs[id].Observing?
      ensures var at := states[i].procs[id].observer;
        at != Inconsistent && (at.Verified? ==> Selects(p, r, at.generation))
    {
      assert Knows(p, r, states[i].procs[id]);
    }
  }

  /**
   A selected generation stays selected, and whole, through every step but one: a publisher's
   replacement of state.json, which selects what that publisher wrote. No pruner removes it.
   */
  lemma OnlyPublishingReselects(p: Platform, states: seq<System>, events: seq<Event>, i: nat, n: nat)
    requires p.Honest() && Run(p, states, events) && i < |events| && Selects(p, states[i].root, n)
    ensures if Republishes(states[i], events[i]) then Selects(p, states[i + 1].root, states[i].procs[events[i].id].sequence)
            else Selects(p, states[i + 1].root, n)
  {
    RunIsSafe(p, states, events, i);
    StepKeeps(p, states[i], events[i], states[i + 1]);
    if Republishes(states[i], events[i]) {
      var id := events[i].id;
      assert Knows(p, states[i].root, states[i].procs[id]);
      WorkKeeps(p, states[i].root, states[i].procs[id], states[i + 1].root, states[i + 1].procs[id]);
    }
  }

  /** As long as an observer holds its lock, from its choice of a generation to its last check, the store stands still. */
  lemma {:induction false} ObservedStoreStandsStill(p: Platform, states: seq<System>, events: seq<Event>, i: nat, j: nat, id: nat)
    requires p.Honest() && Run(p, states, events) && i <= j < |states|
    requires forall k | i <= k <= j :: id in states[k].procs && states[k].procs[id].Observing?
    ensures states[j].root == states[i].root
    decreases j
  {
    if i < j {
      ObservedStoreStandsStill(p, states, events, i, j - 1, id);
      RunIsSafe(p, states, events, j - 1);
      var s, e, t := states[j - 1], events[j - 1], states[j];
      assert Step(p, s, e, t);
      if e.Advance? {
        assert s.procs[e.id].Shared();
        WorkKeeps(p, s.root, s.procs[e.id], t.root, t.procs[e.id]);
      }
    }
  }
}
