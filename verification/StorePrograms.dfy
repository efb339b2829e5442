/** The publisher, the observer and the pruner as they run when nobody stops them. */
module StorePrograms {
  import opened Text
  import opened Publication
  import opened Runs
  import opened SharedStore
  import opened SharedStoreSafety

  function PublisherSteps(p: Platform, n: nat): ((Root, Publisher), (Root, Publisher)) -> bool {
    (x: (Root, Publisher), y: (Root, Publisher)) => PublishStep(p, n, x.0, x.1, y.0, y.1)
  }

  /** The publisher's own steps lead from the one to the other. */
  ghost predicate Publishes(p: Platform, n: nat, r: Root, at: Publisher, r': Root, at': Publisher) {
    Reaches(PublisherSteps(p, n), (r, at), (r', at'))
  }

  ghost function PrunerSteps(p: Platform): ((Root, Pruner), (Root, Pruner)) -> bool {
    (x: (Root, Pruner), y: (Root, Pruner)) => PruneStep(p, x.0, x.1, y.0, y.1)
  }

  /** The pruner's own steps lead from the one to the other. */
  ghost predicate Prunes(p: Platform, r: Root, at: Pruner, r': Root, at': Pruner) {
    Reaches(PrunerSteps(p), (r, at), (r', at'))
  }

  /** All three parts and, as a directory holds nothing else, nothing more. */
  predicate Whole(directory: Directory) {
    Main in directory && Daily in directory && Bytecode in directory
  }

  predicate AllMatch(p: Platform, r: Root, state: State, parts: seq<Part>) {
    forall part <- parts :: part in state.hashes && Matches(p, r, state, part)
  }

  predicate OthersWhole(generations: map<nat, Directory>, active: nat) {
    forall g <- generations :: g != active ==> Whole(generations[g])
  }

  function Only(generations: map<nat, Directory>, active: nat): map<nat, Directory> {
    map g | g in generations && g == active :: generations[g]
  }

  class Store {
    var candidates: map<nat, Directory>
    var generations: map<nat, Directory>
    var next: Option<string>
    var json: Option<string>

    ghost function Contents(): Root
      reads this
    {
      Root(candidates, generations, next, json)
    }

    /** After init. */
    constructor ()
      ensures Contents() == EMPTY
    {
      candidates, generations, next, json := map[], map[], None, None;
    }

    /** Makes the candidate and writes its parts. */
    method FillCandidate(p: Platform, n: nat)
      requires n !in candidates
      modifies this
      ensures Contents() == old(Contents()).(candidates := old(candidates)[n := Complete(n)])
      ensures Publishes(p, n, old(Contents()), Begin, Contents(), Filling(3))
    {
      PublishesNothing(p, n, Contents(), Begin);
      PublishesOneMore(p, n, Contents(), Begin, Contents(), Begin, Contents().(candidates := candidates[n := map[]]), Filling(0));
      candidates := candidates[n := map[]];
      for k := 0 to 3
        invariant Contents() == old(Contents()).(candidates := old(candidates)[n := FirstParts(n, k)])
        invariant Publishes(p, n, old(Contents()), Begin, Contents(), Filling(k))
      {
        PublishesOnePart(p, n, k, old(Contents()), Contents());
        var data := Data(n, PARTS[k]);
        candidates := candidates[n := candidates[n][PARTS[k] := ""]];
        candidates := candidates[n := candidates[n][PARTS[k] := candidates[n][PARTS[k]] + data]];
        NothingYet(data);
        PartFilled(old(candidates), n, k);
      }
    }

    /** Writes the record beside state.json and puts it in its place. */
    method Record(p: Platform, n: nat, ghost start: Root)
      requires next.None?
      requires Publishes(p, n, start, Begin, Contents(), Renamed)
      modifies this
      ensures Contents() == old(Contents()).(json := Some(p.dump(StateOf(p, n))))
      ensures Publishes(p, n, start, Begin, Contents(), Finished)
    {
      PublishesRecord(p, n, start, Contents());
      next := Some("");
      var record := p.dump(StateOf(p, n));
      next := Some(next.value + record);
      NothingYet(record);
      next, json := None, next;
    }

    /**
     A publication succeeds just when its candidate was never begun, its generation is free and no
     record is half written; otherwise it stops where it meets the obstacle and selects nothing.
     */
    method Publish(p: Platform, n: nat) returns (ok: bool, ghost at: Publisher)
      modifies this
      ensures ok <==> n !in old(candidates) && CanRenameOnto(old(Contents()), n) && old(next).None?
      ensures ok ==> Contents() == Root(old(candidates), old(generations)[n := Complete(n)], None, Some(p.dump(StateOf(p, n))))
      ensures !ok && n in old(candidates) ==> Contents() == old(Contents())
      ensures !ok && n !in old(candidates) && !CanRenameOnto(old(Contents()), n) ==>
        Contents() == old(Contents()).(candidates := old(candidates)[n := Complete(n)])
      ensures !ok && n !in old(candidates) && CanRenameOnto(old(Contents()), n) ==>
        Contents() == old(Contents()).(generations := old(generations)[n := Complete(n)])
      ensures Publishes(p, n, old(Contents()), Begin, Contents(), at) && (ok <==> at == Finished)
    {
      ok, at := false, Begin;
      PublishesNothing(p, n, Contents(), Begin);
      if n in candidates {
        return;
      }
      FillCandidate(p, n);
      at := Filling(3);
      assert candidates == old(candidates)[n := Complete(n)];
      if n in generations && generations[n] != map[] {
        return;
      }
      ghost var filled := Contents();
      generations, candidates := generations[n := candidates[n]], candidates - {n};
      assert candidates == old(candidates);
      PublishesOneMore(p, n, old(Contents()), Begin, filled, Filling(3), Contents(), Renamed);
      at := Renamed;
      if next.Some? {
        return;
      }
      Record(p, n, old(Contents()));
      ok, at := true, Finished;
    }

    /** Verified just when a record is there and every part it has a hash of matches it. */
    method Observe(p: Platform) returns (outcome: Observer)
      ensures json.None? ==> outcome == NothingPublished
      ensures json.Some? && p.load(json.value).None? ==> outcome == Inconsistent
      ensures json.Some? && p.load(json.value).Some? ==>
        var state := p.load(json.value).value;
        outcome == if AllMatch(p, Contents(), state, Recorded(state)) then Verified(state.generation) else Inconsistent
    {
      if json.None? {
        return NothingPublished;
      }
      var loaded := p.load(json.value);
      if loaded.None? {
        return Inconsistent;
      }
      var state := loaded.value;
      var parts := Recorded(state);
      RecordedExact(state);
      for k := 0 to |parts|
        invariant AllMatch(p, Contents(), state, parts[..k])
      {
        var part := parts[k];
        if !(&& state.generation in generations && part in generations[state.generation]
             && p.sha(generations[state.generation][part]) == state.hashes[part]) {
          assert !Matches(p, Contents(), state, part);
          return Inconsistent;
        }
        assert parts[..k + 1] == parts[..k] + [part];
      }
      assert parts[..|parts|] == parts;
      return Verified(state.generation);
    }

    /** Unlinks the three parts and the directory; stops at a part that is not there. */
    method Remove(p: Platform, active: nat, victim: nat, ghost todo: seq<nat>, ghost start: Root)
      returns (ok: bool, ghost at: Pruner)
      requires victim in generations
      requires Prunes(p, start, Looking, Contents(), Unlinking(active, victim, 0, todo))
      modifies this
      ensures ok <==> Whole(old(generations)[victim])
      ensures ok ==> Contents() == old(Contents()).(generations := old(generations) - {victim})
      ensures !ok ==> victim in generations
      ensures !ok ==> Contents() == old(Contents()).(generations := old(generations)[victim := generations[victim]])
      ensures Prunes(p, start, Looking, Contents(), at) && (ok ==> at == Sweeping(active, todo))
    {
      ok, at := false, Unlinking(active, victim, 0, todo);
      var directory := generations[victim];
      assert generations == generations[victim := directory];
      for k := 0 to 3
        invariant Contents() == old(Contents()).(generations := old(generations)[victim := directory])
        invariant directory == old(generations)[victim] - (set i | 0 <= i < k :: PARTS[i])
        invariant forall i | 0 <= i < k :: PARTS[i] in old(generations)[victim]
        invariant at == Unlinking(active, victim, k, todo) && Prunes(p, start, Looking, Contents(), at)
      {
        if PARTS[k] !in directory {
          assert PARTS[k] !in old(generations)[victim];
          return;
        }
        ghost var before := Contents();
        directory := directory - {PARTS[k]};
        Overwritten(old(generations), victim, generations[victim], directory);
        generations := generations[victim := directory];
        PrunesOneMore(p, start, Looking, before, at, Contents(), Unlinking(active, victim, k + 1, todo));
        at := Unlinking(active, victim, k + 1, todo);
      }
      NothingButParts(old(generations)[victim]);
      ghost var emptied := Contents();
      generations := generations - {victim};
      assert generations == old(generations) - {victim};
      PrunesOneMore(p, start, Looking, emptied, at, Contents(), Sweeping(active, todo));
      ok, at := true, Sweeping(active, todo);
    }

    /** One directory of the sweep. */
    method Visit(p: Platform, active: nat, g: nat, ghost todo: seq<nat>, ghost start: Root)
      returns (ok: bool, ghost at: Pruner)
      requires g in generations && |todo| > 0 && todo[0] == g
      requires Prunes(p, start, Looking, Contents(), Sweeping(active, todo))
      modifies this
      ensures ok <==> g == active || Whole(old(generations)[g])
      ensures ok ==> Contents() == old(Contents()).(
        generations := old(generations) - if g == active then {} else {g})
      ensures !ok ==> g != active && g in generations
      ensures !ok ==> Contents() == old(Contents()).(generations := old(generations)[g := generations[g]])
      ensures Prunes(p, start, Looking, Contents(), at) && (ok ==> at == Sweeping(active, todo[1..]))
    {
      if g == active {
        ok, at := true, Sweeping(active, todo[1..]);
        PrunesOneMore(p, start, Looking, Contents(), Sweeping(active, todo), Contents(), at);
        assert generations == generations - {};
      } else {
        PrunesOneMore(p, start, Looking, Contents(), Sweeping(active, todo), Contents(), Unlinking(active, g, 0, todo[1..]));
        ok, at := Remove(p, active, g, todo[1..], start);
      }
    }

    method Sweep(p: Platform, active: nat, listing: seq<nat>, ghost start: Root) returns (ok: bool, ghost at: Pruner)
      requires Lists(listing, generations)
      requires Prunes(p, start, Looking, Contents(), Sweeping(active, listing))
      modifies this
      ensures (candidates, next, json) == old((candidates, next, json))
      ensures ok <==> OthersWhole(old(generations), active)
      ensures active in old(generations) ==> active in generations && generations[active] == old(generations)[active]
      ensures ok ==> generations == Only(old(generations), active)
      ensures Prunes(p, start, Looking, Contents(), at) && (ok ==> at == Swept)
    {
      at := Sweeping(active, listing);
      ghost var were := generations;
      LeftNone(were, listing, active);
      for k := 0 to |listing|
        invariant (candidates, next, json) == old((candidates, next, json))
        invariant generations == Left(were, listing, k, active) && AllWhole(were, listing, k, active)
        invariant at == Sweeping(active, listing[k..]) && Prunes(p, start, Looking, Contents(), at)
      {
        LeftNext(were, listing, k, active);
        ok, at := Visit(p, active, listing[k], listing[k..], start);
        if !ok {
          SweepStops(were, listing, k, active);
          return;
        }
        WholeSoFar(were, listing, k, active);
      }
      AllButActive(listing, active, were);
      PrunesOneMore(p, start, Looking, Contents(), at, Contents(), Swept);
      ok, at := true, Swept;
    }

    /**
     Given a record, a pruner leaves the generation it names as it is and, unless it meets an
     incomplete one, removes every other. `listing` is what the directory listing answered.
     */
    method Prune(p: Platform, listing: seq<nat>) returns (ok: bool, ghost at: Pruner)
      requires Lists(listing, generations)
      modifies this
      ensures (candidates, next, json) == old((candidates, next, json))
      ensures json.None? || p.load(json.value).None? ==> !ok && generations == old(generations)
      ensures json.Some? && p.load(json.value).Some? ==>
        var active := p.load(json.value).value.generation;
        && (ok <==> OthersWhole(old(generations), active))
        && (active in old(generations) ==> active in generations && generations[active] == old(generations)[active])
        && (ok ==> generations == Only(old(generations), active))
      ensures Prunes(p, old(Contents()), Looking, Contents(), at) && (ok ==> at == Swept)
    {
      ok, at := false, Looking;
      PrunesNothing(p, Contents(), Looking);
      if json.None? || p.load(json.value).None? {
        return;
      }
      var active := p.load(json.value).value.generation;
      PrunesOneMore(p, Contents(), Looking, Contents(), Looking, Contents(), Sweeping(active, listing));
      ok, at := Sweep(p, active, listing, Contents());
    }
  }

  // ----- the pruner's sweep -----

  /** What the sweep leaves once it is through the first `k` names of the listing. */
  ghost function Left(generations: map<nat, Directory>, listing: seq<nat>, k: nat, active: nat): map<nat, Directory>
    requires k <= |listing|
  {
    generations - set i | 0 <= i < k && listing[i] != active :: listing[i]
  }

  ghost predicate AllWhole(generations: map<nat, Directory>, listing: seq<nat>, k: nat, active: nat)
    requires k <= |listing|
  {
    forall i | 0 <= i < k :: listing[i] != active ==> listing[i] in generations && Whole(generations[listing[i]])
  }

  lemma LeftNone(generations: map<nat, Directory>, listing: seq<nat>, active: nat)
    ensures listing[0..] == listing && Left(generations, listing, 0, active) == generations
    ensures AllWhole(generations, listing, 0, active)
  {
  }

  lemma WholeSoFar(generations: map<nat, Directory>, listing: seq<nat>, k: nat, active: nat)
    requires k < |listing| && AllWhole(generations, listing, k, active)
    requires listing[k] in generations && (listing[k] == active || Whole(generations[listing[k]]))
    ensures AllWhole(generations, listing, k + 1, active)
  {
  }

  lemma SweepStops(generations: map<nat, Directory>, listing: seq<nat>, k: nat, active: nat)
    requires k < |listing| && listing[k] in generations && listing[k] != active && !Whole(generations[listing[k]])
    ensures !OthersWhole(generations, active)
  {
  }

  lemma LeftNext(generations: map<nat, Directory>, listing: seq<nat>, k: nat, active: nat)
    requires k < |listing| && Lists(listing, generations)
    ensures var g, left := listing[k], Left(generations, listing, k, active);
      && g in left && left[g] == generations[g] && g in generations
      && (active in generations ==> active in left && left[active] == generations[active])
      && Left(generations, listing, k + 1, active) == left - if g == active then {} else {g}
    ensures listing[k..][1..] == listing[k + 1..]
  {
  }

  lemma AllButActive(listing: seq<nat>, active: nat, generations: map<nat, Directory>)
    requires Lists(listing, generations) && AllWhole(generations, listing, |listing|, active)
    ensures Left(generations, listing, |listing|, active) == Only(generations, active) && OthersWhole(generations, active)
  {
  }

  lemma EachPart(part: Part)
    ensures part == PARTS[0] || part == PARTS[1] || part == PARTS[2]
  {
  }

  lemma NothingButParts(directory: Directory)
    ensures directory - (set i | 0 <= i < 3 :: PARTS[i]) == map[]
    ensures (forall i | 0 <= i < 3 :: PARTS[i] in directory) <==> Whole(directory)
  {
    forall part | part in directory
      ensures exists i | 0 <= i < 3 :: PARTS[i] == part
    {
      EachPart(part);
    }
    assert PARTS[0] == Main && PARTS[1] == Daily && PARTS[2] == Bytecode;
  }

  lemma PrunesNothing(p: Platform, r: Root, at: Pruner)
    ensures Prunes(p, r, at, r, at)
  {
    ReachesItself(PrunerSteps(p), (r, at));
  }

  lemma PrunesOneMore(p: Platform, r: Root, at: Pruner, r1: Root, at1: Pruner, r2: Root, at2: Pruner)
    requires Prunes(p, r, at, r1, at1) && PruneStep(p, r1, at1, r2, at2)
    ensures Prunes(p, r, at, r2, at2)
  {
    ReachesOneMore(PrunerSteps(p), (r, at), (r1, at1), (r2, at2));
  }

  // ----- the observer's parts -----

  lemma RecordedExact(state: State)
    ensures forall part :: part in Recorded(state) <==> part in state.hashes
  {
    forall part: Part
      ensures part in Recorded(state) <==> part in state.hashes
    {
      EachPart(part);
    }
  }

  /** Where a generation is selected, an observer verifies it. */
  lemma SelectedIsVerified(p: Platform, r: Root, n: nat)
    requires Selects(p, r, n)
    ensures AllMatch(p, r, StateOf(p, n), Recorded(StateOf(p, n)))
  {
    CompleteHolds(n, 3);
    forall part: Part
      ensures part in StateOf(p, n).hashes && Matches(p, r, StateOf(p, n), part)
    {
      EachPart(part);
    }
  }

  // ----- the publisher's writes -----

  lemma NewPart(n: nat, k: nat)
    requires k < 3
    ensures PARTS[k] !in FirstParts(n, k)
    ensures FirstParts(n, k)[PARTS[k] := Data(n, PARTS[k])] == FirstParts(n, k + 1)
  {
    CompleteHolds(n, k);
  }

  lemma Overwritten<K, V>(m: map<K, V>, k: K, u: V, v: V)
    ensures m[k := u][k := v] == m[k := v]
  {
  }

  lemma PartFilled(candidates: map<nat, Directory>, n: nat, k: nat)
    requires k < 3
    ensures var before, data := candidates[n := FirstParts(n, k)], Data(n, PARTS[k]);
      var empty := before[n := before[n][PARTS[k] := ""]];
      && empty[n := empty[n][PARTS[k] := data]] == candidates[n := FirstParts(n, k + 1)]
      && before[n := before[n][PARTS[k] := data]] == candidates[n := FirstParts(n, k + 1)]
  {
    NewPart(n, k);
    Overwritten(FirstParts(n, k), PARTS[k], "", Data(n, PARTS[k]));
  }

  lemma PublishesNothing(p: Platform, n: nat, r: Root, at: Publisher)
    ensures Publishes(p, n, r, at, r, at)
  {
    ReachesItself(PublisherSteps(p, n), (r, at));
  }

  lemma PublishesOneMore(p: Platform, n: nat, r: Root, at: Publisher, r1: Root, at1: Publisher, r2: Root, at2: Publisher)
    requires Publishes(p, n, r, at, r1, at1) && PublishStep(p, n, r1, at1, r2, at2)
    ensures Publishes(p, n, r, at, r2, at2)
  {
    ReachesOneMore(PublisherSteps(p, n), (r, at), (r1, at1), (r2, at2));
  }

  /** Writing a text in one go is one of the ways to write it. */
  lemma InOneGo(text: string)
    ensures text != "" ==> 1 <= |text| && text[|text|..] == "" && "" + text[..|text|] == text
  {
  }

  lemma PublishesOnePart(p: Platform, n: nat, k: nat, start: Root, r: Root)
    requires k < 3 && n in r.candidates && r.candidates[n] == FirstParts(n, k)
    requires Publishes(p, n, start, Begin, r, Filling(k))
    ensures Publishes(p, n, start, Begin, WithPart(r, n, PARTS[k], Data(n, PARTS[k])), Filling(k + 1))
  {
    NewPart(n, k);
    var data := Data(n, PARTS[k]);
    var empty, full := WithPart(r, n, PARTS[k], ""), WithPart(r, n, PARTS[k], data);
    NothingYet(data);
    Overwritten(r.candidates, n, r.candidates[n][PARTS[k] := ""], r.candidates[n][PARTS[k] := data]);
    Overwritten(r.candidates[n], PARTS[k], "", data);
    assert WithPart(empty, n, PARTS[k], data) == full;
    InOneGo(data);
    PublishesOneMore(p, n, start, Begin, r, Filling(k), empty, Writing(k, data));
    PublishesOneMore(p, n, start, Begin, empty, Writing(k, data), full, Writing(k, ""));
    PublishesOneMore(p, n, start, Begin, full, Writing(k, ""), full, Filling(k + 1));
  }

  lemma PublishesRecord(p: Platform, n: nat, start: Root, r: Root)
    requires Publishes(p, n, start, Begin, r, Renamed) && r.next.None?
    ensures Publishes(p, n, start, Begin, r.(json := Some(p.dump(StateOf(p, n)))), Finished)
  {
    var record := p.dump(StateOf(p, n));
    var empty, full := r.(next := Some("")), r.(next := Some(record));
    InOneGo(record);
    PublishesOneMore(p, n, start, Begin, r, Renamed, empty, Recording(record));
    if record != "" {
      PublishesOneMore(p, n, start, Begin, empty, Recording(record), full, Recording(""));
    }
    PublishesOneMore(p, n, start, Begin, full, Recording(""), r.(json := Some(record)), Finished);
  }
}
