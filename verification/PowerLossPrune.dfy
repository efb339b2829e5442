/** Pruning and the loss of power: when it is safe to prune after a publisher was killed. */
module PowerLossPrune {
  import opened Text
  import opened Publication
  import opened Runs
  import opened PowerLoss
  import opened PowerLossSafety

  /** Every generation the root lists is a directory of its own. */
  ghost predicate WellFormed(d: Disk) {
    var entries := d.root.View();
    && (forall g: nat | Generation(g) in entries :: entries[Generation(g)] in d.dirs)
    && forall g: nat, h: nat | Generation(g) in entries && Generation(h) in entries ::
         entries[Generation(g)] == entries[Generation(h)] ==> g == h
  }

  /** state.json is missing, or names a generation that is there, whole. */
  ghost predicate ImageConsistent(p: Platform, im: Image) {
    Json in im.root ==> exists k: nat :: ImageSelects(p, im, k)
  }

  // ----- a pruner on a store that selects -----

  /** Whatever a loss keeps, state.json can only be a record of generation `m`. */
  ghost predicate OnlyRecord(p: Platform, d: Disk, m: nat) {
    && (Json in d.root.durable ==> RecordStored(p, d, d.root.durable[Json], m))
    && forall c <- d.root.pending :: c.Touches(Json) ==>
         c.Move? && c.name == Json && c.source != Json && RecordStored(p, d, c.inode, m)
  }

  /** Programs see `m` selected, and it is there for good; with `sure`, so is a record of it. */
  ghost predicate Offered(p: Platform, d: Disk, m: nat, sure: bool) {
    && OnlyRecord(p, d, m) && Json in d.root.View() && (sure ==> Json in d.root.durable)
    && Generation(m) in d.root.durable && d.root.Fixed(Generation(m)) && Stored(d, d.root.durable[Generation(m)], m)
  }

  lemma AnchoredIsOffered(p: Platform, d: Disk, m: nat)
    requires Anchored(p, d, m)
    ensures Offered(p, d, m, true)
  {
    FixedMeansSame(d.root, Json);
  }

  /** What becomes of state.json when some of the pending changes are kept. */
  lemma {:induction false} RecordKept(
      p: Platform, d: Disk, m: nat, entries: map<RootName, nat>, changes: seq<Change<RootName>>, keep: seq<bool>)
    requires |keep| == |changes| && (Json in entries ==> RecordStored(p, d, entries[Json], m))
    requires forall c <- changes :: c.Touches(Json) ==>
      c.Move? && c.name == Json && c.source != Json && RecordStored(p, d, c.inode, m)
    ensures Json in entries ==> Json in Keeping(entries, changes, keep)
    ensures Json in Keeping(entries, changes, keep) ==> RecordStored(p, d, Keeping(entries, changes, keep)[Json], m)
    decreases |changes|
  {
    if changes != [] {
      var last := |changes| - 1;
      RecordKept(p, d, m, entries, changes[..last], keep[..last]);
      assert changes[last] in changes;
    }
  }

  lemma OfferedView(p: Platform, d: Disk, m: nat, sure: bool)
    requires Offered(p, d, m, sure)
    ensures RecordStored(p, d, d.root.View()[Json], m)
  {
    RecordKept(p, d, m, d.root.durable, d.root.pending, PowerLoss.All(|d.root.pending|));
  }

  lemma OfferedRecovers(p: Platform, d: Disk, m: nat, sure: bool, im: Image)
    requires Offered(p, d, m, sure) && CanRecover(d, im)
    ensures Json in im.root ==> ImageSelects(p, im, m)
    ensures sure ==> Json in im.root
  {
    var keep: seq<bool> :| |keep| == |d.root.pending| && Keeping(d.root.durable, d.root.pending, keep) == im.root;
    RecordKept(p, d, m, d.root.durable, d.root.pending, keep);
    FixedMeansSame(d.root, Generation(m));
    StoredRecovers(d, d.root.durable[Generation(m)], m, im);
  }

  ghost predicate PrunerKnows(p: Platform, m: nat, sure: bool, d: Disk, at: Pruner) {
    && Offered(p, d, m, sure) && WellFormed(d)
    && match at
       case Looking => true
       case Sweeping(active, _) => active == m
       case Unlinking(active, victim, _, _) => active == m && victim != m
       case Swept => true
  }

  lemma LookingFindsSelected(p: Platform, m: nat, sure: bool, d: Disk)
    requires p.Honest() && Offered(p, d, m, sure)
    ensures Active(p, d) == Some(StateOf(p, m))
  {
    OfferedView(p, d, m, sure);
  }

  lemma SyncKeeps(p: Platform, m: nat, sure: bool, d: Disk)
    requires Offered(p, d, m, sure) && WellFormed(d)
    ensures Offered(p, d.(root := d.root.Sync()), m, sure) && WellFormed(d.(root := d.root.Sync()))
  {
    var d' := d.(root := d.root.Sync());
    OfferedView(p, d, m, sure);
    FixedMeansSame(d.root, Generation(m));
    NothingPending(d'.root);
    StoredElsewhere(d, d', d.root.durable[Generation(m)], m);
  }

  lemma UnlinkKeeps(p: Platform, m: nat, sure: bool, victim: nat, part: Part, d: Disk)
    requires Offered(p, d, m, sure) && WellFormed(d) && victim != m && Generation(victim) in d.root.View()
    ensures var x := d.root.View()[Generation(victim)];
      var d' := d.(dirs := d.dirs[x := d.dirs[x].Then(Unlink(part))]);
      Offered(p, d', m, sure) && WellFormed(d')
  {
    FixedMeansSame(d.root, Generation(m));
    var x, y := d.root.View()[Generation(victim)], d.root.durable[Generation(m)];
    assert x != y;
    var d' := d.(dirs := d.dirs[x := d.dirs[x].Then(Unlink(part))]);
    forall i | 0 <= i < 3
      ensures PartStored(d', d'.dirs[y].durable, m, PARTS[i])
    {
      assert PartStored(d, d.dirs[y].durable, m, PARTS[i]);
    }
  }

  lemma RemoveKeeps(p: Platform, m: nat, sure: bool, victim: nat, d: Disk)
    requires Offered(p, d, m, sure) && WellFormed(d) && victim != m
    ensures var d' := Changed(d, Unlink(Generation(victim))); Offered(p, d', m, sure) && WellFormed(d')
  {
    var d' := Changed(d, Unlink(Generation(victim)));
    ViewThen(d.root, Unlink(Generation(victim)));
    StoredElsewhere(d, d', d.root.durable[Generation(m)], m);
  }

  lemma PruneStepKeeps(p: Platform, m: nat, sure: bool, d: Disk, at: Pruner, d': Disk, at': Pruner)
    requires p.Honest() && PrunerKnows(p, m, sure, d, at) && PruneStep(p, d, at, d', at')
    ensures PrunerKnows(p, m, sure, d', at')
  {
    match at
    case Looking => LookingFindsSelected(p, m, sure, d);
    case Sweeping(_, todo) => SyncKeeps(p, m, sure, d);
    case Unlinking(_, victim, done, _) =>
      if done < 3 {
        UnlinkKeeps(p, m, sure, victim, PARTS[done], d);
      } else {
        RemoveKeeps(p, m, sure, victim, d);
      }
  }

  lemma PruneRunKeeps(p: Platform, m: nat, sure: bool, d0: Disk, d: Disk, at: Pruner)
    requires p.Honest() && Offered(p, d0, m, sure) && WellFormed(d0) && Prunes(p, d0, d, at)
    ensures PrunerKnows(p, m, sure, d, at)
  {
    ghost var holds := (x: (Disk, Pruner)) => PrunerKnows(p, m, sure, x.0, x.1);
    forall x, y | holds(x) && PrunerSteps(p)(x, y)
      ensures holds(y)
    {
      PruneStepKeeps(p, m, sure, x.0, x.1, y.0, y.1);
    }
    Throughout(PrunerSteps(p), holds, (d0, Pruner.Looking), (d, at));
  }

  /** Pruning a store that durably selects a generation never puts that generation at risk. */
  lemma PruningSurvivesPowerLoss(p: Platform, m: nat, d0: Disk, d: Disk, at: Pruner, im: Image)
    requires p.Honest() && Anchored(p, d0, m) && WellFormed(d0) && Prunes(p, d0, d, at) && CanRecover(d, im)
    ensures ImageSelects(p, im, m)
  {
    AnchoredIsOffered(p, d0, m);
    PruneRunKeeps(p, m, true, d0, d, at);
    OfferedRecovers(p, d, m, true, im);
  }

  /** Nor does pruning a store whose first record is still pending: a loss keeps that record or leaves none. */
  lemma PruningFirstRecord(p: Platform, m: nat, d0: Disk, d: Disk, at: Pruner, im: Image)
    requires p.Honest() && Offered(p, d0, m, false) && WellFormed(d0) && Prunes(p, d0, d, at) && CanRecover(d, im)
    ensures Json in im.root ==> ImageSelects(p, im, m)
  {
    PruneRunKeeps(p, m, false, d0, d, at);
    OfferedRecovers(p, d, m, false, im);
  }

  /** Without a record there is nothing to go by, and a pruner does nothing. */
  lemma NothingToPrune(p: Platform, d0: Disk, d: Disk, at: Pruner)
    requires Unpublished(d0) && Prunes(p, d0, d, at)
    ensures d == d0
  {
    FixedMeansSame(d0.root, Json);
    ghost var holds := (x: (Disk, Pruner)) => x == (d0, Pruner.Looking);
    Throughout(PrunerSteps(p), holds, (d0, Pruner.Looking), (d, at));
  }

  // ----- a pruner after a publisher that was killed -----

  /** Every generation is where it was, except that `n` may be in a new directory. */
  ghost predicate Grown(d0: Disk, d: Disk, n: nat) {
    var entries := d.root.View();
    forall g: nat | Generation(g) in entries ::
      || SameAt(d0.root.View(), entries, Generation(g))
      || (g == n && entries[Generation(g)] in d.dirs && entries[Generation(g)] !in d0.dirs)
  }

  lemma GrownIsWellFormed(d0: Disk, d: Disk, n: nat)
    requires WellFormed(d0) && Extends(d0, d) && Grown(d0, d, n)
    ensures WellFormed(d)
  {
  }

  lemma UnsyncedGrown(p: Platform, n: nat, was: Option<nat>, d0: Disk, d: Disk, at: Publisher)
    requires Knows(p, n, was, d0, d, at) && (at.Begin? || at.Filling? || at.Writing? || at.Filled? || at.Renamed?)
    ensures Grown(d0, d, n)
  {
    if !at.Begin? {
      ViewThen(d0.root, Link(Candidate(n), at.dir));
      ViewThen(d0.root.Then(Link(Candidate(n), at.dir)), Move(Candidate(n), Generation(n), at.dir));
    }
  }

  lemma ListedIsGrown(d0: Disk, d: Disk, n: nat, x: nat, durable: map<RootName, nat>)
    requires Listed(d0, durable, n, x) && x in d.dirs
    requires forall g: nat :: SameAt(durable, d.root.View(), Generation(g))
    ensures Grown(d0, d, n)
  {
    forall g: nat | Generation(g) in d.root.View() && g != n
      ensures SameAt(d0.root.View(), d.root.View(), Generation(g))
    {
      assert SameAt(d0.root.View(), durable, Generation(g)) && SameAt(durable, d.root.View(), Generation(g));
    }
    assert SameAt(durable, d.root.View(), Generation(n));
  }

  /** A publisher leaves the tree of generations well formed wherever it stops. */
  lemma KilledPublisherLeavesTree(p: Platform, n: nat, was: Option<nat>, d0: Disk, d: Disk, at: Publisher)
    requires Base(p, d0, was) && WellFormed(d0) && Knows(p, n, was, d0, d, at)
    ensures WellFormed(d)
  {
    if at.Begin? || at.Filling? || at.Writing? || at.Filled? || at.Renamed? {
      UnsyncedGrown(p, n, was, d0, d, at);
    } else {
      NothingPending(Folder(d.root.durable, []));
      if at.Recording? || at.Recorded? {
        OnePending(d.root.durable, Link(Next, at.file));
      } else if at.Replaced? {
        TwoPending(d.root.durable, Link(Next, at.file), Move(Next, Json, at.file));
      }
      ListedIsGrown(d0, d, n, at.dir, d.root.durable);
    }
    GrownIsWellFormed(d0, d, n);
  }

  lemma OnePending<Name>(durable: map<Name, nat>, c: Change<Name>)
    ensures Folder(durable, [c]).View() == c.On(durable)
  {
    var none := Folder(durable, []);
    NothingPending(none);
    ViewThen(none, c);
    assert none.Then(c) == Folder(durable, [c]);
  }

  // ----- the one moment at which pruning is not safe -----

  function Numbers(s: set<nat>, bound: nat): (names: seq<nat>)
    requires forall n <- s :: n < bound
    ensures forall n <- s :: n in names
    ensures forall n <- names :: n in s
    ensures forall i, j | 0 <= i < j < |names| :: names[i] != names[j]
  {
    if bound == 0 then []
    else
      var last := bound - 1;
      if last in s then
        Numbers(s - {last}, last) + [last]
      else Numbers(s, last)
  }

  lemma {:induction false} Bounded(s: set<nat>) returns (bound: nat)
    ensures forall n <- s :: n < bound
    decreases s
  {
    if s == {} {
      bound := 0;
    } else {
      var m :| m in s;
      bound := Bounded(s - {m});
      assert forall n <- s :: n == m || n in s - {m};
      if bound <= m {
        bound := m + 1;
      }
    }
  }

  /** Directory listings come in any order: some listing begins with `m`. */
  lemma ListingFrom(entries: map<RootName, nat>, m: nat) returns (names: seq<nat>)
    requires Generation(m) in entries
    ensures Lists(names, entries) && |names| > 0 && names[0] == m
  {
    var others := (set name | name in entries && name.Generation? :: name.n) - {m};
    var bound := Bounded(others);
    names := [m] + Numbers(others, bound);
    forall n: nat
      ensures n in names <==> Generation(n) in entries
    {
      assert Generation(n) in entries && n != m ==> n in others;
    }
  }

  lemma {:induction false} NothingKept<Name>(entries: map<Name, nat>, changes: seq<Change<Name>>, keep: seq<bool>)
    requires |keep| == |changes| && forall i | 0 <= i < |keep| :: !keep[i]
    ensures Keeping(entries, changes, keep) == entries
    decreases |changes|
  {
    if changes != [] {
      var last := |changes| - 1;
      NothingKept(entries, changes[..last], keep[..last]);
    }
  }

  lemma DurableRecovers<Name>(folder: Folder<Name>)
    ensures folder.Recovers(folder.durable)
  {
    var keep := seq(|folder.pending|, _ => false);
    NothingKept(folder.durable, folder.pending, keep);
  }

  /** The pruner, told that `n` is selected, has unlinked the main part of generation `m`. */
  lemma FirstUnlink(p: Platform, n: nat, m: nat, d: Disk, y: nat) returns (at: Pruner)
    requires p.Honest() && m != n && Active(p, d) == Some(StateOf(p, n))
    requires Generation(m) in d.root.View() && d.root.View()[Generation(m)] == y && y in d.dirs
    requires Main in d.dirs[y].View()
    ensures Prunes(p, d, d.(dirs := d.dirs[y := d.dirs[y].Then(Unlink(Main))]), at)
  {
    var names := ListingFrom(d.root.View(), m);
    assert PARTS[0] == Main;
    var d' := d.(dirs := d.dirs[y := d.dirs[y].Then(Unlink(Main))]);
    var start, sweeping, unlinking := (d, Pruner.Looking), (d, Pruner.Sweeping(n, names)), (d, Pruner.Unlinking(n, m, 0, names[1..]));
    at := Pruner.Unlinking(n, m, 1, names[1..]);
    ReachesItself(PrunerSteps(p), start);
    ReachesOneMore(PrunerSteps(p), start, start, sweeping);
    ReachesOneMore(PrunerSteps(p), start, sweeping, unlinking);
    ReachesOneMore(PrunerSteps(p), start, unlinking, (d', at));
  }

  /** The power fails: the unlink is kept, the pending replacement of state.json is not. */
  function Lost(d: Disk, y: nat): Image
    requires y in d.dirs
  {
    Image(d.root.durable, map x | x in d.dirs :: if x == y then d.dirs[x].durable - {Main} else d.dirs[x].durable,
          map f | f in d.files :: d.files[f].content)
  }

  lemma LostRecovers(d: Disk, y: nat)
    requires y in d.dirs && d.dirs[y].pending == []
    ensures CanRecover(d.(dirs := d.dirs[y := d.dirs[y].Then(Unlink(Main))]), Lost(d, y))
  {
    var d' := d.(dirs := d.dirs[y := d.dirs[y].Then(Unlink(Main))]);
    DurableRecovers(d.root);
    forall x <- d'.dirs
      ensures d'.dirs[x].Recovers(Lost(d, y).dirs[x])
    {
      if x == y {
        OnePending(d.dirs[y].durable, Unlink(Main));
        assert d'.dirs[y] == Folder(d.dirs[y].durable, [Unlink(Main)]);
        assert |All(1)| == 1 && Keeping(d.dirs[y].durable, [Unlink(Main)], All(1)) == d.dirs[y].durable - {Main};
      } else {
        DurableRecovers(d.dirs[x]);
      }
    }
  }

  /**
   Killed between replacing state.json and syncing the directory, a publisher leaves a store that must
   not be pruned: the pruner takes the new record at its word and removes the old generation, while a
   loss of power can still bring the old record back.
   */
  lemma PruningTooEarly(p: Platform, n: nat, m: nat, d0: Disk, d: Disk, x: nat, f: nat)
    returns (at': Pruner, d': Disk, im: Image)
    requires p.Honest() && Anchored(p, d0, m) && Extends(d0, d) && ReplacementPending(p, n, Some(m), d0, d, x, f)
    ensures Prunes(p, d, d', at') && CanRecover(d', im) && !ImageConsistent(p, im)
  {
    var y := d0.root.durable[Generation(m)];
    TwoPending(d.root.durable, Link(Next, f), Move(Next, Json, f));
    ExtendsStored(d0, d, y, m);
    NothingPending(d.dirs[y]);
    assert PartStored(d, d.dirs[y].durable, m, PARTS[0]);
    d' := d.(dirs := d.dirs[y := d.dirs[y].Then(Unlink(Main))]);
    im := Lost(d, y);
    at' := FirstUnlink(p, n, m, d, y);
    LostRecovers(d, y);
    NotSelected(p, m, y, im);
  }

  /** What an image selects is what its state.json records. */
  lemma SelectionIsRecorded(p: Platform, k: nat, m: nat, im: Image)
    requires p.Honest() && ImageSelects(p, im, k) && im.files[im.root[Json]] == p.dump(StateOf(p, m))
    ensures k == m && Main in im.dirs[im.root[Generation(m)]]
  {
    assert p.load(p.dump(StateOf(p, k))) == Some(StateOf(p, k));
    assert PARTS[0] == Main;
  }

  lemma NotSelected(p: Platform, m: nat, y: nat, im: Image)
    requires p.Honest() && Json in im.root && im.root[Json] in im.files && im.files[im.root[Json]] == p.dump(StateOf(p, m))
    requires Generation(m) in im.root && im.root[Generation(m)] == y && y in im.dirs && Main !in im.dirs[y]
    ensures !ImageConsistent(p, im)
  {
    forall k: nat | ImageSelects(p, im, k)
      ensures false
    {
      SelectionIsRecorded(p, k, m, im);
    }
  }

  /** The first record of all, pending: programs see it, and a loss keeps it or leaves none. */
  lemma FirstRecordOffered(p: Platform, n: nat, d0: Disk, d: Disk, x: nat, f: nat)
    requires Unpublished(d0) && ReplacementPending(p, n, None, d0, d, x, f)
    ensures Offered(p, d, n, false)
  {
    TwoPending(d.root.durable, Link(Next, f), Move(Next, Json, f));
  }

  /** Everywhere but at the one moment, pruning is safe. */
  lemma PruningElsewhere(p: Platform, n: nat, was: Option<nat>, d0: Disk, d: Disk, at: Publisher, d': Disk, at': Pruner, im: Image)
    requires p.Honest() && Base(p, d0, was) && WellFormed(d0) && Knows(p, n, was, d0, d, at)
    requires !(at.Replaced? && was.Some?) && Prunes(p, d, d', at') && CanRecover(d', im)
    ensures ImageConsistent(p, im)
  {
    KilledPublisherLeavesTree(p, n, was, d0, d, at);
    if at.Replaced? {
      FirstRecordOffered(p, n, d0, d, at.dir, at.file);
      PruningFirstRecord(p, n, d, d', at', im);
    } else if at.Finished? {
      PruningSurvivesPowerLoss(p, n, d, d', at', im);
    } else {
      OldStays(p, n, was, d0, d, at);
      if was.Some? {
        PruningSurvivesPowerLoss(p, was.value, d, d', at', im);
      } else {
        NothingToPrune(p, d, d', at');
        BaseRecovers(p, d, None, im);
      }
    }
  }

  /**
   Pruning after a publisher was killed is safe against a loss of power, whatever it keeps, exactly
   unless the store had published before and the publisher was killed between replacing state.json
   and syncing the directory.
   */
  lemma PruningAfterKilledPublisher(p: Platform, n: nat, was: Option<nat>, d0: Disk, d: Disk, at: Publisher)
    requires p.Honest() && Base(p, d0, was) && WellFormed(d0) && Publishes(p, n, d0, d, at)
    ensures (forall d', at', im :: Prunes(p, d, d', at') && CanRecover(d', im) ==> ImageConsistent(p, im))
            <==> !(at.Replaced? && was.Some?)
  {
    RunKeeps(p, n, was, d0, d, at);
    if at.Replaced? && was.Some? {
      var at', d', im := PruningTooEarly(p, n, was.value, d0, d, at.dir, at.file);
    } else {
      forall d', at', im | Prunes(p, d, d', at') && CanRecover(d', im)
        ensures ImageConsistent(p, im)
      {
        PruningElsewhere(p, n, was, d0, d, at, d', at', im);
      }
    }
  }
}
