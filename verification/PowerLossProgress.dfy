/** A publisher nobody stops goes all the way, so the moments the other results speak of are reached. */
module PowerLossProgress {
  import opened Text
  import opened Publication
  import opened Runs
  import opened PowerLoss
  import opened PowerLossSafety
  import opened PowerLossPrune

  /** Nothing stands in the way of publishing generation `n`. */
  ghost predicate Room(entries: map<RootName, nat>, n: nat) {
    Candidate(n) !in entries && Generation(n) !in entries && Next !in entries
  }

  lemma Onwards(p: Platform, n: nat, d0: Disk, d: Disk, at: Publisher, d': Disk, at': Publisher)
    requires Publishes(p, n, d0, d, at) && PublishStep(p, n, d, at, d', at')
    ensures Publishes(p, n, d0, d', at')
  {
    ReachesOneMore(PublisherSteps(p, n), (d0, Publisher.Begin), (d, at), (d', at'));
  }

  lemma NewInode(d: Disk) returns (x: nat)
    ensures x !in d.dirs && x !in d.files
  {
    x := Bounded(d.dirs.Keys + d.files.Keys);
  }

  lemma AllAtOnce(text: string)
    ensures text != "" ==> 1 <= |text| && text[..|text|] == text && text[|text|..] == ""
  {
  }

  /** A candidate of that name, a generation with something in it, a half-written record: at each of them a publisher stops. */
  lemma ObstaclesStopIt(p: Platform, n: nat, d: Disk, at: Publisher, d': Disk, at': Publisher)
    requires PublishStep(p, n, d, at, d', at')
    ensures at.Begin? ==> Candidate(n) !in d.root.View()
    ensures at.Filled? && Generation(n) in d.root.View() ==>
      var x := d.root.View()[Generation(n)]; x in d.dirs && d.dirs[x].View() == map[]
    ensures at.Settled? ==> Next !in d.root.View()
    ensures at.Filling? && at.done < 3 ==> at.dir in d.dirs && PARTS[at.done] !in d.dirs[at.dir].View()
  {
  }

  // ----- what a loss can do -----

  /** After one change more a loss leaves what it could leave before, or that with the change; nothing else. */
  lemma RecoversThen<Name>(f: Folder<Name>, c: Change<Name>, entries: map<Name, nat>)
    ensures f.Then(c).Recovers(entries) <==> exists e :: f.Recovers(e) && (entries == e || entries == c.On(e))
  {
    var g, n := f.Then(c), |f.pending|;
    assert g.pending[..n] == f.pending && g.pending[n] == c;
    if g.Recovers(entries) {
      var keep: seq<bool> :| |keep| == |g.pending| && Keeping(g.durable, g.pending, keep) == entries;
      assert f.Recovers(Keeping(f.durable, f.pending, keep[..n]));
    }
    if e :| f.Recovers(e) && (entries == e || entries == c.On(e)) {
      var keep: seq<bool> :| |keep| == n && Keeping(f.durable, f.pending, keep) == e;
      assert (keep + [entries == c.On(e)])[..n] == keep;
      assert Keeping(g.durable, g.pending, keep + [entries == c.On(e)]) == entries;
    }
  }

  /** After a sync a loss leaves what programs see. */
  lemma RecoversSynced<Name>(f: Folder<Name>, entries: map<Name, nat>)
    ensures f.Sync().Recovers(entries) <==> entries == f.View()
  {
    var g := f.Sync();
    if entries == f.View() {
      assert Keeping(g.durable, g.pending, []) == entries;
    }
  }

  /** The file that a publisher is writing. */
  function InHand(at: Publisher): nat
    requires at.Writing? || at.Recording?
  {
    if at.Writing? then at.file else at.file
  }

  /** What has been written and not synced yet can be anything after a loss; once synced it is what was written. */
  lemma WritesCanBeLost(p: Platform, n: nat, d: Disk, at: Publisher, d': Disk, at': Publisher, im: Image, text: string)
    requires (at.Writing? || at.Recording?) && PublishStep(p, n, d, at, d', at') && CanRecover(d', im)
    ensures at.left != "" ==> CanRecover(d', im.(files := im.files[InHand(at) := text]))
    ensures at.left == "" ==> im.files[InHand(at)] == d.files[InHand(at)].content
  {
    var f := InHand(at);
    assert f in d'.files && d'.files[f].synced == (at.left == "");
    assert at.left == "" ==> d'.files[f].content == d.files[f].content;
    var other := im.(files := im.files[f := text]);
    assert other.files.Keys == im.files.Keys;
  }

  // ----- the candidate -----

  /** The parts from the `k`-th on are still to come. */
  ghost predicate PartsLeft(d: Disk, x: nat, k: nat) {
    x in d.dirs && forall i | k <= i < 3 :: PARTS[i] !in d.dirs[x].View()
  }

  lemma PartCreated(d: Disk, x: nat, k: nat, f: nat)
    requires k < 3 && PartsLeft(d, x, k)
    ensures PartsLeft(d.(dirs := d.dirs[x := d.dirs[x].Then(Link(PARTS[k], f))], files := d.files[f := File("", false)]), x, k + 1)
  {
    ViewThen(d.dirs[x], Link(PARTS[k], f));
  }

  lemma OnePart(p: Platform, n: nat, d0: Disk, d: Disk, x: nat, k: nat) returns (d': Disk)
    requires k < 3 && PartsLeft(d, x, k) && Publishes(p, n, d0, d, Publisher.Filling(x, k))
    ensures PartsLeft(d', x, k + 1) && Publishes(p, n, d0, d', Publisher.Filling(x, k + 1)) && d'.root == d.root
  {
    var f := NewInode(d);
    var data := Data(n, PARTS[k]);
    var made := d.(dirs := d.dirs[x := d.dirs[x].Then(Link(PARTS[k], f))], files := d.files[f := File("", false)]);
    Onwards(p, n, d0, d, Publisher.Filling(x, k), made, Publisher.Writing(x, k, f, data));
    PartCreated(d, x, k, f);
    AllAtOnce(data);
    var whole := Appended(made, f, data[..|data|]);
    Onwards(p, n, d0, made, Publisher.Writing(x, k, f, data), whole, Publisher.Writing(x, k, f, ""));
    d' := Synced(whole, f);
    Onwards(p, n, d0, whole, Publisher.Writing(x, k, f, ""), d', Publisher.Filling(x, k + 1));
  }

  lemma CandidateMade(p: Platform, n: nat, d0: Disk) returns (d: Disk, x: nat)
    requires Room(d0.root.View(), n)
    ensures Publishes(p, n, d0, d, Publisher.Filling(x, 0)) && PartsLeft(d, x, 0)
    ensures d.root == d0.root.Then(Link(Candidate(n), x))
  {
    x := NewInode(d0);
    ReachesItself(PublisherSteps(p, n), (d0, Publisher.Begin));
    d := Changed(d0, Link(Candidate(n), x)).(dirs := d0.dirs[x := Folder(map[], [])]);
    Onwards(p, n, d0, d0, Publisher.Begin, d, Publisher.Filling(x, 0));
    NothingPending(d.dirs[x]);
  }

  lemma {:induction false} PartsFilled(p: Platform, n: nat, d0: Disk, d: Disk, x: nat, k: nat) returns (d': Disk)
    requires k <= 3 && Publishes(p, n, d0, d, Publisher.Filling(x, k)) && PartsLeft(d, x, k)
    ensures Publishes(p, n, d0, d', Publisher.Filling(x, 3)) && x in d'.dirs && d'.root == d.root
    decreases 3 - k
  {
    if k == 3 {
      d' := d;
    } else {
      d' := OnePart(p, n, d0, d, x, k);
      d' := PartsFilled(p, n, d0, d', x, k + 1);
    }
  }

  lemma CandidateFilled(p: Platform, n: nat, d0: Disk) returns (d: Disk, x: nat)
    requires Room(d0.root.View(), n)
    ensures Publishes(p, n, d0, d, Publisher.Filled(x)) && d.root == d0.root.Then(Link(Candidate(n), x))
  {
    var made, filled;
    made, x := CandidateMade(p, n, d0);
    filled := PartsFilled(p, n, d0, made, x, 0);
    d := filled.(dirs := filled.dirs[x := filled.dirs[x].Sync()]);
    Onwards(p, n, d0, filled, Publisher.Filling(x, 3), d, Publisher.Filled(x));
  }

  // ----- the generation -----

  lemma GenerationSettled(p: Platform, n: nat, d0: Disk) returns (d: Disk, x: nat)
    requires Room(d0.root.View(), n)
    ensures Publishes(p, n, d0, d, Publisher.Settled(x)) && Next !in d.root.View()
  {
    d, x := CandidateFilled(p, n, d0);
    ViewThen(d0.root, Link(Candidate(n), x));
    var renamed := Changed(d, Move(Candidate(n), Generation(n), x));
    Onwards(p, n, d0, d, Publisher.Filled(x), renamed, Publisher.Renamed(x));
    ViewThen(d.root, Move(Candidate(n), Generation(n), x));
    d := renamed.(root := renamed.root.Sync());
    NothingPending(d.root);
    Onwards(p, n, d0, renamed, Publisher.Renamed(x), d, Publisher.Settled(x));
  }

  // ----- the record -----

  lemma RecordWritten(p: Platform, n: nat, d0: Disk) returns (d: Disk, x: nat, f: nat)
    requires Room(d0.root.View(), n)
    ensures Publishes(p, n, d0, d, Publisher.Recorded(x, f))
  {
    d, x := GenerationSettled(p, n, d0);
    f := NewInode(d);
    var record := p.dump(StateOf(p, n));
    var made := Changed(d, Link(Next, f)).(files := d.files[f := File("", false)]);
    Onwards(p, n, d0, d, Publisher.Settled(x), made, Publisher.Recording(x, f, record));
    AllAtOnce(record);
    var whole := if record == "" then made else Appended(made, f, record[..|record|]);
    if record != "" {
      Onwards(p, n, d0, made, Publisher.Recording(x, f, record), whole, Publisher.Recording(x, f, ""));
    }
    d := Synced(whole, f);
    Onwards(p, n, d0, whole, Publisher.Recording(x, f, ""), d, Publisher.Recorded(x, f));
  }

  /**
   From every store that has room for the generation, a publisher can come to the moment between
   replacing state.json and syncing the directory, and from there to its end.
   */
  lemma PublisherFinishes(p: Platform, n: nat, d0: Disk) returns (d: Disk, at: Publisher, d': Disk, at': Publisher)
    requires Room(d0.root.View(), n)
    ensures at.Replaced? && Publishes(p, n, d0, d, at)
    ensures at'.Finished? && PublishStep(p, n, d, at, d', at') && Publishes(p, n, d0, d', at')
  {
    var before, x, f := RecordWritten(p, n, d0);
    d, at := Changed(before, Move(Next, Json, f)), Publisher.Replaced(x, f);
    Onwards(p, n, d0, before, Publisher.Recorded(x, f), d, at);
    d', at' := d.(root := d.root.Sync()), Publisher.Finished(x);
    Onwards(p, n, d0, d, at, d', at');
  }

  /** So a publisher killed at the wrong moment, a pruner after it and a loss of power do break a published store. */
  lemma PublishedStoreCanBreak(p: Platform, n: nat, m: nat, d0: Disk)
    returns (d: Disk, at: Publisher, d': Disk, at': Pruner, im: Image)
    requires p.Honest() && Anchored(p, d0, m) && Room(d0.root.View(), n)
    ensures Publishes(p, n, d0, d, at) && Prunes(p, d, d', at') && CanRecover(d', im) && !ImageConsistent(p, im)
  {
    var finished, end;
    d, at, finished, end := PublisherFinishes(p, n, d0);
    RunKeeps(p, n, Some(m), d0, d, at);
    at', d', im := PruningTooEarly(p, n, m, d0, d, at.dir, at.file);
  }
}
