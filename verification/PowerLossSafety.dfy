/** What a loss of power during a publication leaves behind. */
module PowerLossSafety {
  import opened Text
  import opened Publication
  import opened Runs
  import opened PowerLoss

  // ----- folders -----

  lemma {:induction false} UntouchedKept<Name>(entries: map<Name, nat>, changes: seq<Change<Name>>, keep: seq<bool>, name: Name)
    requires |keep| == |changes| && forall c <- changes :: !c.Touches(name)
    ensures name in Keeping(entries, changes, keep) <==> name in entries
    ensures name in entries ==> Keeping(entries, changes, keep)[name] == entries[name]
    decreases |changes|
  {
    if changes != [] {
      var last := |changes| - 1;
      UntouchedKept(entries, changes[..last], keep[..last], name);
      assert changes[last] in changes;
    }
  }

  /** A fixed name means the same to the programs, on the disk, and after any loss. */
  lemma FixedMeansSame<Name>(folder: Folder<Name>, name: Name)
    requires folder.Fixed(name)
    ensures name in folder.View() <==> name in folder.durable
    ensures name in folder.durable ==> folder.View()[name] == folder.durable[name]
    ensures forall entries | folder.Recovers(entries) ::
      (name in entries <==> name in folder.durable) && (name in entries ==> entries[name] == folder.durable[name])
  {
    UntouchedKept(folder.durable, folder.pending, All(|folder.pending|), name);
    forall entries | folder.Recovers(entries)
      ensures (name in entries <==> name in folder.durable) && (name in entries ==> entries[name] == folder.durable[name])
    {
      var keep: seq<bool> :| |keep| == |folder.pending| && Keeping(folder.durable, folder.pending, keep) == entries;
      UntouchedKept(folder.durable, folder.pending, keep, name);
    }
  }

  lemma ViewThen<Name>(folder: Folder<Name>, c: Change<Name>)
    ensures folder.Then(c).View() == c.On(folder.View())
  {
    var n := |folder.pending|;
    assert (folder.pending + [c])[..n] == folder.pending && All(n + 1)[..n] == All(n);
  }

  lemma NothingPending<Name>(folder: Folder<Name>)
    requires folder.pending == []
    ensures folder.View() == folder.durable
    ensures forall entries | folder.Recovers(entries) :: entries == folder.durable
  {
  }

  // ----- what is safe on the disk -----

  /** The first `k` parts of generation `n` are in the directory, written and synced. */
  predicate Holds(d: Disk, entries: map<Part, nat>, n: nat, k: nat) {
    k <= 3 && forall i | 0 <= i < k :: PartStored(d, entries, n, PARTS[i])
  }

  predicate PartStored(d: Disk, entries: map<Part, nat>, n: nat, part: Part) {
    part in entries && entries[part] in d.files && d.files[entries[part]] == File(Data(n, part), true)
  }

  predicate Stored(d: Disk, x: nat, n: nat) {
    x in d.dirs && d.dirs[x].pending == [] && Holds(d, d.dirs[x].durable, n, 3)
  }

  predicate RecordStored(p: Platform, d: Disk, f: nat, n: nat) {
    f in d.files && d.files[f] == File(p.dump(StateOf(p, n)), true)
  }

  /** state.json and the generation it names are on the disk, and nothing pending touches either. */
  ghost predicate Anchored(p: Platform, d: Disk, m: nat) {
    && Json in d.root.durable && d.root.Fixed(Json) && RecordStored(p, d, d.root.durable[Json], m)
    && Generation(m) in d.root.durable && d.root.Fixed(Generation(m)) && Stored(d, d.root.durable[Generation(m)], m)
  }

  ghost predicate Unpublished(d: Disk) {
    Json !in d.root.durable && d.root.Fixed(Json)
  }

  /** `was` is what the store durably selects, if anything. */
  ghost predicate Base(p: Platform, d: Disk, was: Option<nat>) {
    match was
    case None => Unpublished(d)
    case Some(m) => Anchored(p, d, m)
  }

  predicate ImageIs(p: Platform, im: Image, was: Option<nat>) {
    match was
    case None => Json !in im.root
    case Some(m) => ImageSelects(p, im, m)
  }

  /** Nothing is unsynced. */
  predicate Durable(d: Disk) {
    && d.root.pending == [] && (forall x <- d.dirs :: d.dirs[x].pending == []) && (forall f <- d.files :: d.files[f].synced)
  }

  /** What programs see selected, if anything. */
  predicate Seen(p: Platform, d: Disk, was: Option<nat>) {
    var entries := d.root.View();
    match was
    case None => Json !in entries
    case Some(m) =>
      && Json in entries && entries[Json] in d.files && d.files[entries[Json]].content == p.dump(StateOf(p, m))
      && Generation(m) in entries && entries[Generation(m)] in d.dirs
      && var parts := d.dirs[entries[Generation(m)]].View();
      && forall part <- PARTS :: part in parts && parts[part] in d.files && d.files[parts[part]].content == Data(m, part)
  }

  /** A store with nothing unsynced durably selects what programs see. */
  lemma DurableIsBase(p: Platform, d: Disk, was: Option<nat>)
    requires Durable(d) && Seen(p, d, was)
    ensures Base(p, d, was)
  {
    NothingPending(d.root);
    if was.Some? {
      var y := d.root.durable[Generation(was.value)];
      NothingPending(d.dirs[y]);
      forall i | 0 <= i < 3
        ensures PartStored(d, d.dirs[y].durable, was.value, PARTS[i])
      {
        assert PARTS[i] in PARTS;
      }
    }
  }

  lemma StoredRecovers(d: Disk, x: nat, n: nat, im: Image)
    requires Stored(d, x, n) && CanRecover(d, im)
    ensures x in im.dirs
    ensures forall k | 0 <= k < 3 ::
      && PARTS[k] in im.dirs[x] && im.dirs[x][PARTS[k]] in im.files && im.files[im.dirs[x][PARTS[k]]] == Data(n, PARTS[k])
  {
    NothingPending(d.dirs[x]);
    assert d.dirs[x].Recovers(im.dirs[x]);
    forall k | 0 <= k < 3
      ensures PARTS[k] in im.dirs[x] && im.dirs[x][PARTS[k]] in im.files && im.files[im.dirs[x][PARTS[k]]] == Data(n, PARTS[k])
    {
      assert PartStored(d, d.dirs[x].durable, n, PARTS[k]);
    }
  }

  lemma BaseRecovers(p: Platform, d: Disk, was: Option<nat>, im: Image)
    requires Base(p, d, was) && CanRecover(d, im)
    ensures ImageIs(p, im, was)
  {
    FixedMeansSame(d.root, Json);
    if was.Some? {
      FixedMeansSame(d.root, Generation(was.value));
      StoredRecovers(d, d.root.durable[Generation(was.value)], was.value, im);
    }
  }

  // ----- what a publisher keeps -----

  /** Nothing that was there has been touched. */
  predicate Extends(d0: Disk, d: Disk) {
    && (forall x <- d0.dirs :: x in d.dirs && d.dirs[x] == d0.dirs[x])
    && (forall f <- d0.files :: f in d.files && d.files[f] == d0.files[f])
  }

  /** Generation `n` is in directory `x`, a new one, and every other generation is where it was. */
  ghost predicate Listed(d0: Disk, durable: map<RootName, nat>, n: nat, x: nat) {
    && Generation(n) in durable && durable[Generation(n)] == x && x !in d0.dirs
    && forall g: nat | g != n :: SameAt(d0.root.View(), durable, Generation(g))
  }

  /** The root directory is synced, with generation `n` in it and all the rest that matters as it was. */
  ghost predicate Rooted(d0: Disk, durable: map<RootName, nat>, n: nat, x: nat, was: Option<nat>) {
    && Listed(d0, durable, n, x)
    && SameAt(d0.root.durable, durable, Json)
    && (was.Some? ==> was.value != n && SameAt(d0.root.durable, durable, Generation(was.value)))
  }

  predicate SameAt(before: map<RootName, nat>, after: map<RootName, nat>, name: RootName) {
    (name in before <==> name in after) && (name in before ==> before[name] == after[name])
  }

  ghost predicate Knows(p: Platform, n: nat, was: Option<nat>, d0: Disk, d: Disk, at: Publisher) {
    && Extends(d0, d)
    && match at
       case Begin => d == d0
       case Filling(x, k) =>
         && x !in d0.dirs && x in d.dirs && Holds(d, d.dirs[x].View(), n, k)
         && d.root == d0.root.Then(Link(Candidate(n), x))
       case Writing(x, k, f, left) =>
         && x !in d0.dirs && x in d.dirs && k < 3 && Holds(d, d.dirs[x].View(), n, k)
         && d.root == d0.root.Then(Link(Candidate(n), x))
         && PARTS[k] in d.dirs[x].View() && d.dirs[x].View()[PARTS[k]] == f
         && f !in d0.files && f in d.files && d.files[f].content + left == Data(n, PARTS[k])
         && forall i | 0 <= i < k :: d.dirs[x].View()[PARTS[i]] != f
       case Filled(x) =>
         && x !in d0.dirs && Stored(d, x, n)
         && d.root == d0.root.Then(Link(Candidate(n), x))
       case Renamed(x) =>
         && x !in d0.dirs && Stored(d, x, n) && was != Some(n)
         && d.root == d0.root.Then(Link(Candidate(n), x)).Then(Move(Candidate(n), Generation(n), x))
       case Settled(x) =>
         Stored(d, x, n) && Rooted(d0, d.root.durable, n, x, was) && d.root.pending == []
       case Recording(x, f, left) =>
         && Stored(d, x, n) && Rooted(d0, d.root.durable, n, x, was) && d.root.pending == [Link(Next, f)]
         && f !in d0.files && f in d.files && d.files[f].content + left == p.dump(StateOf(p, n))
         && forall i | 0 <= i < 3 :: d.dirs[x].durable[PARTS[i]] != f
       case Recorded(x, f) =>
         && Stored(d, x, n) && Rooted(d0, d.root.durable, n, x, was) && d.root.pending == [Link(Next, f)]
         && RecordStored(p, d, f, n)
       case Replaced(x, f) => ReplacementPending(p, n, was, d0, d, x, f)
       case Finished(x) => Anchored(p, d, n) && Listed(d0, d.root.durable, n, x) && d.root.pending == []
  }

  ghost predicate ReplacementPending(p: Platform, n: nat, was: Option<nat>, d0: Disk, d: Disk, x: nat, f: nat) {
    && Stored(d, x, n) && Rooted(d0, d.root.durable, n, x, was)
    && d.root.pending == [Link(Next, f), Move(Next, Json, f)]
    && RecordStored(p, d, f, n)
  }

  lemma ExtendsStored(d0: Disk, d: Disk, x: nat, n: nat)
    requires Extends(d0, d) && Stored(d0, x, n)
    ensures Stored(d, x, n)
  {
    forall i | 0 <= i < 3
      ensures PartStored(d, d.dirs[x].durable, n, PARTS[i])
    {
      assert PartStored(d0, d0.dirs[x].durable, n, PARTS[i]);
    }
  }

  lemma BeginKeeps(p: Platform, n: nat, was: Option<nat>, d: Disk, d': Disk, at': Publisher)
    requires PublishStep(p, n, d, Begin, d', at')
    ensures Knows(p, n, was, d, d', at')
  {
  }

  lemma CreateKeeps(p: Platform, n: nat, was: Option<nat>, d0: Disk, d: Disk, at: Publisher, d': Disk, at': Publisher)
    requires at.Filling? && at.done < 3 && Knows(p, n, was, d0, d, at) && PublishStep(p, n, d, at, d', at')
    ensures Knows(p, n, was, d0, d', at')
  {
    var x, k, f := at.dir, at.done, at'.file;
    ViewThen(d.dirs[x], Link(PARTS[k], f));
    forall i | 0 <= i < k
      ensures PartStored(d', d'.dirs[x].View(), n, PARTS[i]) && d'.dirs[x].View()[PARTS[i]] != f
    {
      assert PartStored(d, d.dirs[x].View(), n, PARTS[i]);
    }
  }

  lemma SyncDirectoryKeeps(p: Platform, n: nat, was: Option<nat>, d0: Disk, d: Disk, at: Publisher, d': Disk, at': Publisher)
    requires at.Filling? && at.done == 3 && Knows(p, n, was, d0, d, at) && PublishStep(p, n, d, at, d', at')
    ensures Knows(p, n, was, d0, d', at')
  {
    forall i | 0 <= i < 3
      ensures PartStored(d', d'.dirs[at.dir].durable, n, PARTS[i])
    {
      assert PartStored(d, d.dirs[at.dir].View(), n, PARTS[i]);
    }
  }

  lemma WriteKeeps(p: Platform, n: nat, was: Option<nat>, d0: Disk, d: Disk, at: Publisher, d': Disk, at': Publisher)
    requires at.Writing? && Knows(p, n, was, d0, d, at) && PublishStep(p, n, d, at, d', at')
    ensures Knows(p, n, was, d0, d', at')
  {
    var x, k, f, left := at.dir, at.done, at.file, at.left;
    NothingYet(d.files[f].content);
    if left != "" {
      var c :| 1 <= c <= |left| && d' == Appended(d, f, left[..c]) && at' == Publisher.Writing(x, k, f, left[c..]);
      OneMore(d.files[f].content, left, c);
    }
    forall i | 0 <= i < k
      ensures PartStored(d', d'.dirs[x].View(), n, PARTS[i])
    {
      assert PartStored(d, d.dirs[x].View(), n, PARTS[i]);
    }
  }

  lemma CannotRenameOntoSelected(p: Platform, n: nat, d0: Disk, d: Disk, x: nat)
    requires Anchored(p, d0, n) && Extends(d0, d) && d.root == d0.root.Then(Link(Candidate(n), x))
    ensures !CanRenameOnto(d, n)
  {
    var y := d0.root.durable[Generation(n)];
    FixedMeansSame(d.root, Generation(n));
    NothingPending(d.dirs[y]);
    assert PartStored(d0, d0.dirs[y].durable, n, PARTS[0]);
  }

  lemma RenameKeeps(p: Platform, n: nat, was: Option<nat>, d0: Disk, d: Disk, at: Publisher, d': Disk, at': Publisher)
    requires Base(p, d0, was)
    requires at.Filled? && Knows(p, n, was, d0, d, at) && PublishStep(p, n, d, at, d', at')
    ensures Knows(p, n, was, d0, d', at')
  {
    if was == Some(n) {
      CannotRenameOntoSelected(p, n, d0, d, at.dir);
    }
    StoredElsewhere(d, d', at.dir, n);
  }

  /** Only the root directory changed. */
  lemma StoredElsewhere(d: Disk, d': Disk, x: nat, n: nat)
    requires d'.dirs == d.dirs && d'.files == d.files && Stored(d, x, n)
    ensures Stored(d', x, n)
  {
    forall i | 0 <= i < 3
      ensures PartStored(d', d'.dirs[x].durable, n, PARTS[i])
    {
      assert PartStored(d, d.dirs[x].durable, n, PARTS[i]);
    }
  }

  lemma SyncRootKeeps(p: Platform, n: nat, was: Option<nat>, d0: Disk, d: Disk, at: Publisher, d': Disk, at': Publisher)
    requires Base(p, d0, was)
    requires at.Renamed? && Knows(p, n, was, d0, d, at) && PublishStep(p, n, d, at, d', at')
    ensures Knows(p, n, was, d0, d', at')
  {
    var made := d0.root.Then(Link(Candidate(n), at.dir));
    ViewThen(d0.root, Link(Candidate(n), at.dir));
    ViewThen(made, Move(Candidate(n), Generation(n), at.dir));
    FixedMeansSame(d0.root, Json);
    if was.Some? {
      FixedMeansSame(d0.root, Generation(was.value));
    }
    StoredElsewhere(d, d', at.dir, n);
  }

  /** Files other than those of the generation changed, or were added. */
  lemma StoredBeside(d: Disk, d': Disk, x: nat, n: nat, f: nat)
    requires d'.dirs == d.dirs && f in d'.files && d'.files == d.files[f := d'.files[f]] && Stored(d, x, n)
    requires forall i | 0 <= i < 3 :: d.dirs[x].durable[PARTS[i]] != f
    ensures Stored(d', x, n)
  {
    forall i | 0 <= i < 3
      ensures PartStored(d', d'.dirs[x].durable, n, PARTS[i])
    {
      assert PartStored(d, d.dirs[x].durable, n, PARTS[i]);
    }
  }

  lemma OpenRecordKeeps(p: Platform, n: nat, was: Option<nat>, d0: Disk, d: Disk, at: Publisher, d': Disk, at': Publisher)
    requires at.Settled? && Knows(p, n, was, d0, d, at) && PublishStep(p, n, d, at, d', at')
    ensures Knows(p, n, was, d0, d', at')
  {
    forall i | 0 <= i < 3
      ensures d.dirs[at.dir].durable[PARTS[i]] != at'.file
    {
      assert PartStored(d, d.dirs[at.dir].durable, n, PARTS[i]);
    }
    StoredBeside(d, d', at.dir, n, at'.file);
  }

  lemma WriteRecordKeeps(p: Platform, n: nat, was: Option<nat>, d0: Disk, d: Disk, at: Publisher, d': Disk, at': Publisher)
    requires at.Recording? && Knows(p, n, was, d0, d, at) && PublishStep(p, n, d, at, d', at')
    ensures Knows(p, n, was, d0, d', at')
  {
    var x, f, left := at.dir, at.file, at.left;
    NothingYet(d.files[f].content);
    if left != "" {
      var c :| 1 <= c <= |left| && d' == Appended(d, f, left[..c]) && at' == Publisher.Recording(x, f, left[c..]);
      OneMore(d.files[f].content, left, c);
    }
    StoredBeside(d, d', x, n, f);
  }

  lemma ReplaceKeeps(p: Platform, n: nat, was: Option<nat>, d0: Disk, d: Disk, at: Publisher, d': Disk, at': Publisher)
    requires at.Recorded?
    requires Knows(p, n, was, d0, d, at) && PublishStep(p, n, d, at, d', at')
    ensures Knows(p, n, was, d0, d', at')
  {
    StoredElsewhere(d, d', at.dir, n);
  }

  lemma TwoPending<Name>(durable: map<Name, nat>, first: Change<Name>, second: Change<Name>)
    ensures Folder(durable, [first, second]).View() == second.On(first.On(durable))
  {
    var none := Folder(durable, []);
    NothingPending(none);
    ViewThen(none, first);
    ViewThen(none.Then(first), second);
    assert none.Then(first).Then(second) == Folder(durable, [first, second]);
  }

  lemma FinishKeeps(p: Platform, n: nat, was: Option<nat>, d0: Disk, d: Disk, at: Publisher, d': Disk, at': Publisher)
    requires at.Replaced?
    requires Knows(p, n, was, d0, d, at) && PublishStep(p, n, d, at, d', at')
    ensures Knows(p, n, was, d0, d', at')
  {
    StoredElsewhere(d, d', at.dir, n);
    TwoPending(d.root.durable, Link(Next, at.file), Move(Next, Json, at.file));
    assert d'.root == Folder(Move(Next, Json, at.file).On(Link(Next, at.file).On(d.root.durable)), []);
    assert RecordStored(p, d', at.file, n);
  }

  lemma StepKeeps(p: Platform, n: nat, was: Option<nat>, d0: Disk, d: Disk, at: Publisher, d': Disk, at': Publisher)
    requires Base(p, d0, was) && Knows(p, n, was, d0, d, at) && PublishStep(p, n, d, at, d', at')
    ensures Knows(p, n, was, d0, d', at')
  {
    match at
    case Begin => BeginKeeps(p, n, was, d0, d', at');
    case Filling(_, k) =>
      if k < 3 {
        CreateKeeps(p, n, was, d0, d, at, d', at');
      } else {
        SyncDirectoryKeeps(p, n, was, d0, d, at, d', at');
      }
    case Writing(_, _, _, _) => WriteKeeps(p, n, was, d0, d, at, d', at');
    case Filled(_) => RenameKeeps(p, n, was, d0, d, at, d', at');
    case Renamed(_) => SyncRootKeeps(p, n, was, d0, d, at, d', at');
    case Settled(_) => OpenRecordKeeps(p, n, was, d0, d, at, d', at');
    case Recording(_, _, _) => WriteRecordKeeps(p, n, was, d0, d, at, d', at');
    case Recorded(_, _) => ReplaceKeeps(p, n, was, d0, d, at, d', at');
    case Replaced(_, _) => FinishKeeps(p, n, was, d0, d, at, d', at');
  }

  lemma RunKeeps(p: Platform, n: nat, was: Option<nat>, d0: Disk, d: Disk, at: Publisher)
    requires Base(p, d0, was) && Publishes(p, n, d0, d, at)
    ensures Knows(p, n, was, d0, d, at)
  {
    ghost var holds := (x: (Disk, Publisher)) => Knows(p, n, was, d0, x.0, x.1);
    forall x, y | holds(x) && PublisherSteps(p, n)(x, y)
      ensures holds(y)
    {
      StepKeeps(p, n, was, d0, x.0, x.1, y.0, y.1);
    }
    Throughout(PublisherSteps(p, n), holds, (d0, Publisher.Begin), (d, at));
  }

  // ----- what a loss leaves -----

  /** Up to the replacement of state.json the old selection is as durable as it was. */
  lemma OldStays(p: Platform, n: nat, was: Option<nat>, d0: Disk, d: Disk, at: Publisher)
    requires Base(p, d0, was) && Knows(p, n, was, d0, d, at) && !at.Replaced? && !at.Finished?
    ensures Base(p, d, was)
  {
    if was.Some? {
      ExtendsStored(d0, d, d0.root.durable[Generation(was.value)], was.value);
    }
  }

  lemma BeforeReplacement(p: Platform, was: Option<nat>, n: nat, d0: Disk, d: Disk, x: nat, f: nat)
    requires Base(p, d0, was) && Extends(d0, d) && ReplacementPending(p, n, was, d0, d, x, f)
    ensures Base(p, d.(root := Folder(d.root.durable, [Link(Next, f)])), was)
  {
    var before := d.(root := Folder(d.root.durable, [Link(Next, f)]));
    if was.Some? {
      ExtendsStored(d0, before, d0.root.durable[Generation(was.value)], was.value);
    }
  }

  lemma DroppedReplacement(p: Platform, was: Option<nat>, d: Disk, f: nat, im: Image)
    requires Base(p, d.(root := Folder(d.root.durable, [Link(Next, f)])), was)
    requires CanRecover(d, im) && Folder(d.root.durable, [Link(Next, f)]).Recovers(im.root)
    ensures ImageIs(p, im, was)
  {
    BaseRecovers(p, d.(root := Folder(d.root.durable, [Link(Next, f)])), was, im);
  }

  lemma KeptReplacement(p: Platform, was: Option<nat>, n: nat, d0: Disk, d: Disk, x: nat, f: nat, kept: map<RootName, nat>, im: Image)
    requires ReplacementPending(p, n, was, d0, d, x, f) && CanRecover(d, im)
    requires Folder(d.root.durable, [Link(Next, f)]).Recovers(kept) && im.root == Move(Next, Json, f).On(kept)
    ensures ImageSelects(p, im, n)
  {
    FixedMeansSame(Folder(d.root.durable, [Link(Next, f)]), Generation(n));
    assert im.root[Generation(n)] == x && im.root[Json] == f;
    StoredRecovers(d, x, n, im);
  }

  /** While the replacement is pending, a loss keeps it or drops it. */
  lemma ReplacementRecovers(p: Platform, n: nat, was: Option<nat>, d0: Disk, d: Disk, x: nat, f: nat, im: Image)
    requires Base(p, d0, was) && Extends(d0, d) && ReplacementPending(p, n, was, d0, d, x, f) && CanRecover(d, im)
    ensures ImageSelects(p, im, n) || ImageIs(p, im, was)
  {
    var kept := TwoRecover(d.root.durable, Link(Next, f), Move(Next, Json, f), im.root);
    if im.root == kept {
      BeforeReplacement(p, was, n, d0, d, x, f);
      DroppedReplacement(p, was, d, f, im);
    } else {
      KeptReplacement(p, was, n, d0, d, x, f, kept, im);
    }
  }

  /** Of two pending changes a loss keeps the second or not; `kept` is what it keeps of the first. */
  ghost function TwoRecover<Name>(durable: map<Name, nat>, first: Change<Name>, second: Change<Name>, entries: map<Name, nat>)
    : (kept: map<Name, nat>)
    requires Folder(durable, [first, second]).Recovers(entries)
    ensures Folder(durable, [first]).Recovers(kept)
    ensures entries == kept || entries == second.On(kept)
  {
    var pending := [first, second];
    var keep: seq<bool> :| |keep| == 2 && Keeping(durable, pending, keep) == entries;
    assert pending[..1] == [first];
    Keeping(durable, [first], keep[..1])
  }

  /**
   A publication on a store that durably selects `was` survives a loss of power at any point, whatever
   of the unsynced changes is kept: afterwards state.json names the whole was generation or the whole
   new one (the old one until the replacement, the new one once the publication is finished), and it is
   missing only if nothing had been published.
   */
  lemma PublicationSurvivesPowerLoss(p: Platform, n: nat, was: Option<nat>, d0: Disk, d: Disk, at: Publisher, im: Image)
    requires Base(p, d0, was) && Publishes(p, n, d0, d, at) && CanRecover(d, im)
    ensures ImageIs(p, im, was) || ImageSelects(p, im, n)
    ensures !at.Replaced? && !at.Finished? ==> ImageIs(p, im, was)
    ensures at.Finished? ==> ImageSelects(p, im, n)
  {
    RunKeeps(p, n, was, d0, d, at);
    if at.Replaced? {
      ReplacementRecovers(p, n, was, d0, d, at.dir, at.file, im);
    } else if at.Finished? {
      BaseRecovers(p, d, Some(n), im);
    } else {
      OldStays(p, n, was, d0, d, at);
      BaseRecovers(p, d, was, im);
    }
  }

  /** In particular, a publication on a store with nothing unsynced leaves what was seen before, or itself, whole. */
  lemma DurableStoreSurvives(p: Platform, n: nat, was: Option<nat>, d0: Disk, d: Disk, at: Publisher, im: Image)
    requires Durable(d0) && Seen(p, d0, was) && Publishes(p, n, d0, d, at) && CanRecover(d, im)
    ensures ImageIs(p, im, was) || ImageSelects(p, im, n)
    ensures !at.Replaced? && !at.Finished? ==> ImageIs(p, im, was)
    ensures at.Finished? ==> ImageSelects(p, im, n)
  {
    DurableIsBase(p, d0, was);
    PublicationSurvivesPowerLoss(p, n, was, d0, d, at, im);
  }
}
