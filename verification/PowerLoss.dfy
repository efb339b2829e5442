/**
 The store on a disk that forgets.

 A change to a directory is durable once that directory is synced, what is written to a file once
 the file is. Power loss keeps any of the unsynced changes, in their order, drops the others, and
 leaves anything at all in a file that was not synced.
 */
module PowerLoss {
  import opened Text
  import opened Publication
  import opened Runs

  datatype Change<Name(==)> = Link(name: Name, inode: nat) | Unlink(name: Name) | Move(source: Name, name: Name, inode: nat) {
    predicate Touches(other: Name) {
      name == other || (Move? && source == other)
    }

    function On(entries: map<Name, nat>): map<Name, nat> {
      match this
      case Link(_, _) => entries[name := inode]
      case Unlink(_) => entries - {name}
      case Move(_, _, _) => (entries - {source})[name := inode]
    }
  }

  /** The entries after those of the changes that `keep` marks. */
  function Keeping<Name(==)>(entries: map<Name, nat>, changes: seq<Change<Name>>, keep: seq<bool>): map<Name, nat>
    requires |keep| == |changes|
  {
    if changes == [] then entries
    else
      var last := |changes| - 1;
      var before := Keeping(entries, changes[..last], keep[..last]);
      if keep[last] then changes[last].On(before) else before
  }

  function All(n: nat): seq<bool> {
    seq(n, _ => true)
  }

  datatype Folder<Name(==)> = Folder(durable: map<Name, nat>, pending: seq<Change<Name>>) {
    /** The entries as programs see them. */
    function View(): map<Name, nat> {
      Keeping(durable, pending, All(|pending|))
    }

    function Then(c: Change<Name>): Folder<Name> {
      Folder(durable, pending + [c])
    }

    function Sync(): Folder<Name> {
      Folder(View(), [])
    }

    ghost predicate Recovers(entries: map<Name, nat>) {
      exists keep: seq<bool> :: |keep| == |pending| && Keeping(durable, pending, keep) == entries
    }

    /** No loss can make the name mean anything else. */
    ghost predicate Fixed(name: Name) {
      forall c <- pending :: !c.Touches(name)
    }
  }

  datatype File = File(content: string, synced: bool)

  datatype RootName = Candidate(n: nat) | Generation(n: nat) | Next | Json

  datatype Disk = Disk(root: Folder<RootName>, dirs: map<nat, Folder<Part>>, files: map<nat, File>)

  /** What is found when the power is back. */
  datatype Image = Image(root: map<RootName, nat>, dirs: map<nat, map<Part, nat>>, files: map<nat, string>)

  ghost predicate CanRecover(d: Disk, im: Image) {
    && d.root.Recovers(im.root)
    && im.dirs.Keys == d.dirs.Keys && im.files.Keys == d.files.Keys
    && (forall x <- d.dirs :: d.dirs[x].Recovers(im.dirs[x]))
    && (forall f <- d.files :: d.files[f].synced ==> im.files[f] == d.files[f].content)
  }

  /** state.json is the record of generation `n`, and that is there, whole. */
  predicate ImageSelects(p: Platform, im: Image, n: nat) {
    && Json in im.root && im.root[Json] in im.files && im.files[im.root[Json]] == p.dump(StateOf(p, n))
    && Generation(n) in im.root && im.root[Generation(n)] in im.dirs
    && var parts := im.dirs[im.root[Generation(n)]];
    && forall k | 0 <= k < 3 :: PARTS[k] in parts && parts[PARTS[k]] in im.files && im.files[parts[PARTS[k]]] == Data(n, PARTS[k])
  }

  // ----- publisher -----

  datatype Publisher =
    | Begin
    | Filling(dir: nat, done: nat)
    | Writing(dir: nat, done: nat, file: nat, left: string)
    | Filled(dir: nat)
    | Renamed(dir: nat)
    | Settled(dir: nat)
    | Recording(dir: nat, file: nat, left: string)
    | Recorded(dir: nat, file: nat)
    | Replaced(dir: nat, file: nat)
    | Finished(dir: nat)

  predicate CanRenameOnto(d: Disk, n: nat) {
    var entries := d.root.View();
    Generation(n) in entries ==> entries[Generation(n)] in d.dirs && d.dirs[entries[Generation(n)]].View() == map[]
  }

  function Changed(d: Disk, c: Change<RootName>): Disk {
    d.(root := d.root.Then(c))
  }

  function Appended(d: Disk, f: nat, text: string): Disk
    requires f in d.files
  {
    d.(files := d.files[f := File(d.files[f].content + text, false)])
  }

  function Synced(d: Disk, f: nat): Disk
    requires f in d.files
  {
    d.(files := d.files[f := d.files[f].(synced := true)])
  }

  predicate PublishStep(p: Platform, n: nat, d: Disk, at: Publisher, d': Disk, at': Publisher) {
    match at
    case Begin =>
      && Candidate(n) !in d.root.View()
      && at'.Filling? && at'.done == 0 && at'.dir !in d.dirs
      && d' == Changed(d, Link(Candidate(n), at'.dir)).(dirs := d.dirs[at'.dir := Folder(map[], [])])
    case Filling(x, k) =>
      && x in d.dirs
      && if k < 3 then
        && PARTS[k] !in d.dirs[x].View()
        && at'.Writing? && at' == Writing(x, k, at'.file, Data(n, PARTS[k])) && at'.file !in d.files
        && d' == d.(dirs := d.dirs[x := d.dirs[x].Then(Link(PARTS[k], at'.file))], files := d.files[at'.file := File("", false)])
      else
        d' == d.(dirs := d.dirs[x := d.dirs[x].Sync()]) && at' == Filled(x)
    case Writing(x, k, f, left) =>
      && f in d.files
      && if left == "" then d' == Synced(d, f) && at' == Filling(x, k + 1)
      else exists c | 1 <= c <= |left| :: d' == Appended(d, f, left[..c]) && at' == Writing(x, k, f, left[c..])
    case Filled(x) =>
      && CanRenameOnto(d, n)
      && d' == Changed(d, Move(Candidate(n), Generation(n), x)) && at' == Renamed(x)
    case Renamed(x) =>
      d' == d.(root := d.root.Sync()) && at' == Settled(x)
    case Settled(x) =>
      && Next !in d.root.View()
      && at'.Recording? && at' == Recording(x, at'.file, p.dump(StateOf(p, n))) && at'.file !in d.files
      && d' == Changed(d, Link(Next, at'.file)).(files := d.files[at'.file := File("", false)])
    case Recording(x, f, left) =>
      && f in d.files
      && if left == "" then d' == Synced(d, f) && at' == Recorded(x, f)
      else exists c | 1 <= c <= |left| :: d' == Appended(d, f, left[..c]) && at' == Recording(x, f, left[c..])
    case Recorded(x, f) =>
      d' == Changed(d, Move(Next, Json, f)) && at' == Replaced(x, f)
    case Replaced(x, f) =>
      d' == d.(root := d.root.Sync()) && at' == Finished(x)
    case Finished(_) => false
  }

  function PublisherSteps(p: Platform, n: nat): ((Disk, Publisher), (Disk, Publisher)) -> bool {
    (x: (Disk, Publisher), y: (Disk, Publisher)) => PublishStep(p, n, x.0, x.1, y.0, y.1)
  }

  /** A publisher that began on `d0` can have come so far. */
  ghost predicate Publishes(p: Platform, n: nat, d0: Disk, d: Disk, at: Publisher) {
    Reaches(PublisherSteps(p, n), (d0, Publisher.Begin), (d, at))
  }

  // ----- pruner -----

  datatype Pruner =
    | Looking
    | Sweeping(active: nat, todo: seq<nat>)
    | Unlinking(active: nat, victim: nat, done: nat, todo: seq<nat>)
    | Swept

  /** `names` lists every generation once, in some order. */
  ghost predicate Lists(names: seq<nat>, entries: map<RootName, nat>) {
    && (forall n :: n in names <==> Generation(n) in entries)
    && forall i, j | 0 <= i < j < |names| :: names[i] != names[j]
  }

  function Active(p: Platform, d: Disk): Option<State> {
    var entries := d.root.View();
    if Json in entries && entries[Json] in d.files then p.load(d.files[entries[Json]].content) else None
  }

  ghost predicate PruneStep(p: Platform, d: Disk, at: Pruner, d': Disk, at': Pruner) {
    match at
    case Looking =>
      && Active(p, d).Some? && d' == d
      && at'.Sweeping? && at'.active == Active(p, d).value.generation && Lists(at'.todo, d.root.View())
    case Sweeping(active, todo) =>
      if todo == [] then d' == d.(root := d.root.Sync()) && at' == Swept
      else
        && d' == d
        && at' == (if todo[0] == active then Sweeping(active, todo[1..]) else Unlinking(active, todo[0], 0, todo[1..]))
    case Unlinking(active, victim, done, todo) =>
      var entries := d.root.View();
      && Generation(victim) in entries && entries[Generation(victim)] in d.dirs
      && var x := entries[Generation(victim)];
      && if done < 3 then
        && PARTS[done] in d.dirs[x].View()
        && d' == d.(dirs := d.dirs[x := d.dirs[x].Then(Unlink(PARTS[done]))])
        && at' == Unlinking(active, victim, done + 1, todo)
      else
        && d.dirs[x].View() == map[]
        && d' == Changed(d, Unlink(Generation(victim))) && at' == Sweeping(active, todo)
    case Swept => false
  }

  ghost function PrunerSteps(p: Platform): ((Disk, Pruner), (Disk, Pruner)) -> bool {
    (x: (Disk, Pruner), y: (Disk, Pruner)) => PruneStep(p, x.0, x.1, y.0, y.1)
  }

  /** A pruner that began on `d0` can have come so far. */
  ghost predicate Prunes(p: Platform, d0: Disk, d: Disk, at: Pruner) {
    Reaches(PrunerSteps(p), (d0, Pruner.Looking), (d, at))
  }
}
