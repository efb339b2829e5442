/**
 The shared store's publication protocol, one filesystem operation at a time.

 Processes take the lock exclusively (publishers, pruners) or shared (observers), work through their
 operations in any interleaving the lock allows, and may die between any two of them.
 */
module SharedStore {
  import opened Text
  import opened Publication

  datatype Root = Root(candidates: map<nat, Directory>, generations: map<nat, Directory>,
                       next: Option<string>, json: Option<string>)

  const EMPTY := Root(map[], map[], None, None)

  /** The first `k` parts of generation `n`, as published. */
  function FirstParts(n: nat, k: nat): Directory
    requires k <= 3
  {
    if k == 0 then map[] else FirstParts(n, k - 1)[PARTS[k - 1] := Data(n, PARTS[k - 1])]
  }

  function Complete(n: nat): Directory {
    FirstParts(n, 3)
  }

  /** state.json, where it exists, is the record of a generation that is there, whole. */
  ghost predicate Consistent(p: Platform, root: Root) {
    root.json.Some? ==> exists n: nat :: Selects(p, root, n)
  }

  ghost predicate Selects(p: Platform, root: Root, n: nat) {
    && root.json == Some(p.dump(StateOf(p, n)))
    && n in root.generations && root.generations[n] == Complete(n)
  }

  // ----- publisher -----

  datatype Publisher =
    | Begin
    | Filling(done: nat)
    | Writing(done: nat, left: string)
    | Renamed
    | Recording(left: string)
    | Finished

  /** A directory can be renamed onto a name that is free or holds an empty directory. */
  predicate CanRenameOnto(root: Root, n: nat) {
    n !in root.generations || root.generations[n] == map[]
  }

  function WithPart(root: Root, n: nat, part: Part, text: string): Root
    requires n in root.candidates
  {
    root.(candidates := root.candidates[n := root.candidates[n][part := text]])
  }

  predicate PublishStep(p: Platform, n: nat, r: Root, at: Publisher, r': Root, at': Publisher) {
    match at
    case Begin =>
      && n !in r.candidates
      && r' == r.(candidates := r.candidates[n := map[]]) && at' == Filling(0)
    case Filling(k) =>
      && n in r.candidates
      && if k < 3 then
        && PARTS[k] !in r.candidates[n]
        && r' == WithPart(r, n, PARTS[k], "") && at' == Writing(k, Data(n, PARTS[k]))
      else
        && CanRenameOnto(r, n)
        && r' == r.(generations := r.generations[n := r.candidates[n]], candidates := r.candidates - {n})
        && at' == Renamed
    case Writing(k, left) =>
      if left == "" then r' == r && at' == Filling(k + 1)
      else
        && k < 3 && n in r.candidates && PARTS[k] in r.candidates[n]
        && exists c | 1 <= c <= |left| ::
          && r' == WithPart(r, n, PARTS[k], r.candidates[n][PARTS[k]] + left[..c]) && at' == Writing(k, left[c..])
    case Renamed =>
      && r.next.None?
      && r' == r.(next := Some("")) && at' == Recording(p.dump(StateOf(p, n)))
    case Recording(left) =>
      && r.next.Some?
      && if left == "" then
        r' == r.(json := r.next, next := None) && at' == Finished
      else
        exists c | 1 <= c <= |left| ::
          r' == r.(next := Some(r.next.value + left[..c])) && at' == Recording(left[c..])
    case Finished => false
  }

  ghost predicate PublisherKnows(p: Platform, n: nat, r: Root, at: Publisher) {
    match at
    case Begin => true
    case Filling(k) => k <= 3 && n in r.candidates && r.candidates[n] == FirstParts(n, k)
    case Writing(k, left) =>
      && k < 3 && n in r.candidates
      && exists text :: text + left == Data(n, PARTS[k]) && r.candidates[n] == FirstParts(n, k)[PARTS[k] := text]
    case Renamed => n in r.generations && r.generations[n] == Complete(n)
    case Recording(left) =>
      && n in r.generations && r.generations[n] == Complete(n)
      && r.next.Some? && r.next.value + left == p.dump(StateOf(p, n))
    case Finished => Selects(p, r, n)
  }

  // ----- observer -----

  datatype Observer =
    | Selecting
    | Checking(state: State, left: seq<Part>)
    | Verified(generation: nat)
    | NothingPublished
    | Inconsistent

  /** The parts a record has hashes of, in the order the publisher writes them. */
  function Recorded(state: State): seq<Part> {
    (if Main in state.hashes then [Main] else [])
    + (if Daily in state.hashes then [Daily] else [])
    + (if Bytecode in state.hashes then [Bytecode] else [])
  }

  predicate Matches(p: Platform, r: Root, state: State, part: Part)
    requires part in state.hashes
  {
    && state.generation in r.generations && part in r.generations[state.generation]
    && p.sha(r.generations[state.generation][part]) == state.hashes[part]
  }

  function ObserveStep(p: Platform, r: Root, at: Observer): Observer {
    match at
    case Selecting =>
      if r.json.None? then NothingPublished
      else
        (match p.load(r.json.value)
         case None => Inconsistent
         case Some(state) => Checking(state, Recorded(state)))
    case Checking(state, left) =>
      if left == [] then Verified(state.generation)
      else if left[0] in state.hashes && Matches(p, r, state, left[0]) then Checking(state, left[1..])
      else Inconsistent
    case _ => at
  }

  ghost predicate ObserverKnows(p: Platform, r: Root, at: Observer) {
    match at
    case Selecting => true
    case Checking(state, left) =>
      exists n: nat :: Selects(p, r, n) && state == StateOf(p, n)
    case Verified(g) => Selects(p, r, g)
    case NothingPublished => r.json.None?
    case Inconsistent => false
  }

  // ----- pruner -----

  datatype Pruner =
    | Looking
    | Sweeping(active: nat, todo: seq<nat>)
    | Unlinking(active: nat, victim: nat, done: nat, todo: seq<nat>)
    | Swept

  /** `names` lists every generation once, in some order. */
  ghost predicate Lists(names: seq<nat>, generations: map<nat, Directory>) {
    && (forall n :: n in names <==> n in generations)
    && forall i, j | 0 <= i < j < |names| :: names[i] != names[j]
  }

  ghost predicate PruneStep(p: Platform, r: Root, at: Pruner, r': Root, at': Pruner) {
    match at
    case Looking =>
      && r.json.Some? && p.load(r.json.value).Some?
      && r' == r && at'.Sweeping? && at'.active == p.load(r.json.value).value.generation && Lists(at'.todo, r.generations)
    case Sweeping(active, todo) =>
      && r' == r
      && at' == (if todo == [] then Swept
                 else if todo[0] == active then Sweeping(active, todo[1..])
                 else Unlinking(active, todo[0], 0, todo[1..]))
    case Unlinking(active, victim, done, todo) =>
      && victim in r.generations
      && if done < 3 then
        && PARTS[done] in r.generations[victim]
        && r' == r.(generations := r.generations[victim := r.generations[victim] - {PARTS[done]}])
        && at' == Unlinking(active, victim, done + 1, todo)
      else
        && r.generations[victim] == map[]
        && r' == r.(generations := r.generations - {victim}) && at' == Sweeping(active, todo)
    case Swept => false
  }

  ghost predicate PrunerKnows(p: Platform, r: Root, at: Pruner) {
    match at
    case Looking => true
    case Sweeping(active, todo) => Selects(p, r, active)
    case Unlinking(active, victim, done, todo) => Selects(p, r, active) && victim != active
    case Swept => true
  }

  // ----- all processes together -----

  datatype Process =
    | Publishing(sequence: nat, publisher: Publisher)
    | Observing(observer: Observer)
    | Pruning(pruner: Pruner)
    | Holding(shared: bool)
  {
    predicate Shared() {
      Observing? || (Holding? && shared)
    }

    predicate Fresh() {
      match this
      case Publishing(_, at) => at == Begin
      case Observing(at) => at == Selecting
      case Pruning(at) => at == Looking
      case Holding(_) => true
    }
  }

  /** `procs` are the processes that hold the lock. */
  datatype System = System(root: Root, procs: map<nat, Process>)

  predicate LockGranted(procs: map<nat, Process>, q: Process) {
    if q.Shared() then forall i <- procs :: procs[i].Shared() else procs == map[]
  }

  ghost predicate Work(p: Platform, r: Root, q: Process, r': Root, q': Process) {
    match q
    case Publishing(n, at) => q'.Publishing? && q'.sequence == n && PublishStep(p, n, r, at, r', q'.publisher)
    case Observing(at) => r' == r && q' == Observing(ObserveStep(p, r, at))
    case Pruning(at) => q'.Pruning? && PruneStep(p, r, at, r', q'.pruner)
    case Holding(_) => false
  }

  datatype Event = Start(id: nat, process: Process) | Advance(id: nat) | Stop(id: nat)

  /**
   A process takes the lock; it does one operation; or it gives the lock up, because it finished,
   failed or was killed.
   */
  ghost predicate Step(p: Platform, s: System, e: Event, t: System) {
    match e
    case Start(id, q) =>
      id !in s.procs && q.Fresh() && LockGranted(s.procs, q) && t == s.(procs := s.procs[id := q])
    case Advance(id) =>
      && id in s.procs && id in t.procs
      && t.procs == s.procs[id := t.procs[id]]
      && Work(p, s.root, s.procs[id], t.root, t.procs[id])
    case Stop(id) =>
      id in s.procs && t == s.(procs := s.procs - {id})
  }

  /** A run from the initialised, empty store. */
  ghost predicate Run(p: Platform, states: seq<System>, events: seq<Event>) {
    && |states| == |events| + 1
    && states[0] == System(EMPTY, map[])
    && forall i | 0 <= i < |events| :: Step(p, states[i], events[i], states[i + 1])
  }

  ghost predicate Knows(p: Platform, r: Root, q: Process) {
    match q
    case Publishing(n, at) => PublisherKnows(p, n, r, at)
    case Observing(at) => ObserverKnows(p, r, at)
    case Pruning(at) => PrunerKnows(p, r, at)
    case Holding(_) => true
  }

  /** Who holds the lock exclusively holds it alone. */
  predicate Excluded(procs: map<nat, Process>) {
    forall i, j | i in procs && j in procs && i != j :: procs[i].Shared() && procs[j].Shared()
  }

  ghost predicate Safe(p: Platform, s: System) {
    && Consistent(p, s.root)
    && Excluded(s.procs)
    && forall i <- s.procs :: Knows(p, s.root, s.procs[i])
  }
}
