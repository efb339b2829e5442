/**
 One loader and its result: a load that was replaced never overwrites what replaced it.

 Every load carries the loader and the attempt it was started for. Loads are numbered by whoever
 sends them, in the order they are sent.
 */
module AdminQuery {
  import opened Text

  datatype Status = Loading | Ready | Forbidden | Network | Error

  datatype Outcome<T> = Loaded(value: T) | Failed(status: Status, message: string)

  datatype Load = Load(loader: nat, attempt: nat, cancelled: bool)

  /** What one load produced, with the number of that load. */
  datatype Settled<T> = Settled(loader: nat, attempt: nat, status: Status, data: Option<T>, message: string, origin: nat)

  /** `active` is the load of the latest effect, `loads` are those not settled yet. */
  datatype QueryState<T> = QueryState(loader: nat, attempt: nat, settled: Option<Settled<T>>, loads: map<nat, Load>, active: nat) {
    predicate Fresh() {
      settled.Some? && settled.value.loader == loader && settled.value.attempt == attempt
    }

    function Status(): Status {
      if Fresh() then settled.value.status else Loading
    }

    function Data(): Option<T> {
      if Fresh() then settled.value.data else None
    }

    /** The inputs changed: the effect cleans up after the load it started last and starts another. */
    function Restarted(newLoader: nat, newAttempt: nat, id: nat): QueryState<T> {
      var cleaned := if active in loads then loads[active := loads[active].(cancelled := true)] else loads;
      this.(loader := newLoader, attempt := newAttempt, loads := cleaned[id := Load(newLoader, newAttempt, false)], active := id)
    }

    function Answered(id: nat, outcome: Outcome<T>): QueryState<T> {
      if id !in loads then this
      else
        var load := loads[id];
        var rest := this.(loads := loads - {id});
        if load.cancelled then rest
        else match outcome
          case Loaded(value) => rest.(settled := Some(Settled(load.loader, load.attempt, Ready, Some(value), "", id)))
          case Failed(status, message) => rest.(settled := Some(Settled(load.loader, load.attempt, status, None, message, id)))
    }

    function Unmounted(): QueryState<T> {
      if active in loads then this.(loads := loads[active := loads[active].(cancelled := true)]) else this
    }

    /**
     What every event keeps, for loads numbered below `sent`: only the active load can still be
     heard, it was started for the present inputs, and a fresh result is its result.
     */
    predicate Valid(sent: nat) {
      && active < sent
      && (forall id <- loads :: id < sent)
      && (forall id <- loads :: !loads[id].cancelled ==> id == active && loads[id].loader == loader && loads[id].attempt == attempt)
      && (settled.Some? ==> settled.value.loader <= loader && settled.value.attempt <= attempt)
      && (Fresh() ==> settled.value.origin == active && active !in loads)
    }
  }

  function Mounted<T>(id: nat): QueryState<T> {
    QueryState(0, 0, None, map[id := Load(0, 0, false)], id)
  }

  class Query<T> {
    var loader: nat
    var attempt: nat
    var settled: Option<Settled<T>>
    var loads: map<nat, Load>
    var active: nat

    ghost function Now(): QueryState<T>
      reads this
    {
      QueryState(loader, attempt, settled, loads, active)
    }

    constructor (id: nat)
      ensures Now() == Mounted(id)
    {
      loader, attempt, settled := 0, 0, None;
      loads, active := map[id := Load(0, 0, false)], id;
    }

    method Cleanup()
      modifies this`loads
      ensures Now() == old(Now()).Unmounted()
    {
      if active in loads {
        loads := loads[active := loads[active].(cancelled := true)];
      }
    }

    /** The effect, run again after its inputs changed. */
    method Restart(newLoader: nat, newAttempt: nat, id: nat)
      modifies this
      ensures Now() == old(Now()).Restarted(newLoader, newAttempt, id)
    {
      Cleanup();
      loader, attempt := newLoader, newAttempt;
      loads := loads[id := Load(loader, attempt, false)];
      active := id;
    }

    method Reload(id: nat)
      modifies this
      ensures Now() == old(Now()).Restarted(old(loader), old(attempt) + 1, id)
    {
      Restart(loader, attempt + 1, id);
    }

    method Answer(id: nat, outcome: Outcome<T>)
      requires id in loads
      modifies this
      ensures Now() == old(Now()).Answered(id, outcome)
    {
      var load := loads[id];
      loads := loads - {id};
      if load.cancelled {
        return;
      }
      match outcome {
        case Loaded(value) =>
          settled := Some(Settled(load.loader, load.attempt, Ready, Some(value), "", id));
        case Failed(status, message) =>
          settled := Some(Settled(load.loader, load.attempt, status, None, message, id));
      }
    }
  }

  lemma RestartKeeps<T>(q: QueryState<T>, sent: nat, newLoader: nat, newAttempt: nat)
    requires q.Valid(sent) && newLoader >= q.loader && newAttempt >= q.attempt
    requires newLoader > q.loader || newAttempt > q.attempt
    ensures var r := q.Restarted(newLoader, newAttempt, sent); r.Valid(sent + 1) && !r.Fresh()
  {
  }

  lemma AnswerKeeps<T>(q: QueryState<T>, sent: nat, id: nat, outcome: Outcome<T>)
    requires q.Valid(sent)
    ensures q.Answered(id, outcome).Valid(sent)
    ensures q.Fresh() ==> q.Answered(id, outcome).settled == q.settled
  {
  }

  lemma UnmountKeeps<T>(q: QueryState<T>, sent: nat)
    requires q.Valid(sent)
    ensures q.Unmounted().Valid(sent)
  {
  }

  /** Only the load started last, for the inputs of now, is ever heard. */
  lemma ReplacedLoadsAreSilent<T>(q: QueryState<T>, sent: nat, id: nat, outcome: Outcome<T>)
    requires q.Valid(sent) && q.Answered(id, outcome).settled != q.settled
    ensures id == q.active && q.Answered(id, outcome).Fresh()
    ensures outcome.Loaded? ==> q.Answered(id, outcome).Data() == Some(outcome.value)
  {
  }

  /** And heard it is: the load started last, if it was not cleaned up, brings the result that is shown. */
  lemma LastLoadIsHeard<T>(q: QueryState<T>, sent: nat, outcome: Outcome<T>)
    requires q.Valid(sent) && q.active in q.loads && !q.loads[q.active].cancelled
    ensures var r := q.Answered(q.active, outcome);
      && (outcome.Loaded? ==> r.Status() == Ready && r.Data() == Some(outcome.value))
      && (outcome.Failed? ==> r.Status() == outcome.status && r.Data() == None)
  {
  }
}
