/**
 The administrative session: bootstrap answers, adopted sessions and sign-outs, in any order.

 Requests are numbered as they are sent. A reload and the effect it causes are one event, as are a
 promise's settlement and its callbacks.
 */
module AdminSession {
  import opened Text

  const SUPERUSER := "admin.superuser"

  datatype Status = Loading | Ready | Unauthenticated | Forbidden | Unavailable | Error

  datatype Bootstrap = Bootstrap(identity: string, capabilities: set<string>)

  datatype Failure = Api(status: int) | Unknown

  datatype Answer = Loaded(bootstrap: Bootstrap) | Failed(failure: Failure)

  function StatusForError(f: Failure): (Status, string) {
    match f
    case Api(401) => (Unauthenticated, "")
    case Api(403) => (Forbidden, "")
    case Api(503) => (Unavailable, "O console administrativo está indisponível no momento.")
    case Api(0) => (Error, "Falha de rede ao carregar o console.")
    case _ => (Error, "Não foi possível carregar o console.")
  }

  /** A bootstrap request not answered yet: the generation it was started under. */
  datatype Load = Load(generation: nat, cancelled: bool)

  /** `active` is the load of the latest effect, `leaving` the sign-outs not answered yet. */
  datatype State = State(
    status: Status, bootstrap: Option<Bootstrap>, message: string, attempt: nat, generation: nat,
    loads: map<nat, Load>, active: nat, leaving: set<nat>, sent: nat, mounted: bool)
  {
    /** What the console below is given. */
    function Session(): (Status, Option<Bootstrap>, string) {
      (status, bootstrap, message)
    }

    predicate Can(capability: string) {
      bootstrap.Some? && (capability in bootstrap.value.capabilities || SUPERUSER in bootstrap.value.capabilities)
    }

    function Cleaned(): State {
      if active in loads then this.(loads := loads[active := loads[active].(cancelled := true)]) else this
    }

    predicate Stale(id: nat)
      requires id in loads
    {
      loads[id].cancelled || loads[id].generation != generation
    }
  }

  const INITIAL := State(Loading, None, "", 0, 0, map[0 := Load(0, false)], 0, {}, 1, true)

  datatype Event =
    | BootstrapAnswered(id: nat, answer: Answer)
    | Reload
    | Adopt(loaded: Bootstrap)
    | SignOut
    | SignOutAnswered(id: nat)
    | Unmount
  {
    /** The events that deliberately establish a newer session state. */
    predicate Decides() {
      Reload? || Adopt? || SignOut?
    }
  }

  function Step(s: State, e: Event): State {
    match e
    case BootstrapAnswered(id, answer) =>
      if id !in s.loads then s
      else
        var rest := s.(loads := s.loads - {id});
        if s.Stale(id) then rest
        else
          (match answer
           case Loaded(loaded) => rest.(status := Ready, bootstrap := Some(loaded), message := "")
           case Failed(failure) =>
             var (status, message) := StatusForError(failure);
             rest.(status := status, bootstrap := None, message := message))
    case Reload =>
      if !s.mounted then s
      else
        var t := s.Cleaned();
        t.(generation := s.generation + 1, status := Loading, attempt := s.attempt + 1,
           loads := t.loads[s.sent := Load(s.generation + 1, false)], active := s.sent, sent := s.sent + 1)
    case Adopt(loaded) =>
      if !s.mounted then s
      else s.(generation := s.generation + 1, status := Ready, bootstrap := Some(loaded), message := "")
    case SignOut =>
      if !s.mounted then s
      else s.(generation := s.generation + 1, leaving := s.leaving + {s.sent}, sent := s.sent + 1)
    case SignOutAnswered(id) =>
      if id !in s.leaving then s
      else s.(leaving := s.leaving - {id}, status := Unauthenticated, bootstrap := None, message := "")
    case Unmount =>
      if !s.mounted then s else s.Cleaned().(mounted := false)
  }

  function After(events: seq<Event>): State {
    if events == [] then INITIAL
    else Step(After(events[..|events| - 1]), events[|events| - 1])
  }

  class Provider {
    var status: Status
    var bootstrap: Option<Bootstrap>
    var message: string
    var attempt: nat
    var generation: nat
    var loads: map<nat, Load>
    var active: nat
    var leaving: set<nat>
    var sent: nat
    var mounted: bool

    ghost function Now(): State
      reads this
    {
      State(status, bootstrap, message, attempt, generation, loads, active, leaving, sent, mounted)
    }

    constructor ()
      ensures Now() == INITIAL
    {
      status, bootstrap, message, attempt, generation := Loading, None, "", 0, 0;
      loads, active, leaving, sent, mounted := map[0 := Load(0, false)], 0, {}, 1, true;
    }

    method Cleanup()
      modifies this`loads
      ensures Now() == old(Now()).Cleaned()
    {
      if active in loads {
        loads := loads[active := loads[active].(cancelled := true)];
      }
    }

    method BootstrapAnswered(id: nat, answer: Answer)
      requires id in loads
      modifies this
      ensures Now() == Step(old(Now()), Event.BootstrapAnswered(id, answer))
    {
      var isStale := loads[id].cancelled || loads[id].generation != generation;
      loads := loads - {id};
      if isStale {
        return;
      }
      match answer {
        case Loaded(loaded) =>
          bootstrap := Some(loaded);
          message := "";
          status := Ready;
        case Failed(failure) =>
          var (resolved, text) := StatusForError(failure);
          bootstrap := None;
          message := text;
          status := resolved;
      }
    }

    method Reload()
      requires mounted
      modifies this
      ensures Now() == Step(old(Now()), Event.Reload)
    {
      generation := generation + 1;
      status := Loading;
      attempt := attempt + 1;
      Cleanup();
      loads := loads[sent := Load(generation, false)];
      active := sent;
      sent := sent + 1;
    }

    method Adopt(loaded: Bootstrap)
      requires mounted
      modifies this
      ensures Now() == Step(old(Now()), Event.Adopt(loaded))
    {
      generation := generation + 1;
      bootstrap := Some(loaded);
      message := "";
      status := Ready;
    }

    method SignOut()
      requires mounted
      modifies this
      ensures Now() == Step(old(Now()), Event.SignOut)
    {
      generation := generation + 1;
      leaving := leaving + {sent};
      sent := sent + 1;
    }

    /** Whatever the server answered. */
    method SignOutAnswered(id: nat)
      requires id in leaving
      modifies this
      ensures Now() == Step(old(Now()), Event.SignOutAnswered(id))
    {
      leaving := leaving - {id};
      bootstrap := None;
      message := "";
      status := Unauthenticated;
    }

    method Unmount()
      requires mounted
      modifies this
      ensures Now() == Step(old(Now()), Event.Unmount)
    {
      Cleanup();
      mounted := false;
    }
  }

  // ----- generations -----

  lemma {:induction false} LoadsAreNotAhead(events: seq<Event>)
    ensures forall id <- After(events).loads :: id < After(events).sent && After(events).loads[id].generation <= After(events).generation
  {
    if events != [] {
      LoadsAreNotAhead(events[..|events| - 1]);
    }
  }

  lemma LoadsKeepTheirGeneration(s: State, e: Event, id: nat)
    requires id < s.sent
    ensures Step(s, e).generation >= s.generation && Step(s, e).sent >= s.sent
    ensures id in Step(s, e).loads ==> id in s.loads && Step(s, e).loads[id].generation == s.loads[id].generation
    ensures e.Decides() && s.mounted ==> Step(s, e).generation > s.generation
  {
  }

  lemma {:induction false} GenerationsGrow(events: seq<Event>, i: nat, j: nat, id: nat)
    requires i <= j <= |events| && id < After(events[..i]).sent
    ensures After(events[..i]).generation <= After(events[..j]).generation && After(events[..i]).sent <= After(events[..j]).sent
    ensures id in After(events[..j]).loads ==>
      id in After(events[..i]).loads && After(events[..j]).loads[id].generation == After(events[..i]).loads[id].generation
    decreases j
  {
    if i < j {
      GenerationsGrow(events, i, j - 1, id);
      assert events[..j][..j - 1] == events[..j - 1];
      LoadsKeepTheirGeneration(After(events[..j - 1]), events[j - 1], id);
    }
  }

  /**
   A bootstrap request sent before an adoption, a sign-out or a reload never changes the session:
   however late it is answered, and with whatever.
   */
  lemma OlderBootstrapIsSilent(events: seq<Event>, k: nat, j: nat, id: nat, answer: Answer)
    requires k < j <= |events| && events[k].Decides() && After(events[..k]).mounted && id < After(events[..k]).sent
    ensures Step(After(events[..j]), BootstrapAnswered(id, answer)).Session() == After(events[..j]).Session()
  {
    LoadsAreNotAhead(events[..k]);
    assert events[..k + 1][..k] == events[..k];
    LoadsKeepTheirGeneration(After(events[..k]), events[k], id);
    GenerationsGrow(events, k + 1, j, id);
  }

  // ----- what the status says -----

  /** Signed in is shown only with an identity; every refusal and every failure is shown with none. */
  lemma {:induction false} IdentityMatchesStatus(events: seq<Event>)
    ensures var s := After(events);
      && (s.status == Ready ==> s.bootstrap.Some?)
      && (s.status != Ready && s.status != Loading ==> s.bootstrap.None?)
  {
    if events != [] {
      IdentityMatchesStatus(events[..|events| - 1]);
    }
  }

  // ----- signing out -----

  /** No bootstrap answer can be heard any more. */
  predicate Deaf(s: State) {
    forall id <- s.loads :: s.loads[id].generation < s.generation
  }

  /** No adoption and no reload from moment `k` to moment `j`. */
  predicate Left(events: seq<Event>, k: nat, j: nat)
    requires j <= |events|
  {
    forall i | k <= i < j :: !events[i].Adopt? && !events[i].Reload?
  }

  lemma {:induction false} StaysDeaf(events: seq<Event>, k: nat, j: nat)
    requires k <= j <= |events| && Deaf(After(events[..k])) && Left(events, k, j)
    ensures Deaf(After(events[..j]))
    decreases j
  {
    if k < j {
      StaysDeaf(events, k, j - 1);
      assert events[..j][..j - 1] == events[..j - 1];
    }
  }

  lemma {:induction false} StaysSignedOut(events: seq<Event>, k: nat, j: nat)
    requires k <= j <= |events| && Left(events, k, j) && Deaf(After(events[..k]))
    requires After(events[..k]).Session() == (Unauthenticated, None, "")
    ensures After(events[..j]).Session() == (Unauthenticated, None, "")
    decreases j
  {
    if k < j {
      StaysSignedOut(events, k, j - 1);
      StaysDeaf(events, k, j - 1);
      assert events[..j][..j - 1] == events[..j - 1];
    }
  }

  /**
   After a sign-out with no later adoption or reload, the session ends unauthenticated once the
   sign-out is answered, and stays so whatever lands: no status, no identity, no capability comes back.
   */
  lemma SignOutIsFinal(events: seq<Event>, k: nat, m: nat, j: nat, capability: string)
    requires k < m < j <= |events| && Left(events, k, j)
    requires events[k] == SignOut && After(events[..k]).mounted
    requires events[m].SignOutAnswered? && events[m].id in After(events[..m]).leaving
    ensures After(events[..j]).Session() == (Unauthenticated, None, "") && !After(events[..j]).Can(capability)
  {
    LoadsAreNotAhead(events[..k]);
    assert events[..k + 1][..k] == events[..k] && events[..m + 1][..m] == events[..m];
    assert Deaf(After(events[..k + 1]));
    StaysDeaf(events, k + 1, m + 1);
    StaysSignedOut(events, m + 1, j);
  }

  // ----- adopting -----

  /** At moment `i` a sign-out is answered. */
  predicate SignsOut(events: seq<Event>, i: nat)
    requires i < |events|
  {
    events[i].SignOutAnswered? && events[i].id in After(events[..i]).leaving
  }

  /** With no answer to be heard and nothing decided, only a sign-out's answer changes the session. */
  lemma DeafStep(s: State, e: Event)
    requires Deaf(s) && !e.Decides()
    ensures Step(s, e).Session() ==
            if e.SignOutAnswered? && e.id in s.leaving then (Unauthenticated, None, "") else s.Session()
  {
  }

  lemma {:induction false} AdoptedUntilSignedOut(events: seq<Event>, k: nat, j: nat, session: (Status, Option<Bootstrap>, string))
    requires k <= j <= |events| && Deaf(After(events[..k])) && After(events[..k]).Session() == session
    requires forall i | k <= i < j :: !events[i].Decides()
    ensures (forall i | k <= i < j :: !SignsOut(events, i)) ==> After(events[..j]).Session() == session
    ensures !(forall i | k <= i < j :: !SignsOut(events, i)) ==> After(events[..j]).Session() == (Unauthenticated, None, "")
    decreases j
  {
    if k < j {
      AdoptedUntilSignedOut(events, k, j - 1, session);
      StaysDeaf(events, k, j - 1);
      var s := After(events[..j - 1]);
      assert After(events[..j]) == Step(s, events[j - 1]) by {
        assert events[..j][..j - 1] == events[..j - 1];
      }
      DeafStep(s, events[j - 1]);
      assert SignsOut(events, j - 1) <==> events[j - 1].SignOutAnswered? && events[j - 1].id in s.leaving;
    }
  }

  /**
   An adopted session with no later decision holds against every bootstrap answer, and exactly until
   a sign-out asked for earlier is answered: that answer is not held to a generation.
   */
  lemma AdoptionHoldsExactly(events: seq<Event>, k: nat, j: nat)
    requires k < j <= |events| && events[k].Adopt? && After(events[..k]).mounted
    requires forall i | k < i < j :: !events[i].Decides()
    ensures After(events[..j]).Session() == (Ready, Some(events[k].loaded), "")
            <==> forall i | k < i < j :: !SignsOut(events, i)
  {
    LoadsAreNotAhead(events[..k]);
    assert events[..k + 1][..k] == events[..k];
    AdoptedUntilSignedOut(events, k + 1, j, (Ready, Some(events[k].loaded), ""));
  }

  // ----- the newest bootstrap -----

  lemma AfterNext(events: seq<Event>, i: nat)
    requires i < |events|
    ensures After(events[..i + 1]) == Step(After(events[..i]), events[i])
  {
    assert events[..i + 1][..i] == events[..i];
  }

  /** Between the moments nothing is decided, no sign-out is answered, and no answer comes to this request. */
  predicate Undisturbed(events: seq<Event>, k: nat, j: nat, id: nat)
    requires j <= |events|
  {
    forall i | k < i < j ::
      !events[i].Decides() && !events[i].Unmount? && !(events[i].BootstrapAnswered? && events[i].id == id)
  }

  lemma {:induction false} ReloadIsKept(events: seq<Event>, k: nat, j: nat, id: nat)
    requires k < j <= |events| && events[k] == Reload && After(events[..k]).mounted && id == After(events[..k]).sent
    requires Undisturbed(events, k, j, id)
    ensures var s := After(events[..j]); s.mounted && id in s.loads && s.loads[id] == Load(s.generation, false)
    decreases j
  {
    AfterNext(events, j - 1);
    if k < j - 1 {
      ReloadIsKept(events, k, j - 1, id);
    }
  }

  /** What the operator is told of each answer of the server. */
  ghost predicate Tells(session: (Status, Option<Bootstrap>, string), answer: Answer) {
    match answer
    case Loaded(loaded) => session == (Ready, Some(loaded), "")
    case Failed(failure) =>
      && session.1 == None
      && (failure == Api(401) <==> session.0 == Unauthenticated)
      && (failure == Api(403) <==> session.0 == Forbidden)
      && (failure == Api(503) <==> session.0 == Unavailable)
      && (failure != Api(401) && failure != Api(403) && failure != Api(503) <==> session.0 == Error)
      && (session.2 == "" <==> failure == Api(401) || failure == Api(403))
  }

  /** The identity has the capability, or all of them. */
  predicate Grants(loaded: Bootstrap, capability: string) {
    capability in loaded.capabilities || "admin.superuser" in loaded.capabilities
  }

  lemma CanMeans(s: State, answer: Answer, c: string)
    requires s.bootstrap == if answer.Loaded? then Some(answer.bootstrap) else None
    ensures s.Can(c) <==> answer.Loaded? && Grants(answer.bootstrap, c)
  {
  }

  /** A reload that nothing supersedes decides the session: with the identity loaded, or with the refusal. */
  lemma ReloadDecides(events: seq<Event>, k: nat, j: nat, answer: Answer)
    requires k < j < |events| && events[k] == Reload && After(events[..k]).mounted
    requires Undisturbed(events, k, j, After(events[..k]).sent)
    requires events[j] == BootstrapAnswered(After(events[..k]).sent, answer)
    ensures Tells(After(events[..j + 1]).Session(), answer)
    ensures forall c: string :: After(events[..j + 1]).Can(c) <==> answer.Loaded? && Grants(answer.bootstrap, c)
  {
    ReloadIsKept(events, k, j, After(events[..k]).sent);
    AfterNext(events, j);
    var t := After(events[..j + 1]);
    forall c: string
      ensures t.Can(c) <==> answer.Loaded? && Grants(answer.bootstrap, c)
    {
      CanMeans(t, answer, c);
    }
  }
}
