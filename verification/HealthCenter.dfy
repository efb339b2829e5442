/**
 The Health Center's snapshot: a full load, a periodic refresh and a manual one, overlapping freely.
 Requests are numbered in the order they are sent.
 */
module HealthCenter {
  import opened Text
  import opened AdminQuery

  /** A value with the number of the request that brought it. */
  datatype Tagged<T> = Tagged(origin: nat, value: T)

  /** `runs` are the refreshes not answered yet, with the generation each was stamped with. */
  datatype Latest<T> = Latest(value: Option<Tagged<T>>, generation: nat, runs: map<nat, nat>) {
    function Started(id: nat): Latest<T> {
      this.(generation := generation + 1, runs := runs[id := generation + 1])
    }

    function Answered(id: nat, outcome: Outcome<T>): Latest<T> {
      if id !in runs then this
      else
        var rest := this.(runs := runs - {id});
        if outcome.Loaded? && runs[id] == generation then rest.(value := Some(Tagged(id, outcome.value))) else rest
    }

    function Discarded(): Latest<T> {
      this.(generation := generation + 1, value := None)
    }

    function Unmounted(): Latest<T> {
      this.(generation := generation + 1)
    }
  }

  class LatestResult<T> {
    var value: Option<Tagged<T>>
    var generation: nat
    var runs: map<nat, nat>

    ghost function Now(): Latest<T>
      reads this
    {
      Latest(value, generation, runs)
    }

    constructor ()
      ensures Now() == Latest(None, 0, map[])
    {
      value, generation, runs := None, 0, map[];
    }

    method Run(id: nat)
      modifies this
      ensures Now() == old(Now()).Started(id)
    {
      var started := generation + 1;
      generation := started;
      runs := runs[id := started];
    }

    /** `reported` says that the caller's promise rejects: the run failed and is still the newest. */
    method Answer(id: nat, outcome: Outcome<T>) returns (reported: bool)
      requires id in runs
      modifies this
      ensures Now() == old(Now()).Answered(id, outcome)
      ensures reported <==> outcome.Failed? && old(runs)[id] == old(generation)
    {
      var started := runs[id];
      runs := runs - {id};
      reported := false;
      match outcome {
        case Loaded(result) =>
          if started == generation {
            value := Some(Tagged(id, result));
          }
        case Failed(_, _) =>
          if started == generation {
            reported := true;
          }
      }
    }

    method Discard()
      modifies this
      ensures Now() == old(Now()).Discarded()
    {
      generation := generation + 1;
      value := None;
    }

    method Unmount()
      modifies this
      ensures Now() == old(Now()).Unmounted()
    {
      generation := generation + 1;
    }
  }

  // ----- the page -----

  datatype State<T> = State(query: QueryState<T>, latest: Latest<T>, sent: nat, mounted: bool) {
    /** The collection the table shows, if it is shown. */
    function OnScreen(): Option<Tagged<T>> {
      if !mounted || query.Status() != Ready then None
      else if latest.value.Some? then latest.value
      else if query.Data().Some? then Some(Tagged(query.settled.value.origin, query.Data().value))
      else None
    }

    /** Nothing on screen, now or later, comes from a request sent before this one. */
    function Floor(): nat {
      if latest.value.Some? then latest.value.value.origin else query.active
    }

    predicate Valid() {
      && query.Valid(sent)
      && (query.settled.Some? && query.settled.value.status == Ready ==> query.settled.value.data.Some?)
      && (latest.value.Some? ==> query.active < latest.value.value.origin < sent)
      && (forall id <- latest.runs :: id < sent && latest.runs[id] <= latest.generation)
      && (forall id <- latest.runs :: latest.runs[id] == latest.generation ==>
            query.active < id && (latest.value.Some? ==> latest.value.value.origin < id))
      && (forall id, id' | id in latest.runs && id' in latest.runs :: latest.runs[id] == latest.runs[id'] ==> id == id')
    }
  }

  function Initial<T>(): State<T> {
    State(Mounted(0), Latest(None, 0, map[]), 1, true)
  }

  /** Both refreshes stamp a run; they differ in the endpoint they ask. */
  datatype Event<T> =
    | Reload
    | Refresh(quietly: bool)
    | LoadAnswered(id: nat, outcome: Outcome<T>)
    | RefreshAnswered(id: nat, outcome: Outcome<T>)
    | Unmount

  /** A failure carries one of the failing statuses. */
  predicate Classified<T>(e: Event<T>) {
    e.LoadAnswered? && e.outcome.Failed? ==> e.outcome.status != Ready
  }

  function Step<T>(s: State<T>, e: Event<T>): State<T> {
    match e
    case Reload =>
      if !s.mounted then s
      else s.(query := s.query.Restarted(s.query.loader, s.query.attempt + 1, s.sent),
              latest := s.latest.Discarded(), sent := s.sent + 1)
    case Refresh(_) =>
      if !s.mounted then s else s.(latest := s.latest.Started(s.sent), sent := s.sent + 1)
    case LoadAnswered(id, outcome) => s.(query := s.query.Answered(id, outcome))
    case RefreshAnswered(id, outcome) => s.(latest := s.latest.Answered(id, outcome))
    case Unmount =>
      if !s.mounted then s
      else s.(query := s.query.Unmounted(), latest := s.latest.Unmounted(), mounted := false)
  }

  function After<T>(events: seq<Event<T>>): State<T> {
    if events == [] then Initial()
    else Step(After(events[..|events| - 1]), events[|events| - 1])
  }

  class Page<T> {
    const query: Query<T>
    const latest: LatestResult<T>
    var sent: nat
    var mounted: bool

    ghost function Now(): State<T>
      reads this, query, latest
    {
      State(query.Now(), latest.Now(), sent, mounted)
    }

    constructor ()
      ensures Now() == Initial() && fresh(query) && fresh(latest)
    {
      query := new Query(0);
      latest := new LatestResult();
      sent, mounted := 1, true;
    }

    /** A full load takes over: what is on screen goes, and so does every refresh in flight. */
    method Reload()
      requires mounted
      modifies this, query, latest
      ensures Now() == Step(old(Now()), Event.Reload)
    {
      latest.Discard();
      query.Reload(sent);
      sent := sent + 1;
    }

    method Refresh(quietly: bool)
      requires mounted
      modifies this, latest
      ensures Now() == Step(old(Now()), Event.Refresh(quietly))
    {
      latest.Run(sent);
      sent := sent + 1;
    }

    method LoadAnswered(id: nat, outcome: Outcome<T>)
      requires id in query.loads
      modifies query
      ensures Now() == Step(old(Now()), Event.LoadAnswered(id, outcome))
    {
      query.Answer(id, outcome);
    }

    method RefreshAnswered(id: nat, outcome: Outcome<T>) returns (reported: bool)
      requires id in latest.runs
      modifies latest
      ensures Now() == Step(old(Now()), Event.RefreshAnswered(id, outcome))
      ensures reported ==> old(latest.runs)[id] == latest.generation
    {
      reported := latest.Answer(id, outcome);
    }

    method Unmount()
      requires mounted
      modifies this, query, latest
      ensures Now() == Step(old(Now()), Event.Unmount)
    {
      query.Cleanup();
      latest.Unmount();
      mounted := false;
    }
  }

  // ----- the screen only moves forward -----

  lemma StepKeeps<T>(s: State<T>, e: Event<T>)
    requires s.Valid() && Classified(e)
    ensures Step(s, e).Valid() && Step(s, e).Floor() >= s.Floor() && Step(s, e).sent >= s.sent
  {
    match e
    case Reload => RestartKeeps(s.query, s.sent, s.query.loader, s.query.attempt + 1);
    case LoadAnswered(id, outcome) => AnswerKeeps(s.query, s.sent, id, outcome);
    case Unmount => UnmountKeeps(s.query, s.sent);
    case _ =>
  }

  lemma {:induction false} AfterIsValid<T>(events: seq<Event<T>>)
    requires forall e <- events :: Classified(e)
    ensures After(events).Valid()
  {
    if events != [] {
      AfterIsValid(events[..|events| - 1]);
      StepKeeps(After(events[..|events| - 1]), events[|events| - 1]);
    }
  }

  lemma {:induction false} FloorRises<T>(events: seq<Event<T>>, i: nat, j: nat)
    requires (forall e <- events :: Classified(e)) && i <= j <= |events|
    ensures After(events[..i]).Floor() <= After(events[..j]).Floor()
    decreases j
  {
    if i < j {
      FloorRises(events, i, j - 1);
      AfterIsValid(events[..j - 1]);
      assert events[..j][..j - 1] == events[..j - 1] && events[j - 1] in events;
      StepKeeps(After(events[..j - 1]), events[j - 1]);
    }
  }

  /** Whatever order the answers land in, a later screen never shows an earlier request's answer. */
  lemma ScreenNeverGoesBack<T>(events: seq<Event<T>>, i: nat, j: nat)
    requires (forall e <- events :: Classified(e)) && i <= j <= |events|
    requires After(events[..i]).OnScreen().Some? && After(events[..j]).OnScreen().Some?
    ensures After(events[..i]).OnScreen().value.origin <= After(events[..j]).OnScreen().value.origin
  {
    AfterIsValid(events[..i]);
    AfterIsValid(events[..j]);
    FloorRises(events, i, j);
  }

  /** After a full reload, nothing from before it is shown: not its loads, not its refreshes. */
  lemma NothingFromBeforeReload<T>(events: seq<Event<T>>, k: nat, j: nat)
    requires (forall e <- events :: Classified(e)) && k < j <= |events|
    requires events[k] == Reload && After(events[..k]).mounted && After(events[..j]).OnScreen().Some?
    ensures After(events[..j]).OnScreen().value.origin >= After(events[..k]).sent
  {
    AfterIsValid(events[..j]);
    FloorRises(events, k + 1, j);
    assert events[..k + 1][..k] == events[..k];
    assert After(events[..k + 1]).Floor() == After(events[..k]).sent;
  }

  // ----- superseded refreshes -----

  lemma RunsKeepTheirStamp<T>(s: State<T>, e: Event<T>, id: nat)
    requires id < s.sent
    ensures Step(s, e).latest.generation >= s.latest.generation && Step(s, e).sent >= s.sent
    ensures id in Step(s, e).latest.runs ==> id in s.latest.runs && Step(s, e).latest.runs[id] == s.latest.runs[id]
  {
  }

  lemma {:induction false} StampsStay<T>(events: seq<Event<T>>, i: nat, j: nat, id: nat)
    requires i <= j <= |events| && id < After(events[..i]).sent
    ensures After(events[..i]).latest.generation <= After(events[..j]).latest.generation
    ensures After(events[..i]).sent <= After(events[..j]).sent
    ensures id in After(events[..j]).latest.runs ==>
      id in After(events[..i]).latest.runs && After(events[..j]).latest.runs[id] == After(events[..i]).latest.runs[id]
    decreases j
  {
    if i < j {
      StampsStay(events, i, j - 1, id);
      assert events[..j][..j - 1] == events[..j - 1];
      RunsKeepTheirStamp(After(events[..j - 1]), events[j - 1], id);
    }
  }

  /**
   A refresh sent before another refresh, a reload or the end of the screen is silent from then on:
   whenever it is answered, and with whatever, it changes nothing that is shown.
   */
  lemma SupersededIsSilent<T>(events: seq<Event<T>>, k: nat, j: nat, id: nat, outcome: Outcome<T>)
    requires (forall e <- events :: Classified(e)) && k < j <= |events|
    requires (events[k].Refresh? || events[k].Reload? || events[k].Unmount?) && After(events[..k]).mounted
    requires id < After(events[..k]).sent
    ensures var s := After(events[..j]); var t := Step(s, RefreshAnswered(id, outcome));
      t.latest.value == s.latest.value && t.OnScreen() == s.OnScreen()
  {
    AfterIsValid(events[..k]);
    assert events[..k + 1][..k] == events[..k];
    RunsKeepTheirStamp(After(events[..k]), events[k], id);
    StampsStay(events, k + 1, j, id);
  }

  // ----- newest requests -----

  /** Between the moments nothing supersedes a refresh, and no answer comes to this one. */
  predicate Undisturbed<T>(events: seq<Event<T>>, k: nat, j: nat, id: nat)
    requires j <= |events|
  {
    forall i | k < i < j ::
      && !events[i].Refresh? && !events[i].Reload? && !events[i].Unmount?
      && !(events[i].RefreshAnswered? && events[i].id == id) && !(events[i].LoadAnswered? && events[i].id == id)
  }

  lemma AfterNext<T>(events: seq<Event<T>>, i: nat)
    requires i < |events|
    ensures After(events[..i + 1]) == Step(After(events[..i]), events[i])
  {
    assert events[..i + 1][..i] == events[..i];
  }

  lemma {:induction false} NewestRunIsKept<T>(events: seq<Event<T>>, k: nat, j: nat, id: nat)
    requires k < j <= |events| && events[k].Refresh? && After(events[..k]).mounted && id == After(events[..k]).sent
    requires Undisturbed(events, k, j, id)
    ensures var s := After(events[..j]); s.mounted && id in s.latest.runs && s.latest.runs[id] == s.latest.generation
    decreases j
  {
    AfterNext(events, j - 1);
    if k < j - 1 {
      NewestRunIsKept(events, k, j - 1, id);
    }
  }

  /**
   The newest refresh is applied: until something supersedes it, its answer is what is remembered, and it
   is on screen wherever the full load has come.
   */
  lemma NewestRefreshIsApplied<T>(events: seq<Event<T>>, k: nat, j: nat, value: T)
    requires k < j < |events| && events[k].Refresh? && After(events[..k]).mounted
    requires Undisturbed(events, k, j, After(events[..k]).sent)
    requires events[j] == RefreshAnswered(After(events[..k]).sent, Loaded(value))
    ensures var s, id := After(events[..j + 1]), After(events[..k]).sent;
      s.latest.value == Some(Tagged(id, value)) && (s.query.Status() == Ready ==> s.OnScreen() == Some(Tagged(id, value)))
  {
    NewestRunIsKept(events, k, j, After(events[..k]).sent);
    AfterNext(events, j);
  }

  lemma {:induction false} NewestLoadIsKept<T>(events: seq<Event<T>>, k: nat, j: nat, id: nat)
    requires k < j <= |events| && events[k] == Reload && After(events[..k]).mounted && id == After(events[..k]).sent
    requires Undisturbed(events, k, j, id) && forall e <- events :: Classified(e)
    ensures var s := After(events[..j]);
      && s.mounted && s.latest.value.None? && s.query.active == id && id in s.query.loads && !s.query.loads[id].cancelled
      && forall r <- s.latest.runs :: s.latest.runs[r] < s.latest.generation
    decreases j
  {
    AfterIsValid(events[..j - 1]);
    AfterNext(events, j - 1);
    if k < j - 1 {
      NewestLoadIsKept(events, k, j - 1, id);
    }
  }

  /** So is the load of a reload: its answer is what the screen shows next. */
  lemma ReloadIsShown<T>(events: seq<Event<T>>, k: nat, j: nat, value: T)
    requires k < j < |events| && events[k] == Reload && After(events[..k]).mounted && forall e <- events :: Classified(e)
    requires Undisturbed(events, k, j, After(events[..k]).sent)
    requires events[j] == LoadAnswered(After(events[..k]).sent, Loaded(value))
    ensures After(events[..j + 1]).OnScreen() == Some(Tagged(After(events[..k]).sent, value))
  {
    NewestLoadIsKept(events, k, j, After(events[..k]).sent);
    AfterIsValid(events[..j]);
    LastLoadIsHeard(After(events[..j]).query, After(events[..j]).sent, Loaded(value));
    AfterNext(events, j);
  }
}
