/**
 The integrations page: one diagnostic at a time, under the card it was started from.

 Runs are numbered as they start; an answer may land at any time, aborted or not.
 */
module Diagnostics {
  import opened Text

  type Report = string

  /** What a run asks for: one integration's diagnosis, or the SMTP test message. */
  datatype Question = Diagnose(integration: string) | TestEmail

  /** What the callbacks of a run captured: the generation it started at, and its question. */
  datatype Run = Run(mine: nat, question: Question)

  datatype Outcome = Reported(report: Report) | Failed(message: string)

  /** A report with the question it answers; the page itself sees the report alone. */
  datatype Shown = Shown(report: Report, question: Question)

  /**
   `runs` are the runs not settled yet, `aborted` those whose signal was aborted, `controller` the
   number of the run whose controller is held.
   */
  datatype State = State(
    report: Option<Shown>, running: bool, failure: string, generation: nat, controller: Option<nat>,
    runs: map<nat, Run>, aborted: set<nat>, started: nat,
    expanded: Option<string>, pendingAction: bool, mounted: bool)
  {
    predicate Current(id: nat) {
      id in runs && runs[id].mine == generation
    }

    function Abandoned(): State {
      this.(generation := generation + 1, aborted := aborted + (if controller.Some? then {controller.value} else {}), controller := None)
    }

    function Reset(): State {
      Abandoned().(report := None, failure := "", running := false)
    }

    function Started(question: Question): State {
      if controller.Some? then this
      else this.(generation := generation + 1, controller := Some(started), running := true, report := None, failure := "",
                 runs := runs[started := Run(generation + 1, question)], started := started + 1)
    }

    function Settled(id: nat, outcome: Outcome): State {
      if id !in runs then this
      else
        var rest := this.(runs := runs - {id});
        if runs[id].mine != generation then rest
        else
          var done := rest.(controller := None, running := false);
          if outcome.Reported? then done.(report := Some(Shown(outcome.report, runs[id].question)))
          else done.(failure := outcome.message)
    }

    /** What the card of this integration is given: the run if it is expanded, an idle one if not. */
    function ReportUnder(integration: string): Option<Shown> {
      if expanded == Some(integration) then report else None
    }

    ghost predicate Valid() {
      && (forall id <- runs :: id < started && runs[id].mine <= generation)
      && (forall id <- aborted :: id < started && !Current(id))
      && (forall id <- runs :: Current(id) || id in aborted)
      && (controller.Some? ==> Current(controller.value))
      && (forall id: nat :: Current(id) ==> controller == Some(id))
      && (mounted ==> (running <==> controller.Some?))
      && (report.Some? && report.value.question.Diagnose? ==> expanded == Some(report.value.question.integration))
      && (forall id: nat :: Current(id) && runs[id].question.Diagnose? ==> expanded == Some(runs[id].question.integration))
    }
  }

  function Initial(linked: Option<string>): State {
    State(None, false, "", 0, None, map[], {}, 0, linked, false, true)
  }

  datatype Event =
    | Toggle(integration: string)
    | Diagnose
    | OfferTestEmail
    | ConfirmTestEmail
    | CancelTestEmail
    | Settle(id: nat, outcome: Outcome)
    | Unmount

  /** The diagnose button is on the expanded card; the dialog's buttons are there while the dialog is. */
  function Step(s: State, e: Event): State {
    match e
    case Toggle(integration) =>
      if !s.mounted then s
      else s.Reset().(expanded := if s.expanded == Some(integration) then None else Some(integration))
    case Diagnose =>
      if !s.mounted || s.expanded.None? then s else s.Started(Question.Diagnose(s.expanded.value))
    case OfferTestEmail =>
      if !s.mounted || s.expanded.None? then s else s.(pendingAction := true)
    case ConfirmTestEmail =>
      if !s.mounted || !s.pendingAction then s else s.(pendingAction := false).Started(TestEmail)
    case CancelTestEmail =>
      if !s.mounted then s else s.(pendingAction := false)
    case Settle(id, outcome) => s.Settled(id, outcome)
    case Unmount =>
      if !s.mounted then s else s.Abandoned().(mounted := false)
  }

  function After(linked: Option<string>, events: seq<Event>): State {
    if events == [] then Initial(linked)
    else Step(After(linked, events[..|events| - 1]), events[|events| - 1])
  }

  class IntegrationsPage {
    var report: Option<Shown>
    var running: bool
    var failure: string
    var generation: nat
    var controller: Option<nat>
    var runs: map<nat, Run>
    var aborted: set<nat>
    var started: nat
    var expanded: Option<string>
    var pendingAction: bool
    var mounted: bool

    ghost function Now(): State
      reads this
    {
      State(report, running, failure, generation, controller, runs, aborted, started, expanded, pendingAction, mounted)
    }

    constructor (linked: Option<string>)
      ensures Now() == Initial(linked)
    {
      report, running, failure, generation, controller := None, false, "", 0, None;
      runs, aborted, started := map[], {}, 0;
      expanded, pendingAction, mounted := linked, false, true;
    }

    /** Invalidates the run in flight without touching what is rendered. */
    method Abandon()
      modifies this
      ensures Now() == old(Now()).Abandoned()
    {
      generation := generation + 1;
      if controller.Some? {
        aborted := aborted + {controller.value};
      }
      controller := None;
    }

    method Reset()
      modifies this
      ensures Now() == old(Now()).Reset()
    {
      Abandon();
      report := None;
      failure := "";
      running := false;
    }

    method Start(question: Question)
      modifies this
      ensures Now() == old(Now()).Started(question)
    {
      if controller.Some? {
        return;
      }
      generation := generation + 1;
      var mine := generation;
      controller := Some(started);
      running := true;
      report := None;
      failure := "";
      runs := runs[started := Run(mine, question)];
      started := started + 1;
    }

    method Settle(id: nat, outcome: Outcome)
      requires id in runs
      modifies this
      ensures Now() == Step(old(Now()), Event.Settle(id, outcome))
    {
      var run := runs[id];
      runs := runs - {id};
      match outcome {
        case Reported(result) =>
          if run.mine == generation {
            report := Some(Shown(result, run.question));
          }
        case Failed(message) =>
          if run.mine == generation {
            failure := message;
          }
      }
      if run.mine != generation {
        return;
      }
      controller := None;
      running := false;
    }

    method Toggle(integration: string)
      requires mounted
      modifies this
      ensures Now() == Step(old(Now()), Event.Toggle(integration))
    {
      expanded := if expanded == Some(integration) then None else Some(integration);
      Reset();
    }

    method Diagnose()
      requires mounted && expanded.Some?
      modifies this
      ensures Now() == Step(old(Now()), Event.Diagnose)
    {
      Start(Question.Diagnose(expanded.value));
    }

    method OfferTestEmail()
      requires mounted && expanded.Some?
      modifies this
      ensures Now() == Step(old(Now()), Event.OfferTestEmail)
    {
      pendingAction := true;
    }

    method ConfirmTestEmail()
      requires mounted && pendingAction
      modifies this
      ensures Now() == Step(old(Now()), Event.ConfirmTestEmail)
    {
      pendingAction := false;
      Start(TestEmail);
    }

    method CancelTestEmail()
      requires mounted
      modifies this
      ensures Now() == Step(old(Now()), Event.CancelTestEmail)
    {
      pendingAction := false;
    }

    method Unmount()
      requires mounted
      modifies this
      ensures Now() == Step(old(Now()), Event.Unmount)
    {
      Abandon();
      mounted := false;
    }
  }

  // ----- what every run keeps -----

  lemma StepKeeps(s: State, e: Event)
    requires s.Valid()
    ensures Step(s, e).Valid()
  {
    match e
    case Toggle(_) => AbandonKeeps(s);
    case Diagnose =>
      if s.expanded.Some? {
        StartKeeps(s, Question.Diagnose(s.expanded.value));
      }
    case OfferTestEmail =>
    case ConfirmTestEmail => StartKeeps(s.(pendingAction := false), TestEmail);
    case CancelTestEmail =>
    case Settle(id, outcome) => SettleKeeps(s, id, outcome);
    case Unmount => AbandonKeeps(s);
  }

  lemma AbandonKeeps(s: State)
    requires s.Valid()
    ensures forall id <- s.runs :: id in s.Abandoned().aborted
    ensures forall id: nat :: !s.Abandoned().Current(id)
    ensures s.Abandoned().(mounted := false).Valid() && s.Reset().(expanded := None).Valid()
  {
    forall id <- s.runs
      ensures id in s.Abandoned().aborted
    {
      assert s.Current(id) || id in s.aborted;
    }
  }

  lemma StartKeeps(s: State, question: Question)
    requires s.Valid() && (question.Diagnose? ==> s.expanded == Some(question.integration))
    ensures s.Started(question).Valid()
  {
    var t := s.Started(question);
    forall id <- s.runs
      ensures s.controller.None? ==> id in s.aborted && !t.Current(id)
    {
      assert s.Current(id) || id in s.aborted;
    }
  }

  lemma SettleKeeps(s: State, id: nat, outcome: Outcome)
    requires s.Valid()
    ensures s.Settled(id, outcome).Valid()
  {
    var t := s.Settled(id, outcome);
    forall other <- t.runs
      ensures t.Current(other) == s.Current(other) && (s.Current(other) || other in s.aborted)
    {
    }
  }

  lemma {:induction false} AfterIsValid(linked: Option<string>, events: seq<Event>)
    ensures After(linked, events).Valid()
  {
    if events != [] {
      AfterIsValid(linked, events[..|events| - 1]);
      StepKeeps(After(linked, events[..|events| - 1]), events[|events| - 1]);
    }
  }

  /**
   While the page is mounted it shows a run in progress exactly while it holds a controller, and then
   exactly one unsettled run is current, the one whose controller is held and not aborted; every other
   run that has not settled was aborted.
   */
  lemma RunningIsExact(linked: Option<string>, events: seq<Event>)
    requires After(linked, events).mounted
    ensures var s := After(linked, events);
      && (s.running <==> s.controller.Some?)
      && (s.running <==> exists id :: s.Current(id))
      && (forall id: nat :: s.Current(id) <==> s.controller == Some(id))
      && (forall id <- s.runs :: !s.Current(id) <==> id in s.aborted)
  {
    AfterIsValid(linked, events);
    var s := After(linked, events);
    assert s.controller.Some? ==> s.Current(s.controller.value);
  }

  /** A report of a diagnosis is rendered under the card of the integration it was made for, and nowhere else. */
  lemma ReportsStandUnderTheirCard(linked: Option<string>, events: seq<Event>, integration: string)
    ensures var shown := After(linked, events).ReportUnder(integration);
      shown.Some? && shown.value.question.Diagnose? ==> shown.value.question.integration == integration
  {
    AfterIsValid(linked, events);
  }

  lemma AbortedGrows(s: State, e: Event)
    ensures s.aborted <= Step(s, e).aborted
  {
  }

  /** Once aborted, a run never becomes current again: the generation has moved past it for good. */
  lemma {:induction false} AbortedStays(linked: Option<string>, events: seq<Event>, i: nat, j: nat, id: nat)
    requires i <= j <= |events| && id in After(linked, events[..i]).aborted
    ensures id in After(linked, events[..j]).aborted && !After(linked, events[..j]).Current(id)
    decreases j
  {
    if i < j {
      AbortedStays(linked, events, i, j - 1, id);
      assert events[..j][..j - 1] == events[..j - 1];
      AbortedGrows(After(linked, events[..j - 1]), events[j - 1]);
    }
    AfterIsValid(linked, events[..j]);
  }

  /**
   An abandoned run can never write state again: whenever it settles, and with whatever, the page
   stays as it is, except that the run is no longer awaited.
   */
  lemma AbandonedIsSilent(linked: Option<string>, events: seq<Event>, i: nat, j: nat, id: nat, outcome: Outcome)
    requires i <= j <= |events| && id in After(linked, events[..i]).aborted
    ensures var s := After(linked, events[..j]);
      Step(s, Settle(id, outcome)) == s.(runs := s.runs - {id})
  {
    AbortedStays(linked, events, i, j, id);
  }

  /** Opening another card, or closing this one, clears the result and frees the button at once. */
  lemma TogglingFreesTheButton(linked: Option<string>, events: seq<Event>, integration: string)
    requires After(linked, events).mounted && After(linked, events).expanded != Some(integration)
    ensures var s := After(linked, events + [Toggle(integration), Event.Diagnose]);
      s.running && s.report.None? && exists id :: s.Current(id) && s.runs[id].question == Question.Diagnose(integration)
  {
    var all := events + [Toggle(integration), Event.Diagnose];
    assert all[..|events| + 1] == events + [Toggle(integration)] && (events + [Toggle(integration)])[..|events|] == events;
    var s, t := After(linked, events), After(linked, events + [Toggle(integration)]);
    assert t == Step(s, Toggle(integration));
    assert After(linked, all) == t.Started(Question.Diagnose(integration));
    assert After(linked, all).Current(s.started);
  }

  lemma AfterOneMore(linked: Option<string>, events: seq<Event>, e: Event)
    ensures After(linked, events + [e]) == Step(After(linked, events), e)
  {
    assert (events + [e])[..|events|] == events;
  }

  /** A run that is not abandoned ends: the page shows its report, or its failure. */
  lemma RunEnds(s: State, question: Question, outcome: Outcome)
    requires s.controller.None?
    ensures var t := s.Started(question).Settled(s.started, outcome);
      && t.expanded == s.expanded && !t.running && t.controller.None?
      && (outcome.Reported? ==> t.report == Some(Shown(outcome.report, question)) && t.failure == "")
      && (outcome.Failed? ==> t.report.None? && t.failure == outcome.message)
  {
    var u := s.Started(question);
    assert u.runs[s.started] == Run(s.generation + 1, question) && u.generation == s.generation + 1;
  }

  lemma AfterTwoMore(linked: Option<string>, events: seq<Event>, e: Event, f: Event)
    ensures After(linked, events + [e] + [f]) == Step(Step(After(linked, events), e), f)
  {
    AfterOneMore(linked, events, e);
    AfterOneMore(linked, events + [e], f);
  }

  /** A diagnosis is shown under the card it was asked from. */
  lemma DiagnosisIsShown(linked: Option<string>, events: seq<Event>, s: State, outcome: Outcome, t: State)
    requires s == After(linked, events) && s.mounted && s.expanded.Some? && s.controller.None?
    requires t == After(linked, events + [Event.Diagnose] + [Settle(s.started, outcome)])
    ensures !t.running && t.controller.None?
    ensures outcome.Reported? ==>
      t.ReportUnder(s.expanded.value) == Some(Shown(outcome.report, Question.Diagnose(s.expanded.value))) && t.failure == ""
    ensures outcome.Failed? ==> t.failure == outcome.message && t.report.None?
  {
    AfterTwoMore(linked, events, Event.Diagnose, Settle(s.started, outcome));
    RunEnds(s, Question.Diagnose(s.expanded.value), outcome);
  }

  /** The test message is sent only after the dialog was confirmed, and then once. */
  lemma TestNeedsConsent(linked: Option<string>, events: seq<Event>, e: Event, id: nat)
    requires var s, t := After(linked, events), After(linked, events + [e]);
      id !in s.runs && id in t.runs && t.runs[id].question == TestEmail
    ensures e == ConfirmTestEmail && After(linked, events).pendingAction && !After(linked, events + [e]).pendingAction
    ensures After(linked, events).controller.None?
  {
    AfterOneMore(linked, events, e);
  }
}
