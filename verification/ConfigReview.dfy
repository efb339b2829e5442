/**
 The configuration screen's write interaction: review, then confirm.

 Answers of previews and writes arrive in any order. `Step` says what one event does; the class
 does it, field by field.
 */
module ConfigReview {
  import opened Text

  datatype ConfigValue = Number(real) | Flag(bool) | Words(string) | Null

  /** What a review froze when it opened. */
  datatype Snapshot =
    | Edit(revision: int, changes: map<string, ConfigValue>)
    | Rollback(revision: int, versionId: string)

  type Plan = string

  datatype Review = Review(request: Snapshot, plan: Plan)
  datatype Preview = Preview(snapshot: Snapshot, current: nat)
  datatype Write = Write(snapshot: Snapshot, reason: string)

  datatype Planned = Plan(plan: Plan) | Refused(message: string)
  datatype Written = Done(message: string) | Failed(message: string)

  /** `previews` and `writes` are the requests not answered yet; requests are numbered as they are sent. */
  datatype State = State(
    review: Option<Review>, previewing: bool, applying: bool, failure: Option<string>, feedback: Option<string>,
    generation: nat, previews: map<nat, Preview>, writes: map<nat, Write>, sent: nat, reloads: nat)
  {
    predicate Busy() {
      previewing || applying || review.Some?
    }

    /** The preview the screen waits for is among the requests not answered yet. */
    predicate Awaits(id: nat) {
      id in previews && previews[id].current == generation
    }

    /** `previewing` is shown for a preview that can still be answered, and only then. */
    ghost predicate Tracks() {
      previewing <==> exists id :: Awaits(id)
    }
  }

  const INITIAL := State(None, false, false, None, None, 0, map[], map[], 0, 0)

  datatype Event =
    | Open(revision: int, values: map<string, ConfigValue>)
    | OpenRollback(revision: int, versionId: string)
    | Answer(id: nat, planned: Planned)
    | Confirm(reason: string)
    | Complete(id: nat, written: Written)
    | Cancel
  {
    predicate Opens() {
      Open? || OpenRollback?
    }

    function Frozen(): Snapshot
      requires Opens()
    {
      if Open? then Edit(revision, values) else Rollback(revision, versionId)
    }
  }

  function Step(s: State, e: Event): State {
    match e
    case Open(_, _) => Started(s, e.Frozen())
    case OpenRollback(_, _) => Started(s, e.Frozen())
    case Answer(id, planned) =>
      if id !in s.previews then s
      else
        var t := s.(previews := s.previews - {id});
        if s.previews[id].current != s.generation then t
        else if planned.Plan? then t.(review := Some(Review(s.previews[id].snapshot, planned.plan)), previewing := false)
        else t.(failure := Some(planned.message), previewing := false)
    case Confirm(reason) =>
      if s.review.None? || s.applying then s
      else s.(applying := true, failure := None,
              writes := s.writes[s.sent := Write(s.review.value.request, reason)], sent := s.sent + 1)
    case Complete(id, written) =>
      if id !in s.writes then s
      else
        var t := s.(writes := s.writes - {id}, applying := false);
        if written.Done? then
          t.(generation := s.generation + 1, review := None, feedback := Some(written.message), reloads := s.reloads + 1)
        else t.(failure := Some(written.message))
    case Cancel =>
      s.(generation := s.generation + 1, review := None, previewing := false, failure := None)
  }

  function Started(s: State, snapshot: Snapshot): State {
    s.(generation := s.generation + 1, failure := None, feedback := None, previewing := true,
       previews := s.previews[s.sent := Preview(snapshot, s.generation + 1)], sent := s.sent + 1)
  }

  /** The state after a whole run. */
  function After(events: seq<Event>): State {
    if events == [] then INITIAL
    else Step(After(events[..|events| - 1]), events[|events| - 1])
  }

  class ReviewFlow {
    var review: Option<Review>
    var previewing: bool
    var applying: bool
    var failure: Option<string>
    var feedback: Option<string>
    var generation: nat
    var previews: map<nat, Preview>
    var writes: map<nat, Write>
    var sent: nat
    var reloads: nat

    ghost function Now(): State
      reads this
    {
      State(review, previewing, applying, failure, feedback, generation, previews, writes, sent, reloads)
    }

    constructor ()
      ensures Now() == INITIAL
    {
      review, previewing, applying, failure, feedback := None, false, false, None, None;
      generation, previews, writes, sent, reloads := 0, map[], map[], 0, 0;
    }

    method StartReview(snapshot: Snapshot)
      modifies this
      ensures Now() == Started(old(Now()), snapshot)
    {
      generation := generation + 1;
      var current := generation;
      failure := None;
      feedback := None;
      previewing := true;
      previews := previews[sent := Preview(snapshot, current)];
      sent := sent + 1;
    }

    method Open(revision: int, values: map<string, ConfigValue>)
      modifies this
      ensures Now() == Step(old(Now()), Event.Open(revision, values))
    {
      StartReview(Edit(revision, values));
    }

    method OpenRollback(revision: int, versionId: string)
      modifies this
      ensures Now() == Step(old(Now()), Event.OpenRollback(revision, versionId))
    {
      StartReview(Rollback(revision, versionId));
    }

    method Answer(id: nat, planned: Planned)
      requires id in previews
      modifies this
      ensures Now() == Step(old(Now()), Event.Answer(id, planned))
    {
      var preview := previews[id];
      previews := previews - {id};
      match planned {
        case Plan(plan) =>
          if preview.current == generation {
            review := Some(Review(preview.snapshot, plan));
          }
        case Refused(message) =>
          if preview.current == generation {
            failure := Some(message);
          }
      }
      if preview.current == generation {
        previewing := false;
      }
    }

    method Confirm(reason: string)
      modifies this
      ensures Now() == Step(old(Now()), Event.Confirm(reason))
    {
      if review.None? || applying {
        return;
      }
      applying := true;
      failure := None;
      writes := writes[sent := Write(review.value.request, reason)];
      sent := sent + 1;
    }

    method Complete(id: nat, written: Written)
      requires id in writes
      modifies this
      ensures Now() == Step(old(Now()), Event.Complete(id, written))
    {
      writes := writes - {id};
      match written {
        case Done(message) =>
          generation := generation + 1;
          review := None;
          feedback := Some(message);
          reloads := reloads + 1;
        case Failed(message) =>
          failure := Some(message);
      }
      applying := false;
    }

    method Cancel()
      modifies this
      ensures Now() == Step(old(Now()), Event.Cancel)
    {
      generation := generation + 1;
      review := None;
      previewing := false;
      failure := None;
    }
  }

  // ----- what is asked of the server -----

  const DOCUMENT := "auth.policy"

  datatype Call =
    | PreviewChanges(document: string, expectedRevision: int, changes: map<string, ConfigValue>)
    | PreviewRollback(versionId: string, expectedRevision: int)
    | ApplyChanges(document: string, expectedRevision: int, reason: string, changes: map<string, ConfigValue>)
    | RollBack(versionId: string, expectedRevision: int, reason: string)

  function PreviewFor(snapshot: Snapshot): Call {
    match snapshot
    case Rollback(revision, versionId) => PreviewRollback(versionId, revision)
    case Edit(revision, changes) => PreviewChanges(DOCUMENT, revision, changes)
  }

  function SubmitReview(snapshot: Snapshot, reason: string): Call {
    match snapshot
    case Rollback(revision, versionId) => RollBack(versionId, revision, reason)
    case Edit(revision, changes) => ApplyChanges(DOCUMENT, revision, reason, changes)
  }

  // ----- one write at a time -----

  lemma {:induction false} OneWriteAtATime(events: seq<Event>)
    ensures var s := After(events);
      && (s.applying <==> s.writes != map[])
      && (forall id, id' | id in s.writes && id' in s.writes :: id == id')
      && (forall id | id in s.writes || id in s.previews :: id < s.sent)
  {
    if events != [] {
      var e := events[|events| - 1];
      OneWriteAtATime(events[..|events| - 1]);
      var s := After(events[..|events| - 1]);
      assert e.Confirm? && s.review.Some? && !s.applying ==> s.sent in Step(s, e).writes;
      assert e.Complete? && e.id in s.writes ==> Step(s, e).writes == map[];
    }
  }

  // ----- a write carries what was reviewed -----

  /** At moment `i` the server answered `plan` to the preview of `snapshot`, and the screen showed it. */
  predicate Shown(events: seq<Event>, i: nat, snapshot: Snapshot, plan: Plan) {
    && i < |events|
    && var s, e := After(events[..i]), events[i];
    && e.Answer? && s.Awaits(e.id) && s.previews[e.id].snapshot == snapshot && e.planned == Planned.Plan(plan)
  }

  /** At moment `i` the review of `snapshot` was opened. */
  predicate Asked(events: seq<Event>, i: nat, snapshot: Snapshot) {
    i < |events| && events[i].Opens() && events[i].Frozen() == snapshot
  }

  lemma EarlierMoment(events: seq<Event>, n: nat, i: nat)
    requires i <= n <= |events|
    ensures events[..n][..i] == events[..i]
  {
  }

  lemma {:induction false} PreviewsWereAsked(events: seq<Event>, id: nat)
    requires id in After(events).previews
    ensures exists i :: Asked(events, i, After(events).previews[id].snapshot)
    decreases |events|
  {
    var n := |events| - 1;
    var s, e := After(events[..n]), events[n];
    if id in s.previews && !(e.Opens() && id == s.sent) {
      PreviewsWereAsked(events[..n], id);
      var i: nat :| Asked(events[..n], i, s.previews[id].snapshot);
      assert Asked(events, i, s.previews[id].snapshot);
    } else {
      assert Asked(events, n, After(events).previews[id].snapshot);
    }
  }

  lemma {:induction false} ReviewWasShown(events: seq<Event>)
    requires After(events).review.Some?
    ensures exists i :: Shown(events, i, After(events).review.value.request, After(events).review.value.plan)
    decreases |events|
  {
    var n := |events| - 1;
    var s, e := After(events[..n]), events[n];
    var r := After(events).review.value;
    if e.Answer? && s.Awaits(e.id) && e.planned.Plan? {
      assert Shown(events, n, r.request, r.plan);
    } else {
      ReviewWasShown(events[..n]);
      var i: nat :| Shown(events[..n], i, r.request, r.plan);
      EarlierMoment(events, n, i);
      assert Shown(events, i, r.request, r.plan);
    }
  }

  /** At moment `k` the operator confirmed the review on screen, and that was sent. */
  predicate Sent(events: seq<Event>, k: nat, w: Write) {
    && k < |events|
    && var s, e := After(events[..k]), events[k];
    && e == Event.Confirm(w.reason) && s.review.Some? && s.review.value.request == w.snapshot && !s.applying
  }

  lemma {:induction false} WritesWereConfirmed(events: seq<Event>, id: nat)
    requires id in After(events).writes
    ensures exists k :: Sent(events, k, After(events).writes[id])
    decreases |events|
  {
    var n := |events| - 1;
    var s, e := After(events[..n]), events[n];
    var w := After(events).writes[id];
    if id in s.writes && s.writes[id] == w {
      WritesWereConfirmed(events[..n], id);
      var k: nat :| Sent(events[..n], k, w);
      EarlierMoment(events, n, k);
      assert Sent(events, k, w);
    } else {
      assert Sent(events, n, w);
    }
  }

  /**
   Nothing is written that was not reviewed first: behind every write there is a confirmation of a
   review on screen, behind that review the server's plan for the same snapshot, and behind that the
   opening of the review that froze it, in this order, with nothing rebuilt in between.
   */
  lemma WritesAreReviewed(events: seq<Event>, id: nat)
    requires id in After(events).writes
    ensures exists i: nat, j: nat, k: nat, plan ::
      i < j < k && Sent(events, k, After(events).writes[id]) && After(events[..k]).review.value.plan == plan
      && Shown(events, j, After(events).writes[id].snapshot, plan) && Asked(events, i, After(events).writes[id].snapshot)
  {
    var w := After(events).writes[id];
    WritesWereConfirmed(events, id);
    var k: nat :| Sent(events, k, w);
    ReviewWasShown(events[..k]);
    var plan := After(events[..k]).review.value.plan;
    var j: nat :| Shown(events[..k], j, w.snapshot, plan);
    EarlierMoment(events, k, j);
    PreviewsWereAsked(events[..j], events[j].id);
    var i: nat :| Asked(events[..j], i, w.snapshot);
    assert Shown(events, j, w.snapshot, plan) && Asked(events, i, w.snapshot);
  }

  /** Two snapshots are the same question to the preview just when they are the same write. */
  lemma PreviewDecidesWrite(a: Snapshot, b: Snapshot, reason: string)
    ensures PreviewFor(a) == PreviewFor(b) <==> SubmitReview(a, reason) == SubmitReview(b, reason)
    ensures PreviewFor(a) == PreviewFor(b) <==> a == b
  {
  }

  // ----- previewing never sticks -----

  lemma {:induction false} GenerationsGrow(events: seq<Event>)
    ensures forall id <- After(events).previews :: id < After(events).sent && After(events).previews[id].current <= After(events).generation
  {
    if events != [] {
      GenerationsGrow(events[..|events| - 1]);
    }
  }

  /** At most one preview is awaited, and the flag shows it. */
  ghost predicate FlagShown(s: State) {
    && (forall id, id' :: s.Awaits(id) && s.Awaits(id') ==> id == id')
    && forall id :: s.Awaits(id) ==> s.previewing
  }

  lemma AnswerEndsWait(s: State, id: nat, planned: Planned)
    requires FlagShown(s)
    ensures FlagShown(Step(s, Answer(id, planned)))
  {
    var t := Step(s, Answer(id, planned));
    forall other | t.Awaits(other)
      ensures s.Awaits(other) && other != id
    {
    }
    assert s.Awaits(id) ==> forall other :: s.Awaits(other) ==> other == id;
  }

  lemma {:induction false} OnePreviewAwaited(events: seq<Event>)
    ensures FlagShown(After(events))
  {
    if events != [] {
      OnePreviewAwaited(events[..|events| - 1]);
      GenerationsGrow(events[..|events| - 1]);
      var s, e := After(events[..|events| - 1]), events[|events| - 1];
      if e.Answer? {
        AnswerEndsWait(s, e.id, e.planned);
      } else {
        forall id | After(events).Awaits(id)
          ensures if e.Opens() then id == s.sent else s.Awaits(id)
        {
        }
      }
    }
  }

  /**
   From a state that tracks, the one event that leads to a state that does not is a successful write
   landing while a preview is outstanding: it retires that preview but not the flag.
   */
  lemma TrackingBreaksExactly(events: seq<Event>, e: Event)
    requires After(events).Tracks()
    ensures After(events + [e]).Tracks()
            <==> !(e.Complete? && e.id in After(events).writes && e.written.Done? && After(events).previewing)
  {
    var s, t := After(events), After(events + [e]);
    assert (events + [e])[..|events|] == events;
    GenerationsGrow(events);
    OnePreviewAwaited(events);
    OnePreviewAwaited(events + [e]);
    if e.Opens() {
      assert t.Awaits(s.sent);
    }
    if s.previewing {
      var id :| s.Awaits(id);
      assert t.generation == s.generation ==> t.Awaits(id) || (e.Answer? && e.id == id);
    }
  }

  /** Reviews are opened only while the screen is not busy, as its disabled buttons see to. */
  ghost predicate Disciplined(events: seq<Event>) {
    forall i | 0 <= i < |events| :: events[i].Opens() ==> !After(events[..i]).Busy()
  }

  lemma {:induction false} DisciplinedPreviewsAlone(events: seq<Event>)
    requires Disciplined(events)
    ensures After(events).previewing ==> !After(events).applying && After(events).review.None?
  {
    if events != [] {
      var n := |events| - 1;
      forall i | 0 <= i < n
        ensures events[..n][i].Opens() ==> !After(events[..n][..i]).Busy()
      {
        EarlierMoment(events, n, i);
      }
      DisciplinedPreviewsAlone(events[..n]);
    }
  }

  /** In a disciplined run the form is held still exactly for a preview that will still be answered. */
  lemma {:induction false} PreviewingIsExact(events: seq<Event>)
    requires Disciplined(events)
    ensures After(events).Tracks()
  {
    if events != [] {
      var n := |events| - 1;
      forall i | 0 <= i < n
        ensures events[..n][i].Opens() ==> !After(events[..n][..i]).Busy()
      {
        EarlierMoment(events, n, i);
      }
      PreviewingIsExact(events[..n]);
      DisciplinedPreviewsAlone(events[..n]);
      OneWriteAtATime(events[..n]);
      TrackingBreaksExactly(events[..n], events[n]);
      assert events[..n] + [events[n]] == events;
    }
  }

  /** Once every request has been answered, only a review on screen keeps the form busy, and closing it frees the form. */
  lemma BusyNeverSticks(events: seq<Event>)
    requires Disciplined(events) && After(events).previews == map[] && After(events).writes == map[]
    ensures After(events).Busy() <==> After(events).review.Some?
    ensures !After(events + [Cancel]).Busy()
  {
    PreviewingIsExact(events);
    OneWriteAtATime(events);
    assert (events + [Cancel])[..|events|] == events;
  }

  /** Without the discipline it can: a review opened while an earlier one is being written. */
  lemma OverlappingReviewsStick(revision: int, first: string, second: string, reason: string, plan: Plan, done: string)
    ensures var s := After([OpenRollback(revision, first), Answer(0, Planned.Plan(plan)), Confirm(reason),
                            OpenRollback(revision, second), Complete(1, Done(done)), Answer(2, Planned.Plan(plan))]);
      s.Busy() && s.review.None? && s.previews == map[] && s.writes == map[]
  {
    var e0, e1, e2 := OpenRollback(revision, first), Answer(0, Planned.Plan(plan)), Confirm(reason);
    var e3, e4, e5 := OpenRollback(revision, second), Complete(1, Done(done)), Answer(2, Planned.Plan(plan));
    var all := [e0, e1, e2, e3, e4, e5];
    assert all[..5][..4] == all[..4] && all[..4][..3] == all[..3] && all[..3][..2] == all[..2] && all[..2][..1] == all[..1];
    assert all[..1][..0] == [];
    assert After([]) == INITIAL;
    var s1 := After(all[..1]);
    assert all[..1][0] == e0 && |all[..1]| == 1;
    assert s1 == Started(INITIAL, Rollback(revision, first));
    var s2 := After(all[..2]);
    assert s2.review == Some(Review(Rollback(revision, first), plan)) && s2.sent == 1 && s2.previews == map[];
    var s3 := After(all[..3]);
    assert s3.applying && s3.sent == 2 && s3.writes.Keys == {1};
    var s4 := After(all[..4]);
    assert s4.previewing && s4.previews.Keys == {2};
    var s5 := After(all[..5]);
    assert s5.previewing && s5.previews == s4.previews && s5.writes == map[] && s5.review.None?;
  }

  // ----- a review that goes through -----

  lemma AfterOneMore(events: seq<Event>, e: Event)
    ensures After(events + [e]) == Step(After(events), e)
  {
    assert (events + [e])[..|events|] == events;
  }

  /**
   From a form that is not busy a review goes through: the plan is shown for what was frozen at its
   opening, just that is written, and the success closes the review and frees the form.
   */
  lemma ReviewGoesThrough(events: seq<Event>, e: Event, plan: Plan, reason: string, message: string)
    requires e.Opens() && !After(events).Busy()
    ensures var n := After(events).sent;
      var shown := events + [e] + [Answer(n, Planned.Plan(plan))];
      var sent := shown + [Confirm(reason)];
      var done := sent + [Complete(n + 1, Done(message))];
      && After(shown).review == Some(Review(e.Frozen(), plan)) && !After(shown).previewing
      && n + 1 in After(sent).writes && After(sent).writes[n + 1] == Write(e.Frozen(), reason) && After(sent).applying
      && !After(done).Busy() && After(done).feedback == Some(message) && After(done).reloads == After(events).reloads + 1
  {
    var n := After(events).sent;
    var shown := events + [e] + [Answer(n, Planned.Plan(plan))];
    AfterOneMore(events, e);
    AfterOneMore(events + [e], Answer(n, Planned.Plan(plan)));
    AfterOneMore(shown, Confirm(reason));
    AfterOneMore(shown + [Confirm(reason)], Complete(n + 1, Done(message)));
  }

  /** A refusal of the preview or of the write is shown; after the latter the review is still there to be confirmed again. */
  lemma RefusalIsShown(events: seq<Event>, e: Event, plan: Plan, reason: string, message: string)
    requires e.Opens() && !After(events).Busy()
    ensures var n := After(events).sent;
      var refused := events + [e] + [Answer(n, Refused(message))];
      After(refused).failure == Some(message) && !After(refused).Busy()
    ensures var n := After(events).sent;
      var sent := events + [e] + [Answer(n, Planned.Plan(plan))] + [Confirm(reason)];
      var failed := sent + [Complete(n + 1, Failed(message))];
      && After(failed).failure == Some(message) && !After(failed).applying
      && After(failed).review == Some(Review(e.Frozen(), plan))
  {
    var n := After(events).sent;
    var shown := events + [e] + [Answer(n, Planned.Plan(plan))];
    AfterOneMore(events, e);
    AfterOneMore(events + [e], Answer(n, Refused(message)));
    AfterOneMore(events + [e], Answer(n, Planned.Plan(plan)));
    AfterOneMore(shown, Confirm(reason));
    AfterOneMore(shown + [Confirm(reason)], Complete(n + 1, Failed(message)));
  }
}
