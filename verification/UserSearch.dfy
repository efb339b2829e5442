/**
 Choosing a person by searching: the box, its debounce, the request behind it and the keyboard.

 `trim` stands for the language's own trimming and is left open. Loads are numbered as they start.
 */
module UserSearch {
  import opened Text
  import opened AdminQuery

  const MIN_TERM_LENGTH := 2

  datatype UserOption = UserOption(id: string, displayName: string)

  // ----- the debounced value -----

  /** `timer` is the value the running timer will settle. */
  datatype Debounce = Debounce(value: string, settled: string, timer: Option<string>) {
    function Changed(v: string): Debounce {
      if v == value then this else Debounce(v, settled, Some(v))
    }

    function Fired(): Debounce {
      if timer.None? then this else Debounce(value, timer.value, None)
    }

    /** A running timer carries the value of now; without one, the value of now has settled. */
    predicate Valid() {
      if timer.Some? then timer.value == value else settled == value
    }
  }

  class Debounced {
    var value: string
    var settled: string
    var timer: Option<string>

    ghost function Now(): Debounce
      reads this
    {
      Debounce(value, settled, timer)
    }

    constructor (initial: string)
      ensures Now() == Debounce(initial, initial, Some(initial))
    {
      value, settled, timer := initial, initial, Some(initial);
    }

    /** The effect: the running timer is cleared, a new one is set. */
    method Change(v: string)
      modifies this
      ensures Now() == old(Now()).Changed(v)
    {
      if v == value {
        return;
      }
      value := v;
      timer := Some(v);
    }

    method Fire()
      modifies this
      ensures Now() == old(Now()).Fired()
    {
      if timer.Some? {
        settled := timer.value;
        timer := None;
      }
    }
  }

  // ----- the control -----

  datatype Highlight = Highlight(term: string, index: nat)

  /** `asked` says of every load what it searched for: a term, or nothing when that was too short. */
  datatype State = State(
    term: Debounce, open: bool, highlight: Highlight,
    query: QueryState<seq<UserOption>>, asked: map<nat, Option<string>>, sent: nat, selected: Option<UserOption>)
  {
    predicate Stale(trim: string -> string) {
      trim(term.value) != trim(term.settled)
    }

    predicate Offering(trim: string -> string) {
      |trim(term.value)| >= MIN_TERM_LENGTH
    }

    /** What the operator can act on. */
    function Results(trim: string -> string): seq<UserOption> {
      if Stale(trim) || query.Data().None? then [] else query.Data().value
    }

    predicate Listed(trim: string -> string) {
      open && Offering(trim) && !Stale(trim) && query.Status() == Ready && Results(trim) != []
    }

    function Active(trim: string -> string): nat {
      if highlight.term == term.settled && highlight.index < |Results(trim)| then highlight.index else 0
    }

    function Question(trim: string -> string): Option<string> {
      if |trim(term.settled)| >= MIN_TERM_LENGTH then Some(trim(term.settled)) else None
    }

    ghost predicate Valid(trim: string -> string) {
      && term.Valid() && query.Valid(sent)
      && (forall id: nat :: id in asked <==> id < sent)
      && asked[query.active] == Question(trim)
      && (query.settled.Some? && query.settled.value.status == Ready ==> query.settled.value.data.Some?)
    }
  }

  function Initial(trim: string -> string): State {
    var asked := if |trim("")| >= MIN_TERM_LENGTH then Some(trim("")) else None;
    State(Debounce("", "", Some("")), false, Highlight("", 0), Mounted(0), map[0 := asked], 1, None)
  }

  datatype Event =
    | Type(text: string)
    | TimerFires
    | Answer(id: nat, outcome: Outcome<seq<UserOption>>)
    | ArrowDown
    | ArrowUp
    | Enter
    | Escape
    | Hover(index: nat)
    | Click(index: nat)
    | Retry
    | Clear
    | Select(selected: Option<UserOption>)
  {
    /** What the box and its list offer; the other events come from elsewhere. */
    predicate OfBox() {
      Type? || ArrowDown? || ArrowUp? || Enter? || Escape? || Hover? || Click? || Retry?
    }
  }

  /** Whom the event hands to the consumer, if anybody. The box is there only while nobody is selected. */
  function Picked(trim: string -> string, s: State, e: Event): Option<UserOption> {
    if s.selected.Some? then None
    else if e.Enter? && s.Results(trim) != [] then Some(s.Results(trim)[s.Active(trim)])
    else if e.Click? && s.Listed(trim) && e.index < |s.Results(trim)| then Some(s.Results(trim)[e.index])
    else None
  }

  function Restarted(trim: string -> string, s: State, term: Debounce, loader: nat, attempt: nat): State {
    var t := s.(term := term);
    t.(query := s.query.Restarted(loader, attempt, s.sent), asked := s.asked[s.sent := t.Question(trim)], sent := s.sent + 1)
  }

  function Chosen(s: State): State {
    s.(term := s.term.Changed(""), open := false)
  }

  /** Loads that searched for nothing resolve to nobody. */
  function Resolved(s: State, id: nat, outcome: Outcome<seq<UserOption>>): Outcome<seq<UserOption>> {
    if id in s.asked && s.asked[id].None? then Loaded([]) else outcome
  }

  function Step(trim: string -> string, s: State, e: Event): State {
    if e.OfBox() && s.selected.Some? then s
    else
      match e
      case Type(text) => s.(term := s.term.Changed(text), open := true)
      case TimerFires =>
        var fired := s.term.Fired();
        if fired.settled == s.term.settled then s.(term := fired)
        else Restarted(trim, s, fired, s.query.loader + 1, s.query.attempt)
      case Answer(id, outcome) => s.(query := s.query.Answered(id, Resolved(s, id, outcome)))
      case ArrowDown => Moved(trim, s, s.Active(trim) + 1)
      case ArrowUp => Moved(trim, s, s.Active(trim) - 1)
      case Enter => if s.Results(trim) == [] then s else Chosen(s)
      case Escape => s.(open := false)
      case Hover(index) =>
        if s.Listed(trim) && index < |s.Results(trim)| then s.(highlight := Highlight(s.term.settled, index)) else s
      case Click(index) => if s.Listed(trim) && index < |s.Results(trim)| then Chosen(s) else s
      case Retry =>
        if s.open && s.Offering(trim) && !s.Stale(trim) then Restarted(trim, s, s.term, s.query.loader, s.query.attempt + 1)
        else s
      case Clear => if s.selected.None? then s else Chosen(s)
      case Select(selected) => s.(selected := selected)
  }

  /** The highlight moves around the ends of the list. */
  function Moved(trim: string -> string, s: State, to: int): State
    requires -1 <= to && (s.Results(trim) != [] ==> to <= |s.Results(trim)|)
  {
    var n := |s.Results(trim)|;
    if n == 0 then s
    else s.(highlight := Highlight(s.term.settled, if to == -1 then n - 1 else if to == n then 0 else to))
  }

  function After(trim: string -> string, events: seq<Event>): State {
    if events == [] then Initial(trim)
    else Step(trim, After(trim, events[..|events| - 1]), events[|events| - 1])
  }

  class SearchSelect {
    const trim: string -> string
    const term: Debounced
    const query: Query<seq<UserOption>>
    var open: bool
    var highlight: Highlight
    var asked: map<nat, Option<string>>
    var sent: nat
    var selected: Option<UserOption>

    ghost function Now(): State
      reads this, term, query
    {
      State(term.Now(), open, highlight, query.Now(), asked, sent, selected)
    }

    constructor (trim: string -> string)
      ensures Now() == Initial(trim) && this.trim == trim && fresh(term) && fresh(query)
    {
      this.trim := trim;
      term := new Debounced("");
      query := new Query(0);
      open, highlight, sent, selected := false, Highlight("", 0), 1, None;
      asked := map[0 := if |trim("")| >= MIN_TERM_LENGTH then Some(trim("")) else None];
    }

    function Results(): (r: seq<UserOption>)
      reads this, term, query
      ensures r == Now().Results(trim)
    {
      var settled := query.settled;
      if trim(term.value) != trim(term.settled) then []
      else if settled.Some? && settled.value.loader == query.loader && settled.value.attempt == query.attempt
              && settled.value.data.Some? then settled.value.data.value
      else []
    }

    function Active(): (a: nat)
      reads this, term, query
      ensures a == Now().Active(trim)
      ensures Results() != [] ==> a < |Results()|
    {
      if highlight.term == term.settled && highlight.index < |Results()| then highlight.index else 0
    }

    /** A load for the term that has settled. */
    method Ask(loader: nat, attempt: nat)
      modifies this, query
      ensures Now() == Restarted(trim, old(Now()), old(term.Now()), loader, attempt)
    {
      query.Restart(loader, attempt, sent);
      var searching := |trim(term.settled)| >= MIN_TERM_LENGTH;
      asked := asked[sent := if searching then Some(trim(term.settled)) else None];
      sent := sent + 1;
    }

    method Type(text: string)
      requires selected.None?
      modifies this, term
      ensures Now() == Step(trim, old(Now()), Event.Type(text))
    {
      term.Change(text);
      open := true;
    }

    method TimerFires()
      modifies this, term, query
      ensures Now() == Step(trim, old(Now()), Event.TimerFires)
    {
      var before := term.settled;
      term.Fire();
      if term.settled != before {
        Ask(query.loader + 1, query.attempt);
      }
    }

    method Answer(id: nat, outcome: Outcome<seq<UserOption>>)
      requires id in query.loads
      modifies query
      ensures Now() == Step(trim, old(Now()), Event.Answer(id, outcome))
    {
      query.Answer(id, if id in asked && asked[id].None? then Loaded([]) else outcome);
    }

    method MoveHighlight(index: nat)
      modifies this`highlight
      ensures highlight == Highlight(term.settled, index)
    {
      highlight := Highlight(term.settled, index);
    }

    method Choose(user: UserOption) returns (picked: Option<UserOption>)
      modifies this, term
      ensures picked == Some(user) && Now() == Chosen(old(Now()))
    {
      picked := Some(user);
      term.Change("");
      open := false;
    }

    method Arrow(down: bool)
      requires selected.None? && Results() != []
      modifies this
      ensures Now() == Step(trim, old(Now()), if down then ArrowDown else ArrowUp)
    {
      var n := |Results()|;
      if down {
        Wraps(Active() + 1, n);
        MoveHighlight((Active() + 1) % n);
      } else {
        Wraps(Active() - 1 + n, n);
        MoveHighlight((Active() - 1 + n) % n);
      }
    }

    /** The key handling of the box. */
    method KeyDown(e: Event) returns (picked: Option<UserOption>)
      requires selected.None? && (e.Escape? || e.ArrowDown? || e.ArrowUp? || e.Enter?)
      modifies this, term
      ensures Now() == Step(trim, old(Now()), e) && picked == Picked(trim, old(Now()), e)
    {
      picked := None;
      if e.Escape? {
        open := false;
        return;
      }
      if |Results()| == 0 {
        return;
      }
      if e.Enter? {
        picked := Choose(Results()[Active()]);
      } else {
        Arrow(e.ArrowDown?);
      }
    }

    method Click(index: nat) returns (picked: Option<UserOption>)
      requires selected.None? && Now().Listed(trim) && index < |Results()|
      modifies this, term
      ensures Now() == Step(trim, old(Now()), Event.Click(index)) && picked == Picked(trim, old(Now()), Event.Click(index))
    {
      picked := Choose(Results()[index]);
    }

    method Hover(index: nat)
      requires selected.None? && Now().Listed(trim) && index < |Results()|
      modifies this
      ensures Now() == Step(trim, old(Now()), Event.Hover(index))
    {
      MoveHighlight(index);
    }

    method Retry()
      requires selected.None? && open && Now().Offering(trim) && !Now().Stale(trim)
      modifies this, query
      ensures Now() == Step(trim, old(Now()), Event.Retry)
    {
      Ask(query.loader, query.attempt + 1);
    }

    /** The choice is given up; the consumer is told so. */
    method Clear()
      requires selected.Some?
      modifies this, term
      ensures Now() == Step(trim, old(Now()), Event.Clear)
    {
      term.Change("");
      open := false;
    }

    /** The consumer renders the control with this choice. */
    method Select(chosen: Option<UserOption>)
      modifies this`selected
      ensures Now() == Step(trim, old(Now()), Event.Select(chosen))
    {
      selected := chosen;
    }
  }

  lemma Wraps(i: nat, n: nat)
    requires 0 < n && i < 2 * n
    ensures i % n == if i < n then i else i - n
  {
  }

  // ----- what every run keeps -----

  lemma RestartValid(trim: string -> string, s: State, term: Debounce, loader: nat, attempt: nat)
    requires s.Valid(trim) && term.Valid()
    requires loader >= s.query.loader && attempt >= s.query.attempt && (loader > s.query.loader || attempt > s.query.attempt)
    ensures Restarted(trim, s, term, loader, attempt).Valid(trim) && !Restarted(trim, s, term, loader, attempt).query.Fresh()
  {
    RestartKeeps(s.query, s.sent, loader, attempt);
  }

  lemma StepKeeps(trim: string -> string, s: State, e: Event)
    requires s.Valid(trim) && (e.Answer? && e.outcome.Failed? ==> e.outcome.status != Ready)
    ensures Step(trim, s, e).Valid(trim)
  {
    if e.TimerFires? && s.term.Fired().settled != s.term.settled {
      RestartValid(trim, s, s.term.Fired(), s.query.loader + 1, s.query.attempt);
    } else if e.Answer? {
      AnswerKeeps(s.query, s.sent, e.id, Resolved(s, e.id, e.outcome));
    } else if e.Retry? {
      RestartValid(trim, s, s.term, s.query.loader, s.query.attempt + 1);
    }
  }

  /** A failed answer carries one of the failing statuses. */
  predicate Classified(events: seq<Event>) {
    forall e <- events :: e.Answer? && e.outcome.Failed? ==> e.outcome.status != Ready
  }

  lemma {:induction false} AfterIsValid(trim: string -> string, events: seq<Event>)
    requires Classified(events)
    ensures After(trim, events).Valid(trim)
  {
    if events != [] {
      AfterIsValid(trim, events[..|events| - 1]);
      StepKeeps(trim, After(trim, events[..|events| - 1]), events[|events| - 1]);
    }
  }

  /** At moment `m` the server answered the search for `term` with `users`. */
  predicate Answered(trim: string -> string, events: seq<Event>, m: nat, term: string, users: seq<UserOption>) {
    && m < |events|
    && var s, e := After(trim, events[..m]), events[m];
    && e.Answer? && e.id in s.query.loads && e.id in s.asked && s.asked[e.id] == Some(term) && e.outcome == Loaded(users)
  }

  /** The step keeps the fresh result and the term it is for, or it is the answer itself. */
  lemma FreshComesFrom(trim: string -> string, s: State, e: Event)
    requires s.Valid(trim) && (e.Answer? && e.outcome.Failed? ==> e.outcome.status != Ready)
    requires var t := Step(trim, s, e); t.query.Data().Some? && t.query.Data().value != []
    ensures var t := Step(trim, s, e);
      || (s.query.Data() == t.query.Data() && s.term.settled == t.term.settled)
      || (&& e.Answer? && e.id in s.query.loads && e.id in s.asked
          && s.asked[e.id] == Some(trim(t.term.settled)) && e.outcome == Loaded(t.query.Data().value))
  {
    var t := Step(trim, s, e);
    StepKeeps(trim, s, e);
    if e.TimerFires? && s.term.Fired().settled != s.term.settled {
      RestartValid(trim, s, s.term.Fired(), s.query.loader + 1, s.query.attempt);
    } else if e.Retry? {
      RestartValid(trim, s, s.term, s.query.loader, s.query.attempt + 1);
    } else if e.Answer? && t.query.settled != s.query.settled {
      ReplacedLoadsAreSilent(s.query, s.sent, e.id, Resolved(s, e.id, e.outcome));
    }
  }

  lemma {:induction false} DataWasAnswered(trim: string -> string, events: seq<Event>)
    requires Classified(events)
    requires After(trim, events).query.Data().Some? && After(trim, events).query.Data().value != []
    ensures exists m: nat ::
      Answered(trim, events, m, trim(After(trim, events).term.settled), After(trim, events).query.Data().value)
    decreases |events|
  {
    if events != [] {
      var n := |events| - 1;
      var s, e, t := After(trim, events[..n]), events[n], After(trim, events);
      var term, users := trim(t.term.settled), t.query.Data().value;
      AfterIsValid(trim, events[..n]);
      FreshComesFrom(trim, s, e);
      if s.query.Data() == t.query.Data() && s.term.settled == t.term.settled {
        DataWasAnswered(trim, events[..n]);
        var m: nat :| Answered(trim, events[..n], m, term, users);
        assert events[..n][..m] == events[..m];
        assert Answered(trim, events, m, term, users);
      } else {
        assert Answered(trim, events, n, term, users);
      }
    }
  }

  /**
   Whatever the order of keystrokes, expiring timers and late answers: whoever is picked, by a click or
   by Enter, was in the server's answer to the very term that is in the box, and that is long enough
   to have been searched for.
   */
  lemma PickedAnswersTheTerm(trim: string -> string, events: seq<Event>, e: Event)
    requires Classified(events) && Picked(trim, After(trim, events), e).Some?
    ensures var s := After(trim, events);
      exists m: nat, users ::
        Answered(trim, events, m, trim(s.term.value), users) && Picked(trim, s, e).value in users
    ensures |trim(After(trim, events).term.value)| >= 2
  {
    var s := After(trim, events);
    AfterIsValid(trim, events);
    DataWasAnswered(trim, events);
    var m: nat :| Answered(trim, events, m, trim(s.term.settled), s.query.Data().value);
    AskedIsLong(trim, events[..m], events[m].id);
  }

  /** Terms that are too short are never asked. */
  lemma {:induction false} AskedIsLong(trim: string -> string, events: seq<Event>, id: nat)
    requires id in After(trim, events).asked && After(trim, events).asked[id].Some?
    ensures |After(trim, events).asked[id].value| >= MIN_TERM_LENGTH
    decreases |events|
  {
    if events != [] {
      var s, e := After(trim, events[..|events| - 1]), events[|events| - 1];
      if id in s.asked && After(trim, events).asked[id] == s.asked[id] {
        AskedIsLong(trim, events[..|events| - 1], id);
      }
    }
  }

  /** The highlight is always on somebody who is offered. */
  lemma HighlightInRange(trim: string -> string, s: State, e: Event)
    requires s.Results(trim) != []
    ensures s.Active(trim) < |s.Results(trim)|
    ensures Picked(trim, s, e).Some? ==> Picked(trim, s, e).value in s.Results(trim)
  {
  }

  /** The arrows undo each other, around both ends of the list. */
  lemma ArrowsUndo(trim: string -> string, s: State)
    requires s.selected.None? && s.Results(trim) != []
    ensures Step(trim, Step(trim, s, ArrowDown), ArrowUp).Active(trim) == s.Active(trim)
    ensures Step(trim, Step(trim, s, ArrowUp), ArrowDown).Active(trim) == s.Active(trim)
  {
    MovedActive(trim, s, s.Active(trim) + 1);
    MovedActive(trim, s, s.Active(trim) - 1);
    var down, up := Moved(trim, s, s.Active(trim) + 1), Moved(trim, s, s.Active(trim) - 1);
    MovedActive(trim, down, down.Active(trim) - 1);
    MovedActive(trim, up, up.Active(trim) + 1);
  }

  lemma MovedActive(trim: string -> string, s: State, to: int)
    requires s.selected.None? && -1 <= to <= |s.Results(trim)| && s.Results(trim) != []
    ensures var t := Moved(trim, s, to);
      && t.Results(trim) == s.Results(trim) && t.selected.None?
      && t.Active(trim) == if to == -1 then |s.Results(trim)| - 1 else if to == |s.Results(trim)| then 0 else to
  {
  }

  // ----- whom Enter and a click pick -----

  /** The same key, `k` times. */
  function Pressed(trim: string -> string, s: State, e: Event, k: nat): State {
    if k == 0 then s else Step(trim, Pressed(trim, s, e, k - 1), e)
  }

  lemma AtLeastOnce(d: int, n: nat)
    requires d >= 1
    ensures d * n >= n
  {
  }

  lemma Distributes(p: int, q: int, n: int)
    ensures (p - q) * n == p * n - q * n
  {
  }

  lemma Division(x: int, n: nat) returns (q: int)
    requires n > 0
    ensures x == q * n + x % n && 0 <= x % n < n
  {
    q := x / n;
  }

  lemma RemainderIs(x: int, n: nat, q: int, r: nat)
    requires x == q * n + r && r < n
    ensures x % n == r
  {
    var p := Division(x, n);
    Distributes(p, q, n);
    Distributes(q, p, n);
    if p > q {
      AtLeastOnce(p - q, n);
    } else if p < q {
      AtLeastOnce(q - p, n);
    }
  }

  lemma WrapDown(x: int, n: nat)
    requires n > 0
    ensures (x + 1) % n == if x % n + 1 == n then 0 else x % n + 1
  {
    var q := Division(x, n);
    if x % n + 1 == n {
      Distributes(q, -1, n);
      RemainderIs(x + 1, n, q + 1, 0);
    } else {
      RemainderIs(x + 1, n, q, x % n + 1);
    }
  }

  lemma WrapUp(x: int, n: nat)
    requires n > 0
    ensures (x - 1) % n == if x % n == 0 then n - 1 else x % n - 1
  {
    var q := Division(x, n);
    if x % n == 0 {
      Distributes(q, 1, n);
      RemainderIs(x - 1, n, q - 1, n - 1);
    } else {
      RemainderIs(x - 1, n, q, x % n - 1);
    }
  }

  /** One arrow moves the highlight one row and leaves the list as it is. */
  lemma ArrowMoves(trim: string -> string, s: State, down: bool)
    requires s.selected.None? && s.Results(trim) != []
    ensures var t, n, a := Step(trim, s, if down then ArrowDown else ArrowUp), |s.Results(trim)|, s.Active(trim);
      && t.selected.None? && t.Results(trim) == s.Results(trim) && t.open == s.open && t.term == s.term
      && t.Active(trim) == if down then (if a + 1 == n then 0 else a + 1) else (if a == 0 then n - 1 else a - 1)
  {
    MovedActive(trim, s, if down then s.Active(trim) + 1 else s.Active(trim) - 1);
  }

  /** The arrows move the highlight one row at a time, down and up, around the ends. */
  lemma {:induction false} ArrowsMove(trim: string -> string, s: State, down: bool, k: nat)
    requires s.selected.None? && s.Results(trim) != []
    ensures var t := Pressed(trim, s, if down then ArrowDown else ArrowUp, k);
      && t.selected.None? && t.Results(trim) == s.Results(trim) && t.open == s.open && t.term == s.term
      && t.Active(trim) == (if down then s.Active(trim) + k else s.Active(trim) - k) % |s.Results(trim)|
  {
    var n, a := |s.Results(trim)|, s.Active(trim);
    if k == 0 {
      HighlightInRange(trim, s, Enter);
      RemainderIs(a, n, 0, a);
    } else {
      ArrowsMove(trim, s, down, k - 1);
      ArrowMoves(trim, Pressed(trim, s, if down then ArrowDown else ArrowUp, k - 1), down);
      WrapDown(a + (k - 1), n);
      WrapUp(a - (k - 1), n);
    }
  }

  /** After any number of arrows, Enter picks the person the arrows have come to. */
  lemma ArrowsThenEnter(trim: string -> string, s: State, down: bool, k: nat)
    requires s.selected.None? && s.Results(trim) != []
    ensures var n := |s.Results(trim)|;
      Picked(trim, Pressed(trim, s, if down then ArrowDown else ArrowUp, k), Enter)
      == Some(s.Results(trim)[(if down then s.Active(trim) + k else s.Active(trim) - k) % n])
  {
    ArrowsMove(trim, s, down, k);
  }

  /** A row that is pointed at is the one Enter picks; a click picks its row itself. */
  lemma PointedAtIsPicked(trim: string -> string, s: State, i: nat)
    requires s.selected.None? && s.Listed(trim) && i < |s.Results(trim)|
    ensures Picked(trim, Step(trim, s, Hover(i)), Enter) == Some(s.Results(trim)[i])
    ensures Picked(trim, s, Click(i)) == Some(s.Results(trim)[i])
    ensures !Step(trim, s, Click(i)).open && Step(trim, s, Click(i)).term.value == ""
  {
    assert Step(trim, s, Hover(i)).Results(trim) == s.Results(trim);
  }

  /** Escape closes the list and keeps what was found; typing opens it, with nothing of the term before. */
  lemma ListOpensAndCloses(trim: string -> string, s: State, text: string)
    requires s.selected.None?
    ensures var t := Step(trim, s, Escape); !t.Listed(trim) && t.Results(trim) == s.Results(trim) && t.term == s.term
    ensures var t := Step(trim, s, Type(text));
      t.open && t.term.value == text && (trim(text) != trim(s.term.settled) ==> t.Results(trim) == [])
  {
  }

  /** A new term is searched for once it has settled, and its answer is what can be picked from, first row first. */
  lemma TypedIsOffered(trim: string -> string, s: State, text: string, users: seq<UserOption>)
    requires s.Valid(trim) && s.selected.None? && text != s.term.value && text != s.term.settled
    requires |trim(text)| >= 2 && users != []
    ensures var typed := Step(trim, s, Type(text));
      var asked := Step(trim, typed, TimerFires);
      var t := Step(trim, asked, Answer(s.sent, Loaded(users)));
      && asked.asked[s.sent] == Some(trim(text))
      && t.Results(trim) == users && t.Listed(trim)
      && (s.highlight.term != text ==> Picked(trim, t, Enter) == Some(users[0]))
  {
  }
}
