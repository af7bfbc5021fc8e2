// commands.rs and src-tauri/lib.rs: asking before quitting with a live session. Times are in
// milliseconds.

module QuitDialog {
  import opened Shared

  const QUIT_DIALOG_TIMEOUT: nat := 20000

  datatype Choice = Stop | Keep | Cancel

  datatype Intercept = PassThrough | Ask | GiveUp

  // ---------------------------------------------------------------- the decision

  /** quit_intercept_decision, with should_intercept_quit inlined. */
  function Decide(approved: bool, live: bool, pendingFor: Option<nat>): Intercept {
    if approved || !live then PassThrough
    else if pendingFor.Some? && pendingFor.value >= QUIT_DIALOG_TIMEOUT then GiveUp
    else Ask
  }

  /** The managed state of the quit dialog: PendingQuit and QuitApproved. */
  datatype Gate = Gate(since: Option<nat>, approved: bool)

  /** How long the dialog has been open; an instant's age is never negative. */
  function PendingFor(g: Gate, now: nat): Option<nat> {
    match g.since
    case None => None
    case Some(at) => Some(if at <= now then now - at else 0)
  }

  function Marked(g: Gate, now: nat): Gate {
    g.(since := if g.since.Some? then g.since else Some(now))
  }

  /** One request at the gate: what is decided, and the clock started if the dialog is opened. */
  function Intercepted(g: Gate, now: nat, live: bool): (Gate, Intercept) {
    var d := Decide(g.approved, live, PendingFor(g, now));
    (if d == Ask then Marked(g, now) else g, d)
  }

  /** resolve_quit up to its first await. */
  function AfterAnswer(g: Gate, choice: Choice): Gate {
    Gate(None, choice != Cancel && g.approved)
  }

  /** resolve_quit behind its await, when a Stop or a Keep has been carried out. */
  function AfterCarrying(g: Gate): Gate {
    g.(approved := true)
  }

  class QuitGate {
    var since: Option<nat>
    var approved: bool

    ghost function State(): Gate
      reads this
    {
      Gate(since, approved)
    }

    constructor ()
      ensures State() == Gate(None, false)
    {
      since, approved := None, false;
    }

    /** PendingQuit::mark: keeps the first instant. */
    method Mark(now: nat)
      modifies `since
      ensures State() == Marked(old(State()), now)
    {
      if since == None {
        since := Some(now);
      }
    }

    /** PendingQuit::clear. */
    method Clear()
      modifies `since
      ensures since == None
    {
      since := None;
    }

    /** The ExitRequested and CloseRequested arms: true when the request is prevented. */
    method Requested(now: nat, live: bool) returns (prevented: bool)
      modifies `since
      ensures State() == Intercepted(old(State()), now, live).0
      ensures prevented <==> Intercepted(old(State()), now, live).1 == Ask
      ensures prevented <==> live && !approved && !(old(since).Some? && now >= old(since).value + 20000)
      ensures since == if prevented && old(since) == None then Some(now) else old(since)
    {
      var pending := None;
      if since.Some? {
        pending := Some(if since.value <= now then now - since.value else 0);
      }
      prevented := Decide(approved, live, pending) == Ask;
      if prevented {
        Mark(now);
      }
    }

    /** resolve_quit: the clock stops whatever the answer is, and Cancel takes the approval back. */
    method Answer(choice: Choice)
      modifies this
      ensures State() == AfterAnswer(old(State()), choice)
    {
      Clear();
      if choice == Cancel {
        approved := false;
      }
    }

    /** resolve_quit behind its await, for Stop and Keep. */
    method Approve()
      modifies `approved
      ensures State() == AfterCarrying(old(State()))
    {
      approved := true;
    }
  }

  // ---------------------------------------------------------------- the application as a machine

  /** A `Stop` or `Keep` answer on its way: the teardown or the detach is being waited for, and then the
      exit it asks for is delivered. */
  datatype Resolving = Waiting(choice: Choice) | Exiting

  /** How the process ended: was a session still live, and had the handler detached it? */
  datatype Ending = Ending(live: bool, approved: bool, detached: bool)

  datatype Entry =
    | Asked(at: nat)
    | Answered(choice: Choice, at: nat)
    | Carried(choice: Choice, at: nat)     // the answer has been carried out, and the quit is approved
    | Gave(at: nat)
    | Passed(at: nat)

  datatype App = App(
    now: nat, gate: Gate, live: bool,
    resolving: multiset<Resolving>, ended: Option<Ending>, log: seq<Entry>)

  datatype Event =
    | Request               // Cmd-Q, the window's close button, the menu
    | Answer(choice: Choice)
    | Resolved(choice: Choice)   // the Stop teardown or the Keep detach is over, one way or the other
    | ExitCall              // the exit that resolve_quit asked for reaches the event loop
    | Terminate             // AppKit's terminate:, which cannot be prevented
    | SessionStarts
    | SessionEnds
    | Tick(ms: nat)

  /** RunEvent::Exit: detach_on_terminate, then the process is gone. */
  function Exit(a: App): App {
    a.(ended := Some(Ending(a.live, a.gate.approved, !a.gate.approved && a.live)))
  }

  /** One exit request going through quit_decision. */
  function Requested(a: App): App {
    var (gate, d) := Intercepted(a.gate, a.now, a.live);
    var a' := a.(gate := gate);
    match d
    case Ask => a'.(log := a.log + [Asked(a.now)])
    case GiveUp => Exit(a'.(log := a.log + [Gave(a.now)]))
    case PassThrough => Exit(a'.(log := a.log + [Passed(a.now)]))
  }

  function Step(a: App, e: Event): App {
    if a.ended.Some? then a
    else
      match e
      case Request => Requested(a)
      case Answer(choice) =>
        a.(gate := AfterAnswer(a.gate, choice), log := a.log + [Answered(choice, a.now)],
           resolving := a.resolving + if choice == Cancel then multiset{} else multiset{Waiting(choice)})
      case Resolved(choice) =>
        if Waiting(choice) in a.resolving
        then a.(gate := AfterCarrying(a.gate), log := a.log + [Carried(choice, a.now)],
                resolving := a.resolving - multiset{Waiting(choice)} + multiset{Exiting})
        else a
      case ExitCall =>
        if Exiting in a.resolving then Requested(a.(resolving := a.resolving - multiset{Exiting})) else a
      case Terminate => Exit(a)
      case SessionStarts => a.(live := true)
      case SessionEnds => a.(live := false)
      case Tick(ms) => a.(now := a.now + ms)
  }

  function Run(a: App, events: seq<Event>): App
    decreases |events|
  {
    if events == [] then a else Run(Step(a, events[0]), events[1..])
  }

  predicate Started(a: App) {
    a.gate == Gate(None, false) && a.resolving == multiset{} && a.ended == None && a.log == []
  }

  // ---------------------------------------------------------------- the invariant

  predicate IsAnswer(x: Entry, c: Choice) {
    x.Answered? && x.choice == c
  }

  ghost predicate Said(log: seq<Entry>, c: Choice) {
    exists i :: 0 <= i < |log| && IsAnswer(log[i], c)
  }

  /** An answer was carried out as entry `j`, and Cancel has not been said since. */
  predicate StandsSince(log: seq<Entry>, j: nat) {
    j < |log| && log[j].Carried? && forall k :: j < k < |log| ==> !IsAnswer(log[k], Cancel)
  }

  ghost predicate ApprovalStands(log: seq<Entry>) {
    exists j: nat :: StandsSince(log, j)
  }

  /** Only a Stop or a Keep is ever carried out, and only after it has been said. */
  ghost predicate CarriedRightly(log: seq<Entry>) {
    forall j :: 0 <= j < |log| && log[j].Carried? ==> log[j].choice != Cancel && Said(log[..j], log[j].choice)
  }

  /** The dialog was opened at `t`, as entry `i` of the log, and nobody has answered since. */
  predicate OpenSince(log: seq<Entry>, i: nat, t: nat) {
    i < |log| && log[i] == Asked(t) && forall j :: i < j < |log| ==> !log[j].Answered?
  }

  /** The request that was given up on: a dialog that had been open, unanswered, for the whole timeout. */
  ghost predicate GaveUpRightly(log: seq<Entry>, k: nat)
    requires k < |log| && log[k].Gave?
  {
    exists i: nat, t: nat :: i < k && OpenSince(log[..k], i, t) && t + QUIT_DIALOG_TIMEOUT <= log[k].at
  }

  ghost predicate Inv(a: App) {
    && (a.gate.approved <==> ApprovalStands(a.log))
    && Waiting(Cancel) !in a.resolving && (forall c :: Waiting(c) in a.resolving ==> Said(a.log, c))
    && CarriedRightly(a.log)
    && (a.gate.since.Some? ==>
          a.gate.since.value <= a.now && exists i: nat :: OpenSince(a.log, i, a.gate.since.value))
    && (forall i: nat, t: nat :: OpenSince(a.log, i, t) ==> a.gate.since.Some? && a.gate.since.value <= t)
    && AllGaveRightly(a.log)
    && (a.ended.Some? ==>
          && (a.ended.value.approved <==> ApprovalStands(a.log))
          && (a.ended.value.detached <==> a.ended.value.live && !a.ended.value.approved))
  }

  ghost predicate AllGaveRightly(log: seq<Entry>) {
    forall k: nat :: k < |log| && log[k].Gave? ==> GaveUpRightly(log, k)
  }

  lemma SaidGrows(log: seq<Entry>, x: Entry, c: Choice)
    requires Said(log, c) || IsAnswer(x, c)
    ensures Said(log + [x], c)
  {
    if Said(log, c) {
      var i :| 0 <= i < |log| && IsAnswer(log[i], c);
      assert (log + [x])[i] == log[i];
    } else {
      assert (log + [x])[|log|] == x;
    }
  }

  /** One more entry: it gives the approval, takes it back, or leaves it as it was. */
  lemma ApprovalAfter(log: seq<Entry>, x: Entry)
    ensures ApprovalStands(log + [x]) <==> x.Carried? || (ApprovalStands(log) && !IsAnswer(x, Cancel))
  {
    var all := log + [x];
    if x.Carried? {
      assert StandsSince(all, |log|);
    } else {
      if ApprovalStands(log) && !IsAnswer(x, Cancel) {
        var j: nat :| StandsSince(log, j);
        assert StandsSince(all, j);
      }
      if ApprovalStands(all) {
        var j: nat :| StandsSince(all, j);
        assert all[|log|] == x && j < |log|;
        assert forall k :: 0 <= k < |log| ==> log[k] == all[k];
        assert StandsSince(log, j);
      }
    }
  }

  lemma CarriedGrows(log: seq<Entry>, x: Entry)
    requires CarriedRightly(log) && (x.Carried? ==> x.choice != Cancel && Said(log, x.choice))
    ensures CarriedRightly(log + [x])
  {
    hide Said;
    var all := log + [x];
    forall j | 0 <= j < |all| && all[j].Carried?
      ensures all[j].choice != Cancel && Said(all[..j], all[j].choice)
    {
      assert all[..j] == if j < |log| then log[..j] else log;
    }
  }

  /** What one more entry, not about an answer, does to everything the invariant says of the log. */
  lemma LogGrows(log: seq<Entry>, x: Entry)
    requires CarriedRightly(log) && (x.Carried? ==> x.choice != Cancel && Said(log, x.choice))
    ensures CarriedRightly(log + [x])
    ensures ApprovalStands(log + [x]) <==> x.Carried? || (ApprovalStands(log) && !IsAnswer(x, Cancel))
    ensures forall c :: Said(log, c) || IsAnswer(x, c) ==> Said(log + [x], c)
  {
    hide Said, ApprovalStands, CarriedRightly;
    CarriedGrows(log, x);
    ApprovalAfter(log, x);
    forall c | Said(log, c) || IsAnswer(x, c)
      ensures Said(log + [x], c)
    {
      SaidGrows(log, x, c);
    }
  }

  lemma OpenStays(log: seq<Entry>, x: Entry, i: nat, t: nat)
    requires OpenSince(log, i, t) && !x.Answered?
    ensures OpenSince(log + [x], i, t)
  {
  }

  lemma GaveStays(log: seq<Entry>, x: Entry)
    requires AllGaveRightly(log)
    requires x.Gave? ==> exists i: nat, t: nat :: i < |log| && OpenSince(log, i, t) && t + QUIT_DIALOG_TIMEOUT <= x.at
    ensures AllGaveRightly(log + [x])
  {
    forall k: nat | k < |log + [x]| && (log + [x])[k].Gave?
      ensures GaveUpRightly(log + [x], k)
    {
      if k < |log| {
        assert (log + [x])[..k] == log[..k];
        assert GaveUpRightly(log, k);
      } else {
        assert (log + [x])[..k] == log;
      }
    }
  }

  /** Whatever dialog is open with one more entry in the log was open before, or is opened by it. */
  lemma OpenedBefore(log: seq<Entry>, x: Entry)
    ensures forall i: nat, t: nat :: OpenSince(log + [x], i, t) ==>
              (OpenSince(log, i, t) && !x.Answered?) || x == Asked(t)
  {
    forall i: nat, t: nat | OpenSince(log + [x], i, t)
      ensures (OpenSince(log, i, t) && !x.Answered?) || x == Asked(t)
    {
      assert (log + [x])[|log|] == x;
      assert forall j :: 0 <= j < |log| ==> (log + [x])[j] == log[j];
    }
  }

  lemma RequestKeeps(a: App)
    requires Inv(a) && a.ended == None
    ensures Inv(Requested(a))
  {
    hide Said, ApprovalStands, CarriedRightly, OpenSince, AllGaveRightly;
    var d := Intercepted(a.gate, a.now, a.live).1;
    var x := match d case Ask => Asked(a.now) case GiveUp => Gave(a.now) case PassThrough => Passed(a.now);
    LogGrows(a.log, x);
    OpenedBefore(a.log, x);
    if a.gate.since.Some? {
      var i: nat :| OpenSince(a.log, i, a.gate.since.value);
      OpenStays(a.log, x, i, a.gate.since.value);
      OpenIndex(a.log, i, a.gate.since.value);
    } else if d == Ask {
      JustOpened(a.log, a.now);
    }
    GaveStays(a.log, x);
  }

  lemma OpenIndex(log: seq<Entry>, i: nat, t: nat)
    requires OpenSince(log, i, t)
    ensures i < |log|
  {
  }

  lemma JustOpened(log: seq<Entry>, t: nat)
    ensures OpenSince(log + [Asked(t)], |log|, t)
  {
  }

  lemma AnswerKeeps(a: App, choice: Choice)
    requires Inv(a) && a.ended == None
    ensures Inv(Step(a, Answer(choice)))
  {
    hide Said, ApprovalStands, CarriedRightly, OpenSince, AllGaveRightly;
    LogGrows(a.log, Answered(choice, a.now));
    OpenedBefore(a.log, Answered(choice, a.now));
    GaveStays(a.log, Answered(choice, a.now));
  }

  /** An answer has been carried out: the approval it gives had been agreed to. */
  lemma ResolvedKeeps(a: App, choice: Choice)
    requires Inv(a) && a.ended == None
    ensures Inv(Step(a, Resolved(choice)))
  {
    hide Said, ApprovalStands, CarriedRightly, OpenSince, AllGaveRightly;
    if Waiting(choice) in a.resolving {
      LogGrows(a.log, Carried(choice, a.now));
      OpenedBefore(a.log, Carried(choice, a.now));
      GaveStays(a.log, Carried(choice, a.now));
      if a.gate.since.Some? {
        var i: nat :| OpenSince(a.log, i, a.gate.since.value);
        OpenStays(a.log, Carried(choice, a.now), i, a.gate.since.value);
      }
    }
  }

  lemma ExitCallKeeps(a: App)
    requires Inv(a) && a.ended == None
    ensures Inv(Step(a, ExitCall))
  {
    hide Said, ApprovalStands, CarriedRightly, OpenSince, AllGaveRightly, Requested;
    if Exiting in a.resolving {
      RequestKeeps(a.(resolving := a.resolving - multiset{Exiting}));
    }
  }

  lemma OtherStepKeeps(a: App, e: Event)
    requires Inv(a) && a.ended == None && (e.Terminate? || e.SessionStarts? || e.SessionEnds? || e.Tick?)
    ensures Inv(Step(a, e))
  {
    hide Said, ApprovalStands, CarriedRightly, OpenSince, AllGaveRightly, Requested;
  }

  lemma StepKeeps(a: App, e: Event)
    requires Inv(a)
    ensures Inv(Step(a, e))
  {
    hide Inv;
    if a.ended == None {
      match e
      case Request => RequestKeeps(a);
      case Answer(choice) => AnswerKeeps(a, choice);
      case Resolved(choice) => ResolvedKeeps(a, choice);
      case ExitCall => ExitCallKeeps(a);
      case _ => OtherStepKeeps(a, e);
    }
  }

  lemma {:induction false} RunKeeps(a: App, events: seq<Event>)
    requires Inv(a)
    ensures Inv(Run(a, events))
    decreases |events|
  {
    hide Inv, Step;
    if events != [] {
      StepKeeps(a, events[0]);
      RunKeeps(Step(a, events[0]), events[1..]);
    }
  }

  // ---------------------------------------------------------------- the claims

  /** However requests, answers, session changes and the clock interleave: a process that ends with a live
      session has detached it, except exactly when a Stop or a Keep had been carried out and Cancel was not
      said since; only answers the user has given are carried out; and a request is given up on only if a
      dialog opened at least the timeout earlier has not been answered in between. */
  lemma NeverAbandonsASession(a: App, events: seq<Event>)
    requires Started(a)
    ensures var b := Run(a, events);
            && (b.ended.Some? && b.ended.value.live ==> (b.ended.value.detached <==> !ApprovalStands(b.log)))
            && CarriedRightly(b.log)
            && AllGaveRightly(b.log)
  {
    hide Said, OpenSince, AllGaveRightly, Run;
    StartedInv(a);
    RunKeeps(a, events);
  }

  lemma StartedInv(a: App)
    requires Started(a)
    ensures Inv(a)
  {
  }

  // ---------------------------------------------------------------- does the last answer decide?

  predicate NoneAgreeing(events: seq<Event>) {
    forall i :: 0 <= i < |events| ==> events[i].Answer? ==> events[i].choice == Cancel
  }

  /** The process ended with a live session that was not detached. */
  predicate Abandoned(a: App) {
    a.ended.Some? && a.ended.value.live && !a.ended.value.detached
  }

  /** A Stop or a Keep is still being carried out. */
  ghost predicate Underway(a: App) {
    exists c: Choice :: Waiting(c) in a.resolving
  }

  /** The session can still be abandoned without a further Stop or Keep. */
  ghost predicate CanBeAbandoned(a: App) {
    exists events :: NoneAgreeing(events) && Abandoned(Run(a, events))
  }

  lemma RefusedStep(a: App, e: Event)
    requires a.ended == None && !a.gate.approved && !Underway(a) && NoneAgreeing([e])
    ensures var a' := Step(a, e);
            !Abandoned(a') && (a'.ended == None ==> !a'.gate.approved && !Underway(a'))
  {
    assert [e][0] == e;
    forall c: Choice
      ensures Waiting(c) !in Step(a, e).resolving
    {
      assert Waiting(c) !in a.resolving;
    }
  }

  lemma {:induction false} EndedStays(a: App, events: seq<Event>)
    requires a.ended.Some?
    ensures Run(a, events) == a
    decreases |events|
  {
    if events != [] {
      EndedStays(a, events[1..]);
    }
  }

  lemma {:induction false} RefusedStaysRefused(a: App, events: seq<Event>)
    requires a.ended == None && !a.gate.approved && !Underway(a) && NoneAgreeing(events)
    ensures !Abandoned(Run(a, events))
    decreases |events|
  {
    hide Step, Underway;
    if events != [] {
      assert [events[0]][0] == events[0];
      RefusedStep(a, events[0]);
      assert NoneAgreeing(events[1..]);
      if Step(a, events[0]).ended.Some? {
        EndedStays(Step(a, events[0]), events[1..]);
      } else {
        RefusedStaysRefused(Step(a, events[0]), events[1..]);
      }
    }
  }

  lemma RunOfTwo(a: App, e: Event, f: Event)
    ensures Run(a, [e, f]) == Step(Step(a, e), f)
  {
    assert [e, f][1..] == [f] && [f][1..] == [];
    assert Run(Step(a, e), [f]) == Step(Step(a, e), f);
  }

  lemma RunOfThree(a: App, e: Event, f: Event, g: Event)
    ensures Run(a, [e, f, g]) == Step(Step(Step(a, e), f), g)
  {
    hide Step;
    assert [e, f, g][1..] == [f, g];
    RunOfTwo(Step(a, e), f, g);
  }

  /** Without another Stop or Keep the session can still be abandoned exactly when an approval stands or an
      earlier Stop or Keep is still being carried out. */
  lemma AbandonedWithoutAsking(a: App)
    requires a.ended == None
    ensures CanBeAbandoned(a) <==> a.gate.approved || Underway(a)
  {
    if CanBeAbandoned(a) && !(a.gate.approved || Underway(a)) {
      var events :| NoneAgreeing(events) && Abandoned(Run(a, events));
      RefusedStaysRefused(a, events);
    }
    if a.gate.approved {
      RunOfTwo(a, SessionStarts, Request);
      assert NoneAgreeing([SessionStarts, Request]) && Abandoned(Run(a, [SessionStarts, Request]));
    } else if Underway(a) {
      var c: Choice :| Waiting(c) in a.resolving;
      ResolvedLater(a, c);
      assert NoneAgreeing([SessionStarts, Resolved(c), ExitCall]);
    }
  }

  lemma ResolvedLater(a: App, c: Choice)
    requires a.ended == None && Waiting(c) in a.resolving
    ensures Abandoned(Run(a, [SessionStarts, Resolved(c), ExitCall]))
  {
    RunOfThree(a, SessionStarts, Resolved(c), ExitCall);
    var a2 := Step(Step(a, SessionStarts), Resolved(c));
    assert Exiting in a2.resolving && a2.gate.approved && a2.live;
  }

  /** Cancel is the last word exactly when no earlier Stop or Keep is still being carried out. */
  lemma CancelIsTheLastWord(a: App)
    requires a.ended == None
    ensures !CanBeAbandoned(Step(a, Answer(Cancel))) <==> !Underway(a)
  {
    hide CanBeAbandoned;
    assert Step(a, Answer(Cancel)).resolving == a.resolving;
    AbandonedWithoutAsking(Step(a, Answer(Cancel)));
  }

  /** The run in which it is not: Stop, then a second request and Cancel while the teardown is running. */
  lemma StopOutlivesCancel(a: App)
    requires Started(a) && a.live
    ensures var a1 := Step(Step(a, Request), Answer(Stop));
            var a2 := Step(Step(a1, Request), Answer(Cancel));
            var a3 := Step(Step(a2, Resolved(Stop)), ExitCall);
            && a2.ended == None && Abandoned(a3)
            && a3.log == [Asked(a.now), Answered(Stop, a.now), Asked(a.now),
                          Answered(Cancel, a.now), Carried(Stop, a.now), Passed(a.now)]
  {
    var a1 := Step(Step(a, Request), Answer(Stop));
    assert a1.gate == Gate(None, false) && a1.resolving == multiset{Waiting(Stop)};
    var a2 := Step(Step(a1, Request), Answer(Cancel));
    assert a2.gate == Gate(None, false) && a2.resolving == multiset{Waiting(Stop)};
    var a3 := Step(a2, Resolved(Stop));
    assert a3.gate.approved && Exiting in a3.resolving && a3.live;
  }

  // ---------------------------------------------------------------- an answer is carried out

  /** The answer `c` does not get resolved in these events. */
  predicate Unresolved(events: seq<Event>, c: Choice) {
    forall i :: 0 <= i < |events| ==> events[i] != Resolved(c)
  }

  lemma WaitingStep(a: App, e: Event, c: Choice)
    requires Waiting(c) in a.resolving && e != Resolved(c)
    ensures Waiting(c) in Step(a, e).resolving
  {
  }

  lemma {:induction false} WaitingStays(a: App, events: seq<Event>, c: Choice)
    requires Waiting(c) in a.resolving && Unresolved(events, c)
    ensures Waiting(c) in Run(a, events).resolving
    decreases |events|
  {
    hide Step;
    if events != [] {
      WaitingStep(a, events[0], c);
      assert Unresolved(events[1..], c);
      WaitingStays(Step(a, events[0]), events[1..], c);
    }
  }

  /** A Stop or a Keep is never lost: whatever happens while it is being carried out, when that is over the
      quit is approved, and the exit it asks for ends the process without detaching anything. */
  lemma AnswerIsCarriedOut(a: App, c: Choice, between: seq<Event>)
    requires a.ended == None && c != Cancel && Unresolved(between, c)
    requires Run(Step(a, Answer(c)), between).ended == None
    ensures var b := Step(Run(Step(a, Answer(c)), between), Resolved(c));
            && b.ended == None && b.gate.approved
            && Step(b, ExitCall).ended == Some(Ending(b.live, true, false))
  {
    hide Run;
    assert Waiting(c) in Step(a, Answer(c)).resolving;
    hide Step;
    WaitingStays(Step(a, Answer(c)), between, c);
    ResolvedExits(Run(Step(a, Answer(c)), between), c);
  }

  lemma ResolvedExits(a: App, c: Choice)
    requires a.ended == None && Waiting(c) in a.resolving
    ensures var b := Step(a, Resolved(c));
            && b.ended == None && b.gate.approved
            && Step(b, ExitCall).ended == Some(Ending(b.live, true, false))
  {
    assert Exiting in Step(a, Resolved(c)).resolving;
  }

  // ---------------------------------------------------------------- the timeout

  predicate Unanswered(events: seq<Event>) {
    forall i :: 0 <= i < |events| ==> !events[i].Answer?
  }

  lemma SinceStays(a: App, e: Event)
    requires a.gate.since.Some? && !e.Answer?
    ensures Step(a, e).gate.since == a.gate.since && a.now <= Step(a, e).now
  {
  }

  /** A dialog that is already open stays the one opened first. */
  lemma {:induction false} DeadlineIsNotRefreshed(a: App, events: seq<Event>)
    requires a.gate.since.Some? && Unanswered(events)
    ensures Run(a, events).gate.since == a.gate.since && a.now <= Run(a, events).now
    decreases |events|
  {
    hide Step;
    if events != [] {
      assert Unanswered(events[1..]);
      SinceStays(a, events[0]);
      DeadlineIsNotRefreshed(Step(a, events[0]), events[1..]);
    }
  }

  /** An unanswered dialog cannot make the app unquittable: once the timeout has passed since it opened,
      however many requests were made meanwhile, the next one ends the process. */
  lemma QuitsAfterTimeout(a: App, events: seq<Event>)
    requires a.gate.since.Some? && Unanswered(events)
    requires Run(a, events).now >= a.gate.since.value + QUIT_DIALOG_TIMEOUT
    ensures Step(Run(a, events), Request).ended.Some?
  {
    DeadlineIsNotRefreshed(a, events);
  }

  /** A dialog that was opened at least the timeout ago has not been answered. */
  ghost predicate DialogExpired(log: seq<Entry>, now: nat) {
    exists i: nat, t: nat :: OpenSince(log, i, t) && t + 20000 <= now
  }

  /** A request by the user, or the exit that an answer asked for. */
  predicate AsksToExit(a: App, e: Event) {
    e == Request || (e == ExitCall && Exiting in a.resolving)
  }

  /** At any point of any run: a request to exit ends the process exactly when no session is live, or a Stop
      or a Keep has been carried out and Cancel not said since, or a dialog has been open, unanswered, for
      the whole timeout; otherwise the dialog is shown and the session goes on. */
  lemma AsksUntilTimeout(a: App, events: seq<Event>, e: Event)
    requires Started(a) && Run(a, events).ended == None && AsksToExit(Run(a, events), e)
    ensures var b := Run(a, events);
            var c := Step(b, e);
            && (c.ended.Some? <==> !b.live || ApprovalStands(b.log) || DialogExpired(b.log, b.now))
            && (c.ended == None ==> c.log == b.log + [Asked(b.now)] && c.live)
            && (c.ended.Some? ==> c.ended.value.live == b.live)
  {
    hide Said, ApprovalStands, CarriedRightly, OpenSince, AllGaveRightly, Run;
    StartedInv(a);
    RunKeeps(a, events);
  }

  /** AppKit's terminate: is never prevented; it detaches a live session unless an approval stands. */
  lemma TerminateDetaches(a: App, events: seq<Event>)
    requires Started(a) && Run(a, events).ended == None
    ensures var b := Run(a, events);
            Step(b, Terminate).ended
            == Some(Ending(b.live, ApprovalStands(b.log), b.live && !ApprovalStands(b.log)))
  {
    hide Said, ApprovalStands, CarriedRightly, OpenSince, AllGaveRightly, Run;
    StartedInv(a);
    RunKeeps(a, events);
  }
}
