// process.rs `spawn_streamed_inner`: one supervised child, its process group, its output pipes with a
// pump task each, and the clock, as a machine whose timers must fire. Times are in milliseconds.

module Supervise {
  import opened Shared

  const PUMP_DRAIN_GRACE: nat := 2000
  const GROUP_POLL_INTERVAL: nat := 25

  type Pid = nat

  datatype Stream = Stdout | Stderr

  /** The write ends a process holds. */
  datatype Pipes = Pipes(out: bool, err: bool)

  /** A member of the child's process group. `signalable` is false for one that runs as somebody else. */
  datatype Member = Member(alive: bool, signalable: bool, pipes: Pipes)

  /** A pump's join handle: the task still reads, has seen the end of the pipe, or has been awaited to its
      end. Awaiting it once more after that is a panic of the runtime. */
  datatype Pump = Reading | Finished | Awaited

  datatype Signal = Term | Kill

  datatype Sent = Sent(signal: Signal, at: nat)

  datatype Result = Exited | Cancelled

  /** Where the supervisor waits. `on` is the handle that `drain_pumps` is awaiting. */
  datatype Phase =
    | Running                                              // select!: child.wait() or cancel.cancelled()
    | Terminating(deadline: nat)                           // timeout_at(deadline, child.wait())
    | Reaping(deadline: nat)                               // child.wait() after the first SIGKILL
    | Polling(deadline: nat, wake: nat)                    // asleep until `wake`, then looks at the group
    | Draining(until: nat, on: Stream, cancelled: bool)    // drain_pumps
    | DrainingAgain(until: nat, on: Stream)                // drain_pumps after the last SIGKILL
    | Returned(result: Result)
    | Panicked

  /** `outside` are descendants that left the group, with the pipes they hold; `cancelAt` is when the token
      fired; `stuck` is the handle that a cancelled call's first drain was awaiting when it timed out. */
  datatype State = State(
    now: nat, leader: Pid, group: map<Pid, Member>, outside: map<Pid, Pipes>, out: Pump, err: Pump,
    cancelAt: Option<nat>, phase: Phase, stuck: Option<Stream>, sent: seq<Sent>, grace: nat)

  // ---------------------------------------------------------------- what the supervisor can see

  /** group_alive: kill(-pgid, 0) reaches somebody. */
  predicate GroupAlive(s: State) {
    exists p :: p in s.group && s.group[p].alive && s.group[p].signalable
  }

  predicate LeaderAlive(s: State) {
    s.leader in s.group && s.group[s.leader].alive
  }

  predicate Holds(pipes: Pipes, stream: Stream) {
    if stream == Stdout then pipes.out else pipes.err
  }

  /** Somebody can still write to the pipe. */
  predicate Held(s: State, stream: Stream) {
    || (exists p :: p in s.group && s.group[p].alive && Holds(s.group[p].pipes, stream))
    || (exists p :: p in s.outside && Holds(s.outside[p], stream))
  }

  function PumpOf(s: State, stream: Stream): Pump {
    if stream == Stdout then s.out else s.err
  }

  function WithPump(s: State, stream: Stream, pump: Pump): State {
    if stream == Stdout then s.(out := pump) else s.(err := pump)
  }

  // ---------------------------------------------------------------- signals

  /** SIGKILL is effective: every member that can be signalled is dead. */
  function Killed(group: map<Pid, Member>): map<Pid, Member> {
    map p | p in group :: if group[p].signalable then group[p].(alive := false) else group[p]
  }

  function SendKill(s: State): State {
    s.(group := Killed(s.group), sent := s.sent + [Sent(Kill, s.now)])
  }

  /** SIGTERM itself changes nothing here: who obeys exits by an `Exit` event, who does not stays. */
  function SendTerm(s: State): State {
    s.(sent := s.sent + [Sent(Term, s.now)])
  }

  // ---------------------------------------------------------------- the supervisor's moves

  datatype Move =
    | ChildExited      // select! took child.wait()
    | CancelSeen       // select! took cancel.cancelled()
    | Go               // the one thing to do in any later phase

  predicate Enabled(s: State, m: Move) {
    match s.phase
    case Running =>
      (m == ChildExited && !LeaderAlive(s)) || (m == CancelSeen && s.cancelAt.Some?)
    case Terminating(deadline) => m == Go && (!LeaderAlive(s) || s.now >= deadline)
    case Reaping(_) => m == Go && !LeaderAlive(s)
    case Polling(_, wake) => m == Go && s.now >= wake
    case Draining(until, on, _) => m == Go && (PumpOf(s, on) != Reading || s.now >= until)
    case DrainingAgain(until, on) => m == Go && (PumpOf(s, on) != Reading || s.now >= until)
    case _ => false
  }

  /** The await of one handle: its task's end is taken, or the drain times out, or the handle had been
      awaited to its end before. */
  function Await(s: State, on: Stream, next: Phase, timedOut: State): State {
    match PumpOf(s, on)
    case Finished => WithPump(s, on, Awaited).(phase := next)
    case Awaited => s.(phase := Panicked)
    case Reading => timedOut
  }

  function Move1(s: State, m: Move): State
    requires Enabled(s, m)
  {
    match s.phase
    case Running =>
      if m == ChildExited then s.(phase := Draining(s.now + PUMP_DRAIN_GRACE, Stdout, false))
      else SendTerm(s).(phase := Terminating(s.now + s.grace))
    case Terminating(deadline) =>
      if !LeaderAlive(s) then s.(phase := Polling(deadline, s.now))
      else SendKill(s).(phase := Reaping(deadline))
    case Reaping(deadline) => s.(phase := Polling(deadline, s.now))
    case Polling(deadline, _) =>
      if GroupAlive(s) && s.now < deadline then s.(phase := Polling(deadline, s.now + GROUP_POLL_INTERVAL))
      else (if GroupAlive(s) then SendKill(s) else s).(phase := Draining(s.now + PUMP_DRAIN_GRACE, Stdout, true))
    case Draining(until, on, cancelled) =>
      Await(s, on,
            if on == Stdout then Draining(until, Stderr, cancelled)
            else Returned(if cancelled then Cancelled else Exited),
            if cancelled then SendKill(s).(phase := DrainingAgain(s.now + PUMP_DRAIN_GRACE, Stdout), stuck := Some(on))
            else s.(phase := Returned(Exited)))
    case DrainingAgain(until, on) =>
      Await(s, on,
            if on == Stdout then DrainingAgain(until, Stderr) else Returned(Cancelled),
            s.(phase := Returned(Cancelled)))
    case _ => s
  }

  // ---------------------------------------------------------------- what everything else does

  datatype Event =
    | Exit(pid: Pid)
    | Fork(parent: Pid, child: Pid, pipes: Pipes)
    | Elevate(pid: Pid)          // becomes somebody we cannot signal
    | Close(pid: Pid, stream: Stream)
    | Leave(pid: Pid)            // setsid: out of the group, pipes in hand
    | LetGo(pid: Pid)            // one outside the group exits or closes its pipes
    | PumpEnds(stream: Stream)   // the pump has seen the end of its pipe
    | Cancel                     // the token fires
    | Tick(ms: nat)

  /** The timer the supervisor is asleep on, if any. */
  function Timer(s: State): Option<nat> {
    match s.phase
    case Terminating(deadline) => Some(deadline)
    case Polling(_, wake) => Some(wake)
    case Draining(until, _, _) => Some(until)
    case DrainingAgain(until, _) => Some(until)
    case _ => None
  }

  predicate SomethingToDo(s: State) {
    Enabled(s, ChildExited) || Enabled(s, CancelSeen) || Enabled(s, Go)
  }

  /** Time passes only while the supervisor has nothing to do, and never past its timer. */
  predicate CanHappen(s: State, e: Event) {
    match e
    case Exit(p) => p in s.group
    case Fork(parent, child, pipes) =>
      && parent in s.group && s.group[parent].alive && child !in s.group
      && (pipes.out ==> s.group[parent].pipes.out) && (pipes.err ==> s.group[parent].pipes.err)
    case Elevate(p) => p in s.group && p != s.leader
    case Close(p, _) => p in s.group
    case Leave(p) => p in s.group && p != s.leader && s.group[p].alive
    case LetGo(p) => p in s.outside
    case PumpEnds(stream) => PumpOf(s, stream) == Reading && !Held(s, stream)
    case Cancel => s.cancelAt.None?
    case Tick(ms) => !SomethingToDo(s) && match Timer(s) case Some(at) => s.now + ms <= at case None => true
  }

  function Happen(s: State, e: Event): State
    requires CanHappen(s, e)
  {
    match e
    case Exit(p) => s.(group := s.group[p := s.group[p].(alive := false)])
    case Fork(parent, child, pipes) => s.(group := s.group[child := s.group[parent].(pipes := pipes)])
    case Elevate(p) => s.(group := s.group[p := s.group[p].(signalable := false)])
    case Close(p, stream) =>
      var pipes := s.group[p].pipes;
      s.(group := s.group[p := s.group[p].(pipes := if stream == Stdout then pipes.(out := false)
                                                     else pipes.(err := false))])
    case Leave(p) => s.(group := s.group - {p}, outside := s.outside[p := s.group[p].pipes])
    case LetGo(p) => s.(outside := s.outside - {p})
    case PumpEnds(stream) => WithPump(s, stream, Finished)
    case Cancel => s.(cancelAt := Some(s.now))
    case Tick(ms) => s.(now := s.now + ms)
  }

  datatype Step = Supervisor(move: Move) | World(event: Event)

  predicate CanStep(s: State, step: Step) {
    match step
    case Supervisor(m) => Enabled(s, m)
    case World(e) => CanHappen(s, e)
  }

  function Next(s: State, step: Step): State
    requires CanStep(s, step)
  {
    match step
    case Supervisor(m) => Move1(s, m)
    case World(e) => Happen(s, e)
  }

  /** A run: every step possible where it is taken. */
  predicate IsRun(s: State, steps: seq<Step>)
    decreases |steps|
  {
    steps == [] || (CanStep(s, steps[0]) && IsRun(Next(s, steps[0]), steps[1..]))
  }

  function Run(s: State, steps: seq<Step>): State
    requires IsRun(s, steps)
    decreases |steps|
  {
    if steps == [] then s else Run(Next(s, steps[0]), steps[1..])
  }

  /** The child has just been spawned into a group of its own, and both pumps are reading. */
  predicate Spawned(s: State) {
    && s.phase == Running && s.sent == [] && s.outside == map[] && s.cancelAt == None && s.stuck == None
    && s.out == Reading && s.err == Reading
    && s.leader in s.group && s.group[s.leader].signalable
  }

  /** The call is over, one way or the other. */
  predicate Over(s: State) {
    s.phase.Returned? || s.phase.Panicked?
  }

  // ---------------------------------------------------------------- the invariant

  /** The cancelled path: the token has fired and SIGTERM went out at that moment. */
  predicate OnCancelPath(s: State) {
    match s.phase
    case Running => false
    case Draining(_, _, cancelled) => cancelled
    case Returned(r) => r == Cancelled
    case _ => true
  }

  /** When each phase is over at the latest, counted from the cancellation. */
  predicate OnTime(s: State, c: nat) {
    match s.phase
    case Terminating(deadline) => deadline == c + s.grace && s.now <= deadline
    case Reaping(deadline) => deadline == c + s.grace && s.now <= deadline && !LeaderAlive(s)
    case Polling(deadline, wake) =>
      deadline == c + s.grace && s.now <= wake && (wake == s.now || wake < deadline + GROUP_POLL_INTERVAL)
      && s.now < deadline + GROUP_POLL_INTERVAL + 1
    case Draining(until, _, _) =>
      s.now <= until <= c + s.grace + GROUP_POLL_INTERVAL + PUMP_DRAIN_GRACE && c + PUMP_DRAIN_GRACE <= until
    case DrainingAgain(until, _) =>
      s.now <= until <= c + s.grace + GROUP_POLL_INTERVAL + 2 * PUMP_DRAIN_GRACE
    case _ => true
  }

  predicate Clocks(s: State) {
    && (s.cancelAt.Some? ==> s.cancelAt.value <= s.now)
    && (s.phase == Running && s.cancelAt.Some? ==> s.cancelAt.value == s.now)
    && (OnCancelPath(s) ==> s.cancelAt.Some? && OnTime(s, s.cancelAt.value))
    && (s.phase.Draining? ==> s.now <= s.phase.until)
  }

  /** A SIGKILL goes out when the grace period is over, or after a whole drain has timed out. */
  predicate KillIsLate(s: State, x: Sent) {
    && x.signal == Kill && s.cancelAt.Some?
    && (x.at >= s.cancelAt.value + s.grace || x.at >= s.cancelAt.value + PUMP_DRAIN_GRACE)
  }

  predicate Signals(s: State) {
    && (if OnCancelPath(s) then s.cancelAt.Some? && s.sent != [] && s.sent[0] == Sent(Term, s.cancelAt.value)
        else s.sent == [])
    && (forall k :: 1 <= k < |s.sent| ==> KillIsLate(s, s.sent[k]))
  }

  /** The leader has not left, and the cancelled path has emptied the group before it drains. */
  predicate Group(s: State) {
    && s.leader in s.group && s.group[s.leader].signalable
    && (OnCancelPath(s) && (s.phase.Draining? || s.phase.DrainingAgain? || Over(s)) ==> !GroupAlive(s))
  }

  /** Which handles have been awaited, and what the timed-out first drain left behind. */
  predicate Handles(s: State) {
    match s.phase
    case Draining(_, on, _) => s.stuck == None && (s.out == Awaited <==> on == Stderr) && s.err != Awaited
    case DrainingAgain(_, on) =>
      && s.stuck.Some? && s.err != Awaited
      && (on == Stdout ==> (s.out == Awaited <==> s.stuck == Some(Stderr)))
      && (on == Stderr ==> s.out == Awaited && s.stuck == Some(Stdout))
    case Returned(_) => s.stuck != Some(Stderr)
    case Panicked => s.stuck == Some(Stderr)
    case _ => s.stuck == None && s.out != Awaited && s.err != Awaited
  }

  predicate Inv(s: State) {
    Clocks(s) && Signals(s) && Group(s) && Handles(s)
  }

  lemma KillEndsGroup(s: State)
    ensures !GroupAlive(SendKill(s))
    ensures s.leader in s.group && s.group[s.leader].signalable ==> !LeaderAlive(SendKill(s))
    ensures s.leader in s.group && s.group[s.leader].signalable ==>
              s.leader in SendKill(s).group && SendKill(s).group[s.leader].signalable
  {
  }

  lemma MoveKeepsClocks(s: State, m: Move)
    requires Inv(s) && Enabled(s, m)
    ensures Clocks(Move1(s, m))
  {
    hide Killed, GroupAlive;
    KillEndsGroup(s);
  }

  lemma MoveKeepsSignals(s: State, m: Move)
    requires Inv(s) && Enabled(s, m)
    ensures Signals(Move1(s, m))
  {
    hide Killed, GroupAlive, LeaderAlive, KillIsLate;
    var s' := Move1(s, m);
    forall k | 1 <= k < |s'.sent|
      ensures KillIsLate(s', s'.sent[k])
    {
      if k < |s.sent| {
        LateStays(s, s', s.sent[k]);
      } else {
        JustKilled(s, s', s'.sent[k]);
      }
    }
  }

  lemma LateStays(s: State, s': State, x: Sent)
    requires KillIsLate(s, x) && s'.grace == s.grace && s'.cancelAt == s.cancelAt
    ensures KillIsLate(s', x)
  {
  }

  lemma JustKilled(s: State, s': State, x: Sent)
    requires x == Sent(Kill, s.now) && s.cancelAt.Some? && s'.grace == s.grace && s'.cancelAt == s.cancelAt
    requires s.now >= s.cancelAt.value + s.grace || s.now >= s.cancelAt.value + PUMP_DRAIN_GRACE
    ensures KillIsLate(s', x)
  {
  }

  lemma MoveKeepsGroup(s: State, m: Move)
    requires Inv(s) && Enabled(s, m)
    ensures Group(Move1(s, m))
  {
    hide Killed, Clocks, Signals, LeaderAlive;
    KillEndsGroup(s);
    SameGroup(s, Move1(s, m));
  }

  /** Whether the group is alive depends on the group alone. */
  lemma SameGroup(s: State, s': State)
    ensures s.group == s'.group ==> GroupAlive(s) == GroupAlive(s')
    ensures s'.group == SendKill(s).group ==> !GroupAlive(s')
  {
    KillEndsGroup(s);
  }

  lemma MoveKeepsHandles(s: State, m: Move)
    requires Inv(s) && Enabled(s, m)
    ensures Handles(Move1(s, m))
  {
    hide Killed, GroupAlive, LeaderAlive, Clocks, Signals, Group;
    match s.phase
    case Draining(_, on, cancelled) => assert PumpOf(s, on) != Awaited;
    case DrainingAgain(_, _) => assert s.stuck.value == Stdout || s.stuck.value == Stderr;
    case _ =>
  }

  lemma MoveKeeps(s: State, m: Move)
    requires Inv(s) && Enabled(s, m)
    ensures Inv(Move1(s, m)) && Move1(s, m).grace == s.grace && Move1(s, m).cancelAt == s.cancelAt
  {
    MoveKeepsClocks(s, m);
    MoveKeepsSignals(s, m);
    MoveKeepsGroup(s, m);
    MoveKeepsHandles(s, m);
  }

  /** Nothing but a fork by a living, signalable member could bring the group back to life. */
  lemma EventsDoNotRevive(s: State, e: Event)
    requires CanHappen(s, e) && !GroupAlive(s)
    ensures !GroupAlive(Happen(s, e))
  {
    hide SomethingToDo, Held;
    var s' := Happen(s, e);
    forall p | p in s'.group
      ensures !(s'.group[p].alive && s'.group[p].signalable)
    {
      if e.Fork? && p == e.child {
        assert s'.group[p].signalable == s.group[e.parent].signalable;
      } else {
        var before := s.group[p];
        assert (s'.group[p].alive ==> before.alive) && (s'.group[p].signalable ==> before.signalable);
      }
    }
  }

  /** Events leave the supervisor's own variables alone; only a cancellation or the clock is theirs. */
  lemma EventFrame(s: State, e: Event)
    requires CanHappen(s, e)
    ensures var s' := Happen(s, e);
            && s'.phase == s.phase && s'.sent == s.sent && s'.stuck == s.stuck && s'.grace == s.grace
            && s'.leader == s.leader
            && (s'.out == s.out || (s.out == Reading && s'.out == Finished))
            && (s'.err == s.err || (s.err == Reading && s'.err == Finished))
            && (s.cancelAt.Some? ==> s'.cancelAt == s.cancelAt)
            && (s'.cancelAt == s.cancelAt || s'.cancelAt == Some(s.now))
            && (!e.Tick? ==> s'.now == s.now) && (e.Tick? ==> s' == s.(now := s.now + e.ms))
    ensures s.leader in s.group ==>
              && s.leader in Happen(s, e).group
              && (Happen(s, e).group[s.leader].alive ==> s.group[s.leader].alive)
              && Happen(s, e).group[s.leader].signalable == s.group[s.leader].signalable
  {
    hide SomethingToDo, Held;
  }

  lemma EventKeepsClocks(s: State, e: Event)
    requires Inv(s) && CanHappen(s, e)
    ensures Clocks(Happen(s, e))
  {
    hide Happen, GroupAlive, Held, Handles, Signals;
    EventFrame(s, e);
    assert s.phase == Running && s.cancelAt.Some? ==> Enabled(s, CancelSeen);
    assert s.phase.Reaping? ==> Enabled(s, Go);
  }

  lemma EventKeeps(s: State, e: Event)
    requires Inv(s) && CanHappen(s, e)
    ensures Inv(Happen(s, e)) && Happen(s, e).grace == s.grace
    ensures s.cancelAt.Some? ==> Happen(s, e).cancelAt == s.cancelAt
  {
    hide Happen, CanHappen, Clocks, GroupAlive, LeaderAlive;
    EventFrame(s, e);
    EventKeepsClocks(s, e);
    if !GroupAlive(s) {
      EventsDoNotRevive(s, e);
    }
  }

  lemma {:induction false} RunKeeps(s: State, steps: seq<Step>)
    requires Inv(s) && IsRun(s, steps)
    ensures Inv(Run(s, steps)) && Run(s, steps).grace == s.grace
    decreases |steps|
  {
    hide Inv, Move1, Happen, Enabled, CanHappen;
    if steps != [] {
      match steps[0] {
        case Supervisor(m) => MoveKeeps(s, m);
        case World(e) => EventKeeps(s, e);
      }
      RunKeeps(Next(s, steps[0]), steps[1..]);
    }
  }

  // ---------------------------------------------------------------- the claims

  lemma StepStaysOnCancelPath(s: State, step: Step)
    requires CanStep(s, step) && OnCancelPath(s)
    ensures OnCancelPath(Next(s, step))
  {
    hide GroupAlive, LeaderAlive, Killed, Held;
    if step.World? {
      EventFrame(s, step.event);
    }
  }

  lemma {:induction false} StaysOnCancelPath(s: State, steps: seq<Step>)
    requires IsRun(s, steps) && OnCancelPath(s)
    ensures OnCancelPath(Run(s, steps))
    decreases |steps|
  {
    hide Next, CanStep, OnCancelPath;
    if steps != [] {
      StepStaysOnCancelPath(s, steps[0]);
      StaysOnCancelPath(Next(s, steps[0]), steps[1..]);
    }
  }

  /** Once the select has taken the cancellation: when the call is over, no member is left in the group
      that could be signalled, whatever the tree did meanwhile. It has returned Cancelled unless the first
      drain timed out on the second handle, that is with the first pump's end already taken; then, and only
      then, the second drain has awaited that handle again and panicked. */
  lemma CancellationKillsTheTree(s0: State, before: seq<Step>, later: seq<Step>)
    requires Spawned(s0) && IsRun(s0, before) && Enabled(Run(s0, before), CancelSeen)
    requires IsRun(Move1(Run(s0, before), CancelSeen), later)
    ensures var s := Run(Move1(Run(s0, before), CancelSeen), later);
            Over(s) ==>
              && !GroupAlive(s)
              && (s.phase == Returned(Cancelled) <==> s.stuck != Some(Stderr))
              && (s.phase == Panicked <==> s.stuck == Some(Stderr))
  {
    hide GroupAlive, LeaderAlive, Killed, Held, Clocks, Signals;
    SpawnedInv(s0);
    RunKeeps(s0, before);
    MoveKeeps(Run(s0, before), CancelSeen);
    RunKeeps(Move1(Run(s0, before), CancelSeen), later);
    StaysOnCancelPath(Move1(Run(s0, before), CancelSeen), later);
  }

  lemma SpawnedInv(s: State)
    requires Spawned(s)
    ensures Inv(s)
  {
  }

  /** What `stuck` says of the tree: a cancelled first drain that times out on a handle finds its pipe
      still read, and whoever holds that pipe has left the group or cannot be signalled. One more SIGKILL goes
      to the group. */
  lemma StuckOnASurvivor(s0: State, steps: seq<Step>)
    requires Spawned(s0) && IsRun(s0, steps)
    requires var s := Run(s0, steps);
             s.phase.Draining? && s.phase.cancelled && PumpOf(s, s.phase.on) == Reading && s.now >= s.phase.until
    ensures var s := Run(s0, steps);
            && Enabled(s, Go) && Move1(s, Go).stuck == Some(s.phase.on)
            && Move1(s, Go).sent == s.sent + [Sent(Kill, s.now)] && !GroupAlive(Move1(s, Go))
            && (s.phase.on == Stderr ==> s.out == Awaited)
            && (Held(s, s.phase.on) ==>
                  || (exists p :: p in s.outside && Holds(s.outside[p], s.phase.on))
                  || (exists p :: p in s.group && s.group[p].alive && !s.group[p].signalable))
  {
    SpawnedInv(s0);
    RunKeeps(s0, steps);
  }

  /** Signals: none at all unless the cancellation was taken; then SIGTERM first, at that moment, and
      every SIGKILL only when the grace is over or a drain has timed out. */
  lemma SignalDiscipline(s0: State, steps: seq<Step>)
    requires Spawned(s0) && IsRun(s0, steps)
    ensures var s := Run(s0, steps);
            && (!OnCancelPath(s) ==> s.sent == [])
            && (s.cancelAt == None ==> s.sent == [])
            && (s.phase == Returned(Exited) ==> s.sent == [])
            && (s.sent != [] ==> s.cancelAt.Some? && s.sent[0] == Sent(Term, s.cancelAt.value))
            && (forall k :: 1 <= k < |s.sent| ==> KillIsLate(s, s.sent[k]))
  {
    hide GroupAlive, LeaderAlive, Clocks, Group, Handles;
    SpawnedInv(s0);
    RunKeeps(s0, steps);
  }

  /** Once the cancellation has been taken, the clock cannot run past the grace, one look at the group and two
      drains before the call is over. */
  lemma CancellationIsPrompt(s0: State, steps: seq<Step>)
    requires Spawned(s0) && IsRun(s0, steps)
    ensures var s := Run(s0, steps);
            OnCancelPath(s) && !Over(s) ==> s.cancelAt.Some? && s.now <= s.cancelAt.value + s.grace + 25 + 2 * 2000
  {
    hide GroupAlive, LeaderAlive, Signals, Group, Handles;
    SpawnedInv(s0);
    RunKeeps(s0, steps);
  }

  // ---------------------------------------------------------------- waiting for the output

  /** Where a call whose child exited at `t` stands. */
  predicate ExitDrain(s: State, t: nat) {
    match s.phase
    case Draining(until, on, cancelled) =>
      !cancelled && s.now <= until == t + 2000 && (on == Stderr ==> s.out == Awaited)
    case Returned(result) =>
      result == Exited && ((s.out == Awaited && s.err == Awaited) || s.now >= t + 2000)
    case _ => false
  }

  lemma ExitDrainStep(s: State, step: Step, t: nat)
    requires ExitDrain(s, t) && Handles(s) && CanStep(s, step)
    ensures ExitDrain(Next(s, step), t)
  {
    hide GroupAlive, LeaderAlive, Held, Killed;
    if step.World? {
      EventFrame(s, step.event);
    }
  }

  lemma {:induction false} ExitDrainRun(s: State, steps: seq<Step>, t: nat)
    requires Inv(s) && ExitDrain(s, t) && IsRun(s, steps)
    ensures ExitDrain(Run(s, steps), t)
    decreases |steps|
  {
    hide Next, CanStep, ExitDrain, Clocks, Signals, Group, Handles;
    if steps != [] {
      ExitDrainStep(s, steps[0], t);
      OneStepKeeps(s, steps[0]);
      ExitDrainRun(Next(s, steps[0]), steps[1..], t);
    }
  }

  lemma OneStepKeeps(s: State, step: Step)
    requires Inv(s) && CanStep(s, step)
    ensures Inv(Next(s, step))
  {
    hide Inv, Move1, Happen, Enabled, CanHappen;
    match step
    case Supervisor(m) => MoveKeeps(s, m);
    case World(e) => EventKeeps(s, e);
  }

  /** An ordinary call waits for its child's output. Counted from the moment the child's exit was taken: it
      returns only when both pumps have been awaited to their end or two seconds have passed, and it does not
      take longer than that; no cancellation that comes later changes its answer. */
  lemma ExitWaitsForOutput(s0: State, before: seq<Step>, later: seq<Step>)
    requires Spawned(s0) && IsRun(s0, before) && Enabled(Run(s0, before), ChildExited)
    requires IsRun(Move1(Run(s0, before), ChildExited), later)
    ensures var t, s := Run(s0, before).now, Run(Move1(Run(s0, before), ChildExited), later);
            && (!Over(s) ==> s.now <= t + 2000)
            && (Over(s) ==>
                  && s.phase == Returned(Exited)
                  && ((s.out == Awaited && s.err == Awaited) || s.now >= t + 2000))
  {
    hide GroupAlive, LeaderAlive, Killed, Held, Clocks, Signals;
    SpawnedInv(s0);
    RunKeeps(s0, before);
    MoveKeeps(Run(s0, before), ChildExited);
    ExitDrainRun(Move1(Run(s0, before), ChildExited), later, Run(s0, before).now);
  }

  /** Where a cancelled call whose group was found empty, or killed, at `t` stands. */
  predicate CancelDrain(s: State, t: nat) {
    match s.phase
    case Draining(until, on, cancelled) =>
      cancelled && s.now <= until == t + 2000 && (on == Stderr ==> s.out == Awaited)
    case DrainingAgain(until, on) => until == t + 4000 && t + 2000 <= s.now && (on == Stderr ==> s.out == Awaited)
    case Returned(result) =>
      result == Cancelled && ((s.out == Awaited && s.err == Awaited) || s.now >= t + 4000)
    case Panicked => s.now >= t + 2000
    case _ => false
  }

  lemma CancelDrainStep(s: State, step: Step, t: nat)
    requires CancelDrain(s, t) && Handles(s) && CanStep(s, step)
    ensures CancelDrain(Next(s, step), t)
  {
    hide GroupAlive, LeaderAlive, Held, Killed;
    if step.World? {
      EventFrame(s, step.event);
    }
  }

  lemma {:induction false} CancelDrainRun(s: State, steps: seq<Step>, t: nat)
    requires Inv(s) && CancelDrain(s, t) && IsRun(s, steps)
    ensures CancelDrain(Run(s, steps), t)
    decreases |steps|
  {
    hide Next, CanStep, CancelDrain, Clocks, Signals, Group, Handles;
    if steps != [] {
      CancelDrainStep(s, steps[0], t);
      OneStepKeeps(s, steps[0]);
      CancelDrainRun(Next(s, steps[0]), steps[1..], t);
    }
  }

  /** What a cancelled call owes to the drains by the time it is over, counted from the cancellation. */
  predicate CancelWaited(s: State) {
    OnCancelPath(s) && s.cancelAt.Some? ==>
      var c := s.cancelAt.value;
      match s.phase
      case Draining(until, on, _) => until >= c + 2000 && (on == Stderr ==> s.out == Awaited)
      case DrainingAgain(until, on) => until >= c + 4000 && s.now >= c + 2000 && (on == Stderr ==> s.out == Awaited)
      case Returned(_) => (s.out == Awaited && s.err == Awaited) || s.now >= c + 4000
      case Panicked => s.now >= c + 2000
      case _ => true
  }

  lemma CancelWaitedStep(s: State, step: Step)
    requires CancelWaited(s) && Clocks(s) && Handles(s) && CanStep(s, step)
    ensures CancelWaited(Next(s, step))
  {
    hide GroupAlive, LeaderAlive, Held, Killed;
    if step.World? {
      EventFrame(s, step.event);
    }
  }

  lemma {:induction false} CancelledHasWaited(s: State, steps: seq<Step>)
    requires Inv(s) && CancelWaited(s) && IsRun(s, steps)
    ensures CancelWaited(Run(s, steps))
    decreases |steps|
  {
    hide Next, CanStep, CancelWaited, Clocks, Signals, Group, Handles;
    if steps != [] {
      CancelWaitedStep(s, steps[0]);
      OneStepKeeps(s, steps[0]);
      CancelledHasWaited(Next(s, steps[0]), steps[1..]);
    }
  }

  /** A cancelled call waits for the output as well, twice. Counted from the moment it stops watching the
      group: it returns only when both pumps have been awaited to their end or four seconds have passed, and
      panics, where it does, only after a whole first drain. */
  lemma CancelWaitsForOutput(s0: State, before: seq<Step>, later: seq<Step>)
    requires Spawned(s0) && IsRun(s0, before) && Run(s0, before).phase.Polling? && Enabled(Run(s0, before), Go)
    requires !Move1(Run(s0, before), Go).phase.Polling? && IsRun(Move1(Run(s0, before), Go), later)
    ensures var t, s := Run(s0, before).now, Run(Move1(Run(s0, before), Go), later);
            && (s.phase.Returned? ==> (s.out == Awaited && s.err == Awaited) || s.now >= t + 4000)
            && (s.phase == Panicked ==> s.now >= t + 2000)
  {
    hide GroupAlive, LeaderAlive, Killed, Held, Clocks, Signals;
    SpawnedInv(s0);
    RunKeeps(s0, before);
    MoveKeeps(Run(s0, before), Go);
    CancelDrainRun(Move1(Run(s0, before), Go), later, Run(s0, before).now);
  }

  /** The same of every run, counted from the cancellation: no cancelled call is over before its drains are. */
  lemma CancelledRunWaits(s0: State, steps: seq<Step>)
    requires Spawned(s0) && IsRun(s0, steps)
    ensures var s := Run(s0, steps);
            && (s.phase == Returned(Cancelled) ==>
                  s.cancelAt.Some? && ((s.out == Awaited && s.err == Awaited) || s.now >= s.cancelAt.value + 4000))
            && (s.phase == Panicked ==> s.cancelAt.Some? && s.now >= s.cancelAt.value + 2000)
  {
    hide GroupAlive, LeaderAlive, Signals, Group, Handles;
    SpawnedInv(s0);
    RunKeeps(s0, steps);
    CancelledHasWaited(s0, steps);
  }

  /** How a cancelled call watches the group: it drains as soon as it finds the group empty, and sends nothing
      more; it looks again after 25 ms, not earlier, while the grace lasts; then it sends SIGKILL. */
  lemma WatchesTheGroup(s0: State, steps: seq<Step>)
    requires Spawned(s0) && IsRun(s0, steps) && Run(s0, steps).phase.Polling? && Enabled(Run(s0, steps), Go)
    ensures var s, s' := Run(s0, steps), Move1(Run(s0, steps), Go);
            && s.cancelAt.Some?
            && var end := s.cancelAt.value + s.grace;
               && (!GroupAlive(s) ==> s'.phase.Draining? && s'.sent == s.sent)
               && (GroupAlive(s) && s.now >= end ==> s'.phase.Draining? && s'.sent == s.sent + [Sent(Kill, s.now)])
               && (GroupAlive(s) && s.now < end ==>
                     && s'.sent == s.sent && !SomethingToDo(s')
                     && (forall ms: nat :: CanHappen(s', Tick(ms)) <==> ms <= 25))
  {
    hide GroupAlive, LeaderAlive, Signals, Group, Handles, Killed;
    SpawnedInv(s0);
    RunKeeps(s0, steps);
  }

  /** How a cancelled call gets the child itself: it waits while the child lives and the grace lasts; a child
      that has exited is reaped and the group looked at, both at once and without another signal; when the
      grace is over it sends SIGKILL, of which the child dies, and waits for that. */
  lemma WaitsForTheChild(s0: State, steps: seq<Step>)
    requires Spawned(s0) && IsRun(s0, steps) && Run(s0, steps).phase.Terminating?
    ensures var s := Run(s0, steps);
            && s.cancelAt.Some?
            && (Enabled(s, Go) <==> !LeaderAlive(s) || s.now >= s.cancelAt.value + s.grace)
            && (Enabled(s, Go) ==>
                  var s' := Move1(s, Go);
                  if !LeaderAlive(s) then s'.phase.Polling? && Enabled(s', Go) && s'.sent == s.sent
                  else s'.phase.Reaping? && Enabled(s', Go) && s'.sent == s.sent + [Sent(Kill, s.now)])
  {
    hide GroupAlive, LeaderAlive, Signals, Handles, Killed;
    SpawnedInv(s0);
    RunKeeps(s0, steps);
    KillEndsGroup(Run(s0, steps));
    assert Inv(Run(s0, steps));
    if Enabled(Run(s0, steps), Go) && LeaderAlive(Run(s0, steps)) {
      SameLeader(SendKill(Run(s0, steps)), Move1(Run(s0, steps), Go));
    }
  }

  lemma SameLeader(s: State, s': State)
    requires s.group == s'.group && s.leader == s'.leader
    ensures LeaderAlive(s) == LeaderAlive(s')
  {
  }

  /** Output that has ended is not waited for: the drain takes both ends and the call returns, with no time
      in between and no further signal. */
  lemma EndedOutputIsTaken(s: State)
    requires s.phase.Draining? && s.phase.on == Stdout && s.out == Finished && s.err == Finished
    ensures Enabled(s, Go) && Enabled(Move1(s, Go), Go)
    ensures forall ms: nat :: !CanHappen(s, Tick(ms)) && !CanHappen(Move1(s, Go), Tick(ms))
    ensures var end := Move1(Move1(s, Go), Go);
            && end.phase == Returned(if s.phase.cancelled then Cancelled else Exited)
            && end.now == s.now && end.sent == s.sent && end.out == Awaited && end.err == Awaited
  {
    hide Held, GroupAlive, LeaderAlive;
  }

  /** A cancellation that fires when the child has already exited may lose the select: the call then goes on
      as if it had not been cancelled. */
  lemma CancellationMayLose(grace: nat)
    ensures var s0, steps := JustSpawned(grace), [World(Exit(1)), World(Cancel)];
            && Spawned(s0) && IsRun(s0, steps)
            && Enabled(Run(s0, steps), CancelSeen) && Enabled(Run(s0, steps), ChildExited)
            && Move1(Run(s0, steps), ChildExited).sent == [] && !OnCancelPath(Move1(Run(s0, steps), ChildExited))
  {
    hide Run, IsRun;
    var s0 := JustSpawned(grace);
    var s1 := s0.(group := map[1 := Member(false, true, BOTH)]);
    var s2 := s1.(cancelAt := Some(0));
    assert s0.group[1 := Member(false, true, BOTH)] == s1.group;
    NoSteps(s2);
    FirstStep(s1, World(Cancel), s2, [], s2);
    FirstStep(s0, World(Exit(1)), s1, [World(Cancel)] + [], s2);
    assert [World(Exit(1))] + ([World(Cancel)] + []) == [World(Exit(1)), World(Cancel)];
  }

  /** The supervisor is never stuck: past the select there is a move to make or a timer still to come. */
  lemma NeverStuck(s: State)
    requires Inv(s) && !Over(s) && !(s.phase == Running && s.cancelAt.None? && LeaderAlive(s))
    ensures SomethingToDo(s) || exists ms: nat :: ms > 0 && CanHappen(s, Tick(ms))
  {
    hide GroupAlive, Signals, Handles;
    if !SomethingToDo(s) {
      assert CanHappen(s, Tick(1)) by {
        assert s.phase == Running && s.cancelAt.Some? ==> Enabled(s, CancelSeen);
        assert s.phase.Reaping? ==> Enabled(s, Go);
      }
    }
  }

  // ---------------------------------------------------------------- a run that panics

  const BOTH := Pipes(true, true)

  /** A child whose daemon keeps stderr only, leaves the group, and outlives the cancelled child. */
  function PanickingRun(): seq<Step> {
    [ World(Fork(1, 2, Pipes(false, true))), World(Leave(2)), World(Cancel), Supervisor(CancelSeen),
      World(Exit(1)), Supervisor(Go), Supervisor(Go), World(PumpEnds(Stdout)), Supervisor(Go),
      World(Tick(PUMP_DRAIN_GRACE)), Supervisor(Go), Supervisor(Go) ]
  }

  function JustSpawned(grace: nat): State {
    State(0, 1, map[1 := Member(true, true, BOTH)], map[], Reading, Reading, None, Running, None, [], grace)
  }

  /** The state after the first seven steps: the group is gone, and the first drain has begun. */
  function FirstDrain(grace: nat): State {
    State(0, 1, map[1 := Member(false, true, BOTH)], map[2 := Pipes(false, true)], Reading, Reading, Some(0),
          Draining(PUMP_DRAIN_GRACE, Stdout, true), None, [Sent(Term, 0)], grace)
  }

  /** Unfolding a run by its first step. */
  lemma OneStep(s: State, step: Step, s': State, rest: seq<Step>)
    requires CanStep(s, step) && Next(s, step) == s' && IsRun(s', rest)
    ensures IsRun(s, [step] + rest) && Run(s, [step] + rest) == Run(s', rest)
  {
    assert ([step] + rest)[1..] == rest;
  }

  /** One step from a state, then the rest of the run. */
  predicate Leads(s: State, steps: seq<Step>, end: State) {
    IsRun(s, steps) && Run(s, steps) == end
  }

  lemma FirstStep(s: State, step: Step, s': State, rest: seq<Step>, end: State)
    requires CanStep(s, step) && Next(s, step) == s' && Leads(s', rest, end)
    ensures Leads(s, [step] + rest, end)
  {
    OneStep(s, step, s', rest);
  }

  lemma NoSteps(s: State)
    ensures Leads(s, [], s)
  {
  }

  /** The cancelled call with its group gone, before it has looked. */
  function Obeyed(grace: nat): State {
    FirstDrain(grace).(phase := Terminating(grace))
  }

  /** The tree's part: a descendant walks off with stderr, the call is cancelled, the child obeys. */
  lemma ReachesObeyed(grace: nat, rest: seq<Step>, end: State)
    requires Leads(Obeyed(grace), rest, end)
    ensures Leads(JustSpawned(grace), PanickingRun()[..5] + rest, end)
  {
    hide Leads, IsRun, Run;
    var s0 := JustSpawned(grace);
    var s1 := s0.(group := s0.group[2 := Member(true, true, Pipes(false, true))]);
    var s2 := s0.(outside := map[2 := Pipes(false, true)]);
    var s3 := s2.(cancelAt := Some(0));
    var s4 := s3.(phase := Terminating(grace), sent := [Sent(Term, 0)]);
    assert s1.group - {2} == s0.group;
    var r4 := [World(Exit(1))] + rest;
    var r3 := [Supervisor(CancelSeen)] + r4;
    var r2 := [World(Cancel)] + r3;
    var r1 := [World(Leave(2))] + r2;
    FirstStep(s4, World(Exit(1)), Obeyed(grace), rest, end);
    FirstStep(s3, Supervisor(CancelSeen), s4, r4, end);
    FirstStep(s2, World(Cancel), s3, r3, end);
    FirstStep(s1, World(Leave(2)), s2, r2, end);
    FirstStep(s0, World(Fork(1, 2, Pipes(false, true))), s1, r1, end);
    assert PanickingRun()[..5] + rest == [World(Fork(1, 2, Pipes(false, true)))] + r1;
  }

  /** The supervisor finds the child reaped and the group empty. */
  lemma ReachesFirstDrain(grace: nat, rest: seq<Step>, end: State)
    requires Leads(FirstDrain(grace), rest, end)
    ensures Leads(Obeyed(grace), [Supervisor(Go)] + ([Supervisor(Go)] + rest), end)
  {
    hide Leads, IsRun, Run;
    var polling := Obeyed(grace).(phase := Polling(grace, 0));
    FirstStep(polling, Supervisor(Go), FirstDrain(grace), rest, end);
    FirstStep(Obeyed(grace), Supervisor(Go), polling, [Supervisor(Go)] + rest, end);
  }

  /** The first drain takes the first pump's end and times out on the second. */
  function TimedOut(grace: nat): State {
    FirstDrain(grace).(now := PUMP_DRAIN_GRACE, out := Awaited, phase := Draining(PUMP_DRAIN_GRACE, Stderr, true))
  }

  lemma ReachesTimeout(grace: nat, rest: seq<Step>, end: State)
    requires Leads(TimedOut(grace), rest, end)
    ensures Leads(FirstDrain(grace), PanickingRun()[7..10] + rest, end)
  {
    hide Leads, IsRun, Run;
    var d := FirstDrain(grace);
    var d1 := d.(out := Finished);
    var d2 := d.(out := Awaited, phase := Draining(PUMP_DRAIN_GRACE, Stderr, true));
    var r2 := [World(Tick(PUMP_DRAIN_GRACE))] + rest;
    var r1 := [Supervisor(Go)] + r2;
    FirstStep(d2, World(Tick(PUMP_DRAIN_GRACE)), TimedOut(grace), rest, end);
    FirstStep(d1, Supervisor(Go), d2, r2, end);
    FirstStep(d, World(PumpEnds(Stdout)), d1, r1, end);
    assert PanickingRun()[7..10] + rest == [World(PumpEnds(Stdout))] + r1;
  }

  /** The second drain begins with the handle that has been awaited to its end. */
  lemma SecondDrainPanics(grace: nat)
    ensures exists end ::
              Leads(TimedOut(grace), [Supervisor(Go)] + ([Supervisor(Go)] + []), end) && end.phase == Panicked
  {
    hide Leads, IsRun, Run;
    var d := TimedOut(grace);
    var d1 := SendKill(d).(phase := DrainingAgain(2 * PUMP_DRAIN_GRACE, Stdout), stuck := Some(Stderr));
    var end := d1.(phase := Panicked);
    NoSteps(end);
    FirstStep(d1, Supervisor(Go), end, [], end);
    FirstStep(d, Supervisor(Go), d1, [Supervisor(Go)] + [], end);
  }

  /** A cancelled call that does not return: a daemon that has left the group keeps stderr, but not
      stdout, beyond the first drain. */
  lemma CancelledCallPanics(grace: nat)
    ensures Spawned(JustSpawned(grace)) && IsRun(JustSpawned(grace), PanickingRun())
    ensures Run(JustSpawned(grace), PanickingRun()).phase == Panicked
  {
    hide IsRun, Run;
    SecondDrainPanics(grace);
    var last := [Supervisor(Go)] + ([Supervisor(Go)] + []);
    var end :| Leads(TimedOut(grace), last, end) && end.phase == Panicked;
    ReachesTimeout(grace, last, end);
    var drain := PanickingRun()[7..10] + last;
    ReachesFirstDrain(grace, drain, end);
    var poll := [Supervisor(Go)] + ([Supervisor(Go)] + drain);
    ReachesObeyed(grace, poll, end);
    assert PanickingRun()[..5] + poll == PanickingRun();
  }
}
