// What one publication amounts to when nobody else publishes: a single update of the files, or none.

module OnePublication {
  import opened Shared
  import opened DurableFs
  import opened Publish
  import opened PublishClaims

  /** The files one sees in the directory, the caller's temp apart. */
  function Seen(fs: Fs, tmp: Name): map<Name, File> {
    map n | n in fs.dir && n != tmp && fs.dir[n] in fs.inodes :: fs.inodes[fs.dir[n]].file
  }

  /** A call that has the directory to itself. */
  ghost predicate Alone(s: State) {
    Initial(s) && |s.callers| == 1 && s.callers[0].kind != WriteAtomic
  }

  predicate Refused(c: Caller) {
    c.pc == Cleaning(AlreadyThere) || c.pc == Finished(AlreadyThere)
  }

  /** Where the lone call stands, compared with the start. */
  ghost predicate Progress(s: State, s0: State) {
    && |s.callers| == 1 && |s0.callers| == 1
    && var c, c0 := s.callers[0], s0.callers[0];
       && c.kind == c0.kind && c.path == c0.path && c.tmp == c0.tmp && c.bytes == c0.bytes && c.mode == c0.mode
       && c.kind != WriteAtomic
       && (forall n :: n != c.tmp ==>
             Entry(s.fs, n) == if c.stamp.Some? && n == c.path then c.id else Entry(s0.fs, n))
       && (c.stamp.Some? && c.kind == Copy ==> c.pc == Finished(Written))
       && (c.stamp.Some? && c.kind == CreateNew ==> Entry(s0.fs, c.path) == None)
       && (Refused(c) ==> c.kind == CreateNew && c.stamp == None && Entry(s0.fs, c.path) != None)
       && (c.pc == Finished(Created) ==> c.kind == CreateNew)
  }

  /** Nothing about the call itself ever changes; a publication and its inode stay. */
  lemma CallStays(s: State, base: Id, c: Caller, o: Outcome)
    requires CallerOk(s.fs, base, c) && c.kind != WriteAtomic
    ensures var c' := MoveCaller(s, c, o);
            && c'.kind == c.kind && c'.path == c.path && c'.tmp == c.tmp && c'.bytes == c.bytes && c'.mode == c.mode
            && (c.stamp.Some? ==> c'.stamp.Some? && c'.id == c.id)
            && (c.pc.Finished? ==> c' == c)
  {
    hide Perform, StagedOk, PublishedOk;
  }

  /** How the call comes to be published, or refused. */
  lemma CallerMoves(s: State, base: Id, c: Caller, o: Outcome)
    requires CallerOk(s.fs, base, c) && c.kind != WriteAtomic
    ensures var c' := MoveCaller(s, c, o);
            && (c.stamp == None && c'.stamp.Some? ==>
                  && c.pc.Publishing?
                  && (if c.kind == Copy then c'.pc == Finished(Written) else Entry(s.fs, c.path) == None))
            && (Refused(c') && !Refused(c) ==>
                  c.pc.Publishing? && c.kind == CreateNew && c'.stamp == None && Entry(s.fs, c.path) != None)
            && (Refused(c) ==> c'.stamp == c.stamp)
            && (c'.pc == Finished(Created) ==> c.kind == CreateNew || c.pc == Finished(Created))
  {
    hide Perform, StagedOk, PublishedOk;
  }

  lemma ProgressStep(s0: State, s: State, o: Outcome)
    requires Alone(s0) && Inv(s, s0.fs) && Progress(s, s0)
    ensures Progress(Step(s, 0, o), s0)
  {
    hide Perform, MoveFs, MoveCaller, StagedOk, PublishedOk, Candidates;
    var c := s.callers[0];
    assert CallerOk(s.fs, s0.fs.next, c) && IsTemp(s, c.tmp) && !IsTemp(s, c.path);
    CallStays(s, s0.fs.next, c, o);
    CallerMoves(s, s0.fs.next, c, o);
    MoveTouchesNames(s, s0.fs.next, c, o);
  }

  lemma {:induction false} ProgressRun(s0: State, s: State, turns: seq<Turn>)
    requires Alone(s0) && Inv(s, s0.fs) && Progress(s, s0)
    ensures Inv(Run(s, turns), s0.fs) && Progress(Run(s, turns), s0)
    decreases |turns|
  {
    hide Inv, Step, Progress, Alone;
    if turns != [] {
      if turns[0].who < |s.callers| {
        OnlyCaller(s, s0);
        StepKeeps(s, s0.fs, 0, turns[0].outcome);
        ProgressStep(s0, s, turns[0].outcome);
        ProgressRun(s0, Step(s, 0, turns[0].outcome), turns[1..]);
      } else {
        ProgressRun(s0, s, turns[1..]);
      }
    }
  }

  lemma OnlyCaller(s: State, s0: State)
    requires Progress(s, s0)
    ensures |s.callers| == 1
  {
  }

  /** The directory entries are those of the start, with the caller's own once it has published. */
  lemma EntriesAfter(s0: State, s: State, n: Name)
    requires Alone(s0) && Inv(s, s0.fs) && Progress(s, s0) && n != s.callers[0].tmp
    ensures var c, tmp := s.callers[0], s.callers[0].tmp;
            && (n in Seen(s0.fs, tmp) <==> n in s0.fs.dir)
            && (n in Seen(s.fs, tmp) <==> n in s0.fs.dir || (c.stamp.Some? && n == c.path))
            && (n in Seen(s.fs, tmp) ==>
                  Seen(s.fs, tmp)[n] == if c.stamp.Some? && n == c.path then File(c.bytes, c.mode)
                                        else Seen(s0.fs, tmp)[n])
  {
    hide StagedOk, Candidates;
    assert CallerOk(s.fs, s0.fs.next, s.callers[0]);
    assert Entry(s.fs, n) == if s.callers[0].stamp.Some? && n == s.callers[0].path then s.callers[0].id
                             else Entry(s0.fs, n);
  }

  /** The files seen are those of the start, with the caller's own under its path once it has published. */
  lemma SeenAfter(s0: State, s: State)
    requires Alone(s0) && Inv(s, s0.fs) && Progress(s, s0)
    ensures var c, before := s.callers[0], Seen(s0.fs, s.callers[0].tmp);
            && Seen(s.fs, c.tmp) == (if c.stamp.Some? then before[c.path := File(c.bytes, c.mode)] else before)
            && (c.path in before <==> Entry(s0.fs, c.path) != None)
  {
    hide Inv, Alone, Progress;
    OnlyCaller(s, s0);
    var c := s.callers[0];
    assert c.path != c.tmp by { PathIsNoTemp(s0, s); }
    var before, after := Seen(s0.fs, c.tmp), Seen(s.fs, c.tmp);
    forall n | n != c.tmp
      ensures n in after <==> n in before || (c.stamp.Some? && n == c.path)
      ensures n in after ==> after[n] == if c.stamp.Some? && n == c.path then File(c.bytes, c.mode) else before[n]
      ensures n in before <==> n in s0.fs.dir
    {
      EntriesAfter(s0, s, n);
    }
    EntriesAfter(s0, s, c.path);
  }

  lemma PathIsNoTemp(s0: State, s: State)
    requires Inv(s, s0.fs) && Progress(s, s0)
    ensures s.callers[0].path != s.callers[0].tmp
  {
    assert IsTemp(s, s.callers[0].tmp) && !IsTemp(s, s.callers[0].path);
  }

  lemma AloneStarts(s0: State)
    requires Alone(s0)
    ensures Inv(s0, s0.fs) && Progress(s0, s0)
  {
    InitialInv(s0);
    assert Fresh(s0.callers[0]);
  }

  /** A copy that is over has put the source under its path, bytes and mode, or has changed nothing. */
  lemma CopyIsOneUpdate(s0: State, turns: seq<Turn>)
    requires Alone(s0) && s0.callers[0].kind == Copy
    ensures var s := Run(s0, turns);
            var c, before := s0.callers[0], Seen(s0.fs, s0.callers[0].tmp);
            && |s.callers| == 1
            && (s.callers[0].pc == Finished(Written) ==> Seen(s.fs, c.tmp) == before[c.path := File(c.bytes, c.mode)])
            && (s.callers[0].pc != Finished(Written) ==> Seen(s.fs, c.tmp) == before)
            && (s.callers[0].pc.Finished? ==> s.callers[0].pc.result == Written || s.callers[0].pc.result == Failed)
  {
    hide Run, Seen;
    AloneStarts(s0);
    ProgressRun(s0, s0, turns);
    SeenAfter(s0, Run(s0, turns));
    FinishedHow(s0, Run(s0, turns));
  }

  lemma FinishedHow(s0: State, s: State)
    requires Inv(s, s0.fs) && Progress(s, s0)
    ensures var c := s.callers[0];
            && (c.pc == Finished(Written) || c.pc == Finished(Created) ==> c.stamp.Some?)
            && (c.pc.Finished? && c.kind == Copy ==> c.pc.result == Written || c.pc.result == Failed)
            && (c.pc.Finished? && c.kind == CreateNew ==>
                  c.pc.result == Created || c.pc.result == AlreadyThere || c.pc.result == Failed)
  {
    assert CallerOk(s.fs, s0.fs.next, s.callers[0]);
  }

  /** An exclusive creation that is over: created what was absent, or found it there and changed nothing,
      or failed with nothing changed, or failed with the file created, when only the directory could not
      be synced. */
  lemma CreationIsOneUpdate(s0: State, turns: seq<Turn>)
    requires Alone(s0) && s0.callers[0].kind == CreateNew
    ensures var s := Run(s0, turns);
            var c, before := s0.callers[0], Seen(s0.fs, s0.callers[0].tmp);
            var created := before[c.path := File(c.bytes, MODE_0644)];
            && |s.callers| == 1
            && (s.callers[0].pc.Finished? ==>
                  match s.callers[0].pc.result
                  case Created => c.path !in before && Seen(s.fs, c.tmp) == created
                  case AlreadyThere => c.path in before && Seen(s.fs, c.tmp) == before
                  case Failed => Seen(s.fs, c.tmp) == before || (c.path !in before && Seen(s.fs, c.tmp) == created)
                  case Written => false)
  {
    hide Run, Seen;
    AloneStarts(s0);
    ProgressRun(s0, s0, turns);
    SeenAfter(s0, Run(s0, turns));
    FinishedHow(s0, Run(s0, turns));
    assert s0.callers[0].mode == MODE_0644 by { AloneMode(s0); }
  }

  // ---------------------------------------------------------------- an error with the file in place

  /** The directory sync of the lone call is made in this run, and fails. */
  predicate SyncFails(s: State, turns: seq<Turn>)
    decreases |turns|
  {
    turns != [] &&
    if turns[0].who < |s.callers|
    then
      || (s.callers[turns[0].who].pc.SyncingDir? && turns[0].outcome.Failure?)
      || SyncFails(Step(s, turns[0].who, turns[0].outcome), turns[1..])
    else SyncFails(s, turns[1..])
  }

  predicate FailedYetPublished(c: Caller) {
    c.pc == Finished(Failed) && c.stamp.Some?
  }

  lemma SyncStep(s: State, base: Id, c: Caller, o: Outcome)
    requires CallerOk(s.fs, base, c) && c.kind == CreateNew
    ensures FailedYetPublished(MoveCaller(s, c, o))
            <==> FailedYetPublished(c) || (c.pc.SyncingDir? && o.Failure?)
    ensures c.pc.Finished? ==> MoveCaller(s, c, o).pc.Finished?
  {
    hide Perform, StagedOk, PublishedOk;
  }

  lemma {:induction false} SyncRun(s0: State, s: State, turns: seq<Turn>)
    requires Alone(s0) && Inv(s, s0.fs) && Progress(s, s0) && s.callers[0].kind == CreateNew
    ensures |Run(s, turns).callers| == 1
    ensures FailedYetPublished(Run(s, turns).callers[0]) <==> FailedYetPublished(s.callers[0]) || SyncFails(s, turns)
    decreases |turns|
  {
    hide Inv, Alone, MoveFs, MoveCaller, FailedYetPublished, CallerOk;
    if turns != [] {
      if turns[0].who < |s.callers| {
        OnlyCallerOk(s, s0);
        StepKeeps(s, s0.fs, 0, turns[0].outcome);
        ProgressStep(s0, s, turns[0].outcome);
        SyncStep(s, s0.fs.next, s.callers[0], turns[0].outcome);
        SyncRun(s0, Step(s, 0, turns[0].outcome), turns[1..]);
      } else {
        SyncRun(s0, s, turns[1..]);
      }
    }
  }

  lemma OnlyCallerOk(s: State, s0: State)
    requires Inv(s, s0.fs) && Progress(s, s0)
    ensures CallerOk(s.fs, s0.fs.next, s.callers[0])
  {
  }

  /** A whole exclusive creation: it ends in an error, with its file standing where there was none, exactly
      when it got as far as the directory sync and that failed. */
  lemma FailedYetCreated(s0: State, turns: seq<Turn>)
    requires Alone(s0) && s0.callers[0].kind == CreateNew
    ensures var s, c := Run(s0, turns), s0.callers[0];
            && |s.callers| == 1
            && (s.callers[0].pc == Finished(Failed) && c.path !in Seen(s0.fs, c.tmp) && c.path in Seen(s.fs, c.tmp)
                <==> SyncFails(s0, turns))
            && (SyncFails(s0, turns) ==>
                  Seen(s.fs, c.tmp) == Seen(s0.fs, c.tmp)[c.path := File(c.bytes, MODE_0644)])
  {
    hide Run, Seen, SyncFails, Inv;
    AloneStarts(s0);
    AloneMode(s0);
    ProgressRun(s0, s0, turns);
    SyncRun(s0, s0, turns);
    SeenAfter(s0, Run(s0, turns));
    assert !FailedYetPublished(s0.callers[0]) by {
      assert Fresh(s0.callers[0]);
    }
  }

  // ---------------------------------------------------------------- it can happen

  /** The call has opened its temp and nothing has gone wrong. */
  predicate OnTheWay(c: Caller) {
    Staged(c) || c.pc == Cleaning(Created)
  }

  function StepsToGo(c: Caller): nat {
    match c.pc
    case Writing(left) => if left == [] then 5 else 6
    case Chmodding => 4
    case Syncing => 3
    case Publishing => 2
    case Cleaning(_) => 1
    case _ => 0
  }

  /** A system call that succeeds, and writes all it is given. */
  function AllGoesWell(c: Caller): Outcome {
    Success(|c.bytes|)
  }

  /** A lone call whose next system call succeeds gets one step further. */
  lemma OneStepFurther(s0: State, s: State)
    requires Alone(s0) && Inv(s, s0.fs) && Progress(s, s0) && OnTheWay(s.callers[0])
    requires s.callers[0].kind == CreateNew ==> Entry(s0.fs, s.callers[0].path) == None
    ensures var c, c' := s.callers[0], Step(s, 0, AllGoesWell(s.callers[0])).callers[0];
            && StepsToGo(c') < StepsToGo(c)
            && (OnTheWay(c') || c'.pc == (if c.kind == Copy then Finished(Written) else SyncingDir))
  {
    hide Perform, PublishedOk, Candidates;
    var c := s.callers[0];
    OnlyCallerOk(s, s0);
    PathIsNoTemp(s0, s);
    assert Entry(s.fs, c.path) == if c.stamp.Some? then c.id else Entry(s0.fs, c.path);
    if c.pc.Writing? {
      assert |c.pc.left| <= |c.bytes|;
      assert c.pc.left[|c.pc.left|..] == [];
    }
  }

  lemma FirstStep(s0: State)
    requires Alone(s0)
    ensures OnTheWay(Step(s0, 0, AllGoesWell(s0.callers[0])).callers[0])
  {
    assert Fresh(s0.callers[0]) && IsTemp(s0, s0.callers[0].tmp);
  }

  lemma KeepsGoing(s0: State, s: State)
    requires Alone(s0) && Inv(s, s0.fs) && Progress(s, s0)
    ensures var s' := Step(s, 0, AllGoesWell(s.callers[0])); Inv(s', s0.fs) && Progress(s', s0)
  {
    hide Inv, Progress, Alone, Step;
    OnlyCaller(s, s0);
    StepKeeps(s, s0.fs, 0, AllGoesWell(s.callers[0]));
    ProgressStep(s0, s, AllGoesWell(s.callers[0]));
  }

  lemma {:induction false} SyncCanFailFrom(s0: State, s: State) returns (turns: seq<Turn>)
    requires Alone(s0) && Inv(s, s0.fs) && Progress(s, s0) && s.callers[0].kind == CreateNew
    requires Entry(s0.fs, s.callers[0].path) == None
    requires OnTheWay(s.callers[0]) || s.callers[0].pc == SyncingDir
    ensures SyncFails(s, turns)
    decreases StepsToGo(s.callers[0])
  {
    hide Inv, Alone, MoveFs, MoveCaller;
    if s.callers[0].pc == SyncingDir {
      turns := [Turn(0, Failure)];
    } else {
      OneStepFurther(s0, s);
      KeepsGoing(s0, s);
      var rest := SyncCanFailFrom(s0, Step(s, 0, AllGoesWell(s.callers[0])));
      turns := [Turn(0, AllGoesWell(s.callers[0]))] + rest;
      assert turns[1..] == rest;
    }
  }

  /** The lone call has returned an error; there was no file at its path, and now there is. */
  predicate ErrorWithFile(s0: State, turns: seq<Turn>) {
    var s := Run(s0, turns);
    && |s0.callers| == 1 && |s.callers| == 1 && s.callers[0].pc == Finished(Failed)
    && s0.callers[0].path !in Seen(s0.fs, s0.callers[0].tmp) && s0.callers[0].path in Seen(s.fs, s0.callers[0].tmp)
  }

  /** Wherever the file is absent there is such a run: the error is reported, the file is there. */
  lemma CreatesAndFails(s0: State)
    requires Alone(s0) && s0.callers[0].kind == CreateNew && s0.callers[0].path !in s0.fs.dir
    ensures exists turns :: ErrorWithFile(s0, turns)
  {
    hide Run, Seen, SyncFails, Inv, Step;
    AloneStarts(s0);
    FirstStep(s0);
    KeepsGoing(s0, s0);
    var rest := SyncCanFailFrom(s0, Step(s0, 0, AllGoesWell(s0.callers[0])));
    var turns := [Turn(0, AllGoesWell(s0.callers[0]))] + rest;
    SyncFailsLater(s0, turns[0], rest);
    FailedYetCreated(s0, turns);
    assert ErrorWithFile(s0, turns);
  }

  lemma SyncFailsLater(s: State, turn: Turn, rest: seq<Turn>)
    requires turn.who < |s.callers| && SyncFails(Step(s, turn.who, turn.outcome), rest)
    ensures SyncFails(s, [turn] + rest)
  {
    assert ([turn] + rest)[1..] == rest;
  }

  lemma {:induction false} CopyCanFinishFrom(s0: State, s: State) returns (turns: seq<Turn>)
    requires Alone(s0) && Inv(s, s0.fs) && Progress(s, s0) && s.callers[0].kind == Copy
    requires OnTheWay(s.callers[0]) || s.callers[0].pc == Finished(Written)
    ensures Run(s, turns).callers != [] && Run(s, turns).callers[0].pc == Finished(Written)
    decreases StepsToGo(s.callers[0])
  {
    hide Inv, Alone, MoveFs, MoveCaller;
    if s.callers[0].pc == Finished(Written) {
      turns := [];
    } else {
      OneStepFurther(s0, s);
      KeepsGoing(s0, s);
      var rest := CopyCanFinishFrom(s0, Step(s, 0, AllGoesWell(s.callers[0])));
      turns := [Turn(0, AllGoesWell(s.callers[0]))] + rest;
      assert turns[1..] == rest;
    }
  }

  /** The lone call has returned Ok, and a power loss may bring back any file at all under its path. */
  ghost predicate OkThenLost(s0: State, turns: seq<Turn>) {
    var s := Run(s0, turns);
    && |s0.callers| == 1 && |s.callers| == 1 && s.callers[0].pc == Finished(Written)
    && forall f: File :: Recoverable(s.fs, s0.callers[0].path, Some(f))
  }

  /** Every copy with the directory to itself can succeed and then, at a power loss, come back as anything. */
  lemma CopyIsLost(s0: State)
    requires Alone(s0) && s0.callers[0].kind == Copy
    ensures exists turns :: OkThenLost(s0, turns)
  {
    hide Run, Inv, Step, Recoverable, Candidates, Reads;
    AloneStarts(s0);
    FirstStep(s0);
    KeepsGoing(s0, s0);
    var rest := CopyCanFinishFrom(s0, Step(s0, 0, AllGoesWell(s0.callers[0])));
    var turns := [Turn(0, AllGoesWell(s0.callers[0]))] + rest;
    RunFirst(s0, turns[0], rest);
    ProgressRun(s0, s0, turns);
    FinishedHow(s0, Run(s0, turns));
    PathIsNoTemp(s0, Run(s0, turns));
    CopiesAreNotDurable(s0, turns, 0);
    assert OkThenLost(s0, turns);
  }

  lemma RunFirst(s: State, turn: Turn, rest: seq<Turn>)
    requires turn.who < |s.callers|
    ensures Run(s, [turn] + rest) == Run(Step(s, turn.who, turn.outcome), rest)
  {
    assert ([turn] + rest)[1..] == rest;
  }

  lemma AloneMode(s0: State)
    requires Alone(s0) && s0.callers[0].kind == CreateNew
    ensures s0.callers[0].mode == MODE_0644
  {
    assert Fresh(s0.callers[0]);
  }
}
