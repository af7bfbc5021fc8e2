// create_new: of any number of concurrent callers exactly one creates the file, and no temp is left.

module ExclusiveCreate {
  import opened Shared
  import opened DurableFs
  import opened Publish
  import opened PublishClaims

  // ---------------------------------------------------------------- at most one creator

  /** Only create_new is ever called on `p`. */
  ghost predicate OnlyCreates(s: State, p: Name) {
    forall i: nat :: Targets(s, i, p) ==> s.callers[i].kind == CreateNew
  }

  predicate Won(s: State, i: nat, p: Name) {
    Targets(s, i, p) && s.callers[i].stamp.Some?
  }

  ghost predicate ExclusiveInv(s: State, init: Fs, p: Name) {
    && (Entry(init, p).Some? ==> Entry(s.fs, p) == Entry(init, p) && forall i: nat :: !Won(s, i, p))
    && (Entry(init, p) == None ==> (Entry(s.fs, p) == None <==> forall i: nat :: !Won(s, i, p)))
    && (forall i: nat, j: nat :: Won(s, i, p) && Won(s, j, p) ==> i == j)
    && (forall i: nat :: Targets(s, i, p) && Lost(s.callers[i]) ==> Entry(s.fs, p).Some?)
  }

  predicate Lost(c: Caller) {
    c.pc == Cleaning(AlreadyThere) || c.pc == Finished(AlreadyThere)
  }

  /** A creator claims a name only while nobody has it, and gives up only because somebody has. */
  lemma ClaimIsExclusive(s: State, base: Id, c: Caller, o: Outcome)
    requires CallerOk(s.fs, base, c) && c.kind == CreateNew && c.tmp != c.path
    ensures var c' := MoveCaller(s, c, o);
            && (c.stamp == None && c'.stamp.Some? ==> Entry(s.fs, c.path) == None)
            && (!Lost(c) && Lost(c') ==> Entry(s.fs, c.path).Some?)
  {
  }

  /** What one step does to the claims on `p`. */
  ghost predicate ClaimsMove(s: State, s': State, i: nat, p: Name) {
    && (forall k: nat :: Targets(s', k, p) <==> Targets(s, k, p))
    && (forall k: nat :: k != i ==> (Won(s', k, p) <==> Won(s, k, p)))
    && (Won(s, i, p) ==> Won(s', i, p))
    && (if Won(s', i, p) && !Won(s, i, p) then Entry(s.fs, p) == None && Entry(s'.fs, p).Some?
        else Entry(s'.fs, p) == Entry(s.fs, p))
    && (forall k: nat :: Targets(s', k, p) && Lost(s'.callers[k]) ==> Lost(s.callers[k]) || Entry(s.fs, p).Some?)
    && (forall k: nat :: Targets(s, k, p) ==> s'.callers[k].kind == s.callers[k].kind)
  }

  lemma StepMovesClaims(s: State, init: Fs, p: Name, i: nat, o: Outcome)
    requires Inv(s, init) && OnlyCreates(s, p) && !IsTemp(s, p) && i < |s.callers|
    ensures ClaimsMove(s, Step(s, i, o), i, p)
  {
    hide MoveFs, MoveCaller, Candidates, StagedOk, PublishedOk, Lost;
    var c, s' := s.callers[i], Step(s, i, o);
    assert CallerOk(s.fs, init.next, c) && !IsTemp(s, c.path) && IsTemp(s, c.tmp);
    MoverOk(s, init, i, o);
    MoveTouchesPath(s, init.next, c, o, p);
    if c.path == p {
      assert Targets(s, i, p);
      ClaimIsExclusive(s, init.next, c, o);
    }
  }

  lemma ExclusiveStep(s: State, init: Fs, p: Name, i: nat, o: Outcome)
    requires Inv(s, init) && ExclusiveInv(s, init, p) && OnlyCreates(s, p) && !IsTemp(s, p) && i < |s.callers|
    ensures ExclusiveInv(Step(s, i, o), init, p) && OnlyCreates(Step(s, i, o), p)
  {
    StepMovesClaims(s, init, p, i, o);
    hide Inv, Step, Won, Lost;
  }

  lemma {:induction false} ExclusiveRun(s: State, init: Fs, p: Name, turns: seq<Turn>)
    requires Inv(s, init) && ExclusiveInv(s, init, p) && OnlyCreates(s, p) && !IsTemp(s, p)
    ensures ExclusiveInv(Run(s, turns), init, p) && OnlyCreates(Run(s, turns), p)
    decreases |turns|
  {
    hide Step, Inv, ExclusiveInv, OnlyCreates;
    if turns != [] {
      if turns[0].who < |s.callers| {
        var s1 := Step(s, turns[0].who, turns[0].outcome);
        StepKeeps(s, init, turns[0].who, turns[0].outcome);
        ExclusiveStep(s, init, p, turns[0].who, turns[0].outcome);
        OneTurn(s, turns[0]);
        TempsAreTheSame(s, s1, p);
        ExclusiveRun(s1, init, p, turns[1..]);
      } else {
        ExclusiveRun(s, init, p, turns[1..]);
      }
    }
  }

  lemma OneTurn(s: State, t: Turn)
    requires t.who < |s.callers|
    ensures SameIdentities(s, Step(s, t.who, t.outcome))
  {
    MoveKeepsIdentity(s, s.callers[t.who], t.outcome);
  }

  /** Whatever fails, and after any number of steps: no two callers are told they created the file, and
      one that existed is neither replaced nor changed. */
  lemma NeverTwoCreators(s0: State, turns: seq<Turn>, p: Name, i: nat, j: nat)
    requires Initial(s0) && !IsTemp(s0, p) && OnlyCreates(s0, p)
    requires Targets(Run(s0, turns), i, p) && Run(s0, turns).callers[i].pc == Finished(Created)
    ensures Targets(Run(s0, turns), j, p) && Run(s0, turns).callers[j].pc == Finished(Created) ==> i == j
    ensures Entry(s0.fs, p) == None
  {
    hide Run, Step, StagedOk, PublishedOk;
    var s := Run(s0, turns);
    InitialInv(s0);
    StartOfCreates(s0, p);
    RunKeeps(s0, s0.fs, turns);
    ExclusiveRun(s0, s0.fs, p, turns);
    assert CallerOk(s.fs, s0.fs.next, s.callers[i]);
    assert Won(s, i, p);
    if Targets(s, j, p) {
      assert CallerOk(s.fs, s0.fs.next, s.callers[j]);
      assert s.callers[j].stamp.Some? ==> Won(s, j, p);
    }
  }

  // ---------------------------------------------------------------- temps go away

  /** A caller that has not begun, or is past its cleanup, has no temp. */
  predicate TempGone(fs: Fs, c: Caller) {
    c.pc.Stat? || c.pc.Open? || c.pc.SyncingDir? || c.pc.Finished? ==> c.tmp !in fs.dir
  }

  ghost predicate NoStrayTemps(s: State) {
    forall i :: 0 <= i < |s.callers| ==> TempGone(s.fs, s.callers[i])
  }

  /** Removing a temp never fails. */
  predicate UnlinksWork(s: State, turns: seq<Turn>)
    decreases |turns|
  {
    turns == []
    || (if turns[0].who < |s.callers| then
          !(s.callers[turns[0].who].pc.Cleaning? && turns[0].outcome.Failure?)
          && UnlinksWork(Step(s, turns[0].who, turns[0].outcome), turns[1..])
        else UnlinksWork(s, turns[1..]))
  }

  lemma TempGoneStep(s: State, base: Id, c: Caller, o: Outcome)
    requires CallerOk(s.fs, base, c) && c.tmp != c.path && TempGone(s.fs, c) && !(c.pc.Cleaning? && o.Failure?)
    ensures TempGone(MoveFs(s.fs, c, o), MoveCaller(s, c, o))
  {
  }

  lemma NoStrayStep(s: State, init: Fs, i: nat, o: Outcome)
    requires Inv(s, init) && NoStrayTemps(s) && i < |s.callers| && !(s.callers[i].pc.Cleaning? && o.Failure?)
    ensures NoStrayTemps(Step(s, i, o))
  {
    hide MoveFs, MoveCaller, Candidates, StagedOk, PublishedOk;
    assert CallerOk(s.fs, init.next, s.callers[i]) && s.callers[i].tmp != s.callers[i].path;
    TempGoneStep(s, init.next, s.callers[i], o);
    StepFrame(s, init, i, o);
    forall j | 0 <= j < |s.callers|
      ensures TempGone(Step(s, i, o).fs, Step(s, i, o).callers[j])
    {
      assert j != i ==> Entry(Step(s, i, o).fs, s.callers[j].tmp) == Entry(s.fs, s.callers[j].tmp);
    }
  }

  /** Unless removing one fails, no temp outlives its caller, whatever else goes wrong. */
  lemma {:induction false} NoTempSurvives(s: State, init: Fs, turns: seq<Turn>)
    requires Inv(s, init) && NoStrayTemps(s) && UnlinksWork(s, turns)
    ensures NoStrayTemps(Run(s, turns))
    decreases |turns|
  {
    hide Step, Inv, NoStrayTemps;
    if turns != [] {
      if turns[0].who < |s.callers| {
        StepKeeps(s, init, turns[0].who, turns[0].outcome);
        NoStrayStep(s, init, turns[0].who, turns[0].outcome);
        NoTempSurvives(Step(s, turns[0].who, turns[0].outcome), init, turns[1..]);
      } else {
        NoTempSurvives(s, init, turns[1..]);
      }
    }
  }

  // ---------------------------------------------------------------- exactly one creator

  predicate NoFailures(turns: seq<Turn>) {
    forall k :: 0 <= k < |turns| ==> !turns[k].outcome.Failure?
  }

  predicate NotFailed(c: Caller) {
    c.pc != Cleaning(Failed) && c.pc != Finished(Failed)
  }

  lemma NotFailedStep(s: State, base: Id, c: Caller, o: Outcome)
    requires CallerOk(s.fs, base, c) && NotFailed(c) && TempGone(s.fs, c) && !o.Failure?
    ensures NotFailed(MoveCaller(s, c, o))
  {
    hide Perform;
  }

  lemma {:induction false} NobodyFails(s: State, init: Fs, turns: seq<Turn>)
    requires Inv(s, init) && NoStrayTemps(s) && NoFailures(turns)
    requires forall i :: 0 <= i < |s.callers| ==> NotFailed(s.callers[i])
    ensures NoStrayTemps(Run(s, turns))
    ensures forall i :: 0 <= i < |Run(s, turns).callers| ==> NotFailed(Run(s, turns).callers[i])
    decreases |turns|
  {
    hide MoveFs, MoveCaller, Candidates, StagedOk, PublishedOk, NotFailed, TempGone;
    if turns != [] {
      assert !turns[0].outcome.Failure? && NoFailures(turns[1..]);
      if turns[0].who < |s.callers| {
        var c := s.callers[turns[0].who];
        StepKeeps(s, init, turns[0].who, turns[0].outcome);
        NoStrayStep(s, init, turns[0].who, turns[0].outcome);
        NotFailedStep(s, init.next, c, turns[0].outcome);
        NobodyFails(Step(s, turns[0].who, turns[0].outcome), init, turns[1..]);
      } else {
        NobodyFails(s, init, turns[1..]);
      }
    }
  }

  predicate Returned(s: State, i: nat, r: Result)
    requires i < |s.callers|
  {
    s.callers[i].pc == Finished(r)
  }

  lemma StartOfCreates(s0: State, p: Name)
    requires Initial(s0) && !IsTemp(s0, p)
    ensures ExclusiveInv(s0, s0.fs, p) && NoStrayTemps(s0)
    ensures forall i :: 0 <= i < |s0.callers| ==> NotFailed(s0.callers[i])
  {
    assert forall i :: 0 <= i < |s0.callers| ==> IsTemp(s0, s0.callers[i].tmp) && Fresh(s0.callers[i]);
  }

  lemma WinnersAndLosers(s0: State, s: State, p: Name)
    requires Initial(s0) && Inv(s, s0.fs) && ExclusiveInv(s, s0.fs, p) && OnlyCreates(s, p) && SameIdentities(s0, s)
    requires forall i :: 0 <= i < |s.callers| ==> NotFailed(s.callers[i])
    requires forall i: nat :: Targets(s, i, p) ==> s.callers[i].pc.Finished?
    requires exists i: nat :: Targets(s0, i, p)
    ensures forall i: nat :: Targets(s, i, p) ==> Returned(s, i, if Won(s, i, p) then Created else AlreadyThere)
    ensures Entry(s0.fs, p).Some? ==> Shown(s.fs, Entry(s.fs, p)) == Shown(s0.fs, Entry(s0.fs, p))
    ensures Entry(s0.fs, p) == None ==>
              exists i: nat :: Won(s, i, p) && Shown(s.fs, Entry(s.fs, p)) == Some(File(s0.callers[i].bytes, MODE_0644))
  {
    hide StagedOk;
    forall i: nat | Targets(s, i, p)
      ensures Returned(s, i, if Won(s, i, p) then Created else AlreadyThere)
    {
      assert CallerOk(s.fs, s0.fs.next, s.callers[i]);
    }
    if Entry(s0.fs, p) == None {
      var k: nat :| Targets(s0, k, p);
      assert Targets(s, k, p);
      assert !Won(s, k, p) ==> Lost(s.callers[k]);
      var e := Entry(s.fs, p);
      assert e.Some?;
      assert EntryOk(s, s0.fs, p, e);
      var j: nat :| j < |s.callers| && Made(s.callers[j], p, e.value);
      assert Won(s, j, p) && CallerOk(s.fs, s0.fs.next, s.callers[j]);
    }
  }

  /** Exclusive creation, without I/O errors: once every caller on `p` has returned, exactly one of them
      got `true` if `p` did not exist, none if it did, everybody else got `false`; the name shows the
      winner's complete bytes, or still the old file; and no temp is left. */
  lemma ExclusiveCreation(s0: State, turns: seq<Turn>, p: Name)
    requires Initial(s0) && !IsTemp(s0, p) && OnlyCreates(s0, p) && NoFailures(turns)
    requires forall i: nat :: Targets(Run(s0, turns), i, p) ==> Run(s0, turns).callers[i].pc.Finished?
    requires exists i: nat :: Targets(s0, i, p)
    ensures var s := Run(s0, turns);
            && (forall i: nat :: Targets(s, i, p) ==> Returned(s, i, Created) || Returned(s, i, AlreadyThere))
            && (Entry(s0.fs, p).Some? ==>
                  && Entry(s.fs, p) == Entry(s0.fs, p) && Shown(s.fs, Entry(s.fs, p)) == Shown(s0.fs, Entry(s0.fs, p))
                  && forall i: nat :: Targets(s, i, p) ==> !Returned(s, i, Created))
            && (Entry(s0.fs, p) == None ==>
                  exists i: nat ::
                    && i < |s0.callers| && Targets(s, i, p) && Returned(s, i, Created)
                    && Shown(s.fs, Entry(s.fs, p)) == Some(File(s0.callers[i].bytes, MODE_0644))
                    && forall j: nat :: Targets(s, j, p) && j != i ==> !Returned(s, j, Created))
            && NoStrayTemps(s)
  {
    hide Run, Step, StagedOk, NoStrayTemps;
    var s := Run(s0, turns);
    InitialInv(s0);
    StartOfCreates(s0, p);
    RunKeeps(s0, s0.fs, turns);
    ExclusiveRun(s0, s0.fs, p, turns);
    NobodyFails(s0, s0.fs, turns);
    SameCallers(s0, turns);
    TempsAreTheSame(s0, s, p);
    WinnersAndLosers(s0, s, p);
  }
}
