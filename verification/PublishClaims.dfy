// What the publication protocols guarantee: atomicity at every crash point, durability after Ok,
// exclusive creation, and no temp left behind.

module PublishClaims {
  import opened Shared
  import opened DurableFs
  import opened Publish

  // ---------------------------------------------------------------- crash atomicity

  /** The file that entry `e` shows while the system is up. */
  function Shown(fs: Fs, e: Option<Id>): Option<File> {
    if e.Some? && e.value in fs.inodes then Some(fs.inodes[e.value].file) else None
  }

  /** Caller `i` publishes under `n`. */
  predicate Targets(s: State, i: nat, n: Name) {
    i < |s.callers| && s.callers[i].path == n
  }

  function Meant(c: Caller): File {
    File(c.bytes, c.mode)
  }

  /** What `n` may legitimately hold: what it held at the start, or all that one of its publishers wrote. */
  ghost predicate Whole(s: State, init: Fs, n: Name, found: Option<File>) {
    || found == Shown(init, Entry(init, n))
    || exists i: nat :: Targets(s, i, n) && s.callers[i].stamp.Some? && found == Some(Meant(s.callers[i]))
  }

  /** However callers interleave and fail, and wherever power is lost: a final name that nobody copies
      to comes back as the old file or one caller's complete bytes and mode, never as part of a file. */
  lemma CrashAtomicity(s0: State, turns: seq<Turn>, n: Name, found: Option<File>)
    requires Initial(s0) && !IsTemp(s0, n)
    requires forall i: nat :: Targets(s0, i, n) ==> s0.callers[i].kind != Copy
    requires Recoverable(Run(s0, turns).fs, n, found)
    ensures Whole(Run(s0, turns), s0.fs, n, found)
  {
    hide Run, Step, CallerOk;
    var s := Run(s0, turns);
    InitialInv(s0);
    RunKeeps(s0, s0.fs, turns);
    SameCallers(s0, turns);
    EntryIsWhole(s0, s, n, found);
  }

  lemma EntryIsWhole(s0: State, s: State, n: Name, found: Option<File>)
    requires Initial(s0) && Inv(s, s0.fs) && SameIdentities(s0, s) && !IsTemp(s0, n)
    requires forall i: nat :: Targets(s0, i, n) ==> s0.callers[i].kind != Copy
    requires Recoverable(s.fs, n, found)
    ensures Whole(s, s0.fs, n, found)
  {
    hide StagedOk;
    var e :| e in Candidates(s.fs, n) && Reads(s.fs, e, found);
    TempsAreTheSame(s0, s, n);
    assert EntryOk(s, s0.fs, n, e);
    if e != Entry(s0.fs, n) {
      var i :| 0 <= i < |s.callers| && Made(s.callers[i], n, e.value);
      assert CallerOk(s.fs, s0.fs.next, s.callers[i]);
      assert Targets(s0, i, n) && Targets(s, i, n);
    }
  }

  /** While the system is up a reader never sees part of a file either, copies included. */
  lemma ReadersSeeWholeFiles(s0: State, turns: seq<Turn>, n: Name)
    requires Initial(s0) && !IsTemp(s0, n)
    ensures Whole(Run(s0, turns), s0.fs, n, Shown(Run(s0, turns).fs, Entry(Run(s0, turns).fs, n)))
  {
    hide Run, Step, StagedOk;
    var s := Run(s0, turns);
    InitialInv(s0);
    RunKeeps(s0, s0.fs, turns);
    SameCallers(s0, turns);
    TempsAreTheSame(s0, s, n);
    var e := Entry(s.fs, n);
    assert EntryOk(s, s0.fs, n, e);
    if e != Entry(s0.fs, n) {
      var i :| 0 <= i < |s.callers| && Made(s.callers[i], n, e.value);
      assert CallerOk(s.fs, s0.fs.next, s.callers[i]);
      assert Targets(s, i, n);
    }
  }

  /** A temp has the mode of the finished file all along, except that write_atomic's may be readable by its
      owner only: nobody ever sees one wider than the file it becomes. */
  lemma TempIsPrivate(s0: State, turns: seq<Turn>, i: nat)
    requires Initial(s0) && i < |s0.callers|
    ensures var s := Run(s0, turns);
            i < |s.callers| && (Staged(s.callers[i]) ==>
              || ModeOf(s.fs, s.callers[i].tmp) == Some(s.callers[i].mode)
              || (s.callers[i].kind == WriteAtomic && ModeOf(s.fs, s.callers[i].tmp) == Some(384)))
  {
    hide Run, Step, PublishedOk;
    InitialInv(s0);
    RunKeeps(s0, s0.fs, turns);
    SameCallers(s0, turns);
    assert CallerOk(Run(s0, turns).fs, s0.fs.next, Run(s0, turns).callers[i]);
  }

  /** A published file survives a power loss whole exactly when its caller was not `copy_atomic`, which
      never syncs: after a copy any bytes at all may come back under the name. */
  lemma CopiesAreNotDurable(s0: State, turns: seq<Turn>, i: nat)
    requires Initial(s0) && i < |s0.callers|
    requires var s := Run(s0, turns);
             && |s.callers| == |s0.callers| && s.callers[i].stamp.Some?
             && Entry(s.fs, s.callers[i].path) == s.callers[i].id
    ensures var s := Run(s0, turns);
            var c := s.callers[i];
            && ((forall f: File :: Reads(s.fs, c.id, Some(f))) <==> c.kind == Copy)
            && (c.kind == Copy ==> forall f: File :: Recoverable(s.fs, c.path, Some(f)))
  {
    hide Run, Step, StagedOk;
    var s := Run(s0, turns);
    InitialInv(s0);
    RunKeeps(s0, s0.fs, turns);
    var c := s.callers[i];
    assert CallerOk(s.fs, s0.fs.next, c);
    if c.kind == Copy {
      forall f: File
        ensures Recoverable(s.fs, c.path, Some(f))
      {
        assert c.id in Candidates(s.fs, c.path) && Reads(s.fs, c.id, Some(f));
      }
    } else {
      assert !Reads(s.fs, c.id, Some(File(c.bytes, c.mode + 1)));
    }
  }

  // ---------------------------------------------------------------- who the callers are does not change

  predicate SameIdentities(s0: State, s: State) {
    && |s.callers| == |s0.callers|
    && forall i :: 0 <= i < |s.callers| ==>
         && s.callers[i].kind == s0.callers[i].kind && s.callers[i].path == s0.callers[i].path
         && s.callers[i].tmp == s0.callers[i].tmp && s.callers[i].bytes == s0.callers[i].bytes
  }

  lemma TempsAreTheSame(s0: State, s: State, n: Name)
    requires SameIdentities(s0, s)
    ensures IsTemp(s0, n) <==> IsTemp(s, n)
  {
    if IsTemp(s0, n) {
      var i :| 0 <= i < |s0.callers| && s0.callers[i].tmp == n;
      assert s.callers[i].tmp == n;
    }
    if IsTemp(s, n) {
      var i :| 0 <= i < |s.callers| && s.callers[i].tmp == n;
      assert s0.callers[i].tmp == n;
    }
  }

  lemma MoveKeepsIdentity(s: State, c: Caller, o: Outcome)
    ensures var c' := MoveCaller(s, c, o);
            c'.kind == c.kind && c'.path == c.path && c'.tmp == c.tmp && c'.bytes == c.bytes
  {
  }

  lemma {:induction false} SameCallers(s: State, turns: seq<Turn>)
    ensures SameIdentities(s, Run(s, turns))
    decreases |turns|
  {
    hide MoveFs, MoveCaller;
    if turns != [] {
      var s1 := if turns[0].who < |s.callers| then Step(s, turns[0].who, turns[0].outcome) else s;
      if turns[0].who < |s.callers| {
        MoveKeepsIdentity(s, s.callers[turns[0].who], turns[0].outcome);
      }
      SameCallers(s1, turns[1..]);
    }
  }

  // ---------------------------------------------------------------- durable after Ok

  /** Entry `e` of `n` was published at time `t` or later. */
  ghost predicate Since(s: State, n: Name, e: Option<Id>, t: nat) {
    e.Some? && exists j :: 0 <= j < |s.callers| && Made(s.callers[j], n, e.value) && s.callers[j].stamp.value >= t
  }

  /** Names show their latest publication; a durable publication cannot be rolled back. */
  ghost predicate DurableInv(s: State) {
    && (forall i :: 0 <= i < |s.callers| && s.callers[i].stamp.Some? ==>
          && s.callers[i].stamp.value < s.clock
          && Since(s, s.callers[i].path, Entry(s.fs, s.callers[i].path), s.callers[i].stamp.value))
    && (forall i, e :: 0 <= i < |s.callers| && s.callers[i].durable && s.callers[i].stamp.Some?
                       && e in Candidates(s.fs, s.callers[i].path) ==>
          Since(s, s.callers[i].path, e, s.callers[i].stamp.value))
  }

  /** A step's effect on one final name, as far as durability is concerned. */
  lemma MoveTouchesPath(s: State, base: Id, c: Caller, o: Outcome, n: Name)
    requires CallerOk(s.fs, base, c) && c.tmp != c.path && n != c.tmp
    ensures var c', fs, fs' := MoveCaller(s, c, o), s.fs, MoveFs(s.fs, c, o);
            && (c.stamp == None && c'.stamp.Some? ==> c'.stamp == Some(s.clock) && c'.id.Some?)
            && (if c.stamp == None && c'.stamp.Some? && n == c.path
                then Entry(fs', n) == c'.id && Candidates(fs', n) <= Candidates(fs, n) + {c'.id}
                else Entry(fs', n) == Entry(fs, n) && Candidates(fs', n) <= Candidates(fs, n))
            && (!c.durable && c'.durable ==> Candidates(fs', n) == {Entry(fs, n)} && c.stamp.Some?)
            && (c.durable ==> c'.durable)
  {
    MoveTouchesNames(s, base, c, o);
  }

  lemma SinceStays(s: State, init: Fs, i: nat, o: Outcome, n: Name, e: Option<Id>, t: nat)
    requires Inv(s, init) && i < |s.callers| && Since(s, n, e, t)
    ensures Since(Step(s, i, o), n, e, t)
  {
    hide MoveFs, MoveCaller, CallerOk, Inv;
    var j :| 0 <= j < |s.callers| && Made(s.callers[j], n, e.value) && s.callers[j].stamp.value >= t;
    MoverOk(s, init, i, o);
    assert Made(Step(s, i, o).callers[j], n, e.value);
  }

  lemma DurableStep(s: State, init: Fs, i: nat, o: Outcome)
    requires Inv(s, init) && DurableInv(s) && i < |s.callers|
    ensures DurableInv(Step(s, i, o))
  {
    hide MoveFs, MoveCaller, CallerOk, Since, Candidates;
    var s', c, c' := Step(s, i, o), s.callers[i], Step(s, i, o).callers[i];
    MoverOk(s, init, i, o);
    forall k | 0 <= k < |s'.callers| && s'.callers[k].stamp.Some?
      ensures s'.callers[k].stamp.value < s'.clock
      ensures Since(s', s'.callers[k].path, Entry(s'.fs, s'.callers[k].path), s'.callers[k].stamp.value)
      ensures s'.callers[k].durable ==> forall e :: e in Candidates(s'.fs, s'.callers[k].path) ==>
                Since(s', s'.callers[k].path, e, s'.callers[k].stamp.value)
    {
      DurableOne(s, init, i, o, k);
    }
  }

  lemma DurableOne(s: State, init: Fs, i: nat, o: Outcome, k: nat)
    requires Inv(s, init) && DurableInv(s) && i < |s.callers| && k < |s.callers|
    requires Step(s, i, o).callers[k].stamp.Some?
    ensures var s' := Step(s, i, o);
            var d := s'.callers[k];
            && d.stamp.value < s'.clock
            && Since(s', d.path, Entry(s'.fs, d.path), d.stamp.value)
            && (d.durable ==> forall e :: e in Candidates(s'.fs, d.path) ==> Since(s', d.path, e, d.stamp.value))
  {
    hide MoveFs, MoveCaller, CallerOk, Candidates, Inv, Since;
    var s', c, c' := Step(s, i, o), s.callers[i], Step(s, i, o).callers[i];
    var n, d := s.callers[k].path, s'.callers[k];
    CallerFacts(s, init, i);
    CallerFacts(s, init, k);
    MoverOk(s, init, i, o);
    MoveTouchesPath(s, init.next, c, o, n);
    if c.stamp == None && c'.stamp.Some? && n == c.path {
      PublishedSince(s', i, n, d.stamp.value);
    } else {
      SinceStays(s, init, i, o, n, Entry(s.fs, n), d.stamp.value);
    }
    if d.durable {
      forall e | e in Candidates(s'.fs, n)
        ensures Since(s', n, e, d.stamp.value)
      {
        if s.callers[k].durable && e in Candidates(s.fs, n) {
          SinceStays(s, init, i, o, n, e, d.stamp.value);
        }
      }
    }
  }

  lemma CallerFacts(s: State, init: Fs, i: nat)
    requires Inv(s, init) && i < |s.callers|
    ensures var c := s.callers[i];
            && CallerOk(s.fs, init.next, c) && !IsTemp(s, c.path) && IsTemp(s, c.tmp)
            && (c.stamp.Some? ==> c.id.Some?)
  {
  }

  lemma PublishedSince(s: State, i: nat, n: Name, t: nat)
    requires i < |s.callers| && s.callers[i].stamp.Some? && s.callers[i].path == n && s.callers[i].id.Some?
    requires t <= s.callers[i].stamp.value
    ensures Since(s, n, s.callers[i].id, t)
  {
    assert Made(s.callers[i], n, s.callers[i].id.value);
  }

  /** No directory sync is refused as unsupported. */
  predicate DirSyncWorks(turns: seq<Turn>) {
    forall k :: 0 <= k < |turns| ==> turns[k].outcome != Unsupported
  }

  /** A caller that returned Ok, on such a file system, did sync the directory. */
  ghost predicate OkIsDurable(s: State) {
    forall i :: 0 <= i < |s.callers| ==> OkDurable(s.callers[i])
  }

  predicate OkDurable(c: Caller) {
    c.kind != Copy && c.pc == Finished(SuccessOf(c.kind)) ==> c.durable
  }

  lemma OkDurableStep(s: State, base: Id, c: Caller, o: Outcome)
    requires CallerOk(s.fs, base, c) && OkDurable(c) && o != Unsupported
    ensures OkDurable(MoveCaller(s, c, o))
  {
    hide Perform, StagedOk, PublishedOk;
  }

  lemma {:induction false} DurableRun(s: State, init: Fs, turns: seq<Turn>)
    requires Inv(s, init) && DurableInv(s)
    ensures Inv(Run(s, turns), init) && DurableInv(Run(s, turns))
    ensures OkIsDurable(s) && DirSyncWorks(turns) ==> OkIsDurable(Run(s, turns))
    decreases |turns|
  {
    hide MoveFs, MoveCaller, DurableInv, CallerOk, OkDurable;
    if turns != [] {
      var s1 := if turns[0].who < |s.callers| then Step(s, turns[0].who, turns[0].outcome) else s;
      if turns[0].who < |s.callers| {
        StepKeeps(s, init, turns[0].who, turns[0].outcome);
        DurableStep(s, init, turns[0].who, turns[0].outcome);
        if OkIsDurable(s) && turns[0].outcome != Unsupported {
          OkDurableStep(s, init.next, s.callers[turns[0].who], turns[0].outcome);
        }
      }
      DurableRun(s1, init, turns[1..]);
    }
  }

  /** Durable after Ok: once a write_atomic or create_new has returned Ok, on a file system that syncs
      directories, what a power loss brings back under its path is its own complete bytes or those of
      a caller that published later. The old file is gone for good. */
  lemma DurableAfterOk(s0: State, turns: seq<Turn>, i: nat, found: Option<File>)
    requires Initial(s0) && i < |s0.callers| && DirSyncWorks(turns)
    requires forall j: nat :: Targets(s0, j, s0.callers[i].path) ==> s0.callers[j].kind != Copy
    requires ReturnedOk(Run(s0, turns), i)
    requires Recoverable(Run(s0, turns).fs, s0.callers[i].path, found)
    ensures WrittenSince(Run(s0, turns), s0.callers[i].path, i, found)
  {
    hide Run, CallerOk, Step, DurableInv;
    var s := Run(s0, turns);
    InitialInv(s0);
    assert DurableInv(s0) by { FreshIsDurable(s0); }
    DurableRun(s0, s0.fs, turns);
    SameCallers(s0, turns);
    OnlySince(s0, s, i, found);
  }

  predicate ReturnedOk(s: State, i: nat) {
    i < |s.callers| && s.callers[i].pc == Finished(SuccessOf(s.callers[i].kind))
  }

  /** `found` is what some publisher of `n` wrote, `i` or one that published after `i`. */
  ghost predicate WrittenSince(s: State, n: Name, i: nat, found: Option<File>) {
    && i < |s.callers| && s.callers[i].stamp.Some?
    && exists j: nat ::
         && Targets(s, j, n) && s.callers[j].stamp.Some?
         && s.callers[j].stamp.value >= s.callers[i].stamp.value && found == Some(Meant(s.callers[j]))
  }

  lemma FreshIsDurable(s0: State)
    requires Initial(s0)
    ensures DurableInv(s0) && OkIsDurable(s0)
  {
    assert forall i :: 0 <= i < |s0.callers| ==> Fresh(s0.callers[i]);
  }

  lemma OnlySince(s0: State, s: State, i: nat, found: Option<File>)
    requires Inv(s, s0.fs) && DurableInv(s) && OkIsDurable(s) && SameIdentities(s0, s)
    requires ReturnedOk(s, i) && Recoverable(s.fs, s.callers[i].path, found)
    requires forall j: nat :: Targets(s0, j, s0.callers[i].path) ==> s0.callers[j].kind != Copy
    ensures WrittenSince(s, s.callers[i].path, i, found)
  {
    hide Inv, CallerOk, Candidates, Since;
    var n := s.callers[i].path;
    assert Targets(s0, i, n);
    DurableHasStamp(s, s0.fs, i);
    var e :| e in Candidates(s.fs, n) && Reads(s.fs, e, found);
    SinceIsWhole(s0, s, n, e, i, found);
  }

  lemma DurableHasStamp(s: State, init: Fs, i: nat)
    requires Inv(s, init) && OkIsDurable(s) && ReturnedOk(s, i) && s.callers[i].kind != Copy
    ensures s.callers[i].durable && s.callers[i].stamp.Some?
  {
    assert CallerOk(s.fs, init.next, s.callers[i]) && OkDurable(s.callers[i]);
  }

  lemma SinceIsWhole(s0: State, s: State, n: Name, e: Option<Id>, i: nat, found: Option<File>)
    requires Inv(s, s0.fs) && SameIdentities(s0, s) && i < |s.callers| && s.callers[i].stamp.Some?
    requires Since(s, n, e, s.callers[i].stamp.value) && Reads(s.fs, e, found)
    requires forall j: nat :: Targets(s0, j, n) ==> s0.callers[j].kind != Copy
    ensures WrittenSince(s, n, i, found)
  {
    hide StagedOk, Candidates;
    var t := s.callers[i].stamp.value;
    var j: nat :| j < |s.callers| && Made(s.callers[j], n, e.value) && s.callers[j].stamp.value >= t;
    assert CallerOk(s.fs, s0.fs.next, s.callers[j]) && Targets(s0, j, n) && Targets(s, j, n);
  }

  // ---------------------------------------------------------------- the mode that is published

  function ModeOr0644(fs: Fs, n: Name): nat {
    var have := ModeOf(fs, n);
    if have.Some? then have.value else MODE_0644
  }

  /** Nobody but `i` is ever called on `i`'s path. */
  ghost predicate Sole(s: State, i: nat) {
    i < |s.callers| && forall j: nat :: j != i ==> !Targets(s, j, s.callers[i].path)
  }

  ghost predicate SoleInv(s: State, init: Fs, i: nat) {
    && Sole(s, i) && s.callers[i].kind == WriteAtomic
    && var c := s.callers[i];
       && (c.stamp == None ==> Entry(s.fs, c.path) == Entry(init, c.path))
       && (!c.pc.Stat? ==> c.mode == ModeOr0644(init, c.path))
  }

  lemma SoleStep(s: State, init: Fs, i: nat, k: nat, o: Outcome)
    requires Inv(s, init) && SoleInv(s, init, i) && k < |s.callers|
    requires forall n :: n in init.dir ==> init.dir[n] in init.inodes
    ensures SoleInv(Step(s, k, o), init, i)
  {
    hide MoveFs, Candidates, StagedOk, PublishedOk, CallOf;
    var c, n := s.callers[k], s.callers[i].path;
    assert CallerOk(s.fs, init.next, c) && !IsTemp(s, c.path) && !IsTemp(s, n) && IsTemp(s, c.tmp);
    MoverOk(s, init, k, o);
    MoveTouchesPath(s, init.next, c, o, n);
    assert k != i ==> !Targets(s, k, n);
    assert forall j: nat :: Targets(Step(s, k, o), j, n) <==> Targets(s, j, n);
  }

  lemma {:induction false} SoleRun(s: State, init: Fs, i: nat, turns: seq<Turn>)
    requires Inv(s, init) && SoleInv(s, init, i) && forall n :: n in init.dir ==> init.dir[n] in init.inodes
    ensures SoleInv(Run(s, turns), init, i) && Inv(Run(s, turns), init)
    decreases |turns|
  {
    hide Step, Inv, SoleInv;
    if turns != [] {
      if turns[0].who < |s.callers| {
        StepKeeps(s, init, turns[0].who, turns[0].outcome);
        SoleStep(s, init, i, turns[0].who, turns[0].outcome);
        SoleRun(Step(s, turns[0].who, turns[0].outcome), init, i, turns[1..]);
      } else {
        SoleRun(s, init, i, turns[1..]);
      }
    }
  }

  /** A single write_atomic on a path, among any calls on other paths: after a crash at any point the
      path holds the old file or the new bytes under the old mode (0644 if there was no file), and the
      latter for certain once the call has returned Ok. */
  lemma SoleWriter(s0: State, turns: seq<Turn>, i: nat, found: Option<File>)
    requires Initial(s0) && Sole(s0, i) && s0.callers[i].kind == WriteAtomic && DirSyncWorks(turns)
    requires Recoverable(Run(s0, turns).fs, s0.callers[i].path, found)
    ensures var s, n := Run(s0, turns), s0.callers[i].path;
            var fully := Some(File(s0.callers[i].bytes, ModeOr0644(s0.fs, n)));
            && (found == Shown(s0.fs, Entry(s0.fs, n)) || found == fully)
            && (ReturnedOk(s, i) ==> found == fully)
  {
    hide Run, CallerOk, Step, DurableInv, Inv, Recoverable;
    var s, n := Run(s0, turns), s0.callers[i].path;
    InitialInv(s0);
    SoleRun(s0, s0.fs, i, turns);
    SameCallers(s0, turns);
    assert !IsTemp(s0, n);
    assert forall j: nat :: Targets(s0, j, n) ==> j == i;
    CrashAtomicity(s0, turns, n, found);
    PublishedMode(s0, s, i);
    if ReturnedOk(s, i) {
      DurableAfterOk(s0, turns, i, found);
    }
  }

  lemma PublishedMode(s0: State, s: State, i: nat)
    requires Inv(s, s0.fs) && SoleInv(s, s0.fs, i)
    ensures s.callers[i].stamp.Some? ==> s.callers[i].mode == ModeOr0644(s0.fs, s.callers[i].path)
  {
    assert CallerOk(s.fs, s0.fs.next, s.callers[i]);
  }
}
