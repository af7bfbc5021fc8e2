// executor.rs: write_atomic_real, create_new_real and copy_atomic, as callers that take turns on one
// directory. Between any two steps another caller may run, and the machine may lose power.

module Publish {
  import opened Shared
  import opened Bytes
  import opened DurableFs

  datatype Kind = WriteAtomic | CreateNew | Copy

  /** Ok(()), Ok(true), Ok(false) and Err. */
  datatype Result = Written | Created | AlreadyThere | Failed

  datatype Pc =
    | Stat                            // mode_of(path)
    | Open
    | Writing(left: seq<Byte>)
    | Chmodding
    | Syncing
    | Publishing                      // rename or link
    | Cleaning(result: Result)        // unlink the temp
    | SyncingDir
    | Finished(result: Result)

  /** One call in progress. `id` is the inode it opened, `stamp` when it published, `durable` whether
      the directory sync went through. */
  datatype Caller = Caller(
    kind: Kind, path: Name, tmp: Name, bytes: seq<Byte>, mode: nat,
    pc: Pc, id: Option<Id>, stamp: Option<nat>, durable: bool)

  /** How one system call ends. `n` is how much a write manages; `Unsupported` is a file system that
      cannot sync a directory. */
  datatype Outcome = Success(n: nat) | Failure | Unsupported

  datatype State = State(fs: Fs, callers: seq<Caller>, clock: nat)

  const MODE_0600: nat := 384

  function FirstPc(kind: Kind): Pc {
    if kind == WriteAtomic then Stat else Open
  }

  function StagingMode(c: Caller): nat {
    match c.kind
    case WriteAtomic => MODE_0600
    case CreateNew => MODE_0644
    case Copy => c.mode
  }

  function ModeOf(fs: Fs, n: Name): Option<nat> {
    if n in fs.dir && fs.dir[n] in fs.inodes then Some(fs.inodes[fs.dir[n]].file.mode) else None
  }

  function SuccessOf(kind: Kind): Result {
    if kind == CreateNew then Created else Written
  }

  function PublishCall(c: Caller): Call {
    if c.kind == CreateNew then Link(c.tmp, c.path) else Rename(c.tmp, c.path)
  }

  /** The system call the caller makes next, if the coming step makes one. */
  function CallOf(c: Caller, o: Outcome): Option<Call> {
    if o.Failure? then None
    else match c.pc
      case Open => Some(OpenNew(c.tmp, StagingMode(c)))
      case Writing(left) =>
        if c.id.Some? && left != [] then Some(Write(c.id.value, left[..Portion(left, o)])) else None
      case Chmodding => Some(Chmod(c.tmp, c.mode))
      case Syncing => if c.id.Some? then Some(Fsync(c.id.value)) else None
      case Publishing => Some(PublishCall(c))
      case Cleaning(_) => Some(Unlink(c.tmp))
      case SyncingDir => if o.Unsupported? then None else Some(SyncDir)
      case _ => None
  }

  /** At least one byte, at most what is left. */
  function Portion(left: seq<Byte>, o: Outcome): nat {
    var n := if o.Success? && o.n > 0 then o.n else 1;
    Min(n, |left|)
  }

  /** The caller after its step. `done` says that the call it made succeeded. */
  function Advance(s: State, c: Caller, o: Outcome, done: bool): Caller {
    match c.pc
    case Stat =>
      var have := ModeOf(s.fs, c.path);
      c.(mode := if have.Some? then have.value else MODE_0644, pc := Open)
    case Open => if done then c.(pc := Writing(c.bytes), id := Some(s.fs.next)) else c.(pc := Cleaning(Failed))
    case Writing(left) =>
      if left == [] && !o.Failure? then c.(pc := Chmodding)
      else if !done then c.(pc := Cleaning(Failed))
      else c.(pc := Writing(left[Portion(left, o)..]))
    case Chmodding =>
      if done then c.(pc := if c.kind == Copy then Publishing else Syncing) else c.(pc := Cleaning(Failed))
    case Syncing => c.(pc := if done then Publishing else Cleaning(Failed))
    case Publishing =>
      if done then
        c.(stamp := Some(s.clock),
           pc := match c.kind
                 case WriteAtomic => SyncingDir
                 case CreateNew => Cleaning(Created)
                 case Copy => Finished(Written))
      else c.(pc := Cleaning(if c.kind == CreateNew && !o.Failure? && c.path in s.fs.dir then AlreadyThere else Failed))
    case Cleaning(result) => c.(pc := if result == Created then SyncingDir else Finished(result))
    case SyncingDir =>
      if o.Failure? then c.(pc := Finished(Failed))
      else c.(pc := Finished(SuccessOf(c.kind)), durable := done)
    case Finished(_) => c
  }

  /** One step of one caller: the directory after it, and the caller after it. */
  function MoveFs(fs: Fs, c: Caller, o: Outcome): Fs {
    var call := CallOf(c, o);
    if call.Some? && Possible(fs, call.value) then Perform(fs, call.value) else fs
  }

  function MoveCaller(s: State, c: Caller, o: Outcome): Caller {
    var call := CallOf(c, o);
    Advance(s, c, o, call.Some? && Possible(s.fs, call.value))
  }

  /** Caller `i` takes one step. */
  function Step(s: State, i: nat, o: Outcome): State
    requires i < |s.callers|
  {
    var c := s.callers[i];
    State(MoveFs(s.fs, c, o), s.callers[i := MoveCaller(s, c, o)], s.clock + 1)
  }

  datatype Turn = Turn(who: nat, outcome: Outcome)

  /** An interleaving; turns of callers that do not exist are skipped. */
  function Run(s: State, turns: seq<Turn>): State
    decreases |turns|
  {
    if turns == [] then s
    else Run(if turns[0].who < |s.callers| then Step(s, turns[0].who, turns[0].outcome) else s, turns[1..])
  }

  // ---------------------------------------------------------------- the start

  predicate IsTemp(s: State, n: Name) {
    exists i :: 0 <= i < |s.callers| && s.callers[i].tmp == n
  }

  /** Fresh callers with distinct temp names over a directory that is all on disk. */
  ghost predicate Initial(s: State) {
    && s.fs.maybe == map[]
    && (forall n :: n in s.fs.dir ==> s.fs.dir[n] in s.fs.inodes && !IsTemp(s, n))
    && (forall id :: id in s.fs.inodes ==> id < s.fs.next && s.fs.inodes[id].clean)
    && (forall i :: 0 <= i < |s.callers| ==> Fresh(s.callers[i]) && !IsTemp(s, s.callers[i].path))
    && (forall i, j :: 0 <= i < j < |s.callers| ==> s.callers[i].tmp != s.callers[j].tmp)
  }

  predicate Fresh(c: Caller) {
    c.pc == FirstPc(c.kind) && c.id == None && c.stamp == None && !c.durable
    && (c.kind == CreateNew ==> c.mode == MODE_0644)
  }

  // ---------------------------------------------------------------- the invariant

  /** The caller has a temp of its own that nobody else can see under a final name. */
  predicate Staged(c: Caller) {
    c.pc.Writing? || c.pc.Chmodding? || c.pc.Syncing? || c.pc.Publishing?
  }

  predicate StagedOk(fs: Fs, c: Caller) {
    && c.id.Some? && c.stamp == None
    && c.tmp in fs.dir && fs.dir[c.tmp] == c.id.value
    && c.id.value in fs.inodes
    && var node := fs.inodes[c.id.value];
       && (c.pc.Writing? ==> node.file.bytes + c.pc.left == c.bytes)
       && (!c.pc.Writing? ==> node.file.bytes == c.bytes)
       && (c.pc.Syncing? || c.pc.Publishing? ==> node.file.mode == c.mode)
       && (c.pc.Publishing? && c.kind != Copy ==> node.clean)
       && (c.kind == Copy ==> !node.clean && !c.pc.Syncing?)
       && (node.file.mode == StagingMode(c) || node.file.mode == c.mode)
  }

  /** A published inode holds everything its caller meant to write, and is on disk unless it was a copy. */
  predicate PublishedOk(fs: Fs, c: Caller) {
    && c.id.Some? && c.id.value in fs.inodes
    && fs.inodes[c.id.value].file == File(c.bytes, c.mode)
    && (fs.inodes[c.id.value].clean <==> c.kind != Copy)
  }

  predicate CallerOk(fs: Fs, base: Id, c: Caller) {
    && (c.id.Some? ==> base <= c.id.value < fs.next)
    && (c.pc.Stat? || c.pc.Open? ==> c.id == None && c.stamp == None)
    && (Staged(c) ==> StagedOk(fs, c))
    && (c.stamp.Some? ==> PublishedOk(fs, c))
    && (c.pc.SyncingDir? || c.pc == Cleaning(Created) ==> c.stamp.Some? && c.kind != Copy)
    && c.pc != Cleaning(Written)
    && (c.kind == CreateNew ==> c.mode == MODE_0644)
    && (c.pc.Stat? ==> c.kind == WriteAtomic)
    && (c.pc.Finished? && (c.pc.result == Written || c.pc.result == Created) ==> c.stamp.Some?)
    && (c.pc.Finished? ==> c.pc.result == SuccessOf(c.kind) || c.pc.result == Failed || c.pc.result == AlreadyThere)
    && (c.kind == CreateNew && c.stamp.Some? ==>
          c.pc == Cleaning(Created) || c.pc == SyncingDir || c.pc == Finished(Created) || c.pc == Finished(Failed))
    && (c.durable ==> c.stamp.Some? && c.kind != Copy && c.pc.Finished?)
  }

  predicate Made(c: Caller, n: Name, id: Id) {
    c.stamp.Some? && c.path == n && c.id == Some(id)
  }

  /** A possible entry of a final name is what was there at the start, or an inode a caller published there. */
  ghost predicate EntryOk(s: State, init: Fs, n: Name, e: Option<Id>) {
    || e == Entry(init, n)
    || (e.Some? && exists i :: 0 <= i < |s.callers| && Made(s.callers[i], n, e.value))
  }

  ghost predicate Inv(s: State, init: Fs) {
    && (forall id :: id in init.inodes ==> id < init.next && id in s.fs.inodes && s.fs.inodes[id] == init.inodes[id])
    && init.next <= s.fs.next
    && (forall id :: id in s.fs.inodes ==> id < s.fs.next)
    && (forall i :: 0 <= i < |s.callers| ==> CallerOk(s.fs, init.next, s.callers[i]) && !IsTemp(s, s.callers[i].path))
    && Apart(s.callers)
    && (forall n, e :: !IsTemp(s, n) && e in Candidates(s.fs, n) ==> EntryOk(s, init, n, e))
  }

  ghost predicate Apart(cs: seq<Caller>) {
    && (forall i, j :: 0 <= i < j < |cs| ==> cs[i].tmp != cs[j].tmp)
    && (forall i, j :: 0 <= i < j < |cs| && cs[i].id.Some? && cs[j].id.Some? ==> cs[i].id.value != cs[j].id.value)
  }

  lemma InitialInv(s: State)
    requires Initial(s)
    ensures Inv(s, s.fs)
  {
  }

  // ---------------------------------------------------------------- what one step can touch

  /** One entry is set: it alone changes, and may come back as anything it could have been before. */
  lemma EntryIsSet(fs: Fs, n: Name, e: Option<Id>)
    ensures var fs' := SetEntry(fs, n, e);
            && fs'.inodes == fs.inodes && fs'.next == fs.next
            && Entry(fs', n) == e && Candidates(fs', n) == Candidates(fs, n) + {e}
            && forall m :: m != n ==> Entry(fs', m) == Entry(fs, m) && Candidates(fs', m) == Candidates(fs, m)
  {
  }

  /** No entry changes, and a power loss brings back nothing new. */
  ghost predicate NamesStay(fs: Fs, fs': Fs) {
    forall n :: Entry(fs', n) == Entry(fs, n) && Candidates(fs', n) <= Candidates(fs, n)
  }

  lemma ContentCallsKeepNames(fs: Fs, call: Call)
    requires Possible(fs, call) && (call.Write? || call.Chmod? || call.Fsync? || call.SyncDir?)
    ensures NamesStay(fs, Perform(fs, call))
  {
  }

  /** Creating or removing the temp. */
  lemma TempCallsKeepNames(fs: Fs, call: Call, tmp: Name)
    requires Possible(fs, call) && ((call.Unlink? && call.name == tmp) || (call.OpenNew? && call.tmp == tmp))
    ensures forall n :: n != tmp ==>
              Entry(Perform(fs, call), n) == Entry(fs, n) && Candidates(Perform(fs, call), n) == Candidates(fs, n)
  {
    EntryIsSet(fs, tmp, None);
    EntryIsSet(fs, tmp, Some(fs.next));
  }

  /** Publication: the final name gains the temp's inode. */
  lemma PublicationSetsName(fs: Fs, c: Caller)
    requires Possible(fs, PublishCall(c)) && c.tmp != c.path
    ensures var fs' := Perform(fs, PublishCall(c)); var id := Entry(fs, c.tmp);
            && (forall n :: n != c.tmp && n != c.path ==>
                  Entry(fs', n) == Entry(fs, n) && Candidates(fs', n) == Candidates(fs, n))
            && Entry(fs', c.path) == id && Candidates(fs', c.path) == Candidates(fs, c.path) + {id}
  {
    hide SetEntry, Candidates;
    var id := Entry(fs, c.tmp);
    EntryIsSet(fs, c.path, id);
    EntryIsSet(SetEntry(fs, c.path, id), c.tmp, None);
  }

  /** Directory entries may change only for the caller's own temp and path; a final name can gain only
      the inode the caller publishes. */
  lemma MoveTouchesNames(s: State, base: Id, c: Caller, o: Outcome)
    requires CallerOk(s.fs, base, c) && c.tmp != c.path
    ensures var c', fs, fs' := MoveCaller(s, c, o), s.fs, MoveFs(s.fs, c, o);
            && (forall n :: n != c.tmp && n != c.path ==> Entry(fs', n) == Entry(fs, n))
            && (forall n :: n != c.tmp && n != c.path ==> Candidates(fs', n) <= Candidates(fs, n))
            && (if c.stamp == None && c'.stamp.Some?
                then && c'.id.Some? && Candidates(fs', c.path) <= Candidates(fs, c.path) + {c'.id}
                     && Entry(fs', c.path) == c'.id
                else Candidates(fs', c.path) <= Candidates(fs, c.path) && Entry(fs', c.path) == Entry(fs, c.path))
  {
    hide Perform, Candidates, SetEntry;
    var call := CallOf(c, o);
    if call.Some? && Possible(s.fs, call.value) {
      if c.pc.Publishing? {
        PublicationSetsName(s.fs, c);
      } else if c.pc.Open? || c.pc.Cleaning? {
        TempCallsKeepNames(s.fs, call.value, c.tmp);
      } else {
        ContentCallsKeepNames(s.fs, call.value);
      }
    }
  }

  /** Inodes: at most the caller's own unpublished one changes, or a new one appears. */
  lemma MoveTouchesInodes(s: State, base: Id, c: Caller, o: Outcome)
    requires CallerOk(s.fs, base, c) && forall id :: id in s.fs.inodes ==> id < s.fs.next
    ensures var fs, fs' := s.fs, MoveFs(s.fs, c, o);
            && fs.next <= fs'.next
            && (forall id :: id in fs.inodes ==>
                  id in fs'.inodes && (c.id != Some(id) || c.stamp.Some? ==> fs'.inodes[id] == fs.inodes[id]))
            && (forall id :: id in fs'.inodes ==> id < fs'.next)
  {
    hide SetEntry, Candidates, PublishedOk;
    var call := CallOf(c, o);
    if call.Some? && Possible(s.fs, call.value) {
      EntryCallsKeepInodes(s.fs, call.value);
    }
  }

  /** Calls that change only entries. */
  lemma EntryCallsKeepInodes(fs: Fs, call: Call)
    requires Possible(fs, call)
    ensures call.Rename? || call.Link? || call.Unlink? || call.SyncDir? ==>
              Perform(fs, call).inodes == fs.inodes && Perform(fs, call).next == fs.next
    ensures call.OpenNew? ==>
              && Perform(fs, call).inodes == fs.inodes[fs.next := Inode(File([], call.mode), false)]
              && Perform(fs, call).next == fs.next + 1
  {
  }

  /** Nothing a caller depends on changed. */
  predicate Untouched(fs: Fs, fs': Fs, c: Caller) {
    && fs.next <= fs'.next
    && (c.id.Some? && c.id.value in fs.inodes ==>
          c.id.value in fs'.inodes && fs'.inodes[c.id.value] == fs.inodes[c.id.value])
    && Entry(fs', c.tmp) == Entry(fs, c.tmp)
  }

  lemma UntouchedOk(fs: Fs, fs': Fs, base: Id, c: Caller)
    requires CallerOk(fs, base, c) && Untouched(fs, fs', c)
    ensures CallerOk(fs', base, c)
  {
  }

  lemma WriteSplits(written: seq<Byte>, left: seq<Byte>, k: nat)
    requires k <= |left|
    ensures (written + left[..k]) + left[k..] == written + left
    ensures left == [] ==> written + left == written
  {
    assert left == left[..k] + left[k..];
  }

  /** A write adds the next bytes to the temp and nothing else. */
  lemma WriteAdds(fs: Fs, base: Id, c: Caller, k: nat)
    requires CallerOk(fs, base, c) && c.pc.Writing? && k <= |c.pc.left|
    ensures var c' := c.(pc := Writing(c.pc.left[k..]));
            CallerOk(Perform(fs, Write(c.id.value, c.pc.left[..k])), base, c')
  {
    hide SetEntry, Candidates;
    WriteSplits(fs.inodes[c.id.value].file.bytes, c.pc.left, k);
  }

  lemma WriterOk(s: State, base: Id, c: Caller, o: Outcome)
    requires CallerOk(s.fs, base, c) && c.pc.Writing?
    ensures CallerOk(MoveFs(s.fs, c, o), base, MoveCaller(s, c, o))
  {
    hide Perform;
    if o.Failure? {
      assert MoveFs(s.fs, c, o) == s.fs && MoveCaller(s, c, o) == c.(pc := Cleaning(Failed));
    } else if c.pc.left == [] {
      WriteSplits(s.fs.inodes[c.id.value].file.bytes, c.pc.left, 0);
      assert MoveFs(s.fs, c, o) == s.fs && MoveCaller(s, c, o) == c.(pc := Chmodding);
    } else {
      WriteAdds(s.fs, base, c, Portion(c.pc.left, o));
    }
  }

  lemma PublisherOk(s: State, base: Id, c: Caller, o: Outcome)
    requires CallerOk(s.fs, base, c) && c.pc.Publishing? && c.tmp != c.path
    ensures CallerOk(MoveFs(s.fs, c, o), base, MoveCaller(s, c, o))
  {
  }

  /** Creating the temp. */
  lemma OpenerOk(s: State, base: Id, c: Caller, o: Outcome)
    requires CallerOk(s.fs, base, c) && (c.pc.Stat? || c.pc.Open?) && base <= s.fs.next
    ensures CallerOk(MoveFs(s.fs, c, o), base, MoveCaller(s, c, o))
  {
    hide Candidates, PublishedOk;
  }

  /** Mode and content of the temp. */
  lemma StagerOk(s: State, base: Id, c: Caller, o: Outcome)
    requires CallerOk(s.fs, base, c) && (c.pc.Chmodding? || c.pc.Syncing?)
    ensures CallerOk(MoveFs(s.fs, c, o), base, MoveCaller(s, c, o))
  {
    hide SetEntry, Candidates, PublishedOk;
  }

  /** Behind the publication, or behind a failure. */
  lemma CloserOk(s: State, base: Id, c: Caller, o: Outcome)
    requires CallerOk(s.fs, base, c) && (c.pc.Cleaning? || c.pc.SyncingDir? || c.pc.Finished?)
    ensures CallerOk(MoveFs(s.fs, c, o), base, MoveCaller(s, c, o))
  {
    hide Candidates, StagedOk;
  }

  lemma IdentityStays(s: State, base: Id, c: Caller, o: Outcome)
    requires CallerOk(s.fs, base, c)
    ensures var c' := MoveCaller(s, c, o);
            && c'.kind == c.kind && c'.path == c.path && c'.tmp == c.tmp && c'.bytes == c.bytes
            && (c.id.Some? ==> c'.id == c.id) && (c.stamp.Some? ==> c'.stamp == c.stamp)
            && (c.id == None && c'.id.Some? ==> c'.id == Some(s.fs.next))
  {
  }

  /** The caller that moves keeps its own part of the invariant. */
  lemma MoverOk(s: State, init: Fs, i: nat, o: Outcome)
    requires Inv(s, init) && i < |s.callers|
    ensures var c, c' := s.callers[i], Step(s, i, o).callers[i];
            && CallerOk(Step(s, i, o).fs, init.next, c')
            && c'.kind == c.kind && c'.path == c.path && c'.tmp == c.tmp && c'.bytes == c.bytes
            && (c.id.Some? ==> c'.id == c.id) && (c.stamp.Some? ==> c'.stamp == c.stamp)
            && (c.id == None && c'.id.Some? ==> c'.id == Some(s.fs.next))
  {
    hide MoveFs, MoveCaller, StagedOk, PublishedOk;
    var c := s.callers[i];
    assert CallerOk(s.fs, init.next, c) && c.tmp != c.path;
    IdentityStays(s, init.next, c, o);
    if c.pc.Writing? {
      WriterOk(s, init.next, c, o);
    } else if c.pc.Publishing? {
      PublisherOk(s, init.next, c, o);
    } else if c.pc.Stat? || c.pc.Open? {
      OpenerOk(s, init.next, c, o);
    } else if c.pc.Chmodding? || c.pc.Syncing? {
      StagerOk(s, init.next, c, o);
    } else {
      CloserOk(s, init.next, c, o);
    }
  }

  /** What caller `i`'s step leaves of the others, with the step itself forgotten. */
  lemma StepFrame(s: State, init: Fs, i: nat, o: Outcome)
    requires Inv(s, init) && i < |s.callers|
    ensures var s', c, c' := Step(s, i, o), s.callers[i], Step(s, i, o).callers[i];
            && s'.callers == s.callers[i := c']
            && (forall j :: 0 <= j < |s.callers| && j != i ==> Untouched(s.fs, s'.fs, s.callers[j]))
            && (forall id :: id in init.inodes ==> id in s'.fs.inodes && s'.fs.inodes[id] == init.inodes[id])
            && (forall n, e :: !IsTemp(s, n) && e in Candidates(s'.fs, n) && e !in Candidates(s.fs, n) ==>
                  e.Some? && Made(c', n, e.value))
  {
    hide MoveFs, MoveCaller, StagedOk, PublishedOk;
    var c := s.callers[i];
    assert CallerOk(s.fs, init.next, c) && c.tmp != c.path;
    MoveTouchesNames(s, init.next, c, o);
    MoveTouchesInodes(s, init.next, c, o);
    MoverOk(s, init, i, o);
    forall j | 0 <= j < |s.callers| && j != i
      ensures Untouched(s.fs, MoveFs(s.fs, c, o), s.callers[j])
    {
      assert s.callers[j].tmp != c.tmp;
    }
  }

  lemma StepKeeps(s: State, init: Fs, i: nat, o: Outcome)
    requires Inv(s, init) && i < |s.callers|
    ensures Inv(Step(s, i, o), init)
  {
    hide MoveFs, MoveCaller, StagedOk, PublishedOk, Candidates, CallerOk, Untouched;
    StepFrame(s, init, i, o);
    MoverOk(s, init, i, o);
    var s' := Step(s, i, o);
    TempsStay(s, i, s'.callers[i], s'.callers);
    NextGrows(s, init, i, o);
    forall j | 0 <= j < |s'.callers|
      ensures CallerOk(s'.fs, init.next, s'.callers[j]) && !IsTemp(s', s'.callers[j].path)
    {
      if j != i {
        UntouchedOk(s.fs, s'.fs, init.next, s.callers[j]);
      }
    }
    forall n, e | !IsTemp(s', n) && e in Candidates(s'.fs, n)
      ensures EntryOk(s', init, n, e)
    {
      EntryStays(s, init, i, o, n, e);
    }
  }

  lemma NextGrows(s: State, init: Fs, i: nat, o: Outcome)
    requires Inv(s, init) && i < |s.callers|
    ensures s.fs.next <= Step(s, i, o).fs.next
    ensures forall id :: id in Step(s, i, o).fs.inodes ==> id < Step(s, i, o).fs.next
    ensures Apart(Step(s, i, o).callers)
  {
    hide MoveFs, MoveCaller, StagedOk, PublishedOk, Candidates;
    var c := s.callers[i];
    assert CallerOk(s.fs, init.next, c);
    MoveTouchesInodes(s, init.next, c, o);
    MoverOk(s, init, i, o);
  }

  lemma EntryStays(s: State, init: Fs, i: nat, o: Outcome, n: Name, e: Option<Id>)
    requires Inv(s, init) && i < |s.callers|
    requires !IsTemp(s, n) && e in Candidates(Step(s, i, o).fs, n)
    ensures EntryOk(Step(s, i, o), init, n, e)
  {
    hide MoveFs, MoveCaller, StagedOk, PublishedOk, Candidates, CallerOk, Untouched;
    StepFrame(s, init, i, o);
    MoverOk(s, init, i, o);
    var s' := Step(s, i, o);
    if e in Candidates(s.fs, n) {
      assert EntryOk(s, init, n, e);
      if e != Entry(init, n) {
        var j :| 0 <= j < |s.callers| && Made(s.callers[j], n, e.value);
        assert Made(s'.callers[j], n, e.value);
      }
    } else {
      assert Made(s'.callers[i], n, e.value);
    }
  }

  lemma TempsStay(s: State, i: nat, c': Caller, cs: seq<Caller>)
    requires i < |s.callers| && cs == s.callers[i := c'] && c'.tmp == s.callers[i].tmp
    ensures forall n, s': State :: s'.callers == cs ==> (IsTemp(s', n) <==> IsTemp(s, n))
  {
    forall n, s': State | s'.callers == cs
      ensures IsTemp(s', n) <==> IsTemp(s, n)
    {
      if IsTemp(s, n) {
        var j :| 0 <= j < |s.callers| && s.callers[j].tmp == n;
        assert cs[j].tmp == n;
      }
      if IsTemp(s', n) {
        var j :| 0 <= j < |cs| && cs[j].tmp == n;
        assert s.callers[j].tmp == n;
      }
    }
  }

  lemma {:induction false} RunKeeps(s: State, init: Fs, turns: seq<Turn>)
    requires Inv(s, init)
    ensures Inv(Run(s, turns), init)
    decreases |turns|
  {
    hide Inv, Step;
    if turns != [] {
      if turns[0].who < |s.callers| {
        StepKeeps(s, init, turns[0].who, turns[0].outcome);
        RunKeeps(Step(s, turns[0].who, turns[0].outcome), init, turns[1..]);
      } else {
        RunKeeps(s, init, turns[1..]);
      }
    }
  }
}
