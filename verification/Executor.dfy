// executor.rs: the three publication routines as they are written, system call by system call. Each
// is proved to be a run of the callers of `Publish`, so every crash point inside it is covered there.

module Executor {
  import opened Shared
  import opened Bytes
  import opened DurableFs
  import opened OnePublication
  import opened Publish
  import opened PublishClaims

  function NewCaller(kind: Kind, path: Name, tmp: Name, bytes: seq<Byte>, mode: nat): Caller {
    Caller(kind, path, tmp, bytes, mode, FirstPc(kind), None, None, false)
  }

  /** How the system calls of one routine turn out. */
  datatype Outcomes = Outcomes(
    open: Outcome, writes: seq<Outcome>, chmod: Outcome, fsync: Outcome, publish: Outcome, unlink: Outcome,
    syncDir: Outcome)

  /** Does write_all get everything out? A write manages at least one byte unless it fails. */
  predicate WritesOk(left: seq<Byte>, outcomes: seq<Outcome>)
    decreases |left|
  {
    || left == [] || outcomes == []
    || (!outcomes[0].Failure? && WritesOk(left[Portion(left, outcomes[0])..], outcomes[1..]))
  }

  lemma WritesStep(left: seq<Byte>, outcomes: seq<Outcome>)
    requires left != []
    ensures var o := if outcomes != [] then outcomes[0] else Success(|left|);
            var rest := if outcomes != [] then outcomes[1..] else [];
            WritesOk(left, outcomes) <==> !o.Failure? && WritesOk(left[Portion(left, o)..], rest)
  {
  }

  lemma WritesNothing(outcomes: seq<Outcome>)
    ensures WritesOk([], outcomes)
  {
  }

  /** How much a file takes in these many writes, if there is that much to write. */
  function Accepted(outcomes: seq<Outcome>): nat {
    if outcomes == [] then 0
    else (if outcomes[0].Success? && outcomes[0].n > 0 then outcomes[0].n else 1) + Accepted(outcomes[1..])
  }

  /** write_all fails exactly when some write fails before everything is out. */
  lemma {:induction false} WritesFailWhen(left: seq<Byte>, outcomes: seq<Outcome>)
    ensures WritesOk(left, outcomes)
            <==> forall k :: 0 <= k < |outcomes| && outcomes[k].Failure? ==> Accepted(outcomes[..k]) >= |left|
    decreases |left|
  {
    if left != [] && outcomes != [] {
      var tail := outcomes[1..];
      if outcomes[0].Failure? {
        assert outcomes[..0] == [];
      } else {
        WritesFailWhen(left[Portion(left, outcomes[0])..], tail);
        forall k | 0 <= k < |outcomes| && outcomes[k].Failure?
          ensures outcomes[k] == tail[k - 1]
          ensures Accepted(outcomes[..k]) == Accepted([outcomes[0]]) + Accepted(tail[..k - 1])
        {
          assert outcomes[..k][1..] == tail[..k - 1];
        }
        forall k | 0 <= k < |tail| && tail[k].Failure?
          ensures outcomes[k + 1] == tail[k]
          ensures Accepted(outcomes[..k + 1]) == Accepted([outcomes[0]]) + Accepted(tail[..k])
        {
          assert outcomes[..k + 1][1..] == tail[..k];
        }
      }
    }
  }

  /** Whether every call up to the rename or link succeeds. */
  predicate StagingOk(before: Fs, tmp: Name, bytes: seq<Byte>, o: Outcomes) {
    tmp !in before.dir && !o.open.Failure? && WritesOk(bytes, o.writes) && !o.chmod.Failure?
  }

  /** A directory whose entries all name inodes. */
  ghost predicate Sound(fs: Fs) {
    && (forall n :: n in fs.dir ==> fs.dir[n] in fs.inodes)
    && (forall id :: id in fs.inodes ==> id < fs.next)
  }

  /** As before, but for the new inode `node` under the name `tmp`. */
  ghost predicate Staging(before: Fs, fs: Fs, tmp: Name, node: Inode) {
    && fs.dir == before.dir[tmp := before.next]
    && fs.inodes == before.inodes[before.next := node]
  }

  lemma OpenStages(fs: Fs, tmp: Name, mode: nat)
    ensures Possible(fs, OpenNew(tmp, mode)) <==> tmp !in fs.dir
    ensures tmp !in fs.dir ==>
              Staging(fs, Perform(fs, OpenNew(tmp, mode)), tmp, Inode(File([], mode), false))
  {
  }

  lemma ContentCallsStage(before: Fs, fs: Fs, tmp: Name, node: Inode, data: seq<Byte>, mode: nat)
    requires Staging(before, fs, tmp, node)
    ensures Possible(fs, Write(before.next, data)) && Possible(fs, Chmod(tmp, mode)) && Possible(fs, Fsync(before.next))
    ensures Staging(before, Perform(fs, Write(before.next, data)), tmp,
                    Inode(node.file.(bytes := node.file.bytes + data), false))
    ensures Staging(before, Perform(fs, Chmod(tmp, mode)), tmp, Inode(node.file.(mode := mode), false))
    ensures Staging(before, Perform(fs, Fsync(before.next)), tmp, node.(clean := true))
  {
  }

  predicate Names(fs: Fs, path: Name, node: Inode) {
    path in fs.dir && fs.dir[path] in fs.inodes && fs.inodes[fs.dir[path]] == node
  }

  /** Whatever happens to the machine now, `path` is this file. */
  ghost predicate OnDisk(fs: Fs, path: Name, file: File) {
    forall found :: Recoverable(fs, path, found) <==> found == Some(file)
  }

  lemma SyncedIsOnDisk(fs: Fs, path: Name, file: File)
    requires fs.maybe == map[] && Names(fs, path, Inode(file, true))
    ensures OnDisk(fs, path, file)
  {
    assert Candidates(fs, path) == {Some(fs.dir[path])};
    forall found ensures Recoverable(fs, path, found) <==> found == Some(file) {
      assert Reads(fs, Some(fs.dir[path]), found) <==> found == Some(file);
      assert Some(fs.dir[path]) in Candidates(fs, path);
    }
  }

  /** All that has changed since `before` is that inode `id` holds `done` more bytes. */
  ghost predicate Wrote(before: Fs, fs: Fs, id: Id, done: seq<Byte>) {
    && id in before.inodes && id in fs.inodes
    && fs == before.(inodes := before.inodes[id := fs.inodes[id]])
    && fs.inodes[id].file == File(before.inodes[id].file.bytes + done, before.inodes[id].file.mode)
  }

  lemma WriteExtends(before: Fs, fs: Fs, id: Id, done: seq<Byte>, data: seq<Byte>)
    requires Wrote(before, fs, id, done)
    ensures Possible(fs, Write(id, data)) && Wrote(before, Perform(fs, Write(id, data)), id, done + data)
  {
    Associative(before.inodes[id].file.bytes, done, data);
  }

  lemma WroteNothing(fs: Fs, id: Id)
    requires id in fs.inodes
    ensures Wrote(fs, fs, id, [])
  {
    assert fs.inodes[id].file.bytes + [] == fs.inodes[id].file.bytes;
    assert fs.inodes[id := fs.inodes[id]] == fs.inodes;
  }

  lemma WrittenExists(before: Fs, fs: Fs, id: Id, done: seq<Byte>)
    requires Wrote(before, fs, id, done)
    ensures id in fs.inodes
  {
  }

  /** Changing the temp's entry is not seen; giving `path` an entry shows that inode there. */
  lemma EntryShows(fs: Fs, tmp: Name, path: Name, e: Option<Id>)
    requires path != tmp && (e.Some? ==> e.value in fs.inodes)
    ensures Seen(SetEntry(fs, tmp, e), tmp) == Seen(fs, tmp)
    ensures e.Some? ==> Seen(SetEntry(fs, path, e), tmp) == Seen(fs, tmp)[path := fs.inodes[e.value].file]
  {
    var own := SetEntry(fs, tmp, e);
    assert Seen(own, tmp).Keys == Seen(fs, tmp).Keys;
    if e.Some? {
      var shown, expected := Seen(SetEntry(fs, path, e), tmp), Seen(fs, tmp)[path := fs.inodes[e.value].file];
      assert shown.Keys == expected.Keys;
    }
  }

  lemma StagingUnseen(before: Fs, fs: Fs, tmp: Name, node: Inode)
    requires Sound(before) && Staging(before, fs, tmp, node)
    ensures Seen(fs, tmp) == Seen(before, tmp)
  {
    assert Seen(fs, tmp).Keys == Seen(before, tmp).Keys;
  }

  /** A rename shows the staged file under `path`, everything else as before, and takes the temp away. */
  lemma RenameShows(before: Fs, fs: Fs, path: Name, tmp: Name, node: Inode)
    requires Sound(before) && Staging(before, fs, tmp, node) && path != tmp
    ensures Possible(fs, Rename(tmp, path)) && tmp !in Perform(fs, Rename(tmp, path)).dir
    ensures Seen(Perform(fs, Rename(tmp, path)), tmp) == Seen(before, tmp)[path := node.file]
    ensures Names(Perform(fs, Rename(tmp, path)), path, node)
  {
    hide Seen;
    StagingUnseen(before, fs, tmp, node);
    var e := Some(fs.dir[tmp]);
    EntryShows(fs, tmp, path, e);
    EntryShows(SetEntry(fs, path, e), tmp, path, None);
  }

  /** A link does the same, unless `path` is taken, and leaves the temp. */
  lemma LinkShows(before: Fs, fs: Fs, path: Name, tmp: Name, node: Inode)
    requires Sound(before) && Staging(before, fs, tmp, node) && path != tmp
    ensures Possible(fs, Link(tmp, path)) <==> path !in before.dir
    ensures path !in before.dir ==>
              && Seen(Perform(fs, Link(tmp, path)), tmp) == Seen(before, tmp)[path := node.file]
              && Names(Perform(fs, Link(tmp, path)), path, node)
  {
    hide Seen;
    StagingUnseen(before, fs, tmp, node);
    EntryShows(fs, tmp, path, Some(fs.dir[tmp]));
  }

  lemma UnlinkShows(fs: Fs, tmp: Name)
    requires tmp in fs.dir
    ensures tmp !in Perform(fs, Unlink(tmp)).dir && Seen(Perform(fs, Unlink(tmp)), tmp) == Seen(fs, tmp)
    ensures forall path, node :: path != tmp && Names(fs, path, node) ==> Names(Perform(fs, Unlink(tmp)), path, node)
  {
    assert Seen(Perform(fs, Unlink(tmp)), tmp).Keys == Seen(fs, tmp).Keys;
  }

  lemma {:induction false} RunSnoc(s: State, turns: seq<Turn>, t: Turn)
    requires t.who < |Run(s, turns).callers|
    ensures Run(s, turns + [t]) == Step(Run(s, turns), t.who, t.outcome)
    decreases |turns|
  {
    hide Step;
    if turns == [] {
      assert turns + [t] == [t] && [t][1..] == [];
    } else {
      assert (turns + [t])[1..] == turns[1..] + [t];
      RunSnoc(if turns[0].who < |s.callers| then Step(s, turns[0].who, turns[0].outcome) else s, turns[1..], t);
    }
  }

  /** The directory a routine works in. The ghost fields record the run of `Publish` it amounts to. */
  class Directory {
    var fs: Fs
    ghost var caller: Caller
    ghost var clock: nat
    ghost var start: State
    ghost var turns: seq<Turn>

    ghost predicate Valid()
      reads this
    {
      Run(start, turns) == State(fs, [caller], clock)
    }

    ghost function Now(): State
      reads this
    {
      State(fs, [caller], clock)
    }

    constructor (fs: Fs, ghost caller: Caller)
      ensures Valid() && this.fs == fs && this.caller == caller && turns == []
      ensures start == State(fs, [caller], 0)
    {
      this.fs := fs;
      this.caller, clock, turns := caller, 0, [];
      start := State(fs, [caller], 0);
    }

    /** One system call; it must be the one the caller is due to make. */
    method Do(call: Call, o: Outcome) returns (ok: bool)
      requires Valid() && CallOf(caller, o) == (if o.Failure? then None else Some(call))
      modifies this
      ensures Valid() && start == old(start) && old(turns) <= turns
      ensures ok == (!o.Failure? && Possible(old(fs), call))
      ensures fs == if ok then Perform(old(fs), call) else old(fs)
      ensures caller == Advance(old(Now()), old(caller), o, ok)
    {
      hide Perform, Possible, Advance;
      ok := false;
      if !o.Failure? && Possible(fs, call) {
        ok := true;
      }
      ghost var s, c := Now(), caller;
      RunSnoc(start, turns, Turn(0, o));
      caller, clock, turns := Advance(s, c, o, ok), clock + 1, turns + [Turn(0, o)];
      if ok {
        fs := Perform(fs, call);
      }
      assert [c][0 := caller] == [caller];
    }

    /** A step of the caller that makes no system call. */
    ghost method Note(o: Outcome)
      requires Valid() && CallOf(caller, o) == None
      modifies `caller, `clock, `turns
      ensures Valid() && start == old(start) && old(turns) <= turns
      ensures caller == Advance(old(Now()), old(caller), o, false)
    {
      hide Advance;
      var s, c := Now(), caller;
      RunSnoc(start, turns, Turn(0, o));
      caller, clock, turns := Advance(s, c, o, false), clock + 1, turns + [Turn(0, o)];
      assert [c][0 := caller] == [caller];
    }

    /** One write of what is left. */
    method WriteOnce(id: Id, left: seq<Byte>, o: Outcome) returns (ok: bool)
      requires Valid() && caller.pc == Writing(left) && caller.id == Some(id) && id in fs.inodes && left != []
      modifies this
      ensures Valid() && start == old(start)
      ensures ok == !o.Failure?
      ensures caller == old(caller).(pc := if ok then Writing(left[Portion(left, o)..]) else Cleaning(Failed))
      ensures fs == if ok then Perform(old(fs), Write(id, left[..Portion(left, o)])) else old(fs)
    {
      hide Perform, Run;
      ok := Do(Write(id, left[..Portion(left, o)]), o);
    }

    /** write_all: short writes are retried until nothing is left or one fails. */
    method WriteAll(id: Id, bytes: seq<Byte>, outcomes: seq<Outcome>) returns (ok: bool)
      requires Valid() && caller.pc == Writing(bytes) && caller.id == Some(id) && id in fs.inodes
      modifies this
      ensures Valid() && start == old(start)
      ensures caller == old(caller).(pc := if ok then Chmodding else Cleaning(Failed))
      ensures ok == WritesOk(bytes, outcomes)
      ensures exists done :: done <= bytes && (ok ==> done == bytes) && Wrote(old(fs), fs, id, done)
    {
      hide Perform, Possible, Run, Wrote, WritesOk;
      var left, todo := bytes, outcomes;
      ghost var before, done := fs, [];
      WroteNothing(fs, id);
      while left != []
        invariant Valid() && start == old(start)
        invariant caller == old(caller).(pc := Writing(left))
        invariant WritesOk(left, todo) == WritesOk(bytes, outcomes)
        invariant done + left == bytes && Wrote(before, fs, id, done)
        decreases |left|
      {
        WrittenExists(before, fs, id, done);
        WritesStep(left, todo);
        var o := if todo != [] then todo[0] else Success(|left|);
        var k := Portion(left, o);
        WriteExtends(before, fs, id, done, left[..k]);
        ok := WriteOnce(id, left, o);
        if !ok {
          return;
        }
        done := done + left[..k];
        left, todo := left[k..], if todo != [] then todo[1..] else [];
      }
      WritesNothing(todo);
      Note(Success(0));
      ok := true;
    }

    /** Remove the temp; whether that works does not change the answer. */
    method RemoveTemp(tmp: Name, o: Outcome)
      requires Valid() && caller.pc.Cleaning? && caller.tmp == tmp
      modifies this
      ensures Valid() && start == old(start)
      ensures caller == old(caller).(pc := if old(caller).pc.result == Created then SyncingDir
                                           else Finished(old(caller).pc.result))
      ensures Seen(fs, tmp) == Seen(old(fs), tmp) && (!o.Failure? ==> tmp !in fs.dir)
      ensures forall path, node :: path != tmp && Names(old(fs), path, node) ==> Names(fs, path, node)
    {
      hide Perform, Seen, Run, Names;
      ghost var before := fs;
      var ok := Do(Unlink(tmp), o);
      if ok {
        UnlinkShows(before, tmp);
      }
    }

    /** sync_parent_dir: a file system that cannot sync directories is not an error. */
    method SyncParentDir(o: Outcome) returns (ok: bool)
      requires Valid() && caller.pc == SyncingDir
      modifies this
      ensures Valid() && start == old(start)
      ensures ok == !o.Failure?
      ensures caller.pc == Finished(if ok then SuccessOf(old(caller).kind) else Failed)
      ensures fs == old(fs).(maybe := if o.Success? then map[] else old(fs).maybe)
      ensures forall tmp :: Seen(fs, tmp) == Seen(old(fs), tmp)
    {
      if o.Unsupported? {
        Note(o);
        return true;
      }
      ok := Do(SyncDir, o);
    }

    /** What all three begin with: open the temp, write everything, set the mode. */
    method Stage(tmp: Name, openMode: nat, bytes: seq<Byte>, mode: nat, o: Outcomes) returns (ok: bool)
      requires Valid() && Sound(fs) && caller.pc == Open && caller.tmp == tmp
      requires caller.bytes == bytes && caller.mode == mode && StagingMode(caller) == openMode
      modifies this
      ensures Valid() && start == old(start)
      ensures caller == old(caller).(pc := caller.pc, id := caller.id)
      ensures caller.pc == if !ok then Cleaning(Failed) else if caller.kind == Copy then Publishing else Syncing
      ensures ok == StagingOk(old(fs), tmp, bytes, o)
      ensures ok ==> caller.id == Some(old(fs).next)
      ensures ok ==> Staging(old(fs), fs, tmp, Inode(File(bytes, mode), false))
      ensures !ok ==> Seen(fs, tmp) == Seen(old(fs), tmp)
    {
      hide Perform, Possible, Run, Seen;
      ghost var before := fs;
      var id := fs.next;
      OpenStages(fs, tmp, openMode);
      ok := Do(OpenNew(tmp, openMode), o.open);
      if !ok {
        return;
      }
      ok := WriteAll(id, bytes, o.writes);
      StagingUnseen(before, fs, tmp, fs.inodes[id]);
      if !ok {
        return;
      }
      assert [] + bytes == bytes;
      ContentCallsStage(before, fs, tmp, fs.inodes[id], [], mode);
      ok := Do(Chmod(tmp, mode), o.chmod);
    }

    /** The same, and the fsync that the two durable routines go on with. */
    method StageDurably(tmp: Name, openMode: nat, bytes: seq<Byte>, mode: nat, o: Outcomes) returns (ok: bool)
      requires Valid() && Sound(fs) && caller.pc == Open && caller.tmp == tmp && caller.kind != Copy
      requires caller.bytes == bytes && caller.mode == mode && StagingMode(caller) == openMode
      modifies this
      ensures Valid() && start == old(start)
      ensures caller == old(caller).(pc := caller.pc, id := caller.id)
      ensures caller.pc == if ok then Publishing else Cleaning(Failed)
      ensures ok == (StagingOk(old(fs), tmp, bytes, o) && !o.fsync.Failure?)
      ensures ok ==> Staging(old(fs), fs, tmp, Inode(File(bytes, mode), true))
      ensures !ok ==> Seen(fs, tmp) == Seen(old(fs), tmp)
    {
      hide Perform, Possible, Run, Seen, StagingOk;
      ghost var before := fs;
      var id := fs.next;
      ok := Stage(tmp, openMode, bytes, mode, o);
      if ok {
        ContentCallsStage(before, fs, tmp, fs.inodes[before.next], [], 0);
        ok := Do(Fsync(id), o.fsync);
        StagingUnseen(before, fs, tmp, fs.inodes[before.next]);
      }
    }

    /** write_atomic_real. The answer is Ok exactly when every call up to the rename works and the directory
        sync does not fail; the file is in place, whole, exactly when the rename was reached and worked. */
    method WriteAtomicReal(path: Name, tmp: Name, bytes: seq<Byte>, o: Outcomes) returns (result: Result)
      requires Valid() && turns == [] && caller == NewCaller(WriteAtomic, path, tmp, bytes, 0)
      requires Sound(fs) && path != tmp
      modifies this
      ensures Valid() && start == old(start)
      ensures caller.pc == Finished(result)
      ensures result == Written || result == Failed
      ensures var published := StagingOk(old(fs), tmp, bytes, o) && !o.fsync.Failure? && !o.publish.Failure?;
              && (result == Written <==> published && !o.syncDir.Failure?)
              && Seen(fs, tmp) == (if published then Seen(old(fs), tmp)[path := File(bytes, ModeOr0644(old(fs), path))]
                                   else Seen(old(fs), tmp))
              && (published || !o.unlink.Failure? ==> tmp !in fs.dir)
              && (published && o.syncDir.Success? ==> OnDisk(fs, path, File(bytes, ModeOr0644(old(fs), path))))
    {
      hide Perform, Possible, Run, Seen, OnDisk, StagingOk;
      ghost var before := fs;
      var have := ModeOf(fs, path);
      var mode := if have.Some? then have.value else MODE_0644;
      Note(Success(0));
      var ok := StageDurably(tmp, MODE_0600, bytes, mode, o);
      if ok {
        StagingUnseen(before, fs, tmp, fs.inodes[before.next]);
        RenameShows(before, fs, path, tmp, fs.inodes[before.next]);
        ok := Do(Rename(tmp, path), o.publish);
      }
      if !ok {
        RemoveTemp(tmp, o.unlink);
        return Failed;
      }
      ok := SyncParentDir(o.syncDir);
      if o.syncDir.Success? {
        SyncedIsOnDisk(fs, path, File(bytes, mode));
      }
      result := if ok then Written else Failed;
    }

    /** create_new_real. It answers Ok(true) exactly when every call succeeds and nothing has the name, Ok(false)
        exactly when the temp is complete and the name is taken; the file is there, whole, exactly when it was
        linked, even if the directory sync then fails. */
    method CreateNewReal(path: Name, tmp: Name, bytes: seq<Byte>, o: Outcomes) returns (result: Result)
      requires Valid() && turns == [] && caller == NewCaller(CreateNew, path, tmp, bytes, MODE_0644)
      requires Sound(fs) && path != tmp
      modifies this
      ensures Valid() && start == old(start)
      ensures caller.pc == Finished(result)
      ensures result == Created || result == AlreadyThere || result == Failed
      ensures var staged := StagingOk(old(fs), tmp, bytes, o) && !o.fsync.Failure?;
              var published := staged && !o.publish.Failure? && path !in old(fs).dir;
              && (result == Created <==> published && !o.syncDir.Failure?)
              && (result == AlreadyThere <==> staged && !o.publish.Failure? && path in old(fs).dir)
              && Seen(fs, tmp) == (if published then Seen(old(fs), tmp)[path := File(bytes, MODE_0644)]
                                   else Seen(old(fs), tmp))
              && (!o.unlink.Failure? ==> tmp !in fs.dir)
              && (published && o.syncDir.Success? ==> OnDisk(fs, path, File(bytes, MODE_0644)))
    {
      hide Perform, Possible, Run, Seen, OnDisk, StagingOk;
      ghost var before := fs;
      var ok := StageDurably(tmp, MODE_0644, bytes, MODE_0644, o);
      if !ok {
        RemoveTemp(tmp, o.unlink);
        return Failed;
      }
      StagingUnseen(before, fs, tmp, fs.inodes[before.next]);
      LinkShows(before, fs, path, tmp, fs.inodes[before.next]);
      var taken := path in fs.dir;
      var published := Do(Link(tmp, path), o.publish);
      RemoveTemp(tmp, o.unlink);
      if !published {
        return if taken && !o.publish.Failure? then AlreadyThere else Failed;
      }
      ok := SyncParentDir(o.syncDir);
      if o.syncDir.Success? {
        SyncedIsOnDisk(fs, path, File(bytes, MODE_0644));
      }
      result := if ok then Created else Failed;
    }

    /** copy_atomic, given the source's bytes and mode. Nothing is synced. */
    method CopyAtomic(path: Name, tmp: Name, source: File, o: Outcomes) returns (result: Result)
      requires Valid() && turns == [] && caller == NewCaller(Copy, path, tmp, source.bytes, source.mode)
      requires Sound(fs) && path != tmp
      modifies this
      ensures Valid() && start == old(start)
      ensures caller.pc == Finished(result)
      ensures result == Written || result == Failed
      ensures && (result == Written <==> StagingOk(old(fs), tmp, source.bytes, o) && !o.publish.Failure?)
              && Seen(fs, tmp) == (if result == Written then Seen(old(fs), tmp)[path := source] else Seen(old(fs), tmp))
              && (result == Written || !o.unlink.Failure? ==> tmp !in fs.dir)
    {
      hide Perform, Possible, Run, Seen;
      ghost var before := fs;
      var ok := Stage(tmp, source.mode, source.bytes, source.mode, o);
      if ok {
        StagingUnseen(before, fs, tmp, fs.inodes[before.next]);
        RenameShows(before, fs, path, tmp, fs.inodes[before.next]);
        ok := Do(Rename(tmp, path), o.publish);
      }
      if !ok {
        RemoveTemp(tmp, o.unlink);
        return Failed;
      }
      result := Written;
    }
  }
}
