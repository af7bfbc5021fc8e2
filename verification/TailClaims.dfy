// What the run invariant of the tailer means for the person reading the log pane.

module TailClaims {
  import opened Shared
  import opened Bytes
  import opened Splitter
  import opened TailModel
  import opened Tailing
  import opened LineTrace
  import opened LogWorld
  import opened TailRun

  /** A tailer that has just opened the log from its start, in front of an empty screen. */
  function Begin(w: World): Sys {
    match w.path
    case None => Sys(w, Opened(None, false, 0), [], Audit(0, [], 0, 0, []))
    case Some(ino) =>
      var inc := if ino in w.live then w.live[ino] else 0;
      Sys(w, Opened(Some((ino, Content(w, ino))), false, 0), [], Audit(inc, [], 0, inc, []))
  }

  lemma FreshInv(w: World, t: TailState, inc: Inc)
    requires Valid(w)
    requires t.offset == 0 && t.signature == [] && t.splitter == INIT && t.pending == [] && t.carry == 0
    requires !t.marker && t.unterminated == 0 && (t.open.Some? ==> t.open.value.file == t.open.value.id)
    ensures Inv(Sys(w, t, [], Audit(inc, [], 0, inc, [])))
  {
    EmptyTrace();
  }

  lemma BeginInv(w: World)
    requires Valid(w)
    ensures Inv(Begin(w))
  {
    FreshInv(w, Begin(w).tail, Begin(w).audit.readInc);
  }

  // ---------------------------------------------------------------- one incarnation on screen

  /** `screen` is a run of consecutive lines, from number `skip` on, of one incarnation's text, where only
      a line that had grown to the long-line bound counts as several. */
  ghost predicate ShowsOne(w: World, screen: seq<Line>, skip: nat) {
    exists inc: Inc, evs: seq<Ev> ::
      TraceOf(w, inc, evs) && NoCut(evs) && skip <= |Lines(evs)| && screen <= Lines(evs)[skip..]
  }

  /** Both texts of the audit were read from their beginning. */
  predicate CutFree(s: Sys) {
    NoCut(s.audit.shown) && NoCut(s.audit.read)
  }

  lemma LookIsCutFree(s: Sys, inc: Inc, a: Answers)
    requires CutFree(s)
    ensures NoCut(NextAudit(s, inc, a).shown) && NoCut(NextAudit(s, inc, a).read)
  {
    hide LoopTrace, Detects, Straddled, BytesRead;
    LoopNoCut(LoopStart(s.tail), s.tail.offset, a.seen);
    if a.stat.Ok? && a.stat.value.Some? {
      LoopNoCut(LoopStart(Reopened(s.tail, FileRead(s.tail, a), a.stat.value.value.id)), 0, a.seen);
    }
  }

  lemma {:induction false} StaysCutFree(repaired: bool, s: Sys, steps: seq<Step>)
    requires CutFree(s)
    ensures CutFree(Run(repaired, s, steps))
    decreases |steps|
  {
    hide PollWith, NextAudit, IncRead, NoCut;
    if steps != [] {
      if steps[0].Look? {
        LookIsCutFree(s, IncRead(s, steps[0].early, steps[0].answers), steps[0].answers);
      }
      StaysCutFree(repaired, Next(repaired, s, steps[0]), steps[1..]);
    }
  }

  lemma {:induction false} SkipStaysZero(repaired: bool, s: Sys, steps: seq<Step>)
    requires s.audit.skip == 0
    ensures Run(repaired, s, steps).audit.skip == 0
    decreases |steps|
  {
    if steps != [] {
      SkipStaysZero(repaired, Next(repaired, s, steps[0]), steps[1..]);
    }
  }

  /** The consumer theorem: whatever happens to the file, as long as each poll meets the stated
      conditions, the consumer shows a prefix of the lines of a single incarnation. */
  lemma ConsumerTheorem(repaired: bool, w: World, steps: seq<Step>)
    requires Valid(w) && RunOk(repaired, Begin(w), steps)
    ensures var s := Run(repaired, Begin(w), steps);
            Inv(s) && CutFree(s) && ShowsOne(s.world, s.screen, 0)
  {
    BeginInv(w);
    StaysCutFree(repaired, Begin(w), steps);
    RunKeeps(repaired, Begin(w), steps);
    SkipStaysZero(repaired, Begin(w), steps);
    var s := Run(repaired, Begin(w), steps);
    assert s.screen <= Lines(s.audit.shown)[0..];
  }

  // ---------------------------------------------------------------- what is due is announced once

  predicate Flagged(result: Io<Batch>) {
    result.Ok? && result.value.rotated
  }

  /** Batches of the run that told the consumer to clear. */
  function Announcements(repaired: bool, s: Sys, steps: seq<Step>): nat
    decreases |steps|
  {
    if steps == [] then 0
    else (if steps[0].Look? && Flagged(PollWith(repaired, s.tail, steps[0].answers).1) then 1 else 0)
         + Announcements(repaired, Next(repaired, s, steps[0]), steps[1..])
  }

  /** The poll finds a rotation, or a read that straddled one, while no announcement is waiting. */
  predicate FallsDue(t: TailState, a: Answers) {
    (Detects(t, a) || Straddled(t, a)) && !t.marker
  }

  /** Polls of the run after which an announcement that was not due before is due, or has been made. */
  function TimesDue(repaired: bool, s: Sys, steps: seq<Step>): nat
    decreases |steps|
  {
    if steps == [] then 0
    else (if steps[0].Look? && FallsDue(s.tail, steps[0].answers) then 1 else 0)
         + TimesDue(repaired, Next(repaired, s, steps[0]), steps[1..])
  }

  function Waiting(s: Sys): nat {
    if s.tail.marker then 1 else 0
  }

  /** One poll's announcement, or the marker it leaves, accounts for what fell due and what was due. */
  lemma DueLedger(repaired: bool, t: TailState, a: Answers)
    requires QueueOk(t) && (StaleMarker(t, a) ==> repaired) && PollWith(repaired, t, a).1.Ok?
    ensures (if Flagged(PollWith(repaired, t, a).1) then 1 else 0)
            + (if PollWith(repaired, t, a).0.marker then 1 else 0)
            == (if FallsDue(t, a) then 1 else 0) + (if t.marker then 1 else 0)
  {
    hide ReadSignature, ReadLoop, Witness, Take;
  }

  lemma QueueStaysOk(repaired: bool, t: TailState, a: Answers)
    requires QueueOk(t)
    ensures QueueOk(PollWith(repaired, t, a).0)
  {
    hide ReadSignature, ReadLoop, Witness;
    LoopKeepsQueue(LoopStart(t), t.offset, a.seen);
    if Detects(t, a) && a.reopened.Ok? && t.pending == [] {
      LoopKeepsQueue(LoopStart(Reopened(t, a.reopened.value, a.stat.value.value.id)), 0, a.seen);
    }
  }

  /** No poll of the run ends in an error, and without the repaired line none meets a stale marker. */
  predicate NoneStale(repaired: bool, s: Sys, steps: seq<Step>)
    decreases |steps|
  {
    steps == [] ||
    ((steps[0].Look? ==>
        && PollWith(repaired, s.tail, steps[0].answers).1.Ok?
        && (StaleMarker(s.tail, steps[0].answers) ==> repaired))
     && NoneStale(repaired, Next(repaired, s, steps[0]), steps[1..]))
  }

  /** In every run at all, straddled reads, undetected rewrites and merged incarnations included: with the
      repaired line every announcement that falls due is made exactly once, or is the one still waiting at the
      end; with the code as it is, if no marker goes stale. */
  lemma {:induction false} DueAnnouncedOnce(repaired: bool, s: Sys, steps: seq<Step>)
    requires QueueOk(s.tail) && NoneStale(repaired, s, steps)
    ensures Announcements(repaired, s, steps) + Waiting(Run(repaired, s, steps))
            == TimesDue(repaired, s, steps) + Waiting(s)
    decreases |steps|
  {
    hide PollWith, FallsDue, StaleMarker, Flagged, NextAudit, IncRead, HappenAll, QueueOk;
    if steps != [] {
      if steps[0].Look? {
        QueueStaysOk(repaired, s.tail, steps[0].answers);
        DueLedger(repaired, s.tail, steps[0].answers);
      }
      DueAnnouncedOnce(repaired, Next(repaired, s, steps[0]), steps[1..]);
    }
  }

  lemma {:induction false} OkIsNotStale(repaired: bool, s: Sys, steps: seq<Step>)
    requires RunOk(repaired, s, steps)
    ensures NoneStale(repaired, s, steps)
    decreases |steps|
  {
    hide PollWith, Next, StaleMarker, Switches, Merges, ReadsOne, Detectable, Straddled;
    if steps != [] {
      OkIsNotStale(repaired, Next(repaired, s, steps[0]), steps[1..]);
    }
  }

  // ---------------------------------------------------------------- every replacement is announced once

  /** The incarnation the path names. */
  function PathInc(w: World): Inc {
    if w.path.Some? && w.path.value in w.live then w.live[w.path.value] else 0
  }

  /** Nothing gives the file that the path names another text. The path itself may vanish or come to name
      another file, and any other file may change in any way. */
  predicate Sparing(w: World, es: seq<Event>) {
    w.path.Some? ==> forall i :: 0 <= i < |es| && (es[i].Rewrite? || es[i].Replace?) ==> es[i].ino != w.path.value
  }

  /** The answers of a poll during which that file has only grown: every look at it sees its text at some
      moment between `w` and `w'`. The path may have been given to another file before the open. */
  predicate Faithful(w: World, w': World, t: TailState, a: Answers) {
    match w.path
    case None => a.stat == Ok(None)
    case Some(ino) =>
      var lo, hi := TextOf(w, PathInc(w)), TextOf(w', PathInc(w));
      && a.stat == Ok(Some(Stat(ino, |lo|)))
      && a.before.Ok? && (t.open.Some? && t.open.value.file == ino ==> lo <= a.before.value <= hi)
      && a.reopened.Ok? && a.after.Ok? && a.idAfter == Some(FileRead(t, a))
      && (FileRead(t, a) == ino ==> Prefixes(a.seen, hi) && lo <= a.after.value <= hi)
  }

  /** The path names a file, and not the one being read: nothing is open, or another inode, or the open
      inode has been rewritten since a byte of it was read. */
  predicate Replaced(s: Sys) {
    && s.world.path.Some?
    && (|| s.tail.open.None? || s.tail.open.value.id != s.world.path.value
        || (PathInc(s.world) != s.audit.readInc && s.tail.offset > 0))
  }

  /** A rewrite under the open file, after a byte of it was read, is one that shows. */
  predicate RewriteShows(s: Sys, a: Answers) {
    && s.tail.open.Some? && s.world.path == Some(s.tail.open.value.id)
    && PathInc(s.world) != s.audit.readInc && s.tail.offset > 0
    ==> Detects(s.tail, a)
  }

  /** A poll of an orderly run: the file it finds is not rewritten while it lasts, and no switch comes
      while an announcement is due. */
  predicate OrderlyStep(s: Sys, step: Step) {
    step.Look? ==>
      && Sparing(s.world, step.early + step.late)
      && Faithful(s.world, HappenAll(s.world, step.early + step.late), s.tail, step.answers)
      && RewriteShows(s, step.answers)
      && !Straddled(s.tail, step.answers)
      && (step.answers.stat == Ok(None) || Detects(s.tail, step.answers) ==> !s.tail.marker)
      && TailModel.Poll(s.tail, step.answers).1.Ok?
  }

  predicate Orderly(s: Sys, steps: seq<Step>)
    decreases |steps|
  {
    steps == [] || (OrderlyStep(s, steps[0]) && Orderly(Next(false, s, steps[0]), steps[1..]))
  }

  /** The incarnations that the run's polls found in place of what was being read. */
  function Openings(s: Sys, steps: seq<Step>): seq<Inc>
    decreases |steps|
  {
    if steps == [] then []
    else (if steps[0].Look? && Replaced(s) then [PathInc(s.world)] else [])
         + Openings(Next(false, s, steps[0]), steps[1..])
  }

  lemma {:induction false} InodeStays(w: World, es: seq<Event>, ino: Ino)
    requires forall i :: 0 <= i < |es| && (es[i].Rewrite? || es[i].Replace?) ==> es[i].ino != ino
    ensures ino in HappenAll(w, es).live <==> ino in w.live
    ensures ino in w.live ==> HappenAll(w, es).live[ino] == w.live[ino]
    decreases |es|
  {
    if es != [] {
      assert es[0].Rewrite? || es[0].Replace? ==> es[0].ino != ino;
      InodeStays(Happen(w, es[0]), es[1..], ino);
    }
  }

  /** An orderly poll that takes bytes takes them from the incarnation the path names. */
  lemma ReadsThePath(s: Sys, early: seq<Event>, late: seq<Event>, a: Answers)
    requires Valid(s.world) && OrderlyStep(s, Look(early, late, a)) && BytesRead(s.tail, a) > 0
    ensures s.world.path == Some(FileRead(s.tail, a)) && IncRead(s, early, a) == PathInc(s.world)
    ensures ReadsOne(HappenAll(s.world, early + late), s.tail, PathInc(s.world), a)
  {
    hide ReadLoop, ReadSignature, Witness, Valid;
    var ino := s.world.path.value;
    forall i | 0 <= i < |early| && (early[i].Rewrite? || early[i].Replace?)
      ensures early[i].ino != ino
    {
      assert (early + late)[i] == early[i];
    }
    InodeStays(s.world, early, ino);
    assert ino in s.world.live by { PathLives(s.world); }
  }

  lemma PathLives(w: World)
    requires Valid(w) && w.path.Some?
    ensures w.path.value in w.live && w.live[w.path.value] in w.text
  {
  }

  lemma OrderlyIsOk(s: Sys, step: Step)
    requires Inv(s) && OrderlyStep(s, step)
    ensures StepOk(false, s, step)
  {
    hide Lines, Erase, Replay, Witness, Forced, CountOk, ReadSignature, LoopTrace, ReadLoop, Faithful, BytesRead;
    hide ReadsOne, IncRead, ScreenOk, ReadingOk, Straddled, Detects, PollWith, Sparing;
    if step.Look? && BytesRead(s.tail, step.answers) > 0 {
      ReadsThePath(s, step.early, step.late, step.answers);
      GoesOnInPath(s, step);
    } else if step.Look? {
      var w := HappenAll(s.world, step.early + step.late);
      NothingReadIsOne(w, s, IncRead(s, step.early, step.answers), step.answers);
    }
  }

  lemma GoesOnInPath(s: Sys, step: Step)
    requires Inv(s) && OrderlyStep(s, step) && step.Look? && BytesRead(s.tail, step.answers) > 0
    requires s.world.path == Some(FileRead(s.tail, step.answers))
    ensures Detectable(s, PathInc(s.world), step.answers)
  {
    hide ReadLoop, ReadSignature, Witness, Lines, Erase, Replay, Forced, CountOk, LoopTrace, PathInc, Faithful;
    var t, a := s.tail, step.answers;
    if !Detects(t, a) {
      assert t.open.Some? && FileRead(t, a) == t.open.value.file;
      assert t.offset > 0 ==> t.open.value.file == t.open.value.id;
    }
  }

  lemma NothingReadIsOne(w: World, s: Sys, inc: Inc, a: Answers)
    requires BytesRead(s.tail, a) == 0
    ensures ReadsOne(w, s.tail, inc, a) && Detectable(s, inc, a)
  {
    hide BytesRead;
  }

  /** In an orderly run the tailer finds out exactly the replacements there are. */
  lemma DetectsReplacement(s: Sys, early: seq<Event>, late: seq<Event>, a: Answers)
    requires Inv(s) && OrderlyStep(s, Look(early, late, a))
    ensures Detects(s.tail, a) <==> Replaced(s)
  {
    hide Lines, Replay, LoopTrace, ReadLoop, Forced, CountOk, ScreenOk, Straddled, FileRead, PollWith, Sparing;
    TextsGrow(s.world, early + late);
    EmptyTrace();
    if s.world.path.Some? && s.tail.open.Some? && s.tail.open.value.id == s.world.path.value {
      PathLives(s.world);
      if s.tail.offset == 0 {
        assert s.tail.signature == [];
      } else if PathInc(s.world) == s.audit.readInc {
        NotMoved(s, TextOf(HappenAll(s.world, early + late), PathInc(s.world)), a);
      }
    }
  }

  /** More of what has been read is no rotation. */
  lemma NotMoved(s: Sys, hi: seq<Byte>, a: Answers)
    requires s.tail.open.Some? && ReadingOk(s.tail, s.audit)
    requires var lo := TextOf(s.world, s.audit.readInc);
             && Erase(s.audit.read) <= lo <= hi
             && a.stat == Ok(Some(Stat(s.tail.open.value.id, |lo|)))
             && a.before.Ok? && lo <= a.before.value <= hi
    ensures !Detects(s.tail, a)
  {
    ReadSignatureIsWitness(a.before.value, s.tail.offset);
    assert a.before.value[..s.tail.offset] == Erase(s.audit.read);
  }

  lemma {:induction false} DueAreOpenings(s: Sys, steps: seq<Step>)
    requires Inv(s) && Orderly(s, steps)
    ensures RunOk(false, s, steps) && TimesDue(false, s, steps) == |Openings(s, steps)|
    decreases |steps|
  {
    hide Next, Inv, Detects, Straddled, Replaced, StepOk, Faithful, Sparing, HappenAll, PollWith;
    if steps != [] {
      OrderlyIsOk(s, steps[0]);
      StepKeeps(false, s, steps[0]);
      if steps[0].Look? {
        assert steps[0] == Look(steps[0].early, steps[0].late, steps[0].answers);
        DetectsReplacement(s, steps[0].early, steps[0].late, steps[0].answers);
      }
      DueAreOpenings(Next(false, s, steps[0]), steps[1..]);
    }
  }

  /** In an orderly run every incarnation that takes the place of the one being read is announced
      exactly once; at most the last one is still waiting. */
  lemma AnnouncedExactlyOnce(s: Sys, steps: seq<Step>)
    requires Inv(s) && Orderly(s, steps)
    ensures Inv(Run(false, s, steps))
    ensures Announcements(false, s, steps) + Waiting(Run(false, s, steps)) == |Openings(s, steps)| + Waiting(s)
  {
    hide Orderly, RunOk, Run, Openings, Announcements, TimesDue, NoneStale, WorldOk, ScreenOk, ReadingOk;
    DueAreOpenings(s, steps);
    OkIsNotStale(false, s, steps);
    RunKeeps(false, s, steps);
    DueAnnouncedOnce(false, s, steps);
  }

  /** Whatever the path names is newer than incarnation `last`, or is the file being read. */
  predicate NewerThan(s: Sys, last: int) {
    && last < s.world.next
    && (s.world.path.Some? ==>
          && last <= PathInc(s.world)
          && (PathInc(s.world) == last ==> !Replaced(s) && (s.audit.readInc == last || s.tail.offset == 0)))
  }

  lemma {:induction false} EventsKeepNewer(s: Sys, es: seq<Event>, last: int)
    requires Valid(s.world) && NewerThan(s, last)
    ensures NewerThan(s.(world := HappenAll(s.world, es)), last)
    decreases |es|
  {
    if es != [] {
      OneEventGrows(s.world, es[0]);
      OneKeepsNewer(s, es[0], last);
      EventsKeepNewer(s.(world := Happen(s.world, es[0])), es[1..], last);
    }
  }

  lemma OneKeepsNewer(s: Sys, e: Event, last: int)
    requires Valid(s.world) && NewerThan(s, last)
    ensures NewerThan(s.(world := Happen(s.world, e)), last)
  {
  }

  /** The poll itself: what it opens is newer, and becomes the newest. */
  lemma PollKeepsNewer(s: Sys, early: seq<Event>, late: seq<Event>, a: Answers, last: int)
    requires Inv(s) && OrderlyStep(s, Look(early, late, a)) && NewerThan(s, last)
    ensures Replaced(s) ==> PathInc(s.world) > last
    ensures NewerThan(Polled(false, s, IncRead(s, early, a), a), if Replaced(s) then PathInc(s.world) else last)
  {
    hide Lines, Erase, Replay, Witness, Forced, CountOk, ReadSignature, LoopTrace, ReadLoop, ScreenOk, BytesRead;
    hide Sparing, Straddled, HappenAll;
    DetectsReplacement(s, early, late, a);
    if BytesRead(s.tail, a) > 0 {
      ReadsThePath(s, early, late, a);
    }
    OffsetAfter(s.tail, a);
    if s.world.path.Some? {
      PathBelowNext(s.world);
    }
  }

  lemma PathBelowNext(w: World)
    requires Valid(w) && w.path.Some?
    ensures PathInc(w) < w.next
  {
  }

  /** Where the cursor is after a poll that is not straddled. */
  lemma OffsetAfter(t: TailState, a: Answers)
    requires TailModel.Poll(t, a).1.Ok? && !Straddled(t, a)
    ensures TailModel.Poll(t, a).0.offset == (if Detects(t, a) then 0 else t.offset) + BytesRead(t, a)
    ensures Detects(t, a) ==> TailModel.Poll(t, a).0.open == Some(Handle(FileRead(t, a), a.stat.value.value.id))
    ensures !Detects(t, a) && a.stat != Ok(None) ==> TailModel.Poll(t, a).0.open == t.open
  {
    hide ReadLoop, ReadSignature, Take;
  }

  lemma NewerStays(s: Sys, step: Step, last: int)
    requires Inv(s) && OrderlyStep(s, step) && NewerThan(s, last)
    ensures step.Look? && Replaced(s) ==> PathInc(s.world) > last
    ensures NewerThan(Next(false, s, step), if step.Look? && Replaced(s) then PathInc(s.world) else last)
  {
    hide OrderlyStep, NewerThan, Replaced, ScreenOk, ReadingOk, TraceOf, IncRead, Valid;
    match step
    case Change(e) => OneKeepsNewer(s, e, last);
    case Look(early, late, a) =>
      PollKeepsNewer(s, early, late, a, last);
      var newest := if Replaced(s) then PathInc(s.world) else last;
      EventsKeepNewer(Polled(false, s, IncRead(s, early, a), a), early + late, newest);
  }

  /** No incarnation is opened twice: each opening is of a newer one than all before it. */
  lemma {:induction false} OpeningsAreNew(s: Sys, steps: seq<Step>, last: int)
    requires Inv(s) && Orderly(s, steps) && NewerThan(s, last)
    ensures forall k :: 0 <= k < |Openings(s, steps)| ==> last < Openings(s, steps)[k]
    ensures forall j, k :: 0 <= j < k < |Openings(s, steps)| ==> Openings(s, steps)[j] < Openings(s, steps)[k]
    decreases |steps|
  {
    hide Inv, OrderlyStep, NewerThan, Replaced, Next;
    if steps != [] {
      OrderlyIsOk(s, steps[0]);
      StepKeeps(false, s, steps[0]);
      NewerStays(s, steps[0], last);
      var opens := steps[0].Look? && Replaced(s);
      OpeningsAreNew(Next(false, s, steps[0]), steps[1..], if opens then PathInc(s.world) else last);
    }
  }

  /** From the opening of the log on. */
  lemma AnnouncedOnceFromStart(w: World, steps: seq<Step>)
    requires Valid(w) && Orderly(Begin(w), steps)
    ensures var news := Openings(Begin(w), steps);
            && (forall j, k :: 0 <= j < k < |news| ==> news[j] < news[k])
            && Announcements(false, Begin(w), steps) + Waiting(Run(false, Begin(w), steps)) == |news|
  {
    hide Inv, Orderly, Run, Openings, Announcements;
    BeginInv(w);
    AnnouncedExactlyOnce(Begin(w), steps);
    OpeningsAreNew(Begin(w), steps, -1);
  }

  // ---------------------------------------------------------------- the rotation detector

  /** Same file, more of it: never a rotation, and never a straddled read. */
  lemma NoFalseAlarm(t: TailState, au: Audit, lo: seq<Byte>, hi: seq<Byte>, a: Answers)
    requires t.open.Some? && ReadingOk(t, au) && Erase(au.read) <= lo <= hi
    requires a.stat == Ok(Some(Stat(t.open.value.id, |lo|)))
    requires a.before.Ok? && lo <= a.before.value <= hi && a.after.Ok? && lo <= a.after.value <= hi
    requires a.idAfter == Some(t.open.value.id)
    ensures !Detects(t, a) && !Straddled(t, a)
  {
    ReadSignatureIsWitness(a.before.value, t.offset);
    ReadSignatureIsWitness(a.after.value, t.offset);
    assert a.before.value[..t.offset] == Erase(au.read) == a.after.value[..t.offset];
  }

  /** Two texts have the same witness before `offset` exactly when the first reaches it and repeats the
      last 64 bytes in front of it. */
  lemma SameWitness(past: seq<Byte>, content: seq<Byte>, offset: nat)
    requires offset <= |past|
    ensures ReadSignature(content, offset) == Witness(past[..offset]) <==>
            && |content| >= offset
            && forall k :: offset - Min(offset, 64) <= k < offset ==> content[k] == past[k]
  {
    ReadSignatureIsWitness(past, offset);
    var from := offset - Min(offset, CONTINUITY_SIGNATURE_BYTES);
    if |content| >= offset {
      if ReadSignature(content, offset) == Witness(past[..offset]) {
        forall k | from <= k < offset
          ensures content[k] == past[k]
        {
          assert content[k] == content[from..offset][k - from] == past[from..offset][k - from];
        }
      } else {
        assert content[from..offset] != past[from..offset];
      }
    }
  }

  /** A rewrite in place is missed exactly when the new text reaches the cursor and repeats the
      witness in front of it. */
  lemma MissedRewrite(t: TailState, past: seq<Byte>, content: seq<Byte>, a: Answers)
    requires t.open.Some? && t.offset <= |past| && t.signature == Witness(past[..t.offset])
    requires a.stat == Ok(Some(Stat(t.open.value.id, |content|))) && a.before == Ok(content)
    ensures !Detects(t, a) <==>
            && |content| >= t.offset
            && forall k :: t.offset - Min(t.offset, 64) <= k < t.offset ==>
                 content[k] == past[k]
  {
    SameWitness(past, content, t.offset);
  }

  /** The second check, behind the read: a rewrite in place inside the read window is missed under the
      same condition on what was read before this poll; a poll that starts at byte 0 misses every one. */
  lemma MissedStraddle(t: TailState, past: seq<Byte>, content: seq<Byte>, a: Answers)
    requires a.stat.Ok? && a.stat.value.Some? && a.after == Ok(content) && a.idAfter == Some(a.stat.value.value.id)
    requires t.offset <= |past| && t.signature == Witness(past[..t.offset])
    ensures !Detects(t, a) && ReadLoop(LoopStart(t), t.offset, a.seen).consumed > 0 ==>
              (!Straddled(t, a) <==>
                && |content| >= t.offset
                && forall k :: t.offset - Min(t.offset, 64) <= k < t.offset ==>
                     content[k] == past[k])
    ensures Detects(t, a) || t.offset == 0 ==> !Straddled(t, a)
  {
    hide ReadLoop, Witness;
    SameWitness(past, content, t.offset);
    EmptyTrace();
    assert past[..0] == [];
  }

  // ---------------------------------------------------------------- append-only runs

  /** Nothing but appends, between polls and during them. */
  predicate AppendOnlyStep(s: Sys, step: Step) {
    match step
    case Change(e) => e.Append?
    case Look(early, late, a) =>
      Quiet(early + late) && Faithful(s.world, HappenAll(s.world, early + late), s.tail, a)
  }

  predicate AppendOnly(s: Sys, steps: seq<Step>)
    decreases |steps|
  {
    steps == [] || (AppendOnlyStep(s, steps[0]) && AppendOnly(Next(false, s, steps[0]), steps[1..]))
  }

  /** The tailer reads the file the path names, and owes no announcement. */
  predicate Following(s: Sys) {
    && s.tail.open.Some? && !s.tail.marker && s.tail.open.value.id == s.tail.open.value.file
    && s.world.path == Some(s.tail.open.value.file)
    && s.tail.open.value.file in s.world.live && s.world.live[s.tail.open.value.file] == s.audit.readInc
    && s.audit.readInc in s.world.text
  }

  lemma AppendOnlyLook(s: Sys, early: seq<Event>, late: seq<Event>, a: Answers)
    requires Inv(s) && Following(s) && AppendOnlyStep(s, Look(early, late, a))
    ensures StepOk(false, s, Look(early, late, a)) && IncRead(s, early, a) == s.audit.readInc
    ensures !Detects(s.tail, a) && !Straddled(s.tail, a) && a.stat != Ok(None)
    ensures TailModel.Poll(s.tail, a).1.Ok? && !TailModel.Poll(s.tail, a).1.value.rotated
  {
    hide Lines, Replay, LoopTrace, ReadLoop, ReadSignature, Forced, CountOk, ScreenOk, BytesRead;
    var ino := s.tail.open.value.file;
    var w' := HappenAll(s.world, early + late);
    TextsGrow(s.world, early + late);
    assert Quiet(early) by {
      assert forall i :: 0 <= i < |early| ==> (early + late)[i] == early[i];
    }
    TextsGrow(s.world, early);
    MovedMeansDetected(s, a);
    NoFalseAlarm(s.tail, s.audit, Content(s.world, ino), TextOf(w', s.audit.readInc), a);
    ReadTrace(s.tail, s.audit.read, a.seen, TextOf(w', s.audit.readInc));
  }

  /** While the tailer follows a file that only grows, the file read is the one that is open. */
  lemma MovedMeansDetected(s: Sys, a: Answers)
    requires Inv(s) && Following(s)
    requires a.stat == Ok(Some(Stat(s.tail.open.value.id, |TextOf(s.world, s.audit.readInc)|)))
    requires a.before.Ok? && TextOf(s.world, s.audit.readInc) <= a.before.value
    ensures !Detects(s.tail, a) && FileRead(s.tail, a) == s.tail.open.value.file
  {
    hide Lines, Replay, Forced, CountOk, ScreenOk;
    NotMoved(s, a.before.value, a);
  }

  lemma AppendOnlyKeeps(s: Sys, step: Step)
    requires Inv(s) && Following(s) && s.audit.skip == 0 && AppendOnlyStep(s, step)
    ensures var s' := Next(false, s, step);
            Inv(s') && Following(s') && s'.audit.readInc == s.audit.readInc && s'.audit.skip == 0
  {
    hide Lines, Erase, Replay, Witness, Forced, CountOk, ReadSignature, LoopTrace, ReadLoop, ScreenOk, ReadingOk;
    match step
    case Change(e) =>
      OneEventGrows(s.world, e);
      StepKeeps(false, s, step);
    case Look(early, late, a) =>
      AppendOnlyLook(s, early, late, a);
      TextsGrow(s.world, early + late);
      StepKeeps(false, s, step);
  }

  /** Append-only exactness: every interleaving of appends and polls leaves exactly the lines of the
      bytes before the cursor on screen and in the queue, the rest in the splitter, nothing flagged. */
  lemma {:induction false} AppendOnlyExact(s: Sys, steps: seq<Step>)
    requires Inv(s) && Following(s) && s.audit.skip == 0 && AppendOnly(s, steps)
    ensures var s' := Run(false, s, steps);
            && Inv(s') && Following(s') && s'.audit.readInc == s.audit.readInc && s'.audit.skip == 0
            && ReadExactly(s', s'.world.text[s.audit.readInc])
    ensures Announcements(false, s, steps) == 0
    decreases |steps|
  {
    if steps == [] {
      LinesHoldEveryByte(s.audit.read);
    } else {
      AppendOnlyKeeps(s, steps[0]);
      if steps[0].Look? {
        assert steps[0] == Look(steps[0].early, steps[0].late, steps[0].answers);
        AppendOnlyLook(s, steps[0].early, steps[0].late, steps[0].answers);
      }
      AppendOnlyExact(Next(false, s, steps[0]), steps[1..]);
    }
  }

  /** Screen, queue and splitter hold exactly the first `offset` bytes of `text`. */
  predicate ReadExactly(s: Sys, text: seq<Byte>) {
    && Erase(s.audit.read) <= text && |Erase(s.audit.read)| == s.tail.offset
    && s.screen + s.tail.pending == Lines(s.audit.read)
    && s.tail.splitter == Replay(s.audit.read).state
    && Joined(s.screen + s.tail.pending) + s.tail.splitter.buf == Undelimited(Erase(s.audit.read))
  }
}
