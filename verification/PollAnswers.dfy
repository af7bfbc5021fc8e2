// What a caller can read off one poll: its answer, its flags and its cursor, from what the system calls
// answered, whatever those answers are.

module PollAnswers {
  import opened Shared
  import opened Bytes
  import opened TailModel
  import opened Tailing
  import opened TailRun
  import opened TailLimits

  // ---------------------------------------------------------------- one read

  /** A read takes the bytes at the cursor: 64 KiB, or up to the budget, or up to the end of the file. */
  lemma ReadTakes(offset: nat, consumed: nat, content: seq<Byte>)
    requires consumed <= 1048576 && offset + consumed <= |content|
    ensures var chunk := Taken(offset, consumed, content);
            && offset + consumed + |chunk| <= |content|
            && chunk == content[offset + consumed..offset + consumed + |chunk|]
            && |chunk| <= 65536 && consumed + |chunk| <= 1048576
            && (|chunk| == 65536 || consumed + |chunk| == 1048576 || offset + consumed + |chunk| == |content|)
  {
  }

  // ---------------------------------------------------------------- truncated

  /** Whatever the loop is given, it takes no more than the budget. */
  lemma {:induction false} LoopWithinBudget(r: ReadState, offset: nat, seen: seq<Io<seq<Byte>>>)
    requires r.consumed <= POLL_BYTE_BUDGET
    ensures ReadLoop(r, offset, seen).consumed <= POLL_BYTE_BUDGET
    decreases |seen|
  {
    hide ReadChunk;
    if r.consumed >= POLL_BYTE_BUDGET || |r.pending| >= MAX_LINES_PER_POLL || seen == [] || seen[0].Err? {
    } else {
      var chunk := Taken(offset, r.consumed, seen[0].value);
      if chunk != [] {
        ChunkCounts(r, chunk);
        LoopWithinBudget(ReadChunk(r, chunk), offset, seen[1..]);
      }
    }
  }

  lemma ReadOnTruncated(repaired: bool, t: TailState, detected: bool, id: Ino, a: Answers)
    requires ReadOn(repaired, t, detected, id, a).1.Ok?
    ensures var (t', result) := ReadOn(repaired, t, detected, id, a);
            var r := ReadLoop(LoopStart(t), t.offset, a.seen);
            && r.consumed <= 1048576
            && (result.value.truncated <==> t'.pending != [] || (r.consumed == 1048576 && !Straddles(t, id, r, a)))
  {
    hide ReadLoop, ReadSignature, Straddles;
    LoopWithinBudget(LoopStart(t), t.offset, a.seen);
  }

  /** What `truncated` says, of every batch of every poll, whatever the poll finds: a line is still queued,
      or a read that was not undone took the whole 1 MiB that a poll may take. */
  lemma TruncatedMeans(repaired: bool, t: TailState, a: Answers)
    requires PollWith(repaired, t, a).1.Ok?
    ensures var (t', result) := PollWith(repaired, t, a);
            result.value.truncated <==> t'.pending != [] || (BytesRead(t, a) == 1048576 && !Straddled(t, a))
  {
    hide ReadOn, ReadLoop, ReadSignature, Straddles;
    if a.stat.Ok? && a.stat.value.Some? {
      var id := a.stat.value.value.id;
      if !Detects(t, a) {
        ReadOnTruncated(repaired, t, false, id, a);
      } else if t.pending == [] && a.reopened.Ok? {
        ReadOnTruncated(repaired, Reopened(t, a.reopened.value, id), true, id, a);
      }
    }
  }

  // ---------------------------------------------------------------- the lines of a batch

  /** How many queued lines belong to the file read before: all of them at a rotation behind a backlog. */
  function Boundary(t: TailState, a: Answers): nat {
    if Detects(t, a) && t.pending != [] then |t.pending| else t.carry
  }

  /** What a delivery does with a queue and its boundary. */
  predicate Delivered(queue: seq<Line>, carry: nat, lines: seq<Line>, left: seq<Line>, carry': nat) {
    && lines + left == queue
    && |lines| == Min(2000, if 0 < carry < |queue| then carry else |queue|)
    && carry' == if carry > |lines| then carry - |lines| else 0
  }

  lemma DrainDelivers(t: TailState, rotated: bool, budgetHit: bool)
    ensures var (t', result) := Drain(t, rotated, budgetHit);
            result.Ok? && Delivered(t.pending, t.carry, result.value.lines, t'.pending, t'.carry)
  {
  }

  lemma ReadOnDelivers(repaired: bool, t: TailState, detected: bool, id: Ino, a: Answers)
    requires ReadOn(repaired, t, detected, id, a).1.Ok?
    ensures var (t', result) := ReadOn(repaired, t, detected, id, a);
            var queue := result.value.lines + t'.pending;
            t.pending <= queue && Delivered(queue, t.carry, result.value.lines, t'.pending, t'.carry)
  {
    hide ReadLoop, ReadSignature, Straddles, Drained, Take, Delivered;
    var r := ReadLoop(LoopStart(t), t.offset, a.seen);
    LoopKeepsQueue(LoopStart(t), t.offset, a.seen);
    if Straddles(t, id, r, a) {
      DrainDelivers(Undone(t), false, false);
      DeliveredQueue(Undone(t), false, false);
    } else {
      var due := t.carry == 0 && t.marker;
      var marker := t.marker && !(due && (repaired || !detected));
      var base := Advanced(t, r).(offset := t.offset + r.consumed, marker := marker);
      DrainDelivers(base, detected || due, r.consumed >= POLL_BYTE_BUDGET);
      DeliveredQueue(base, detected || due, r.consumed >= POLL_BYTE_BUDGET);
    }
  }

  lemma DeliveredQueue(t: TailState, rotated: bool, budgetHit: bool)
    ensures var (t', result) := Drain(t, rotated, budgetHit); result.value.lines + t'.pending == t.pending
  {
    DrainDelivers(t, rotated, budgetHit);
  }

  /** Every batch: no queued line is lost or overtaken; 2000 lines go out, or all there are, except that a
      batch never reaches across the boundary between two files. */
  lemma BatchIsFull(repaired: bool, t: TailState, a: Answers)
    requires PollWith(repaired, t, a).1.Ok?
    ensures var (t', result) := PollWith(repaired, t, a);
            var queue := result.value.lines + t'.pending;
            t.pending <= queue && Delivered(queue, Boundary(t, a), result.value.lines, t'.pending, t'.carry)
  {
    hide ReadOn, ReadSignature, Drain, Delivered;
    if a.stat.value.None? {
      DrainDelivers(t.(open := None, signature := []), false, false);
      DeliveredQueue(t.(open := None, signature := []), false, false);
    } else {
      var id := a.stat.value.value.id;
      if !Detects(t, a) {
        ReadOnDelivers(repaired, t, false, id, a);
      } else {
        var base := Reopened(t, a.reopened.value, id);
        if t.pending != [] {
          DrainDelivers(base.(carry := |t.pending|, marker := true), false, false);
          DeliveredQueue(base.(carry := |t.pending|, marker := true), false, false);
        } else {
          ReadOnDelivers(repaired, base, true, id, a);
        }
      }
    }
  }

  // ---------------------------------------------------------------- rotated

  /** The poll gets as far as reading. */
  predicate Reads(t: TailState, a: Answers) {
    && a.stat.Ok? && a.stat.value.Some?
    && if Detects(t, a) then a.reopened.Ok? && t.pending == [] else a.before.Ok?
  }

  /** A batch is flagged exactly when its poll read, undisturbed, and had found a rotation itself or came
      first behind the boundary with an announcement due. */
  lemma RotatedMeans(repaired: bool, t: TailState, a: Answers)
    requires PollWith(repaired, t, a).1.Ok?
    ensures PollWith(repaired, t, a).1.value.rotated
            <==> Reads(t, a) && !Straddled(t, a) && (Detects(t, a) || (t.carry == 0 && t.marker))
  {
    hide ReadLoop, ReadSignature, Straddles, Take, Drained;
  }

  // ---------------------------------------------------------------- errors

  /** The loop of the poll, if it gets that far. */
  function LoopOf(t: TailState, a: Answers): ReadState
    requires Reads(t, a)
  {
    var base := if Detects(t, a) then Reopened(t, a.reopened.value, a.stat.value.value.id) else t;
    ReadLoop(LoopStart(base), base.offset, a.seen)
  }

  /** A poll fails exactly when a system call fails that it depends on; a missing file is no failure, nor
      is a descriptor without an identity. */
  lemma FailsWhen(repaired: bool, t: TailState, a: Answers)
    ensures PollWith(repaired, t, a).1.Err?
            <==>
            || a.stat.Err?
            || (a.stat.value.Some? && !Moved(t, a.stat.value.value) && a.before.Err?)
            || (Detects(t, a) && a.reopened.Err?)
            || (Reads(t, a) && (LoopOf(t, a).failed || (BytesRead(t, a) > 0 && a.after.Err?)))
  {
    hide ReadLoop, ReadSignature, Straddles, Take, Drained;
  }

  /** What a failed poll leaves behind: nothing changed if it had not read, and otherwise everything it had
      read before the failure, queued and in the witness, behind a cursor that has not moved. */
  lemma FailedPollLeaves(repaired: bool, t: TailState, a: Answers)
    requires PollWith(repaired, t, a).1.Err?
    ensures var t' := PollWith(repaired, t, a).0;
            && (!Reads(t, a) ==> t' == t)
            && (Reads(t, a) ==>
                  && t.pending <= t'.pending && t'.pending == LoopOf(t, a).pending
                  && t'.signature == LoopOf(t, a).signature && t'.splitter == LoopOf(t, a).splitter
                  && t'.offset == (if Detects(t, a) then 0 else t.offset)
                  && t'.open == (if Detects(t, a) then Some(Handle(FileRead(t, a), a.stat.value.value.id)) else t.open)
                  && t'.carry == t.carry && t'.marker == t.marker)
  {
    hide ReadLoop, ReadSignature, Straddles, Take, Drained;
    if Reads(t, a) {
      var base := if Detects(t, a) then Reopened(t, a.reopened.value, a.stat.value.value.id) else t;
      LoopKeepsQueue(LoopStart(base), base.offset, a.seen);
    }
  }

  // ---------------------------------------------------------------- where the reading goes on

  /** The file found is not the one being read on: nothing is open, another identity, shorter than the
      cursor, or other bytes in front of it. */
  predicate Other(t: TailState, stat: Stat, seen: seq<Byte>) {
    || t.open.None? || t.open.value.id != stat.id || stat.len < t.offset
    || (if |seen| < t.offset then t.signature != []
        else t.signature != seen[t.offset - Min(t.offset, 64)..t.offset])
  }

  /** A poll starts over at byte 0 exactly when it finds another file; otherwise it goes on at its cursor,
      and moves it by what it has read, unless that read is undone. */
  lemma StartsOverWhen(repaired: bool, t: TailState, a: Answers)
    requires a.stat.Ok? && a.stat.value.Some? && a.before.Ok? && a.reopened.Ok?
    ensures var (t', result) := PollWith(repaired, t, a);
            && (Other(t, a.stat.value.value, a.before.value) ==> RestartsAtZero(t, a, (t', result)))
            && (!Other(t, a.stat.value.value, a.before.value) && result.Ok? && !Straddled(t, a) ==>
                  t'.open == t.open && t'.offset == t.offset + BytesRead(t, a))
  {
    hide ReadLoop, Take, RestartsAtZero, Straddled;
    if Detects(t, a) {
      DetectedRestarts(repaired, t, a);
    } else if PollWith(repaired, t, a).1.Ok? && !Straddled(t, a) {
      GoesOn(repaired, t, a);
    }
  }

  lemma GoesOn(repaired: bool, t: TailState, a: Answers)
    requires a.stat.Ok? && a.stat.value.Some? && a.before.Ok? && !Detects(t, a)
    requires PollWith(repaired, t, a).1.Ok? && !Straddled(t, a)
    ensures PollWith(repaired, t, a).0.open == t.open
    ensures PollWith(repaired, t, a).0.offset == t.offset + BytesRead(t, a)
  {
    hide ReadLoop, ReadSignature, Take, Straddles;
  }

  /** A log that has vanished is no error: the queue goes on being delivered, unflagged, and whatever file
      is found next is read from byte 0. */
  lemma VanishedThenFound(repaired: bool, t: TailState, a: Answers, later: Answers)
    requires a.stat == Ok(None) && later.stat.Ok? && later.stat.value.Some? && later.reopened.Ok?
    ensures var (t', result) := PollWith(repaired, t, a);
            && result.Ok? && !result.value.rotated && result.value.lines + t'.pending == t.pending
            && t'.open.None? && t'.signature == [] && t'.marker == t.marker && Detects(t', later)
            && RestartsAtZero(t', later, PollWith(repaired, t', later))
  {
    hide ReadLoop, ReadSignature, Take, RestartsAtZero;
    BatchIsFull(repaired, t, a);
    DeliveredQueue(t.(open := None, signature := []), false, false);
    NothingOpenRestarts(repaired, PollWith(repaired, t, a).0, later);
  }
}
