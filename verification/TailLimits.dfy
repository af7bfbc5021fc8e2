// Bounds on one poll, progress on a file that has stopped changing, and what a straddled read undoes.

module TailLimits {
  import opened Shared
  import opened Bytes
  import opened Splitter
  import opened TailModel
  import opened Tailing
  import opened LineTrace
  import opened LogWorld
  import opened TailRun
  import opened TailClaims
  import opened ShortLines

  // ---------------------------------------------------------------- bounded work and memory

  const QUEUE_BOUND: nat := 1999 + 65536

  /** The splitter holds at most the counted bytes plus what one read or the preload left behind. */
  predicate BufferOk(unterminated: nat, s: SplitState) {
    unterminated < MAX_UNTERMINATED_LINE_BYTES && |Held(s)| <= unterminated + TAIL_PRELOAD_CAP_BYTES
  }

  lemma {:induction false} PushBounds(s: SplitState, bytes: seq<Byte>)
    ensures var fed := Feed(s, bytes);
            && |fed.out| <= |bytes|
            && |Held(fed.state)| <= |Held(s)| + |bytes|
            && (fed.out != [] ==> |Held(fed.state)| <= |bytes|)
  {
    if bytes != [] {
      PushBounds(s, bytes[..|bytes| - 1]);
    }
  }

  lemma ChunkBounds(r: ReadState, chunk: seq<Byte>)
    requires BufferOk(r.unterminated, r.splitter) && chunk != [] && |chunk| <= READ_CHUNK_BYTES
    ensures var r' := ReadChunk(r, chunk);
            && BufferOk(r'.unterminated, r'.splitter)
            && |r'.pending| <= |r.pending| + |chunk|
            && r'.consumed == r.consumed + |chunk|
  {
    hide Feed, Texts, Witness;
    PushBounds(r.splitter, chunk);
  }

  lemma {:induction false} LoopBounds(r: ReadState, offset: nat, seen: seq<Io<seq<Byte>>>)
    requires BufferOk(r.unterminated, r.splitter) && r.consumed <= POLL_BYTE_BUDGET
    ensures var r' := ReadLoop(r, offset, seen);
            && BufferOk(r'.unterminated, r'.splitter)
            && r.consumed <= r'.consumed <= POLL_BYTE_BUDGET
            && |r'.pending| <= |r.pending| + (r'.consumed - r.consumed)
            && (|r'.pending| == |r.pending| || |r'.pending| <= QUEUE_BOUND)
    decreases |seen|
  {
    hide ReadChunk, BufferOk;
    if r.consumed >= POLL_BYTE_BUDGET || |r.pending| >= MAX_LINES_PER_POLL || seen == [] || seen[0].Err? {
    } else {
      var chunk := Taken(offset, r.consumed, seen[0].value);
      if chunk != [] {
        ChunkBounds(r, chunk);
        LoopBounds(ReadChunk(r, chunk), offset, seen[1..]);
      }
    }
  }

  /** However much the file holds, and however the poll ends: one poll reads at most the byte budget,
      delivers at most the line cap, never lets the queue outgrow its bound, and keeps the splitter's
      buffer bounded. */
  lemma PollBounds(repaired: bool, t: TailState, a: Answers)
    requires BufferOk(t.unterminated, t.splitter)
    ensures var (t', result) := PollWith(repaired, t, a);
            && BufferOk(t'.unterminated, t'.splitter)
            && |t'.splitter.buf| < 1048576 + 262144
            && BytesRead(t, a) <= 1048576
            && t'.offset <= (if Detects(t, a) && result.Ok? then 0 else t.offset) + BytesRead(t, a)
            && (result.Ok? ==> |result.value.lines| <= 2000)
            && (|t'.pending| <= |t.pending| || |t'.pending| <= QUEUE_BOUND)
  {
    hide ReadLoop, ReadSignature, Witness, ReadOn, Held, BufferOk, Take, Drained;
    EmptyBufferOk();
    DrainBounds();
    LoopBounds(LoopStart(t), t.offset, a.seen);
    if a.stat.Ok? && a.stat.value.Some? {
      ReadOnBounds(repaired, t, false, a);
    }
    if Detects(t, a) && a.reopened.Ok? {
      var base := Reopened(t, a.reopened.value, a.stat.value.value.id);
      ReadOnBounds(repaired, base, true, a);
      LoopBounds(LoopStart(base), 0, a.seen);
    }
    BufferIsBounded(PollWith(repaired, t, a).0);
  }

  /** A delivery keeps the cap and lengthens no queue. */
  lemma DrainBounds()
    ensures forall t: TailState :: Take(t) <= MAX_LINES_PER_POLL && Take(t) <= |t.pending|
    ensures forall t: TailState ::
              && |Drained(t).pending| <= |t.pending| && Drained(t).offset == t.offset
              && Drained(t).unterminated == t.unterminated && Drained(t).splitter == t.splitter
  {
  }

  lemma ReadOnBounds(repaired: bool, t: TailState, detected: bool, a: Answers)
    requires BufferOk(t.unterminated, t.splitter) && a.stat.Ok? && a.stat.value.Some?
    ensures var (t', result) := ReadOn(repaired, t, detected, a.stat.value.value.id, a);
            && BufferOk(t'.unterminated, t'.splitter)
            && t'.offset <= t.offset + ReadLoop(LoopStart(t), t.offset, a.seen).consumed
            && (result.Ok? ==> |result.value.lines| <= 2000)
            && (|t'.pending| <= |t.pending| || |t'.pending| <= QUEUE_BOUND)
  {
    hide ReadLoop, ReadSignature, Witness, BufferOk;
    EmptyBufferOk();
    LoopBounds(LoopStart(t), t.offset, a.seen);
  }

  lemma EmptyBufferOk()
    ensures BufferOk(0, INIT)
  {
  }

  lemma BufferIsBounded(t: TailState)
    requires BufferOk(t.unterminated, t.splitter)
    ensures |t.splitter.buf| < 1048576 + 262144
  {
  }

  /** The bounds hold from the opening on: a preload is at most the window. */
  lemma OpeningBounds(file: Option<(Ino, seq<Byte>)>, fromEnd: bool, tailLines: nat)
    ensures var t := Opened(file, fromEnd, tailLines);
            && BufferOk(t.unterminated, t.splitter)
            && |t.pending| <= tailLines && |t.pending| <= 262144
  {
    hide Feed, Texts;
    if file.Some? && file.value.1 != [] {
      var content := file.value.1;
      PushBounds(INIT, content[|content| - Min(|content|, TAIL_PRELOAD_CAP_BYTES)..]);
    }
  }

  /** Over any run at all, whatever happens to the file and however its polls end, the buffer stays
      bounded and the queue never exceeds its bound or, while a preload is being drained, the preload. */
  lemma {:induction false} RunBounds(repaired: bool, s: Sys, steps: seq<Step>)
    requires BufferOk(s.tail.unterminated, s.tail.splitter)
    ensures var t := Run(repaired, s, steps).tail;
            && BufferOk(t.unterminated, t.splitter)
            && |t.splitter.buf| < 1048576 + 262144
            && (|t.pending| <= |s.tail.pending| || |t.pending| <= QUEUE_BOUND)
    decreases |steps|
  {
    hide PollWith, NextAudit, HappenAll, BufferOk, Detects, BytesRead;
    if steps == [] {
      BufferIsBounded(s.tail);
    } else {
      if steps[0].Look? {
        PollBounds(repaired, s.tail, steps[0].answers);
      }
      RunBounds(repaired, Next(repaired, s, steps[0]), steps[1..]);
    }
  }

  // ---------------------------------------------------------------- progress

  /** What a poll sees of a file that holds `text` and does not change, in however many reads. */
  predicate Still(t: TailState, text: seq<Byte>, a: Answers) {
    && t.open.Some?
    && a.stat == Ok(Some(Stat(t.open.value.id, |text|)))
    && a.before == Ok(text) && a.after == Ok(text) && a.idAfter == Some(t.open.value.id)
    && a.reopened == Ok(t.open.value.id)
    && a.seen != [] && forall i :: 0 <= i < |a.seen| ==> a.seen[i] == Ok(text)
  }

  predicate AtEnd(t: TailState, text: seq<Byte>) {
    t.offset >= |text| && t.pending == []
  }

  /** A loop that may read finds the first byte it has not read yet. */
  lemma LoopReads(t: TailState, text: seq<Byte>, seen: seq<Io<seq<Byte>>>)
    requires seen != [] && forall i :: 0 <= i < |seen| ==> seen[i] == Ok(text)
    requires BufferOk(t.unterminated, t.splitter)
    requires t.offset < |text| && |t.pending| < MAX_LINES_PER_POLL
    ensures ReadLoop(LoopStart(t), t.offset, seen).consumed > 0
  {
    hide Feed, Texts, Witness, Finish;
    var chunk := Taken(t.offset, 0, text);
    assert |chunk| > 0;
    ChunkBounds(LoopStart(t), chunk);
    LoopBounds(ReadChunk(LoopStart(t), chunk), t.offset, seen[1..]);
  }

  /** A poll of an unchanging file is the read loop followed by the delivery. */
  lemma StillPoll(t: TailState, au: Audit, text: seq<Byte>, a: Answers)
    requires t.open.Some? && ReadingOk(t, au) && Forced(au.read) && Erase(au.read) <= text && Still(t, text, a)
    requires BufferOk(t.unterminated, t.splitter)
    ensures var r := ReadLoop(LoopStart(t), t.offset, a.seen);
            var (t', result) := TailModel.Poll(t, a);
            && !Detects(t, a) && result.Ok?
            && t'.offset == t.offset + r.consumed <= |text|
            && result.value.lines + t'.pending == r.pending
            && |result.value.lines| == Min(Cap(t), |r.pending|)
            && |t.pending| <= |r.pending| <= |t.pending| + r.consumed
            && (result.value.truncated <==> t'.pending != [] || r.consumed >= POLL_BYTE_BUDGET)
  {
    hide ReadLoop, ReadSignature, Witness, Replay, Erase, Forced, CountOk;
    NoFalseAlarm(t, au, text, text, a);
    LoopBounds(LoopStart(t), t.offset, a.seen);
    assert Prefixes(a.seen, text);
    ReadTrace(t, au.read, a.seen, text);
  }

  /** On an unchanging file each poll moves the cursor, or else shortens the queue, until everything
      complete is delivered; what the cursor moves bounds what the queue grows. */
  lemma PollProgress(t: TailState, au: Audit, text: seq<Byte>, a: Answers)
    requires t.open.Some? && ReadingOk(t, au) && Forced(au.read) && Erase(au.read) <= text && Still(t, text, a)
    requires BufferOk(t.unterminated, t.splitter)
    ensures var t' := TailModel.Poll(t, a).0;
            && !Detects(t, a)
            && t.offset <= t'.offset <= |text| && |t'.pending| <= |t.pending| + (t'.offset - t.offset)
            && (!AtEnd(t, text) ==>
                  t'.offset > t.offset || (t'.offset == t.offset && |t'.pending| < |t.pending|))
  {
    hide ReadLoop, ReadSignature, Witness, Replay, Erase, Forced, CountOk, PollWith, Detects, ReadingOk, BufferOk;
    StillPoll(t, au, text, a);
    if t.offset < |text| && |t.pending| < MAX_LINES_PER_POLL {
      LoopReads(t, text, a.seen);
    } else if |t.pending| >= MAX_LINES_PER_POLL {
      FullQueueReadsNothing(LoopStart(t), t.offset, a.seen);
    } else {
      NothingLeftToRead(LoopStart(t), t.offset, a.seen, text);
    }
  }

  lemma FullQueueReadsNothing(r: ReadState, offset: nat, seen: seq<Io<seq<Byte>>>)
    requires |r.pending| >= MAX_LINES_PER_POLL
    ensures ReadLoop(r, offset, seen) == r
  {
  }

  lemma NothingLeftToRead(r: ReadState, offset: nat, seen: seq<Io<seq<Byte>>>, text: seq<Byte>)
    requires seen != [] && seen[0] == Ok(text) && offset + r.consumed >= |text| && r.consumed <= POLL_BYTE_BUDGET
    ensures ReadLoop(r, offset, seen) == r
  {
    assert Taken(offset, r.consumed, text) == [];
  }

  // ---------------------------------------------------------------- everything arrives

  /** Polls in a row, with nothing happening in between. */
  function Looks(polls: seq<Answers>): seq<Step> {
    if polls == [] then [] else [Look([], [], polls[0])] + Looks(polls[1..])
  }

  /** The tailer has the file open that the path names, and reads it, whatever is still queued or due. */
  predicate OnPath(s: Sys) {
    && s.tail.open.Some? && s.tail.open.value.id == s.tail.open.value.file
    && s.world.path == Some(s.tail.open.value.file)
    && s.tail.open.value.file in s.world.live && s.world.live[s.tail.open.value.file] == s.audit.readInc
    && s.audit.readInc in s.world.text
  }

  /** The text of the file that is being read. */
  function Followed(s: Sys): seq<Byte> {
    TextOf(s.world, s.audit.readInc)
  }

  /** Everything is delivered and announced. */
  predicate Settled(s: Sys) {
    AtEnd(s.tail, Followed(s)) && !s.tail.marker
  }

  /** How many polls are still needed at most: each one takes a byte, or a line off the queue, or announces. */
  function PollsLeft(s: Sys): int {
    2 * (|Followed(s)| - s.tail.offset) + |s.tail.pending| + Waiting(s)
  }

  /** What a poll of a still file does to the file's place and to a waiting announcement. */
  lemma StillMarker(t: TailState, a: Answers)
    requires !Detects(t, a) && !Straddled(t, a) && a.stat.Ok? && a.stat.value.Some? && TailModel.Poll(t, a).1.Ok?
    ensures var t' := TailModel.Poll(t, a).0;
            t'.open == t.open && (t'.marker ==> t.marker) && (t.carry == 0 ==> !t'.marker)
  {
    hide ReadLoop, ReadSignature, Take;
  }

  lemma StillLookOk(s: Sys, a: Answers)
    requires Inv(s) && OnPath(s) && BufferOk(s.tail.unterminated, s.tail.splitter) && Still(s.tail, Followed(s), a)
    ensures StepOk(false, s, Look([], [], a)) && !Detects(s.tail, a) && !Straddled(s.tail, a)
    ensures IncRead(s, [], a) == s.audit.readInc && TailModel.Poll(s.tail, a).1.Ok?
  {
    hide ReadLoop, ReadSignature, Witness, Replay, Erase, Lines, ScreenOk, Forced, CountOk, BufferOk, LoopTrace;
    hide PollWith, BytesRead;
    NoFalseAlarm(s.tail, s.audit, Followed(s), Followed(s), a);
    StillPoll(s.tail, s.audit, Followed(s), a);
  }

  lemma StillStep(s: Sys, a: Answers)
    requires Inv(s) && OnPath(s) && BufferOk(s.tail.unterminated, s.tail.splitter) && Still(s.tail, Followed(s), a)
    ensures var s' := Next(false, s, Look([], [], a));
            && Inv(s') && OnPath(s') && BufferOk(s'.tail.unterminated, s'.tail.splitter)
            && s'.world == s.world && s'.tail.open == s.tail.open && s'.audit.readInc == s.audit.readInc
            && s'.tail.offset <= |Followed(s)|
            && PollsLeft(s') <= PollsLeft(s) && (!Settled(s) ==> PollsLeft(s') < PollsLeft(s))
  {
    hide ReadLoop, ReadSignature, Witness, Replay, Erase, Lines, ScreenOk, Forced, CountOk, BufferOk, LoopTrace;
    hide PollWith, BytesRead, Detects, Straddled, IncRead, LookOk;
    StillLookOk(s, a);
    StepKeeps(false, s, Look([], [], a));
    PollBounds(false, s.tail, a);
    PollProgress(s.tail, s.audit, Followed(s), a);
    StillMarker(s.tail, a);
  }

  lemma StillStays(text: seq<Byte>, t: TailState, t': TailState, a: Answers)
    requires Still(t, text, a) && t'.open == t.open
    ensures Still(t', text, a)
  {
  }

  /** From any state in which the tailer reads the file that the path names, with whatever backlog, carried
      or announced or not, and however many reads each poll makes: if the file has stopped changing, two polls
      a byte, one a queued line and one for a waiting announcement put every complete line on screen, and
      after that nothing changes any more. */
  lemma {:induction false} EverythingArrives(s: Sys, polls: seq<Answers>)
    requires Inv(s) && OnPath(s) && BufferOk(s.tail.unterminated, s.tail.splitter)
    requires forall i :: 0 <= i < |polls| ==> Still(s.tail, Followed(s), polls[i])
    requires |polls| >= PollsLeft(s)
    ensures var s' := Run(false, s, Looks(polls));
            && Inv(s') && s'.world == s.world && s'.audit.readInc == s.audit.readInc && Settled(s')
            && Erase(s'.audit.read) == Followed(s) && s'.audit.skip <= |Lines(s'.audit.read)|
            && s'.screen == Lines(s'.audit.read)[s'.audit.skip..]
            && (Short(Followed(s)) && NoCut(s'.audit.read) ==> Lines(s'.audit.read) == SplitLines(Followed(s)))
    decreases |polls|
  {
    hide Next, Replay, Erase, Lines, Witness, Forced, CountOk, BufferOk, Short, SplitLines, Unbroken, NoCut;
    if polls == [] {
      assert s.tail.offset <= |Followed(s)|;
      if Short(Followed(s)) && NoCut(s.audit.read) {
        ShortIsUnbroken(s.audit.read, Followed(s));
        UnbrokenSplits(s.audit.read);
      }
    } else {
      StillStep(s, polls[0]);
      var s1 := Next(false, s, Look([], [], polls[0]));
      assert Looks(polls)[1..] == Looks(polls[1..]);
      forall i | 0 <= i < |polls[1..]|
        ensures Still(s1.tail, Followed(s1), polls[1..][i])
      {
        StillStays(Followed(s), s.tail, s1.tail, polls[i + 1]);
      }
      EverythingArrives(s1, polls[1..]);
    }
  }

  // ---------------------------------------------------------------- what `truncated` tells

  /** Enough reads to use up the budget, each finding the same text: the loop stops at the budget, at the
      line cap, or at the end of the file. */
  lemma {:induction false} LoopExhausts(r: ReadState, offset: nat, seen: seq<Io<seq<Byte>>>, text: seq<Byte>)
    requires forall i :: 0 <= i < |seen| ==> seen[i] == Ok(text)
    requires r.consumed <= POLL_BYTE_BUDGET && |seen| * READ_CHUNK_BYTES >= POLL_BYTE_BUDGET - r.consumed
    ensures var r' := ReadLoop(r, offset, seen);
            r'.consumed >= POLL_BYTE_BUDGET || |r'.pending| >= MAX_LINES_PER_POLL || offset + r'.consumed >= |text|
    decreases |seen|
  {
    hide Feed, Texts, Witness, Finish;
    if r.consumed >= POLL_BYTE_BUDGET || |r.pending| >= MAX_LINES_PER_POLL || seen == [] {
    } else {
      var chunk := Taken(offset, r.consumed, text);
      if chunk != [] {
        if |chunk| == READ_CHUNK_BYTES || r.consumed + |chunk| == POLL_BYTE_BUDGET {
          LoopExhausts(ReadChunk(r, chunk), offset, seen[1..], text);
        } else {
          assert offset + r.consumed + |chunk| == |text|;
          LoopAtEnd(ReadChunk(r, chunk), offset, seen[1..], text);
        }
      }
    }
  }

  lemma LoopAtEnd(r: ReadState, offset: nat, seen: seq<Io<seq<Byte>>>, text: seq<Byte>)
    requires forall i :: 0 <= i < |seen| ==> seen[i] == Ok(text)
    requires r.consumed <= POLL_BYTE_BUDGET && offset + r.consumed >= |text|
    ensures ReadLoop(r, offset, seen) == r
  {
    if seen != [] {
      NothingLeftToRead(r, offset, seen, text);
    }
  }

  /** A batch that is not `truncated` leaves something behind, unread, exactly when the read loop stopped
      at its line cap with bytes to go; the caller sees that as a batch of exactly the line cap with the
      cursor short of the end. A line left queued always means `truncated`. */
  lemma NotTruncatedMeansUpToDate(t: TailState, au: Audit, text: seq<Byte>, a: Answers)
    requires t.open.Some? && ReadingOk(t, au) && Forced(au.read) && Erase(au.read) <= text && Still(t, text, a)
    requires BufferOk(t.unterminated, t.splitter)
    requires |a.seen| * READ_CHUNK_BYTES >= POLL_BYTE_BUDGET
    ensures var r := ReadLoop(LoopStart(t), t.offset, a.seen);
            var (t', result) := TailModel.Poll(t, a);
            && result.Ok?
            && (t'.pending != [] ==> result.value.truncated)
            && (!result.value.truncated ==>
                  && (!AtEnd(t', text) <==> |r.pending| == 2000 && t.offset + r.consumed < |text|)
                  && (!AtEnd(t', text) <==> |result.value.lines| == 2000 && t'.offset < |text|))
  {
    hide ReadLoop, ReadSignature, Witness, Replay, Erase, Forced, CountOk, PollWith, ReadingOk, BufferOk;
    StillPoll(t, au, text, a);
    LoopExhausts(LoopStart(t), t.offset, a.seen, text);
  }

  // ---------------------------------------------------------------- a straddled read is undone whole

  /** The poll opens the file it found and reads it, if at all, from byte 0. */
  predicate RestartsAtZero(t: TailState, a: Answers, polled: (TailState, Io<Batch>))
    requires a.stat.Ok? && a.stat.value.Some? && a.reopened.Ok?
  {
    var base := Reopened(t, a.reopened.value, a.stat.value.value.id);
    && (polled.1.Ok? && t.pending != [] ==>
          polled.0.open == base.open && polled.0.offset == 0 && polled.0.splitter == INIT)
    && (polled.1.Ok? && t.pending == [] && !Straddled(t, a) ==>
          polled.0.offset == ReadLoop(LoopStart(base), 0, a.seen).consumed)
  }

  lemma DetectedRestarts(repaired: bool, t: TailState, a: Answers)
    requires Detects(t, a) && a.reopened.Ok?
    ensures RestartsAtZero(t, a, PollWith(repaired, t, a))
  {
    hide ReadLoop, ReadSignature, Take;
  }

  lemma NothingOpenRestarts(repaired: bool, t: TailState, a: Answers)
    requires t.open.None? && a.stat.Ok? && a.stat.value.Some? && a.reopened.Ok?
    ensures Detects(t, a) && RestartsAtZero(t, a, PollWith(repaired, t, a))
  {
    hide PollWith, ReadSignature;
    DetectedRestarts(repaired, t, a);
  }

  /** A read whose witness changed under it delivers and keeps only what was queued before it, flags
      nothing, and makes the next poll that finds the file start over at byte 0. */
  lemma StraddleUndone(repaired: bool, t: TailState, a: Answers, later: Answers)
    requires Straddled(t, a) && PollWith(repaired, t, a).1.Ok? && t.carry <= |t.pending|
    requires later.stat.Ok? && later.stat.value.Some? && later.reopened.Ok?
    ensures var (t', result) := PollWith(repaired, t, a);
            && result.value.lines + t'.pending == t.pending && !result.value.rotated
            && t'.carry <= |t'.pending| && (t'.carry == 0 || t'.carry + |result.value.lines| == t.carry)
            && t'.marker && Detects(t', later)
            && RestartsAtZero(t', later, PollWith(repaired, t', later))
  {
    hide ReadLoop, ReadSignature, PollWith, Detects, Straddled, StraddleBase, RestartsAtZero;
    StraddledPoll(repaired, t, a);
    NothingOpenRestarts(repaired, PollWith(repaired, t, a).0, later);
  }
}
