// Where logs.rs does not keep the consumer right, and exactly when.

module TailFaults {
  import opened Shared
  import opened Bytes
  import opened Splitter
  import opened TailModel
  import opened LineTrace
  import opened LogWorld
  import opened TailRun
  import opened TailClaims
  import opened ShortLines
  import opened Tailing
  import opened Preload

  // ---------------------------------------------------------------- announced twice

  /** A poll of a file whose identity, length and witness are as the tailer left them. */
  predicate Undisturbed(t: TailState, a: Answers) {
    a.stat.Ok? && a.stat.value.Some? && !Detects(t, a) && !Straddled(t, a) && TailModel.Poll(t, a).1.Ok?
  }

  /** After a poll that begins an incarnation with an empty queue, the next undisturbed poll announces
      the same incarnation again exactly when an older marker was still set (logs.rs line 515). The
      repaired line never does. */
  lemma AnnouncedTwice(t: TailState, a: Answers, later: Answers)
    requires Detects(t, a) && t.pending == [] && t.carry == 0 && !Straddled(t, a)
    requires TailModel.Poll(t, a).1.Ok? && Undisturbed(TailModel.Poll(t, a).0, later)
    requires PollWith(true, t, a).1.Ok? && Undisturbed(PollWith(true, t, a).0, later)
    ensures TailModel.Poll(t, a).1.value.rotated
    ensures TailModel.Poll(TailModel.Poll(t, a).0, later).1.value.rotated <==> t.marker
    ensures !PollWith(true, PollWith(true, t, a).0, later).1.value.rotated
  {
    hide ReadLoop, ReadSignature;
  }

  // ---------------------------------------------------------------- two incarnations under one flag

  /** The state such a poll delivers from: nothing open, or the new file in front of a carried queue. */
  function Cornered(t: TailState, a: Answers): TailState
    requires a.stat.Ok? && (a.stat.value.Some? ==> a.reopened.Ok?)
  {
    if a.stat == Ok(None) then t.(open := None, signature := [])
    else Reopened(t, a.reopened.value, a.stat.value.value.id).(carry := |t.pending|, marker := true)
  }

  lemma CorneredPoll(repaired: bool, t: TailState, a: Answers)
    requires a.stat == Ok(None) || (Detects(t, a) && a.reopened.Ok? && t.pending != [])
    ensures PollWith(repaired, t, a) == Drain(Cornered(t, a), false, false)
  {
    hide ReadOn, ReadSignature, Take, Drained;
  }

  /** Delivering an all-announced queue neither adds to nor takes from what the consumer is shown. */
  lemma DeliveryMovesLines(screen: seq<Line>, t: TailState)
    requires Announced(t) == t.pending && t.carry <= |t.pending| && (t.carry > 0 ==> t.marker)
    requires t.open.Some? && t.marker ==> t.carry > 0 || t.pending == []
    ensures screen + t.pending[..Take(t)] + Announced(Drained(t)) == screen + t.pending
  {
    DrainSplits(t);
    Associative(screen, t.pending[..Take(t)], Announced(Drained(t)));
  }

  lemma CorneredQueue(t: TailState, a: Answers)
    requires a.stat == Ok(None) || (Detects(t, a) && a.reopened.Ok? && t.pending != [])
    requires QueueOk(t)
    ensures var base := Cornered(t, a);
            && Announced(base) == t.pending && base.pending == t.pending && QueueOk(base)
            && (base.open.Some? && base.marker ==> base.carry > 0 || base.pending == [])
    ensures t.pending == Announced(t) + Unannounced(t)
    ensures Unannounced(t) == [] <==> !Merges(t)
  {
    hide ReadSignature;
  }

  /** A vanished path, or a rotation behind a backlog: what the consumer then shows, or is going to be
      shown without another announcement, is the lines of the incarnation on screen, exactly when no
      queued line is still unannounced; otherwise the lines of the next incarnation follow them. */
  lemma MergedUnderOneFlag(repaired: bool, s: Sys, inc: Inc, a: Answers)
    requires Inv(s)
    requires a.stat == Ok(None) || (Detects(s.tail, a) && a.reopened.Ok? && s.tail.pending != [])
    ensures var s' := Polled(repaired, s, inc, a);
            var shown := Lines(s.audit.shown)[s.audit.skip..];
            && PollWith(repaired, s.tail, a).1.Ok? && !PollWith(repaired, s.tail, a).1.value.rotated
            && (s'.screen + Announced(s'.tail) == shown <==> !Merges(s.tail))
            && (Merges(s.tail) ==>
                  Lines(s.audit.read) != [] && s'.screen + Announced(s'.tail) == shown + Lines(s.audit.read))
  {
    hide PollWith, ReadSignature, Moved, Cornered, Drained, Take, Lines, Replay, Erase, Witness, Forced, CountOk;
    hide TraceOf, NextAudit, HappenAll, Announced, Unannounced;
    CorneredPoll(repaired, s.tail, a);
    CorneredQueue(s.tail, a);
    DeliveryMovesLines(s.screen, Cornered(s.tail, a));
    Associative(s.screen, Announced(s.tail), Unannounced(s.tail));
  }

  // ---------------------------------------------------------------- a read error in the loop

  /** Every read that succeeds finds a prefix of `text`. */
  predicate Truthful(seen: seq<Io<seq<Byte>>>, text: seq<Byte>) {
    forall i :: 0 <= i < |seen| && seen[i].Ok? ==> seen[i].value <= text
  }

  /** Whether or not the loop ends in an error, its witness is that of the bytes it has taken. */
  lemma {:induction false} LoopWitness(r: ReadState, offset: nat, seen: seq<Io<seq<Byte>>>, text: seq<Byte>)
    requires Truthful(seen, text) && offset + r.consumed <= |text|
    requires r.signature == Witness(text[..offset + r.consumed])
    ensures var r' := ReadLoop(r, offset, seen);
            offset + r'.consumed <= |text| && r'.signature == Witness(text[..offset + r'.consumed])
    decreases |seen|
  {
    hide Witness, Feed, Texts, Finish;
    if r.consumed >= POLL_BYTE_BUDGET || |r.pending| >= MAX_LINES_PER_POLL || seen == [] || seen[0].Err? {
    } else {
      var chunk := Taken(offset, r.consumed, seen[0].value);
      if chunk != [] {
        TakenIsSlice(offset, r.consumed, seen[0].value, text);
        WitnessOfWitness(text[..offset + r.consumed], chunk);
        LoopWitness(ReadChunk(r, chunk), offset, seen[1..], text);
      }
    }
  }

  /** A poll whose read loop fails keeps the lines it has queued and moves the witness, but not the
      cursor: the next poll of the unchanged file takes it for a rotation unless the bytes just read end
      the way those before the cursor did. (The one caller stops tailing at the error.) */
  lemma FailedReadLooksLikeRotation(t: TailState, text: seq<Byte>, a: Answers, later: Answers)
    requires t.open.Some? && t.offset <= |text| && t.signature == Witness(text[..t.offset])
    requires a.stat == Ok(Some(Stat(t.open.value.id, |text|))) && !Detects(t, a) && a.before.Ok?
    requires Truthful(a.seen, text) && ReadLoop(LoopStart(t), t.offset, a.seen).failed
    requires later.stat == a.stat && later.before == Ok(text)
    ensures var r := ReadLoop(LoopStart(t), t.offset, a.seen);
            var (t', result) := TailModel.Poll(t, a);
            && t.offset + r.consumed <= |text|
            && result.Err? && t'.offset == t.offset && t'.pending == r.pending
            && (Detects(t', later) <==> Witness(text[..t.offset + r.consumed]) != Witness(text[..t.offset]))
  {
    hide ReadLoop, Witness;
    LoopWitness(LoopStart(t), t.offset, a.seen, text);
    ReadSignatureIsWitness(text, t.offset);
  }

  /** The same on a poll that has itself found a rotation, with an empty queue: the rotation is found
      again if and only if a byte was read; if none was, the next undisturbed poll goes on without any
      announcement of its own. */
  lemma FailedReadAfterRotation(t: TailState, text: seq<Byte>, a: Answers, later: Answers)
    requires Detects(t, a) && t.pending == [] && t.carry == 0 && a.reopened.Ok? && Truthful(a.seen, text)
    requires ReadLoop(LoopStart(Reopened(t, a.reopened.value, a.stat.value.value.id)), 0, a.seen).failed
    requires later.stat == Ok(Some(Stat(a.stat.value.value.id, |text|))) && later.before == Ok(text)
    ensures var r := ReadLoop(LoopStart(Reopened(t, a.reopened.value, a.stat.value.value.id)), 0, a.seen);
            var (t', result) := TailModel.Poll(t, a);
            && result.Err? && t'.offset == 0 && t'.pending == r.pending
            && (Detects(t', later) <==> r.consumed > 0)
            && (Undisturbed(t', later) ==> (TailModel.Poll(t', later).1.value.rotated <==> t.marker))
  {
    hide ReadLoop, Witness, Take, Drained;
    var base := Reopened(t, a.reopened.value, a.stat.value.value.id);
    var r := ReadLoop(LoopStart(base), 0, a.seen);
    assert ReadSignature(text, 0) == [] && text[..0] == [];
    NoWitness();
    LoopWitness(LoopStart(base), 0, a.seen, text);
    WitnessIsEmpty(text[..r.consumed]);
  }

  lemma NoWitness()
    ensures Witness([]) == []
  {
  }

  lemma WitnessIsEmpty(bytes: seq<Byte>)
    ensures Witness(bytes) == [] <==> bytes == []
  {
  }

  // ---------------------------------------------------------------- a run that loses a line

  const X: seq<Byte> := [120, LF]
  const Y: seq<Byte> := [121, LF]
  const OLD: seq<Byte> := [97, LF]

  /** Answers of a poll that sees inode 1 holding `text` throughout, except that the second witness
      check finds `after`. */
  function Sees(text: seq<Byte>, after: seq<Byte>): Answers {
    Answers(Ok(Some(Stat(1, |text|))), Ok(text), Ok(1), [Ok(text)], Ok(after), Some(1))
  }

  /** One log file that is read, rewritten while being read, read again, and appended to. */
  function LosingRun(): seq<Step> {
    [ Look([], [], Sees(OLD, OLD)),
      Change(Append(1, Y)),
      Look([], [Rewrite(1, X)], Sees(OLD + Y, X)),
      Look([], [], Sees(X, X)),
      Change(Append(1, Y)),
      Look([], [], Sees(X + Y, X + Y)) ]
  }

  const BEFORE := World(Some(1), map[1 := 0], map[0 := OLD], 1)

  /** The tailer at the end of a file of inode 1, with nothing queued. */
  function AtOffset(signature: seq<Byte>, marker: bool): TailState {
    TailState(Some(Handle(1, 1)), |signature|, signature, INIT, 0, [], 0, marker)
  }

  lemma FeedOneLine(b: Byte)
    requires !IsDelimiter(b)
    ensures Feed(INIT, [b, LF]) == Fed(INIT, [Chunk([b], Lf)])
  {
    assert [b, LF][..1] == [b] && [b][..0] == [];
    assert Feed(INIT, [b]) == Fed(SplitState([b], false), []);
  }

  lemma SmallWitness(bytes: seq<Byte>)
    requires |bytes| <= CONTINUITY_SIGNATURE_BYTES
    ensures Witness(bytes) == bytes && ReadSignature(bytes, |bytes|) == bytes
  {
  }

  /** The read loop over a file whose rest is one short line. */
  lemma ReadOneLine(base: TailState, text: seq<Byte>, b: Byte)
    requires |text| <= CONTINUITY_SIGNATURE_BYTES && base.offset + 2 == |text|
    requires base.splitter == INIT && base.pending == [] && base.signature == text[..base.offset]
    requires base.unterminated == 0
    requires text[base.offset..] == [b, LF] && !IsDelimiter(b)
    ensures ReadLoop(LoopStart(base), base.offset, [Ok(text)]) == ReadState(text, INIT, 0, [[b]], 2, false)
  {
    hide Feed;
    var r := LoopStart(base);
    assert Taken(base.offset, 0, text) == [b, LF];
    FeedOneLine(b);
    TextsOne(Chunk([b], Lf));
    assert text[..base.offset] + [b, LF] == text;
    SmallWitness(text);
    assert r.pending + Texts([Chunk([b], Lf)]) + Texts([]) == [[b]];
    assert [Ok(text)][1..] == [];
  }

  /** Reading on over one new line: nothing straddles, and the marker is consumed unless the poll
      itself detected the rotation and the line is not repaired. */
  lemma ReadOnOneLine(repaired: bool, text: seq<Byte>, b: Byte, marker: bool, detected: bool)
    requires 2 <= |text| <= CONTINUITY_SIGNATURE_BYTES && text[|text| - 2..] == [b, LF] && !IsDelimiter(b)
    ensures ReadOn(repaired, AtOffset(text[..|text| - 2], marker), detected, 1, Sees(text, text))
            == (AtOffset(text, marker && detected && !repaired), Ok(Batch([[b]], marker || detected, false)))
  {
    hide ReadLoop, Witness;
    var t := AtOffset(text[..|text| - 2], marker);
    ReadOneLine(t, text, b);
    assert ReadSignature(text, t.offset) == t.signature;
    assert [[b]][..1] == [[b]] && [[b]][1..] == [];
  }

  /** An undisturbed poll of one new line, flagged if the marker was set. */
  lemma SeesOneMoreLine(repaired: bool, text: seq<Byte>, b: Byte, marker: bool)
    requires 2 <= |text| <= CONTINUITY_SIGNATURE_BYTES && text[|text| - 2..] == [b, LF] && !IsDelimiter(b)
    ensures PollWith(repaired, AtOffset(text[..|text| - 2], marker), Sees(text, text))
            == (AtOffset(text, false), Ok(Batch([[b]], marker, false)))
  {
    hide ReadOn, Witness;
    ReadOnOneLine(repaired, text, b, marker, false);
    assert ReadSignature(text, |text| - 2) == text[..|text| - 2];
  }

  /** The first poll of a file that holds one line, by a tailer that has nothing open. */
  lemma SeesNewFile(repaired: bool, b: Byte)
    requires !IsDelimiter(b)
    ensures PollWith(repaired, AtOffset([], true).(open := None), Sees([b, LF], [b, LF]))
            == (AtOffset([b, LF], !repaired), Ok(Batch([[b]], true, false)))
  {
    hide ReadOn, Witness, ReadSignature;
    var text: seq<Byte> := [b, LF];
    assert text[..0] == [] && text[0..] == text;
    ReadOnOneLine(repaired, text, b, true, true);
    assert Reopened(AtOffset([], true).(open := None), 1, 1) == AtOffset(text[..0], true);
  }

  /** The poll whose read is straddled by the rewrite. */
  lemma SeesRewriteInside(repaired: bool)
    ensures PollWith(repaired, AtOffset(OLD, false), Sees(OLD + Y, X))
            == (AtOffset([], true).(open := None), Ok(Batch([], false, false)))
    ensures Straddled(AtOffset(OLD, false), Sees(OLD + Y, X)) && !Detects(AtOffset(OLD, false), Sees(OLD + Y, X))
  {
    hide ReadLoop, Witness;
    var t, text := AtOffset(OLD, false), OLD + Y;
    assert text[..2] == OLD && text[2..] == Y;
    ReadOneLine(t, text, 121);
    assert ReadSignature(text, 2) == OLD;
    assert ReadSignature(X, 2) == X && X[0] != OLD[0];
  }

  /** A poll with a known result. */
  lemma LookDoes(repaired: bool, s: Sys, late: seq<Event>, a: Answers, t': TailState, batch: Batch)
    requires PollWith(repaired, s.tail, a) == (t', Ok(batch))
    ensures var s' := Next(repaired, s, Look([], late, a));
            s'.tail == t' && s'.screen == Show(s.screen, batch) && s'.world == HappenAll(s.world, late)
  {
    hide PollWith, NextAudit, HappenAll, IncRead;
    assert [] + late == late;
  }

  lemma OneEvent(w: World, e: Event)
    ensures HappenAll(w, [e]) == Happen(w, e) && HappenAll(w, []) == w
  {
    assert [e][1..] == [];
  }

  /** Inode 1 under the path, holding incarnation `inc` with this text. */
  predicate Holds(w: World, inc: Inc, text: seq<Byte>) {
    w.path == Some(1) && w.live == map[1 := inc] && inc in w.text && w.text[inc] == text
  }

  lemma AppendHolds(w: World, inc: Inc, text: seq<Byte>, data: seq<Byte>)
    requires Holds(w, inc, text)
    ensures Holds(Happen(w, Append(1, data)), inc, text + data)
  {
  }

  /** The first half of the run: up to the straddled read. */
  lemma LosingRunStraddles(repaired: bool, s: Sys, run: seq<Step>)
    requires run == LosingRun() && s == Begin(BEFORE)
    ensures var s3 := Next(repaired, Next(repaired, Next(repaired, s, run[0]), run[1]), run[2]);
            && s3.tail == AtOffset([], true).(open := None) && s3.screen == [[97]]
            && exists inc: Inc :: Holds(s3.world, inc, X)
  {
    hide PollWith, Next, NextAudit, HappenAll, Happen, Straddled, Detects;
    assert s.tail == AtOffset([], false) && s.screen == [] && Holds(s.world, 0, OLD);
    assert OLD[|OLD| - 2..] == OLD && OLD[..0] == [];
    SeesOneMoreLine(repaired, OLD, 97, false);
    OneEvent(s.world, Vanish);
    var batch := Batch([[97]], false, false);
    LookDoes(repaired, s, [], Sees(OLD, OLD), AtOffset(OLD, false), batch);
    assert Show([], batch) == [[97]];
    var s2 := Next(repaired, Next(repaired, s, run[0]), run[1]);
    ChangeDoes(repaired, Next(repaired, s, run[0]), Append(1, Y));
    AppendHolds(s.world, 0, OLD, Y);
    SeesRewriteInside(repaired);
    var undone := AtOffset([], true).(open := None);
    LookDoes(repaired, s2, [Rewrite(1, X)], Sees(OLD + Y, X), undone, Batch([], false, false));
    OneEvent(s2.world, Rewrite(1, X));
    RewriteHolds(s2.world, 0, OLD + Y, X);
    assert s2.screen + [] == s2.screen;
  }

  lemma ChangeDoes(repaired: bool, s: Sys, e: Event)
    ensures var s' := Next(repaired, s, Change(e));
            s'.tail == s.tail && s'.screen == s.screen && s'.world == Happen(s.world, e)
  {
  }

  lemma RewriteHolds(w: World, inc: Inc, text: seq<Byte>, data: seq<Byte>)
    requires Holds(w, inc, text)
    ensures Holds(Happen(w, Rewrite(1, data)), w.next, data)
  {
  }

  /** The second half: the new incarnation is opened, appended to, and announced once or twice. */
  lemma LosingRunEnds(repaired: bool, s: Sys, run: seq<Step>, inc: Inc)
    requires run == LosingRun() && Holds(s.world, inc, X)
    requires s.tail == AtOffset([], true).(open := None)
    ensures var s6 := Next(repaired, Next(repaired, Next(repaired, s, run[3]), run[4]), run[5]);
            && s6.screen == (if repaired then [[120], [121]] else [[121]])
            && Content(s6.world, 1) == X + Y
  {
    hide PollWith, Next, NextAudit, HappenAll, Happen;
    SeesNewFile(repaired, 120);
    LookDoes(repaired, s, [], Sees(X, X), AtOffset(X, !repaired), Batch([[120]], true, false));
    OneEvent(s.world, Vanish);
    var s4 := Next(repaired, s, run[3]);
    assert s4.screen == [[120]];
    ChangeDoes(repaired, s4, Append(1, Y));
    AppendHolds(s.world, inc, X, Y);
    var s5 := Next(repaired, s4, run[4]);
    assert (X + Y)[..|X + Y| - 2] == X && (X + Y)[|X + Y| - 2..] == Y;
    SeesOneMoreLine(repaired, X + Y, 121, !repaired);
    LookDoes(repaired, s5, [], Sees(X + Y, X + Y), AtOffset(X + Y, false), Batch([[121]], !repaired, false));
    OneEvent(s5.world, Vanish);
    assert [[120]] + [[121]] == [[120], [121]];
  }

  /** What the six steps of the run leave on screen. */
  lemma LosingRunUnfolds(repaired: bool)
    ensures var s := Run(repaired, Begin(BEFORE), LosingRun());
            && s.screen == (if repaired then [[120], [121]] else [[121]])
            && Content(s.world, 1) == X + Y
  {
    hide Next, Begin, LosingRun, Holds, Content;
    var run, s := LosingRun(), Begin(BEFORE);
    SixSteps();
    LosingRunStraddles(repaired, s, run);
    var s3 := Next(repaired, Next(repaired, Next(repaired, s, run[0]), run[1]), run[2]);
    var inc: Inc :| Holds(s3.world, inc, X);
    LosingRunEnds(repaired, s3, run, inc);
    UnfoldSix(repaired, s, run);
  }

  lemma SixSteps()
    ensures |LosingRun()| == 6
  {
  }

  /** The run ends with two lines in the file. The code shows only the second; with the repaired
      line the screen is exactly the file's lines. */
  lemma LosesALine()
    ensures SplitLines(X + Y) == [[120], [121]]
    ensures Run(true, Begin(BEFORE), LosingRun()).screen == SplitLines(X + Y)
    ensures !(Run(false, Begin(BEFORE), LosingRun()).screen <= SplitLines(X + Y))
    ensures Content(Run(false, Begin(BEFORE), LosingRun()).world, 1) == X + Y
  {
    hide Run, LosingRun, Begin, Feed, Texts;
    LosingRunUnfolds(true);
    LosingRunUnfolds(false);
    LinesOfXY();
    var first: Line, second: Line := [120], [121];
    assert first[0] != second[0];
    assert [second][0] != [first, second][0];
  }

  lemma LinesOfXY()
    ensures SplitLines(X + Y) == [[120], [121]]
  {
    hide Feed, Texts;
    CutIndependent(INIT, X, Y);
    FeedOneLine(120);
    FeedOneLine(121);
    TextsConcat([Chunk([120], Lf)], [Chunk([121], Lf)]);
    TextsOne(Chunk([120], Lf));
    TextsOne(Chunk([121], Lf));
    assert [[120]] + [[121]] == [[120], [121]];
  }

  lemma UnfoldTwo(repaired: bool, s: Sys, run: seq<Step>)
    requires |run| >= 2
    ensures Run(repaired, s, run) == Run(repaired, Next(repaired, Next(repaired, s, run[0]), run[1]), run[2..])
  {
    hide Next;
    assert run[1..][0] == run[1] && run[1..][1..] == run[2..];
  }

  lemma UnfoldFour(repaired: bool, s: Sys, run: seq<Step>)
    requires |run| == 4
    ensures Run(repaired, s, run)
            == Next(repaired, Next(repaired, Next(repaired, Next(repaired, s, run[0]), run[1]), run[2]), run[3])
  {
    hide Next, Run;
    UnfoldTwo(repaired, s, run);
    var s2 := Next(repaired, Next(repaired, s, run[0]), run[1]);
    UnfoldTwo(repaired, s2, run[2..]);
    RunEnds(repaired, Next(repaired, Next(repaired, s2, run[2]), run[3]));
    assert run[2..][2..] == [];
  }

  lemma UnfoldSix(repaired: bool, s: Sys, run: seq<Step>)
    requires |run| == 6
    ensures Run(repaired, s, run)
            == Next(repaired, Next(repaired, Next(repaired, Next(repaired, Next(repaired, Next(repaired, s,
                 run[0]), run[1]), run[2]), run[3]), run[4]), run[5])
  {
    hide Next, Run;
    UnfoldTwo(repaired, s, run);
    UnfoldFour(repaired, Next(repaired, Next(repaired, s, run[0]), run[1]), run[2..]);
  }

  lemma RunEnds(repaired: bool, s: Sys)
    ensures Run(repaired, s, []) == s
  {
  }

  // ---------------------------------------------------------------- a run that loses an announcement

  /** Answers of a poll that finds the new text and fails on its first read. */
  function FailsAtOnce(text: seq<Byte>): Answers {
    Answers(Ok(Some(Stat(1, |text|))), Ok(text), Ok(1), [Err], Err, None)
  }

  /** A file is read and rewritten; the poll that finds this cannot read; the next one can. */
  function SilentRun(): seq<Step> {
    [ Look([], [], Sees(OLD, OLD)),
      Change(Rewrite(1, X)),
      Look([], [], FailsAtOnce(X)),
      Look([], [], Sees(X, X)) ]
  }

  /** The failed poll: the new file is open at byte 0, and nothing tells that it is new. */
  lemma FailsSilently(repaired: bool)
    ensures Detects(AtOffset(OLD, false), FailsAtOnce(X))
    ensures PollWith(repaired, AtOffset(OLD, false), FailsAtOnce(X)) == (AtOffset([], false), Err)
  {
    hide Witness;
    var seen: seq<Io<seq<Byte>>> := [Err];
    assert ReadLoop(LoopStart(AtOffset([], false)), 0, seen) == LoopStart(AtOffset([], false)).(failed := true);
    assert ReadSignature(X, 2) == X && X[0] != OLD[0];
  }

  /** After the run the screen shows the old file's line and the new one's behind it, with the code as it is
      and with line 515 repaired. */
  lemma LosesAnAnnouncement(repaired: bool)
    ensures Run(repaired, Begin(BEFORE), SilentRun()).screen == [[97], [120]]
    ensures SplitLines(OLD) == [[97]] && SplitLines(X) == [[120]]
  {
    hide PollWith, NextAudit, HappenAll, Happen, Detects, Straddled, IncRead, Run, Feed, Texts;
    var run, s := SilentRun(), Begin(BEFORE);
    assert s.tail == AtOffset([], false) && s.screen == [];
    assert OLD[..0] == [] && OLD[|OLD| - 2..] == OLD && X[..0] == [] && X[|X| - 2..] == X;
    SeesOneMoreLine(repaired, OLD, 97, false);
    FailsSilently(repaired);
    SeesOneMoreLine(repaired, X, 120, false);
    var s3 := Next(repaired, Next(repaired, Next(repaired, s, run[0]), run[1]), run[2]);
    assert s3.tail == AtOffset([], false) && s3.screen == [[97]];
    UnfoldFour(repaired, s, run);
    FeedOneLine(97);
    FeedOneLine(120);
    TextsOne(Chunk([97], Lf));
    TextsOne(Chunk([120], Lf));
  }

  // ---------------------------------------------------------------- a rewrite inside the first read

  const NEW: seq<Byte> := [98, LF, 99, LF]

  /** A poll from byte 0 whose second read finds the file rewritten delivers the first line of the old
      text and the second of the new one in one batch, unflagged: the second witness check has nothing
      to compare. */
  lemma MixedBatch()
    ensures var a := Answers(Ok(Some(Stat(1, |OLD|))), Ok(OLD), Ok(1), [Ok(OLD), Ok(NEW)], Ok(NEW), Some(1));
            && TailModel.Poll(AtOffset([], false), a).1 == Ok(Batch([[97], [99]], false, false))
            && SplitLines(OLD) == [[97]] && SplitLines(NEW) == [[98], [99]]
  {
    hide ReadLoop, Feed, Texts, Witness;
    ReadsBoth();
    LinesOfNew();
    FeedOneLine(97);
    TextsOne(Chunk([97], Lf));
    var lines: seq<Line> := [[97], [99]];
    assert lines[..2] == lines && lines[2..] == [];
    assert ReadSignature(NEW, 0) == [];
  }

  lemma LinesOfNew()
    ensures SplitLines(NEW) == [[98], [99]]
  {
    hide Feed, Texts;
    var tail: seq<Byte> := [99, LF];
    assert NEW == [98, LF] + tail;
    FeedOneLine(98);
    FeedOneLine(99);
    TextsOne(Chunk([98], Lf));
    TextsOne(Chunk([99], Lf));
    CutIndependent(INIT, [98, LF], tail);
    TextsConcat([Chunk([98], Lf)], [Chunk([99], Lf)]);
  }

  /** The two reads: the old text, and the new one from its third byte on. */
  lemma ReadsBoth()
    ensures var r := ReadLoop(LoopStart(AtOffset([], false)), 0, [Ok(OLD), Ok(NEW)]);
            r.pending == [[97], [99]] && r.consumed == 4 && !r.failed
  {
    hide Feed, Texts, Witness;
    var start := LoopStart(AtOffset([], false));
    var seen: seq<Io<seq<Byte>>> := [Ok(OLD), Ok(NEW)];
    var tail: seq<Byte> := [99, LF];
    assert Taken(0, 0, OLD) == OLD && Taken(0, 2, NEW) == tail;
    FeedOneLine(97);
    FeedOneLine(99);
    TextsOne(Chunk([97], Lf));
    TextsOne(Chunk([99], Lf));
    EmptyLines();
    var r1 := ReadChunk(start, OLD);
    assert r1.pending == [[97]];
    var r2 := ReadChunk(r1, tail);
    assert r2.pending == [[97], [99]];
    assert seen[1..] == [Ok(NEW)] && seen[1..][1..] == [];
    assert ReadLoop(r2, 0, []) == r2;
    assert ReadLoop(r1, 0, [Ok(NEW)]) == r2;
  }

  // ---------------------------------------------------------------- a line without its head

  lemma FeedTwo(b: Byte, c: Byte)
    requires !IsDelimiter(b) && !IsDelimiter(c)
    ensures SplitLines([b, c, LF]) == [[b, c]]
  {
    hide Texts;
    FeedOne(INIT, b);
    CutIndependent(INIT, [b], [c]);
    CutIndependent(INIT, [b, c], [LF]);
    FeedOne(SplitState([b], false), c);
    FeedOne(SplitState([b, c], false), LF);
    assert [b] + [c] == [b, c] && [b, c] + [LF] == [b, c, LF];
    var none: seq<Chunk> := [];
    assert none + [Chunk([b, c], Lf)] == [Chunk([b, c], Lf)] && none + none == none;
    assert INIT.buf + [b] == [b];
    assert Feed(INIT, [b]) == Fed(SplitState([b], false), none);
    assert Feed(INIT, [b, c]) == Fed(SplitState([b, c], false), none);
    TextsOne(Chunk([b, c], Lf));
  }

  /** A log that ends in the middle of a line, opened from its end with no lines preloaded: the rest of
      the line is delivered as if it were the whole of it. */
  lemma HeadlessLine()
    ensures Opened(Some((1, [97])), true, 0) == AtOffset([97], false) && !ResidueKept([97], 0)
    ensures TailModel.Poll(AtOffset([97], false), Sees([97, 98, LF], [97, 98, LF])).1 == Ok(Batch([[98]], false, false))
    ensures SplitLines([97, 98, LF]) == [[97, 98]]
  {
    hide Texts, Feed, PollWith;
    var text: seq<Byte> := [97, 98, LF];
    assert text[..1] == [97] && text[1..] == [98, LF];
    SeesOneMoreLine(false, text, 98, false);
    SmallWitness([97]);
    FeedTwo(97, 98);
  }
}
