// Two bursts of blank lines that show what the tailer's conditions are for: a full batch that is not
// marked as truncated, and two files under one announcement.

module TailBursts {
  import opened Shared
  import opened Bytes
  import opened Splitter
  import opened TailModel
  import opened Tailing
  import opened LineTrace
  import opened LogWorld
  import opened TailRun
  import opened TailClaims
  import opened ShortLines
  import opened Preload
  import opened TailLimits
  import opened TailFaults

  // ---------------------------------------------------------------- many times the same

  function Repeat<T>(x: T, n: nat): (r: seq<T>)
    ensures |r| == n && forall i :: 0 <= i < n ==> r[i] == x
  {
    if n == 0 then [] else Repeat(x, n - 1) + [x]
  }

  lemma RepeatCut<T>(x: T, n: nat, k: nat)
    requires k <= n
    ensures Repeat(x, n)[..k] == Repeat(x, k) && Repeat(x, n)[k..] == Repeat(x, n - k)
    ensures Repeat(x, k) + Repeat(x, n - k) == Repeat(x, n)
  {
    hide Repeat;
  }

  const BLANK: Chunk := Chunk([], Lf)

  lemma {:induction false} FeedBlanks(n: nat)
    ensures Feed(INIT, Repeat(LF, n)) == Fed(INIT, Repeat(BLANK, n))
    ensures Texts(Repeat(BLANK, n)) == Repeat<Line>([], n)
  {
    hide Feed, Texts;
    EmptyLines();
    if n > 0 {
      FeedBlanks(n - 1);
      CutIndependent(INIT, Repeat(LF, n - 1), [LF]);
      FeedOne(INIT, LF);
      var none: seq<Chunk> := [];
      assert none + [BLANK] == [BLANK];
      TextsConcat(Repeat(BLANK, n - 1), [BLANK]);
      TextsOne(BLANK);
    }
  }

  lemma {:induction false} FeedUndelimited(s: SplitState, bytes: seq<Byte>)
    requires DelimiterFree(bytes) && !s.pendingCr
    ensures Feed(s, bytes) == Fed(SplitState(s.buf + bytes, false), [])
  {
    if bytes == [] {
      assert s.buf + bytes == s.buf;
    } else {
      FeedUndelimited(s, bytes[..|bytes| - 1]);
      assert s.buf + bytes == s.buf + bytes[..|bytes| - 1] + [bytes[|bytes| - 1]];
    }
  }

  // ---------------------------------------------------------------- a full batch, not truncated

  /** One read's worth: `n` blank lines, and the beginning of one more line. */
  function FirstRead(n: nat): seq<Byte>
    requires n <= READ_CHUNK_BYTES
  {
    Repeat(LF, n) + Repeat(120, READ_CHUNK_BYTES - n)
  }

  /** The byte behind it ends that line. */
  function Full(n: nat): (text: seq<Byte>)
    requires n <= READ_CHUNK_BYTES
    ensures |text| == READ_CHUNK_BYTES + 1
  {
    FirstRead(n) + [LF]
  }

  lemma FeedFirstRead(n: nat)
    requires n <= READ_CHUNK_BYTES
    ensures Feed(INIT, FirstRead(n))
            == Fed(SplitState(Repeat(120, READ_CHUNK_BYTES - n), false), Repeat(BLANK, n))
    ensures Texts(Repeat(BLANK, n)) == Repeat<Line>([], n)
  {
    hide Feed, Repeat;
    FeedBlanks(n);
    FeedUndelimited(INIT, Repeat(120, READ_CHUNK_BYTES - n));
    CutIndependent(INIT, Repeat(LF, n), Repeat(120, READ_CHUNK_BYTES - n));
    assert INIT.buf + Repeat(120, READ_CHUNK_BYTES - n) == Repeat(120, READ_CHUNK_BYTES - n);
  }

  lemma LoopOverFull(n: nat, seen: seq<Io<seq<Byte>>>)
    requires n == MAX_LINES_PER_POLL && seen != [] && seen[0] == Ok(Full(n))
    ensures var r := ReadLoop(LoopStart(AtOffset([], false)), 0, seen);
            r.pending == Repeat<Line>([], n) && r.consumed == READ_CHUNK_BYTES && !r.failed
  {
    hide Feed, Texts, Witness, Repeat;
    FeedFirstRead(n);
    var r := LoopStart(AtOffset([], false));
    assert Taken(0, 0, Full(n)) == FirstRead(n);
    var r1 := ReadChunk(r, FirstRead(n));
    EmptyLines();
    assert r1.pending == Repeat<Line>([], n);
    assert ReadLoop(r1, 0, seen[1..]) == r1;
  }

  lemma LinesOfFull(n: nat)
    requires n <= READ_CHUNK_BYTES
    ensures |SplitLines(Full(n))| == n + 1
  {
    hide Feed, Texts, Repeat;
    FeedFirstRead(n);
    var head := Repeat(120, READ_CHUNK_BYTES - n);
    CutIndependent(INIT, FirstRead(n), [LF]);
    FeedOne(SplitState(head, false), LF);
    var none: seq<Chunk> := [];
    assert none + [Chunk(head, Lf)] == [Chunk(head, Lf)];
  }

  /** A still file of 2001 lines whose first read completes exactly 2000: however many reads the poll may
      make, it delivers those, does not say `truncated`, and leaves a byte, and with it a complete line,
      behind. */
  lemma FullBatchHidesMore(n: nat, a: Answers)
    requires n == MAX_LINES_PER_POLL && Still(AtOffset([], false), Full(n), a)
    ensures var (t', result) := TailModel.Poll(AtOffset([], false), a);
            && result == Ok(Batch(Repeat<Line>([], n), false, false))
            && t'.offset == |Full(n)| - 1 && t'.pending == []
            && |SplitLines(Full(n))| == n + 1
  {
    hide ReadLoop, Repeat, Full, Witness, Feed, Texts;
    LoopOverFull(n, a.seen);
    LinesOfFull(n);
    assert ReadSignature(Full(n), 0) == [];
    RepeatCut<Line>([], n, n);
  }

  // ---------------------------------------------------------------- two files under one announcement

  /** An old file of `n` blank lines: two batches and a part of a third. */
  predicate Blanks(n: nat) {
    2 * MAX_LINES_PER_POLL < n < 3 * MAX_LINES_PER_POLL
  }

  /** Answers of a poll of inode `ino`, which holds `text` all the while. */
  function Calm(ino: Ino, text: seq<Byte>): Answers {
    Answers(Ok(Some(Stat(ino, |text|))), Ok(text), Ok(ino), [Ok(text)], Ok(text), Some(ino))
  }

  function Gone(): Answers {
    Answers(Ok(None), Err, Err, [], Err, None)
  }

  /** Blank lines are polled, the file is replaced behind the backlog, its first line is read behind the
      carry, and the path vanishes before it has been announced. */
  function MergingRun(former: seq<Byte>): seq<Step> {
    [ Look([], [], Calm(1, former)),
      Change(Replace(2, Y)),
      Look([], [], Calm(2, Y)),
      Look([], [], Calm(2, Y)),
      Change(Vanish),
      Look([], [], Gone()) ]
  }

  function Start(former: seq<Byte>): World {
    World(Some(1), map[1 := 0], map[0 := former], 1)
  }

  /** The tailer at the end of the old file, with `n` of its blank lines queued. */
  function Behind(former: seq<Byte>, n: nat): TailState {
    TailState(Some(Handle(1, 1)), |former|, Witness(former), INIT, 0, Repeat<Line>([], n), 0, false)
  }

  /** The tailer in front of the new file, with `n` blank lines of the old one carried. */
  function Carrying(n: nat): TailState {
    TailState(Some(Handle(2, 2)), 0, [], INIT, 0, Repeat<Line>([], n), n, true)
  }

  /** The tailer with nothing but the new file's line queued, and its announcement still due. */
  function LastQueued(): TailState {
    TailState(Some(Handle(2, 2)), 2, Y, INIT, 0, [[121]], 0, true)
  }

  lemma LoopOverBlanks(n: nat)
    requires Blanks(n)
    ensures ReadLoop(LoopStart(AtOffset([], false)), 0, [Ok(Repeat(LF, n))])
            == ReadState(Witness(Repeat(LF, n)), INIT, 0, Repeat<Line>([], n), n, false)
  {
    hide Feed, Texts, Witness, Repeat;
    FeedBlanks(n);
    EmptyLines();
    var former, start := Repeat(LF, n), LoopStart(AtOffset([], false));
    assert Taken(0, 0, former) == former && start.signature + former == former;
    var none: seq<Line> := [];
    assert none + Repeat<Line>([], n) + none == Repeat<Line>([], n);
    var r := ReadChunk(start, former);
    assert ReadLoop(r, 0, [Ok(former)][1..]) == r;
  }

  /** The first poll reads every blank line and delivers two thousand. */
  lemma PollsBlanks(repaired: bool, n: nat)
    requires Blanks(n)
    ensures PollWith(repaired, AtOffset([], false), Calm(1, Repeat(LF, n)))
            == (Behind(Repeat(LF, n), n - MAX_LINES_PER_POLL),
                Ok(Batch(Repeat<Line>([], MAX_LINES_PER_POLL), false, true)))
  {
    hide ReadLoop, Witness, Repeat;
    LoopOverBlanks(n);
    assert ReadSignature(Repeat(LF, n), 0) == [];
    RepeatCut<Line>([], n, MAX_LINES_PER_POLL);
  }

  /** The poll that finds another inode carries the backlog. */
  lemma PollCarries(repaired: bool, former: seq<Byte>, n: nat)
    requires n > MAX_LINES_PER_POLL
    ensures PollWith(repaired, Behind(former, n), Calm(2, Y))
            == (Carrying(n - MAX_LINES_PER_POLL), Ok(Batch(Repeat<Line>([], MAX_LINES_PER_POLL), false, true)))
  {
    hide Witness, Repeat, ReadLoop;
    RepeatCut<Line>([], n, MAX_LINES_PER_POLL);
  }

  lemma LoopBehind(n: nat)
    requires n < MAX_LINES_PER_POLL
    ensures ReadLoop(LoopStart(Carrying(n)), 0, [Ok(Y)])
            == ReadState(Y, INIT, 0, Repeat<Line>([], n) + [[121]], 2, false)
  {
    hide Feed, Texts, Witness, Repeat;
    var start := LoopStart(Carrying(n));
    assert Taken(0, 0, Y) == Y && start.signature + Y == Y;
    FeedOneLine(121);
    TextsOne(Chunk([121], Lf));
    EmptyLines();
    SmallWitness(Y);
    var none: seq<Line> := [];
    assert Repeat<Line>([], n) + [[121]] + none == Repeat<Line>([], n) + [[121]];
    var r := ReadChunk(start, Y);
    assert ReadLoop(r, 0, [Ok(Y)][1..]) == r;
  }

  /** A quiet poll queues the new file's line behind the last of the old one's. */
  lemma PollReadsBehind(repaired: bool, n: nat)
    requires 0 < n < MAX_LINES_PER_POLL
    ensures PollWith(repaired, Carrying(n), Calm(2, Y)) == (LastQueued(), Ok(Batch(Repeat<Line>([], n), false, true)))
  {
    hide ReadLoop, Witness, Repeat;
    LoopBehind(n);
    assert ReadSignature(Y, 0) == [];
    var pending := Repeat<Line>([], n) + [[121]];
    assert pending[..n] == Repeat<Line>([], n) && pending[n..] == [[121]];
  }

  /** The path is gone: what is queued goes out as it is. */
  lemma PollDrains(repaired: bool)
    ensures PollWith(repaired, LastQueued(), Gone()).1 == Ok(Batch([[121]], false, false)) && Merges(LastQueued())
  {
    assert [[121]][..1] == [[121]] && [[121]][1..] == [];
  }

  /** The first three steps: two batches of blank lines are on screen, the rest is carried. */
  lemma MergingRunCarries(repaired: bool, n: nat, s: Sys, run: seq<Step>)
    requires Blanks(n) && run == MergingRun(Repeat(LF, n)) && s == Begin(Start(Repeat(LF, n)))
    ensures var s3 := Next(repaired, Next(repaired, Next(repaired, s, run[0]), run[1]), run[2]);
            && s3.tail == Carrying(n - 2 * MAX_LINES_PER_POLL)
            && s3.screen == Repeat<Line>([], MAX_LINES_PER_POLL) + Repeat<Line>([], MAX_LINES_PER_POLL)
  {
    hide PollWith, Next, NextAudit, HappenAll, Repeat, Witness, Calm, Behind, Carrying;
    var former, batch := Repeat(LF, n), Batch(Repeat<Line>([], MAX_LINES_PER_POLL), false, true);
    PollsBlanks(repaired, n);
    PollCarries(repaired, former, n - MAX_LINES_PER_POLL);
    assert s.tail == AtOffset([], false) && s.screen == [];
    LookDoes(repaired, s, [], Calm(1, former), Behind(former, n - MAX_LINES_PER_POLL), batch);
    var s1 := Next(repaired, s, run[0]);
    ChangeDoes(repaired, s1, Replace(2, Y));
    var s2 := Next(repaired, s1, run[1]);
    LookDoes(repaired, s2, [], Calm(2, Y), Carrying(n - 2 * MAX_LINES_PER_POLL), batch);
    assert s1.screen == Repeat<Line>([], MAX_LINES_PER_POLL);
  }

  /** The last three: the new file's line arrives behind the blank ones, without an announcement. */
  lemma MergingRunEnds(repaired: bool, n: nat, s: Sys, run: seq<Step>, former: seq<Byte>)
    requires run == MergingRun(former) && s.tail == Carrying(n) && 0 < n < MAX_LINES_PER_POLL
    ensures var s6 := Next(repaired, Next(repaired, Next(repaired, s, run[3]), run[4]), run[5]);
            s6.screen == s.screen + Repeat<Line>([], n) + [[121]]
  {
    hide PollWith, Next, NextAudit, HappenAll, Repeat, Witness, Calm, Gone, Carrying, LastQueued;
    PollReadsBehind(repaired, n);
    PollDrains(repaired);
    LookDoes(repaired, s, [], Calm(2, Y), LastQueued(), Batch(Repeat<Line>([], n), false, true));
    var s4 := Next(repaired, s, run[3]);
    ChangeDoes(repaired, s4, Vanish);
    var s5 := Next(repaired, s4, run[4]);
    LookDoes(repaired, s5, [], Gone(), PollWith(repaired, LastQueued(), Gone()).0, Batch([[121]], false, false));
  }

  /** At the end of the run the screen holds all of the old file's lines and, behind them, the new file's:
      it is a prefix of neither. Both the code and its repaired form do this. */
  lemma MergesTwoFiles(repaired: bool, n: nat)
    requires Blanks(n)
    ensures var former := Repeat(LF, n);
            var screen := Run(repaired, Begin(Start(former)), MergingRun(former)).screen;
            && screen == SplitLines(former) + SplitLines(Y) && |SplitLines(former)| == n && SplitLines(Y) == [[121]]
            && !(screen <= SplitLines(former)) && !(screen <= SplitLines(Y))
  {
    hide Next, Begin, Feed, Texts, Repeat, Calm, Gone, Carrying;
    var former, cap, rest := Repeat(LF, n), MAX_LINES_PER_POLL, n - 2 * MAX_LINES_PER_POLL;
    var run, s := MergingRun(former), Begin(Start(former));
    MergingRunCarries(repaired, n, s, run);
    var s3 := Next(repaired, Next(repaired, Next(repaired, s, run[0]), run[1]), run[2]);
    MergingRunEnds(repaired, rest, s3, run, former);
    UnfoldSix(repaired, s, run);
    RepeatCut<Line>([], 2 * cap, cap);
    RepeatCut<Line>([], n, 2 * cap);
    FeedBlanks(n);
    FeedOneLine(121);
    TextsOne(Chunk([121], Lf));
  }
}
