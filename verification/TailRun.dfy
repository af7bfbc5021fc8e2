// Runs of polls and file events: what a consumer of the batches has on screen.

module LogWorld {
  import opened Shared
  import opened Bytes
  import opened TailModel

  /** One continuous life of a file's content, from its creation or truncation on. */
  type Inc = nat

  /** The log path, the inodes and every incarnation's text. A text only ever grows, and is kept
      after its incarnation is over. */
  datatype World = World(path: Option<Ino>, live: map<Ino, Inc>, text: map<Inc, seq<Byte>>, next: Inc)

  ghost predicate Valid(w: World) {
    && (forall ino :: ino in w.live ==> w.live[ino] in w.text)
    && (forall inc :: inc in w.text ==> inc < w.next)
    && (w.path.Some? ==> w.path.value in w.live)
  }

  /** What the rest of the system does to the log. */
  datatype Event =
    | Append(ino: Ino, data: seq<Byte>)
    | Rewrite(ino: Ino, data: seq<Byte>)    // truncate in place, then write
    | Replace(ino: Ino, data: seq<Byte>)    // the path names another inode, with a new text
    | Vanish

  function Happen(w: World, e: Event): World {
    match e
    case Append(ino, data) =>
      if ino in w.live && w.live[ino] in w.text
      then w.(text := w.text[w.live[ino] := w.text[w.live[ino]] + data])
      else w
    case Rewrite(ino, data) =>
      if ino in w.live
      then w.(live := w.live[ino := w.next], text := w.text[w.next := data], next := w.next + 1)
      else w
    case Replace(ino, data) =>
      World(Some(ino), w.live[ino := w.next], w.text[w.next := data], w.next + 1)
    case Vanish => w.(path := None)
  }

  function HappenAll(w: World, es: seq<Event>): World
    decreases |es|
  {
    if es == [] then w else HappenAll(Happen(w, es[0]), es[1..])
  }

  /** Nothing but appends. */
  predicate Quiet(es: seq<Event>) {
    forall i :: 0 <= i < |es| ==> es[i].Append?
  }

  function TextOf(w: World, inc: Inc): seq<Byte> {
    if inc in w.text then w.text[inc] else []
  }

  function Content(w: World, ino: Ino): seq<Byte> {
    if ino in w.live then TextOf(w, w.live[ino]) else []
  }

  lemma OneEventGrows(w: World, e: Event)
    requires Valid(w)
    ensures Valid(Happen(w, e))
    ensures forall inc :: inc in w.text ==> inc in Happen(w, e).text && TextOf(w, inc) <= TextOf(Happen(w, e), inc)
    ensures e.Append? ==> Happen(w, e).path == w.path && Happen(w, e).live == w.live
  {
  }

  /** No text is ever shortened or changed, whatever happens. */
  lemma {:induction false} TextsGrow(w: World, es: seq<Event>)
    requires Valid(w)
    ensures Valid(HappenAll(w, es))
    ensures forall inc :: inc in w.text ==>
              inc in HappenAll(w, es).text && TextOf(w, inc) <= TextOf(HappenAll(w, es), inc)
    ensures Quiet(es) ==> HappenAll(w, es).path == w.path && HappenAll(w, es).live == w.live
    decreases |es|
  {
    hide Happen, Valid, TextOf;
    if es != [] {
      OneEventGrows(w, es[0]);
      TextsGrow(Happen(w, es[0]), es[1..]);
    }
  }

  lemma {:induction false} HappenConcat(w: World, x: seq<Event>, y: seq<Event>)
    ensures HappenAll(w, x + y) == HappenAll(HappenAll(w, x), y)
    decreases |x|
  {
    hide Happen;
    if x == [] {
      assert x + y == y;
    } else {
      assert (x + y)[1..] == x[1..] + y;
      HappenConcat(Happen(w, x[0]), x[1..], y);
    }
  }
}

module TailRun {
  import opened Shared
  import opened Bytes
  import opened Splitter
  import opened TailModel
  import opened LineTrace
  import opened LogWorld

  /** Which lines of which incarnation the consumer shows, and which incarnation is being read. */
  datatype Audit = Audit(shownInc: Inc, shown: seq<Ev>, skip: nat, readInc: Inc, read: seq<Ev>)

  /** The world, the tailer, and a consumer that clears on `rotated` and then appends `lines`. */
  datatype Sys = Sys(world: World, tail: TailState, screen: seq<Line>, audit: Audit)

  // ---------------------------------------------------------------- the invariant

  /** Queued lines that belong to the incarnation on screen. */
  function Announced(t: TailState): seq<Line> {
    if t.open.None? || !t.marker then t.pending else t.pending[..Min(t.carry, |t.pending|)]
  }

  /** Queued lines of a newer incarnation that the consumer has not been told about. */
  function Unannounced(t: TailState): seq<Line> {
    if t.open.None? || !t.marker then [] else t.pending[Min(t.carry, |t.pending|)..]
  }

  /** `evs` is a trace of the first bytes of incarnation `inc`, with no line broken before its time. */
  predicate TraceOf(w: World, inc: Inc, evs: seq<Ev>) {
    && (evs == [] || inc in w.text)
    && Erase(evs) <= TextOf(w, inc)
    && Forced(evs)
  }

  ghost predicate WorldOk(w: World, au: Audit) {
    Valid(w) && TraceOf(w, au.shownInc, au.shown) && TraceOf(w, au.readInc, au.read)
  }

  /** Screen and announced queue are the lines from number `skip` on of one incarnation. */
  predicate ScreenOk(t: TailState, screen: seq<Line>, au: Audit) {
    var lines := Lines(au.shown);
    && au.skip <= |lines|
    && screen + Announced(t) == lines[au.skip..]
  }

  /** The open file, the cursor, the witness, the splitter and the rest of the queue agree with
      the trace of the incarnation being read. */
  predicate ReadingOk(t: TailState, au: Audit) {
    t.open.Some? ==>
      && (t.open.value.file == t.open.value.id || t.offset == 0)
      && |Erase(au.read)| == t.offset
      && (t.offset == 0 ==> au.read == [])
      && t.signature == Witness(Erase(au.read))
      && t.splitter == Replay(au.read).state
      && CountOk(t.unterminated, t.splitter)
      && (if t.marker then Unannounced(t) == Lines(au.read)
          else au.shownInc == au.readInc && au.shown == au.read)
  }

  predicate QueueOk(t: TailState) {
    t.carry <= |t.pending| && (t.carry > 0 ==> t.marker)
  }

  ghost predicate Inv(s: Sys) {
    && WorldOk(s.world, s.audit)
    && QueueOk(s.tail)
    && ScreenOk(s.tail, s.screen, s.audit)
    && ReadingOk(s.tail, s.audit)
  }

  // ---------------------------------------------------------------- steps

  datatype Step =
    | Change(event: Event)
    | Look(early: seq<Event>, late: seq<Event>, answers: Answers)   // one poll, and what happens during it:
                                                                    // before its first read, and after that

  function Show(screen: seq<Line>, batch: Batch): seq<Line> {
    (if batch.rotated then [] else screen) + batch.lines
  }

  /** The read loop of a poll undid itself. */
  predicate Straddled(t: TailState, a: Answers) {
    && a.stat.Ok? && a.stat.value.Some?
    && var base := if Detects(t, a) && a.reopened.Ok? then Reopened(t, a.reopened.value, a.stat.value.value.id) else t;
    && (Detects(t, a) ==> t.pending == [] && a.reopened.Ok?)
    && Straddles(base, a.stat.value.value.id, ReadLoop(LoopStart(base), base.offset, a.seen), a)
  }

  /** The bookkeeping of one poll that reads, if it reads at all, from incarnation `inc`. */
  function NextAudit(s: Sys, inc: Inc, a: Answers): Audit {
    var t, au := s.tail, s.audit;
    if a.stat.Err? || a.stat.value.None? || Straddled(t, a) then au
    else if Detects(t, a) then
      if t.pending != [] then au.(readInc := inc, read := [])
      else
        var trace := LoopTrace(LoopStart(Reopened(t, FileRead(t, a), a.stat.value.value.id)), 0, a.seen);
        Audit(inc, trace, 0, inc, trace)
    else
      var trace := au.read + LoopTrace(LoopStart(t), t.offset, a.seen);
      var from := if BytesRead(t, a) == 0 then au.readInc else inc;
      if !t.marker then Audit(from, trace, au.skip, from, trace)
      else if t.carry == 0 then Audit(from, trace, 0, from, trace)
      else au.(readInc := from, read := trace)
  }

  /** Tailer and consumer after a poll, with the world left as it was. */
  function Polled(repaired: bool, s: Sys, inc: Inc, a: Answers): (s': Sys)
    ensures s'.world == s.world
  {
    var (t, result) := PollWith(repaired, s.tail, a);
    Sys(s.world, t, if result.Ok? then Show(s.screen, result.value) else s.screen, NextAudit(s, inc, a))
  }

  /** The incarnation of the file the poll reads from, at the moment of its first read. */
  function IncRead(s: Sys, early: seq<Event>, a: Answers): Inc {
    var w, file := HappenAll(s.world, early), FileRead(s.tail, a);
    if file in w.live then w.live[file] else 0
  }

  function Next(repaired: bool, s: Sys, step: Step): Sys {
    match step
    case Change(e) => s.(world := Happen(s.world, e))
    case Look(early, late, a) =>
      Polled(repaired, s, IncRead(s, early, a), a).(world := HappenAll(s.world, early + late))
  }

  /** A switch of incarnation finds queued lines nobody has been told about: they would go out as
      lines of the incarnation before them. */
  predicate Merges(t: TailState) {
    t.open.Some? && t.marker && t.carry < |t.pending|
  }

  /** Every read of the poll finds text of incarnation `inc`, as far as it has grown in `w`. */
  predicate ReadsOne(w: World, t: TailState, inc: Inc, a: Answers) {
    BytesRead(t, a) == 0 || (Prefixes(a.seen, TextOf(w, inc)) && a.idAfter == Some(FileRead(t, a)))
  }

  /** The poll starts over at byte 0, or goes on in the incarnation it has been reading: a rewrite under the
      open file is one that the witness shows, or lands before a byte was read. */
  predicate Detectable(s: Sys, inc: Inc, a: Answers) {
    BytesRead(s.tail, a) == 0 || Detects(s.tail, a) || s.tail.offset == 0 || inc == s.audit.readInc
  }

  /** The poll leaves the incarnation it was reading: vanished, replaced, or undone. */
  predicate Switches(t: TailState, a: Answers) {
    a.stat == Ok(None) || Detects(t, a) || Straddled(t, a)
  }

  /** The stale marker of line 515: a poll that starts a new incarnation with an empty queue while an
      older rotation is still waiting to be announced. */
  predicate StaleMarker(t: TailState, a: Answers) {
    Detects(t, a) && t.pending == [] && t.marker && !Straddled(t, a)
  }

  /** Conditions under which a poll keeps the consumer right. Anything may happen to the log meanwhile. */
  predicate LookOk(repaired: bool, s: Sys, early: seq<Event>, late: seq<Event>, a: Answers) {
    var inc := IncRead(s, early, a);
    && (Switches(s.tail, a) ==> !Merges(s.tail))
    && (StaleMarker(s.tail, a) ==> repaired)
    && (Straddled(s.tail, a)
        || (ReadsOne(HappenAll(s.world, early + late), s.tail, inc, a) && Detectable(s, inc, a)))
    && PollWith(repaired, s.tail, a).1.Ok?
  }

  predicate StepOk(repaired: bool, s: Sys, step: Step) {
    step.Look? ==> LookOk(repaired, s, step.early, step.late, step.answers)
  }

  function Run(repaired: bool, s: Sys, steps: seq<Step>): Sys
    decreases |steps|
  {
    if steps == [] then s else Run(repaired, Next(repaired, s, steps[0]), steps[1..])
  }

  predicate RunOk(repaired: bool, s: Sys, steps: seq<Step>)
    decreases |steps|
  {
    steps == [] || (StepOk(repaired, s, steps[0]) && RunOk(repaired, Next(repaired, s, steps[0]), steps[1..]))
  }

  // ---------------------------------------------------------------- one step keeps the invariant

  /** Reading on from a traced position: the new trace, the new queue, and no failure. */
  lemma ReadTrace(base: TailState, evs: seq<Ev>, seen: seq<Io<seq<Byte>>>, hi: seq<Byte>)
    requires Erase(evs) <= hi && |Erase(evs)| == base.offset && Prefixes(seen, hi)
    requires Replay(evs).state == base.splitter && base.signature == Witness(Erase(evs))
    requires Forced(evs) && CountOk(base.unterminated, base.splitter)
    ensures var r := ReadLoop(LoopStart(base), base.offset, seen);
            var trace := evs + LoopTrace(LoopStart(base), base.offset, seen);
            && !r.failed
            && Forced(trace) && CountOk(r.unterminated, r.splitter)
            && Erase(trace) <= hi && |Erase(trace)| == base.offset + r.consumed
            && (r.consumed == 0 ==> trace == evs)
            && r.signature == Witness(Erase(trace)) && r.splitter == Replay(trace).state
            && base.pending <= r.pending
            && Lines(trace) == Lines(evs) + r.pending[|base.pending|..]
  {
    assert Lines(evs) == Lines(evs) + base.pending[|base.pending|..];
    LoopTraced(evs, LoopStart(base), Lines(evs), base.pending, base.offset, seen, hi);
  }

  lemma TraceStays(w: World, w': World, inc: Inc, evs: seq<Ev>)
    requires TraceOf(w, inc, evs)
    requires inc in w.text ==> inc in w'.text && TextOf(w, inc) <= TextOf(w', inc)
    ensures TraceOf(w', inc, evs)
  {
    EmptyTrace();
  }

  /** A world in which every text has only grown invalidates nothing. */
  lemma WorldMovesOn(s: Sys, w: World, w': World)
    requires Inv(s) && s.world == w && Valid(w')
    requires forall inc :: inc in w.text ==> inc in w'.text && TextOf(w, inc) <= TextOf(w', inc)
    ensures Inv(s.(world := w'))
  {
    TraceStays(w, w', s.audit.shownInc, s.audit.shown);
    TraceStays(w, w', s.audit.readInc, s.audit.read);
  }

  lemma EmptyTrace()
    ensures Erase([]) == [] && Lines([]) == [] && Replay([]).state == INIT && Witness([]) == []
    ensures Forced([]) && CountOk(0, INIT)
  {
  }

  lemma DrainSplits(t: TailState)
    requires t.carry <= |t.pending| && (t.carry > 0 ==> t.marker)
    requires t.open.Some? && t.marker ==> t.carry > 0 || t.pending == []
    ensures Announced(t) == t.pending[..Take(t)] + Announced(Drained(t))
    ensures Unannounced(t) == Unannounced(Drained(t))
    ensures Drained(t).carry <= |Drained(t).pending| && (Drained(t).carry > 0 ==> t.carry > 0)
  {
    var k := Take(t);
    TakeAndDrop(t.pending, k);
    if t.open.Some? && t.marker {
      SplitInThree(t.pending, k, t.carry);
    }
  }

  lemma TakeAndDrop<T>(a: seq<T>, k: nat)
    requires k <= |a|
    ensures a == a[..k] + a[k..]
  {
  }

  /** Cutting at `k` and then at `m` is cutting at `m` and then at `k`. */
  lemma SplitInThree<T>(a: seq<T>, k: nat, m: nat)
    requires k <= m <= |a|
    ensures a[..m] == a[..k] + a[k..][..m - k]
    ensures a[m..] == a[k..][m - k..]
  {
  }

  function Delivered(s: Sys): Sys {
    s.(tail := Drained(s.tail), screen := s.screen + s.tail.pending[..Take(s.tail)])
  }

  /** Delivering a batch moves lines from the announced queue to the screen, and touches no others. */
  lemma DeliverKeeps(s: Sys)
    requires Inv(s)
    requires s.tail.open.Some? && s.tail.marker ==> s.tail.carry > 0 || s.tail.pending == []
    ensures Inv(Delivered(s))
  {
    var t := s.tail;
    DrainSplits(t);
    Associative(s.screen, t.pending[..Take(t)], Announced(Drained(t)));
  }

  lemma AllAnnounced(t: TailState)
    requires !Merges(t) && t.carry <= |t.pending|
    ensures Announced(t) == t.pending
  {
  }

  /** A vanished path: the queue goes out as lines of the incarnation on screen. */
  lemma VanishKeeps(repaired: bool, s: Sys, inc: Inc, a: Answers)
    requires Inv(s) && a.stat == Ok(None) && !Merges(s.tail)
    ensures Inv(Polled(repaired, s, inc, a))
  {
    hide Lines, Erase, Replay, Witness, Forced, CountOk, ReadSignature, LoopTrace;
    AllAnnounced(s.tail);
    DeliverKeeps(s.(tail := s.tail.(open := None, signature := [])));
  }

  /** A detected rotation behind a backlog: the whole queue is carried, the new file waits. */
  lemma BacklogKeeps(repaired: bool, s: Sys, inc: Inc, a: Answers)
    requires Inv(s) && Detects(s.tail, a) && a.reopened.Ok?
    requires s.tail.pending != [] && !Merges(s.tail)
    ensures Inv(Polled(repaired, s, inc, a))
  {
    hide Lines, Erase, Replay, Witness, Forced, CountOk, ReadSignature, LoopTrace, ReadLoop;
    var t := s.tail;
    EmptyTrace();
    AllAnnounced(t);
    var t1 := Reopened(t, a.reopened.value, a.stat.value.value.id).(carry := |t.pending|, marker := true);
    assert t1.pending[..t1.carry] == t.pending;
    assert !Straddled(t, a);
    DeliverKeeps(s.(tail := t1, audit := NextAudit(s, inc, a)));
  }

  function StraddleBase(t: TailState, a: Answers): TailState
    requires Straddled(t, a)
  {
    if Detects(t, a) then Reopened(t, a.reopened.value, a.stat.value.value.id) else t
  }

  lemma StraddledPoll(repaired: bool, t: TailState, a: Answers)
    requires Straddled(t, a) && PollWith(repaired, t, a).1.Ok?
    ensures PollWith(repaired, t, a) == Drain(Undone(StraddleBase(t, a)), false, false)
    ensures StraddleBase(t, a).pending == t.pending && StraddleBase(t, a).carry == t.carry
  {
    hide ReadLoop, ReadSignature, Take, Drained;
  }

  /** A straddled read: the queue is what it was, and the file will be opened again. */
  lemma StraddleKeeps(repaired: bool, s: Sys, inc: Inc, a: Answers)
    requires Inv(s) && Straddled(s.tail, a) && !Merges(s.tail)
    requires PollWith(repaired, s.tail, a).1.Ok?
    ensures Inv(Polled(repaired, s, inc, a))
  {
    AllAnnounced(s.tail);
    StraddledPoll(repaired, s.tail, a);
    hide Lines, Erase, Replay, Witness, Forced, CountOk, ReadSignature, LoopTrace, ReadLoop, PollWith;
    DeliverKeeps(s.(tail := Undone(StraddleBase(s.tail, a))));
  }

  // ---------------------------------------------------------------- polls that read

  lemma {:induction false} LoopCounts(r: ReadState, offset: nat, seen: seq<Io<seq<Byte>>>)
    ensures r.consumed <= ReadLoop(r, offset, seen).consumed
    decreases |seen|
  {
    hide ReadChunk;
    if r.consumed >= POLL_BYTE_BUDGET || |r.pending| >= MAX_LINES_PER_POLL || seen == [] || seen[0].Err? {
    } else {
      var chunk := Taken(offset, r.consumed, seen[0].value);
      if chunk != [] {
        ChunkCounts(r, chunk);
        LoopCounts(ReadChunk(r, chunk), offset, seen[1..]);
      }
    }
  }

  /** A loop that takes no byte and does not fail leaves everything as it was. */
  lemma NothingTaken(r: ReadState, offset: nat, seen: seq<Io<seq<Byte>>>)
    requires ReadLoop(r, offset, seen).consumed == r.consumed && !ReadLoop(r, offset, seen).failed
    ensures ReadLoop(r, offset, seen) == r && LoopTrace(r, offset, seen) == []
  {
    hide ReadChunk, ChunkTrace;
    if r.consumed >= POLL_BYTE_BUDGET || |r.pending| >= MAX_LINES_PER_POLL || seen == [] || seen[0].Err? {
    } else {
      var chunk := Taken(offset, r.consumed, seen[0].value);
      if chunk != [] {
        ChunkCounts(r, chunk);
        LoopCounts(ReadChunk(r, chunk), offset, seen[1..]);
      }
    }
  }

  /** Reading on, if anything is read at all: `hi` is the text it is read from, `lo` the one read so far. */
  lemma ReadOnTrace(base: TailState, evs: seq<Ev>, seen: seq<Io<seq<Byte>>>, lo: seq<Byte>, hi: seq<Byte>)
    requires Erase(evs) <= lo && |Erase(evs)| == base.offset && !ReadLoop(LoopStart(base), base.offset, seen).failed
    requires Replay(evs).state == base.splitter && base.signature == Witness(Erase(evs))
    requires Forced(evs) && CountOk(base.unterminated, base.splitter)
    requires ReadLoop(LoopStart(base), base.offset, seen).consumed == 0 || (Prefixes(seen, hi) && Erase(evs) <= hi)
    ensures var r := ReadLoop(LoopStart(base), base.offset, seen);
            var trace := evs + LoopTrace(LoopStart(base), base.offset, seen);
            && Forced(trace) && CountOk(r.unterminated, r.splitter)
            && Erase(trace) <= (if r.consumed == 0 then lo else hi)
            && |Erase(trace)| == base.offset + r.consumed
            && (r.consumed == 0 ==> trace == evs)
            && r.signature == Witness(Erase(trace)) && r.splitter == Replay(trace).state
            && base.pending <= r.pending
            && Lines(trace) == Lines(evs) + r.pending[|base.pending|..]
  {
    hide Lines, Erase, Replay, Witness, Forced, CountOk, LoopTrace, ReadLoop;
    if ReadLoop(LoopStart(base), base.offset, seen).consumed == 0 {
      NothingTaken(LoopStart(base), base.offset, seen);
      assert Lines(evs) == Lines(evs) + base.pending[|base.pending|..];
      assert evs + [] == evs;
    } else {
      ReadTrace(base, evs, seen, hi);
    }
  }

  /** The state in which a poll that read `r` from `base` delivers its batch. */
  function ReadTo(s: Sys, base: TailState, r: ReadState, flagged: bool, marker: bool, au: Audit): Sys {
    Sys(s.world, Advanced(base, r).(offset := base.offset + r.consumed, marker := marker),
        if flagged then [] else s.screen, au)
  }

  /** The tailer in front of the file it has just reopened. */
  function Restarted(t: TailState, a: Answers): TailState
    requires Detects(t, a)
  {
    Reopened(t, FileRead(t, a), a.stat.value.value.id)
  }

  /** The state in which a poll that starts an incarnation with an empty queue delivers. */
  function RestartFrom(s: Sys, inc: Inc, a: Answers): Sys
    requires Detects(s.tail, a)
  {
    var base := Restarted(s.tail, a);
    ReadTo(s, base, ReadLoop(LoopStart(base), 0, a.seen), true, false, NextAudit(s, inc, a))
  }

  lemma PolledRestart(repaired: bool, s: Sys, inc: Inc, a: Answers)
    requires Detects(s.tail, a) && s.tail.pending == [] && s.tail.carry == 0
    requires !Straddled(s.tail, a) && (s.tail.marker ==> repaired) && PollWith(repaired, s.tail, a).1.Ok?
    ensures Polled(repaired, s, inc, a) == Delivered(RestartFrom(s, inc, a))
    ensures a.reopened.Ok? && !ReadLoop(LoopStart(Restarted(s.tail, a)), 0, a.seen).failed
    ensures BytesRead(s.tail, a) == ReadLoop(LoopStart(Restarted(s.tail, a)), 0, a.seen).consumed
    ensures BytesRead(s.tail, a) > 0 ==> a.idAfter == Some(a.stat.value.value.id)
  {
    hide ReadSignature, Witness, ReadLoop, LoopTrace;
  }

  lemma RestartReads(repaired: bool, s: Sys, w': World, inc: Inc, a: Answers)
    requires Inv(s) && Detects(s.tail, a) && s.tail.pending == [] && !Straddled(s.tail, a)
    requires (s.tail.marker ==> repaired) && PollWith(repaired, s.tail, a).1.Ok?
    requires ReadsOne(w', s.tail, inc, a) && Valid(w')
    ensures Inv(RestartFrom(s, inc, a).(world := w'))
  {
    hide Lines, Erase, Replay, Witness, Forced, CountOk, ReadSignature, LoopTrace, ReadLoop, PollWith, BytesRead;
    hide Polled, Straddled, Delivered, FileRead;
    PolledRestart(repaired, s, inc, a);
    var base := Restarted(s.tail, a);
    EmptyTrace();
    assert LoopTrace(LoopStart(base), 0, a.seen) == [] + LoopTrace(LoopStart(base), 0, a.seen);
    ReadOnTrace(base, [], a.seen, [], TextOf(w', inc));
    var s1 := RestartFrom(s, inc, a).(world := w');
    assert WorldOk(w', s1.audit);
  }

  /** A detected rotation with an empty queue: this batch begins the new incarnation. */
  lemma RestartKeeps(repaired: bool, s: Sys, w': World, inc: Inc, a: Answers)
    requires Inv(s) && Detects(s.tail, a) && s.tail.pending == [] && !Straddled(s.tail, a)
    requires (s.tail.marker ==> repaired) && PollWith(repaired, s.tail, a).1.Ok?
    requires ReadsOne(w', s.tail, inc, a) && Valid(w')
    ensures Inv(Polled(repaired, s, inc, a).(world := w'))
  {
    hide Polled, Delivered, ReadsOne, PollWith, Detects, Straddled, ScreenOk, ReadingOk, WorldOk, NextAudit, ReadLoop;
    RestartReads(repaired, s, w', inc, a);
    PolledRestart(repaired, s, inc, a);
    DeliverInto(s, RestartFrom(s, inc, a), w');
  }

  lemma DeliverInto(s: Sys, s1: Sys, w': World)
    requires Inv(s1.(world := w'))
    requires s1.tail.open.Some? && s1.tail.marker ==> s1.tail.carry > 0 || s1.tail.pending == []
    ensures Inv(Delivered(s1).(world := w'))
  {
    DeliverKeeps(s1.(world := w'));
    assert Delivered(s1.(world := w')) == Delivered(s1).(world := w');
  }

  /** The state an undisturbed poll delivers from. */
  function ReadOnFrom(s: Sys, inc: Inc, a: Answers): Sys {
    var t := s.tail;
    var due := t.carry == 0 && t.marker;
    ReadTo(s, t, ReadLoop(LoopStart(t), t.offset, a.seen), due, t.marker && !due, NextAudit(s, inc, a))
  }

  lemma PolledOn(repaired: bool, s: Sys, inc: Inc, a: Answers)
    requires !Detects(s.tail, a) && a.stat != Ok(None) && !Straddled(s.tail, a)
    requires PollWith(repaired, s.tail, a).1.Ok?
    ensures Polled(repaired, s, inc, a) == Delivered(ReadOnFrom(s, inc, a))
    ensures s.tail.open.Some? && !ReadLoop(LoopStart(s.tail), s.tail.offset, a.seen).failed
    ensures BytesRead(s.tail, a) == ReadLoop(LoopStart(s.tail), s.tail.offset, a.seen).consumed
    ensures a.stat.Ok? && a.stat.value.Some? && a.stat.value.value.id == s.tail.open.value.id
    ensures BytesRead(s.tail, a) > 0 ==> a.idAfter == Some(a.stat.value.value.id)
  {
    hide ReadSignature, Witness, ReadLoop, LoopTrace, Take;
  }

  /** What was read so far is where the poll reads on from. */
  lemma SameText(s: Sys, w': World, inc: Inc, a: Answers)
    requires Inv(s) && s.tail.open.Some? && Detectable(s, inc, a) && !Detects(s.tail, a) && BytesRead(s.tail, a) > 0
    requires forall i :: i in s.world.text ==> i in w'.text && TextOf(s.world, i) <= TextOf(w', i)
    ensures Erase(s.audit.read) <= TextOf(w', inc)
  {
    hide Lines, Erase, Replay, Witness, Forced, CountOk, ReadSignature, BytesRead, Detects;
    EmptyTrace();
    if inc == s.audit.readInc {
      assert Erase(s.audit.read) <= TextOf(s.world, inc);
    }
  }

  /** What an undisturbed poll leaves of the audit. */
  lemma AuditAfterRead(s: Sys, inc: Inc, a: Answers)
    requires !Detects(s.tail, a) && a.stat.Ok? && a.stat.value.Some? && !Straddled(s.tail, a)
    ensures var t, au := s.tail, s.audit;
            var trace := au.read + LoopTrace(LoopStart(t), t.offset, a.seen);
            var from := if BytesRead(t, a) == 0 then au.readInc else inc;
            NextAudit(s, inc, a) == if !t.marker then Audit(from, trace, au.skip, from, trace)
                                    else if t.carry == 0 then Audit(from, trace, 0, from, trace)
                                    else au.(readInc := from, read := trace)
  {
    hide Detects, Straddled, LoopTrace, BytesRead;
  }

  lemma ReadOnKeeps(repaired: bool, s: Sys, w': World, inc: Inc, a: Answers)
    requires Inv(s) && !Detects(s.tail, a) && a.stat != Ok(None) && !Straddled(s.tail, a)
    requires PollWith(repaired, s.tail, a).1.Ok?
    requires ReadsOne(w', s.tail, inc, a) && Detectable(s, inc, a) && Valid(w')
    requires forall i :: i in s.world.text ==> i in w'.text && TextOf(s.world, i) <= TextOf(w', i)
    ensures Inv(ReadOnFrom(s, inc, a).(world := w'))
  {
    hide Lines, Erase, Replay, Witness, Forced, CountOk, ReadSignature, LoopTrace, ReadLoop, PollWith, BytesRead;
    hide Polled, Detects, Straddled, Delivered, Detectable, NextAudit, Announced, Unannounced, Valid;
    PolledOn(repaired, s, inc, a);
    AuditAfterRead(s, inc, a);
    var t, au := s.tail, s.audit;
    if BytesRead(t, a) > 0 {
      SameText(s, w', inc, a);
    }
    ReadOnTrace(t, au.read, a.seen, TextOf(s.world, au.readInc), TextOf(w', inc));
    var s1 := ReadOnFrom(s, inc, a).(world := w');
    QueueAfterRead(s, ReadLoop(LoopStart(t), t.offset, a.seen), s1);
    TraceStays(s.world, w', au.shownInc, au.shown);
    TraceStays(s.world, w', au.readInc, au.read);
    hide ScreenOk, ReadsOne, TextOf;
  }

  /** An undisturbed poll reads on, and announces the incarnation if that is still due. */
  lemma ContinueKeeps(repaired: bool, s: Sys, w': World, inc: Inc, a: Answers)
    requires Inv(s) && !Detects(s.tail, a) && a.stat != Ok(None) && !Straddled(s.tail, a)
    requires PollWith(repaired, s.tail, a).1.Ok?
    requires ReadsOne(w', s.tail, inc, a) && Detectable(s, inc, a) && Valid(w')
    requires forall i :: i in s.world.text ==> i in w'.text && TextOf(s.world, i) <= TextOf(w', i)
    ensures Inv(Polled(repaired, s, inc, a).(world := w'))
  {
    hide Polled, Delivered, ReadsOne, Detectable, PollWith, Inv;
    ReadOnKeeps(repaired, s, w', inc, a);
    PolledOn(repaired, s, inc, a);
    DeliverInto(s, ReadOnFrom(s, inc, a), w');
  }

  /** How the three cases of the marker account for the lines just read. */
  lemma QueueAfterRead(s: Sys, r: ReadState, s1: Sys)
    requires s.tail.open.Some? && QueueOk(s.tail)
    requires ScreenOk(s.tail, s.screen, s.audit) && ReadingOk(s.tail, s.audit)
    requires s.tail.pending <= r.pending
    requires Lines(s1.audit.read) == Lines(s.audit.read) + r.pending[|s.tail.pending|..]
    requires var due := s.tail.carry == 0 && s.tail.marker;
             s1 == ReadTo(s, s.tail, r, due, s.tail.marker && !due, s1.audit).(world := s1.world)
    requires var inc, read := s1.audit.readInc, s1.audit.read;
             s1.audit == if !s.tail.marker then Audit(inc, read, s.audit.skip, inc, read)
                         else if s.tail.carry == 0 then Audit(inc, read, 0, inc, read)
                         else s.audit.(readInc := inc, read := read)
    ensures ScreenOk(s1.tail, s1.screen, s1.audit)
    ensures s1.tail.marker ==> Unannounced(s1.tail) == Lines(s1.audit.read)
  {
    hide Lines, Erase, Replay, Witness, Forced, CountOk;
    var t, au := s.tail, s.audit;
    var more := r.pending[|t.pending|..];
    PrefixAndRest(t.pending, r.pending);
    if !t.marker {
      Associative(s.screen, t.pending, more);
      DropOfConcat(Lines(au.read), more, au.skip);
    } else if t.carry == 0 {
      assert t.pending[0..] == t.pending;
    } else {
      TakeOfConcat(t.pending, more, t.carry);
      DropOfConcat(t.pending, more, t.carry);
    }
  }

  lemma PrefixAndRest<T>(a: seq<T>, b: seq<T>)
    requires a <= b
    ensures b == a + b[|a|..]
  {
  }

  lemma DropOfConcat<T>(a: seq<T>, b: seq<T>, k: nat)
    requires k <= |a|
    ensures (a + b)[k..] == a[k..] + b
  {
  }

  lemma TakeOfConcat<T>(a: seq<T>, b: seq<T>, k: nat)
    requires k <= |a|
    ensures (a + b)[..k] == a[..k]
  {
  }

  lemma LookKeeps(repaired: bool, s: Sys, w': World, inc: Inc, a: Answers)
    requires Inv(s) && Valid(w') && PollWith(repaired, s.tail, a).1.Ok?
    requires forall i :: i in s.world.text ==> i in w'.text && TextOf(s.world, i) <= TextOf(w', i)
    requires (Switches(s.tail, a) ==> !Merges(s.tail)) && (StaleMarker(s.tail, a) ==> repaired)
    requires Straddled(s.tail, a) || (ReadsOne(w', s.tail, inc, a) && Detectable(s, inc, a))
    ensures Inv(Polled(repaired, s, inc, a).(world := w'))
  {
    hide Inv, Polled, Merges, ReadsOne, Detectable, Detects, Straddled;
    if Straddled(s.tail, a) {
      StraddleKeeps(repaired, s, inc, a);
      WorldMovesOn(Polled(repaired, s, inc, a), s.world, w');
    } else if a.stat == Ok(None) {
      VanishKeeps(repaired, s, inc, a);
      WorldMovesOn(Polled(repaired, s, inc, a), s.world, w');
    } else if Detects(s.tail, a) && s.tail.pending != [] {
      CanReopen(repaired, s.tail, a);
      BacklogKeeps(repaired, s, inc, a);
      WorldMovesOn(Polled(repaired, s, inc, a), s.world, w');
    } else if Detects(s.tail, a) {
      RestartKeeps(repaired, s, w', inc, a);
    } else {
      ContinueKeeps(repaired, s, w', inc, a);
    }
  }

  lemma CanReopen(repaired: bool, t: TailState, a: Answers)
    requires Detects(t, a) && PollWith(repaired, t, a).1.Ok?
    ensures a.reopened.Ok?
  {
    hide ReadOn, ReadSignature;
  }

  lemma StepKeeps(repaired: bool, s: Sys, step: Step)
    requires Inv(s) && StepOk(repaired, s, step)
    ensures Inv(Next(repaired, s, step))
  {
    hide Polled, IncRead, ScreenOk, ReadingOk, Happen, TraceOf, Valid, HappenAll;
    match step
    case Change(e) =>
      OneEventGrows(s.world, e);
      WorldMovesOn(s, s.world, Happen(s.world, e));
    case Look(early, late, a) =>
      TextsGrow(s.world, early + late);
      LookKeeps(repaired, s, HappenAll(s.world, early + late), IncRead(s, early, a), a);
  }

  lemma {:induction false} RunKeeps(repaired: bool, s: Sys, steps: seq<Step>)
    requires Inv(s) && RunOk(repaired, s, steps)
    ensures Inv(Run(repaired, s, steps))
    decreases |steps|
  {
    if steps != [] {
      StepKeeps(repaired, s, steps[0]);
      RunKeeps(repaired, Next(repaired, s, steps[0]), steps[1..]);
    }
  }
}
