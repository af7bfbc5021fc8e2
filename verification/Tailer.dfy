// The rotation-aware log tailer of logs.rs: one poll as a function of what its system calls
// answered, and the imperative `Tailer` proved to compute it.

module TailModel {
  import opened Shared
  import opened Bytes
  import opened Splitter

  const MAX_LINES_PER_POLL: nat := 2000
  const TAIL_PRELOAD_CAP_BYTES: nat := 256 * 1024
  const POLL_BYTE_BUDGET: nat := 1024 * 1024
  const READ_CHUNK_BYTES: nat := 64 * 1024
  const MAX_UNTERMINATED_LINE_BYTES: nat := 1024 * 1024
  const CONTINUITY_SIGNATURE_BYTES: nat := 64

  type Line = seq<Byte>

  /** A device+inode pair, as one number. */
  type Ino = nat

  datatype Io<+T> = Ok(value: T) | Err

  /** An open file: the inode behind the descriptor, and the identity `stat` gave before the open. */
  datatype Handle = Handle(file: Ino, id: Ino)

  datatype TailState = TailState(
    open: Option<Handle>,
    offset: nat,
    signature: seq<Byte>,
    splitter: SplitState,
    unterminated: nat,
    pending: seq<Line>,
    carry: nat,
    marker: bool)

  datatype Stat = Stat(id: Ino, len: nat)

  /** What the system calls of one poll answered, in the order the code makes them. */
  datatype Answers = Answers(
    stat: Io<Option<Stat>>,      // metadata of the path; None is NotFound
    before: Io<seq<Byte>>,       // the open file's bytes when the witness is checked
    reopened: Io<Ino>,           // the inode File::open reached
    seen: seq<Io<seq<Byte>>>,   // the file's bytes as each read of the loop finds them
    after: Io<seq<Byte>>,        // the file's bytes when the witness is checked again
    idAfter: Option<Ino>)        // metadata of the descriptor; None is a failure

  datatype Batch = Batch(lines: seq<Line>, rotated: bool, truncated: bool)

  // ---------------------------------------------------------------- the continuity witness

  /** The last 64 bytes of `bytes`, or all of them when there are fewer. */
  function Witness(bytes: seq<Byte>): seq<Byte> {
    bytes[|bytes| - Min(|bytes|, CONTINUITY_SIGNATURE_BYTES)..]
  }

  /** read_signature: the witness before `offset`; empty when the file no longer reaches it. */
  function ReadSignature(content: seq<Byte>, offset: nat): seq<Byte> {
    if |content| < offset then [] else content[offset - Min(offset, CONTINUITY_SIGNATURE_BYTES)..offset]
  }

  lemma WitnessOfWitness(a: seq<Byte>, b: seq<Byte>)
    ensures Witness(Witness(a) + b) == Witness(a + b)
  {
    assert forall k :: 0 <= k < |Witness(a + b)| ==> Witness(Witness(a) + b)[k] == Witness(a + b)[k];
  }

  lemma ReadSignatureIsWitness(content: seq<Byte>, offset: nat)
    requires offset <= |content|
    ensures ReadSignature(content, offset) == Witness(content[..offset])
  {
  }

  /** update_signature: the two branches both leave the witness of everything read so far. */
  method UpdateSignature(signature: seq<Byte>, chunk: seq<Byte>) returns (updated: seq<Byte>)
    ensures updated == Witness(signature + chunk)
  {
    if |chunk| >= CONTINUITY_SIGNATURE_BYTES {
      updated := chunk[|chunk| - CONTINUITY_SIGNATURE_BYTES..];
      return;
    }
    updated := signature + chunk;
    if |updated| > CONTINUITY_SIGNATURE_BYTES {
      var excess := |updated| - CONTINUITY_SIGNATURE_BYTES;
      updated := updated[excess..];
    }
  }

  // ---------------------------------------------------------------- the read loop

  function Texts(chunks: seq<Chunk>): (lines: seq<Line>)
    ensures |lines| == |chunks|
  {
    if chunks == [] then [] else Texts(chunks[..|chunks| - 1]) + [chunks[|chunks| - 1].text]
  }

  /** The variables the read loop advances. */
  datatype ReadState = ReadState(
    signature: seq<Byte>,
    splitter: SplitState,
    unterminated: nat,
    pending: seq<Line>,
    consumed: nat,
    failed: bool)

  /** What one read hands over: the bytes at the cursor, at most a chunk, never past the budget. */
  function Taken(offset: nat, consumed: nat, content: seq<Byte>): seq<Byte>
    requires consumed <= POLL_BYTE_BUDGET
  {
    var cursor := Min(offset + consumed, |content|);
    content[cursor..][..Min(|content| - cursor, Min(READ_CHUNK_BYTES, POLL_BYTE_BUDGET - consumed))]
  }

  /** Bytes fed since the last emitted line, counted chunk by chunk. */
  function Outstanding(r: ReadState, chunk: seq<Byte>): nat {
    if Feed(r.splitter, chunk).out == [] then r.unterminated + |chunk| else 0
  }

  function ReadChunk(r: ReadState, chunk: seq<Byte>): ReadState {
    var fed := Feed(r.splitter, chunk);
    var outstanding := Outstanding(r, chunk);
    var flushed := if outstanding >= MAX_UNTERMINATED_LINE_BYTES then Finish(fed.state) else Fed(fed.state, []);
    ReadState(
      Witness(r.signature + chunk),
      flushed.state,
      if outstanding >= MAX_UNTERMINATED_LINE_BYTES then 0 else outstanding,
      r.pending + Texts(fed.out) + Texts(flushed.out),
      r.consumed + |chunk|,
      false)
  }

  lemma ChunkCounts(r: ReadState, chunk: seq<Byte>)
    ensures ReadChunk(r, chunk).consumed == r.consumed + |chunk| && !ReadChunk(r, chunk).failed
  {
  }

  /** The loop that starts at byte `offset`; when `seen` runs out the file is at its end. */
  function ReadLoop(r: ReadState, offset: nat, seen: seq<Io<seq<Byte>>>): ReadState
    decreases |seen|
  {
    if r.consumed >= POLL_BYTE_BUDGET || |r.pending| >= MAX_LINES_PER_POLL || seen == [] then r
    else if seen[0].Err? then r.(failed := true)
    else
      var chunk := Taken(offset, r.consumed, seen[0].value);
      if chunk == [] then r else ReadLoop(ReadChunk(r, chunk), offset, seen[1..])
  }

  // ---------------------------------------------------------------- one poll

  function Cap(st: TailState): nat {
    if st.carry > 0 then Min(st.carry, MAX_LINES_PER_POLL) else MAX_LINES_PER_POLL
  }

  /** How many queued lines one batch takes. */
  function Take(st: TailState): nat {
    Min(Cap(st), |st.pending|)
  }

  /** drain_capped: the state left behind. */
  function Drained(st: TailState): TailState {
    var k := Take(st);
    st.(pending := st.pending[k..], carry := if st.carry > k then st.carry - k else 0)
  }

  function Drain(st: TailState, rotated: bool, budgetHit: bool): (TailState, Io<Batch>) {
    var k := Take(st);
    (Drained(st), Ok(Batch(st.pending[..k], rotated, st.pending[k..] != [] || budgetHit)))
  }

  /** The identity or the length alone says the open file was replaced. */
  predicate Moved(st: TailState, stat: Stat) {
    st.open.None? || st.open.value.id != stat.id || stat.len < st.offset
  }

  /** The poll found a file and decided that it is a new incarnation. */
  predicate Detects(st: TailState, a: Answers) {
    && a.stat.Ok? && a.stat.value.Some?
    && (Moved(st, a.stat.value.value)
        || (a.before.Ok? && ReadSignature(a.before.value, st.offset) != st.signature))
  }

  function Reopened(st: TailState, file: Ino, id: Ino): TailState {
    st.(open := Some(Handle(file, id)), offset := 0, signature := [], splitter := INIT, unterminated := 0)
  }

  function LoopStart(st: TailState): ReadState {
    ReadState(st.signature, st.splitter, st.unterminated, st.pending, 0, false)
  }

  predicate Straddles(st: TailState, id: Ino, r: ReadState, a: Answers) {
    && r.consumed > 0
    && a.after.Ok?
    && (ReadSignature(a.after.value, st.offset) != st.signature || a.idAfter != Some(id))
  }

  /** Everything the read advanced, except the cursor. */
  function Advanced(st: TailState, r: ReadState): TailState {
    st.(signature := r.signature, splitter := r.splitter, unterminated := r.unterminated, pending := r.pending)
  }

  /** The undo of a read that straddled a rewrite. */
  function Undone(st: TailState): TailState {
    st.(open := None, offset := 0, signature := [], splitter := INIT, unterminated := 0, marker := true)
  }

  /** Reading, the second witness check, and delivery. `repaired` is explained at `PollWith`. */
  function ReadOn(repaired: bool, st: TailState, detected: bool, id: Ino, a: Answers): (TailState, Io<Batch>) {
    var r := ReadLoop(LoopStart(st), st.offset, a.seen);
    if r.failed || (r.consumed > 0 && a.after.Err?) then (Advanced(st, r), Err)
    else if Straddles(st, id, r, a) then Drain(Undone(st), false, false)
    else
      var due := st.carry == 0 && st.marker;
      var taken := due && (repaired || !detected);
      Drain(Advanced(st, r).(offset := st.offset + r.consumed, marker := st.marker && !taken),
            detected || due, r.consumed >= POLL_BYTE_BUDGET)
  }

  /** The part of poll behind the rotation check. */
  function Continue(repaired: bool, st: TailState, detected: bool, id: Ino, a: Answers): (TailState, Io<Batch>) {
    if !detected then ReadOn(repaired, st, false, id, a)
    else if a.reopened.Err? then (st, Err)
    else
      var renewed := Reopened(st, a.reopened.value, id);
      if st.pending != [] then Drain(renewed.(carry := |st.pending|, marker := true), false, false)
      else ReadOn(repaired, renewed, true, id, a)
  }

  /** One poll. With `repaired` false this is logs.rs as it stands: a poll that detects a rotation
      does not evaluate, and so does not clear, an older marker (`||` short-circuits at line 515).
      With `repaired` true the marker is consumed whenever the batch is flagged. */
  function PollWith(repaired: bool, st: TailState, a: Answers): (TailState, Io<Batch>) {
    if a.stat.Err? then (st, Err)
    else if a.stat.value.None? then Drain(st.(open := None, signature := []), false, false)
    else
      var stat := a.stat.value.value;
      if !Moved(st, stat) && a.before.Err? then (st, Err)
      else Continue(repaired, st, Detects(st, a), stat.id, a)
  }

  function Poll(st: TailState, a: Answers): (TailState, Io<Batch>) {
    PollWith(false, st, a)
  }

  /** How many bytes the poll takes from the file, whatever becomes of them afterwards. */
  function BytesRead(st: TailState, a: Answers): nat {
    if a.stat.Err? || a.stat.value.None? || (!Moved(st, a.stat.value.value) && a.before.Err?) then 0
    else if !Detects(st, a) then ReadLoop(LoopStart(st), st.offset, a.seen).consumed
    else if a.reopened.Err? || st.pending != [] then 0
    else ReadLoop(LoopStart(Reopened(st, a.reopened.value, a.stat.value.value.id)), 0, a.seen).consumed
  }

  /** The inode behind the descriptor that the poll reads from, if it reads at all. */
  function FileRead(st: TailState, a: Answers): Ino {
    if Detects(st, a) && a.reopened.Ok? then a.reopened.value
    else if st.open.Some? then st.open.value.file
    else 0
  }
}

module Tailing {
  import opened Shared
  import opened Bytes
  import opened Splitter
  import opened TailModel

  /** The last `n` of `lines`. */
  function LastLines(lines: seq<Line>, n: nat): seq<Line> {
    lines[|lines| - Min(|lines|, n)..]
  }

  /** What `open` finds in a file: the preloaded lines and the splitter behind them. */
  function Preload(content: seq<Byte>, tailLines: nat): (seq<Line>, SplitState) {
    if tailLines == 0 || content == [] then ([], INIT)
    else
      var start := |content| - Min(|content|, TAIL_PRELOAD_CAP_BYTES);
      var fed := Feed(INIT, content[start..]);
      var lines := Texts(fed.out);
      (LastLines(if start > 0 && lines != [] then lines[1..] else lines, tailLines), fed.state)
  }

  /** `Tailer::open` of a path that names `file`, or of a path that names nothing. */
  function Opened(file: Option<(Ino, seq<Byte>)>, fromEnd: bool, tailLines: nat): TailState {
    var empty := TailState(None, 0, [], INIT, 0, [], 0, false);
    if file.None? then empty
    else
      var (ino, content) := file.value;
      var here := empty.(open := Some(Handle(ino, ino)));
      if !fromEnd then here
      else
        var (lines, splitter) := Preload(content, tailLines);
        here.(offset := |content|, signature := ReadSignature(content, |content|),
              splitter := splitter, pending := lines)
  }

  /** What the system calls of `open` answered. */
  datatype OpenAnswers = OpenAnswers(
    file: Io<Option<Ino>>,       // File::open; None is NotFound
    stat: Io<Stat>,              // metadata of the descriptor
    window: Io<seq<Byte>>,       // the file's bytes when the preload window is read
    mark: Io<seq<Byte>>)         // the file's bytes when the witness is read

  /** `Tailer::open`, for whatever its system calls answer: a missing file is no error; one that has become
      shorter than it was said to be cannot be preloaded. */
  function OpenedWith(a: OpenAnswers, fromEnd: bool, tailLines: nat): Io<TailState> {
    var empty := TailState(None, 0, [], INIT, 0, [], 0, false);
    if a.file.Err? then Err
    else if a.file.value.None? then Ok(empty)
    else if a.stat.Err? then Err
    else
      var len := a.stat.value.len;
      var here := empty.(open := Some(Handle(a.file.value.value, a.stat.value.id)));
      var preloads := tailLines > 0 && len > 0;
      if !fromEnd then Ok(here)
      else if preloads && (a.window.Err? || |a.window.value| < len) then Err
      else if len > 0 && a.mark.Err? then Err
      else
        var (lines, splitter) := if preloads then Preload(a.window.value[..len], tailLines) else ([], INIT);
        Ok(here.(offset := len, signature := if len > 0 then ReadSignature(a.mark.value, len) else [],
                 splitter := splitter, pending := lines))
  }

  /** Appends that land while the log is being opened make no difference: the tailer is that of the file
      as it was when its length was asked for. */
  lemma OpensWhileGrowing(a: OpenAnswers, ino: Ino, content: seq<Byte>, fromEnd: bool, tailLines: nat)
    requires a.file == Ok(Some(ino)) && a.stat == Ok(Stat(ino, |content|))
    requires a.window.Ok? && content <= a.window.value && a.mark.Ok? && content <= a.mark.value
    ensures OpenedWith(a, fromEnd, tailLines) == Ok(Opened(Some((ino, content)), fromEnd, tailLines))
  {
    hide Feed;
    assert a.window.value[..|content|] == content;
    ReadSignatureIsWitness(content, |content|);
    ReadSignatureIsWitness(a.mark.value, |content|);
    assert a.mark.value[..|content|] == content == content[..|content|];
  }

  /** Opening fails exactly when a call fails that it depends on, or the file has become shorter than it was
      said to be before the preload could be read. Otherwise the cursor is at the end or at the beginning as
      asked for, the file opened is the one to be read on, and nothing waits to be announced; of a missing
      file nothing is open. */
  lemma OpensUnless(a: OpenAnswers, fromEnd: bool, tailLines: nat)
    ensures OpenedWith(a, fromEnd, tailLines).Err?
            <==> a.file.Err? || (a.file.value.Some? &&
                   (a.stat.Err? || (fromEnd && a.stat.value.len > 0 &&
                      (a.mark.Err? || (tailLines > 0 && (a.window.Err? || |a.window.value| < a.stat.value.len))))))
    ensures OpenedWith(a, fromEnd, tailLines).Ok? ==>
              var t := OpenedWith(a, fromEnd, tailLines).value;
              && t.carry == 0 && !t.marker && t.unterminated == 0 && |t.pending| <= tailLines
              && (fromEnd && a.file.value.Some? ==> t.offset == a.stat.value.len)
              && (!fromEnd || a.file.value.None? ==> t.offset == 0 && t.pending == [] && t.splitter == INIT)
              && t.open == match a.file.value case None => None case Some(file) => Some(Handle(file, a.stat.value.id))
  {
    hide Feed, Texts, ReadSignature;
  }

  /** logs.rs `Tailer`: the fields that poll updates in place. */
  class Tailer {
    var open: Option<Handle>
    var offset: nat
    var signature: seq<Byte>
    const splitter: ChunkSplitter
    var unterminated: nat
    var pending: seq<Line>
    var carry: nat
    var pendingRotation: bool

    ghost function State(): TailState
      reads this, splitter
    {
      TailState(open, offset, signature, splitter.State(), unterminated, pending, carry, pendingRotation)
    }

    /** The struct literal at the end of `open`. */
    constructor (open: Option<Handle>, offset: nat, signature: seq<Byte>, splitter: ChunkSplitter, pending: seq<Line>)
      ensures this.splitter == splitter
      ensures State() == TailState(open, offset, signature, splitter.State(), 0, pending, 0, false)
    {
      this.open, this.offset, this.signature, this.splitter, this.pending := open, offset, signature, splitter, pending;
      unterminated, carry, pendingRotation := 0, 0, false;
    }

    /** `open`: `fromEnd` preloads the last `tailLines` lines. */
    static method Open(a: OpenAnswers, fromEnd: bool, tailLines: nat) returns (result: Io<Tailer>)
      ensures result.Ok? <==> OpenedWith(a, fromEnd, tailLines).Ok?
      ensures result.Ok? ==>
                && fresh(result.value) && fresh(result.value.splitter)
                && result.value.State() == OpenedWith(a, fromEnd, tailLines).value
    {
      hide Feed;
      if a.file.Err? {
        return Err;
      }
      var open, offset, signature, pending := None, 0, [], [];
      var splitter := new ChunkSplitter();
      if a.file.value.Some? {
        if a.stat.Err? {
          return Err;
        }
        var len := a.stat.value.len;
        if fromEnd {
          offset := len;
          if tailLines > 0 && len > 0 {
            if a.window.Err? || |a.window.value| < len {
              return Err;
            }
            var start := len - Min(len, TAIL_PRELOAD_CAP_BYTES);
            var chunks := splitter.PushWith(a.window.value[..len][start..]);
            var lines := Texts(chunks);
            if start > 0 && lines != [] {
              lines := lines[1..];
            }
            if |lines| > tailLines {
              lines := lines[|lines| - tailLines..];
            }
            pending := lines;
          }
          if len > 0 {
            if a.mark.Err? {
              return Err;
            }
            signature := ReadSignature(a.mark.value, offset);
          }
        }
        open := Some(Handle(a.file.value.value, a.stat.value.id));
      }
      var tailer := new Tailer(open, offset, signature, splitter, pending);
      result := Ok(tailer);
    }

    method ResetSplitter()
      modifies splitter
      ensures splitter.State() == INIT
    {
      splitter.buf, splitter.pendingCr := [], false;
    }

    /** Start over at byte 0 of the file just opened, with an empty splitter. */
    method Reopen(file: Ino, id: Ino)
      modifies this, splitter
      ensures State() == Reopened(old(State()), file, id)
    {
      open, offset, signature := Some(Handle(file, id)), 0, [];
      ResetSplitter();
      unterminated := 0;
    }

    /** drain_capped: pop lines off the front until the cap or the end of the queue. */
    method DrainCapped() returns (lines: seq<Line>, truncated: bool)
      modifies `pending, `carry
      ensures lines == old(pending)[..Take(old(State()))]
      ensures pending == old(pending)[Take(old(State()))..]
      ensures carry == Drained(old(State())).carry
      ensures truncated == (pending != [])
    {
      var cap := if carry > 0 then Min(carry, MAX_LINES_PER_POLL) else MAX_LINES_PER_POLL;
      ghost var queued := pending;
      lines := [];
      while |lines| < cap && pending != []
        invariant |lines| <= cap && |lines| <= |queued|
        invariant lines == queued[..|lines|] && pending == queued[|lines|..]
        modifies `pending
      {
        lines, pending := lines + [pending[0]], pending[1..];
      }
      carry := if carry > |lines| then carry - |lines| else 0;
      truncated := pending != [];
    }

    /** The batch of the lines drain_capped takes; every return of poll ends here. */
    method Deliver(rotated: bool, budgetHit: bool) returns (result: Io<Batch>)
      modifies `pending, `carry
      ensures (State(), result) == Drain(old(State()), rotated, budgetHit)
    {
      var lines, truncated := DrainCapped();
      result := Ok(Batch(lines, rotated, truncated || budgetHit));
    }

    /** The loop's variables as a value. */
    ghost function Reading(consumed: nat): ReadState
      reads this, splitter
    {
      ReadState(signature, splitter.State(), unterminated, pending, consumed, false)
    }

    /** What one read of the loop does with the bytes it got. */
    method Absorb(chunk: seq<Byte>, ghost consumed: nat)
      modifies this, splitter
      ensures State() == Advanced(old(State()), ReadChunk(old(Reading(consumed)), chunk))
    {
      hide Feed, Finish, Witness;
      signature := UpdateSignature(signature, chunk);
      var chunks := splitter.PushWith(chunk);
      pending := pending + Texts(chunks);
      if chunks == [] {
        unterminated := unterminated + |chunk|;
      } else {
        unterminated := 0;
      }
      var rest := [];
      if unterminated >= MAX_UNTERMINATED_LINE_BYTES {
        rest := splitter.FinishWith();
        unterminated := 0;
      }
      pending := pending + Texts(rest);
    }

    /** The budgeted read loop. */
    method ReadSome(seen: seq<Io<seq<Byte>>>) returns (consumed: nat, failed: bool)
      modifies this, splitter
      ensures var r := ReadLoop(LoopStart(old(State())), old(offset), seen);
              State() == Advanced(old(State()), r) && consumed == r.consumed && failed == r.failed
    {
      hide ReadChunk;
      consumed, failed := 0, false;
      var i := 0;
      while consumed < POLL_BYTE_BUDGET && |pending| < MAX_LINES_PER_POLL && i < |seen|
        invariant i <= |seen|
        invariant State() == Advanced(old(State()), Reading(consumed))
        invariant ReadLoop(Reading(consumed), offset, seen[i..]) == ReadLoop(LoopStart(old(State())), offset, seen)
        decreases |seen| - i
      {
        ghost var r := Reading(consumed);
        if seen[i].Err? {
          failed := true;
          return;
        }
        var chunk := Taken(offset, consumed, seen[i].value);
        if |chunk| == 0 {
          return;
        }
        Absorb(chunk, consumed);
        ChunkCounts(r, chunk);
        consumed := consumed + |chunk|;
        assert Reading(consumed) == ReadChunk(r, chunk);
        assert seen[i..][1..] == seen[i + 1..];
        i := i + 1;
      }
    }

    /** logs.rs `poll`. */
    method Poll(a: Answers) returns (result: Io<Batch>)
      modifies this, splitter
      ensures (State(), result) == TailModel.Poll(old(State()), a)
    {
      hide TailModel.ReadOn, TailModel.Continue, ReadSignature, ReadLoop, Take, Drained;
      ghost var was := State();
      if a.stat.Err? {
        return Err;
      }
      if a.stat.value.None? {
        open, signature := None, [];
        assert State() == was.(open := None, signature := []);
        result := Deliver(false, false);
        return;
      }
      var stat := a.stat.value.value;
      var moved := open.None? || open.value.id != stat.id || stat.len < offset;
      if !moved && a.before.Err? {
        return Err;
      }
      var rotated := moved || ReadSignature(a.before.value, offset) != signature;
      result := Proceed(rotated, stat.id, a);
    }

    /** poll behind the rotation check: start over if need be, then read on. */
    method Proceed(rotated: bool, id: Ino, a: Answers) returns (result: Io<Batch>)
      modifies this, splitter
      ensures (State(), result) == Continue(false, old(State()), rotated, id, a)
    {
      hide TailModel.ReadOn, ReadLoop, Take, Drained;
      if rotated {
        if a.reopened.Err? {
          return Err;
        }
        var backlog := pending != [];
        Reopen(a.reopened.value, id);
        if backlog {
          carry, pendingRotation := |pending|, true;
          result := Deliver(false, false);
          return;
        }
      }
      result := ReadOn(rotated, id, a);
    }

    /** The second half of poll: read, check the witness again, undo or advance, deliver. */
    method ReadOn(detected: bool, id: Ino, a: Answers) returns (result: Io<Batch>)
      modifies this, splitter
      ensures (State(), result) == TailModel.ReadOn(false, old(State()), detected, id, a)
    {
      hide ReadLoop, ReadSignature, Take, Drained;
      var offsetBefore, signatureBefore, pendingBefore := offset, signature, |pending|;
      ghost var entry := State();
      LoopKeepsQueue(LoopStart(entry), offset, a.seen);
      var consumed, failed := ReadSome(a.seen);
      if failed {
        return Err;
      }
      if consumed > 0 {
        if a.after.Err? {
          return Err;
        }
        if ReadSignature(a.after.value, offsetBefore) != signatureBefore || a.idAfter != Some(id) {
          pending := pending[..pendingBefore];
          ResetSplitter();
          unterminated, open, offset, signature, pendingRotation := 0, None, 0, [], true;
          assert State() == Undone(entry);
          result := Deliver(false, false);
          return;
        }
      }
      offset := offset + consumed;
      var budgetHit := consumed >= POLL_BYTE_BUDGET;
      var rotated := detected;
      if !rotated && carry == 0 {
        rotated := pendingRotation;
        pendingRotation := false;
      }
      result := Deliver(rotated, budgetHit);
    }
  }

  /** The read loop only appends to the queue, so truncating to the old length restores it. */
  lemma {:induction false} LoopKeepsQueue(r: ReadState, offset: nat, seen: seq<Io<seq<Byte>>>)
    ensures r.pending <= ReadLoop(r, offset, seen).pending
    decreases |seen|
  {
    if r.consumed >= POLL_BYTE_BUDGET || |r.pending| >= MAX_LINES_PER_POLL || seen == [] || seen[0].Err? {
    } else {
      var chunk := Taken(offset, r.consumed, seen[0].value);
      if chunk != [] {
        LoopKeepsQueue(ReadChunk(r, chunk), offset, seen[1..]);
      }
    }
  }
}
