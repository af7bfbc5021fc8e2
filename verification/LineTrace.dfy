// What the tailer's splitter has seen, as a trace: file bytes with the forced breaks between them.

module LineTrace {
  import opened Shared
  import opened Bytes
  import opened Splitter
  import opened TailModel

  /** One thing that happened to the splitter: a byte of the file, the flush of an over-long partial line, or
      the place at which a log was entered with an empty splitter, whatever line was being written there. */
  datatype Ev = Data(b: Byte) | Break | Cut

  function Plain(bytes: seq<Byte>): (evs: seq<Ev>)
    ensures |evs| == |bytes|
  {
    if bytes == [] then [] else Plain(bytes[..|bytes| - 1]) + [Data(bytes[|bytes| - 1])]
  }

  /** The file bytes of a trace. */
  function Erase(evs: seq<Ev>): seq<Byte> {
    if evs == [] then []
    else Erase(evs[..|evs| - 1]) + if evs[|evs| - 1].Data? then [evs[|evs| - 1].b] else []
  }

  function StepEv(s: SplitState, e: Ev): Fed {
    match e
    case Data(b) => StepByte(s, b)
    case Break => Finish(s)
    case Cut => Finish(s)
  }

  function Replay(evs: seq<Ev>): Fed {
    if evs == [] then Fed(INIT, [])
    else
      var before := Replay(evs[..|evs| - 1]);
      var last := StepEv(before.state, evs[|evs| - 1]);
      Fed(last.state, before.out + last.out)
  }

  /** The lines a trace completes. */
  function Lines(evs: seq<Ev>): seq<Line> {
    Texts(Replay(evs).out)
  }

  lemma {:induction false} EraseConcat(x: seq<Ev>, y: seq<Ev>)
    ensures Erase(x + y) == Erase(x) + Erase(y)
  {
    if y == [] {
      assert x + y == x;
    } else {
      EraseConcat(x, y[..|y| - 1]);
      assert (x + y)[..|x + y| - 1] == x + y[..|y| - 1];
    }
  }

  lemma {:induction false} ErasePlain(bytes: seq<Byte>)
    ensures Erase(Plain(bytes)) == bytes
  {
    if bytes != [] {
      var init := bytes[..|bytes| - 1];
      ErasePlain(init);
      assert Plain(bytes)[..|bytes| - 1] == Plain(init);
    }
  }

  lemma {:induction false} ReplayPlain(evs: seq<Ev>, bytes: seq<Byte>)
    ensures var before := Replay(evs);
            var fed := Feed(before.state, bytes);
            Replay(evs + Plain(bytes)) == Fed(fed.state, before.out + fed.out)
  {
    if bytes == [] {
      assert evs + Plain(bytes) == evs;
    } else {
      var init, b := bytes[..|bytes| - 1], bytes[|bytes| - 1];
      ReplayPlain(evs, init);
      var all := evs + Plain(bytes);
      assert all[..|all| - 1] == evs + Plain(init) && all[|all| - 1] == Data(b);
      var fed := Feed(Replay(evs).state, init);
      Associative(Replay(evs).out, fed.out, StepByte(fed.state, b).out);
    }
  }

  lemma ReplayBreak(evs: seq<Ev>)
    ensures var before := Replay(evs);
            var fed := Finish(before.state);
            Replay(evs + [Break]) == Fed(fed.state, before.out + fed.out)
  {
    assert (evs + [Break])[..|evs + [Break]| - 1] == evs;
  }

  /** Without breaks a trace is just the splitter fed with the bytes. */
  lemma ReplayOfPlain(bytes: seq<Byte>)
    ensures Replay(Plain(bytes)) == Feed(INIT, bytes)
  {
    ReplayPlain([], bytes);
    assert [] + Plain(bytes) == Plain(bytes);
  }

  lemma {:induction false} TextsConcat(x: seq<Chunk>, y: seq<Chunk>)
    ensures Texts(x + y) == Texts(x) + Texts(y)
  {
    if y == [] {
      assert x + y == x;
    } else {
      var init, last := y[..|y| - 1], y[|y| - 1];
      SnocOfConcat(x, y);
      TextsConcat(x, init);
      Associative(Texts(x), Texts(init), [last.text]);
    }
  }

  lemma SnocOfConcat<T>(x: seq<T>, y: seq<T>)
    requires y != []
    ensures (x + y)[..|x + y| - 1] == x + y[..|y| - 1] && (x + y)[|x + y| - 1] == y[|y| - 1]
  {
  }

  lemma TextsOne(c: Chunk)
    ensures Texts([c]) == [c.text]
  {
    assert [c][..0] == [];
  }

  // ---------------------------------------------------------------- the bytes of the lines

  /** `bytes` without its delimiters. */
  function Undelimited(bytes: seq<Byte>): seq<Byte> {
    if bytes == [] then []
    else Undelimited(bytes[..|bytes| - 1])
         + if IsDelimiter(bytes[|bytes| - 1]) then [] else [bytes[|bytes| - 1]]
  }

  function Joined(lines: seq<Line>): seq<Byte> {
    if lines == [] then [] else Joined(lines[..|lines| - 1]) + lines[|lines| - 1]
  }

  lemma {:induction false} JoinedConcat(x: seq<Line>, y: seq<Line>)
    ensures Joined(x + y) == Joined(x) + Joined(y)
  {
    if y == [] {
      assert x + y == x;
    } else {
      JoinedConcat(x, y[..|y| - 1]);
      assert (x + y)[..|x + y| - 1] == x + y[..|y| - 1];
      Associative(Joined(x), Joined(y[..|y| - 1]), y[|y| - 1]);
    }
  }

  lemma JoinedOne(line: Line)
    ensures Joined([line]) == line
  {
    assert [line][..0] == [];
  }

  lemma StepJoins(s: SplitState, e: Ev)
    ensures var last := StepEv(s, e);
            Joined(Texts(last.out)) + last.state.buf
            == s.buf + if e.Data? && !IsDelimiter(e.b) then [e.b] else []
  {
    hide Texts, Joined;
    NoLines();
    var none: seq<Chunk> := [];
    assert none + [Chunk(s.buf, Lf)] == [Chunk(s.buf, Lf)];
    JoinedOne(s.buf);
    JoinedOne([]);
    JoinedConcat([s.buf], [[]]);
    TextsOne(Chunk(s.buf, Cr));
    TextsOne(Chunk(s.buf, Lf));
    TextsOne(Chunk(s.buf, Eof));
    TextsOne(Chunk([], Lf));
    TextsConcat([Chunk(s.buf, Cr)], [Chunk([], Lf)]);
  }

  lemma NoLines()
    ensures Texts([]) == [] && Joined([]) == []
  {
  }

  /** Forced breaks or not, the completed lines and the partial one hold exactly the file's
      bytes that are not delimiters, in order. */
  lemma {:induction false} LinesHoldEveryByte(evs: seq<Ev>)
    ensures Joined(Lines(evs)) + Replay(evs).state.buf == Undelimited(Erase(evs))
  {
    if evs != [] {
      var init, e := evs[..|evs| - 1], evs[|evs| - 1];
      LinesHoldEveryByte(init);
      var before := Replay(init);
      var last := StepEv(before.state, e);
      StepJoins(before.state, e);
      TextsConcat(before.out, last.out);
      JoinedConcat(Texts(before.out), Texts(last.out));
      Associative(Joined(Texts(before.out)), Joined(Texts(last.out)), last.state.buf);
      var added: seq<Byte> := if e.Data? && !IsDelimiter(e.b) then [e.b] else [];
      Associative(Joined(Texts(before.out)), before.state.buf, added);
      if e.Data? {
        var all := Erase(evs);
        assert all[..|all| - 1] == Erase(init) && all[|all| - 1] == e.b;
      } else {
        assert Erase(evs) == Erase(init);
      }
    }
  }

  // ---------------------------------------------------------------- forced breaks

  /** If a line is broken at `i`, at least 1 MiB of it is held back. */
  predicate BreaksLate(evs: seq<Ev>, i: nat)
    requires i < |evs|
  {
    evs[i].Break? ==> |Held(Replay(evs[..i]).state)| >= 1048576
  }

  predicate Forced(evs: seq<Ev>) {
    forall i: nat :: i < |evs| ==> BreaksLate(evs, i)
  }

  /** The text was read from its beginning. */
  predicate NoCut(evs: seq<Ev>) {
    forall i :: 0 <= i < |evs| ==> !evs[i].Cut?
  }

  /** Nothing but file bytes. */
  predicate Unbroken(evs: seq<Ev>) {
    forall i :: 0 <= i < |evs| ==> evs[i].Data?
  }

  /** The counter never runs ahead of the bytes the splitter holds back. */
  predicate CountOk(unterminated: nat, s: SplitState) {
    unterminated <= |Held(s)|
  }

  lemma {:induction false} PlainUnbroken(bytes: seq<Byte>)
    ensures Unbroken(Plain(bytes))
  {
    if bytes != [] {
      PlainUnbroken(bytes[..|bytes| - 1]);
    }
  }

  lemma ForcedData(evs: seq<Ev>, bytes: seq<Byte>)
    requires Forced(evs)
    ensures Forced(evs + Plain(bytes))
  {
    hide Replay, Held;
    PlainUnbroken(bytes);
    var all := evs + Plain(bytes);
    forall i: nat | i < |all|
      ensures BreaksLate(all, i)
    {
      if i < |evs| {
        assert BreaksLate(evs, i) && all[..i] == evs[..i];
      }
    }
  }

  lemma ForcedBreak(evs: seq<Ev>)
    requires Forced(evs) && |Held(Replay(evs).state)| >= MAX_UNTERMINATED_LINE_BYTES
    ensures Forced(evs + [Break])
  {
    hide Replay, Held;
    var all := evs + [Break];
    forall i: nat | i < |all|
      ensures BreaksLate(all, i)
    {
      assert all[..i] == if i < |evs| then evs[..i] else evs;
      assert i < |evs| ==> BreaksLate(evs, i);
    }
  }

  /** A push that emits nothing holds back every byte it was given. */
  lemma {:induction false} SilentPush(s: SplitState, bytes: seq<Byte>)
    requires Feed(s, bytes).out == []
    ensures |Held(Feed(s, bytes).state)| == |Held(s)| + |bytes|
  {
    if bytes != [] {
      SilentPush(s, bytes[..|bytes| - 1]);
    }
  }

  // ---------------------------------------------------------------- the read loop leaves a trace

  predicate Breaks(r: ReadState, chunk: seq<Byte>) {
    Outstanding(r, chunk) >= MAX_UNTERMINATED_LINE_BYTES
  }

  function ChunkTrace(r: ReadState, chunk: seq<Byte>): seq<Ev> {
    Plain(chunk) + if Breaks(r, chunk) then [Break] else []
  }

  /** The trace the read loop adds. */
  function LoopTrace(r: ReadState, offset: nat, seen: seq<Io<seq<Byte>>>): seq<Ev>
    decreases |seen|
  {
    if r.consumed >= POLL_BYTE_BUDGET || |r.pending| >= MAX_LINES_PER_POLL || seen == [] then []
    else if seen[0].Err? then []
    else
      var chunk := Taken(offset, r.consumed, seen[0].value);
      if chunk == [] then []
      else ChunkTrace(r, chunk) + LoopTrace(ReadChunk(r, chunk), offset, seen[1..])
  }

  /** `r` is what the splitter, the queue and the witness look like after the trace `evs`, when the
      trace had completed `done` at the moment the queue was `queued`. */
  predicate Traces(evs: seq<Ev>, r: ReadState, done: seq<Line>, queued: seq<Line>) {
    && Replay(evs).state == r.splitter
    && r.signature == Witness(Erase(evs))
    && QueueTraces(evs, r.pending, done, queued)
    && Forced(evs) && CountOk(r.unterminated, r.splitter)
  }

  predicate QueueTraces(evs: seq<Ev>, pending: seq<Line>, done: seq<Line>, queued: seq<Line>) {
    queued <= pending && Lines(evs) == done + pending[|queued|..]
  }

  lemma QueueGrows(evs: seq<Ev>, evs': seq<Ev>, pending: seq<Line>, more: seq<Line>, done: seq<Line>, queued: seq<Line>)
    requires QueueTraces(evs, pending, done, queued)
    requires Lines(evs') == Lines(evs) + more
    ensures QueueTraces(evs', pending + more, done, queued)
  {
    assert (pending + more)[|queued|..] == pending[|queued|..] + more;
    Associative(done, pending[|queued|..], more);
  }

  lemma DataTraced(evs: seq<Ev>, s: SplitState, chunk: seq<Byte>)
    requires Replay(evs).state == s
    ensures var fed := Feed(s, chunk);
            && Replay(evs + Plain(chunk)).state == fed.state
            && Lines(evs + Plain(chunk)) == Lines(evs) + Texts(fed.out)
            && Erase(evs + Plain(chunk)) == Erase(evs) + chunk
  {
    var fed := Feed(s, chunk);
    ReplayPlain(evs, chunk);
    TextsConcat(Replay(evs).out, fed.out);
    EraseConcat(evs, Plain(chunk));
    ErasePlain(chunk);
  }

  lemma BreakTraced(evs: seq<Ev>)
    ensures var fed := Finish(Replay(evs).state);
            && Replay(evs + [Break]).state == fed.state
            && Lines(evs + [Break]) == Lines(evs) + Texts(fed.out)
            && Erase(evs + [Break]) == Erase(evs)
  {
    var fed := Finish(Replay(evs).state);
    ReplayBreak(evs);
    TextsConcat(Replay(evs).out, fed.out);
    assert (evs + [Break])[..|evs + [Break]| - 1] == evs;
  }

  lemma ChunkTraced(evs: seq<Ev>, r: ReadState, done: seq<Line>, queued: seq<Line>, chunk: seq<Byte>)
    requires Traces(evs, r, done, queued)
    ensures Traces(evs + ChunkTrace(r, chunk), ReadChunk(r, chunk), done, queued)
    ensures Erase(evs + ChunkTrace(r, chunk)) == Erase(evs) + chunk
  {
    hide Feed, Finish, Replay, Erase, Lines, Witness, Plain, Forced, Held;
    var data := evs + Plain(chunk);
    var fed := Feed(r.splitter, chunk);
    DataTraced(evs, r.splitter, chunk);
    WitnessOfWitness(Erase(evs), chunk);
    QueueGrows(evs, data, r.pending, Texts(fed.out), done, queued);
    ForcedData(evs, chunk);
    if fed.out == [] {
      SilentPush(r.splitter, chunk);
    }
    var next := ReadChunk(r, chunk);
    assert next.signature == Witness(Erase(data));
    if Breaks(r, chunk) {
      BreakTraced(data);
      ForcedBreak(data);
      QueueGrows(data, data + [Break], r.pending + Texts(fed.out), Texts(Finish(fed.state).out), done, queued);
      Associative(evs, Plain(chunk), [Break]);
    } else {
      assert next.pending == r.pending + Texts(fed.out) + Texts([]);
      assert Plain(chunk) + [] == Plain(chunk);
    }
  }

  lemma TakenIsSlice(offset: nat, consumed: nat, content: seq<Byte>, hi: seq<Byte>)
    requires consumed <= POLL_BYTE_BUDGET && offset + consumed <= |hi| && content <= hi
    ensures var cursor, chunk := offset + consumed, Taken(offset, consumed, content);
            cursor + |chunk| <= |hi| && hi[..cursor] + chunk == hi[..cursor + |chunk|]
  {
    var cursor, chunk := offset + consumed, Taken(offset, consumed, content);
    assert forall k :: 0 <= k < |chunk| ==> chunk[k] == content[cursor + k] == hi[cursor + k];
  }

  /** What the read loop may rely on: every read finds a prefix of `hi`. */
  predicate Prefixes(seen: seq<Io<seq<Byte>>>, hi: seq<Byte>) {
    forall i :: 0 <= i < |seen| ==> seen[i].Ok? && seen[i].value <= hi
  }

  /** Every byte the loop takes is the file's byte at the cursor. */
  lemma {:induction false} LoopTraced(
      evs: seq<Ev>, r: ReadState, done: seq<Line>, queued: seq<Line>, offset: nat, seen: seq<Io<seq<Byte>>>,
      hi: seq<Byte>)
    requires Traces(evs, r, done, queued) && Prefixes(seen, hi)
    requires offset + r.consumed <= |hi| && Erase(evs) == hi[..offset + r.consumed]
    ensures var r' := ReadLoop(r, offset, seen);
            var evs' := evs + LoopTrace(r, offset, seen);
            && Traces(evs', r', done, queued)
            && (r.failed || !r'.failed)
            && r.consumed <= r'.consumed
            && offset + r'.consumed <= |hi| && Erase(evs') == hi[..offset + r'.consumed]
            && (r'.consumed == r.consumed ==> evs' == evs)
    decreases |seen|
  {
    hide Feed, Finish, Replay, Erase, Lines, Witness, Plain, ChunkTrace, Forced, CountOk;
    if r.consumed >= POLL_BYTE_BUDGET || |r.pending| >= MAX_LINES_PER_POLL || seen == [] {
      assert evs + LoopTrace(r, offset, seen) == evs;
    } else {
      var chunk := Taken(offset, r.consumed, seen[0].value);
      if chunk == [] {
        assert evs + LoopTrace(r, offset, seen) == evs;
      } else {
        ChunkTraced(evs, r, done, queued, chunk);
        TakenIsSlice(offset, r.consumed, seen[0].value, hi);
        LoopTraced(evs + ChunkTrace(r, chunk), ReadChunk(r, chunk), done, queued, offset, seen[1..], hi);
        Associative(evs, ChunkTrace(r, chunk), LoopTrace(ReadChunk(r, chunk), offset, seen[1..]));
      }
    }
  }

  /** Reading never cuts. */
  lemma {:induction false} LoopNoCut(r: ReadState, offset: nat, seen: seq<Io<seq<Byte>>>)
    ensures NoCut(LoopTrace(r, offset, seen))
    decreases |seen|
  {
    hide ReadChunk;
    if r.consumed >= POLL_BYTE_BUDGET || |r.pending| >= MAX_LINES_PER_POLL || seen == [] || seen[0].Err? {
    } else {
      var chunk := Taken(offset, r.consumed, seen[0].value);
      if chunk != [] {
        PlainUnbroken(chunk);
        LoopNoCut(ReadChunk(r, chunk), offset, seen[1..]);
      }
    }
  }
}
