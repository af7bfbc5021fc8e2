// The byte splitter of process.rs: a stream of bytes is cut at LF, CR and CRLF.

module Bytes {
  type Byte = b: int | 0 <= b < 256

  const LF: Byte := 10
  const CR: Byte := 13

  predicate IsDelimiter(b: Byte) {
    b == LF || b == CR
  }

  function Min(a: nat, b: nat): nat {
    if a <= b then a else b
  }
}

module Splitter {
  import opened Shared
  import opened Bytes

  /** How a chunk ended: LF (or CRLF), a bare CR, or the end of the stream. */
  datatype ChunkEnd = Lf | Cr | Eof

  datatype Chunk = Chunk(text: seq<Byte>, end: ChunkEnd)

  datatype SplitState = SplitState(buf: seq<Byte>, pendingCr: bool)

  /** The splitter's state after some input, with everything emitted on the way. */
  datatype Fed = Fed(state: SplitState, out: seq<Chunk>)

  const INIT := SplitState([], false)

  /** The body of push_with's loop for one byte. */
  function StepByte(s: SplitState, b: Byte): Fed {
    if s.pendingCr && b == LF then Fed(INIT, [Chunk(s.buf, Lf)])
    else
      var out := if s.pendingCr then [Chunk(s.buf, Cr)] else [];
      var buf := if s.pendingCr then [] else s.buf;
      if b == LF then Fed(INIT, out + [Chunk(buf, Lf)])
      else if b == CR then Fed(SplitState(buf, true), out)
      else Fed(SplitState(buf + [b], false), out)
  }

  /** push_with: feed `bytes` from the left, starting in state `s`. */
  function Feed(s: SplitState, bytes: seq<Byte>): Fed {
    if bytes == [] then Fed(s, [])
    else
      var before := Feed(s, bytes[..|bytes| - 1]);
      var last := StepByte(before.state, bytes[|bytes| - 1]);
      Fed(last.state, before.out + last.out)
  }

  /** finish_with: what is flushed at the end of the stream. */
  function Finish(s: SplitState): Fed {
    if s.pendingCr then Fed(INIT, [Chunk(s.buf, Cr)])
    else if s.buf != [] then Fed(INIT, [Chunk(s.buf, Eof)])
    else Fed(s, [])
  }

  /** All chunks of a complete stream: push everything, then finish. */
  function Split(bytes: seq<Byte>): seq<Chunk> {
    var fed := Feed(INIT, bytes);
    fed.out + Finish(fed.state).out
  }

  /** process.rs `ChunkSplitter`: the two fields, updated byte by byte. */
  class ChunkSplitter {
    var buf: seq<Byte>
    var pendingCr: bool

    ghost function State(): SplitState
      reads this
    {
      SplitState(buf, pendingCr)
    }

    constructor ()
      ensures State() == INIT
    {
      buf, pendingCr := [], false;
    }

    method Take() returns (text: seq<Byte>)
      modifies this`buf
      ensures text == old(buf) && buf == []
    {
      text := buf;
      buf := [];
    }

    method PushWith(bytes: seq<Byte>) returns (out: seq<Chunk>)
      modifies this
      ensures Fed(State(), out) == Feed(old(State()), bytes)
    {
      out := [];
      for i := 0 to |bytes|
        invariant Fed(State(), out) == Feed(old(State()), bytes[..i])
      {
        assert bytes[..i + 1][..i] == bytes[..i];
        var b := bytes[i];
        if pendingCr {
          pendingCr := false;
          if b == LF {
            var line := Take();
            out := out + [Chunk(line, Lf)];
            continue;
          }
          var line := Take();
          out := out + [Chunk(line, Cr)];
        }
        if b == LF {
          var line := Take();
          out := out + [Chunk(line, Lf)];
        } else if b == CR {
          pendingCr := true;
        } else {
          buf := buf + [b];
        }
      }
      assert bytes[..|bytes|] == bytes;
    }

    method FinishWith() returns (out: seq<Chunk>)
      modifies this
      ensures Fed(State(), out) == Finish(old(State()))
    {
      out := [];
      if pendingCr {
        pendingCr := false;
        var line := Take();
        out := [Chunk(line, Cr)];
      } else if buf != [] {
        var line := Take();
        out := [Chunk(line, Eof)];
      }
    }
  }

  // ---------------------------------------------------------------- cut independence

  /** However the input is cut into two pushes, the chunks and the state are the same. */
  lemma {:induction false} CutIndependent(s: SplitState, a: seq<Byte>, b: seq<Byte>)
    ensures var first := Feed(s, a);
            var second := Feed(first.state, b);
            Feed(s, a + b) == Fed(second.state, first.out + second.out)
  {
    if b == [] {
      assert a + b == a;
    } else {
      var init := b[..|b| - 1];
      CutIndependent(s, a, init);
      assert (a + b)[..|a + b| - 1] == a + init;
    }
  }

  // ---------------------------------------------------------------- print-back

  /** The input with every CRLF pair written as a single LF. */
  function Normalised(bytes: seq<Byte>): seq<Byte> {
    var n := |bytes|;
    if n == 0 then []
    else if n >= 2 && bytes[n - 2] == CR && bytes[n - 1] == LF then Normalised(bytes[..n - 2]) + [LF]
    else Normalised(bytes[..n - 1]) + [bytes[n - 1]]
  }

  function Terminator(end: ChunkEnd): seq<Byte> {
    match end
    case Lf => [LF]
    case Cr => [CR]
    case Eof => []
  }

  function PrintChunk(c: Chunk): seq<Byte> {
    c.text + Terminator(c.end)
  }

  /** What a faithful passthrough writes for these chunks. */
  function PrintChunks(chunks: seq<Chunk>): seq<Byte> {
    if chunks == [] then [] else PrintChunks(chunks[..|chunks| - 1]) + PrintChunk(chunks[|chunks| - 1])
  }

  /** The bytes a splitter state still holds back. */
  function Held(s: SplitState): seq<Byte> {
    s.buf + if s.pendingCr then [CR] else []
  }

  predicate DelimiterFree(bytes: seq<Byte>) {
    forall i :: 0 <= i < |bytes| ==> !IsDelimiter(bytes[i])
  }

  lemma {:induction false} PrintConcat(x: seq<Chunk>, y: seq<Chunk>)
    ensures PrintChunks(x + y) == PrintChunks(x) + PrintChunks(y)
  {
    if y == [] {
      assert x + y == x;
    } else {
      var init, last := y[..|y| - 1], y[|y| - 1];
      PrintConcat(x, init);
      assert (x + y)[..|x + y| - 1] == x + init && (x + y)[|x + y| - 1] == last;
      Associative(PrintChunks(x), PrintChunks(init), PrintChunk(last));
    }
  }

  lemma SnocInjective<T>(a: seq<T>, b: seq<T>, x: T)
    requires a + [x] == b + [x]
    ensures a == b
  {
    assert a == (a + [x])[..|a + [x]| - 1] && b == (b + [x])[..|b + [x]| - 1];
  }

  lemma PrintOne(c: Chunk)
    ensures PrintChunks([c]) == PrintChunk(c)
  {
    assert [c][..0] == [];
  }

  /** One byte extends the print-out plus held-back bytes the way it extends the normalised input. */
  lemma StepPrints(s: SplitState, b: Byte)
    ensures var last := StepByte(s, b);
            && PrintChunks(last.out) + Held(last.state)
               == (if s.pendingCr && b == LF then s.buf + [LF] else Held(s) + [b])
            && (last.state.pendingCr <==> b == CR)
  {
    PrintOne(Chunk(s.buf, Lf));
    PrintOne(Chunk(s.buf, Cr));
    PrintOne(Chunk([], Lf));
    if s.pendingCr {
      PrintConcat([Chunk(s.buf, Cr)], [Chunk([], Lf)]);
    }
  }

  /** Mid-stream print-back: emitted chunks plus the held-back bytes are the normalised input. */
  lemma {:induction false} PrintBackHeld(bytes: seq<Byte>)
    ensures var fed := Feed(INIT, bytes);
            && PrintChunks(fed.out) + Held(fed.state) == Normalised(bytes)
            && (fed.state.pendingCr <==> bytes != [] && bytes[|bytes| - 1] == CR)
  {
    var n := |bytes|;
    if n > 0 {
      var a, b := bytes[..n - 1], bytes[n - 1];
      PrintBackHeld(a);
      var before := Feed(INIT, a);
      var last := StepByte(before.state, b);
      StepPrints(before.state, b);
      PrintConcat(before.out, last.out);
      Associative(PrintChunks(before.out), PrintChunks(last.out), Held(last.state));
      if before.state.pendingCr && b == LF {
        NormalisedEndsInCr(a);
        assert a[..|a| - 1] == bytes[..n - 2];
        Associative(PrintChunks(before.out), before.state.buf, [CR]);
        SnocInjective(PrintChunks(before.out) + before.state.buf, Normalised(bytes[..n - 2]), CR);
        Associative(PrintChunks(before.out), before.state.buf, [LF]);
      } else {
        Associative(PrintChunks(before.out), Held(before.state), [b]);
      }
    }
  }

  lemma NormalisedEndsInCr(a: seq<Byte>)
    requires a != [] && a[|a| - 1] == CR
    ensures Normalised(a) == Normalised(a[..|a| - 1]) + [CR]
  {
  }

  /** Nothing emitted or held contains a delimiter, and a mid-stream chunk never ends in Eof. */
  lemma {:induction false} FeedShape(s: SplitState, bytes: seq<Byte>)
    requires DelimiterFree(s.buf)
    ensures var fed := Feed(s, bytes);
            && DelimiterFree(fed.state.buf)
            && forall k :: 0 <= k < |fed.out| ==> DelimiterFree(fed.out[k].text) && fed.out[k].end != Eof
  {
    if bytes != [] {
      FeedShape(s, bytes[..|bytes| - 1]);
    }
  }

  predicate WellFormedChunks(chunks: seq<Chunk>) {
    forall k :: 0 <= k < |chunks| ==>
      && DelimiterFree(chunks[k].text)
      && (chunks[k].end == Eof ==> k == |chunks| - 1 && chunks[k].text != [])
  }

  /** The whole stream prints back to the CRLF-normalised input, from delimiter-free chunks. */
  lemma SplitPrintsBack(bytes: seq<Byte>)
    ensures PrintChunks(Split(bytes)) == Normalised(bytes)
    ensures WellFormedChunks(Split(bytes))
  {
    var fed := Feed(INIT, bytes);
    PrintBackHeld(bytes);
    FeedShape(INIT, bytes);
    PrintConcat(fed.out, Finish(fed.state).out);
    PrintOne(Chunk(fed.state.buf, Cr));
    PrintOne(Chunk(fed.state.buf, Eof));
  }

  /** Printing is injective on well-formed chunk lists, so print-back pins `Split` down. */
  lemma {:induction false} WellFormedChunksUnique(x: seq<Chunk>, y: seq<Chunk>)
    requires WellFormedChunks(x) && WellFormedChunks(y) && PrintChunks(x) == PrintChunks(y)
    ensures x == y
    decreases |x| + |y|
  {
    if x == [] && y == [] {
    } else if x == [] {
      NonEmptyPrint(y);
    } else if y == [] {
      NonEmptyPrint(x);
    } else {
      PrintFirst(x);
      PrintFirst(y);
      FirstPiece(x[0], PrintChunks(x[1..]), y[0], PrintChunks(y[1..]));
      WellFormedChunksUnique(x[1..], y[1..]);
      assert x == [x[0]] + x[1..] && y == [y[0]] + y[1..];
    }
  }

  lemma PrintFirst(x: seq<Chunk>)
    requires x != [] && WellFormedChunks(x)
    ensures PrintChunks(x) == PrintChunk(x[0]) + PrintChunks(x[1..])
    ensures WellFormedChunks(x[1..])
    ensures x[0].end == Eof ==> x[1..] == []
  {
    assert x == [x[0]] + x[1..];
    PrintConcat([x[0]], x[1..]);
    PrintOne(x[0]);
    assert forall k :: 0 <= k < |x[1..]| ==> x[1..][k] == x[k + 1];
  }

  lemma NonEmptyPrint(x: seq<Chunk>)
    requires x != [] && WellFormedChunks(x)
    ensures PrintChunks(x) != []
  {
    PrintFirst(x);
  }

  /** Two first chunks of the same print-out agree: the first delimiter decides both. */
  lemma FirstPiece(a: Chunk, restA: seq<Byte>, b: Chunk, restB: seq<Byte>)
    requires DelimiterFree(a.text) && DelimiterFree(b.text)
    requires a.end == Eof ==> restA == []
    requires b.end == Eof ==> restB == []
    requires PrintChunk(a) + restA == PrintChunk(b) + restB
    ensures a == b && restA == restB
  {
    var p := PrintChunk(a) + restA;
    NotShorter(a, restA, b, restB);
    NotShorter(b, restB, a, restA);
    assert a.text == p[..|a.text|] && b.text == p[..|b.text|];
    assert a.end != Eof ==> p[|a.text|] == Terminator(a.end)[0];
    assert b.end != Eof ==> p[|b.text|] == Terminator(b.end)[0];
    assert restA == p[|PrintChunk(a)|..] && restB == p[|PrintChunk(b)|..];
  }

  lemma NotShorter(a: Chunk, restA: seq<Byte>, b: Chunk, restB: seq<Byte>)
    requires DelimiterFree(b.text)
    requires a.end == Eof ==> restA == []
    requires PrintChunk(a) + restA == PrintChunk(b) + restB
    ensures |b.text| <= |a.text|
  {
    var p := PrintChunk(a) + restA;
    assert a.end != Eof ==> IsDelimiter(p[|a.text|]);
    assert forall i :: 0 <= i < |b.text| ==> p[i] == b.text[i];
    assert |p| >= |b.text|;
  }
}
