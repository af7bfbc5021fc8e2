// Opening a log from its end: which lines are preloaded, and what the splitter is left with.

module Preload {
  import opened Shared
  import opened Bytes
  import opened Splitter
  import opened TailModel
  import opened Tailing
  import opened LineTrace
  import opened LogWorld
  import opened TailRun
  import opened TailClaims
  import opened ShortLines

  // ---------------------------------------------------------------- starting in the middle of a file

  /** A splitter that has seen `head` as well and one that has not: until the late one completes a line it
      only misses the head; from then on it is in the same state and emits the same chunks. */
  predicate InStep(head: seq<Byte>, full: Fed, late: Fed) {
    if late.out == [] then
      full.out == [] && full.state == SplitState(head + late.state.buf, late.state.pendingCr)
    else
      && full.state == late.state
      && full.out == [Chunk(head + late.out[0].text, late.out[0].end)] + late.out[1..]
  }

  function Fed1(fed: Fed, b: Byte): Fed {
    var last := StepByte(fed.state, b);
    Fed(last.state, fed.out + last.out)
  }

  lemma StepsTogether(head: seq<Byte>, full: Fed, late: Fed, b: Byte)
    requires InStep(head, full, late)
    ensures InStep(head, Fed1(full, b), Fed1(late, b))
  {
    if late.out != [] {
      var more := StepByte(late.state, b).out;
      assert (late.out + more)[1..] == late.out[1..] + more;
    }
  }

  lemma {:induction false} SyncMidLine(s: SplitState, bytes: seq<Byte>)
    requires !s.pendingCr
    ensures InStep(s.buf, Feed(s, bytes), Feed(INIT, bytes))
  {
    hide InStep, StepByte;
    if bytes == [] {
      NothingYet(s);
    } else {
      var init := bytes[..|bytes| - 1];
      SyncMidLine(s, init);
      StepsTogether(s.buf, Feed(s, init), Feed(INIT, init), bytes[|bytes| - 1]);
    }
  }

  lemma NothingYet(s: SplitState)
    requires !s.pendingCr
    ensures InStep(s.buf, Fed(s, []), Fed(INIT, []))
  {
    assert s.buf + INIT.buf == s.buf;
  }

  /** The same behind a CR: a LF completes that CR's pair, anything else starts a new line. */
  lemma SyncAfterCr(s: SplitState, bytes: seq<Byte>)
    requires s.pendingCr && bytes != []
    ensures var full, late := Feed(s, bytes), Feed(INIT, bytes);
            && full.state == late.state
            && (bytes[0] == LF ==> late.out != [])
            && full.out == if bytes[0] == LF then [Chunk(s.buf, Lf)] + late.out[1..] else [Chunk(s.buf, Cr)] + late.out
  {
    hide Feed;
    var b, rest := bytes[0], bytes[1..];
    assert bytes == [b] + rest;
    CutIndependent(s, [b], rest);
    CutIndependent(INIT, [b], rest);
    FeedOne(s, b);
    FeedOne(INIT, b);
    if b == LF {
      var more := Feed(INIT, rest).out;
      assert ([Chunk([], Lf)] + more)[1..] == more;
    }
  }

  lemma FeedOne(s: SplitState, b: Byte)
    ensures Feed(s, [b]) == StepByte(s, b)
  {
    assert [b][..0] == [];
  }

  /** The state after a text is told by its last byte. */
  lemma ResidueByLastByte(text: seq<Byte>)
    ensures Residue(text).pendingCr <==> text != [] && text[|text| - 1] == CR
    ensures text != [] && text[|text| - 1] == LF ==> Residue(text) == INIT
    ensures text != [] && !IsDelimiter(text[|text| - 1]) ==> Residue(text).buf != []
  {
    PrintBackHeld(text);
  }

  // ---------------------------------------------------------------- the preload is a true tail

  function WindowStart(text: seq<Byte>): nat {
    |text| - Min(|text|, 262144)
  }

  /** Does the preload window complete a line? */
  predicate WindowCompletesLine(text: seq<Byte>) {
    Feed(INIT, text[WindowStart(text)..]).out != []
  }

  /** When the splitter ends up where splitting the whole file would have left it. */
  predicate ResidueKept(text: seq<Byte>, tailLines: nat) {
    if tailLines == 0 || text == [] then text == [] || text[|text| - 1] == LF
    else
      var start := WindowStart(text);
      start == 0 || WindowCompletesLine(text) || IsDelimiter(text[start - 1])
  }

  /** The whole file fits the window: the preload is the last `tailLines` complete lines. */
  lemma PreloadWholeFile(text: seq<Byte>, tailLines: nat)
    requires tailLines > 0 && WindowStart(text) == 0
    ensures Preload(text, tailLines) == (LastLines(SplitLines(text), tailLines), Residue(text))
  {
    assert text[0..] == text;
    if text == [] {
      assert Feed(INIT, text).out == [];
    }
  }

  /** The file is longer than the window: what the lines after the window's first one are in the
      whole file, and which residue is left. */
  lemma WindowSync(text: seq<Byte>)
    requires WindowStart(text) > 0
    ensures var start := WindowStart(text);
            var late := Feed(INIT, text[start..]);
            if late.out != [] then
              && late.state == Residue(text)
              && |late.out| <= |SplitLines(text)|
              && Texts(late.out)[1..] == SplitLines(text)[|SplitLines(text)| - |Texts(late.out)[1..]|..]
            else late.state == Residue(text) <==> IsDelimiter(text[start - 1])
  {
    hide Feed, Texts;
    var start := WindowStart(text);
    var head, window := text[..start], text[start..];
    var s, late := Residue(head), Feed(INIT, window);
    assert text == head + window && window != [];
    CutIndependent(INIT, head, window);
    ResidueByLastByte(head);
    var full := Feed(s, window);
    if s.pendingCr {
      SyncAfterCr(s, window);
    } else {
      SyncMidLine(s, window);
    }
    if late.out != [] {
      SuffixOfLines(Feed(INIT, head).out, full.out, late.out);
    } else if !s.pendingCr && s.buf != [] {
      assert |s.buf + late.state.buf| > |late.state.buf|;
    }
  }

  /** `full` ends with `late` except possibly for `late`'s first chunk. */
  lemma SuffixOfLines(done: seq<Chunk>, full: seq<Chunk>, late: seq<Chunk>)
    requires late != []
    requires exists first: Chunk :: full == [first] + late[1..] || full == [first] + late
    ensures |late| <= |full|
    ensures var all := Texts(done + full);
            Texts(late)[1..] == all[|all| - |Texts(late)[1..]|..]
  {
    hide Texts;
    var first: Chunk :| full == [first] + late[1..] || full == [first] + late;
    var rest := late[1..];
    assert late == [late[0]] + rest;
    TextsConcat([late[0]], rest);
    TextsOne(late[0]);
    TextsOne(first);
    TextsConcat(done, full);
    assert Texts(late)[1..] == Texts(rest);
    TextsConcat([first], rest);
    TextsConcat([first], late);
    Associative(Texts(done), [first.text], Texts(rest));
    if full != [first] + rest {
      Associative(Texts(done) + [first.text], [late[0].text], Texts(rest));
      Associative(Texts(done), [first.text], Texts(late));
      Associative(Texts(done) + [first.text], [late[0].text], Texts(rest));
    }
  }

  lemma EmptyLines()
    ensures Texts([]) == [] && Feed(INIT, []) == Fed(INIT, [])
  {
  }

  /** The preload is always a contiguous suffix of the file's lines, at most `tailLines` of them, and
      the splitter holds the file's residue exactly when `ResidueKept`. */
  lemma PreloadIsTail(text: seq<Byte>, tailLines: nat)
    ensures var (lines, splitter) := Preload(text, tailLines);
            var all := SplitLines(text);
            && |lines| <= tailLines && |lines| <= |all|
            && lines == all[|all| - |lines|..]
            && (WindowStart(text) == 0 ==> |lines| == Min(tailLines, |all|))
            && (WindowStart(text) > 0 && WindowCompletesLine(text) ==>
                  |lines| == Min(tailLines, |Feed(INIT, text[WindowStart(text)..]).out| - 1))
            && (splitter == Residue(text) <==> ResidueKept(text, tailLines))
  {
    ResidueByLastByte(text);
    hide Feed, Texts;
    EmptyLines();
    if tailLines == 0 || text == [] {
    } else if WindowStart(text) == 0 {
      PreloadWholeFile(text, tailLines);
    } else {
      WindowSync(text);
    }
  }

  // ---------------------------------------------------------------- what the residue is worth

  /** The lines a splitter in state `s` completes when `more` arrives. */
  function LaterLines(s: SplitState, more: seq<Byte>): seq<Line> {
    Texts(Feed(s, more).out)
  }

  /** The lines that `more` adds to a file that holds `text`. */
  function NewLines(text: seq<Byte>, more: seq<Byte>): seq<Line>
    requires |SplitLines(text)| <= |SplitLines(text + more)|
  {
    SplitLines(text + more)[|SplitLines(text)|..]
  }

  lemma NewLinesAreResidueLines(text: seq<Byte>, more: seq<Byte>)
    ensures |SplitLines(text)| <= |SplitLines(text + more)|
    ensures NewLines(text, more) == LaterLines(Residue(text), more)
  {
    hide Feed, Texts;
    CutIndependent(INIT, text, more);
    TextsConcat(Feed(INIT, text).out, Feed(Residue(text), more).out);
  }

  /** Two different states are told apart by one more byte. */
  lemma StatesDiffer(s: SplitState, s': SplitState)
    requires s != s'
    ensures exists more :: LaterLines(s, more) != LaterLines(s', more)
  {
    hide Feed, Texts;
    var b: Byte := if s.pendingCr == s'.pendingCr then LF else 120;
    FeedOne(s, b);
    FeedOne(s', b);
    EmptyLines();
    TextsOne(Chunk(s.buf, Lf));
    TextsOne(Chunk(s'.buf, Lf));
    TextsOne(Chunk(s.buf, Cr));
    TextsOne(Chunk(s'.buf, Cr));
    var none: seq<Chunk> := [];
    assert none + [Chunk(s.buf, Lf)] == [Chunk(s.buf, Lf)] && none + [Chunk(s'.buf, Lf)] == [Chunk(s'.buf, Lf)];
    assert [s.buf][0] == s.buf && [s'.buf][0] == s'.buf;
    assert LaterLines(s, [b]) != LaterLines(s', [b]);
  }

  /** The lines completed after the opening are the file's own, whatever is appended, exactly when the
      preload kept the residue; otherwise some continuation is delivered with a head missing. */
  lemma LaterLinesAreWhole(text: seq<Byte>, tailLines: nat)
    ensures forall more :: |SplitLines(text)| <= |SplitLines(text + more)|
    ensures (forall more :: LaterLines(Preload(text, tailLines).1, more) == NewLines(text, more))
            <==> ResidueKept(text, tailLines)
  {
    hide Feed, Texts, Preload, ResidueKept, NewLines, SplitLines, LaterLines, Residue;
    var splitter := Preload(text, tailLines).1;
    PreloadIsTail(text, tailLines);
    forall more: seq<Byte>
      ensures |SplitLines(text)| <= |SplitLines(text + more)| && NewLines(text, more) == LaterLines(Residue(text), more)
    {
      NewLinesAreResidueLines(text, more);
    }
    if splitter != Residue(text) {
      StatesDiffer(splitter, Residue(text));
    }
  }

  // ---------------------------------------------------------------- runs that start from the end

  /** The byte from which on the tailer's splitter has seen the text. */
  function EnteredAt(text: seq<Byte>, tailLines: nat): (from: nat)
    ensures from <= |text|
  {
    if ResidueKept(text, tailLines) then 0
    else if tailLines == 0 then |text|
    else WindowStart(text)
  }

  /** What the splitter has been through: the whole text, or its end behind a cut. */
  function OpeningTrace(text: seq<Byte>, tailLines: nat): seq<Ev> {
    if ResidueKept(text, tailLines) then Plain(text)
    else
      var from := EnteredAt(text, tailLines);
      Plain(text[..from]) + [Cut] + Plain(text[from..])
  }

  /** A tailer that has just opened the log `ino` from its end. */
  function BeginAtEnd(w: World, ino: Ino, tailLines: nat): Sys
    requires ino in w.live
  {
    var text := Content(w, ino);
    var t := Opened(Some((ino, text)), true, tailLines);
    var trace := OpeningTrace(text, tailLines);
    var all := Lines(trace);
    var skip := if |t.pending| <= |all| then |all| - |t.pending| else 0;
    Sys(w, t, [], Audit(w.live[ino], trace, skip, w.live[ino], trace))
  }

  lemma KeptOpening(text: seq<Byte>, tailLines: nat)
    requires ResidueKept(text, tailLines)
    ensures var trace, opening := OpeningTrace(text, tailLines), Preload(text, tailLines);
            && NoCut(trace) && Forced(trace) && Erase(trace) == text && Lines(trace) == SplitLines(text)
            && opening.1 == Replay(trace).state && |opening.0| <= |Lines(trace)|
            && opening.0 == Lines(trace)[|Lines(trace)| - |opening.0|..]
  {
    hide Feed, Texts, Preload, ResidueKept, Replay, Erase, Plain, Held;
    PreloadIsTail(text, tailLines);
    ReplayOfPlain(text);
    ErasePlain(text);
    PlainForced(text);
    PlainUnbroken(text);
  }

  /** The parts of such an opening. */
  lemma AtEndShape(w: World, ino: Ino, tailLines: nat)
    requires ino in w.live
    ensures var text, s := Content(w, ino), BeginAtEnd(w, ino, tailLines);
            var opening, trace := Tailing.Preload(text, tailLines), OpeningTrace(text, tailLines);
            && s.world == w && s.screen == []
            && s.tail == TailState(Some(Handle(ino, ino)), |text|, ReadSignature(text, |text|), opening.1, 0, opening.0,
                                   0, false)
            && s.audit.shown == s.audit.read == trace && s.audit.shownInc == s.audit.readInc == w.live[ino]
            && s.audit.skip == if |opening.0| <= |Lines(trace)| then |Lines(trace)| - |opening.0| else 0
  {
    hide Lines, OpeningTrace, ReadSignature, Tailing.Preload;
  }

  /** What the invariant asks of a fresh opening. */
  lemma FreshOpening(s: Sys, ino: Ino, trace: seq<Ev>)
    requires Valid(s.world) && s.audit.readInc in s.world.text && s.screen == []
    requires s.tail.open == Some(Handle(ino, ino)) && !s.tail.marker && s.tail.carry == 0 && s.tail.unterminated == 0
    requires s.audit.shown == s.audit.read == trace && s.audit.shownInc == s.audit.readInc
    requires Forced(trace) && Erase(trace) == TextOf(s.world, s.audit.readInc) && (Erase(trace) == [] ==> trace == [])
    requires s.tail.offset == |Erase(trace)| && s.tail.signature == Witness(Erase(trace))
    requires s.tail.splitter == Replay(trace).state
    requires s.audit.skip <= |Lines(trace)| && s.tail.pending == Lines(trace)[s.audit.skip..]
    ensures Inv(s)
  {
    hide Forced, Erase, Replay, Lines, Witness, Held;
  }

  lemma BeginAtEndInv(w: World, ino: Ino, tailLines: nat)
    requires Valid(w) && ino in w.live
    ensures Inv(BeginAtEnd(w, ino, tailLines))
    ensures ResidueKept(Content(w, ino), tailLines) ==> CutFree(BeginAtEnd(w, ino, tailLines))
  {
    hide ResidueKept, Replay, Erase, Forced, OpeningTrace, NoCut, Lines, Witness, ReadSignature, BeginAtEnd, Inv;
    hide Tailing.Preload, EnteredAt;
    var text := Content(w, ino);
    AtEndShape(w, ino, tailLines);
    if ResidueKept(text, tailLines) {
      KeptOpening(text, tailLines);
    } else {
      LostOpening(text, tailLines);
    }
    ReadSignatureIsWitness(text, |text|);
    assert text[..|text|] == text;
    EmptyTextTrace(text, tailLines);
    FreshOpening(BeginAtEnd(w, ino, tailLines), ino, OpeningTrace(text, tailLines));
  }

  lemma EmptyTextTrace(text: seq<Byte>, tailLines: nat)
    ensures text == [] ==> OpeningTrace(text, tailLines) == []
  {
  }

  // ---------------------------------------------------------------- an opening that loses the residue

  lemma FinishEmpties(s: SplitState)
    ensures Finish(s).state == INIT
  {
  }

  /** Behind a cut the splitter starts anew. */
  lemma ReplayCut(evs: seq<Ev>, bytes: seq<Byte>)
    ensures Replay(evs + [Cut] + Plain(bytes)).state == Feed(INIT, bytes).state
    ensures Lines(evs + [Cut] + Plain(bytes)) == Lines(evs + [Cut]) + Texts(Feed(INIT, bytes).out)
  {
    hide Feed, Texts, Plain;
    assert (evs + [Cut])[..|evs + [Cut]| - 1] == evs;
    FinishEmpties(Replay(evs).state);
    assert Replay(evs + [Cut]).state == INIT;
    ReplayPlain(evs + [Cut], bytes);
    TextsConcat(Replay(evs + [Cut]).out, Feed(INIT, bytes).out);
  }

  /** The trace with a cut is one of the whole text, and leaves what is behind the cut. */
  lemma CutTrace(x: seq<Byte>, y: seq<Byte>)
    ensures var trace := Plain(x) + [Cut] + Plain(y);
            Forced(trace) && Erase(trace) == x + y && Replay(trace).state == Residue(y)
  {
    hide Feed, Texts, Erase, Plain, Replay, Held, Forced, Lines;
    ReplayCut(Plain(x), y);
    ErasePlain(x);
    ErasePlain(y);
    EraseConcat(Plain(x) + [Cut], Plain(y));
    EraseConcat(Plain(x), [Cut]);
    EraseCut();
    assert x + [] == x;
    CutForced(x, y);
  }

  /** Nothing is preloaded then, and no line is completed behind the entry. */
  lemma LostPreload(text: seq<Byte>, tailLines: nat)
    requires !ResidueKept(text, tailLines)
    ensures var from := EnteredAt(text, tailLines);
            && SplitLines(text[from..]) == []
            && Tailing.Preload(text, tailLines) == ([], Residue(text[from..]))
  {
    hide Feed, Texts, WindowStart, Tailing.Preload;
    EmptyLines();
    if tailLines == 0 {
      assert text[|text|..] == [];
      NoPreload(text);
    } else {
      NotEmpty(text, tailLines);
      PreloadOfWindow(text, tailLines);
      NoLastLines(tailLines);
    }
  }

  lemma NoPreload(text: seq<Byte>)
    ensures Tailing.Preload(text, 0) == ([], INIT)
  {
  }

  lemma NotEmpty(text: seq<Byte>, tailLines: nat)
    requires !ResidueKept(text, tailLines)
    ensures text != []
  {
  }

  lemma PreloadOfWindow(text: seq<Byte>, tailLines: nat)
    requires tailLines > 0 && text != []
    ensures var fed := Feed(INIT, text[WindowStart(text)..]);
            var lines := Texts(fed.out);
            Tailing.Preload(text, tailLines)
            == (LastLines(if WindowStart(text) > 0 && lines != [] then lines[1..] else lines, tailLines), fed.state)
  {
    hide Feed, Texts, LastLines;
  }

  lemma LostOpening(text: seq<Byte>, tailLines: nat)
    requires !ResidueKept(text, tailLines)
    ensures var trace, from := OpeningTrace(text, tailLines), EnteredAt(text, tailLines);
            && Forced(trace) && Erase(trace) == text
            && Tailing.Preload(text, tailLines) == ([], Replay(trace).state)
            && SplitLines(text[from..]) == [] && Replay(trace).state == Residue(text[from..])
  {
    hide Erase, Plain, Replay, Forced, ResidueKept, Residue, SplitLines, EnteredAt, Tailing.Preload;
    var from := EnteredAt(text, tailLines);
    LostPreload(text, tailLines);
    CutTrace(text[..from], text[from..]);
    assert text[..from] + text[from..] == text;
  }

  lemma EraseCut()
    ensures Erase([Cut]) == []
  {
    assert [Cut][..0] == [];
  }

  lemma CutForced(x: seq<Byte>, y: seq<Byte>)
    ensures Forced(Plain(x) + [Cut] + Plain(y))
  {
    hide Replay, Held, Plain;
    PlainUnbroken(x);
    PlainUnbroken(y);
  }

  lemma NoLastLines(n: nat)
    ensures LastLines([], n) == []
  {
  }

  lemma PlainForced(text: seq<Byte>)
    ensures Forced(Plain(text))
  {
    ForcedData([], text);
    assert [] + Plain(text) == Plain(text);
  }

  /** The consumer theorem for a log opened from its end: the screen is a run of consecutive lines of
      one incarnation. */
  lemma ConsumerTheoremAtEnd(repaired: bool, w: World, ino: Ino, tailLines: nat, steps: seq<Step>)
    requires Valid(w) && ino in w.live && ResidueKept(Content(w, ino), tailLines)
    requires RunOk(repaired, BeginAtEnd(w, ino, tailLines), steps)
    ensures var s := Run(repaired, BeginAtEnd(w, ino, tailLines), steps);
            Inv(s) && CutFree(s) && ShowsOne(s.world, s.screen, s.audit.skip)
  {
    BeginAtEndInv(w, ino, tailLines);
    RunKeeps(repaired, BeginAtEnd(w, ino, tailLines), steps);
    StaysCutFree(repaired, BeginAtEnd(w, ino, tailLines), steps);
    var s := Run(repaired, BeginAtEnd(w, ino, tailLines), steps);
    assert s.screen <= Lines(s.audit.shown)[s.audit.skip..];
  }

  lemma {:induction false} SkipStaysOrGoes(repaired: bool, s: Sys, steps: seq<Step>)
    ensures Run(repaired, s, steps).audit.skip == s.audit.skip || Run(repaired, s, steps).audit.skip == 0
    decreases |steps|
  {
    hide PollWith, Straddled, Detects, IncRead, BytesRead;
    if steps != [] {
      SkipStaysOrGoes(repaired, Next(repaired, s, steps[0]), steps[1..]);
    }
  }

  /** Without long lines the screen is, to the letter, consecutive lines of one incarnation's text: from
      the first preloaded line on, or from the first line of all once a rotation has been shown. */
  lemma ConsumerShowsTail(repaired: bool, w: World, ino: Ino, tailLines: nat, steps: seq<Step>)
    requires Valid(w) && ino in w.live && ResidueKept(Content(w, ino), tailLines)
    requires RunOk(repaired, BeginAtEnd(w, ino, tailLines), steps)
    requires var s := Run(repaired, BeginAtEnd(w, ino, tailLines), steps); Short(TextOf(s.world, s.audit.shownInc))
    ensures var s := Run(repaired, BeginAtEnd(w, ino, tailLines), steps);
            var all := SplitLines(TextOf(s.world, s.audit.shownInc));
            && s.audit.skip <= |all| && s.screen <= all[s.audit.skip..]
            && (s.audit.skip == BeginAtEnd(w, ino, tailLines).audit.skip || s.audit.skip == 0)
  {
    hide Short, Inv, BeginAtEnd, Feed, Texts;
    ConsumerTheoremAtEnd(repaired, w, ino, tailLines, steps);
    SkipStaysOrGoes(repaired, BeginAtEnd(w, ino, tailLines), steps);
    ShortScreen(Run(repaired, BeginAtEnd(w, ino, tailLines), steps));
  }
}
