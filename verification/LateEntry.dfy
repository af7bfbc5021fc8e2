// A log opened from its end in the middle of a line, with the head of that line lost: what the consumer
// shows is still consecutive lines of one text, and only the first of them lacks its head.

module LateEntry {
  import opened Shared
  import opened Bytes
  import opened Splitter
  import opened TailModel
  import opened Tailing
  import opened LineTrace
  import opened LogWorld
  import opened TailRun
  import opened ShortLines
  import opened Preload

  // ---------------------------------------------------------------- the lines behind a byte

  ghost predicate EndsWith(line: Line, tail: Line) {
    exists head: Line :: line == head + tail
  }

  /** The lines of a text that is entered at a byte are the last lines of the whole text, except that the
      first one may lack its head. */
  lemma LateLines(text: seq<Byte>, from: nat)
    requires from <= |text|
    ensures var all, late := SplitLines(text), SplitLines(text[from..]);
            late != [] ==>
              && |late| <= |all| && all[|all| - |late| + 1..] == late[1..]
              && EndsWith(all[|all| - |late|], late[0])
  {
    hide Feed, Texts, EndsWith;
    var head, rest := text[..from], text[from..];
    assert text == head + rest;
    CutIndependent(INIT, head, rest);
    var s, late := Residue(head), Feed(INIT, rest);
    if SplitLines(rest) != [] {
      EmptyLines();
      var full := Feed(s, rest);
      var first: Chunk;
      if s.pendingCr {
        SyncAfterCr(s, rest);
        first := if rest[0] == LF then Chunk(s.buf, Lf) else late.out[0];
      } else {
        SyncMidLine(s, rest);
        first := Chunk(s.buf + late.out[0].text, late.out[0].end);
      }
      FirstLineEnds(s, rest, first);
      LastTexts(Feed(INIT, head).out, full.out, late.out, first);
    }
  }

  /** The first chunk of the whole text that ends behind the entry. */
  lemma FirstLineEnds(s: SplitState, rest: seq<Byte>, first: Chunk)
    requires Feed(INIT, rest).out != []
    requires var late := Feed(INIT, rest).out;
             || (s.pendingCr && rest != [] && rest[0] == LF && first == Chunk(s.buf, Lf))
             || first == late[0]
             || first == Chunk(s.buf + late[0].text, late[0].end)
    ensures EndsWith(first.text, Feed(INIT, rest).out[0].text)
  {
    var late := Feed(INIT, rest).out;
    if s.pendingCr && rest != [] && rest[0] == LF && first == Chunk(s.buf, Lf) {
      StartsWithLf(rest);
      assert first.text == first.text + late[0].text;
    } else if first == late[0] {
      assert first.text == [] + late[0].text;
    } else {
      assert first.text == s.buf + late[0].text;
    }
  }

  lemma StartsWithLf(rest: seq<Byte>)
    requires rest != [] && rest[0] == LF
    ensures Feed(INIT, rest).out != [] && Feed(INIT, rest).out[0].text == []
  {
    hide Feed;
    CutIndependent(INIT, [LF], rest[1..]);
    FeedOne(INIT, LF);
    assert [LF] + rest[1..] == rest;
  }

  lemma LastTexts(done: seq<Chunk>, full: seq<Chunk>, late: seq<Chunk>, first: Chunk)
    requires late != [] && (full == [first] + late[1..] || (exists x: Chunk :: full == [x] + late && first == late[0]))
    ensures var all, tail := Texts(done + full), Texts(late);
            && |tail| <= |all| && all[|all| - |tail| + 1..] == tail[1..]
            && all[|all| - |tail|] == first.text && tail[0] == late[0].text
  {
    hide Texts;
    var rest := late[1..];
    assert late == [late[0]] + rest;
    TextsConcat(done, full);
    TextsConcat([late[0]], rest);
    TextsOne(late[0]);
    TextsOne(first);
    if full == [first] + rest {
      TextsConcat([first], rest);
    } else {
      var x: Chunk :| full == [x] + late && first == late[0];
      TextsConcat([x], late);
      TextsOne(x);
    }
  }

  // ---------------------------------------------------------------- the run

  /** `evs` begins with the trace of the opening, and has not been cut since. */
  predicate Entered(evs: seq<Ev>, opening: seq<Ev>) {
    opening <= evs && NoCut(evs[|opening|..])
  }

  /** The consumer shows what was read behind the opening, or an incarnation read from its beginning. */
  predicate Late(s: Sys, opening: seq<Ev>) {
    && ((Entered(s.audit.shown, opening) && s.audit.skip == |Lines(opening)|)
        || (NoCut(s.audit.shown) && s.audit.skip == 0))
    && (s.tail.open.Some? && s.tail.marker ==> NoCut(s.audit.read))
  }

  lemma EnteredFurther(evs: seq<Ev>, opening: seq<Ev>, more: seq<Ev>)
    requires NoCut(more)
    ensures Entered(evs, opening) ==> Entered(evs + more, opening)
    ensures NoCut(evs) ==> NoCut(evs + more)
  {
    if Entered(evs, opening) {
      assert (evs + more)[|opening|..] == evs[|opening|..] + more;
    }
  }

  /** What a poll leaves of handle and marker. */
  lemma MarkerAfter(repaired: bool, t: TailState, a: Answers)
    requires PollWith(repaired, t, a).1.Ok?
    ensures a.stat.Ok?
    ensures a.stat == Ok(None) || Straddled(t, a) ==> PollWith(repaired, t, a).0.open.None?
    ensures a.stat != Ok(None) && !Detects(t, a) && !Straddled(t, a) ==>
              (PollWith(repaired, t, a).0.marker ==> t.marker && t.carry > 0)
    ensures a.stat != Ok(None) && !Detects(t, a) ==> t.open.Some?
  {
    hide ReadLoop, ReadSignature, Take, Witness;
  }

  lemma LateLook(repaired: bool, s: Sys, inc: Inc, a: Answers, opening: seq<Ev>)
    requires Inv(s) && Late(s, opening) && PollWith(repaired, s.tail, a).1.Ok?
    ensures Late(Polled(repaired, s, inc, a), opening)
  {
    hide Lines, Erase, Replay, Witness, Forced, CountOk, ReadSignature, LoopTrace, ReadLoop, PollWith, Detects;
    hide Straddled, BytesRead, Entered, NoCut, TraceOf, ScreenOk;
    MarkerAfter(repaired, s.tail, a);
    NothingIsUncut();
    if a.stat.value.Some? {
      var more, anew := LoopTrace(LoopStart(s.tail), s.tail.offset, a.seen),
          LoopTrace(LoopStart(Reopened(s.tail, FileRead(s.tail, a), a.stat.value.value.id)), 0, a.seen);
      LoopNoCut(LoopStart(s.tail), s.tail.offset, a.seen);
      LoopNoCut(LoopStart(Reopened(s.tail, FileRead(s.tail, a), a.stat.value.value.id)), 0, a.seen);
      EnteredFurther(s.audit.read, opening, more);
    }
  }

  lemma NothingIsUncut()
    ensures NoCut([])
  {
  }

  lemma {:induction false} LateRun(repaired: bool, s: Sys, steps: seq<Step>, opening: seq<Ev>)
    requires Inv(s) && Late(s, opening) && RunOk(repaired, s, steps)
    ensures Inv(Run(repaired, s, steps)) && Late(Run(repaired, s, steps), opening)
    decreases |steps|
  {
    hide Inv, Polled, IncRead, Entered, NoCut, ReadsOne, Detectable, Merges;
    if steps != [] {
      StepKeeps(repaired, s, steps[0]);
      if steps[0].Look? {
        LateLook(repaired, s, IncRead(s, steps[0].early, steps[0].answers), steps[0].answers, opening);
      }
      LateRun(repaired, Next(repaired, s, steps[0]), steps[1..], opening);
    }
  }

  // ---------------------------------------------------------------- what is shown

  /** From two traces that left the splitter in one state, the same events lead to one state and complete
      the same chunks. */
  lemma {:induction false} ReplayAlike(x: seq<Ev>, y: seq<Ev>, more: seq<Ev>) returns (out: seq<Chunk>)
    requires Replay(x).state == Replay(y).state
    ensures Replay(x + more).state == Replay(y + more).state
    ensures Replay(x + more).out == Replay(x).out + out && Replay(y + more).out == Replay(y).out + out
    decreases |more|
  {
    hide Finish, StepByte;
    if more == [] {
      assert x + more == x && y + more == y;
      out := [];
    } else {
      var init, e := more[..|more| - 1], more[|more| - 1];
      var before := ReplayAlike(x, y, init);
      assert (x + more)[..|x + more| - 1] == x + init && (y + more)[..|y + more| - 1] == y + init;
      var last := StepEv(Replay(x + init).state, e);
      out := before + last.out;
      Associative(Replay(x).out, before, last.out);
      Associative(Replay(y).out, before, last.out);
    }
  }

  /** Forced breaks stay forced when the part of the trace before them is exchanged for one that holds back
      the same. */
  lemma ForcedAlike(x: seq<Ev>, y: seq<Ev>, more: seq<Ev>)
    requires Replay(x).state == Replay(y).state && Forced(x + more) && Forced(y)
    ensures Forced(y + more)
  {
    hide Replay, Held;
    forall i: nat | i < |y + more|
      ensures BreaksLate(y + more, i)
    {
      if i < |y| {
        assert BreaksLate(y, i) && (y + more)[..i] == y[..i];
      } else {
        var k := i - |y|;
        assert (y + more)[..i] == y + more[..k] && (x + more)[..|x| + k] == x + more[..k];
        assert BreaksLate(x + more, |x| + k);
        var _ := ReplayAlike(x, y, more[..k]);
      }
    }
  }

  /** `screen` is the first lines of a text of one incarnation from byte `from` on, where only a line that
      had grown to the long-line bound counts as several. */
  ghost predicate ShowsFrom(text: seq<Byte>, screen: seq<Line>, from: nat) {
    from <= |text| && exists evs: seq<Ev> :: ReadFrom(text, from, evs) && screen <= Lines(evs)
  }

  predicate ReadFrom(text: seq<Byte>, from: nat, evs: seq<Ev>)
    requires from <= |text|
  {
    NoCut(evs) && Forced(evs) && Erase(evs) <= text[from..]
  }

  /** With the traces in front exchanged, the lines behind stay the same. */
  lemma LinesAlike(x: seq<Ev>, y: seq<Ev>, more: seq<Ev>)
    requires Replay(x).state == Replay(y).state && Lines(y) == []
    ensures |Lines(x)| <= |Lines(x + more)| && Lines(x + more)[|Lines(x)|..] == Lines(y + more)
  {
    hide Replay, Texts;
    var out := ReplayAlike(x, y, more);
    TextsConcat(Replay(x).out, out);
    TextsConcat(Replay(y).out, out);
    assert Lines(x + more) == Lines(x) + Texts(out);
    assert [] + Texts(out) == Texts(out);
  }

  /** The bytes of the exchanged trace are those from the entry on. */
  lemma BytesAlike(text: seq<Byte>, from: nat, x: seq<Ev>, more: seq<Ev>, full: seq<Byte>)
    requires from <= |text| && Erase(x) == text && Erase(x + more) <= full
    ensures from <= |full| && Erase(Plain(text[from..]) + more) <= full[from..]
  {
    hide Erase, Plain;
    EraseConcat(x, more);
    EraseConcat(Plain(text[from..]), more);
    ErasePlain(text[from..]);
    assert (text + Erase(more))[from..] == text[from..] + Erase(more);
  }

  /** What was read behind a lost opening, as the text from the entry on. */
  lemma EnteredShows(text: seq<Byte>, tailLines: nat, evs: seq<Ev>, full: seq<Byte>)
    requires !ResidueKept(text, tailLines) && Entered(evs, OpeningTrace(text, tailLines))
    requires Forced(evs) && Erase(evs) <= full
    ensures var opening, from := OpeningTrace(text, tailLines), EnteredAt(text, tailLines);
            && |Lines(opening)| <= |Lines(evs)|
            && ShowsFrom(full, Lines(evs)[|Lines(opening)|..], from)
  {
    hide Replay, Erase, Plain, Forced, ResidueKept, Texts, OpeningTrace, EnteredAt, Feed, Lines, Tailing.Preload;
    var opening, from := OpeningTrace(text, tailLines), EnteredAt(text, tailLines);
    var more, start := evs[|opening|..], Plain(text[from..]);
    assert evs == opening + more;
    LostOpening(text, tailLines);
    PlainStart(text[from..]);
    LinesAlike(opening, start, more);
    ForcedAlike(opening, start, more);
    BytesAlike(text, from, opening, more, full);
    assert ReadFrom(full, from, start + more);
  }

  lemma PlainStart(bytes: seq<Byte>)
    ensures Replay(Plain(bytes)).state == Residue(bytes) && Lines(Plain(bytes)) == SplitLines(bytes)
    ensures Forced(Plain(bytes)) && NoCut(Plain(bytes))
  {
    ReplayOfPlain(bytes);
    PlainForced(bytes);
    PlainUnbroken(bytes);
  }

  lemma WholeShows(full: seq<Byte>, evs: seq<Ev>)
    requires NoCut(evs) && Forced(evs) && Erase(evs) <= full
    ensures ShowsFrom(full, Lines(evs), 0)
  {
    hide Forced, Erase, Lines;
    assert full[0..] == full;
    assert ReadFrom(full, 0, evs);
  }

  lemma ShowsLess(text: seq<Byte>, lines: seq<Line>, screen: seq<Line>, from: nat)
    requires ShowsFrom(text, lines, from) && screen <= lines
    ensures ShowsFrom(text, screen, from)
  {
    hide Lines, ReadFrom;
    var evs: seq<Ev> :| ReadFrom(text, from, evs) && lines <= Lines(evs);
    assert screen <= Lines(evs);
  }

  /** Without long lines these are, to the letter, the first lines of the text from `from` on. */
  lemma ShowsLiterally(text: seq<Byte>, screen: seq<Line>, from: nat)
    requires ShowsFrom(text, screen, from) && Short(text)
    ensures screen <= SplitLines(text[from..])
  {
    hide Short, Forced, Replay, Erase, Feed, Texts;
    var evs: seq<Ev> :| ReadFrom(text, from, evs) && screen <= Lines(evs);
    ShortSuffix(text, from);
    ShortIsUnbroken(evs, text[from..]);
    UnbrokenSplits(evs);
    LinesOfPrefix(Erase(evs), text[from..]);
  }

  lemma ShortSuffix(text: seq<Byte>, from: nat)
    requires Short(text) && from <= |text|
    ensures Short(text[from..])
  {
    forall i: nat | i + LONGEST <= |text[from..]|
      ensures !DelimiterFree(Stretch(text[from..], i))
    {
      assert Stretch(text[from..], i) == Stretch(text, from + i);
    }
  }

  /** The consumer theorem for an opening that loses the residue: the screen is the first lines of one
      incarnation's text from the byte on at which the log was entered, or, once a rotation has been shown,
      from its beginning. */
  lemma ConsumerTheoremLate(repaired: bool, w: World, ino: Ino, tailLines: nat, steps: seq<Step>)
    requires Valid(w) && ino in w.live && !ResidueKept(Content(w, ino), tailLines)
    requires RunOk(repaired, BeginAtEnd(w, ino, tailLines), steps)
    ensures var s := Run(repaired, BeginAtEnd(w, ino, tailLines), steps);
            var text, entry := TextOf(s.world, s.audit.shownInc), EnteredAt(Content(w, ino), tailLines);
            && Inv(s)
            && (ShowsFrom(text, s.screen, entry) || ShowsFrom(text, s.screen, 0))
            && (Short(text) ==>
                  || (entry <= |text| && s.screen <= SplitLines(text[entry..])) || s.screen <= SplitLines(text))
  {
    hide Short, RunOk, Run, ResidueKept, OpeningTrace, Erase, Replay, Forced, Lines, NoCut, ShowsFrom, SplitLines;
    var before, s0 := Content(w, ino), BeginAtEnd(w, ino, tailLines);
    BeginAtEndInv(w, ino, tailLines);
    LostStart(w, ino, tailLines);
    LateRun(repaired, s0, steps, OpeningTrace(before, tailLines));
    var s := Run(repaired, s0, steps);
    var text := TextOf(s.world, s.audit.shownInc);
    ScreenIsFirst(s);
    if NoCut(s.audit.shown) && s.audit.skip == 0 {
      WholeShows(text, s.audit.shown);
      ShowsLess(text, Lines(s.audit.shown), s.screen, 0);
    } else {
      EnteredShows(before, tailLines, s.audit.shown, text);
      ShowsLess(text, Lines(s.audit.shown)[s.audit.skip..], s.screen, EnteredAt(before, tailLines));
    }
    if Short(text) {
      if ShowsFrom(text, s.screen, 0) {
        ShowsLiterally(text, s.screen, 0);
        assert text[0..] == text;
      } else {
        ShowsLiterally(text, s.screen, EnteredAt(before, tailLines));
        EntryInside(text, s.screen, EnteredAt(before, tailLines));
      }
    }
  }

  lemma EntryInside(text: seq<Byte>, screen: seq<Line>, from: nat)
    requires ShowsFrom(text, screen, from)
    ensures from <= |text|
  {
  }

  lemma ScreenIsFirst(s: Sys)
    requires Inv(s)
    ensures s.audit.skip <= |Lines(s.audit.shown)| && s.screen <= Lines(s.audit.shown)[s.audit.skip..]
    ensures Forced(s.audit.shown) && Erase(s.audit.shown) <= TextOf(s.world, s.audit.shownInc)
    ensures s.audit.skip == 0 ==> Lines(s.audit.shown)[s.audit.skip..] == Lines(s.audit.shown)
  {
    hide Lines, Erase, Forced, Replay, Witness;
  }

  lemma EnteredAtOnce(opening: seq<Ev>)
    ensures Entered(opening, opening)
  {
  }

  /** The opening itself. */
  lemma LostStart(w: World, ino: Ino, tailLines: nat)
    requires Valid(w) && ino in w.live && !ResidueKept(Content(w, ino), tailLines)
    ensures Late(BeginAtEnd(w, ino, tailLines), OpeningTrace(Content(w, ino), tailLines))
  {
    hide ResidueKept, OpeningTrace, Lines, Tailing.Preload, BeginAtEnd, NoCut, EnteredAt, Replay, Erase, Forced;
    AtEndShape(w, ino, tailLines);
    LostOpening(Content(w, ino), tailLines);
    EnteredAtOnce(OpeningTrace(Content(w, ino), tailLines));
  }
}
