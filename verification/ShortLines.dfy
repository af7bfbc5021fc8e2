// Files whose lines never reach the long-line bound: no line is ever broken, and the consumer's
// screen is literally a prefix of the file's lines.

module ShortLines {
  import opened Shared
  import opened Bytes
  import opened Splitter
  import opened TailModel
  import opened LineTrace
  import opened LogWorld
  import opened TailRun
  import opened TailClaims

  const LONGEST: nat := 1048575

  /** The bytes from `i` on, as many as make a line too long. */
  function Stretch(text: seq<Byte>, i: nat): seq<Byte>
    requires i + LONGEST <= |text|
  {
    text[i..i + LONGEST]
  }

  /** No stretch of delimiter-free bytes gets within one byte of the bound. */
  ghost predicate Short(text: seq<Byte>) {
    forall i: nat :: i + LONGEST <= |text| ==> !DelimiterFree(Stretch(text, i))
  }

  /** The complete lines of a text. */
  function SplitLines(text: seq<Byte>): seq<Line> {
    Texts(Feed(INIT, text).out)
  }

  /** The splitter after a whole text. */
  function Residue(text: seq<Byte>): SplitState {
    Feed(INIT, text).state
  }

  // ---------------------------------------------------------------- short lines are never broken

  lemma HeldStep(s: SplitState, e: Ev, all: seq<Byte>)
    requires DelimiterFree(s.buf) && |Held(s)| <= |all| && all[|all| - |Held(s)|..] == Held(s)
    ensures var last := StepEv(s, e).state;
            var more := all + if e.Data? then [e.b] else [];
            DelimiterFree(last.buf) && |Held(last)| <= |more| && more[|more| - |Held(last)|..] == Held(last)
  {
    var last := StepEv(s, e).state;
    var more := all + if e.Data? then [e.b] else [];
    if e.Data? && !s.pendingCr && e.b != LF {
      assert Held(last) == Held(s) + [e.b];
    }
  }

  /** The held-back bytes are the end of what was read, and contain no delimiter but a final CR. */
  lemma {:induction false} HeldIsSuffix(evs: seq<Ev>)
    ensures var s := Replay(evs).state;
            && DelimiterFree(s.buf) && |Held(s)| <= |Erase(evs)|
            && Erase(evs)[|Erase(evs)| - |Held(s)|..] == Held(s)
  {
    if evs != [] {
      HeldIsSuffix(evs[..|evs| - 1]);
      HeldStep(Replay(evs[..|evs| - 1]).state, evs[|evs| - 1], Erase(evs[..|evs| - 1]));
    }
  }

  /** The last bytes read, if they are too many and free of delimiters, begin with a stretch of the text. */
  lemma HeldIsStretch(all: seq<Byte>, text: seq<Byte>, held: seq<Byte>)
    requires all <= text && LONGEST < |held| <= |all| && all[|all| - |held|..] == held
    requires DelimiterFree(held[..LONGEST])
    ensures var i := |all| - |held|; i + LONGEST <= |text| && DelimiterFree(Stretch(text, i))
  {
    var i := |all| - |held|;
    assert Stretch(text, i) == held[..LONGEST] by {
      assert Stretch(text, i) == all[i..i + LONGEST] == all[i..][..LONGEST];
    }
  }

  lemma HeldIsShort(evs: seq<Ev>, text: seq<Byte>)
    requires Erase(evs) <= text && Short(text)
    ensures |Held(Replay(evs).state)| < MAX_UNTERMINATED_LINE_BYTES
  {
    hide Replay, Erase;
    HeldIsSuffix(evs);
    var s := Replay(evs).state;
    if |Held(s)| >= MAX_UNTERMINATED_LINE_BYTES {
      assert Held(s)[..LONGEST] == s.buf[..LONGEST];
      HeldIsStretch(Erase(evs), text, Held(s));
    }
  }

  /** A break needs a megabyte of held-back bytes; short lines never hold that much back. */
  lemma ShortIsUnbroken(evs: seq<Ev>, text: seq<Byte>)
    requires Forced(evs) && NoCut(evs) && Erase(evs) <= text && Short(text)
    ensures Unbroken(evs)
  {
    hide Replay, Erase, Held, Short;
    forall i | 0 <= i < |evs|
      ensures evs[i].Data?
    {
      EraseConcat(evs[..i], evs[i..]);
      assert evs == evs[..i] + evs[i..];
      HeldIsShort(evs[..i], text);
      assert BreaksLate(evs, i);
    }
  }

  lemma {:induction false} UnbrokenIsPlain(evs: seq<Ev>)
    requires Unbroken(evs)
    ensures evs == Plain(Erase(evs))
  {
    if evs != [] {
      var init := evs[..|evs| - 1];
      UnbrokenIsPlain(init);
      var all := Erase(evs);
      assert all[..|all| - 1] == Erase(init);
      assert evs == init + [evs[|evs| - 1]];
    }
  }

  /** A trace without breaks is the splitter fed with the bytes. */
  lemma UnbrokenSplits(evs: seq<Ev>)
    requires Unbroken(evs)
    ensures Lines(evs) == SplitLines(Erase(evs)) && Replay(evs).state == Residue(Erase(evs))
  {
    UnbrokenIsPlain(evs);
    ReplayOfPlain(Erase(evs));
  }

  lemma LinesOfPrefix(x: seq<Byte>, y: seq<Byte>)
    requires x <= y
    ensures SplitLines(x) <= SplitLines(y)
  {
    hide Feed, Texts;
    assert y == x + y[|x|..];
    CutIndependent(INIT, x, y[|x|..]);
    TextsConcat(Feed(INIT, x).out, Feed(Feed(INIT, x).state, y[|x|..]).out);
  }

  // ---------------------------------------------------------------- the screen is a prefix of the file's lines

  /** What the invariant says of the screen when the incarnation shown has short lines: screen and
      announced queue are lines of its text as it is on disk, from number `skip` on. */
  lemma ShortScreen(s: Sys)
    requires Inv(s) && NoCut(s.audit.shown) && Short(TextOf(s.world, s.audit.shownInc))
    ensures s.audit.skip <= |SplitLines(TextOf(s.world, s.audit.shownInc))|
    ensures s.screen + Announced(s.tail) <= SplitLines(TextOf(s.world, s.audit.shownInc))[s.audit.skip..]
  {
    hide Short, Forced, Replay, Erase, Feed, Texts, Witness;
    var text := TextOf(s.world, s.audit.shownInc);
    ShortIsUnbroken(s.audit.shown, text);
    UnbrokenSplits(s.audit.shown);
    LinesOfPrefix(Erase(s.audit.shown), text);
  }

  /** The consumer theorem without long lines: the screen is a prefix of the lines of the text of one
      incarnation, as it is on disk. */
  lemma ConsumerShowsPrefix(repaired: bool, w: World, steps: seq<Step>)
    requires Valid(w) && RunOk(repaired, Begin(w), steps)
    requires var s := Run(repaired, Begin(w), steps); Short(TextOf(s.world, s.audit.shownInc))
    ensures var s := Run(repaired, Begin(w), steps);
            s.screen <= SplitLines(TextOf(s.world, s.audit.shownInc))
  {
    hide Short, Inv;
    ConsumerTheorem(repaired, w, steps);
    SkipStaysZero(repaired, Begin(w), steps);
    ShortScreen(Run(repaired, Begin(w), steps));
  }

  // ---------------------------------------------------------------- append-only runs, to the letter

  /** Screen and queue are the split of the bytes before the cursor; the splitter holds their residue. */
  predicate SplitsExactly(s: Sys, text: seq<Byte>) {
    && s.tail.offset <= |text|
    && s.screen + s.tail.pending == SplitLines(text[..s.tail.offset])
    && s.tail.splitter == Residue(text[..s.tail.offset])
  }

  /** Appends and polls in any order, and no line was broken: everything is as if the bytes before the
      cursor had been split at once. */
  lemma AppendOnlyUnbroken(s: Sys, steps: seq<Step>)
    requires Inv(s) && Following(s) && s.audit.skip == 0 && AppendOnly(s, steps)
    requires Unbroken(Run(false, s, steps).audit.read)
    ensures SplitsExactly(Run(false, s, steps), TextOf(Run(false, s, steps).world, s.audit.readInc))
    ensures Announcements(false, s, steps) == 0
  {
    hide Run, Announcements, AppendOnly, Inv, Replay, Erase, Feed, Texts, Forced, Unbroken, Lines;
    AppendOnlyExact(s, steps);
    var s' := Run(false, s, steps);
    UnbrokenSplits(s'.audit.read);
    assert Erase(s'.audit.read) == TextOf(s'.world, s.audit.readInc)[..s'.tail.offset];
  }

  /** From the opening on, for every file whose lines stay short of the bound, every interleaving of
      appends and polls: the delivered lines followed by the queue are the split of the first `offset`
      bytes, the splitter holds exactly the residue, and nothing is ever flagged. */
  lemma AppendOnlySplit(w: World, steps: seq<Step>)
    requires Valid(w) && w.path.Some? && AppendOnly(Begin(w), steps)
    requires Short(TextOf(Run(false, Begin(w), steps).world, Begin(w).audit.readInc))
    ensures var s := Run(false, Begin(w), steps); SplitsExactly(s, TextOf(s.world, Begin(w).audit.readInc))
    ensures Announcements(false, Begin(w), steps) == 0
  {
    hide Run, Announcements, AppendOnly, Replay, Erase, Feed, Texts, Forced, Short, Unbroken;
    BeginInv(w);
    StaysCutFree(false, Begin(w), steps);
    AppendOnlyExact(Begin(w), steps);
    var s := Run(false, Begin(w), steps);
    ShortIsUnbroken(s.audit.read, TextOf(s.world, s.audit.readInc));
    AppendOnlyUnbroken(Begin(w), steps);
  }
}
