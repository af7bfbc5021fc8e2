// What the write queue of settings.svelte.ts is meant to be: calls taken one at a time, in call order, with
// replies of the backend that may be failures. PromiseChain shows that the chain of promises is this queue.

module SettingsQueue {
  import opened Shared

  /** A queued call: `save(next)`, or `update(patch)` whose patch is resolved when its turn comes. */
  datatype Write<!S> = Save(next: S) | Update(patch: S -> S)

  /** The step at the head of the chain: waiting for saveSettings, or for the reload after it failed. */
  datatype Flight<!S> = Saving(write: Write<S>, next: S) | Reloading(write: Write<S>, reached: bool)

  /** A call that has settled: did its value reach the disk, and was its promise rejected? */
  datatype Settled<!S> = Settled(write: Write<S>, reached: bool, rejected: bool)

  /** The store's fields, the file behind it, and the history of calls. */
  datatype Store<!S> = Store(
    disk: S, settings: Option<S>, loadOk: bool, error: bool, writeSeq: nat,
    queue: seq<Write<S>>, flight: Option<Flight<S>>,
    issued: seq<Write<S>>, settled: seq<Settled<S>>)

  datatype Event<!S> =
    | Call(write: Write<S>)             // save() or update() is called
    | Begin                             // the chain reaches its next step
    | SaveOk                            // saveSettings resolves
    | SaveFails(reached: bool)          // saveSettings rejects; the file may have been written or not
    | LoadOk                            // getSettings resolves
    | LoadFails                         // getSettings rejects

  /** What a write makes of the settings it meets. */
  function Applied<S>(w: Write<S>, current: S): S {
    match w
    case Save(next) => next
    case Update(patch) => patch(current)
  }

  /** One event; an event that cannot happen in the state changes nothing. */
  function Step<S>(s: Store<S>, e: Event<S>): Store<S> {
    match e
    case Call(w) => s.(queue := s.queue + [w], issued := s.issued + [w], writeSeq := s.writeSeq + 1)
    case Begin =>
      if s.flight.Some? || s.queue == [] then s
      else
        var w, rest := s.queue[0], s.queue[1..];
        if w.Update? && s.settings == None
        then s.(queue := rest, settled := s.settled + [Settled(w, false, true)])
        else
          var next := if w.Save? then w.next else w.patch(s.settings.value);
          s.(queue := rest, flight := Some(Saving(w, next)), settings := Some(next), error := false)
    case SaveOk =>
      if s.flight.Some? && s.flight.value.Saving? then
        var f := s.flight.value;
        s.(disk := f.next, settings := Some(f.next), loadOk := true, flight := None,
           settled := s.settled + [Settled(f.write, true, false)])
      else s
    case SaveFails(reached) =>
      if s.flight.Some? && s.flight.value.Saving? then
        var f := s.flight.value;
        // error is set, and cleared again at once by the load() that follows
        s.(disk := if reached then f.next else s.disk, error := false, flight := Some(Reloading(f.write, reached)))
      else s
    case LoadOk =>
      if s.flight.Some? && s.flight.value.Reloading? then
        var f := s.flight.value;
        s.(settings := Some(s.disk), loadOk := true, flight := None,
           settled := s.settled + [Settled(f.write, f.reached, true)])
      else s
    case LoadFails =>
      if s.flight.Some? && s.flight.value.Reloading? then
        var f := s.flight.value;
        s.(settings := None, loadOk := false, error := true, flight := None,
           settled := s.settled + [Settled(f.write, f.reached, true)])
      else s
  }

  // ---------------------------------------------------------------- what the history says

  function WritesOf<S>(settled: seq<Settled<S>>): seq<Write<S>> {
    if settled == [] then [] else WritesOf(settled[..|settled| - 1]) + [settled[|settled| - 1].write]
  }

  function InFlight<S>(s: Store<S>): seq<Write<S>> {
    if s.flight.Some? then [s.flight.value.write] else []
  }

  /** The file after the settled writes that reached it, applied from left to right. */
  function Folded<S>(start: S, settled: seq<Settled<S>>): S {
    if settled == [] then start
    else
      var before := Folded(start, settled[..|settled| - 1]);
      var last := settled[|settled| - 1];
      if last.reached then Applied(last.write, before) else before
  }

  ghost predicate Inv<S(!new)>(s: Store<S>, start: S) {
    && s.issued == WritesOf(s.settled) + InFlight(s) + s.queue
    && s.writeSeq == |s.issued|
    && (match s.flight
        case None =>
          s.disk == Folded(start, s.settled)
          && (s.settings == None || s.settings == Some(s.disk)) && (s.loadOk <==> s.settings.Some?)
        case Some(Saving(w, next)) =>
          s.disk == Folded(start, s.settled) && s.settings == Some(next) && next == Applied(w, s.disk)
        case Some(Reloading(w, reached)) =>
          s.disk == if reached then Applied(w, Folded(start, s.settled)) else Folded(start, s.settled))
  }

  lemma SettledSnoc<S>(start: S, settled: seq<Settled<S>>, x: Settled<S>)
    ensures WritesOf(settled + [x]) == WritesOf(settled) + [x.write]
    ensures Folded(start, settled + [x])
            == if x.reached then Applied(x.write, Folded(start, settled)) else Folded(start, settled)
  {
    assert (settled + [x])[..|settled + [x]| - 1] == settled;
  }

  lemma CallKeeps<S(!new)>(s: Store<S>, start: S, w: Write<S>)
    requires Inv(s, start)
    ensures Inv(Step(s, Event.Call(w)), start)
  {
    hide WritesOf, Folded;
    Associative(WritesOf(s.settled) + InFlight(s), s.queue, [w]);
  }

  lemma BeginKeeps<S(!new)>(s: Store<S>, start: S)
    requires Inv(s, start)
    ensures Inv(Step(s, Begin), start)
  {
    hide WritesOf, Folded;
    if s.flight.None? && s.queue != [] {
      var w, rest := s.queue[0], s.queue[1..];
      assert s.queue == [w] + rest;
      Associative(WritesOf(s.settled), [w], rest);
      SettledSnoc(start, s.settled, Settled(w, false, true));
      assert WritesOf(s.settled) + InFlight(s) == WritesOf(s.settled);
      assert WritesOf(s.settled + [Settled(w, false, true)]) + [] == WritesOf(s.settled + [Settled(w, false, true)]);
    }
  }

  /** The call in flight settles; `disk` is what it leaves there. */
  lemma SettleKeeps<S(!new)>(s: Store<S>, start: S, e: Event<S>)
    requires Inv(s, start) && (e.SaveOk? || e.LoadOk? || e.LoadFails?)
    ensures Inv(Step(s, e), start)
  {
    hide WritesOf, Folded;
    var s' := Step(s, e);
    if s'.flight != s.flight {
      var x := s'.settled[|s.settled|];
      SettledSnoc(start, s.settled, x);
      assert s'.settled == s.settled + [x] && InFlight(s) == [x.write];
      assert WritesOf(s'.settled) + [] == WritesOf(s'.settled);
    }
  }

  lemma StepKeeps<S(!new)>(s: Store<S>, start: S, e: Event<S>)
    requires Inv(s, start)
    ensures Inv(Step(s, e), start)
  {
    hide WritesOf, Folded;
    match e
    case Call(w) => CallKeeps(s, start, w);
    case Begin => BeginKeeps(s, start);
    case SaveFails(_) =>
    case _ => SettleKeeps(s, start, e);
  }

  /** After a rejected save the error is still shown exactly when the reload behind it fails too: load()
      begins by clearing what the failed save had set. */
  lemma ErrorAfterRejection<S>(s: Store<S>, reached: bool, reload: Event<S>)
    requires s.flight.Some? && s.flight.value.Saving? && (reload.LoadOk? || reload.LoadFails?)
    ensures var s' := Step(Step(s, SaveFails(reached)), reload);
            && s'.flight.None? && |s'.settled| == |s.settled| + 1 && s'.settled[|s.settled|].rejected
            && (s'.error <==> reload.LoadFails?)
            && (s'.settings == None <==> reload.LoadFails?)
  {
  }
}
