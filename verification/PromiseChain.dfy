// settings.svelte.ts: the store and its chain of promises. Every call hangs a step onto the promise that
// `chain` names and makes `chain` name a promise behind its own; the replies of the backend, and the
// reactions to settled promises, may come in any order.

module PromiseChain {
  import opened Shared
  import Q = SettingsQueue

  type Write<!S> = Q.Write<S>

  datatype Promise = Pending | Fulfilled | Rejected

  /** How far the step of a call has come: its reaction has not run yet; it awaits saveSettings; it awaits
      the reload behind a failed save; its promise has settled. `reached`: did its value reach the disk? */
  datatype Stage<!S> = Waiting | Saving(next: S) | Reloading(reached: bool) | Done(reached: bool, rejected: bool)

  /** A call of save or update: the promise its step was hung onto, the promise its caller got (`run`), and
      the one that `chain` was set to. All three are numbers of promises. */
  datatype Call<!S> = Call(write: Write<S>, after: nat, run: nat, link: nat, stage: Stage<S>)

  datatype Chain<!S> = Chain(
    disk: S, settings: Option<S>, loadOk: bool, error: bool, writeSeq: nat,
    promises: seq<Promise>, chain: nat, calls: seq<Call<S>>)

  datatype Event<!S> =
    | Enqueue(write: Write<S>)             // save() or update() is called
    | Start(k: nat)                        // the reaction of call k to the promise before it
    | SaveOk(k: nat)                       // saveSettings resolves for call k
    | SaveFails(k: nat, reached: bool)     // saveSettings rejects; the file may have been written or not
    | LoadOk(k: nat)                       // getSettings resolves for call k
    | LoadFails(k: nat)                    // getSettings rejects
    | Link(k: nat)                         // the swallowing reaction behind call k's promise

  // ---------------------------------------------------------------- one event

  /** `chain.then(fn, fn)` and `run.then(…, …)`: two new promises, and `chain` moves on to the second. */
  function Enqueued<S>(m: Chain<S>, w: Write<S>): Chain<S> {
    var n := |m.promises|;
    m.(writeSeq := m.writeSeq + 1, promises := m.promises + [Pending, Pending], chain := n + 1,
       calls := m.calls + [Call(w, m.chain, n, n + 1, Waiting)])
  }

  function PromiseAt<S>(m: Chain<S>, i: nat): Promise {
    if i < |m.promises| then m.promises[i] else Pending
  }

  function WithPromise<S>(m: Chain<S>, i: nat, p: Promise): Chain<S> {
    if i < |m.promises| then m.(promises := m.promises[i := p]) else m
  }

  function WithStage<S>(m: Chain<S>, k: nat, stage: Stage<S>): Chain<S>
    requires k < |m.calls|
  {
    m.(calls := m.calls[k := m.calls[k].(stage := stage)])
  }

  /** The step of call k is over, and the promise its caller got settles. */
  function Settle<S>(m: Chain<S>, k: nat, reached: bool, rejected: bool): Chain<S>
    requires k < |m.calls|
  {
    WithPromise(WithStage(m, k, Done(reached, rejected)), m.calls[k].run, if rejected then Rejected else Fulfilled)
  }

  /** What `then(fn, fn)` waits for: the promise it was called on has settled, either way. */
  predicate CanStart<S>(m: Chain<S>, k: nat) {
    k < |m.calls| && m.calls[k].stage.Waiting? && PromiseAt(m, m.calls[k].after) != Pending
  }

  predicate AwaitsSave<S>(m: Chain<S>, k: nat) {
    k < |m.calls| && m.calls[k].stage.Saving?
  }

  predicate AwaitsLoad<S>(m: Chain<S>, k: nat) {
    k < |m.calls| && m.calls[k].stage.Reloading?
  }

  predicate CanLink<S>(m: Chain<S>, k: nat) {
    k < |m.calls| && PromiseAt(m, m.calls[k].run) != Pending && PromiseAt(m, m.calls[k].link) == Pending
  }

  predicate Possible<S>(m: Chain<S>, e: Event<S>) {
    match e
    case Enqueue(_) => true
    case Start(k) => CanStart(m, k)
    case SaveOk(k) => AwaitsSave(m, k)
    case SaveFails(k, _) => AwaitsSave(m, k)
    case LoadOk(k) => AwaitsLoad(m, k)
    case LoadFails(k) => AwaitsLoad(m, k)
    case Link(k) => CanLink(m, k)
  }

  /** update's check and patch, then performSave up to its await. */
  function Started<S>(m: Chain<S>, k: nat): Chain<S>
    requires CanStart(m, k)
  {
    var w := m.calls[k].write;
    if w.Update? && m.settings == None then Settle(m, k, false, true)
    else
      var next := if w.Save? then w.next else w.patch(m.settings.value);
      WithStage(m, k, Saving(next)).(settings := Some(next), error := false)
  }

  function Step<S>(m: Chain<S>, e: Event<S>): Chain<S>
    requires Possible(m, e)
  {
    match e
    case Enqueue(w) => Enqueued(m, w)
    case Start(k) => Started(m, k)
    case SaveOk(k) =>
      var next := m.calls[k].stage.next;
      Settle(m, k, true, false).(disk := next, settings := Some(next), loadOk := true)
    case SaveFails(k, reached) =>
      // error is set, and cleared again at once by the load() that follows
      var next := m.calls[k].stage.next;
      WithStage(m, k, Reloading(reached)).(disk := if reached then next else m.disk, error := false)
    case LoadOk(k) => Settle(m, k, m.calls[k].stage.reached, true).(settings := Some(m.disk), loadOk := true)
    case LoadFails(k) =>
      Settle(m, k, m.calls[k].stage.reached, true).(settings := None, loadOk := false, error := true)
    case Link(k) => WithPromise(m, m.calls[k].link, Fulfilled)
  }

  /** A run; an event that cannot happen where it stands is skipped. */
  function Run<S>(m: Chain<S>, events: seq<Event<S>>): Chain<S>
    decreases |events|
  {
    if events == [] then m else Run(if Possible(m, events[0]) then Step(m, events[0]) else m, events[1..])
  }

  /** A store right after its first load, or before it: `chain` is Promise.resolve(). */
  predicate Initial<S(==)>(m: Chain<S>) {
    && m.promises == [Fulfilled] && m.chain == 0 && m.calls == [] && m.writeSeq == 0
    && (m.settings == None || m.settings == Some(m.disk)) && (m.loadOk <==> m.settings.Some?)
  }

  // ---------------------------------------------------------------- what the chain guarantees

  /** Call k hangs on the promise that swallowed call k - 1's. */
  predicate Hangs<S>(m: Chain<S>, k: nat)
    requires k < |m.calls|
  {
    var c := m.calls[k];
    && c.after == 2 * k && c.run == 2 * k + 1 && c.link == 2 * k + 2
    && (!c.stage.Waiting? ==> PromiseAt(m, c.after) != Pending)
    && PromiseAt(m, c.run) == (if !c.stage.Done? then Pending else if c.stage.rejected then Rejected else Fulfilled)
    && (PromiseAt(m, c.link) != Pending ==> c.stage.Done?)
  }

  ghost predicate Linked<S>(m: Chain<S>) {
    && |m.promises| == 2 * |m.calls| + 1 && m.chain == 2 * |m.calls| && m.writeSeq == |m.calls|
    && m.promises[0] == Fulfilled
    && (forall k :: 0 <= k < |m.calls| ==> Hangs(m, k))
  }

  /** Only the promises, the calls and the counter matter. */
  lemma OnlyLinksMatter<S>(m: Chain<S>, m': Chain<S>)
    requires Linked(m) && m'.promises == m.promises && m'.calls == m.calls
    requires m'.chain == m.chain && m'.writeSeq == m.writeSeq
    ensures Linked(m')
  {
    forall i | 0 <= i < |m'.calls|
      ensures Hangs(m', i)
    {
      assert Hangs(m, i);
    }
  }

  lemma EnqueueKeepsLinks<S>(m: Chain<S>, w: Write<S>)
    requires Linked(m)
    ensures Linked(Enqueued(m, w))
  {
    var m' := Enqueued(m, w);
    forall i | 0 <= i < |m'.calls|
      ensures Hangs(m', i)
    {
      if i < |m.calls| {
        assert Hangs(m, i);
      }
    }
  }

  lemma StageKeepsLinks<S>(m: Chain<S>, k: nat, stage: Stage<S>)
    requires Linked(m) && k < |m.calls| && !m.calls[k].stage.Done? && !stage.Done?
    requires PromiseAt(m, m.calls[k].after) != Pending
    ensures Linked(WithStage(m, k, stage))
  {
    var m' := WithStage(m, k, stage);
    forall i | 0 <= i < |m'.calls|
      ensures Hangs(m', i)
    {
      assert Hangs(m, i);
    }
  }

  lemma SettleKeepsLinks<S>(m: Chain<S>, k: nat, reached: bool, rejected: bool)
    requires Linked(m) && k < |m.calls| && !m.calls[k].stage.Done? && PromiseAt(m, m.calls[k].after) != Pending
    ensures Linked(Settle(m, k, reached, rejected))
  {
    assert Hangs(m, k);
    var m' := Settle(m, k, reached, rejected);
    forall i | 0 <= i < |m'.calls|
      ensures Hangs(m', i)
    {
      assert Hangs(m, i);
    }
  }

  lemma LinkKeepsLinks<S>(m: Chain<S>, k: nat)
    requires Linked(m) && CanLink(m, k)
    ensures Linked(WithPromise(m, m.calls[k].link, Fulfilled))
  {
    assert Hangs(m, k);
    var m' := WithPromise(m, m.calls[k].link, Fulfilled);
    forall i | 0 <= i < |m'.calls|
      ensures Hangs(m', i)
    {
      assert Hangs(m, i);
    }
  }

  lemma StepKeepsLinks<S>(m: Chain<S>, e: Event<S>)
    requires Linked(m) && Possible(m, e)
    ensures Linked(Step(m, e))
  {
    hide Linked, Enqueued, Settle, WithStage, WithPromise;
    match e
    case Enqueue(w) => EnqueueKeepsLinks(m, w);
    case Link(k) => LinkKeepsLinks(m, k);
    case Start(k) => StartKeepsLinks(m, k);
    case SaveFails(k, reached) =>
      AfterSettled(m, k);
      StageKeepsLinks(m, k, Reloading(reached));
      OnlyLinksMatter(WithStage(m, k, Reloading(reached)), Step(m, e));
    case SaveOk(k) =>
      AfterSettled(m, k);
      SettleKeepsLinks(m, k, true, false);
      OnlyLinksMatter(Settle(m, k, true, false), Step(m, e));
    case _ =>
      var reached := m.calls[e.k].stage.reached;
      AfterSettled(m, e.k);
      SettleKeepsLinks(m, e.k, reached, true);
      OnlyLinksMatter(Settle(m, e.k, reached, true), Step(m, e));
  }

  lemma AfterSettled<S>(m: Chain<S>, k: nat)
    requires Linked(m) && k < |m.calls| && !m.calls[k].stage.Waiting?
    ensures PromiseAt(m, m.calls[k].after) != Pending
  {
    assert Hangs(m, k);
  }

  lemma StartKeepsLinks<S>(m: Chain<S>, k: nat)
    requires Linked(m) && CanStart(m, k)
    ensures Linked(Started(m, k))
  {
    hide Linked, Settle, WithStage;
    var w := m.calls[k].write;
    if w.Update? && m.settings == None {
      SettleKeepsLinks(m, k, false, true);
    } else {
      var next := if w.Save? then w.next else w.patch(m.settings.value);
      StageKeepsLinks(m, k, Saving(next));
      OnlyLinksMatter(WithStage(m, k, Saving(next)), Started(m, k));
    }
  }

  /** A call's step is past waiting only when every call before it has settled. */
  lemma {:induction false} EarlierAreDone<S>(m: Chain<S>, j: nat, k: nat)
    requires Linked(m) && j < k < |m.calls| && !m.calls[k].stage.Waiting?
    ensures m.calls[j].stage.Done?
    decreases k
  {
    assert Hangs(m, k) && Hangs(m, k - 1);
    if j < k - 1 {
      EarlierAreDone(m, j, k - 1);
    }
  }

  // ---------------------------------------------------------------- the chain is the queue

  /** The first `n` calls have settled, those behind number `n` wait, and call `n` has not settled. */
  predicate SplitsAt<S>(calls: seq<Call<S>>, n: nat) {
    && n <= |calls|
    && (forall i :: 0 <= i < n ==> calls[i].stage.Done?)
    && (n < |calls| ==> !calls[n].stage.Done?)
    && (forall i :: n < i < |calls| ==> calls[i].stage.Waiting?)
  }

  /** How many calls have settled, from the first on. */
  function SettledCount<S>(calls: seq<Call<S>>): (n: nat)
    ensures n <= |calls| && forall i :: 0 <= i < n ==> calls[i].stage.Done?
    ensures n < |calls| ==> !calls[n].stage.Done?
  {
    if calls == [] || !calls[0].stage.Done? then 0 else 1 + SettledCount(calls[1..])
  }

  lemma LinkedSplits<S>(m: Chain<S>)
    requires Linked(m)
    ensures SplitsAt(m.calls, SettledCount(m.calls))
  {
    var n := SettledCount(m.calls);
    forall i | n < i < |m.calls|
      ensures m.calls[i].stage.Waiting?
    {
      if !m.calls[i].stage.Waiting? {
        EarlierAreDone(m, n, i);
      }
    }
  }

  /** Calls that have settled without a gap are counted. */
  lemma {:induction false} CountAtLeast<S>(calls: seq<Call<S>>, n: nat)
    requires n <= |calls| && forall i :: 0 <= i < n ==> calls[i].stage.Done?
    ensures n <= SettledCount(calls)
    decreases n
  {
    if n > 0 {
      CountAtLeast(calls[1..], n - 1);
    }
  }

  lemma SplitIsCount<S>(calls: seq<Call<S>>, n: nat)
    requires SplitsAt(calls, n)
    ensures SettledCount(calls) == n
  {
    CountAtLeast(calls, n);
  }

  function Writes<S>(calls: seq<Call<S>>): seq<Write<S>> {
    seq(|calls|, i requires 0 <= i < |calls| => calls[i].write)
  }

  function SettledCalls<S>(calls: seq<Call<S>>): seq<Q.Settled<S>>
    requires forall i :: 0 <= i < |calls| ==> calls[i].stage.Done?
  {
    seq(|calls|, i requires 0 <= i < |calls| =>
      Q.Settled(calls[i].write, calls[i].stage.reached, calls[i].stage.rejected))
  }

  function FlightOf<S>(c: Call<S>): Option<Q.Flight<S>> {
    match c.stage
    case Saving(next) => Some(Q.Saving(c.write, next))
    case Reloading(reached) => Some(Q.Reloading(c.write, reached))
    case _ => None
  }

  /** The queue that the chain amounts to when its calls split at `n`. */
  function QueueAt<S>(m: Chain<S>, n: nat): Q.Store<S>
    requires SplitsAt(m.calls, n)
  {
    var flight := if n < |m.calls| then FlightOf(m.calls[n]) else None;
    Q.Store(m.disk, m.settings, m.loadOk, m.error, m.writeSeq,
            Writes(m.calls[if flight.Some? then n + 1 else n..]), flight,
            Writes(m.calls), SettledCalls(m.calls[..n]))
  }

  function QueueOf<S>(m: Chain<S>): Q.Store<S>
    requires SplitsAt(m.calls, SettledCount(m.calls))
  {
    QueueAt(m, SettledCount(m.calls))
  }

  /** The queue's event behind an event of the chain; a link that settles is none. */
  function QueueEvent<S>(e: Event<S>): Option<Q.Event<S>> {
    match e
    case Enqueue(w) => Some(Q.Event.Call(w))
    case Start(_) => Some(Q.Begin)
    case SaveOk(_) => Some(Q.SaveOk)
    case SaveFails(_, reached) => Some(Q.SaveFails(reached))
    case LoadOk(_) => Some(Q.LoadOk)
    case LoadFails(_) => Some(Q.LoadFails)
    case Link(_) => None
  }

  /** An event about call k finds k to be the first call that has not settled. */
  lemma EventIsNext<S>(m: Chain<S>, e: Event<S>, n: nat)
    requires Linked(m) && Possible(m, e) && SplitsAt(m.calls, n) && !e.Enqueue? && !e.Link?
    ensures e.k == n
  {
    var k := e.k;
    assert Hangs(m, k);
    assert k > 0 ==> Hangs(m, k - 1);
  }

  /** One call's stage changes: what becomes of the parts of the queue. */
  lemma StageChanges<S>(calls: seq<Call<S>>, n: nat, stage: Stage<S>)
    requires SplitsAt(calls, n) && n < |calls|
    ensures var calls' := calls[n := calls[n].(stage := stage)];
            && Writes(calls') == Writes(calls) && calls'[..n] == calls[..n]
            && Writes(calls'[n + 1..]) == Writes(calls[n + 1..])
            && Writes(calls[n..]) == [calls[n].write] + Writes(calls[n + 1..])
            && (!stage.Done? ==> SplitsAt(calls', n))
            && (stage.Done? ==>
                  && SplitsAt(calls', n + 1)
                  && SettledCalls(calls'[..n + 1])
                     == SettledCalls(calls[..n]) + [Q.Settled(calls[n].write, stage.reached, stage.rejected)])
  {
    var calls' := calls[n := calls[n].(stage := stage)];
    assert calls'[n + 1..] == calls[n + 1..];
    if stage.Done? {
      assert calls'[..n + 1] == calls[..n] + [calls'[n]];
    }
  }

  lemma WritesSnoc<S>(calls: seq<Call<S>>, c: Call<S>, n: nat)
    requires n <= |calls|
    ensures Writes((calls + [c])[n..]) == Writes(calls[n..]) + [c.write]
  {
    assert (calls + [c])[n..] == calls[n..] + [c];
  }

  lemma EnqueueSplits<S>(calls: seq<Call<S>>, c: Call<S>, n: nat)
    requires SplitsAt(calls, n) && c.stage.Waiting?
    ensures SplitsAt(calls + [c], n) && (calls + [c])[..n] == calls[..n]
  {
  }

  lemma QueueTakesCall<S>(s: Q.Store<S>, w: Write<S>)
    ensures Q.Step(s, Q.Event.Call(w))
            == s.(queue := s.queue + [w], issued := s.issued + [w], writeSeq := s.writeSeq + 1)
  {
  }

  lemma EnqueueRefines<S>(m: Chain<S>, w: Write<S>, n: nat)
    requires SplitsAt(m.calls, n)
    ensures SplitsAt(Enqueued(m, w).calls, n)
    ensures QueueAt(Enqueued(m, w), n) == Q.Step(QueueAt(m, n), Q.Event.Call(w))
  {
    var c := Call(w, m.chain, |m.promises|, |m.promises| + 1, Waiting);
    EnqueueSplits(m.calls, c, n);
    QueueTakesCall(QueueAt(m, n), w);
    hide Writes, SettledCalls, SplitsAt, Q.Step, FlightOf;
    assert (m.calls + [c])[0..] == m.calls + [c] && m.calls[0..] == m.calls;
    WritesSnoc(m.calls, c, 0);
    WritesSnoc(m.calls, c, n);
    if n < |m.calls| {
      WritesSnoc(m.calls, c, n + 1);
      assert (m.calls + [c])[n] == m.calls[n];
    }
  }

  /** An update before anything has loaded is rejected on the spot, in the chain as in the queue. */
  lemma RefusalRefines<S>(m: Chain<S>, n: nat)
    requires SplitsAt(m.calls, n) && CanStart(m, n) && m.calls[n].write.Update? && m.settings == None
    ensures var m' := Started(m, n);
            SplitsAt(m'.calls, n + 1) && QueueAt(m', n + 1) == Q.Step(QueueAt(m, n), Q.Begin)
  {
    hide Writes, SettledCalls;
    StageChanges(m.calls, n, Done(false, true));
    NothingInFlight(Started(m, n).calls, n + 1);
    assert QueueAt(m, n).queue == [m.calls[n].write] + Writes(m.calls[n + 1..]);
  }

  lemma SavingRefines<S>(m: Chain<S>, n: nat, next: S)
    requires SplitsAt(m.calls, n) && CanStart(m, n) && Started(m, n).calls[n].stage == Saving(next)
    ensures var m' := Started(m, n);
            SplitsAt(m'.calls, n) && QueueAt(m', n) == Q.Step(QueueAt(m, n), Q.Begin)
  {
    hide Writes, SettledCalls;
    StageChanges(m.calls, n, Saving(next));
    assert QueueAt(m, n).queue == [m.calls[n].write] + Writes(m.calls[n + 1..]);
  }

  /** The start of call n is the queue's Begin. */
  lemma StartRefines<S>(m: Chain<S>, n: nat)
    requires SplitsAt(m.calls, n) && CanStart(m, n)
    ensures var m' := Started(m, n); var n' := if m'.calls[n].stage.Done? then n + 1 else n;
            SplitsAt(m'.calls, n') && QueueAt(m', n') == Q.Step(QueueAt(m, n), Q.Begin)
  {
    hide Q.Step, QueueAt, SplitsAt;
    if m.calls[n].write.Update? && m.settings == None {
      RefusalRefines(m, n);
    } else {
      SavingRefines(m, n, Started(m, n).calls[n].stage.next);
    }
  }

  lemma SaveRefines<S>(m: Chain<S>, n: nat)
    requires SplitsAt(m.calls, n) && AwaitsSave(m, n)
    ensures var m' := Step(m, SaveOk(n));
            SplitsAt(m'.calls, n + 1) && QueueAt(m', n + 1) == Q.Step(QueueAt(m, n), Q.SaveOk)
  {
    hide Writes, SettledCalls;
    StageChanges(m.calls, n, Done(true, false));
    NothingInFlight(Step(m, SaveOk(n)).calls, n + 1);
  }

  lemma FailureRefines<S>(m: Chain<S>, n: nat, reached: bool)
    requires SplitsAt(m.calls, n) && AwaitsSave(m, n)
    ensures var m' := Step(m, SaveFails(n, reached));
            SplitsAt(m'.calls, n) && QueueAt(m', n) == Q.Step(QueueAt(m, n), Q.SaveFails(reached))
  {
    hide Writes, SettledCalls;
    StageChanges(m.calls, n, Reloading(reached));
  }

  lemma ReloadRefines<S>(m: Chain<S>, n: nat, ok: bool)
    requires SplitsAt(m.calls, n) && AwaitsLoad(m, n)
    ensures var m' := Step(m, if ok then LoadOk(n) else LoadFails(n));
            && SplitsAt(m'.calls, n + 1)
            && QueueAt(m', n + 1) == Q.Step(QueueAt(m, n), if ok then Q.LoadOk else Q.LoadFails)
  {
    hide Writes, SettledCalls;
    StageChanges(m.calls, n, Done(m.calls[n].stage.reached, true));
    NothingInFlight(Step(m, if ok then LoadOk(n) else LoadFails(n)).calls, n + 1);
  }

  lemma NothingInFlight<S>(calls: seq<Call<S>>, n: nat)
    requires SplitsAt(calls, n) && n > 0 && forall i :: n <= i < |calls| ==> calls[i].stage.Waiting?
    ensures n < |calls| ==> FlightOf(calls[n]) == None
  {
  }

  /** An event about call n, in the terms of the queue. */
  lemma EventRefines<S>(m: Chain<S>, e: Event<S>, n: nat)
    requires SplitsAt(m.calls, n) && Possible(m, e) && !e.Enqueue? && !e.Link? && e.k == n
    ensures var m' := Step(m, e); var n' := if m'.calls[n].stage.Done? then n + 1 else n;
            SplitsAt(m'.calls, n') && QueueAt(m', n') == Q.Step(QueueAt(m, n), QueueEvent(e).value)
  {
    hide Q.Step, QueueAt, SplitsAt;
    match e
    case Start(_) => StartRefines(m, n);
    case SaveOk(_) => SaveRefines(m, n);
    case SaveFails(_, reached) => FailureRefines(m, n, reached);
    case LoadOk(_) => ReloadRefines(m, n, true);
    case LoadFails(_) => ReloadRefines(m, n, false);
  }

  /** Every event of the chain is that event of the queue, or no event at all. */
  lemma StepRefines<S>(m: Chain<S>, e: Event<S>)
    requires Linked(m) && Possible(m, e)
    ensures Linked(Step(m, e))
    ensures SplitsAt(m.calls, SettledCount(m.calls)) && SplitsAt(Step(m, e).calls, SettledCount(Step(m, e).calls))
    ensures QueueOf(Step(m, e)) == match QueueEvent(e) case None => QueueOf(m) case Some(q) => Q.Step(QueueOf(m), q)
  {
    hide SettledCount, Linked, Writes, SettledCalls, Q.Step, SplitsAt, Started, Settle, WithStage, FlightOf;
    StepKeepsLinks(m, e);
    LinkedSplits(m);
    LinkedSplits(Step(m, e));
    var n := SettledCount(m.calls);
    if e.Enqueue? {
      EnqueueRefines(m, e.write, n);
      SplitIsCount(Step(m, e).calls, n);
    } else if !e.Link? {
      EventIsNext(m, e, n);
      EventRefines(m, e, n);
      CallsStay(m, e, n);
      SplitIsCount(Step(m, e).calls, if Step(m, e).calls[n].stage.Done? then n + 1 else n);
    }
  }

  lemma CallsStay<S>(m: Chain<S>, e: Event<S>, n: nat)
    requires Possible(m, e) && !e.Enqueue? && !e.Link? && e.k == n
    ensures |Step(m, e).calls| == |m.calls| && n < |m.calls|
  {
  }

  // ---------------------------------------------------------------- the claims

  lemma {:induction false} RunRefines<S(!new)>(m: Chain<S>, start: S, events: seq<Event<S>>)
    requires Linked(m) && SplitsAt(m.calls, SettledCount(m.calls)) && Q.Inv(QueueOf(m), start)
    ensures var m' := Run(m, events);
            Linked(m') && SplitsAt(m'.calls, SettledCount(m'.calls)) && Q.Inv(QueueOf(m'), start)
    decreases |events|
  {
    hide Q.Inv, Q.Step, Step, Possible, Linked, SettledCount, QueueOf;
    if events != [] {
      var e := events[0];
      if Possible(m, e) {
        StepRefines(m, e);
        if QueueEvent(e).Some? {
          Q.StepKeeps(QueueOf(m), start, QueueEvent(e).value);
        }
        RunRefines(Step(m, e), start, events[1..]);
      } else {
        RunRefines(m, start, events[1..]);
      }
    }
  }

  predicate InFlight<S>(c: Call<S>) {
    c.stage.Saving? || c.stage.Reloading?
  }

  /** For every interleaving of calls, replies and reactions: at most one save is under way; no call starts
      before every earlier one has settled, failed or not; the caller is told what became of its own call. */
  lemma OneAtATime<S(!new)>(m0: Chain<S>, events: seq<Event<S>>)
    requires Initial(m0)
    ensures var m := Run(m0, events);
            && (forall j, k :: 0 <= j < |m.calls| && 0 <= k < |m.calls| ==>
                  InFlight(m.calls[j]) && InFlight(m.calls[k]) ==> j == k)
            && (forall j, k :: 0 <= j < k < |m.calls| && !m.calls[k].stage.Waiting? ==> m.calls[j].stage.Done?)
            && (forall k :: 0 <= k < |m.calls| ==>
                  && (m.calls[k].stage.Done? <==> PromiseAt(m, m.calls[k].run) != Pending)
                  && (m.calls[k].stage.Done? && m.calls[k].stage.rejected
                      <==> PromiseAt(m, m.calls[k].run) == Rejected))
            && m.writeSeq == |m.calls|
  {
    hide Q.Inv, QueueOf, SettledCount, Run, SplitsAt;
    var m := Run(m0, events);
    StartsLinked(m0);
    RunRefines(m0, m0.disk, events);
    forall j, k | 0 <= j < k < |m.calls| && !m.calls[k].stage.Waiting?
      ensures m.calls[j].stage.Done?
    {
      EarlierAreDone(m, j, k);
    }
    forall k | 0 <= k < |m.calls|
      ensures m.calls[k].stage.Done? <==> PromiseAt(m, m.calls[k].run) != Pending
      ensures m.calls[k].stage.Done? && m.calls[k].stage.rejected <==> PromiseAt(m, m.calls[k].run) == Rejected
    {
      assert Hangs(m, k);
    }
  }

  lemma StartsLinked<S(!new)>(m: Chain<S>)
    requires Initial(m)
    ensures Linked(m) && SplitsAt(m.calls, SettledCount(m.calls)) && Q.Inv(QueueOf(m), m.disk)
  {
    LinkedSplits(m);
    assert Writes(m.calls) == [] && SettledCalls(m.calls[..0]) == [];
  }

  /** For every interleaving: when no call is under way the disk is what it was at first with the writes
      that reached it applied in call order; if the last load or save went through, `settings` is the disk,
      and otherwise nothing is shown; when no call waits either, every call has been counted in. */
  lemma QueueIsSequential<S(!new)>(m0: Chain<S>, events: seq<Event<S>>)
    requires Initial(m0)
    ensures var m := Run(m0, events); var n := SettledCount(m.calls);
            && (forall k :: 0 <= k < |m.calls| ==> !InFlight(m.calls[k])) ==>
                  && m.disk == Q.Folded(m0.disk, SettledCalls(m.calls[..n]))
                  && (m.loadOk ==> m.settings == Some(m.disk))
                  && (!m.loadOk ==> m.settings == None)
                  && (forall k :: n <= k < |m.calls| ==> m.calls[k].stage.Waiting?)
  {
    hide Linked, SettledCount, SettledCalls, Writes, Q.Folded, Q.WritesOf;
    StartsLinked(m0);
    RunRefines(m0, m0.disk, events);
  }

  /** The chain never wedges: while a call waits and none is under way, a reaction is due, whether or not
      the calls before it failed. */
  lemma NeverWedged<S(!new)>(m0: Chain<S>, events: seq<Event<S>>)
    requires Initial(m0)
    ensures var m := Run(m0, events); var n := SettledCount(m.calls);
            n < |m.calls| && !InFlight(m.calls[n]) ==> Possible(m, Start(n)) || (n > 0 && Possible(m, Link(n - 1)))
  {
    hide Q.Inv, QueueOf, SettledCount, Run;
    var m := Run(m0, events);
    StartsLinked(m0);
    RunRefines(m0, m0.disk, events);
    var n := SettledCount(m.calls);
    if n < |m.calls| {
      assert Hangs(m, n);
      if n > 0 {
        assert Hangs(m, n - 1);
      }
    }
  }

  // ---------------------------------------------------------------- what becomes of one call

  /** A step that has left its await of saveSettings never awaits it again. */
  lemma {:induction false} NeverSavingAgain<S>(m: Chain<S>, k: nat, events: seq<Event<S>>)
    requires k < |m.calls| && (m.calls[k].stage.Reloading? || m.calls[k].stage.Done?)
    ensures !AwaitsSave(Run(m, events), k)
    decreases |events|
  {
    if events != [] {
      var m' := if Possible(m, events[0]) then Step(m, events[0]) else m;
      NeverSavingAgain(m', k, events[1..]);
    }
  }

  /** While a call awaits saveSettings, nothing but a new call or a swallowed promise can come in between. */
  lemma SavingIsAlone<S>(m: Chain<S>, k: nat, e: Event<S>)
    requires Linked(m) && Possible(m, e) && AwaitsSave(m, k)
    ensures e.Enqueue? || e.Link? || ((e.SaveOk? || e.SaveFails?) && e.k == k)
  {
    var n := SettledCount(m.calls);
    LinkedSplits(m);
    if !e.Enqueue? && !e.Link? {
      EventIsNext(m, e, n);
    }
  }

  lemma {:induction false} StaysSaving<S>(m: Chain<S>, k: nat, events: seq<Event<S>>)
    requires Linked(m) && AwaitsSave(m, k) && AwaitsSave(Run(m, events), k)
    ensures var m' := Run(m, events);
            && Linked(m') && m'.calls[k] == m.calls[k]
            && m'.disk == m.disk && m'.settings == m.settings && m'.loadOk == m.loadOk && m'.error == m.error
    decreases |events|
  {
    hide Linked;
    if events != [] {
      var e := events[0];
      if Possible(m, e) {
        SavingIsAlone(m, k, e);
        StepKeepsLinks(m, e);
        if e.SaveOk? || e.SaveFails? {
          NeverSavingAgain(Step(m, e), k, events[1..]);
        } else {
          StaysSaving(Step(m, e), k, events[1..]);
        }
      } else {
        StaysSaving(m, k, events[1..]);
      }
    }
  }

  lemma LinkedHangs<S>(m: Chain<S>, k: nat)
    requires Linked(m) && k < |m.calls|
    ensures Hangs(m, k) && m.calls[k].run < |m.promises|
  {
  }

  /** When its turn comes, a call is refused exactly when it is an update and nothing is shown that it could
      be merged into; then its promise is rejected and nothing else changes. Any other call, a save into a
      quarantined store among them, shows its value at once and awaits the backend with it. */
  lemma EveryCallIsAttempted<S(!new)>(m0: Chain<S>, events: seq<Event<S>>, k: nat)
    requires Initial(m0) && Possible(Run(m0, events), Start(k))
    ensures var m, m' := Run(m0, events), Step(Run(m0, events), Start(k));
            var c := m.calls[k];
            && m'.disk == m.disk && m'.loadOk == m.loadOk && |m'.calls| == |m.calls|
            && (m'.calls[k].stage.Done? <==> c.write.Update? && m.settings == None)
            && (m'.calls[k].stage.Done? ==>
                  && m'.calls[k].stage == Done(false, true) && PromiseAt(m', c.run) == Rejected
                  && m'.settings == m.settings && m'.error == m.error)
            && (!m'.calls[k].stage.Done? ==>
                  && m'.calls[k].stage.Saving? && m'.settings == Some(m'.calls[k].stage.next) && !m'.error
                  && m'.calls[k].stage.next == match c.write case Save(s) => s case Update(p) => p(m.settings.value))
  {
    hide Q.Inv, QueueOf, SettledCount, Run, SplitsAt, Linked;
    StartsLinked(m0);
    RunRefines(m0, m0.disk, events);
    LinkedHangs(Run(m0, events), k);
  }

  /** A call that awaits saveSettings, whatever else has happened since it started: if the backend accepts,
      its value is on disk and shown, the store is armed, no error is shown, and its promise is fulfilled. */
  lemma AcceptedCallIsSaved<S(!new)>(m0: Chain<S>, events: seq<Event<S>>, k: nat, between: seq<Event<S>>)
    requires Initial(m0) && Possible(Run(m0, events), Start(k))
    requires AwaitsSave(Run(Step(Run(m0, events), Start(k)), between), k)
    ensures var m := Run(m0, events);
            var w := m.calls[k].write;
            var after := Step(Run(Step(m, Start(k)), between), SaveOk(k));
            && (w.Update? ==> m.settings.Some?)
            && after.disk == (match w case Save(s) => s case Update(p) => p(m.settings.value))
            && after.settings == Some(after.disk) && after.loadOk && !after.error
            && PromiseAt(after, m.calls[k].run) == Fulfilled
  {
    hide Linked, Run, Q.Inv, SplitsAt, QueueOf, SettledCount;
    StartsLinked(m0);
    RunRefines(m0, m0.disk, events);
    var m := Run(m0, events);
    EveryCallIsAttempted(m0, events, k);
    var started := Step(m, Start(k));
    StepKeepsLinks(m, Start(k));
    if started.calls[k].stage.Done? {
      NeverSavingAgain(started, k, between);
    }
    StaysSaving(started, k, between);
    LinkedHangs(Run(started, between), k);
    assert started.calls[k].run == m.calls[k].run;
  }

  // ---------------------------------------------------------------- the store itself

  /** createSettingsStore's closure: its variables, and the pieces of its steps that run between two awaits.
      `disk` is the file on the backend's side; `calls` are the activations of queued steps. */
  class SettingsStore<!S> {
    var disk: S
    var settings: Option<S>
    var loadOk: bool
    var error: bool
    var writeSeq: nat
    var promises: seq<Promise>
    var chain: nat
    var calls: seq<Call<S>>

    ghost function State(): Chain<S>
      reads this
    {
      Chain(disk, settings, loadOk, error, writeSeq, promises, chain, calls)
    }

    /** A store whose first load has succeeded. */
    constructor (disk: S)
      ensures State() == Chain(disk, Some(disk), true, false, 0, [Fulfilled], 0, [])
    {
      this.disk, settings, loadOk, error := disk, Some(disk), true, false;
      writeSeq, promises, chain, calls := 0, [Fulfilled], 0, [];
    }

    /** A promise that is still pending. */
    method NewPromise() returns (p: nat)
      modifies `promises
      ensures p == |old(promises)| && promises == old(promises) + [Pending]
    {
      p := |promises|;
      promises := promises + [Pending];
    }

    /** enqueue: the counter is bumped at once; the step is hung onto the chain, and the chain moves on. */
    method Enqueue(w: Write<S>) returns (run: nat)
      modifies this
      ensures State() == Enqueued(old(State()), w) && run == |old(promises)|
    {
      writeSeq := writeSeq + 1;
      run := NewPromise();
      var link := NewPromise();
      calls := calls + [Call(w, chain, run, link, Waiting)];
      chain := link;
    }

    /** The step of call k ends, and the promise its caller got settles. */
    method Finish(k: nat, reached: bool, rejected: bool)
      requires k < |calls|
      modifies `calls, `promises
      ensures State() == Settle(old(State()), k, reached, rejected)
    {
      var run := calls[k].run;
      calls := calls[k := calls[k].(stage := Done(reached, rejected))];
      if run < |promises| {
        promises := promises[run := if rejected then Rejected else Fulfilled];
      }
    }

    /** The step of call k: update's check and patch, then performSave up to its await. */
    method Begin(k: nat)
      requires CanStart(State(), k)
      modifies this
      ensures State() == Step(old(State()), Start(k))
      ensures calls[k].stage.Done? <==> old(calls)[k].write.Update? && old(settings) == None
      ensures !calls[k].stage.Done? ==>
                && settings == Some(match old(calls)[k].write
                                    case Save(next) => next
                                    case Update(patch) => patch(old(settings).value))
                && calls[k].stage == Saving(settings.value)
    {
      var w := calls[k].write;
      if w.Update? && settings == None {
        Finish(k, false, true);
        return;
      }
      var next := if w.Save? then w.next else w.patch(settings.value);
      settings, error := Some(next), false;
      calls := calls[k := calls[k].(stage := Saving(next))];
    }

    /** performSave past its await, when the save went through. */
    method SaveResolved(k: nat)
      requires AwaitsSave(State(), k)
      modifies this
      ensures State() == Step(old(State()), SaveOk(k))
    {
      var next := calls[k].stage.next;
      disk, settings, loadOk := next, Some(next), true;
      Finish(k, true, false);
    }

    /** performSave's catch branch, and load() up to its await. */
    method SaveRejected(k: nat, reached: bool)
      requires AwaitsSave(State(), k)
      modifies this
      ensures State() == Step(old(State()), SaveFails(k, reached))
    {
      if reached {
        disk := calls[k].stage.next;
      }
      error := true;
      error := false;
      calls := calls[k := calls[k].(stage := Reloading(reached))];
    }

    /** load() past its await, and the rethrow. */
    method Reloaded(k: nat, ok: bool)
      requires AwaitsLoad(State(), k)
      modifies this
      ensures State() == Step(old(State()), if ok then LoadOk(k) else LoadFails(k))
    {
      if ok {
        settings, loadOk := Some(disk), true;
      } else {
        settings, loadOk, error := None, false, true;
      }
      Finish(k, calls[k].stage.reached, true);
    }

    /** The reaction that swallows how call k's promise settled. */
    method Swallow(k: nat)
      requires CanLink(State(), k)
      modifies `promises
      ensures State() == Step(old(State()), Link(k))
    {
      if calls[k].link < |promises| {
        promises := promises[calls[k].link := Fulfilled];
      }
    }
  }
}
