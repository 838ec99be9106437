/**
The event loop's functor queue and its eventfd wakeup, as steps of one loop thread and any number of
other threads. A push and the wakeup write that follows it are two steps, and so are the read that
clears the eventfd and the swap that empties the queue; they interleave freely.
*/
module EventLoop {

  /** Where the loop thread is. */
  datatype Phase =
    | Idle        // loop() has not been called, or has not cleared the quit flag yet
    | AtTop       // about to test the quit flag
    | Polling     // blocked in poll
    | Handling    // dispatching the reported channels
    | Swapping    // in do_pending_functors, before the swap
    | Running     // executing the swapped-out batch
    | Done        // loop() has returned

  /** A queued functor, stamped with the number of swaps that had happened when it was pushed. */
  datatype Entry<F> = Entry(functor: F, stamp: nat)

  /** An execution: which entry, and in which batch (counting swaps from one). */
  datatype Execution<F> = Execution(entry: Entry<F>, batch: nat)

  datatype Loop<F> = Loop(
    phase: Phase,
    quit: bool,
    calling: bool,                 // the calling_pending_functors_ flag
    pending: seq<Entry<F>>,
    batch: seq<Entry<F>>,          // the rest of the batch being executed
    counter: nat,                  // the eventfd counter
    owed: nat,                     // other threads between their push or quit and their wakeup write
    selfOwes: bool,                // the loop thread itself is between push and wakeup write
    // history
    swaps: nat,
    pushed: seq<Entry<F>>,
    executed: seq<Execution<F>>)

  function Init<F>(): Loop<F> {
    Loop(Idle, false, false, [], [], 0, 0, false, 0, [], [])
  }

  datatype Event<F> =
    | OtherPush(f: F)      // queue_in_loop from another thread: lock and append
    | OtherQuit            // quit from another thread: set the flag
    | OtherWake            // ... and the wakeup write either of them owes
    | LoopPush(f: F)       // queue_in_loop from the loop thread
    | LoopWake             // ... and its wakeup write, if it owes one
    | LoopQuit             // quit from the loop thread: no wakeup
    | Start                // loop() clears the quit flag
    | Test                 // the while condition
    | PollReturns          // with whatever channels, or on timeout
    | ReadWakeup           // the wakeup channel's handler clears the counter
    | BeginBatch           // all channels handled; set the calling flag
    | Swap
    | RunFunctor
    | EndBatch             // clear the calling flag

  predicate Enabled<F>(s: Loop<F>, e: Event<F>) {
    match e
    case OtherPush(_) => true
    case OtherQuit => true
    case OtherWake => s.owed > 0
    case LoopPush(_) => (s.phase == Idle || s.phase == Handling || s.phase == Running) && !s.selfOwes
    case LoopWake => s.selfOwes
    case LoopQuit => (s.phase == Idle || s.phase == Handling || s.phase == Running) && !s.selfOwes
    case Start => s.phase == Idle
    case Test => s.phase == AtTop
    case PollReturns => s.phase == Polling
    case ReadWakeup => s.phase == Handling
    case BeginBatch => s.phase == Handling
    case Swap => s.phase == Swapping
    case RunFunctor => s.phase == Running && s.batch != [] && !s.selfOwes
    case EndBatch => s.phase == Running && s.batch == [] && !s.selfOwes
  }

  function Push<F>(s: Loop<F>, f: F): Loop<F> {
    var entry := Entry(f, s.swaps);
    s.(pending := s.pending + [entry], pushed := s.pushed + [entry])
  }

  function Step<F>(s: Loop<F>, e: Event<F>): Loop<F>
    requires Enabled(s, e)
  {
    match e
    case OtherPush(f) => Push(s, f).(owed := s.owed + 1)
    case OtherQuit => s.(quit := true, owed := s.owed + 1)
    case OtherWake => s.(owed := s.owed - 1, counter := s.counter + 1)
    case LoopPush(f) => Push(s, f).(selfOwes := s.calling)
    case LoopWake => s.(selfOwes := false, counter := s.counter + 1)
    case LoopQuit => s.(quit := true)
    case Start => s.(phase := AtTop, quit := false)
    case Test => s.(phase := if s.quit then Done else Polling)
    case PollReturns => s.(phase := Handling)
    case ReadWakeup => s.(counter := 0)
    case BeginBatch => s.(phase := Swapping, calling := true)
    case Swap => s.(phase := Running, batch := s.pending, pending := [], swaps := s.swaps + 1)
    case RunFunctor =>
      s.(batch := s.batch[1..], executed := s.executed + [Execution(s.batch[0], s.swaps)])
    case EndBatch => s.(phase := AtTop, calling := false)
  }

  predicate Legal<F>(s: Loop<F>, es: seq<Event<F>>)
    decreases |es|
  {
    es == [] || (Enabled(s, es[0]) && Legal(Step(s, es[0]), es[1..]))
  }

  function Run<F>(s: Loop<F>, es: seq<Event<F>>): Loop<F>
    requires Legal(s, es)
    decreases |es|
  {
    if es == [] then s else Run(Step(s, es[0]), es[1..])
  }

  // ---------------------------------------------------------------------------
  // No lost wakeup
  // ---------------------------------------------------------------------------

  /** The eventfd is readable, or somebody is about to make it so. */
  predicate WakeupComing<F>(s: Loop<F>) {
    s.counter > 0 || s.owed > 0
  }

  /** A loop blocked in poll with something to do is about to be woken. */
  predicate NoLostWakeup<F>(s: Loop<F>) {
    s.phase == Polling && (s.pending != [] || s.quit) ==> WakeupComing(s)
  }

  /** Everything queued so far has been announced; what `loop()` needs of its queue on entry. */
  predicate Announced<F>(s: Loop<F>) {
    s.pending != [] ==> WakeupComing(s)
  }

  /**
  From one swap to the next read of the eventfd every pending functor is announced. Between that read
  and the swap nothing is promised, and nothing needs to be: the swap is still to come.
  */
  predicate WakeInv<F>(s: Loop<F>) {
    && (s.calling <==> s.phase == Swapping || s.phase == Running)
    && (s.selfOwes ==> s.phase == Running)
    && (s.phase == Idle || s.phase == AtTop || s.phase == Polling ==> Announced(s))
    && (s.phase == Running ==> Announced(s) || s.selfOwes)
    && (s.phase == Polling && s.quit ==> WakeupComing(s))
  }

  lemma WakeStep<F>(s: Loop<F>, e: Event<F>)
    requires WakeInv(s) && Enabled(s, e) && !(e.LoopPush? && s.phase == Idle)
    ensures WakeInv(Step(s, e))
  {
  }

  lemma {:induction false} WakeRun<F>(s: Loop<F>, es: seq<Event<F>>)
    requires WakeInv(s) && s.phase != Idle && Legal(s, es)
    ensures WakeInv(Run(s, es))
    decreases |es|
  {
    if es != [] {
      WakeStep(s, es[0]);
      WakeRun(Step(s, es[0]), es[1..]);
    }
  }

  /** A state in which the loop thread is about to call loop(): no batch, no half-done push. */
  predicate BeforeLoop<F>(s: Loop<F>) {
    s.phase == Idle && !s.calling && !s.selfOwes && s.batch == []
  }

  /** Along every run that begins with entering loop(), no wakeup is ever lost. */
  ghost predicate NeverLost<F(!new)>(s: Loop<F>)
    requires BeforeLoop(s)
  {
    forall es :: Legal(Step(s, Start), es) ==> NoLostWakeup(Run(Step(s, Start), es))
  }

  /** Exactly when: no wakeup is ever lost if and only if the queue is announced when loop() is entered. */
  lemma NoLostWakeupIff<F(!new)>(s: Loop<F>)
    requires BeforeLoop(s)
    ensures NeverLost(s) <==> Announced(s)
  {
    var s0 := Step(s, Start);
    if Announced(s) {
      forall es | Legal(s0, es)
        ensures NoLostWakeup(Run(s0, es))
      {
        WakeRun(s0, es);
      }
    } else {
      var s1 := Step(s0, Test);
      var es := [Test];
      assert es[1..] == [];
      assert Legal(s1, es[1..]) && Run(s1, es[1..]) == s1;
      assert Legal(s0, es) && Run(s0, es) == s1;
      assert !NoLostWakeup(s1);
    }
  }

  /** The loop thread queues nothing before it enters loop(). */
  predicate NoEarlyLoopPush<F>(s: Loop<F>, es: seq<Event<F>>)
    requires Legal(s, es)
    decreases |es|
  {
    es == [] || (!(es[0].LoopPush? && s.phase == Idle) && NoEarlyLoopPush(Step(s, es[0]), es[1..]))
  }

  lemma {:induction false} DisciplinedRun<F>(s: Loop<F>, es: seq<Event<F>>)
    requires WakeInv(s) && Legal(s, es) && NoEarlyLoopPush(s, es)
    ensures WakeInv(Run(s, es))
    decreases |es|
  {
    if es != [] {
      WakeStep(s, es[0]);
      DisciplinedRun(Step(s, es[0]), es[1..]);
    }
  }

  /** The whole life of a loop: other threads may push or quit at any time, also before loop(). */
  lemma NoLostWakeupFromStart<F>(es: seq<Event<F>>)
    requires Legal(Init<F>(), es) && NoEarlyLoopPush(Init<F>(), es)
    ensures NoLostWakeup(Run(Init<F>(), es))
  {
    DisciplinedRun(Init<F>(), es);
  }

  /** Without the discipline it fails: the loop thread's own early push is met by an unwoken poll. */
  lemma EarlyLoopPushIsLost<F>(f: F)
    ensures Legal(Init<F>(), [LoopPush(f), Start, Test])
    ensures !NoLostWakeup(Run(Init<F>(), [LoopPush(f), Start, Test]))
  {
    var s1 := Step(Init<F>(), LoopPush(f));
    var s2 := Step(s1, Start);
    var s3 := Step(s2, Test);
    var es: seq<Event<F>> := [LoopPush(f), Start, Test];
    assert es[1..] == [Start, Test] && es[1..][1..] == [Test] && es[1..][1..][1..] == [];
    assert Legal(s3, []) && Run(s3, []) == s3;
    assert Legal(s2, [Test]) && Run(s2, [Test]) == s3;
    assert Legal(s1, [Start, Test]) && Run(s1, [Start, Test]) == s3;
  }

  /** A quit that comes before loop() clears the flag is forgotten. */
  lemma EarlyQuitIsForgotten<F>()
    ensures Legal(Init<F>(), [OtherQuit, OtherWake, Start, Test])
    ensures Run(Init<F>(), [OtherQuit, OtherWake, Start, Test]).phase == Polling
  {
    var s1 := Step(Init<F>(), OtherQuit);
    var s2 := Step(s1, OtherWake);
    var s3 := Step(s2, Start);
    var s4 := Step(s3, Test);
    var es: seq<Event<F>> := [OtherQuit, OtherWake, Start, Test];
    assert es[1..] == [OtherWake, Start, Test] && es[1..][1..] == [Start, Test];
    assert es[1..][1..][1..] == [Test] && es[1..][1..][1..][1..] == [];
    assert Legal(s4, []) && Run(s4, []) == s4;
    assert Legal(s3, [Test]) && Run(s3, [Test]) == s4;
    assert Legal(s2, [Start, Test]) && Run(s2, [Start, Test]) == s4;
    assert Legal(s1, [OtherWake, Start, Test]) && Run(s1, [OtherWake, Start, Test]) == s4;
  }

  /**
  What a quit that has set the flag should bring about along `es`: the flag stays set, only a poll the
  loop was blocked in already may still be going on, and the next test of the flag ends the loop.
  */
  ghost predicate QuitKept<F>(s: Loop<F>, es: seq<Event<F>>)
    requires Legal(s, es)
  {
    && Run(s, es).quit
    && (Run(s, es).phase == Polling ==> s.phase == Polling && PollReturns !in es)
    && (Test in es ==> Run(s, es).phase == Done)
  }

  lemma {:induction false} DoneIsFinal<F>(s: Loop<F>, es: seq<Event<F>>)
    requires Legal(s, es) && s.phase == Done
    ensures Run(s, es).phase == Done
    decreases |es|
  {
    if es != [] {
      DoneIsFinal(Step(s, es[0]), es[1..]);
    }
  }

  /**
  Quit stops a started loop wherever it is, also one that is blocked in poll; and if such a poll is still
  going on, its wakeup is on the way.
  */
  lemma {:induction false} QuitStopsPolling<F>(s: Loop<F>, es: seq<Event<F>>)
    requires Legal(s, es) && s.quit && s.phase != Idle
    ensures QuitKept(s, es)
    ensures WakeInv(s) && Run(s, es).phase == Polling ==> WakeupComing(Run(s, es))
    decreases |es|
  {
    if WakeInv(s) {
      WakeRun(s, es);
    }
    if es != [] {
      var s1 := Step(s, es[0]);
      QuitStopsPolling(s1, es[1..]);
      assert forall e :: e in es <==> e == es[0] || e in es[1..];
      if es[0] == Test {
        DoneIsFinal(s1, es[1..]);
      }
    }
  }

  /** The quit that leads to `s` is honoured along every run. */
  ghost predicate QuitHonoured<F(!new)>(s: Loop<F>) {
    forall es :: Legal(s, es) ==> QuitKept(s, es)
  }

  /** Exactly when: a quit, from any thread, is honoured if and only if loop() has cleared the flag before. */
  lemma QuitHonouredIff<F(!new)>(s: Loop<F>, e: Event<F>)
    requires (e.OtherQuit? || e.LoopQuit?) && Enabled(s, e)
    ensures QuitHonoured(Step(s, e)) <==> s.phase != Idle
  {
    var s0 := Step(s, e);
    if s.phase != Idle {
      forall es | Legal(s0, es)
        ensures QuitKept(s0, es)
      {
        QuitStopsPolling(s0, es);
      }
    } else {
      var s1 := Step(s0, Start);
      var es := [Start];
      assert es[1..] == [];
      assert Legal(s1, es[1..]) && Run(s1, es[1..]) == s1;
      assert Legal(s0, es) && !QuitKept(s0, es);
    }
  }

  // ---------------------------------------------------------------------------
  // The eventfd counter
  // ---------------------------------------------------------------------------

  /** What comes after the last read of the eventfd; everything, if it is never read. */
  ghost function SinceRead<F>(es: seq<Event<F>>): seq<Event<F>>
    decreases |es|
  {
    if ReadWakeup in es then SinceRead(es[1..]) else es
  }

  /** How many wakeup writes there are. */
  function Wakeups<F>(es: seq<Event<F>>): nat
    decreases |es|
  {
    if es == [] then 0 else (if es[0].OtherWake? || es[0].LoopWake? then 1 else 0) + Wakeups(es[1..])
  }

  lemma {:induction false} CounterRun<F>(s: Loop<F>, es: seq<Event<F>>)
    requires Legal(s, es)
    ensures Run(s, es).counter == (if ReadWakeup in es then 0 else s.counter) + Wakeups(SinceRead(es))
    decreases |es|
  {
    if es != [] {
      CounterRun(Step(s, es[0]), es[1..]);
      assert ReadWakeup in es <==> es[0] == ReadWakeup || ReadWakeup in es[1..];
      if es[0] == ReadWakeup && ReadWakeup !in es[1..] {
        assert SinceRead(es[1..]) == es[1..];
      }
    }
  }

  /** The eventfd holds the wakeups since its last read, and nothing else: a loop left alone sleeps. */
  lemma CounterExact<F>(es: seq<Event<F>>)
    requires Legal(Init<F>(), es)
    ensures Run(Init<F>(), es).counter == Wakeups(SinceRead(es))
  {
    CounterRun(Init<F>(), es);
  }

  /** What asks for a wakeup: a push or a quit from another thread, or a push by a functor of the loop. */
  predicate AsksForWakeup<F>(s: Loop<F>, e: Event<F>) {
    e.OtherPush? || e.OtherQuit? || (e.LoopPush? && s.phase == Running)
  }

  function Requests<F>(s: Loop<F>, es: seq<Event<F>>): nat
    requires Legal(s, es)
    decreases |es|
  {
    if es == [] then 0 else (if AsksForWakeup(s, es[0]) then 1 else 0) + Requests(Step(s, es[0]), es[1..])
  }

  /** Half-done requests. */
  function Owing<F>(s: Loop<F>): nat {
    s.owed + if s.selfOwes then 1 else 0
  }

  /** One step asks for a wakeup, writes one, or neither. */
  lemma WakeupsStep<F>(s: Loop<F>, e: Event<F>)
    requires Enabled(s, e) && (s.calling <==> s.phase == Swapping || s.phase == Running)
    ensures var s' := Step(s, e);
      && (s'.calling <==> s'.phase == Swapping || s'.phase == Running)
      && Owing(s) + (if AsksForWakeup(s, e) then 1 else 0)
           == Owing(s') + if e.OtherWake? || e.LoopWake? then 1 else 0
  {
  }

  lemma {:induction false} WakeupsRun<F>(s: Loop<F>, es: seq<Event<F>>)
    requires Legal(s, es) && (s.calling <==> s.phase == Swapping || s.phase == Running)
    ensures Owing(s) + Requests(s, es) == Wakeups(es) + Owing(Run(s, es))
    decreases |es|
  {
    if es != [] {
      WakeupsStep(s, es[0]);
      WakeupsRun(Step(s, es[0]), es[1..]);
    }
  }

  /** Every request is answered by exactly one wakeup write, done or about to be, and there are no others. */
  lemma WakeupsExact<F>(es: seq<Event<F>>)
    requires Legal(Init<F>(), es)
    ensures Requests(Init<F>(), es) == Wakeups(es) + Owing(Run(Init<F>(), es))
  {
    WakeupsRun(Init<F>(), es);
  }

  // ---------------------------------------------------------------------------
  // Functors: exactly once, in order, in the next batch
  // ---------------------------------------------------------------------------

  function Entries<F>(xs: seq<Execution<F>>): (r: seq<Entry<F>>)
    ensures |r| == |xs| && forall i :: 0 <= i < |xs| ==> r[i] == xs[i].entry
  {
    seq(|xs|, i requires 0 <= i < |xs| => xs[i].entry)
  }

  ghost predicate ConcatInv<F>(s: Loop<F>) {
    Entries(s.executed) + s.batch + s.pending == s.pushed && (s.phase != Running ==> s.batch == [])
  }

  ghost predicate StampInv<F>(s: Loop<F>) {
    && (forall i :: 0 <= i < |s.pending| ==> s.pending[i].stamp == s.swaps)
    && (forall i :: 0 <= i < |s.batch| ==> s.batch[i].stamp + 1 == s.swaps)
    && (forall i :: 0 <= i < |s.executed| ==> s.executed[i].batch == s.executed[i].entry.stamp + 1)
  }

  ghost predicate OrderInv<F>(s: Loop<F>) {
    ConcatInv(s) && StampInv(s)
  }

  lemma ConcatStep<F>(s: Loop<F>, e: Event<F>)
    requires ConcatInv(s) && Enabled(s, e)
    ensures ConcatInv(Step(s, e))
  {
  }

  lemma StampStep<F>(s: Loop<F>, e: Event<F>)
    requires StampInv(s) && (s.phase != Running ==> s.batch == []) && Enabled(s, e)
    ensures StampInv(Step(s, e))
  {
  }

  lemma {:induction false} OrderRun<F>(s: Loop<F>, es: seq<Event<F>>)
    requires OrderInv(s) && Legal(s, es)
    ensures OrderInv(Run(s, es))
    decreases |es|
  {
    if es != [] {
      ConcatStep(s, es[0]);
      StampStep(s, es[0]);
      OrderRun(Step(s, es[0]), es[1..]);
    }
  }

  /** The functors pushed in a run, in order, each with the number of swaps before its push. */
  function Pushes<F>(swaps: nat, es: seq<Event<F>>): seq<Entry<F>>
    decreases |es|
  {
    if es == [] then []
    else
      match es[0]
      case OtherPush(f) => [Entry(f, swaps)] + Pushes(swaps, es[1..])
      case LoopPush(f) => [Entry(f, swaps)] + Pushes(swaps, es[1..])
      case Swap => Pushes(swaps + 1, es[1..])
      case _ => Pushes(swaps, es[1..])
  }

  lemma {:induction false} PushedRun<F>(s: Loop<F>, es: seq<Event<F>>)
    requires Legal(s, es)
    ensures Run(s, es).pushed == s.pushed + Pushes(s.swaps, es)
    decreases |es|
  {
    if es != [] {
      PushedRun(Step(s, es[0]), es[1..]);
    }
  }

  /**
  Exactly once, in order, deferred: the executed functors, then the rest of the batch, then the queue
  are all pushes of the run in push order, and whatever was pushed while batch k ran is executed in
  batch k + 1, never in batch k.
  */
  lemma FunctorsInOrder<F>(es: seq<Event<F>>)
    requires Legal(Init<F>(), es)
    ensures var s := Run(Init<F>(), es);
      && Entries(s.executed) + s.batch + s.pending == Pushes(0, es)
      && forall i :: 0 <= i < |s.executed| ==> s.executed[i].batch == Pushes(0, es)[i].stamp + 1
  {
    OrderRun(Init<F>(), es);
    PushedRun(Init<F>(), es);
  }

  // ---------------------------------------------------------------------------
  // Functors can run, unless the loop is on its way out
  // ---------------------------------------------------------------------------

  /** The loop has returned, or will do so before it swaps its queue again. */
  predicate Leaving<F>(s: Loop<F>) {
    s.phase == Done || (s.quit && (s.phase == AtTop || s.phase == Running))
  }

  /** What the steps keep about where the loop thread is. */
  predicate PhaseInv<F>(s: Loop<F>) {
    (s.phase != Running ==> s.batch == []) && (s.selfOwes ==> s.phase == Running)
    && (s.calling <==> s.phase == Swapping || s.phase == Running)
  }

  lemma {:induction false} PhaseRun<F>(s: Loop<F>, es: seq<Event<F>>)
    requires PhaseInv(s) && Legal(s, es)
    ensures PhaseInv(Run(s, es))
    decreases |es|
  {
    if es != [] {
      PhaseRun(Step(s, es[0]), es[1..]);
    }
  }

  lemma {:induction false} LeavingRun<F>(s: Loop<F>, es: seq<Event<F>>)
    requires Leaving(s) && Legal(s, es) && PhaseInv(s)
    ensures |Run(s, es).executed| <= |s.executed| + |s.batch|
    decreases |es|
  {
    if es != [] {
      LeavingRun(Step(s, es[0]), es[1..]);
    }
  }

  lemma Prepend<F>(s: Loop<F>, e: Event<F>, es: seq<Event<F>>)
    requires Enabled(s, e) && Legal(Step(s, e), es)
    ensures Legal(s, [e] + es) && Run(s, [e] + es) == Run(Step(s, e), es)
  {
    assert ([e] + es)[1..] == es;
  }

  /** A step of the loop thread itself, in which no functor pushes or quits. */
  predicate LoopStep<F>(e: Event<F>) {
    e.LoopWake? || e.Start? || e.Test? || e.PollReturns? || e.BeginBatch? || e.Swap? || e.RunFunctor? || e.EndBatch?
  }

  /** How many steps the loop thread is away from having run all it has been given. */
  function StepsToGo<F>(s: Loop<F>): int {
    match s.phase
    case Idle => 5 + |s.pending|
    case AtTop => 4 + |s.pending|
    case Polling => 3 + |s.pending|
    case Handling => 2 + |s.pending|
    case Swapping => 1 + |s.pending|
    case Running => |s.batch| + (if s.selfOwes then 1 else 0) + (if s.pending == [] then 0 else 5 + |s.pending|)
    case Done => 0
  }

  /** The loop thread alone runs the rest of its batch and everything queued, unless it is leaving. */
  lemma {:induction false} RunsAll<F>(s: Loop<F>) returns (es: seq<Event<F>>)
    requires PhaseInv(s) && (Leaving(s) ==> s.phase == Running && s.pending == [])
    ensures Legal(s, es) && forall i :: 0 <= i < |es| ==> LoopStep(es[i])
    ensures |Run(s, es).executed| == |s.executed| + |s.batch| + |s.pending|
    decreases StepsToGo(s)
  {
    if s.phase == Running && s.batch == [] && s.pending == [] {
      es := [];
    } else {
      var e := match s.phase
        case Idle => Start
        case AtTop => Test
        case Polling => PollReturns
        case Handling => BeginBatch
        case Swapping => Swap
        case _ => if s.selfOwes then LoopWake else if s.batch != [] then RunFunctor else EndBatch;
      es := RunsAll(Step(s, e));
      Prepend(s, e, es);
      es := [e] + es;
    }
  }

  /** Some continuation runs everything the loop has been given so far. */
  ghost predicate CanRunAll<F(!new)>(s: Loop<F>) {
    exists es :: Legal(s, es) && |Run(s, es).executed| >= |s.executed| + |s.batch| + |s.pending|
  }

  /**
  Exactly when: functors queued on a loop can still be run, by the loop thread alone, if and only if the
  loop has neither returned nor been told to quit after its last swap. With FunctorsInOrder they are
  then the functors pushed so far, in push order.
  */
  lemma QueuedRunIff<F(!new)>(es: seq<Event<F>>)
    requires Legal(Init<F>(), es) && Run(Init<F>(), es).pending != []
    ensures CanRunAll(Run(Init<F>(), es)) <==> !Leaving(Run(Init<F>(), es))
  {
    PhaseRun(Init<F>(), es);
    var s := Run(Init<F>(), es);
    if Leaving(s) {
      forall more | Legal(s, more)
        ensures |Run(s, more).executed| < |s.executed| + |s.batch| + |s.pending|
      {
        LeavingRun(s, more);
      }
    } else {
      var more := RunsAll(s);
    }
  }
}
