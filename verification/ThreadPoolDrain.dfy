/**
What a worker pool leaves behind when its workers have left: exactly which tasks, and exactly when none.
A caller chooses the tasks, and with them which ones may throw; the scheduler chooses who meets them.
*/
module ThreadPoolDrain {
  import opened ThreadPool

  /** With no worker left nothing is taken any more and every added task stays. */
  lemma {:induction false} StrandedForEver<T>(s: Pool<T>, es: seq<Event<T>>)
    requires AllLeft(s) && Legal(s, es)
    ensures AllLeft(Run(s, es))
    ensures Run(s, es).taken == s.taken && Run(s, es).queue == s.queue + Adds(es)
    decreases |es|
  {
    if es != [] {
      assert es[0].Add? || es[0] == Stop || Left(s.workers[es[0].w]);
      StrandedForEver(Step(s, es[0]), es[1..]);
    }
  }

  /** The step in which the last worker leaves: it throws, or it finds a stopped pool and an empty queue. */
  lemma LastLeaves<T>(s: Pool<T>, e: Event<T>)
    requires Enabled(s, e) && !AllLeft(s) && AllLeft(Step(s, e))
    ensures Step(s, e).queue == s.queue && Step(s, e).taken == s.taken
    ensures e.Throw? || (e.Lock? && !s.running && s.queue == [])
  {
    var i :| 0 <= i < |s.workers| && !Left(s.workers[i]);
    assert Left(Step(s, e).workers[i]);
  }

  /** `es[k]` is the step in which the last worker leaves. */
  ghost predicate LeavesAt<T>(s: Pool<T>, es: seq<Event<T>>, k: nat) {
    && k < |es| && Legal(s, es[..k])
    && var before := Run(s, es[..k]);
       !AllLeft(before) && Enabled(before, es[k]) && AllLeft(Step(before, es[k]))
  }

  lemma {:induction false} FindLeaving<T>(s: Pool<T>, es: seq<Event<T>>) returns (k: nat)
    requires Legal(s, es) && !AllLeft(s) && AllLeft(Run(s, es))
    ensures LeavesAt(s, es, k)
    ensures var after := Step(Run(s, es[..k]), es[k]);
      Legal(after, es[k + 1..]) && Run(s, es) == Run(after, es[k + 1..])
    decreases |es|
  {
    var s1 := Step(s, es[0]);
    if AllLeft(s1) {
      k := 0;
    } else {
      k := FindLeaving(s1, es[1..]);
      assert es[..k + 1][1..] == es[1..][..k];
      assert es[k + 2..] == es[1..][k + 1..];
      k := k + 1;
    }
  }

  /**
  What a pool leaves behind: once all workers have left, the queue is what it was when the last of them
  left, then the tasks added since; and it was empty then, with every task so far taken, unless that
  worker threw.
  */
  lemma DrainComplete<T>(n: nat, es: seq<Event<T>>) returns (k: nat)
    requires n > 0 && Legal(Init<T>(n), es) && AllLeft(Run(Init<T>(n), es))
    ensures LeavesAt(Init<T>(n), es, k)
    ensures var s := Run(Init<T>(n), es); var last := Run(Init<T>(n), es[..k]);
      && s.taken == last.taken && s.queue == last.queue + Adds(es[k + 1..])
      && (es[k].Throw? || (es[k].Lock? && last.queue == [] && last.taken == Adds(es[..k])))
  {
    var s := Init<T>(n);
    assert s.workers[0].Starting?;
    k := FindLeaving(s, es);
    var last := Run(s, es[..k]);
    LastLeaves(last, es[k]);
    StrandedForEver(Step(last, es[k]), es[k + 1..]);
    TakenInOrder(n, es[..k]);
  }

  /** No task is added once the pool has been stopped. */
  predicate NoLateAdd<T>(running: bool, es: seq<Event<T>>)
    decreases |es|
  {
    es == [] || ((es[0].Add? ==> running) && NoLateAdd(running && es[0] != Stop, es[1..]))
  }

  ghost predicate SomeReturned<T>(s: Pool<T>) {
    exists i :: 0 <= i < |s.workers| && s.workers[i].Returned?
  }

  /** A worker that returns leaves an empty queue behind, which nobody fills any more. */
  lemma {:induction false} ReturnedMeansDrained<T>(s: Pool<T>, es: seq<Event<T>>)
    requires Inv(s) && Legal(s, es) && NoLateAdd(s.running, es)
    requires SomeReturned(s) ==> s.queue == []
    ensures SomeReturned(Run(s, es)) ==> Run(s, es).queue == []
    decreases |es|
  {
    if es != [] {
      var s1 := Step(s, es[0]);
      SignalStep(s, es[0]);
      ReturnedMeansDrained(s1, es[1..]);
    }
  }

  lemma {:induction false} ThrewIff<T>(s: Pool<T>, es: seq<Event<T>>, i: nat)
    requires Legal(s, es) && i < |s.workers|
    ensures |Run(s, es).workers| == |s.workers|
    ensures Run(s, es).workers[i].Threw? <==> s.workers[i].Threw? || Throw(i) in es
    decreases |es|
  {
    if es != [] {
      ThrewIff(Step(s, es[0]), es[1..], i);
    }
  }

  /**
  Stop drains the pool: if no task is added after stop and a single worker of the pool never throws, then
  every task has been taken by the time all workers have left.
  */
  lemma DrainsUnlessAllThrow<T>(n: nat, es: seq<Event<T>>, i: nat)
    requires Legal(Init<T>(n), es) && AllLeft(Run(Init<T>(n), es)) && NoLateAdd(true, es)
    requires i < n && Throw(i) !in es
    ensures Run(Init<T>(n), es).queue == [] && Run(Init<T>(n), es).taken == Adds(es)
  {
    var s := Run(Init<T>(n), es);
    InitInv<T>(n);
    ThrewIff(Init<T>(n), es, i);
    assert Left(s.workers[i]);
    ReturnedMeansDrained(Init<T>(n), es);
    TakenInOrder(n, es);
  }

  lemma Prepend<T>(s: Pool<T>, e: Event<T>, es: seq<Event<T>>)
    requires Enabled(s, e) && Legal(Step(s, e), es)
    ensures Legal(s, [e] + es) && Run(s, [e] + es) == Run(Step(s, e), es)
  {
    assert ([e] + es)[1..] == es;
  }

  /** A task added when every worker has returned is stranded. */
  lemma LateTaskIsStranded<T>(t: T)
    ensures var es := [Begin(0), Stop, Lock(0), Add(t, 0)];
      && Legal(Init<T>(1), es) && Throw(0) !in es
      && AllLeft(Run(Init<T>(1), es)) && Run(Init<T>(1), es).queue == [t]
  {
    var s1 := Step(Init<T>(1), Begin(0));
    var s2 := Step(s1, Stop);
    var s3 := Step(s2, Lock(0));
    assert s3.workers == [Returned];
    Prepend(s3, Add(t, 0), []);
    Prepend(s2, Lock(0), [Add(t, 0)]);
    Prepend(s1, Stop, [Lock(0), Add(t, 0)]);
    Prepend(Init<T>(1), Begin(0), [Stop, Lock(0), Add(t, 0)]);
  }

  /** What is queued when the only worker throws is stranded, although nothing was added late. */
  lemma ThrowStrandsTask<T>(t: T, u: T)
    ensures var es := [Add(t, 0), Add(u, 0), Begin(0), Lock(0), Throw(0)];
      && Legal(Init<T>(1), es) && Stop !in es
      && AllLeft(Run(Init<T>(1), es)) && Run(Init<T>(1), es).queue == [u]
  {
    var s1 := Step(Init<T>(1), Add(t, 0));
    var s2 := Step(s1, Add(u, 0));
    var s3 := Step(s2, Begin(0));
    var s4 := Step(s3, Lock(0));
    assert s4.workers == [Busy(t)] && s4.queue == [u];
    Prepend(s4, Throw(0), []);
    Prepend(s3, Lock(0), [Throw(0)]);
    Prepend(s2, Begin(0), [Lock(0), Throw(0)]);
    Prepend(s1, Add(u, 0), [Begin(0), Lock(0), Throw(0)]);
    Prepend(Init<T>(1), Add(t, 0), [Add(u, 0), Begin(0), Lock(0), Throw(0)]);
  }

  // ---------------------------------------------------------------------------
  // Which tasks throw
  // ---------------------------------------------------------------------------

  /**
  What callers hand to the pool: the tasks in `bad` and, if `initThrows`, the thread-init callback may
  throw; if `certain` they always do. Nothing else throws.
  */
  datatype Conduct<!T> = Conduct(bad: T -> bool, initThrows: bool, certain: bool)

  ghost predicate Allowed<T>(b: Conduct<T>, s: Pool<T>, e: Event<T>)
    requires Enabled(s, e)
  {
    match e
    case Begin(_) => !(b.certain && b.initThrows)
    case Finish(w) => !(b.certain && b.bad(s.workers[w].task))
    case Throw(w) => if s.workers[w].Starting? then b.initThrows else b.bad(s.workers[w].task)
    case _ => true
  }

  /** Every step of the run is one that the conduct allows. */
  ghost predicate Follows<T>(b: Conduct<T>, s: Pool<T>, es: seq<Event<T>>)
    requires Legal(s, es)
    decreases |es|
  {
    es == [] || (Allowed(b, s, es[0]) && Follows(b, Step(s, es[0]), es[1..]))
  }

  function BadTasks<T>(bad: T -> bool, ts: seq<T>): nat {
    if ts == [] then 0
    else BadTasks(bad, ts[..|ts| - 1]) + if bad(ts[|ts| - 1]) then 1 else 0
  }

  function AllButLast<T>(ts: seq<T>): seq<T> {
    if ts == [] then [] else ts[..|ts| - 1]
  }

  lemma {:induction false} BadTasksPrefix<T>(bad: T -> bool, ts: seq<T>, k: nat)
    requires k <= |ts|
    ensures BadTasks(bad, ts[..k]) <= BadTasks(bad, ts)
    decreases |ts|
  {
    if k < |ts| {
      BadTasksPrefix(bad, ts[..|ts| - 1], k);
      assert ts[..|ts| - 1][..k] == ts[..k];
    } else {
      assert ts[..k] == ts;
    }
  }

  lemma {:induction false} BadTasksFirst<T>(bad: T -> bool, ts: seq<T>)
    requires ts != []
    ensures BadTasks(bad, ts) == (if bad(ts[0]) then 1 else 0) + BadTasks(bad, ts[1..])
    decreases |ts|
  {
    if |ts| > 1 {
      BadTasksFirst(bad, ts[..|ts| - 1]);
      assert ts[..|ts| - 1][1..] == ts[1..][..|ts| - 2];
    } else {
      assert ts[..0] == [] && ts[1..] == [];
    }
  }

  // ---------------------------------------------------------------------------
  // Enough workers
  // ---------------------------------------------------------------------------

  lemma {:induction false} DoomedWakeAll<T>(bad: T -> bool, ws: seq<Phase<T>>)
    ensures Total(Doomed(bad), WakeAll(ws)) == Total(Doomed(bad), ws)
    decreases |ws|
  {
    if ws != [] {
      DoomedWakeAll(bad, ws[..|ws| - 1]);
      assert WakeAll(ws)[..|ws| - 1] == WakeAll(ws[..|ws| - 1]);
    }
  }

  lemma {:induction false} DoomedAll<T>(bad: T -> bool, ws: seq<Phase<T>>)
    requires forall i :: 0 <= i < |ws| ==> ws[i].Threw?
    ensures Total(Doomed(bad), ws) == |ws|
    decreases |ws|
  {
    if ws != [] {
      DoomedAll(bad, ws[..|ws| - 1]);
    }
  }

  /** Every worker that is lost, or about to be, has a bad task to itself. */
  ghost predicate DoomInv<T>(b: Conduct<T>, s: Pool<T>) {
    !b.initThrows ==> Total(Doomed(b.bad), s.workers) <= BadTasks(b.bad, s.taken)
  }

  lemma DoomStep<T>(b: Conduct<T>, s: Pool<T>, e: Event<T>)
    requires DoomInv(b, s) && Enabled(s, e) && Allowed(b, s, e)
    ensures DoomInv(b, Step(s, e))
  {
    var s' := Step(s, e);
    if e.Add? {
      if e.woken < |s.workers| && s.workers[e.woken].Waiting? {
        TotalUpdate(Doomed(b.bad), s.workers, e.woken, Signalled);
      }
    } else if e == Stop {
      DoomedWakeAll(b.bad, s.workers);
    } else {
      TotalUpdate(Doomed(b.bad), s.workers, e.w, s'.workers[e.w]);
      if e.Lock? && s.queue != [] {
        assert s'.taken[..|s'.taken| - 1] == s.taken;
      }
    }
  }

  ghost predicate DrainInv<T>(b: Conduct<T>, s: Pool<T>) {
    Inv(s) && DoomInv(b, s) && (SomeReturned(s) ==> s.queue == [])
  }

  lemma {:induction false} DoomRun<T>(b: Conduct<T>, s: Pool<T>, es: seq<Event<T>>)
    requires DoomInv(b, s) && Legal(s, es) && Follows(b, s, es)
    ensures DoomInv(b, Run(s, es))
    decreases |es|
  {
    if es != [] {
      DoomStep(b, s, es[0]);
      DoomRun(b, Step(s, es[0]), es[1..]);
    }
  }

  lemma DrainRun<T>(b: Conduct<T>, s: Pool<T>, es: seq<Event<T>>)
    requires DrainInv(b, s) && Legal(s, es) && Follows(b, s, es) && NoLateAdd(s.running, es)
    ensures DrainInv(b, Run(s, es)) && |Run(s, es).workers| == |s.workers|
  {
    RunKeepsInv(s, es);
    DoomRun(b, s, es);
    ReturnedMeansDrained(s, es);
  }

  lemma InitDrainInv<T>(b: Conduct<T>, n: nat)
    ensures DrainInv(b, Init<T>(n))
  {
    InitInv<T>(n);
    DoomedNone(b.bad, Init<T>(n).workers);
  }

  lemma {:induction false} DoomedNone<T>(bad: T -> bool, ws: seq<Phase<T>>)
    requires forall i :: 0 <= i < |ws| ==> ws[i].Starting?
    ensures Total(Doomed(bad), ws) == 0
    decreases |ws|
  {
    if ws != [] {
      DoomedNone(bad, ws[..|ws| - 1]);
    }
  }

  /**
  What a caller can check beforehand: nothing is added after stop, the init callback does not throw, and
  fewer tasks than there are workers may throw, not counting the last task.
  */
  ghost predicate Safe<T>(n: nat, b: Conduct<T>, late: bool, ts: seq<T>) {
    ts == [] || (!late && !b.initThrows && BadTasks(b.bad, AllButLast(ts)) < n)
  }

  /** A task is left over only if every worker was lost, each to a task taken before that one. */
  lemma EnoughWorkers<T>(b: Conduct<T>, s: Pool<T>, ts: seq<T>)
    requires DrainInv(b, s) && AllLeft(s) && s.taken + s.queue == ts && Safe(|s.workers|, b, false, ts)
    ensures s.queue == []
  {
    if s.queue != [] {
      forall i | 0 <= i < |s.workers|
        ensures s.workers[i].Threw?
      {
        assert Left(s.workers[i]) && !SomeReturned(s);
      }
      assert AllButLast(ts)[..|s.taken|] == s.taken;
      BadTasksPrefix(b.bad, AllButLast(ts), |s.taken|);
      DoomedAll(b.bad, s.workers);
    }
  }

  // ---------------------------------------------------------------------------
  // Too few workers
  // ---------------------------------------------------------------------------

  /** `es` is a legal run from `s` that the conduct allows. */
  ghost predicate Possible<T>(b: Conduct<T>, s: Pool<T>, es: seq<Event<T>>) {
    Legal(s, es) && Follows(b, s, es)
  }

  lemma Extend<T>(b: Conduct<T>, s: Pool<T>, e: Event<T>, es: seq<Event<T>>)
    requires Enabled(s, e) && Allowed(b, s, e) && Possible(b, Step(s, e), es)
    ensures Possible(b, s, [e] + es) && Run(s, [e] + es) == Run(Step(s, e), es)
    ensures Adds([e] + es) == (if e.Add? then [e.task] else []) + Adds(es)
    ensures NoLateAdd(s.running, [e] + es) <==>
      (e.Add? ==> s.running) && NoLateAdd(s.running && e != Stop, es)
  {
    assert ([e] + es)[1..] == es;
  }

  /** `ts` are added one by one while no worker sleeps, and then comes `rest`. */
  lemma {:induction false} AddThen<T>(b: Conduct<T>, s: Pool<T>, ts: seq<T>, rest: seq<Event<T>>)
      returns (es: seq<Event<T>>)
    requires !SomeWaiting(s) && Possible(b, s.(queue := s.queue + ts), rest) && Adds(rest) == []
    ensures Possible(b, s, es) && Run(s, es) == Run(s.(queue := s.queue + ts), rest)
    ensures Adds(es) == ts && (s.running && NoLateAdd(true, rest) ==> NoLateAdd(true, es))
    decreases |ts|
  {
    if ts == [] {
      es := rest;
      assert s.queue + ts == s.queue;
    } else {
      var s1 := Step(s, Add(ts[0], 0));
      assert s1.queue + ts[1..] == s.queue + ts;
      es := AddThen(b, s1, ts[1..], rest);
      Extend(b, s, Add(ts[0], 0), es);
      es := [Add(ts[0], 0)] + es;
    }
  }

  /** The workers before `k` have left and the others have not started yet. */
  ghost predicate LeftUpTo<T>(s: Pool<T>, k: nat) {
    && k <= |s.workers|
    && (forall i :: 0 <= i < k ==> Left(s.workers[i]))
    && (forall i :: k <= i < |s.workers| ==> s.workers[i].Starting?)
  }

  /** All workers of a stopped pool return one after the other, and then the tasks are added. */
  lemma {:induction false} ReturnThenAdd<T>(b: Conduct<T>, s: Pool<T>, k: nat, ts: seq<T>)
      returns (es: seq<Event<T>>)
    requires LeftUpTo(s, k) && !s.running && s.queue == [] && !b.initThrows
    ensures Possible(b, s, es) && AllLeft(Run(s, es)) && Run(s, es).queue == ts && Adds(es) == ts
    decreases |s.workers| - k
  {
    if k == |s.workers| {
      es := AddThen(b, s, ts, []);
    } else {
      var s1 := Step(s, Begin(k));
      var s2 := Step(s1, Lock(k));
      es := ReturnThenAdd(b, s2, k + 1, ts);
      Extend(b, s1, Lock(k), es);
      es := [Lock(k)] + es;
      Extend(b, s, Begin(k), es);
      es := [Begin(k)] + es;
    }
  }

  /** Every init callback throws. */
  lemma {:induction false} InitThrows<T>(b: Conduct<T>, s: Pool<T>, k: nat) returns (es: seq<Event<T>>)
    requires LeftUpTo(s, k) && b.initThrows
    ensures Possible(b, s, es) && AllLeft(Run(s, es)) && Run(s, es).queue == s.queue
    ensures Adds(es) == [] && NoLateAdd(s.running, es)
    decreases |s.workers| - k
  {
    es := [];
    if k < |s.workers| {
      es := InitThrows(b, Step(s, Throw(k)), k + 1);
      Extend(b, s, Throw(k), es);
      es := [Throw(k)] + es;
    }
  }

  /** As LeftUpTo, but worker `k` is at the top of its loop. */
  ghost predicate AtWork<T>(s: Pool<T>, k: nat) {
    && k < |s.workers| && s.workers[k].WantLock?
    && (forall i :: 0 <= i < k ==> Left(s.workers[i]))
    && (forall i :: k < i < |s.workers| ==> s.workers[i].Starting?)
  }

  /** Worker `k` takes a task; a bad one takes it down, another brings it back to the top of its loop. */
  lemma MeetTask<T>(s: Pool<T>, k: nat)
    requires AtWork(s, k) && s.queue != []
    ensures var s1 := Step(s, Lock(k));
      && s1.workers[k] == Busy(s.queue[0]) && s1.running == s.running && s1.queue == s.queue[1..]
      && LeftUpTo(Step(s1, Throw(k)), k + 1) && AtWork(Step(s1, Finish(k)), k)
  {
  }

  lemma TakeOne<T>(bad: T -> bool, ts: seq<T>)
    requires BadTasks(bad, AllButLast(ts)) > 0
    ensures |ts| > 1
    ensures BadTasks(bad, AllButLast(ts)) == (if bad(ts[0]) then 1 else 0) + BadTasks(bad, AllButLast(ts[1..]))
  {
    BadTasksFirst(bad, AllButLast(ts));
    assert AllButLast(ts)[1..] == AllButLast(ts[1..]);
  }

  /** Worker after worker takes tasks until it meets a bad one, and a task is left when they are all gone. */
  lemma {:induction false} WorkOff<T>(b: Conduct<T>, s: Pool<T>, k: nat) returns (es: seq<Event<T>>)
    requires AtWork(s, k) && s.queue != [] && !b.initThrows
    requires BadTasks(b.bad, AllButLast(s.queue)) >= |s.workers| - k
    ensures Possible(b, s, es) && AllLeft(Run(s, es)) && Run(s, es).queue != []
    ensures Adds(es) == [] && NoLateAdd(s.running, es)
    decreases |s.queue|, 0
  {
    var t := s.queue[0];
    TakeOne(b.bad, s.queue);
    MeetTask(s, k);
    var s1 := Step(s, Lock(k));
    if b.bad(t) {
      es := NextAtWork(b, Step(s1, Throw(k)), k + 1);
      Extend(b, s1, Throw(k), es);
      es := [Throw(k)] + es;
    } else {
      es := WorkOff(b, Step(s1, Finish(k)), k);
      Extend(b, s1, Finish(k), es);
      es := [Finish(k)] + es;
    }
    Extend(b, s, Lock(k), es);
    es := [Lock(k)] + es;
  }

  /** The same before worker `k`, if there is one, has started. */
  lemma {:induction false} NextAtWork<T>(b: Conduct<T>, s: Pool<T>, k: nat) returns (es: seq<Event<T>>)
    requires LeftUpTo(s, k) && s.queue != [] && !b.initThrows
    requires BadTasks(b.bad, AllButLast(s.queue)) >= |s.workers| - k
    ensures Possible(b, s, es) && AllLeft(Run(s, es)) && Run(s, es).queue != []
    ensures Adds(es) == [] && NoLateAdd(s.running, es)
    decreases |s.queue|, 1
  {
    es := [];
    if k < |s.workers| {
      es := WorkOff(b, Step(s, Begin(k)), k);
      Extend(b, s, Begin(k), es);
      es := [Begin(k)] + es;
    }
  }

  // ---------------------------------------------------------------------------
  // Exactly when
  // ---------------------------------------------------------------------------

  /** A run of a whole pool that adds `ts`, after stop only if `late`, and ends with no worker left. */
  ghost predicate Complete<T>(n: nat, b: Conduct<T>, late: bool, ts: seq<T>, es: seq<Event<T>>) {
    && Possible(b, Init<T>(n), es) && AllLeft(Run(Init<T>(n), es))
    && Adds(es) == ts && (late || NoLateAdd(true, es))
  }

  ghost predicate AlwaysDrains<T(!new)>(n: nat, b: Conduct<T>, late: bool, ts: seq<T>) {
    forall es :: Complete(n, b, late, ts, es) ==> Run(Init<T>(n), es).queue == []
  }

  /** An unsafe pool has a complete run that leaves a task behind. */
  lemma UnsafeRun<T>(n: nat, b: Conduct<T>, late: bool, ts: seq<T>) returns (es: seq<Event<T>>)
    requires !Safe(n, b, late, ts)
    ensures Complete(n, b, late, ts, es) && Run(Init<T>(n), es).queue != []
  {
    var s := Init<T>(n);
    var added := s.(queue := s.queue + ts);
    assert added.queue == ts;
    if b.initThrows {
      es := InitThrows(b, added, 0);
      es := AddThen(b, s, ts, es);
    } else if late {
      es := ReturnThenAdd(b, Step(s, Stop), 0, ts);
      Extend(b, s, Stop, es);
      es := [Stop] + es;
    } else {
      es := NextAtWork(b, added, 0);
      es := AddThen(b, s, ts, es);
    }
  }

  /**
  Exactly when: for every pool size and every sequence of tasks, whichever of them throw, all runs that
  end with no worker left have taken every task, if and only if the pool is safe.
  */
  lemma AlwaysDrainsIff<T(!new)>(n: nat, b: Conduct<T>, late: bool, ts: seq<T>)
    ensures AlwaysDrains(n, b, late, ts) <==> Safe(n, b, late, ts)
  {
    if Safe(n, b, late, ts) {
      forall es | Complete(n, b, late, ts, es)
        ensures Run(Init<T>(n), es).queue == []
      {
        TakenInOrder(n, es);
        if ts != [] {
          InitDrainInv(b, n);
          DrainRun(b, Init<T>(n), es);
          EnoughWorkers(b, Run(Init<T>(n), es), ts);
        }
      }
    } else {
      var es := UnsafeRun(n, b, late, ts);
    }
  }

  // ---------------------------------------------------------------------------
  // Stop, then wait
  // ---------------------------------------------------------------------------

  /** No worker can take another step, except by waking up for no reason. */
  ghost predicate Stuck<T(!new)>(b: Conduct<T>, s: Pool<T>) {
    forall e: Event<T> :: WorkerEvent(e) && !e.Spurious? && Enabled(s, e) ==> !Allowed(b, s, e)
  }

  /** After stop the workers come to rest only by leaving. */
  lemma StuckMeansLeft<T(!new)>(b: Conduct<T>, s: Pool<T>)
    requires Inv(s) && !s.running
    ensures Stuck(b, s) <==> AllLeft(s)
  {
    if !AllLeft(s) {
      var e := NeverStalls(s);
      if !Allowed(b, s, e) {
        assert Enabled(s, Throw(e.w)) && Allowed(b, s, Throw(e.w));
      }
    }
  }

  lemma {:induction false} WorkersAddNothing<T>(es: seq<Event<T>>)
    requires forall i :: 0 <= i < |es| ==> WorkerEvent(es[i])
    ensures Adds(es) == [] && NoLateAdd(false, es)
    decreases |es|
  {
    if es != [] {
      assert forall i :: 0 <= i < |es[1..]| ==> WorkerEvent(es[1..][i]);
      WorkersAddNothing(es[1..]);
    }
  }

  /**
  Stop, then wait: once a pool has been stopped its workers take a bounded number of steps, they come to
  rest exactly when all of them have left, and if the pool is safe every task ever added has been taken
  by then.
  */
  lemma StopDrains<T(!new)>(n: nat, b: Conduct<T>, es: seq<Event<T>>, ws: seq<Event<T>>)
    requires Possible(b, Init<T>(n), es) && Stop in es && NoLateAdd(true, es)
    requires Possible(b, Run(Init<T>(n), es), ws) && forall i :: 0 <= i < |ws| ==> WorkerEvent(ws[i])
    ensures var s := Run(Init<T>(n), es); var s' := Run(s, ws);
      && |ws| <= Measure(s)
      && (Stuck(b, s') <==> AllLeft(s'))
      && (Stuck(b, s') && Safe(n, b, false, Adds(es)) ==> s'.queue == [] && s'.taken == Adds(es))
  {
    var s := Run(Init<T>(n), es);
    InitDrainInv(b, n);
    DrainRun(b, Init<T>(n), es);
    StopIsFinal(Init<T>(n), es);
    WorkersAddNothing(ws);
    DrainRun(b, s, ws);
    DrainTerminates(s, ws);
    StuckMeansLeft(b, Run(s, ws));
    TakenInOrder(n, es);
    TasksConserved(s, ws);
    if AllLeft(Run(s, ws)) && Safe(n, b, false, Adds(es)) {
      EnoughWorkers(b, Run(s, ws), Adds(es));
    }
  }
}
