/**
The worker pool: a task queue behind a mutex and a condition variable. Everything a thread does while
it holds the mutex is one step, because the queue and the running flag are touched nowhere else; the
interleaving of these steps is arbitrary, a waiting worker may wake up for no reason, the scheduler
picks which waiter a notification reaches, and a task may throw and take its worker down.
*/
module ThreadPool {

  datatype Phase<T> =
    | Starting           // running the thread-init callback
    | WantLock           // about to lock the mutex at the top of the loop
    | Waiting            // inside the condition wait, not woken
    | Signalled          // woken, about to lock the mutex again
    | Busy(task: T)      // running a task outside the mutex
    | Returned           // left the loop: stopped and nothing to do
    | Threw              // left the loop through an exception

  datatype Pool<T> = Pool(
    workers: seq<Phase<T>>,
    queue: seq<T>,
    running: bool,
    taken: seq<T>)             // history: all tasks ever taken, in order

  /** A pool of `n` workers, just started. */
  function Init<T>(n: nat): Pool<T> {
    Pool(seq(n, _ => Starting), [], true, [])
  }

  predicate Left<T>(p: Phase<T>) {
    p.Returned? || p.Threw?
  }

  ghost predicate AllLeft<T>(s: Pool<T>) {
    forall i :: 0 <= i < |s.workers| ==> Left(s.workers[i])
  }

  // ---------------------------------------------------------------------------
  // The steps
  // ---------------------------------------------------------------------------

  datatype Event<T> =
    | Add(task: T, woken: nat)      // `woken` is the waiter the notification reaches, if there is one
    | Stop
    | Begin(w: nat)                 // the init callback is done
    | Lock(w: nat)                  // one critical section of the worker loop
    | Spurious(w: nat)
    | Finish(w: nat)                // the task is done
    | Throw(w: nat)                 // the init callback or the task throws

  ghost predicate Enabled<T>(s: Pool<T>, e: Event<T>) {
    match e
    case Add(_, k) => (exists i :: 0 <= i < |s.workers| && s.workers[i].Waiting?)
                        ==> k < |s.workers| && s.workers[k].Waiting?
    case Stop => true
    case Begin(w) => w < |s.workers| && s.workers[w].Starting?
    case Lock(w) => w < |s.workers| && (s.workers[w].WantLock? || s.workers[w].Signalled?)
    case Spurious(w) => w < |s.workers| && s.workers[w].Waiting?
    case Finish(w) => w < |s.workers| && s.workers[w].Busy?
    case Throw(w) => w < |s.workers| && (s.workers[w].Busy? || s.workers[w].Starting?)
  }

  function WakeAll<T>(ws: seq<Phase<T>>): (r: seq<Phase<T>>)
    ensures |r| == |ws|
    ensures forall i :: 0 <= i < |ws| ==> r[i] == if ws[i].Waiting? then Signalled else ws[i]
  {
    seq(|ws|, i requires 0 <= i < |ws| => if ws[i].Waiting? then Signalled else ws[i])
  }

  ghost function Step<T>(s: Pool<T>, e: Event<T>): Pool<T>
    requires Enabled(s, e)
  {
    match e
    case Add(t, k) =>
      var woken := if k < |s.workers| && s.workers[k].Waiting? then s.workers[k := Signalled] else s.workers;
      s.(queue := s.queue + [t], workers := woken)
    case Stop => s.(running := false, workers := WakeAll(s.workers))
    case Begin(w) => s.(workers := s.workers[w := WantLock])
    case Lock(w) =>
      if s.queue != [] then
        s.(workers := s.workers[w := Busy(s.queue[0])], queue := s.queue[1..], taken := s.taken + [s.queue[0]])
      else if !s.running then s.(workers := s.workers[w := Returned])
      else s.(workers := s.workers[w := Waiting])
    case Spurious(w) => s.(workers := s.workers[w := Signalled])
    case Finish(w) => s.(workers := s.workers[w := WantLock])
    case Throw(w) => s.(workers := s.workers[w := Threw])
  }

  ghost predicate Legal<T>(s: Pool<T>, es: seq<Event<T>>)
    decreases |es|
  {
    es == [] || (Enabled(s, es[0]) && Legal(Step(s, es[0]), es[1..]))
  }

  ghost function Run<T>(s: Pool<T>, es: seq<Event<T>>): Pool<T>
    requires Legal(s, es)
    decreases |es|
  {
    if es == [] then s else Run(Step(s, es[0]), es[1..])
  }

  // ---------------------------------------------------------------------------
  // Adding up over the workers
  // ---------------------------------------------------------------------------

  /** What to count: woken workers, work to do, or workers that are lost or hold a task in `bad`. */
  datatype Tally<!T> = Woken | Work | Doomed(bad: T -> bool)

  function Weight<T>(k: Tally<T>, p: Phase<T>): nat {
    match k
    case Woken => if p.Signalled? then 1 else 0
    case Doomed(bad) => if p.Threw? || (p.Busy? && bad(p.task)) then 1 else 0
    case Work =>
      match p
      case Starting => 2
      case Busy(_) => 2
      case WantLock => 1
      case Signalled => 1
      case Waiting => 0
      case Returned => 0
      case Threw => 0
  }

  function Total<T>(k: Tally<T>, ws: seq<Phase<T>>): nat {
    if ws == [] then 0 else Total(k, ws[..|ws| - 1]) + Weight(k, ws[|ws| - 1])
  }

  lemma {:induction false} TotalUpdate<T>(k: Tally<T>, ws: seq<Phase<T>>, i: nat, p: Phase<T>)
    requires i < |ws|
    ensures Total(k, ws[i := p]) == Total(k, ws) - Weight(k, ws[i]) + Weight(k, p)
  {
    var n := |ws| - 1;
    if i < n {
      TotalUpdate(k, ws[..n], i, p);
      assert ws[i := p][..n] == ws[..n][i := p];
    } else {
      assert ws[i := p][..n] == ws[..n];
    }
  }

  lemma {:induction false} TotalWitness<T>(k: Tally<T>, ws: seq<Phase<T>>) returns (i: nat)
    requires Total(k, ws) > 0
    ensures i < |ws| && Weight(k, ws[i]) > 0
  {
    if Weight(k, ws[|ws| - 1]) > 0 {
      i := |ws| - 1;
    } else {
      i := TotalWitness(k, ws[..|ws| - 1]);
    }
  }

  // ---------------------------------------------------------------------------
  // What every step keeps
  // ---------------------------------------------------------------------------

  ghost predicate SomeWaiting<T>(s: Pool<T>) {
    exists i :: 0 <= i < |s.workers| && s.workers[i].Waiting?
  }

  /** While a worker sleeps unwoken, every queued task has a woken worker on its way to the lock. */
  ghost predicate SignalInv<T>(s: Pool<T>) {
    SomeWaiting(s) ==> |s.queue| <= Total(Woken, s.workers)
  }

  /** After stop nobody sleeps unwoken; and nobody returns before stop. */
  ghost predicate StopInv<T>(s: Pool<T>) {
    && (!s.running ==> !SomeWaiting(s))
    && (s.running ==> forall i :: 0 <= i < |s.workers| ==> !s.workers[i].Returned?)
  }

  ghost predicate Inv<T>(s: Pool<T>) {
    SignalInv(s) && StopInv(s)
  }

  lemma InitInv<T>(n: nat)
    ensures Inv(Init<T>(n))
  {
  }

  lemma SignalStep<T>(s: Pool<T>, e: Event<T>)
    requires Inv(s) && Enabled(s, e)
    ensures Inv(Step(s, e))
  {
    var s' := Step(s, e);
    match e
    case Add(t, k) =>
      if k < |s.workers| && s.workers[k].Waiting? {
        TotalUpdate(Woken, s.workers, k, Signalled);
      }
    case Stop =>
    case Begin(w) => TotalUpdate(Woken, s.workers, w, WantLock);
    case Lock(w) => TotalUpdate(Woken, s.workers, w, s'.workers[w]);
    case Spurious(w) => TotalUpdate(Woken, s.workers, w, Signalled);
    case Finish(w) => TotalUpdate(Woken, s.workers, w, WantLock);
    case Throw(w) => TotalUpdate(Woken, s.workers, w, Threw);
    if SomeWaiting(s') && !e.Stop? {
      var i :| 0 <= i < |s'.workers| && s'.workers[i].Waiting?;
      assert s.workers[i].Waiting? || s.queue == [];
    }
  }

  lemma {:induction false} RunKeepsInv<T>(s: Pool<T>, es: seq<Event<T>>)
    requires Inv(s) && Legal(s, es)
    ensures Inv(Run(s, es)) && |Run(s, es).workers| == |s.workers|
    decreases |es|
  {
    if es != [] {
      SignalStep(s, es[0]);
      RunKeepsInv(Step(s, es[0]), es[1..]);
    }
  }

  // ---------------------------------------------------------------------------
  // The promises
  // ---------------------------------------------------------------------------

  lemma {:induction false} StopIsFinal<T>(s: Pool<T>, es: seq<Event<T>>)
    requires Legal(s, es) && (!s.running || Stop in es)
    ensures !Run(s, es).running
    decreases |es|
  {
    if es != [] {
      assert Stop in es ==> es[0] == Stop || Stop in es[1..];
      StopIsFinal(Step(s, es[0]), es[1..]);
    }
  }

  /**
  No lost signal: in every reachable state, a sleeping unwoken worker means that the queue is covered
  by woken ones, and after stop nobody is left asleep.
  */
  lemma SignalInvariant<T>(n: nat, es: seq<Event<T>>)
    requires Legal(Init<T>(n), es)
    ensures var s := Run(Init<T>(n), es);
      && (SomeWaiting(s) ==> |s.queue| <= Total(Woken, s.workers))
      && (Stop in es ==> !s.running && !SomeWaiting(s))
  {
    InitInv<T>(n);
    RunKeepsInv(Init<T>(n), es);
    if Stop in es {
      StopIsFinal(Init<T>(n), es);
    }
  }

  /** The tasks added in a run, in order. */
  function Adds<T>(es: seq<Event<T>>): seq<T>
    decreases |es|
  {
    if es == [] then [] else (if es[0].Add? then [es[0].task] else []) + Adds(es[1..])
  }

  lemma TaskStep<T>(s: Pool<T>, e: Event<T>)
    requires Enabled(s, e)
    ensures Step(s, e).taken + Step(s, e).queue == s.taken + s.queue + if e.Add? then [e.task] else []
  {
    if e.Lock? && s.queue != [] {
      assert s.queue == [s.queue[0]] + s.queue[1..];
    }
  }

  lemma Regroup<T>(a: seq<T>, b: seq<T>, c: seq<T>)
    ensures (a + b) + c == a + (b + c)
  {
  }

  /** No step loses, repeats or reorders a task. */
  lemma {:induction false} TasksConserved<T>(s: Pool<T>, es: seq<Event<T>>)
    requires Legal(s, es)
    ensures Run(s, es).taken + Run(s, es).queue == s.taken + s.queue + Adds(es)
    decreases |es|
  {
    if es != [] {
      var x := if es[0].Add? then [es[0].task] else [];
      TaskStep(s, es[0]);
      TasksConserved(Step(s, es[0]), es[1..]);
      Regroup(s.taken + s.queue, x, Adds(es[1..]));
    }
  }

  /** Every task is taken at most once and in the order of adding: what was taken, then the queue, is what was added. */
  lemma TakenInOrder<T>(n: nat, es: seq<Event<T>>)
    requires Legal(Init<T>(n), es)
    ensures Run(Init<T>(n), es).taken + Run(Init<T>(n), es).queue == Adds(es)
  {
    TasksConserved(Init<T>(n), es);
  }

  /** A step the workers can take by themselves. */
  predicate WorkerEvent<T>(e: Event<T>) {
    e.Begin? || e.Lock? || e.Finish? || e.Throw? || e.Spurious?
  }

  /** The pool never stalls: while a task is queued, or after stop, some living worker can move. */
  lemma NeverStalls<T>(s: Pool<T>) returns (e: Event<T>)
    requires Inv(s) && !AllLeft(s) && (s.queue != [] || !s.running)
    ensures WorkerEvent(e) && !e.Spurious? && !e.Throw? && Enabled(s, e)
  {
    var i :| 0 <= i < |s.workers| && !Left(s.workers[i]);
    match s.workers[i]
    case Starting => e := Begin(i);
    case WantLock => e := Lock(i);
    case Signalled => e := Lock(i);
    case Busy(_) => e := Finish(i);
    case Waiting =>
      assert SomeWaiting(s);
      var j := TotalWitness(Woken, s.workers);
      e := Lock(j);
  }

  /** What is left to do: three units a queued task, at most two a worker. */
  ghost function Measure<T>(s: Pool<T>): nat {
    3 * |s.queue| + Total(Work, s.workers)
  }

  /** Every step of a worker uses up some of it, unless it wakes up for no reason in a running pool. */
  lemma WorkerStepDecreases<T>(s: Pool<T>, e: Event<T>)
    requires Inv(s) && WorkerEvent(e) && Enabled(s, e) && (!s.running || !e.Spurious?)
    ensures Measure(Step(s, e)) < Measure(s) && Step(s, e).running == s.running
  {
    if e.Spurious? {
      assert SomeWaiting(s);
    } else {
      TotalUpdate(Work, s.workers, e.w, Step(s, e).workers[e.w]);
    }
  }

  /**
  Draining terminates: with no further task added the workers can take at most Measure(s) more steps, not
  counting spurious wakeups, and after stop there are none of these. So an idle pool sleeps.
  */
  lemma {:induction false} DrainTerminates<T>(s: Pool<T>, es: seq<Event<T>>)
    requires Inv(s) && Legal(s, es)
    requires forall i :: 0 <= i < |es| ==> WorkerEvent(es[i]) && (!s.running || !es[i].Spurious?)
    ensures |es| + Measure(Run(s, es)) <= Measure(s) && Run(s, es).running == s.running && Inv(Run(s, es))
    decreases |es|
  {
    if es != [] {
      WorkerStepDecreases(s, es[0]);
      SignalStep(s, es[0]);
      assert forall i :: 0 <= i < |es[1..]| ==> es[1..][i] == es[i + 1];
      DrainTerminates(Step(s, es[0]), es[1..]);
    }
  }
}
