/**
What the server can always still do: from every reachable state the loops, left to themselves, can run
every queued functor and come to rest; a connection whatever its state can be closed; and a closed one
can be unregistered, let go and freed without anything further from its peer.
*/
module LifecycleProgress {
  import Poller
  import ConnStream
  import opened Lifecycle
  import P = LifecycleProofs

  /** A step a loop takes by itself, with nothing reported by the kernel. */
  predicate LoopMove(e: Event) {
    (e.PollReturns? && e.active == {}) || e.ChanDone? || e.BeginBatch? || e.RunFunctor? || e.EndBatch?
  }

  /** The loops can get from `s` to `t` by themselves, by the steps `es`. */
  ghost predicate Leads(s: Server, es: seq<Event>, t: Server) {
    Legal(s, es) && Run(s, es) == t && forall i :: 0 <= i < |es| ==> LoopMove(es[i])
  }

  lemma First(s: Server, e: Event, es: seq<Event>, t: Server)
    requires Enabled(s, e) && LoopMove(e) && Leads(Step(s, e), es, t)
    ensures Leads(s, [e] + es, t)
  {
    assert ([e] + es)[1..] == es;
  }

  lemma {:induction false} LegalConcat(s: Server, a: seq<Event>, b: seq<Event>)
    requires Legal(s, a) && Legal(Run(s, a), b)
    ensures Legal(s, a + b) && Run(s, a + b) == Run(Run(s, a), b)
    decreases |a|
  {
    if a == [] {
      assert a + b == b;
    } else {
      assert (a + b)[1..] == a[1..] + b;
      LegalConcat(Step(s, a[0]), a[1..], b);
    }
  }

  lemma Then(s: Server, a: seq<Event>, t: Server, b: seq<Event>, u: Server)
    requires Leads(s, a, t) && Leads(t, b, u)
    ensures Leads(s, a + b, u)
  {
    LegalConcat(s, a, b);
  }

  // ---------------------------------------------------------------------------
  // One loop
  // ---------------------------------------------------------------------------

  ghost predicate NoRemoves(q: multiset<Functor>) {
    forall f :: f in q ==> !f.DoRemove?
  }

  /** Only loop `l` has moved; to the queues of others nothing but destructions was added. */
  ghost predicate OnlyLoop(s: Server, t: Server, l: nat) {
    && |t.loops| == |s.loops| && l < |s.loops|
    && (forall m :: 0 <= m < |s.loops| && m != l ==>
          && t.loops[m].stage == s.loops[m].stage && t.loops[m].active == s.loops[m].active
          && t.loops[m].batch == s.loops[m].batch)
    && (forall m, f: Functor :: 0 <= m < |s.loops| && m != l && !f.DoDestroy? ==>
          t.loops[m].pending[f] == s.loops[m].pending[f])
  }

  ghost predicate OthersSame(s: Server, t: Server, l: nat) {
    |t.loops| == |s.loops| && forall m :: 0 <= m < |s.loops| && m != l ==> t.loops[m] == s.loops[m]
  }

  lemma RunShape(s: Server, l: nat, f: Functor)
    requires l < |s.loops| && f in s.loops[l].batch && Known(s, f.c)
    ensures var t := RunOne(s, l, f);
      && OnlyLoop(s, t, l)
      && t.loops[l].stage == s.loops[l].stage && t.loops[l].batch == s.loops[l].batch - multiset{f}
      && (forall g: Functor :: !g.DoDestroy? ==> t.loops[l].pending[g] == s.loops[l].pending[g])
      && (!f.DoRemove? ==> OthersSame(s, t, l) && t.loops[l].pending == s.loops[l].pending)
  {
  }

  /** The loop runs the rest of its batch. */
  lemma {:induction false} DrainBatch(s: Server, l: nat) returns (es: seq<Event>, t: Server)
    requires P.Inv(s) && l < |s.loops| && s.loops[l].stage == Running
    ensures Leads(s, es, t) && P.Inv(t) && OnlyLoop(s, t, l)
    ensures t.loops[l].stage == Running && t.loops[l].batch == multiset{}
    ensures forall g: Functor :: !g.DoDestroy? ==> t.loops[l].pending[g] == s.loops[l].pending[g]
    ensures NoRemoves(s.loops[l].batch) ==> OthersSame(s, t, l) && t.loops[l].pending == s.loops[l].pending
    decreases |s.loops[l].batch|
  {
    if s.loops[l].batch == multiset{} {
      es, t := [], s;
    } else {
      var f :| f in s.loops[l].batch;
      assert Queued(s.loops, l, f) && P.ConnOk(s, f.c);
      var s1 := Step(s, RunFunctor(l, f));
      RunShape(s, l, f);
      P.StepKeepsInv(s, RunFunctor(l, f));
      es, t := DrainBatch(s1, l);
      First(s, RunFunctor(l, f), es, t);
      es := [RunFunctor(l, f)] + es;
    }
  }

  /** The loop is done with the reported channels. */
  lemma {:induction false} FinishChannels(s: Server, l: nat) returns (es: seq<Event>, t: Server)
    requires P.Inv(s) && l < |s.loops| && s.loops[l].stage == Handling
    ensures Leads(s, es, t) && P.Inv(t) && OthersSame(s, t, l)
    ensures t.loops[l] == s.loops[l].(active := {})
    decreases |s.loops[l].active|
  {
    if s.loops[l].active == {} {
      es, t := [], s;
    } else {
      var c :| c in s.loops[l].active;
      P.StepKeepsInv(s, ChanDone(l, c));
      es, t := FinishChannels(Step(s, ChanDone(l, c)), l);
      First(s, ChanDone(l, c), es, t);
      es := [ChanDone(l, c)] + es;
    }
  }

  /** From handling channels to the next poll: the whole pending queue becomes the batch and is run. */
  lemma FromHandling(s: Server, l: nat) returns (es: seq<Event>, t: Server)
    requires P.Inv(s) && l < |s.loops| && s.loops[l].stage == Handling
    ensures Leads(s, es, t) && P.Inv(t) && OnlyLoop(s, t, l) && t.loops[l].stage == InPoll
    ensures forall g: Functor :: !g.DoDestroy? ==> t.loops[l].pending[g] == 0
    ensures NoRemoves(s.loops[l].pending) ==> OthersSame(s, t, l) && t.loops[l].pending == multiset{}
  {
    var a, s1 := FinishChannels(s, l);
    var s2 := Step(s1, BeginBatch(l));
    P.StepKeepsInv(s1, BeginBatch(l));
    es, t := FromRunning(s2, l);
    First(s1, BeginBatch(l), es, t);
    Then(s, a, s1, [BeginBatch(l)] + es, t);
    es := a + ([BeginBatch(l)] + es);
  }

  /** From running functors to the next poll. */
  lemma FromRunning(s: Server, l: nat) returns (es: seq<Event>, t: Server)
    requires P.Inv(s) && l < |s.loops| && s.loops[l].stage == Running
    ensures Leads(s, es, t) && P.Inv(t) && OnlyLoop(s, t, l) && t.loops[l].stage == InPoll
    ensures forall g: Functor :: !g.DoDestroy? ==> t.loops[l].pending[g] == s.loops[l].pending[g]
    ensures NoRemoves(s.loops[l].batch) ==> OthersSame(s, t, l) && t.loops[l].pending == s.loops[l].pending
  {
    var b, s1 := DrainBatch(s, l);
    t := Step(s1, EndBatch(l));
    P.StepKeepsInv(s1, EndBatch(l));
    First(s1, EndBatch(l), [], t);
    Then(s, b, s1, [EndBatch(l)], t);
    es := b + [EndBatch(l)];
  }

  /** A poll that reports nothing, and what follows it. */
  lemma FromPoll(s: Server, l: nat) returns (es: seq<Event>, t: Server)
    requires P.Inv(s) && l < |s.loops| && s.loops[l].stage == InPoll
    ensures Leads(s, es, t) && P.Inv(t) && OnlyLoop(s, t, l) && t.loops[l].stage == InPoll
    ensures forall g: Functor :: !g.DoDestroy? ==> t.loops[l].pending[g] == 0
    ensures NoRemoves(s.loops[l].pending) ==> OthersSame(s, t, l) && t.loops[l].pending == multiset{}
  {
    P.StepKeepsInv(s, PollReturns(l, {}));
    es, t := FromHandling(Step(s, PollReturns(l, {})), l);
    First(s, PollReturns(l, {}), es, t);
    es := [PollReturns(l, {})] + es;
  }

  /** Wherever the loop is, it gets to its next poll. */
  lemma ToPoll(s: Server, l: nat) returns (es: seq<Event>, t: Server)
    requires P.Inv(s) && l < |s.loops|
    ensures Leads(s, es, t) && P.Inv(t) && OnlyLoop(s, t, l) && t.loops[l].stage == InPoll
    ensures NoRemoves(s.loops[l].batch) && NoRemoves(s.loops[l].pending) ==> OthersSame(s, t, l)
  {
    match s.loops[l].stage
    case InPoll => es, t := [], s;
    case Handling => es, t := FromHandling(s, l);
    case Running => es, t := FromRunning(s, l);
  }

  // ---------------------------------------------------------------------------
  // All loops come to rest
  // ---------------------------------------------------------------------------

  /** The loop is blocked in poll with nothing left to do. */
  ghost predicate AtRest(s: Server, l: nat) {
    l < |s.loops| && s.loops[l] == LoopState(InPoll, {}, multiset{}, multiset{})
  }

  ghost predicate AllAtRest(s: Server) {
    forall l :: 0 <= l < |s.loops| ==> AtRest(s, l)
  }

  /** Removals run first, then the destructions they queue. */
  lemma RestBase(s: Server) returns (es: seq<Event>, t: Server)
    requires P.Inv(s)
    ensures Leads(s, es, t) && P.Inv(t) && |t.loops| == |s.loops| && AtRest(t, 0)
  {
    var a, s1 := ToPoll(s, 0);
    var b, s2 := FromPoll(s1, 0);
    var c, s3 := FromPoll(s2, 0);
    Then(s1, b, s2, c, s3);
    Then(s, a, s1, b + c, s3);
    es, t := a + (b + c), s3;
  }

  lemma NoRemovesElsewhere(s: Server, l: nat)
    requires P.Inv(s) && 0 < l < |s.loops|
    ensures NoRemoves(s.loops[l].batch) && NoRemoves(s.loops[l].pending)
  {
    forall f | f in s.loops[l].batch || f in s.loops[l].pending
      ensures !f.DoRemove?
    {
      assert Queued(s.loops, l, f) && P.ConnOk(s, f.c);
    }
  }

  lemma RestOther(s: Server, l: nat) returns (es: seq<Event>, t: Server)
    requires P.Inv(s) && 0 < l < |s.loops|
    ensures Leads(s, es, t) && P.Inv(t) && OthersSame(s, t, l) && AtRest(t, l)
  {
    NoRemovesElsewhere(s, l);
    var a, s1 := ToPoll(s, l);
    NoRemovesElsewhere(s1, l);
    var b, s2 := FromPoll(s1, l);
    Then(s, a, s1, b, s2);
    es, t := a + b, s2;
  }

  lemma {:induction false} RestFrom(s: Server, k: nat) returns (es: seq<Event>, t: Server)
    requires P.Inv(s) && 0 < k <= |s.loops| && forall l :: 0 <= l < k ==> AtRest(s, l)
    ensures Leads(s, es, t) && P.Inv(t) && AllAtRest(t) && |t.loops| == |s.loops|
    decreases |s.loops| - k
  {
    if k == |s.loops| {
      es, t := [], s;
    } else {
      var a, s1 := RestOther(s, k);
      forall l | 0 <= l <= k
        ensures AtRest(s1, l)
      {
        assert l < k ==> AtRest(s, l);
      }
      var b, s2 := RestFrom(s1, k + 1);
      Then(s, a, s1, b, s2);
      es, t := a + b, s2;
    }
  }

  lemma Rest(s: Server) returns (es: seq<Event>, t: Server)
    requires P.Inv(s)
    ensures Leads(s, es, t) && P.Inv(t) && AllAtRest(t) && |t.loops| == |s.loops|
  {
    var a, s1 := RestBase(s);
    var b, s2 := RestFrom(s1, 1);
    Then(s, a, s1, b, s2);
    es, t := a + b, s2;
  }

  // ---------------------------------------------------------------------------
  // Where a connection lives
  // ---------------------------------------------------------------------------

  /**
  A new connection lives on the loop chosen for it: on the base loop it is established at once, and on
  any other its single functor is the establishment queued on that loop.
  */
  lemma AcceptedAtHome(n: nat, es: seq<Event>, h: nat, fd: int)
    requires Legal(Init(n), es) && Enabled(Run(Init(n), es), Accept(h, fd))
    ensures var s := Run(Init(n), es); var t := Step(s, Accept(h, fd)); var c := s.nextId;
      && c !in s.info && c in t.info && c in t.conns && c !in t.freed && t.nextId == c + 1
      && t.info[c].home == h && t.info[c].fd == fd
      && t.info[c].state == (if h == 0 then ConnStream.Connected else ConnStream.Connecting)
      && t.info[c].index == (if h == 0 then Poller.Added else Poller.New)
      && |t.loops| == |s.loops|
      && forall l, f: Functor :: 0 <= l < |t.loops| && f.c == c ==>
           Copies(t.loops, l, f) == if h != 0 && l == h && f == DoEstablish(c) then 1 else 0
  {
    P.InitInv(n);
    P.RunKeepsInv(Init(n), es);
    var s := Run(Init(n), es);
    forall l, f: Functor | 0 <= l < |s.loops| && f.c == s.nextId
      ensures Copies(s.loops, l, f) == 0
    {
      assert P.ConnOk(s, s.nextId) ==> s.nextId < s.nextId;
      assert !Queued(s.loops, l, f);
    }
    P.PushOneMore(s.loops, h, DoEstablish(s.nextId));
  }

  /** A connection's loop and descriptor never change, and what has happened to it stays so. */
  lemma HomeStep(s: Server, e: Event, c: ConnId)
    requires Enabled(s, e) && c in s.info && c < s.nextId
    ensures var t := Step(s, e);
      && c in t.info && t.info[c].home == s.info[c].home && t.info[c].fd == s.info[c].fd
      && s.info[c].closed <= t.info[c].closed && s.freed <= t.freed
  {
  }

  lemma {:induction false} HomeIsFixed(s: Server, es: seq<Event>, c: ConnId)
    requires P.Inv(s) && Legal(s, es) && c in s.info
    ensures var t := Run(s, es);
      && c in t.info && t.info[c].home == s.info[c].home && t.info[c].fd == s.info[c].fd
      && s.info[c].closed <= t.info[c].closed && s.freed <= t.freed
    decreases |es|
  {
    if es != [] {
      assert P.ConnOk(s, c);
      HomeStep(s, es[0], c);
      P.StepKeepsInv(s, es[0]);
      HomeIsFixed(Step(s, es[0]), es[1..], c);
    }
  }

  // ---------------------------------------------------------------------------
  // Nothing is dropped, and handlers take effect
  // ---------------------------------------------------------------------------

  /** A reported channel stays with its loop until it is handled, and a queued functor until it is run. */
  lemma NothingDropped(s: Server, e: Event, l: nat)
    requires P.Inv(s) && Enabled(s, e) && l < |s.loops|
    ensures var t := Step(s, e);
      && |t.loops| == |s.loops|
      && (forall c :: c in s.loops[l].active && e != ChanDone(l, c) ==> c in t.loops[l].active)
      && (e.PollReturns? && e.l == l ==> t.loops[l].active == e.active)
      && (forall f :: Copies(t.loops, l, f) >= Copies(s.loops, l, f) - if e == RunFunctor(l, f) then 1 else 0)
  {
    if P.LoopEvent(e) {
      LoopKeeps(s, e, l);
    } else {
      HandlerKeeps(s, e, l);
    }
  }

  lemma LoopKeeps(s: Server, e: Event, l: nat)
    requires P.StagesOk(s.loops) && Enabled(s, e) && P.LoopEvent(e) && l < |s.loops|
    ensures var t := Step(s, e);
      && (forall c :: c in s.loops[l].active && e != ChanDone(l, c) ==> c in t.loops[l].active)
      && (e.PollReturns? && e.l == l ==> t.loops[l].active == e.active)
      && (forall f :: Copies(t.loops, l, f) == Copies(s.loops, l, f))
  {
    P.LoopEventShape(s, e);
  }

  lemma PushKeeps(loops: seq<LoopState>, m: nat, g: Functor, l: nat)
    requires m < |loops| && l < |loops|
    ensures Push(loops, m, g)[l].active == loops[l].active
    ensures forall f :: Copies(Push(loops, m, g), l, f) >= Copies(loops, l, f)
  {
  }

  lemma TakeKeeps(loops: seq<LoopState>, m: nat, g: Functor, l: nat)
    requires m < |loops| && l < |loops| && g in loops[m].batch
    ensures Take(loops, m, g)[l].active == loops[l].active
    ensures forall f :: Copies(Take(loops, m, g), l, f) >= Copies(loops, l, f) - if m == l && f == g then 1 else 0
  {
  }

  lemma HandlerKeeps(s: Server, e: Event, l: nat)
    requires Enabled(s, e) && !P.LoopEvent(e) && l < |s.loops|
    ensures var t := Step(s, e);
      && |t.loops| == |s.loops| && t.loops[l].active == s.loops[l].active
      && (forall f :: Copies(t.loops, l, f) >= Copies(s.loops, l, f) - if e == RunFunctor(l, f) then 1 else 0)
  {
    if e.Accept? {
      PushKeeps(s.loops, e.home, DoEstablish(s.nextId), l);
    } else if e.HandleClose? {
      PushKeeps(s.loops, s.info[e.c].home, DoDestroy(e.c), l);
      PushKeeps(s.loops, 0, DoRemove(e.c), l);
    } else if e.RunFunctor? {
      var taken := Take(s.loops, e.l, e.f);
      TakeKeeps(s.loops, e.l, e.f, l);
      PushKeeps(taken, s.info[e.f.c].home, DoDestroy(e.f.c), l);
    }
  }

  /** A channel that a poll has reported is waited for: until it is handled its loop begins no batch. */
  lemma {:induction false} ReportedIsHandled(s: Server, es: seq<Event>, l: nat, c: ConnId)
    requires P.Inv(s) && Legal(s, es) && l < |s.loops| && c in s.loops[l].active && ChanDone(l, c) !in es
    ensures |Run(s, es).loops| == |s.loops| && c in Run(s, es).loops[l].active && BeginBatch(l) !in es
    decreases |es|
  {
    if es != [] {
      NothingDropped(s, es[0], l);
      P.StepKeepsInv(s, es[0]);
      ReportedIsHandled(Step(s, es[0]), es[1..], l, c);
    }
  }

  /** What the server's handlers do to the connection they are about. */
  lemma HandlersTakeEffect(n: nat, es: seq<Event>, e: Event, c: ConnId)
    requires Legal(Init(n), es) && Enabled(Run(Init(n), es), e) && c in Run(Init(n), es).info
    ensures var s := Run(Init(n), es); var t := Step(s, e); var home := s.info[c].home;
      && c in t.info && home < |s.loops| && |t.loops| == |s.loops|
      && (e.HandleClose? && e.c == c ==>
            && t.info[c].state == ConnStream.Disconnected && t.info[c].closed == s.info[c].closed + 1
            && (e.l == 0 ==>
                  c !in t.conns && Copies(t.loops, home, DoDestroy(c)) == Copies(s.loops, home, DoDestroy(c)) + 1)
            && (e.l != 0 ==>
                  t.conns == s.conns && Copies(t.loops, 0, DoRemove(c)) == Copies(s.loops, 0, DoRemove(c)) + 1))
      && (e.RunFunctor? && e.f == DoRemove(c) ==>
            c !in t.conns && Copies(t.loops, home, DoDestroy(c)) == Copies(s.loops, home, DoDestroy(c)) + 1)
      && (e.RunFunctor? && e.f == DoDestroy(c) ==>
            t.info[c].index == Poller.Deleted && t.info[c].destroyed == s.info[c].destroyed + 1)
      && (e.RunFunctor? && e.f == DoEstablish(c) ==>
            t.info[c].state == ConnStream.Connected && t.info[c].index == Poller.Added)
      && (e == Shutdown(c) ==> t.info[c].state == ConnStream.Disconnecting)
      && (e == Free(c) ==> c in t.freed)
  {
    P.InitInv(n);
    P.RunKeepsInv(Init(n), es);
    assert P.ConnOk(Run(Init(n), es), c);
    if e.HandleClose? && e.c == c {
      CloseEffect(Run(Init(n), es), e.l, c);
    } else if e.RunFunctor? && e.f.c == c {
      FunctorEffect(Run(Init(n), es), e.l, e.f);
    } else {
      HomeStep(Run(Init(n), es), e, c);
      HandlerKeepsLength(Run(Init(n), es), e);
    }
  }

  lemma HandlerKeepsLength(s: Server, e: Event)
    requires Enabled(s, e)
    ensures |Step(s, e).loops| == |s.loops|
  {
  }

  lemma CloseEffect(s: Server, l: nat, c: ConnId)
    requires 0 < |s.loops| && l < |s.loops| && Known(s, c)
    ensures var t := CloseChan(s, l, c); var home := s.info[c].home;
      && |t.loops| == |s.loops| && c in t.info
      && t.info[c].state == ConnStream.Disconnected && t.info[c].closed == s.info[c].closed + 1
      && (l == 0 ==>
            c !in t.conns && Copies(t.loops, home, DoDestroy(c)) == Copies(s.loops, home, DoDestroy(c)) + 1)
      && (l != 0 ==>
            t.conns == s.conns && Copies(t.loops, 0, DoRemove(c)) == Copies(s.loops, 0, DoRemove(c)) + 1)
  {
  }

  lemma FunctorEffect(s: Server, l: nat, f: Functor)
    requires l < |s.loops| && Known(s, f.c) && f in s.loops[l].batch
    ensures var t := RunOne(s, l, f); var c := f.c; var home := s.info[c].home;
      && |t.loops| == |s.loops| && c in t.info
      && (f.DoRemove? ==>
            c !in t.conns && Copies(t.loops, home, DoDestroy(c)) == Copies(s.loops, home, DoDestroy(c)) + 1)
      && (f.DoDestroy? ==>
            t.info[c].index == Poller.Deleted && t.info[c].destroyed == s.info[c].destroyed + 1)
      && (f.DoEstablish? ==> t.info[c].state == ConnStream.Connected && t.info[c].index == Poller.Added)
  {
  }

  // ---------------------------------------------------------------------------
  // The promises
  // ---------------------------------------------------------------------------

  /** From every reachable state the loops can by themselves run every queued functor and come to rest. */
  lemma QueuesCanDrain(n: nat, es: seq<Event>) returns (more: seq<Event>)
    requires Legal(Init(n), es)
    ensures var s := Run(Init(n), es);
      && Legal(s, more) && (forall i :: 0 <= i < |more| ==> LoopMove(more[i]))
      && AllAtRest(Run(s, more)) && |Run(s, more).loops| == |s.loops|
      && forall l, f :: 0 <= l < |s.loops| && Queued(s.loops, l, f) ==>
           Copies(Run(s, more).loops, l, f) < Copies(s.loops, l, f)
  {
    P.InitInv(n);
    P.RunKeepsInv(Init(n), es);
    var t;
    more, t := Rest(Run(Init(n), es));
    forall l, f | 0 <= l < |t.loops|
      ensures Copies(t.loops, l, f) == 0
    {
      assert AtRest(t, l);
    }
  }

  /** A server at rest has established every connection, and its unclosed ones are registered. */
  lemma RestIsEstablished(s: Server, c: ConnId)
    requires P.Inv(s) && AllAtRest(s) && c in s.info
    ensures Known(s, c) && AtRest(s, s.info[c].home) && AtRest(s, 0)
    ensures s.info[c].closed == 0 ==> s.info[c].index == Poller.Added
    ensures s.info[c].closed > 0 ==> s.info[c].index == Poller.Deleted && !Owned(s, c)
  {
    assert P.ConnOk(s, c);
    forall l, f | 0 <= l < |s.loops|
      ensures !Queued(s.loops, l, f)
    {
      assert AtRest(s, l);
    }
  }

  /** Every connection can be closed: the loops come to rest, its loop polls it, and it hangs up. */
  lemma CanBeClosed(n: nat, es: seq<Event>, c: ConnId) returns (more: seq<Event>)
    requires Legal(Init(n), es) && c in Run(Init(n), es).info
    ensures var s := Run(Init(n), es);
      Legal(s, more) && c in Run(s, more).info && Run(s, more).info[c].state == ConnStream.Disconnected
  {
    P.InitInv(n);
    P.RunKeepsInv(Init(n), es);
    more := CloseFrom(Run(Init(n), es), c);
  }

  lemma CloseFrom(s: Server, c: ConnId) returns (es: seq<Event>)
    requires P.Inv(s) && c in s.info
    ensures Legal(s, es) && c in Run(s, es).info && Run(s, es).info[c].closed > 0
    ensures Run(s, es).info[c].state == ConnStream.Disconnected && P.Inv(Run(s, es))
  {
    var t;
    es, t := Rest(s);
    HomeIsFixed(s, es, c);
    RestIsEstablished(t, c);
    assert P.ConnOk(t, c);
    if t.info[c].closed == 0 {
      var close := HangUp(t, c);
      LegalConcat(s, es, close);
      es := es + close;
    }
    P.RunKeepsInv(s, es);
  }

  lemma Once(s: Server, e: Event)
    requires Enabled(s, e)
    ensures Legal(s, [e]) && Run(s, [e]) == Step(s, e)
  {
    assert [e][1..] == [];
  }

  /** The loop of a registered connection, blocked in poll, is told of a hang-up and handles it. */
  lemma HangUp(s: Server, c: ConnId) returns (es: seq<Event>)
    requires Known(s, c) && s.loops[s.info[c].home].stage == InPoll && s.info[c].index == Poller.Added
    ensures Legal(s, es) && c in Run(s, es).info && Run(s, es).info[c].closed > 0
    ensures Run(s, es).info[c].state == ConnStream.Disconnected
  {
    var l := s.info[c].home;
    var s1 := Step(s, PollReturns(l, {c}));
    assert s1.loops[l].active == {c};
    Once(s, PollReturns(l, {c}));
    Once(s1, HandleClose(l, c));
    LegalConcat(s, [PollReturns(l, {c})], [HandleClose(l, c)]);
    es := [PollReturns(l, {c})] + [HandleClose(l, c)];
  }

  /**
  Nothing lingers: a closed connection can be torn down and freed by the loops alone, once they have come
  to rest: it is then unregistered and nobody owns it.
  */
  lemma ClosedCanBeFreed(n: nat, es: seq<Event>, c: ConnId) returns (more: seq<Event>)
    requires Legal(Init(n), es) && c in Run(Init(n), es).info && Run(Init(n), es).info[c].closed > 0
    ensures Legal(Run(Init(n), es), more)
    ensures forall i :: 0 <= i < |more| ==> LoopMove(more[i]) || more[i] == Free(c)
    ensures var t := Run(Run(Init(n), es), more);
      c in t.info && t.info[c].index == Poller.Deleted && !Owned(t, c) && c in t.freed
  {
    P.InitInv(n);
    P.RunKeepsInv(Init(n), es);
    more := FreeFrom(Run(Init(n), es), c);
  }

  /** At rest the last reference of a closed connection can go, if it has not gone already. */
  lemma Release(s: Server, c: ConnId) returns (es: seq<Event>)
    requires c in s.info && s.info[c].index == Poller.Deleted && !Owned(s, c)
    ensures Legal(s, es) && forall i :: 0 <= i < |es| ==> es[i] == Free(c)
    ensures var t := Run(s, es); t.info == s.info && !Owned(t, c) && c in t.freed
  {
    es := [];
    if c !in s.freed {
      es := [Free(c)];
      Once(s, Free(c));
    }
  }

  lemma FreeFrom(s: Server, c: ConnId) returns (es: seq<Event>)
    requires P.Inv(s) && c in s.info && s.info[c].closed > 0
    ensures Legal(s, es) && (forall i :: 0 <= i < |es| ==> LoopMove(es[i]) || es[i] == Free(c))
    ensures var t := Run(s, es);
      c in t.info && t.info[c].index == Poller.Deleted && !Owned(t, c) && c in t.freed
  {
    var rest, t := Rest(s);
    HomeIsFixed(s, rest, c);
    RestIsEstablished(t, c);
    var free := Release(t, c);
    LegalConcat(s, rest, free);
    es := rest + free;
  }

  /** Together: every connection of every reachable state can be closed, torn down and freed. */
  lemma CanBeFreed(n: nat, es: seq<Event>, c: ConnId) returns (more: seq<Event>)
    requires Legal(Init(n), es) && c in Run(Init(n), es).info
    ensures Legal(Run(Init(n), es), more)
    ensures var t := Run(Run(Init(n), es), more);
      c in t.info && t.info[c].index == Poller.Deleted && !Owned(t, c) && c in t.freed
  {
    P.InitInv(n);
    P.RunKeepsInv(Init(n), es);
    var s := Run(Init(n), es);
    var a := CloseFrom(s, c);
    var b := FreeFrom(Run(s, a), c);
    LegalConcat(s, a, b);
    more := a + b;
  }
}
