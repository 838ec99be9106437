/**
What every interleaving of the loops keeps: a channel the kernel or a loop still points to has an
owner, connections are established once and destroyed only after closing, and a closed connection
is always on its way out.
*/
module LifecycleProofs {
  import Poller
  import opened Lifecycle
  import ConnStream
  import ConnProofs

  // ---------------------------------------------------------------------------
  // The invariant
  // ---------------------------------------------------------------------------

  ghost predicate StagesOk(loops: seq<LoopState>) {
    && 0 < |loops|
    && (forall l :: 0 <= l < |loops| && loops[l].stage != Handling ==> loops[l].active == {})
    && (forall l :: 0 <= l < |loops| && loops[l].stage != Running ==> loops[l].batch == multiset{})
  }

  /**
  The life of one connection: `mapped` and `freed` say whether the server's map holds it and whether
  it is gone; `est` counts its queued establishments; `rem` and `des` say whether a removal is queued
  on the base loop and a destruction at home.
  */
  predicate LifeOk(k: Info, mapped: bool, freed: bool, est: nat, rem: bool, des: bool) {
    && est + k.established == 1
    && (k.established == 0 ==> k.state == ConnStream.Connecting && k.index == Poller.New && k.closed == 0)
    && (k.closed == 0 ==> mapped && k.destroyed == 0)
    && (k.established == 1 && k.closed == 0 ==> k.index == Poller.Added && ConnProofs.Open(k.state))
    && (k.closed > 0 ==> k.established == 1 && k.state == ConnStream.Disconnected)
    && (k.closed > 0 && k.destroyed == 0 ==> k.index == Poller.Added && if mapped then rem else des)
    && (k.destroyed > 0 ==> k.index == Poller.Deleted && !mapped && k.closed > 0)
    && (freed ==> k.destroyed > 0)
  }

  /** Where a functor may be queued, and what has happened to its connection by then. */
  ghost predicate FunctorOk(s: Server, l: nat, f: Functor)
    requires f.c in s.info
  {
    match f
    case DoEstablish(c) => l == s.info[c].home
    case DoRemove(c) => l == 0 && s.info[c].closed > 0
    case DoDestroy(c) => l == s.info[c].home && s.info[c].closed > 0 && c !in s.conns
  }

  ghost predicate FunctorsOk(s: Server, c: ConnId)
    requires c in s.info
  {
    forall l, f: Functor :: 0 <= l < |s.loops| && f.c == c && Queued(s.loops, l, f) ==>
      FunctorOk(s, l, f) && c !in s.freed
  }

  /** Only the home loop waits to handle the channel, and only while it is registered. */
  ghost predicate ActiveOk(s: Server, c: ConnId)
    requires c in s.info
  {
    forall l :: 0 <= l < |s.loops| && c in s.loops[l].active ==>
      s.info[c].home == l && s.info[c].index == Poller.Added
  }

  /** All that is kept about one connection. */
  ghost predicate ConnOk(s: Server, c: ConnId) {
    && 0 < |s.loops| && Known(s, c) && c < s.nextId
    && LifeOk(s.info[c], c in s.conns, c in s.freed,
              Copies(s.loops, s.info[c].home, DoEstablish(c)),
              Queued(s.loops, 0, DoRemove(c)),
              Queued(s.loops, s.info[c].home, DoDestroy(c)))
    && FunctorsOk(s, c) && ActiveOk(s, c)
  }

  /** Nothing refers to a connection that was never made. */
  ghost predicate Domains(s: Server) {
    && s.conns <= s.info.Keys && s.freed <= s.info.Keys
    && (forall l, f: Functor :: 0 <= l < |s.loops| && Queued(s.loops, l, f) ==> f.c in s.info)
    && (forall l, c :: 0 <= l < |s.loops| && c in s.loops[l].active ==> c in s.info)
  }

  ghost predicate Inv(s: Server) {
    StagesOk(s.loops) && Domains(s) && forall c :: c in s.info ==> ConnOk(s, c)
  }

  lemma InitInv(n: nat)
    ensures Inv(Init(n))
  {
  }

  // ---------------------------------------------------------------------------
  // Steps that concern one connection
  // ---------------------------------------------------------------------------

  /** `more` has one more copy of `f` to run on loop `l` than `less`; the loops agree otherwise. */
  ghost predicate OneMore(less: seq<LoopState>, more: seq<LoopState>, l: nat, f: Functor) {
    && |more| == |less|
    && (forall m, g :: 0 <= m < |less| ==>
          Copies(more, m, g) == Copies(less, m, g) + if m == l && g == f then 1 else 0)
    && (forall m :: 0 <= m < |less| ==> more[m].active == less[m].active && more[m].stage == less[m].stage)
  }

  lemma PushOneMore(loops: seq<LoopState>, l: nat, f: Functor)
    requires StagesOk(loops) && l < |loops|
    ensures OneMore(loops, Push(loops, l, f), l, f) && StagesOk(Push(loops, l, f))
  {
  }

  lemma TakeOneLess(loops: seq<LoopState>, l: nat, f: Functor)
    requires StagesOk(loops) && l < |loops| && f in loops[l].batch
    ensures OneMore(Take(loops, l, f), loops, l, f) && StagesOk(Take(loops, l, f))
  {
  }

  /** The two servers agree on everything that concerns connections other than `c`. */
  ghost predicate SameBut(s: Server, s': Server, c: ConnId) {
    && |s'.loops| == |s.loops| && s.nextId <= s'.nextId
    && s'.info.Keys == s.info.Keys + {c}
    && (forall d :: d in s.info && d != c ==> s'.info[d] == s.info[d])
    && (forall d :: d != c ==> (d in s'.conns <==> d in s.conns))
    && (forall d :: d != c ==> (d in s'.freed <==> d in s.freed))
    && (forall m, g: Functor :: 0 <= m < |s.loops| && g.c != c ==> Copies(s'.loops, m, g) == Copies(s.loops, m, g))
    && (forall m :: 0 <= m < |s.loops| ==> s'.loops[m].active == s.loops[m].active)
  }

  lemma OtherConn(s: Server, s': Server, c: ConnId, d: ConnId)
    requires SameBut(s, s', c) && d != c && ConnOk(s, d)
    ensures ConnOk(s', d)
  {
    forall l, f: Functor | 0 <= l < |s'.loops| && f.c == d && Queued(s'.loops, l, f)
      ensures FunctorOk(s', l, f) && d !in s'.freed
    {
      assert Queued(s.loops, l, f);
    }
  }

  /** A step that concerns one connection has to be checked for that connection only. */
  lemma OneConnStep(s: Server, s': Server, c: ConnId)
    requires Inv(s) && SameBut(s, s', c) && StagesOk(s'.loops) && ConnOk(s', c)
    ensures Inv(s')
  {
    forall d | d in s'.info
      ensures ConnOk(s', d)
    {
      if d != c {
        OtherConn(s, s', c, d);
      }
    }
    forall l, f: Functor | 0 <= l < |s'.loops| && Queued(s'.loops, l, f)
      ensures f.c in s'.info
    {
      if f.c != c {
        assert Queued(s.loops, l, f);
      }
    }
  }

  /** The queues hold nothing about an identifier not given out yet. */
  ghost predicate Unheard(s: Server, c: ConnId) {
    && c !in s.info && c !in s.conns && c !in s.freed
    && (forall l, f: Functor :: 0 <= l < |s.loops| && f.c == c ==> Copies(s.loops, l, f) == 0)
    && (forall l :: 0 <= l < |s.loops| ==> c !in s.loops[l].active)
  }

  lemma AcceptConnOk(s: Server, h: nat, fd: int)
    requires StagesOk(s.loops) && h < |s.loops| && Unheard(s, s.nextId)
    ensures var s' := AcceptConn(s, h, fd);
      SameBut(s, s', s.nextId) && StagesOk(s'.loops) && ConnOk(s', s.nextId)
  {
    PushOneMore(s.loops, h, DoEstablish(s.nextId));
  }

  lemma CloseConnOk(s: Server, l: nat, c: ConnId)
    requires StagesOk(s.loops) && ConnOk(s, c) && l < |s.loops| && c in s.loops[l].active
    ensures var s' := CloseChan(s, l, c);
      SameBut(s, s', c) && StagesOk(s'.loops) && ConnOk(s', c)
  {
    var s' := CloseChan(s, l, c);
    var (m, g) := if l == 0 then (s.info[c].home, DoDestroy(c)) else (0, DoRemove(c));
    PushOneMore(s.loops, m, g);
    forall i, f: Functor | 0 <= i < |s'.loops| && f.c == c && Queued(s'.loops, i, f)
      ensures FunctorOk(s', i, f) && c !in s'.freed
    {
      assert Queued(s.loops, i, f) || (i == m && f == g);
    }
  }

  lemma EstablishConnOk(s: Server, l: nat, c: ConnId)
    requires StagesOk(s.loops) && ConnOk(s, c) && l < |s.loops| && DoEstablish(c) in s.loops[l].batch
    ensures var s' := RunOne(s, l, DoEstablish(c));
      SameBut(s, s', c) && StagesOk(s'.loops) && ConnOk(s', c)
  {
    var s' := RunOne(s, l, DoEstablish(c));
    assert Queued(s.loops, l, DoEstablish(c));
    TakeOneLess(s.loops, l, DoEstablish(c));
    forall i, f: Functor | 0 <= i < |s'.loops| && f.c == c && Queued(s'.loops, i, f)
      ensures FunctorOk(s', i, f) && c !in s'.freed
    {
      assert Queued(s.loops, i, f);
    }
  }

  lemma RemoveConnOk(s: Server, l: nat, c: ConnId)
    requires StagesOk(s.loops) && ConnOk(s, c) && l < |s.loops| && DoRemove(c) in s.loops[l].batch
    ensures var s' := RunOne(s, l, DoRemove(c));
      SameBut(s, s', c) && StagesOk(s'.loops) && ConnOk(s', c)
  {
    var s' := RunOne(s, l, DoRemove(c));
    var t := Take(s.loops, l, DoRemove(c));
    assert Queued(s.loops, l, DoRemove(c));
    TakeOneLess(s.loops, l, DoRemove(c));
    PushOneMore(t, s.info[c].home, DoDestroy(c));
    forall i, f: Functor | 0 <= i < |s'.loops| && f.c == c && Queued(s'.loops, i, f)
      ensures FunctorOk(s', i, f) && c !in s'.freed
    {
      assert Queued(s.loops, i, f) || (i == s.info[c].home && f == DoDestroy(c));
    }
  }

  lemma DestroyConnOk(s: Server, l: nat, c: ConnId)
    requires StagesOk(s.loops) && ConnOk(s, c) && l < |s.loops|
    requires s.loops[l].stage == Running && DoDestroy(c) in s.loops[l].batch
    ensures var s' := RunOne(s, l, DoDestroy(c));
      SameBut(s, s', c) && StagesOk(s'.loops) && ConnOk(s', c)
  {
    var s' := RunOne(s, l, DoDestroy(c));
    assert Queued(s.loops, l, DoDestroy(c));
    TakeOneLess(s.loops, l, DoDestroy(c));
    forall i, f: Functor | 0 <= i < |s'.loops| && f.c == c && Queued(s'.loops, i, f)
      ensures FunctorOk(s', i, f) && c !in s'.freed
    {
      assert Queued(s.loops, i, f);
    }
  }

  lemma ShutdownConnOk(s: Server, c: ConnId)
    requires ConnOk(s, c) && s.info[c].state == ConnStream.Connected
    ensures var s' := SetInfo(s, c, s.info[c].(state := ConnStream.Disconnecting));
      SameBut(s, s', c) && ConnOk(s', c)
  {
  }

  lemma FreeConnOk(s: Server, c: ConnId)
    requires ConnOk(s, c) && !Owned(s, c)
    ensures var s' := s.(freed := s.freed + {c});
      SameBut(s, s', c) && ConnOk(s', c)
  {
  }

  // ---------------------------------------------------------------------------
  // Every step
  // ---------------------------------------------------------------------------

  /** A step that only moves a loop on: the same functors to run, and only registered channels active. */
  lemma LoopStep(s: Server, s': Server)
    requires Inv(s) && s' == s.(loops := s'.loops) && |s'.loops| == |s.loops| && StagesOk(s'.loops)
    requires forall m, f :: 0 <= m < |s.loops| ==> Copies(s'.loops, m, f) == Copies(s.loops, m, f)
    requires forall m, c :: 0 <= m < |s.loops| && c in s'.loops[m].active ==>
      c in s.info && s.info[c].home == m && s.info[c].index == Poller.Added
    ensures Inv(s')
  {
    forall l, f: Functor | 0 <= l < |s'.loops| && Queued(s'.loops, l, f)
      ensures Queued(s.loops, l, f)
    {
    }
    forall d | d in s'.info
      ensures ConnOk(s', d)
    {
      LoopConnOk(s, s', d);
    }
  }

  lemma LoopConnOk(s: Server, s': Server, d: ConnId)
    requires ConnOk(s, d) && s' == s.(loops := s'.loops) && |s'.loops| == |s.loops| && d in s.info
    requires forall m, f :: 0 <= m < |s.loops| ==> Copies(s'.loops, m, f) == Copies(s.loops, m, f)
    requires forall m :: 0 <= m < |s.loops| && d in s'.loops[m].active ==>
      s.info[d].home == m && s.info[d].index == Poller.Added
    ensures ConnOk(s', d)
  {
    forall i, f: Functor | 0 <= i < |s'.loops| && f.c == d && Queued(s'.loops, i, f)
      ensures FunctorOk(s', i, f) && d !in s'.freed
    {
      assert Queued(s.loops, i, f);
    }
  }

  /** What the invariant says about the channels waiting on a loop. */
  lemma ActiveKnown(s: Server, m: nat, c: ConnId)
    requires Inv(s) && m < |s.loops| && c in s.loops[m].active
    ensures c in s.info && s.info[c].home == m && s.info[c].index == Poller.Added && ConnOk(s, c)
  {
  }

  predicate LoopEvent(e: Event) {
    e.PollReturns? || e.ChanDone? || e.BeginBatch? || e.EndBatch?
  }

  /** Moving a loop on neither adds nor loses a functor. */
  lemma LoopEventShape(s: Server, e: Event)
    requires StagesOk(s.loops) && Enabled(s, e) && LoopEvent(e)
    ensures var s' := Step(s, e);
      && s' == s.(loops := s'.loops) && |s'.loops| == |s.loops| && StagesOk(s'.loops)
      && forall m, f :: 0 <= m < |s.loops| ==> Copies(s'.loops, m, f) == Copies(s.loops, m, f)
  {
  }

  lemma LoopEventStep(s: Server, e: Event)
    requires Inv(s) && Enabled(s, e) && LoopEvent(e)
    ensures Inv(Step(s, e))
  {
    var s' := Step(s, e);
    LoopEventShape(s, e);
    forall m, c | 0 <= m < |s.loops| && c in s'.loops[m].active
      ensures c in s.info && s.info[c].home == m && s.info[c].index == Poller.Added
    {
      if c in s.loops[m].active {
        ActiveKnown(s, m, c);
      }
    }
    LoopStep(s, s');
  }

  lemma AcceptStep(s: Server, h: nat, fd: int)
    requires Inv(s) && h < |s.loops|
    ensures Inv(AcceptConn(s, h, fd))
  {
    var c := s.nextId;
    assert c !in s.info;
    forall l, f: Functor | 0 <= l < |s.loops| && f.c == c
      ensures Copies(s.loops, l, f) == 0
    {
      assert !Queued(s.loops, l, f);
    }
    AcceptConnOk(s, h, fd);
    OneConnStep(s, AcceptConn(s, h, fd), c);
  }

  lemma FunctorConnOk(s: Server, l: nat, f: Functor)
    requires StagesOk(s.loops) && ConnOk(s, f.c) && l < |s.loops|
    requires s.loops[l].stage == Running && f in s.loops[l].batch
    ensures var s' := RunOne(s, l, f);
      SameBut(s, s', f.c) && StagesOk(s'.loops) && ConnOk(s', f.c)
  {
    match f
    case DoEstablish(c) => EstablishConnOk(s, l, c);
    case DoRemove(c) => RemoveConnOk(s, l, c);
    case DoDestroy(c) => DestroyConnOk(s, l, c);
  }

  lemma StepKeepsInv(s: Server, e: Event)
    requires Inv(s) && Enabled(s, e)
    ensures Inv(Step(s, e))
  {
    match e
    case Accept(h, fd) => AcceptStep(s, h, fd);
    case HandleClose(l, c) =>
      CloseConnOk(s, l, c);
      OneConnStep(s, CloseChan(s, l, c), c);
    case Shutdown(c) =>
      ShutdownConnOk(s, c);
      OneConnStep(s, Step(s, e), c);
    case Free(c) =>
      FreeConnOk(s, c);
      OneConnStep(s, Step(s, e), c);
    case Traffic(_, _) =>
    case RunFunctor(l, f) =>
      FunctorConnOk(s, l, f);
      OneConnStep(s, RunOne(s, l, f), f.c);
    case _ => LoopEventStep(s, e);
  }

  lemma {:induction false} RunKeepsInv(s: Server, es: seq<Event>)
    requires Inv(s) && Legal(s, es)
    ensures Inv(Run(s, es))
    decreases |es|
  {
    if es != [] {
      StepKeepsInv(s, es[0]);
      RunKeepsInv(Step(s, es[0]), es[1..]);
    }
  }

  // ---------------------------------------------------------------------------
  // The promises
  // ---------------------------------------------------------------------------

  /**
  No dangling channel: whatever the interleaving, a connection whose channel the kernel may report or a
  loop still has to handle is alive, and it is owned by the server's map, by a removal queued on the
  base loop or by a destruction queued on its home loop.
  */
  lemma NoDanglingChannel(n: nat, es: seq<Event>, c: ConnId, l: nat)
    requires Legal(Init(n), es)
    requires var s := Run(Init(n), es);
      || (c in s.info && s.info[c].index == Poller.Added)
      || (l < |s.loops| && c in s.loops[l].active)
    ensures var s := Run(Init(n), es);
      && 0 < |s.loops| && Known(s, c) && c !in s.freed
      && (|| c in s.conns
          || Queued(s.loops, 0, DoRemove(c))
          || Queued(s.loops, s.info[c].home, DoDestroy(c)))
  {
    InitInv(n);
    RunKeepsInv(Init(n), es);
    var s := Run(Init(n), es);
    if c !in s.info || s.info[c].index != Poller.Added {
      ActiveKnown(s, l, c);
    }
    assert ConnOk(s, c);
  }

  /** A functor that is still to run never names a connection that is gone. */
  lemma NoDanglingFunctor(n: nat, es: seq<Event>, l: nat, f: Functor)
    requires Legal(Init(n), es) && l < |Run(Init(n), es).loops| && Queued(Run(Init(n), es).loops, l, f)
    ensures Known(Run(Init(n), es), f.c) && f.c !in Run(Init(n), es).freed
  {
    InitInv(n);
    RunKeepsInv(Init(n), es);
    assert ConnOk(Run(Init(n), es), f.c);
  }

  /**
  The loops call a connection's handlers in the order its own machine expects (ConnStream.Enabled):
  establishment finds it connecting, destruction finds it disconnected, and events reach it only
  while its channel is registered.
  */
  lemma HandlersCalledInTime(n: nat, es: seq<Event>, e: Event)
    requires Legal(Init(n), es) && Enabled(Run(Init(n), es), e)
    ensures var s := Run(Init(n), es);
      && (e.RunFunctor? && e.f.DoEstablish? ==> s.info[e.f.c].state == ConnStream.Connecting)
      && (e.RunFunctor? && e.f.DoDestroy? ==> s.info[e.f.c].state == ConnStream.Disconnected)
      && (e.HandleClose? ==> s.info[e.c].index == Poller.Added)
  {
    InitInv(n);
    RunKeepsInv(Init(n), es);
    var s := Run(Init(n), es);
    if e.RunFunctor? {
      assert ConnOk(s, e.f.c) && Queued(s.loops, e.l, e.f);
    } else if e.HandleClose? {
      ActiveKnown(s, e.l, e.c);
    }
  }

  /**
  Lifecycle order: every connection is established exactly once (it has been, or exactly one
  establishment is still queued, on its home loop); it is destroyed only after it was established and closed, never
  while the server's map holds it; and identifiers are below the next one to give out.
  */
  lemma LifecycleOrder(n: nat, es: seq<Event>, c: ConnId)
    requires Legal(Init(n), es) && c in Run(Init(n), es).info
    ensures var s := Run(Init(n), es); var k := s.info[c];
      && c < s.nextId && k.home < |s.loops|
      && k.established + Copies(s.loops, k.home, DoEstablish(c)) == 1
      && (forall l :: 0 <= l < |s.loops| && l != k.home ==> Copies(s.loops, l, DoEstablish(c)) == 0)
      && (k.destroyed > 0 ==> k.established == 1 && k.closed > 0)
      && (c in s.conns ==> k.destroyed == 0)
      && (k.closed > 0 <==> k.state == ConnStream.Disconnected)
  {
    InitInv(n);
    RunKeepsInv(Init(n), es);
    var s := Run(Init(n), es);
    assert ConnOk(s, c);
    forall l | 0 <= l < |s.loops| && l != s.info[c].home
      ensures Copies(s.loops, l, DoEstablish(c)) == 0
    {
      assert !Queued(s.loops, l, DoEstablish(c));
    }
  }

  /** No step moves the state of a connection back, and Disconnected is final. */
  lemma StateMovesForward(n: nat, es: seq<Event>, e: Event, c: ConnId)
    requires Legal(Init(n), es) && Enabled(Run(Init(n), es), e) && c in Run(Init(n), es).info
    ensures var s := Run(Init(n), es); var s' := Step(s, e);
      c in s'.info && ConnProofs.Rank(s.info[c].state) <= ConnProofs.Rank(s'.info[c].state)
  {
    InitInv(n);
    RunKeepsInv(Init(n), es);
    StepMovesForward(Run(Init(n), es), e, c);
  }

  lemma StepMovesForward(s: Server, e: Event, c: ConnId)
    requires ConnOk(s, c) && Enabled(s, e)
    ensures c in Step(s, e).info
    ensures ConnProofs.Rank(s.info[c].state) <= ConnProofs.Rank(Step(s, e).info[c].state)
  {
    if e.RunFunctor? && e.f == DoEstablish(c) {
      assert Queued(s.loops, e.l, e.f);
    }
  }

  function IndexRank(i: Poller.Index): nat {
    match i
    case New => 0
    case Added => 1
    case Deleted => 2
  }

  /** The step changes the interest of the connection's channel, which updates it in the home loop's poller. */
  predicate UpdatesChan(s: Server, e: Event, c: ConnId)
    requires c in s.info
  {
    match e
    case HandleClose(_, d) => d == c
    case Traffic(d, op) => d == c && (op.OpHandleWrite? || (op.OpSend? && s.info[c].state == ConnStream.Connected))
    case RunFunctor(_, f) => f == DoEstablish(c) || (f == DoDestroy(c) && s.info[c].state == ConnStream.Connected)
    case _ => false
  }

  /**
  No channel comes back: in no run of the server does a step update a channel that was removed from its
  poller, and a channel's index only moves from new over added to deleted. So the case in which
  Poller.UpdateChan lets the poller's map and the kernel table drift apart is never reached.
  */
  lemma NoUpdateAfterRemoval(n: nat, es: seq<Event>, e: Event, c: ConnId)
    requires Legal(Init(n), es) && Enabled(Run(Init(n), es), e) && c in Run(Init(n), es).info
    ensures var s := Run(Init(n), es); var s' := Step(s, e);
      && (UpdatesChan(s, e, c) ==> s.info[c].index != Poller.Deleted)
      && c in s'.info && IndexRank(s.info[c].index) <= IndexRank(s'.info[c].index)
  {
    InitInv(n);
    RunKeepsInv(Init(n), es);
    NoUpdateStep(Run(Init(n), es), e, c);
  }

  lemma NoUpdateStep(s: Server, e: Event, c: ConnId)
    requires ConnOk(s, c) && Enabled(s, e)
    ensures UpdatesChan(s, e, c) ==> s.info[c].index != Poller.Deleted
    ensures c in Step(s, e).info && IndexRank(s.info[c].index) <= IndexRank(Step(s, e).info[c].index)
  {
    if e.RunFunctor? && e.f.c == c {
      assert Queued(s.loops, e.l, e.f);
    }
  }

  /** Of two connections that were given the same descriptor the earlier one is gone. */
  ghost predicate FdsOk(s: Server) {
    forall c, d :: c in s.info && d in s.info && c < d && s.info[c].fd == s.info[d].fd ==> c in s.freed
  }

  /** No step changes a connection's descriptor or brings a connection back. */
  lemma FdStep(s: Server, e: Event)
    requires Domains(s) && FdsOk(s) && Enabled(s, e) && forall c :: c in s.info ==> c < s.nextId
    ensures FdsOk(Step(s, e))
  {
    var s' := Step(s, e);
    assert forall c :: c in s.info ==> c in s'.info && s'.info[c].fd == s.info[c].fd;
    assert forall c :: c in s'.info && c !in s.info ==> e.Accept? && c == s.nextId && s'.info[c].fd == e.fd;
  }

  lemma {:induction false} FdRun(s: Server, es: seq<Event>)
    requires Inv(s) && FdsOk(s) && Legal(s, es)
    ensures FdsOk(Run(s, es))
    decreases |es|
  {
    if es != [] {
      assert forall c :: c in s.info ==> ConnOk(s, c);
      FdStep(s, es[0]);
      StepKeepsInv(s, es[0]);
      FdRun(Step(s, es[0]), es[1..]);
    }
  }

  /**
  Descriptors: in every interleaving a descriptor is used again only after the connection that had it was
  unregistered, so any two registered connections, on one loop or on several, have different ones. This
  is what Poller asks of the channels of one poller.
  */
  lemma DescriptorsDistinct(n: nat, es: seq<Event>, c: ConnId, d: ConnId)
    requires Legal(Init(n), es) && c in Run(Init(n), es).info && d in Run(Init(n), es).info && c < d
    ensures var s := Run(Init(n), es);
      && (s.info[c].fd == s.info[d].fd ==> c in s.freed && s.info[c].index == Poller.Deleted)
      && (s.info[c].index == Poller.Added && s.info[d].index == Poller.Added ==> s.info[c].fd != s.info[d].fd)
  {
    InitInv(n);
    FdRun(Init(n), es);
    RunKeepsInv(Init(n), es);
    assert ConnOk(Run(Init(n), es), c);
  }

  /** A connection's descriptor is closed only when no poller knows it any more; see Poller.Retire. */
  lemma FreedIsUnregistered(n: nat, es: seq<Event>, c: ConnId)
    requires Legal(Init(n), es) && Enabled(Run(Init(n), es), Free(c))
    ensures Run(Init(n), es).info[c].index == Poller.Deleted
  {
    InitInv(n);
    RunKeepsInv(Init(n), es);
    assert ConnOk(Run(Init(n), es), c);
  }

  /**
  No leak: a closed connection is out of the kernel's table, or a removal or destruction that will take
  it out is queued; once all queues are empty every closed connection is unregistered and unowned.
  */
  lemma ClosedIsTornDown(n: nat, es: seq<Event>, c: ConnId)
    requires Legal(Init(n), es) && c in Run(Init(n), es).info && Run(Init(n), es).info[c].closed > 0
    ensures var s := Run(Init(n), es);
      || (s.info[c].index == Poller.Deleted && c !in s.conns)
      || (c in s.conns && 0 < |s.loops| && Queued(s.loops, 0, DoRemove(c)))
      || (s.info[c].home < |s.loops| && Queued(s.loops, s.info[c].home, DoDestroy(c)))
    ensures var s := Run(Init(n), es);
      (forall l, f :: 0 <= l < |s.loops| ==> !Queued(s.loops, l, f)) ==>
        s.info[c].index == Poller.Deleted && !Owned(s, c)
  {
    InitInv(n);
    RunKeepsInv(Init(n), es);
    assert ConnOk(Run(Init(n), es), c);
  }
}
