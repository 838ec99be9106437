/**
Connections across loops. The base loop (number 0) accepts connections, gives each a home loop and
keeps it alive in the server's map; the home loop polls the connection's channel through a raw
pointer. Establishing, removing and destroying are functors that hop between the two, each holding a
shared reference. All loops run interleaved; closing a connection leaves its descriptor registered,
so a close may be reported again and again until destruction takes the descriptor out.

Queues are multisets here, and a loop may run its functors and handle its channels in any order: the
results below need no order, so they hold in particular for the first-in first-out order that module
EventLoop proves.
*/
module Lifecycle {
  import opened ConnStream
  import opened Poller

  type ConnId = nat

  /** A queued functor; it owns the connection it names. */
  datatype Functor =
    | DoEstablish(c: ConnId)
    | DoRemove(c: ConnId)
    | DoDestroy(c: ConnId)

  datatype Stage = InPoll | Handling | Running

  /** One loop: reported channels not handled yet, the rest of the running batch, the pending queue. */
  datatype LoopState = LoopState(
    stage: Stage,
    active: set<ConnId>,
    batch: multiset<Functor>,
    pending: multiset<Functor>)

  /** One connection, with how often it was established, closed and destroyed. */
  datatype Info = Info(
    home: nat,
    fd: int,                      // its socket's descriptor, which the kernel may give out again once it is freed
    state: State,
    index: Index,
    established: nat,
    closed: nat,
    destroyed: nat)

  datatype Server = Server(
    loops: seq<LoopState>,
    conns: set<ConnId>,           // the keys of the server's map
    nextId: ConnId,
    info: map<ConnId, Info>,      // every connection ever made
    freed: set<ConnId>)           // connections whose last owner is gone

  function Init(n: nat): Server {
    Server(seq(n + 1, _ => LoopState(InPoll, {}, multiset{}, multiset{})), {}, 1, map[], {})
  }

  /** How many copies of a functor are still to run on a loop. */
  function Copies(loops: seq<LoopState>, l: nat, f: Functor): nat
    requires l < |loops|
  {
    loops[l].batch[f] + loops[l].pending[f]
  }

  predicate Queued(loops: seq<LoopState>, l: nat, f: Functor)
    requires l < |loops|
  {
    Copies(loops, l, f) > 0
  }

  /** The server's map or some functor still to run holds the connection. */
  ghost predicate Owned(s: Server, c: ConnId) {
    c in s.conns || exists l, f :: 0 <= l < |s.loops| && Queued(s.loops, l, f) && f.c == c
  }

  // ---------------------------------------------------------------------------
  // The pieces of code that run
  // ---------------------------------------------------------------------------

  function Push(loops: seq<LoopState>, l: nat, f: Functor): (r: seq<LoopState>)
    requires l < |loops|
    ensures |r| == |loops|
  {
    loops[l := loops[l].(pending := loops[l].pending + multiset{f})]
  }

  /** The loop takes a functor out of its batch. */
  function Take(loops: seq<LoopState>, l: nat, f: Functor): (r: seq<LoopState>)
    requires l < |loops| && f in loops[l].batch
    ensures |r| == |loops|
  {
    loops[l := loops[l].(batch := loops[l].batch - multiset{f})]
  }

  /** establish_conn: connected, and registered with the home loop's poller. */
  function EstablishConn(k: Info): Info {
    k.(state := Connected, index := Added, established := k.established + 1)
  }

  /** handle_close up to its callbacks: an update registers the channel whatever its index was. */
  function CloseConn(k: Info): Info {
    k.(state := Disconnected, index := Added, closed := k.closed + 1)
  }

  function DestroyConn(k: Info): Info {
    k.(state := if k.state == Connected then Disconnected else k.state,
       index := Deleted, destroyed := k.destroyed + 1)
  }

  /** remove_conn_in_loop, on the base loop: out of the map, and off to the home loop for destruction. */
  function RemoveInLoop(s: Server, c: ConnId): Server
    requires c in s.info && s.info[c].home < |s.loops|
  {
    s.(conns := s.conns - {c}, loops := Push(s.loops, s.info[c].home, DoDestroy(c)))
  }

  function SetInfo(s: Server, c: ConnId, k: Info): Server {
    s.(info := s.info[c := k])
  }

  // ---------------------------------------------------------------------------
  // The steps
  // ---------------------------------------------------------------------------

  datatype Event =
    | Accept(home: nat, fd: int)                // new_conn while the base loop handles its acceptor
    | PollReturns(l: nat, active: set<ConnId>)  // any registered channels of the loop, or none on timeout
    | HandleClose(l: nat, c: ConnId)            // handle_close for a reported channel; it may recur
    | ChanDone(l: nat, c: ConnId)               // done with a reported channel
    | Traffic(c: ConnId, op: Op)                // sends, writes and reads that leave the lifecycle alone
    | Shutdown(c: ConnId)                       // shutdown called on the home loop's thread
    | BeginBatch(l: nat)
    | RunFunctor(l: nat, f: Functor)
    | EndBatch(l: nat)
    | Free(c: ConnId)                           // the last reference is dropped

  ghost predicate Enabled(s: Server, e: Event) {
    match e
    case Accept(h, fd) =>
      && h < |s.loops| && 0 < |s.loops| && s.loops[0].stage == Handling
      && forall c :: c in s.info && c !in s.freed ==> s.info[c].fd != fd
    case PollReturns(l, active) =>
      && l < |s.loops| && s.loops[l].stage == InPoll
      && forall c :: c in active ==> c in s.info && s.info[c].home == l && s.info[c].index == Added
    case HandleClose(l, c) => l < |s.loops| && s.loops[l].stage == Handling && c in s.loops[l].active && Known(s, c)
    case ChanDone(l, c) => l < |s.loops| && s.loops[l].stage == Handling && c in s.loops[l].active
    case Traffic(c, op) =>
      && OnHomeThread(s, c) && IsTraffic(op)
      && (op.OpHandleWrite? || op.OpHandleRead? ==> c in s.loops[s.info[c].home].active)
    case Shutdown(c) => OnHomeThread(s, c) && s.info[c].state == Connected
    case BeginBatch(l) => l < |s.loops| && s.loops[l].stage == Handling && s.loops[l].active == {}
    case RunFunctor(l, f) =>
      l < |s.loops| && s.loops[l].stage == Running && f in s.loops[l].batch && Known(s, f.c)
    case EndBatch(l) => l < |s.loops| && s.loops[l].stage == Running && s.loops[l].batch == multiset{}
    case Free(c) => c in s.info && c !in s.freed && !Owned(s, c)
  }

  /** The connection exists and its home is one of the loops; NoDanglingChannel shows this is no restriction. */
  predicate Known(s: Server, c: ConnId) {
    c in s.info && s.info[c].home < |s.loops|
  }

  /** Somebody on the home loop's thread, which is not blocked in poll, holds the living connection. */
  predicate OnHomeThread(s: Server, c: ConnId) {
    Known(s, c) && c !in s.freed && s.loops[s.info[c].home].stage != InPoll
  }

  /** Operations that neither establish nor shut down nor close nor destroy. */
  predicate IsTraffic(op: Op) {
    match op
    case OpSend(_, _) => true
    case OpHandleWrite(_) => true
    case OpHandleRead(r) => r != ReadBytes([])
    case OpConsume(_) => true
    case _ => false
  }

  ghost function Step(s: Server, e: Event): Server
    requires Enabled(s, e)
  {
    match e
    case Accept(h, fd) => AcceptConn(s, h, fd)
    case PollReturns(l, active) =>
      s.(loops := s.loops[l := s.loops[l].(stage := Handling, active := active)])
    case HandleClose(l, c) => CloseChan(s, l, c)
    case ChanDone(l, c) => s.(loops := s.loops[l := s.loops[l].(active := s.loops[l].active - {c})])
    case Traffic(_, _) => s
    case Shutdown(c) => SetInfo(s, c, s.info[c].(state := Disconnecting))
    case BeginBatch(l) =>
      s.(loops := s.loops[l := s.loops[l].(stage := Running, batch := s.loops[l].pending, pending := multiset{})])
    case RunFunctor(l, f) => RunOne(s, l, f)
    case EndBatch(l) => s.(loops := s.loops[l := s.loops[l].(stage := InPoll)])
    case Free(c) => s.(freed := s.freed + {c})
  }

  /** new_conn: run_in_loop establishes at once when the base loop is the home, and queues otherwise. */
  function AcceptConn(s: Server, h: nat, fd: int): Server
    requires h < |s.loops|
  {
    var c := s.nextId;
    var k := Info(h, fd, Connecting, New, 0, 0, 0);
    var t := s.(conns := s.conns + {c}, nextId := c + 1);
    if h == 0 then SetInfo(t, c, EstablishConn(k)) else SetInfo(t, c, k).(loops := Push(s.loops, h, DoEstablish(c)))
  }

  /** handle_close and the server's remove_conn, which runs at once on the base loop and queues elsewhere. */
  function CloseChan(s: Server, l: nat, c: ConnId): Server
    requires l < |s.loops| && Known(s, c)
  {
    var t := SetInfo(s, c, CloseConn(s.info[c]));
    if l == 0 then RemoveInLoop(t, c) else t.(loops := Push(s.loops, 0, DoRemove(c)))
  }

  function RunOne(s: Server, l: nat, f: Functor): Server
    requires l < |s.loops| && f in s.loops[l].batch && Known(s, f.c)
  {
    var t := s.(loops := Take(s.loops, l, f));
    match f
    case DoEstablish(c) => SetInfo(t, c, EstablishConn(s.info[c]))
    case DoRemove(c) => RemoveInLoop(t, c)
    case DoDestroy(c) => SetInfo(t, c, DestroyConn(s.info[c]))
  }

  ghost predicate Legal(s: Server, es: seq<Event>)
    decreases |es|
  {
    es == [] || (Enabled(s, es[0]) && Legal(Step(s, es[0]), es[1..]))
  }

  ghost function Run(s: Server, es: seq<Event>): Server
    requires Legal(s, es)
    decreases |es|
  {
    if es == [] then s else Run(Step(s, es[0]), es[1..])
  }
}
