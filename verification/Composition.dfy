/**
The parts together: in every run of the whole server, the calls that reach one connection form a
legal run of that connection's own machine, and the two agree on its state and registration all
along. So everything `ConnProofs` proves of one connection's runs holds of every connection of every
server run; `ServerStreamConservation` spells it out for the byte stream.
*/
module Composition {
  import C = ConnStream
  import ConnProofs
  import Poller
  import opened Lifecycle
  import P = LifecycleProofs

  /** What a step of the server calls on connection `c`. */
  ghost function CallsOn(s: Server, e: Event, c: ConnId): seq<C.Op> {
    match e
    case Accept(h, _) => if c == s.nextId && h == 0 then [C.OpEstablish] else []
    case HandleClose(_, d) => if d == c then [C.OpHandleClose] else []
    case Traffic(d, op) => if d == c then [op] else []
    case Shutdown(d) => if d == c then [C.OpShutdown] else []
    case RunFunctor(_, f) =>
      if f == DoEstablish(c) then [C.OpEstablish]
      else if f == DoDestroy(c) then [C.OpDestroy]
      else []
    case _ => []
  }

  /** All calls on connection `c` in a run, in order. */
  ghost function Calls(s: Server, es: seq<Event>, c: ConnId): seq<C.Op>
    requires Legal(s, es)
    decreases |es|
  {
    if es == [] then [] else CallsOn(s, es[0], c) + Calls(Step(s, es[0]), es[1..], c)
  }

  /** The server's record of a connection and the connection's own machine agree. */
  ghost predicate Agree(cfg: C.Config, s: Server, c: ConnId, conn: C.Conn) {
    && ConnProofs.Inv(cfg.mark, conn)
    && (c !in s.info ==> conn == C.INIT)
    && (c in s.info ==> conn.state == s.info[c].state && (conn.registered <==> s.info[c].index == Poller.Added))
  }

  lemma TrafficKeeps(cfg: C.Config, conn: C.Conn, op: C.Op)
    requires ConnProofs.Inv(cfg.mark, conn) && IsTraffic(op) && C.Enabled(conn, op)
    ensures C.Step(cfg, conn, op).state == conn.state && C.Step(cfg, conn, op).registered == conn.registered
  {
    ConnProofs.StateChanges(cfg, conn, op);
  }

  /** A call on the connection finds it in a state that allows it, and agreement survives. */
  lemma CallStep(cfg: C.Config, s: Server, e: Event, c: ConnId, conn: C.Conn)
    requires P.ConnOk(s, c) && Enabled(s, e) && Agree(cfg, s, c, conn) && CallsOn(s, e, c) != []
    requires !e.Accept?
    ensures C.Enabled(conn, CallsOn(s, e, c)[0])
    ensures Agree(cfg, Step(s, e), c, C.Step(cfg, conn, CallsOn(s, e, c)[0]))
  {
    var op := CallsOn(s, e, c)[0];
    if e.RunFunctor? {
      assert Queued(s.loops, e.l, e.f);
    }
    ConnProofs.StepKeepsInv(cfg, conn, op);
    if e.Traffic? {
      TrafficKeeps(cfg, conn, op);
    }
  }

  /** A step that calls nothing on the connection leaves its state and registration alone. */
  lemma NoCallStep(s: Server, e: Event, c: ConnId)
    requires P.ConnOk(s, c) && c != s.nextId && Enabled(s, e) && CallsOn(s, e, c) == []
    ensures c in Step(s, e).info
    ensures Step(s, e).info[c].state == s.info[c].state && Step(s, e).info[c].index == s.info[c].index
  {
  }

  lemma StepAgrees(cfg: C.Config, s: Server, e: Event, c: ConnId, conn: C.Conn)
    requires P.Inv(s) && Enabled(s, e) && Agree(cfg, s, c, conn)
    ensures var ops := CallsOn(s, e, c);
      C.Legal(cfg, conn, ops) && Agree(cfg, Step(s, e), c, C.Run(cfg, conn, ops))
  {
    if c !in s.info {
      NewConnStep(cfg, s, e, c, conn);
    } else {
      assert P.ConnOk(s, c);
      OldConnStep(cfg, s, e, c, conn);
    }
  }

  lemma OldConnStep(cfg: C.Config, s: Server, e: Event, c: ConnId, conn: C.Conn)
    requires P.ConnOk(s, c) && Enabled(s, e) && Agree(cfg, s, c, conn)
    ensures var ops := CallsOn(s, e, c);
      C.Legal(cfg, conn, ops) && Agree(cfg, Step(s, e), c, C.Run(cfg, conn, ops))
  {
    var ops := CallsOn(s, e, c);
    if ops == [] {
      NoCallStep(s, e, c);
    } else {
      CallStep(cfg, s, e, c, conn);
      assert |ops| == 1 && ops[1..] == [];
    }
  }

  lemma NewConnStep(cfg: C.Config, s: Server, e: Event, c: ConnId, conn: C.Conn)
    requires P.Domains(s) && Enabled(s, e) && Agree(cfg, s, c, conn) && c !in s.info
    ensures var ops := CallsOn(s, e, c);
      C.Legal(cfg, conn, ops) && Agree(cfg, Step(s, e), c, C.Run(cfg, conn, ops))
  {
  }

  lemma {:induction false} RunAgrees(cfg: C.Config, s: Server, es: seq<Event>, c: ConnId, conn: C.Conn)
    requires P.Inv(s) && Legal(s, es) && Agree(cfg, s, c, conn)
    ensures C.Legal(cfg, conn, Calls(s, es, c))
    ensures Agree(cfg, Run(s, es), c, C.Run(cfg, conn, Calls(s, es, c)))
    decreases |es|
  {
    if es != [] {
      var ops := CallsOn(s, es[0], c);
      StepAgrees(cfg, s, es[0], c, conn);
      P.StepKeepsInv(s, es[0]);
      RunAgrees(cfg, Step(s, es[0]), es[1..], c, C.Run(cfg, conn, ops));
      ConnProofs.Concat(cfg, conn, ops, Calls(Step(s, es[0]), es[1..], c));
    }
  }

  /**
  In every run of the server, every connection sees a legal run of its own machine, and the server's
  record agrees with that machine's state and registration.
  */
  lemma ServerRunsConnections(n: nat, es: seq<Event>, cfg: C.Config, c: ConnId)
    requires Legal(Init(n), es)
    ensures var ops := Calls(Init(n), es, c); var s := Run(Init(n), es);
      && C.Legal(cfg, C.INIT, ops) && ConnProofs.Inv(cfg.mark, C.Run(cfg, C.INIT, ops))
      && (c in s.info ==>
            && C.Run(cfg, C.INIT, ops).state == s.info[c].state
            && (C.Run(cfg, C.INIT, ops).registered <==> s.info[c].index == Poller.Added))
  {
    P.InitInv(n);
    ConnProofs.InitInv(cfg.mark);
    RunAgrees(cfg, Init(n), es, c, C.INIT);
  }

  /** The traffic of connection `c` in a run: the sends, writes, reads and takes that happen to it. */
  function TrafficOf(es: seq<Event>, c: ConnId): seq<C.Op>
    decreases |es|
  {
    if es == [] then []
    else (if es[0].Traffic? && es[0].c == c then [es[0].op] else []) + TrafficOf(es[1..], c)
  }

  function OnlyTraffic(ops: seq<C.Op>): seq<C.Op>
    decreases |ops|
  {
    if ops == [] then [] else (if IsTraffic(ops[0]) then [ops[0]] else []) + OnlyTraffic(ops[1..])
  }

  /** All traffic of a connection reaches it, in order, and nothing else does. */
  lemma {:induction false} TrafficArrives(s: Server, es: seq<Event>, c: ConnId)
    requires Legal(s, es)
    ensures OnlyTraffic(Calls(s, es, c)) == TrafficOf(es, c)
    decreases |es|
  {
    if es != [] {
      var ops := CallsOn(s, es[0], c);
      var rest := Calls(Step(s, es[0]), es[1..], c);
      TrafficArrives(Step(s, es[0]), es[1..], c);
      if ops == [] {
        assert ops + rest == rest;
      } else {
        assert ops + rest == [ops[0]] + rest && (ops + rest)[1..] == rest;
      }
    }
  }

  /** Stream conservation for every connection of every server run, across all loops and functors. */
  lemma ServerStreamConservation(n: nat, es: seq<Event>, cfg: C.Config, c: ConnId)
    requires Legal(Init(n), es)
    ensures var ops := Calls(Init(n), es, c); var conn := C.Run(cfg, C.INIT, ops);
      && C.SentBytes(conn.trace) + conn.output == C.UndroppedSends(cfg, C.INIT, ops)
      && (ConnProofs.Open(conn.state) ==> (conn.writing <==> conn.output != []))
  {
    ServerRunsConnections(n, es, cfg, c);
    ConnProofs.StreamConservation(cfg, Calls(Init(n), es, c));
    ConnProofs.WriteInterestMatchesBacklog(cfg, Calls(Init(n), es, c));
  }
}
