/**
The connection object: in-place buffers, a channel and the poller it is registered with. Every
method is proved to do exactly what its handler in `ConnStream` does, so all results about runs in
`ConnProofs` hold of it; `KernelWatchesBacklog` then joins them with the poller's agreement.
*/
module TcpConnection {
  import opened NetBuffer
  import opened Poller
  import L = BufferLayout
  import C = ConnStream
  import ConnProofs

  /** The handlers a channel runs for reported events, in order: hang-up, readable, writable. */
  function Dispatch(revents: Mask, r: C.ReadResult, w: C.WriteResult): seq<C.Op> {
    (if Hup in revents && In !in revents then [C.OpHandleClose] else [])
    + (if In in revents || Pri in revents then [C.OpHandleRead(r)] else [])
    + (if Out in revents then [C.OpHandleWrite(w)] else [])
  }

  // The connection sees its buffers as byte queues; these adapters forget the layout, but not the size.

  /** How long a vector of length `len` may become by growing for these contents. */
  function Room(len: nat, contents: seq<C.Byte>): nat {
    L.Max(len, L.CHEAP_PREPEND + 2 * |contents|)
  }

  method AppendTo(b: Buffer, s: seq<C.Byte>)
    requires b.Valid()
    modifies b, b.buf
    ensures b.Valid() && (b.buf == old(b.buf) || fresh(b.buf))
    ensures b.Contents() == old(b.Contents()) + s
    ensures b.buf.Length <= Room(old(b.buf.Length), b.Contents())
  {
    b.Append(s);
  }

  method ReadInto(b: Buffer, s: seq<C.Byte>)
    requires b.Valid() && |s| <= b.Value().ReadCapacity()
    modifies b, b.buf
    ensures b.Valid() && (b.buf == old(b.buf) || fresh(b.buf))
    ensures b.Contents() == old(b.Contents()) + s
    ensures b.buf.Length <= Room(old(b.buf.Length), b.Contents())
  {
    b.ReadFd(s);
  }

  method DropFrom(b: Buffer, n: nat)
    requires b.Valid() && n <= |b.Contents()|
    modifies b`reader, b`writer
    ensures b.Valid() && b.Contents() == old(b.Contents())[n..]
  {
    b.Retrieve(n);
  }

  method TakeFrom(b: Buffer, n: nat) returns (s: seq<C.Byte>)
    requires b.Valid() && n <= |b.Contents()|
    modifies b`reader, b`writer
    ensures b.Valid() && s == old(b.Contents())[..n] && b.Contents() == old(b.Contents())[n..]
  {
    s := b.RetrieveAsString(n);
    assert s == old(b.Contents())[..n];
  }

  /** The poller's agreement depends on the poller and its channels only. */
  twostate lemma PollerFrame(p: EpollPoller)
    requires old(p.Valid()) && unchanged(p) && unchanged(p.known)
    ensures p.Valid()
  {
  }

  class TcpConn {
    const cfg: C.Config
    const ch: Chan
    const poller: EpollPoller
    const input: Buffer
    const output: Buffer
    var state: C.State
    ghost var trace: C.History

    ghost predicate Valid()
      reads this, ch, poller, poller.known, input, input.buf, output, output.buf
    {
      && input != output && input.buf != output.buf
      && input.Valid() && output.Valid()
      && poller.Valid() && ch in poller.known
    }

    ghost function View(): C.Conn
      reads this, ch, input, input.buf, output, output.buf
      requires input.Valid() && output.Valid()
    {
      C.Conn(state, ch.index == Added, In in ch.events && Pri in ch.events, Writing(ch.events),
             input.Contents(), output.Contents(), trace)
    }

    /** The object is where the operations `ops` lead, and both vectors fit the most they ever held. */
    ghost predicate Reached(ops: seq<C.Op>)
      reads this, ch, input, input.buf, output, output.buf
      requires input.Valid() && output.Valid()
    {
      && C.Legal(cfg, C.INIT, ops) && View() == C.Run(cfg, C.INIT, ops)
      && Fits(cfg, ops, ConnProofs.Input, input.buf.Length)
      && Fits(cfg, ops, ConnProofs.Output, output.buf.Length)
    }

    constructor (cfg: C.Config, ch: Chan, poller: EpollPoller)
      requires poller.Valid() && ch in poller.known && ch.index == New && ch.events == NONE_EVENT
      ensures Valid() && View() == C.INIT && Reached([])
      ensures this.cfg == cfg && this.ch == ch && this.poller == poller
      ensures fresh(input) && fresh(input.buf) && fresh(output) && fresh(output.buf)
      ensures input.buf.Length == 1032 && output.buf.Length == 1032
    {
      this.cfg, this.ch, this.poller := cfg, ch, poller;
      input := new Buffer(L.INITIAL_SIZE);
      output := new Buffer(L.INITIAL_SIZE);
      state := C.Connecting;
      trace := C.Start;
    }

    method EstablishConn()
      requires Valid()
      modifies this`state, ch`events, ch`index, poller`chs, poller`kernel
      ensures Valid() && View() == C.Establish(old(View()))
    {
      state := C.Connected;
      poller.EnableReading(ch);
    }

    method Send(data: seq<C.Byte>, r: C.WriteResult)
      requires Valid()
      modifies this`trace, ch`events, ch`index, poller`chs, poller`kernel, output, output.buf
      ensures Valid() && (output.buf == old(output.buf) || fresh(output.buf))
      ensures output.buf.Length <= Room(old(output.buf.Length), output.Contents())
      ensures View() == C.Send(cfg, old(View()), data, r)
    {
      if state == C.Connected {
        SendInLoop(data, r);
      }
    }

    /** `r` is the socket's answer should the direct write be tried. */
    method SendInLoop(data: seq<C.Byte>, r: C.WriteResult)
      requires Valid()
      modifies this`trace, ch`events, ch`index, poller`chs, poller`kernel, output, output.buf
      ensures Valid() && (output.buf == old(output.buf) || fresh(output.buf))
      ensures output.buf.Length <= Room(old(output.buf.Length), output.Contents())
      ensures View() == C.SendInLoop(cfg, old(View()), data, r)
    {
      if state == C.Disconnected {
        return;
      }
      var readable := output.ReadableBytes();
      if Writing(ch.events) || readable != 0 {
        Defer(data);
      } else {
        DirectWrite(data, r);
      }
    }

    /** All of `data` has to wait behind what is buffered already, or behind a refused write. */
    method Defer(data: seq<C.Byte>)
      requires Valid()
      modifies this`trace, ch`events, ch`index, poller`chs, poller`kernel, output, output.buf
      ensures Valid() && (output.buf == old(output.buf) || fresh(output.buf))
      ensures output.buf.Length <= Room(old(output.buf.Length), output.Contents())
      ensures View() == C.Enqueue(cfg, C.Emit(old(View()), C.Accepted(data)), data)
    {
      trace := C.Then(trace, C.Accepted(data));
      PollerFrame(poller);
      if data != [] {
        Enqueue(data);
      }
    }

    method DirectWrite(data: seq<C.Byte>, r: C.WriteResult)
      requires Valid()
      modifies this`trace, ch`events, ch`index, poller`chs, poller`kernel, output, output.buf
      ensures Valid() && (output.buf == old(output.buf) || fresh(output.buf))
      ensures output.buf.Length <= Room(old(output.buf.Length), output.Contents())
      ensures View() == C.DirectWrite(cfg, old(View()), data, r)
    {
      if r.Wrote? {
        var nwrote := C.Taken(r, |data|);
        ghost var t := C.Then(C.Then(trace, C.Accepted(data)), C.Sent(data[..nwrote]));
        trace := if nwrote == |data| && cfg.onComplete then C.Then(t, C.WriteComplete) else t;
        PollerFrame(poller);
        if nwrote < |data| {
          Enqueue(data[nwrote..]);
        }
      } else if !r.Broken? {
        Defer(data);
      }
    }

    method Enqueue(rest: seq<C.Byte>)
      requires Valid() && rest != []
      modifies this`trace, ch`events, ch`index, poller`chs, poller`kernel, output, output.buf
      ensures Valid() && (output.buf == old(output.buf) || fresh(output.buf))
      ensures output.buf.Length <= Room(old(output.buf.Length), output.Contents())
      ensures View() == C.Enqueue(cfg, old(View()), rest)
    {
      var oldLen := output.ReadableBytes();
      if oldLen + |rest| >= cfg.mark && oldLen < cfg.mark && cfg.onHighWater {
        trace := C.Then(trace, C.HighWater(oldLen + |rest|));
      }
      AppendTo(output, rest);
      assert poller.Valid() by {
        PollerFrame(poller);
      }
      WatchOutput();
    }

    /** Without write events the poller would never report that the socket takes bytes again. */
    method WatchOutput()
      requires Valid()
      modifies ch`events, ch`index, poller`chs, poller`kernel
      ensures Valid() && Writing(ch.events)
      ensures var c := old(View()); View() == c.(registered := c.registered || !c.writing, writing := true)
    {
      if !Writing(ch.events) {
        poller.EnableWriting(ch);
      }
    }

    method Shutdown()
      requires Valid()
      modifies this`state, this`trace
      ensures Valid() && View() == C.Shutdown(old(View()))
    {
      if state == C.Connected {
        state := C.Disconnecting;
        ShutdownInLoop();
      }
    }

    method ShutdownInLoop()
      requires Valid()
      modifies this`trace
      ensures Valid() && View() == C.ShutdownInLoop(old(View()))
    {
      if !Writing(ch.events) {
        trace := C.Then(trace, C.ShutWr);
      }
    }

    method HandleWrite(r: C.WriteResult)
      requires Valid()
      modifies this`trace, ch`events, ch`index, poller`chs, poller`kernel, output`reader, output`writer
      ensures Valid() && View() == C.HandleWrite(cfg, old(View()), r)
    {
      if Writing(ch.events) {
        ghost var was := output.Contents();
        var readable := output.ReadableBytes();
        var n := C.Taken(r, readable);
        if n > 0 {
          trace := C.Then(trace, C.Sent(was[..n]));
          DropFrom(output, n);
          PollerFrame(poller);
          var left := output.ReadableBytes();
          if left == 0 {
            FinishWriting();
          }
        }
      }
    }

    method FinishWriting()
      requires Valid()
      modifies this`trace, ch`events, ch`index, poller`chs, poller`kernel
      ensures Valid() && View() == C.FinishWriting(cfg, old(View()))
    {
      poller.DisableWriting(ch);
      if cfg.onComplete {
        trace := C.Then(trace, C.WriteComplete);
      }
      if state == C.Disconnecting {
        ShutdownInLoop();
      }
    }

    method HandleRead(r: C.ReadResult)
      requires Valid() && (r.ReadBytes? ==> |r.bytes| <= input.Value().ReadCapacity())
      modifies this`state, this`trace, ch`events, ch`index, poller`chs, poller`kernel, input, input.buf
      ensures Valid() && (input.buf == old(input.buf) || fresh(input.buf))
      ensures input.buf.Length <= Room(old(input.buf.Length), input.Contents())
      ensures View() == C.HandleRead(old(View()), r)
    {
      if r.ReadBytes? {
        if |r.bytes| > 0 {
          ReadInto(input, r.bytes);
          assert poller.Valid() by {
            PollerFrame(poller);
          }
          trace := C.Then(trace, C.Received(r.bytes));
        } else {
          HandleClose();
        }
      }
    }

    /** A message callback taking bytes out of the input buffer; it may ask for more than there are. */
    method Consume(n: nat) returns (s: seq<C.Byte>)
      requires Valid()
      modifies this`trace, input`reader, input`writer
      ensures Valid() && View() == C.Consume(old(View()), n)
      ensures s + input.Contents() == old(input.Contents())
    {
      var readable := input.ReadableBytes();
      var k := if n < readable then n else readable;
      ghost var all := input.Contents();
      trace := C.Then(trace, C.Consumed(all[..k]));
      s := TakeFrom(input, k);
      PollerFrame(poller);
      assert all[..k] + all[k..] == all;
    }

    method HandleClose()
      requires Valid()
      modifies this`state, ch`events, ch`index, poller`chs, poller`kernel
      ensures Valid() && View() == C.HandleClose(old(View())) && ch.events == NONE_EVENT
    {
      state := C.Disconnected;
      poller.DisableAll(ch);
    }

    method DestroyConn()
      requires Valid()
      modifies this`state, ch`events, ch`index, poller`chs, poller`kernel, poller`removed
      ensures Valid() && View() == C.Destroy(old(View()))
    {
      if state == C.Connected {
        state := C.Disconnected;
        poller.DisableAll(ch);
      }
      poller.RemoveChan(ch);
    }

    /** The handlers for what the last poll reported. A hang-up and an end of stream may both close. */
    method HandleEventWithGuard(r: C.ReadResult, w: C.WriteResult)
      requires Valid() && (r.ReadBytes? ==> |r.bytes| <= input.Value().ReadCapacity())
      modifies this`state, this`trace, ch`events, ch`index, poller`chs, poller`kernel
      modifies input, input.buf, output`reader, output`writer
      ensures Valid() && View() == C.Run(cfg, old(View()), Dispatch(ch.revents, r, w))
    {
      DispatchSteps(cfg, View(), ch.revents, r, w);
      if Hup in ch.revents && In !in ch.revents {
        HandleClose();
      }
      if In in ch.revents || Pri in ch.revents {
        HandleRead(r);
      }
      if Out in ch.revents {
        HandleWrite(w);
      }
    }

    /**
    Event dispatch of the connection's channel: `alive` says whether the channel's tie to its connection
    could be taken, and without it nothing happens. Events reach registered channels only, and for those
    the dispatched operations are a legal run, which keeps the channel registered and the invariant.
    */
    method HandleEvent(alive: bool, r: C.ReadResult, w: C.WriteResult)
      requires Valid() && (r.ReadBytes? ==> |r.bytes| <= input.Value().ReadCapacity())
      modifies this`state, this`trace, ch`events, ch`index, poller`chs, poller`kernel
      modifies input, input.buf, output`reader, output`writer
      ensures Valid()
      ensures View() == if alive then C.Run(cfg, old(View()), Dispatch(ch.revents, r, w)) else old(View())
      ensures old(View()).registered ==>
        C.Legal(cfg, old(View()), Dispatch(ch.revents, r, w)) && View().registered
      ensures old(View()).registered && ConnProofs.Inv(cfg.mark, old(View())) ==> ConnProofs.Inv(cfg.mark, View())
    {
      DispatchLegal(cfg, View(), ch.revents, r, w);
      if alive {
        HandleEventWithGuard(r, w);
      }
    }

    /**
    Any operation of a run, on the object: it does the step of the machine and keeps the invariant,
    so everything proved of runs holds of every reachable state of the object.
    */
    method Perform(op: C.Op)
      requires Valid() && ConnProofs.Inv(cfg.mark, View()) && C.Enabled(View(), op)
      requires op.OpHandleRead? && op.r.ReadBytes? ==> |op.r.bytes| <= input.Value().ReadCapacity()
      modifies this`state, this`trace, ch`events, ch`index, poller`chs, poller`kernel, poller`removed
      modifies input, input.buf, output, output.buf
      ensures Valid() && (input.buf == old(input.buf) || fresh(input.buf))
      ensures output.buf == old(output.buf) || fresh(output.buf)
      ensures View() == C.Step(cfg, old(View()), op) && ConnProofs.Inv(cfg.mark, View())
      ensures input.buf.Length <= Room(old(input.buf.Length), input.Contents())
      ensures output.buf.Length <= Room(old(output.buf.Length), output.Contents())
    {
      ConnProofs.StepKeepsInv(cfg, View(), op);
      match op
      case OpEstablish => EstablishConn();
      case OpSend(data, w) => Send(data, w);
      case OpShutdown => Shutdown();
      case OpHandleWrite(w) => HandleWrite(w);
      case OpHandleRead(r) => HandleRead(r);
      case OpConsume(n) => var s := Consume(n);
      case OpHandleClose => HandleClose();
      case OpDestroy => DestroyConn();
    }

    /**
    One more operation in the life of the object. By induction over its calls, every run of the object is
    a legal run of the machine, and neither vector is ever longer than the prepend area plus the initial
    size or twice the most bytes held so far.
    */
    method Continue(op: C.Op, ghost ops: seq<C.Op>)
      requires Valid() && Reached(ops) && C.Enabled(View(), op)
      requires op.OpHandleRead? && op.r.ReadBytes? ==> |op.r.bytes| <= input.Value().ReadCapacity()
      modifies this`state, this`trace, ch`events, ch`index, poller`chs, poller`kernel, poller`removed
      modifies input, input.buf, output, output.buf
      ensures Valid() && Reached(ops + [op])
    {
      RunReached(cfg, ops, op);
      Perform(op);
      StillFits(cfg, ops, op, ConnProofs.Input, old(input.buf.Length), input.buf.Length);
      StillFits(cfg, ops, op, ConnProofs.Output, old(output.buf.Length), output.buf.Length);
    }

    /**
    Bytes are never stranded and an idle socket is never polled for output: while the connection is
    open and registered, the kernel's own table always asks for input, and for write events exactly when
    bytes are buffered.
    */
    lemma KernelWatchesBacklog()
      requires Valid() && ConnProofs.Inv(cfg.mark, View())
      requires ConnProofs.Open(state) && ch.index == Added
      ensures ch.fd in poller.kernel && poller.kernel[ch.fd].ptr == ch
      ensures In in poller.kernel[ch.fd].mask && Pri in poller.kernel[ch.fd].mask
      ensures Out in poller.kernel[ch.fd].mask <==> output.Contents() != []
    {
    }
  }

  /** A vector of length `len` is within the prepend area plus the initial size or twice the peak of the run. */
  ghost predicate Fits(cfg: C.Config, ops: seq<C.Op>, side: ConnProofs.Side, len: nat) {
    len <= 8 + L.Max(1024, 2 * ConnProofs.Peak(side, cfg, C.INIT, ops))
  }

  lemma RunReached(cfg: C.Config, ops: seq<C.Op>, op: C.Op)
    requires C.Legal(cfg, C.INIT, ops) && C.Enabled(C.Run(cfg, C.INIT, ops), op)
    ensures ConnProofs.Inv(cfg.mark, C.Run(cfg, C.INIT, ops))
    ensures C.Legal(cfg, C.INIT, ops + [op])
    ensures C.Run(cfg, C.INIT, ops + [op]) == C.Step(cfg, C.Run(cfg, C.INIT, ops), op)
  {
    ConnProofs.InitInv(cfg.mark);
    ConnProofs.RunKeepsInv(cfg, C.INIT, ops);
    assert [op][1..] == [];
    ConnProofs.Concat(cfg, C.INIT, ops, [op]);
  }

  lemma StillFits(cfg: C.Config, ops: seq<C.Op>, op: C.Op, side: ConnProofs.Side, was: nat, len: nat)
    requires Fits(cfg, ops, side, was)
    requires var c := C.Step(cfg, C.Run(cfg, C.INIT, ops), op);
      len <= L.Max(was, L.CHEAP_PREPEND + 2 * ConnProofs.Held(side, c))
    ensures Fits(cfg, ops + [op], side, len)
  {
    ConnProofs.PeakOneMore(side, cfg, C.INIT, ops, op);
  }

  /** One operation that may be left out, then the rest. */
  function Optional(on: bool, op: C.Op, rest: seq<C.Op>): seq<C.Op> {
    if on then [op] + rest else rest
  }

  lemma {:induction false} RunOptional(cfg: C.Config, c: C.Conn, on: bool, op: C.Op, rest: seq<C.Op>)
    ensures var d := if on then C.Step(cfg, c, op) else c;
      && C.Run(cfg, c, Optional(on, op, rest)) == C.Run(cfg, d, rest)
      && (C.Legal(cfg, c, Optional(on, op, rest)) <==> (on ==> C.Enabled(c, op)) && C.Legal(cfg, d, rest))
  {
    if on {
      assert ([op] + rest)[1..] == rest;
    }
  }

  lemma DispatchShape(revents: Mask, r: C.ReadResult, w: C.WriteResult)
    ensures Dispatch(revents, r, w) ==
      Optional(Hup in revents && In !in revents, C.OpHandleClose,
               Optional(In in revents || Pri in revents, C.OpHandleRead(r),
                        Optional(Out in revents, C.OpHandleWrite(w), [])))
  {
  }

  /** The dispatched operations happen as hang-up, then read, then write. */
  lemma {:induction false} DispatchSteps(
    cfg: C.Config, c: C.Conn, revents: Mask, r: C.ReadResult, w: C.WriteResult)
    ensures C.Run(cfg, c, Dispatch(revents, r, w)) ==
      var c1 := if Hup in revents && In !in revents then C.HandleClose(c) else c;
      var c2 := if In in revents || Pri in revents then C.HandleRead(c1, r) else c1;
      if Out in revents then C.HandleWrite(cfg, c2, w) else c2
    ensures c.registered ==> C.Legal(cfg, c, Dispatch(revents, r, w))
  {
    var write := Optional(Out in revents, C.OpHandleWrite(w), []);
    var read := Optional(In in revents || Pri in revents, C.OpHandleRead(r), write);
    var c1 := if Hup in revents && In !in revents then C.Step(cfg, c, C.OpHandleClose) else c;
    var c2 := if In in revents || Pri in revents then C.Step(cfg, c1, C.OpHandleRead(r)) else c1;
    DispatchShape(revents, r, w);
    RunOptional(cfg, c, Hup in revents && In !in revents, C.OpHandleClose, read);
    RunOptional(cfg, c1, In in revents || Pri in revents, C.OpHandleRead(r), write);
    RunOptional(cfg, c2, Out in revents, C.OpHandleWrite(w), []);
  }

  /** Whatever a registered channel reports is handled legally; it stays registered and the invariant is kept. */
  lemma {:induction false} DispatchLegal(
    cfg: C.Config, c: C.Conn, revents: Mask, r: C.ReadResult, w: C.WriteResult)
    ensures c.registered ==>
      && C.Legal(cfg, c, Dispatch(revents, r, w))
      && C.Run(cfg, c, Dispatch(revents, r, w)).registered
    ensures c.registered && ConnProofs.Inv(cfg.mark, c) ==>
      ConnProofs.Inv(cfg.mark, C.Run(cfg, c, Dispatch(revents, r, w)))
  {
    DispatchSteps(cfg, c, revents, r, w);
    if c.registered && ConnProofs.Inv(cfg.mark, c) {
      ConnProofs.RunKeepsInv(cfg, c, Dispatch(revents, r, w));
    }
  }

  /** A read changes the state at the end of the stream only, and the sent bytes never. */
  lemma {:induction false} ReadEffects(cfg: C.Config, c: C.Conn, r: C.ReadResult)
    requires c.registered && ConnProofs.Inv(cfg.mark, c)
    ensures var d := C.HandleRead(c, r);
      && ConnProofs.Inv(cfg.mark, d) && d.registered && d.output == c.output
      && d.state == (if r == C.ReadBytes([]) then C.Disconnected else c.state)
      && C.ReceivedBytes(d.trace) == C.ReceivedBytes(c.trace) + (if r.ReadBytes? then r.bytes else [])
      && C.SentBytes(d.trace) == C.SentBytes(c.trace)
  {
    var op := C.OpHandleRead(r);
    ConnProofs.StepKeepsInv(cfg, c, op);
    ConnProofs.AnswersHonoured(cfg, c, op);
    ConnProofs.InputHonoured(cfg, c, op);
    ConnProofs.StateChanges(cfg, c, op);
    assert C.ReceivedBytes(c.trace) + [] == C.ReceivedBytes(c.trace);
  }

  lemma {:induction false} WriteEffects(cfg: C.Config, c: C.Conn, w: C.WriteResult)
    requires c.registered && ConnProofs.Inv(cfg.mark, c)
    ensures var d := C.HandleWrite(cfg, c, w);
      && d.state == c.state && C.ReceivedBytes(d.trace) == C.ReceivedBytes(c.trace)
      && (c.writing && w.Wrote? && w.n <= |c.output| ==>
            C.SentBytes(d.trace) == C.SentBytes(c.trace) + c.output[..w.n])
      && (!c.writing ==> d == c)
  {
    var op := C.OpHandleWrite(w);
    ConnProofs.AnswersHonoured(cfg, c, op);
    ConnProofs.InputHonoured(cfg, c, op);
    ConnProofs.StateChanges(cfg, c, op);
  }

  /**
  What a report does to a registered connection. It is closed by a hang-up without input and by the end
  of the peer's stream; it receives what a read delivers when input is reported; and the socket takes
  buffered bytes only when it is reported writable.
  */
  lemma {:induction false} DispatchEffects(
    cfg: C.Config, c: C.Conn, revents: Mask, r: C.ReadResult, w: C.WriteResult)
    requires c.registered && ConnProofs.Inv(cfg.mark, c)
    ensures var d := C.Run(cfg, c, Dispatch(revents, r, w));
      var closes := (Hup in revents && In !in revents) || ((In in revents || Pri in revents) && r == C.ReadBytes([]));
      && d.state == (if closes then C.Disconnected else c.state)
      && C.ReceivedBytes(d.trace) == C.ReceivedBytes(c.trace)
           + (if (In in revents || Pri in revents) && r.ReadBytes? then r.bytes else [])
      && (Out in revents && !closes && c.writing && w.Wrote? && w.n <= |c.output| ==>
            C.SentBytes(d.trace) == C.SentBytes(c.trace) + c.output[..w.n])
      && (Out !in revents || closes ==> C.SentBytes(d.trace) == C.SentBytes(c.trace))
  {
    var close := Hup in revents && In !in revents;
    var read := In in revents || Pri in revents;
    DispatchSteps(cfg, c, revents, r, w);
    ConnProofs.StepKeepsInv(cfg, c, C.OpHandleClose);
    var c1 := if close then C.HandleClose(c) else c;
    ReadEffects(cfg, c1, r);
    var c2 := if read then C.HandleRead(c1, r) else c1;
    WriteEffects(cfg, c2, w);
    assert C.ReceivedBytes(c.trace) + [] == C.ReceivedBytes(c.trace);
  }
}
