/**
What every run of a connection keeps, whatever the socket answers: no byte is lost, duplicated or
reordered; write interest follows the backlog; the write half is closed once, after the last byte;
and the two notifications are sent exactly when their moment has come.
*/
module ConnProofs {
  import opened ConnStream
  import L = BufferLayout

  // ---------------------------------------------------------------------------
  // Justified traces
  // ---------------------------------------------------------------------------

  /** Since the last high-water notification, if any, the backlog has been below the mark. */
  ghost predicate Rearmed(mark: nat, h: History) {
    Backlog(h) < mark || (h.Then? && !h.now.HighWater? && Rearmed(mark, h.past))
  }

  /** What must hold of the history `h` for the connection to do `a` next. */
  ghost predicate Justified(mark: nat, h: History, a: Action) {
    match a
    case Accepted(_) => !Did(h, ShutWr)
    case Sent(_) => !Did(h, ShutWr)
    case ShutWr => !Did(h, ShutWr) && Flushed(h)
    case WriteComplete => Flushed(h)
    case HighWater(n) => n == Backlog(h) && n >= mark && Rearmed(mark, h)
    case _ => true
  }

  /** Every action of the history was justified by the actions before it. */
  ghost predicate JustifiedHistory(mark: nat, h: History) {
    h == Start || (JustifiedHistory(mark, h.past) && Justified(mark, h.past, h.now))
  }

  lemma {:induction false} JustifiedAt(mark: nat, h: History, g: History)
    requires JustifiedHistory(mark, h) && Within(g, h)
    ensures JustifiedHistory(mark, g)
  {
    if g != h {
      JustifiedAt(mark, h.past, g);
    }
  }

  lemma {:induction false} DidWithin(g: History, h: History, a: Action)
    requires Within(g, h) && Did(g, a)
    ensures Did(h, a)
  {
    if g != h {
      DidWithin(g, h.past, a);
    }
  }

  /** A rearmed history has a point below the mark after every high-water notification in it. */
  lemma {:induction false} RearmedPoint(mark: nat, g: History, h: History) returns (k: History)
    requires Rearmed(mark, h) && Within(g, h) && g.Then? && g.now.HighWater?
    ensures Within(g, k) && Within(k, h) && Backlog(k) < mark
  {
    if Backlog(h) < mark {
      k := h;
    } else {
      k := RearmedPoint(mark, g, h.past);
    }
  }

  // ---------------------------------------------------------------------------
  // The invariant of a connection
  // ---------------------------------------------------------------------------

  /** Established and not yet closed. */
  predicate Open(s: State) {
    s == Connected || s == Disconnecting
  }

  ghost predicate Streams(c: Conn) {
    && AcceptedBytes(c.trace) == SentBytes(c.trace) + c.output
    && ReceivedBytes(c.trace) == ConsumedBytes(c.trace) + c.input
  }

  ghost predicate Interest(c: Conn) {
    && (Open(c.state) ==> (c.writing <==> c.output != []))
    && (!Open(c.state) ==> !c.writing)
    && (Open(c.state) <==> c.reading)
    && (c.state == Connected ==> c.registered)
    && (c.state == Connecting ==> c.output == [])
  }

  ghost predicate HalfClosed(c: Conn) {
    && ((c.state == Connecting || c.state == Connected) ==> !Did(c.trace, ShutWr))
    && (c.state == Disconnecting ==> (Did(c.trace, ShutWr) <==> c.output == []))
    && (Did(c.trace, ShutWr) ==> c.output == [])
  }

  ghost predicate Inv(mark: nat, c: Conn) {
    Streams(c) && Interest(c) && HalfClosed(c) && JustifiedHistory(mark, c.trace)
  }

  /** A connected connection in the middle of a send that still has `rest` to place. */
  ghost predicate Midway(mark: nat, c: Conn, rest: seq<Byte>) {
    && c.state == Connected && c.registered && c.reading && (c.writing <==> c.output != [])
    && AcceptedBytes(c.trace) == SentBytes(c.trace) + c.output + rest
    && ReceivedBytes(c.trace) == ConsumedBytes(c.trace) + c.input
    && JustifiedHistory(mark, c.trace) && !Did(c.trace, ShutWr)
    && (|c.output| < mark ==> Rearmed(mark, c.trace))
  }

  lemma {:induction false} AcceptStep(mark: nat, c: Conn, data: seq<Byte>)
    requires Inv(mark, c) && c.state == Connected
    ensures Midway(mark, Emit(c, Accepted(data)), data)
  {
  }

  lemma {:induction false} DirectWriteStep(mark: nat, c: Conn, data: seq<Byte>, k: nat)
    requires Midway(mark, c, data) && c.output == [] && k <= |data|
    ensures Midway(mark, Emit(c, Sent(data[..k])), data[k..])
    ensures AcceptedBytes(Emit(c, Sent(data[..k])).trace) == AcceptedBytes(c.trace)
  {
  }

  lemma {:induction false} CompleteStep(mark: nat, c: Conn)
    requires Midway(mark, c, []) && c.output == []
    ensures Midway(mark, Emit(c, WriteComplete), [])
    ensures AcceptedBytes(Emit(c, WriteComplete).trace) == AcceptedBytes(c.trace)
  {
  }

  lemma {:induction false} EnqueueStep(cfg: Config, c: Conn, rest: seq<Byte>)
    requires Midway(cfg.mark, c, rest)
    ensures Inv(cfg.mark, Enqueue(cfg, c, rest))
    ensures AcceptedBytes(Enqueue(cfg, c, rest).trace) == AcceptedBytes(c.trace)
  {
  }

  lemma {:induction false} SendStep(cfg: Config, c: Conn, data: seq<Byte>, r: WriteResult)
    requires Inv(cfg.mark, c)
    ensures Inv(cfg.mark, Send(cfg, c, data, r))
    ensures AcceptedBytes(Send(cfg, c, data, r).trace)
         == AcceptedBytes(c.trace) + if Dropped(c, OpSend(data, r)) then [] else data
  {
    if !Dropped(c, OpSend(data, r)) {
      var a := Emit(c, Accepted(data));
      AcceptStep(cfg.mark, c, data);
      if c.output == [] && r.Wrote? {
        var k := Taken(r, |data|);
        DirectWriteStep(cfg.mark, a, data, k);
        var b := Emit(a, Sent(data[..k]));
        if k == |data| && cfg.onComplete {
          CompleteStep(cfg.mark, b);
        }
        EnqueueStep(cfg, EmitIf(k == |data| && cfg.onComplete, b, WriteComplete), data[k..]);
      } else {
        EnqueueStep(cfg, a, data);
      }
    }
  }

  /** Input traffic does not touch the output stream. */
  lemma {:induction false} InputStep(mark: nat, c: Conn, a: Action, input: seq<Byte>)
    requires Inv(mark, c)
    requires a.Received? || a.Consumed?
    requires a.Received? ==> input == c.input + a.bytes
    requires a.Consumed? ==> c.input == a.bytes + input
    ensures Inv(mark, Emit(c, a).(input := input))
    ensures AcceptedBytes(Emit(c, a).trace) == AcceptedBytes(c.trace)
  {
  }

  lemma {:induction false} ShutdownInLoopStep(mark: nat, c: Conn)
    requires Streams(c) && Interest(c) && JustifiedHistory(mark, c.trace)
    requires c.state == Disconnecting && !Did(c.trace, ShutWr)
    ensures Inv(mark, ShutdownInLoop(c))
    ensures AcceptedBytes(ShutdownInLoop(c).trace) == AcceptedBytes(c.trace)
  {
  }

  /** The socket takes the first `k` buffered bytes. */
  lemma {:induction false} DrainStep(mark: nat, c: Conn, k: nat)
    requires Inv(mark, c) && c.writing && 0 < k <= |c.output|
    ensures var d := Emit(c, Sent(c.output[..k])).(output := c.output[k..]);
      && Streams(d) && JustifiedHistory(mark, d.trace) && !Did(d.trace, ShutWr)
      && AcceptedBytes(d.trace) == AcceptedBytes(c.trace)
  {
  }

  lemma {:induction false} HandleWriteStep(cfg: Config, c: Conn, r: WriteResult)
    requires Inv(cfg.mark, c)
    ensures Inv(cfg.mark, HandleWrite(cfg, c, r))
    ensures AcceptedBytes(HandleWrite(cfg, c, r).trace) == AcceptedBytes(c.trace)
  {
    var k := Taken(r, |c.output|);
    if c.writing && k != 0 {
      DrainStep(cfg.mark, c, k);
      var d := Emit(c, Sent(c.output[..k])).(output := c.output[k..]);
      if d.output == [] {
        var e := EmitIf(cfg.onComplete, d, WriteComplete).(writing := false, registered := true);
        assert Streams(e) && JustifiedHistory(cfg.mark, e.trace);
        if e.state == Disconnecting {
          ShutdownInLoopStep(cfg.mark, e);
        }
      }
    }
  }

  lemma {:induction false} StepKeepsInv(cfg: Config, c: Conn, op: Op)
    requires Inv(cfg.mark, c) && Enabled(c, op)
    ensures Inv(cfg.mark, Step(cfg, c, op))
    ensures AcceptedBytes(Step(cfg, c, op).trace)
         == AcceptedBytes(c.trace) + if op.OpSend? && !Dropped(c, op) then op.data else []
  {
    match op
    case OpSend(data, w) => SendStep(cfg, c, data, w);
    case OpShutdown =>
      if c.state == Connected {
        ShutdownInLoopStep(cfg.mark, c.(state := Disconnecting));
      }
    case OpHandleWrite(w) => HandleWriteStep(cfg, c, w);
    case OpHandleRead(r) =>
      if r.ReadBytes? && r.bytes != [] {
        InputStep(cfg.mark, c, Received(r.bytes), c.input + r.bytes);
      }
    case OpConsume(n) =>
      var k := if n < |c.input| then n else |c.input|;
      assert c.input == c.input[..k] + c.input[k..];
      InputStep(cfg.mark, c, Consumed(c.input[..k]), c.input[k..]);
    case OpEstablish =>
    case OpHandleClose =>
    case OpDestroy =>
  }

  lemma {:induction false} RunKeepsInv(cfg: Config, c: Conn, ops: seq<Op>)
    requires Inv(cfg.mark, c) && Legal(cfg, c, ops)
    ensures Inv(cfg.mark, Run(cfg, c, ops))
    ensures AcceptedBytes(Run(cfg, c, ops).trace) == AcceptedBytes(c.trace) + UndroppedSends(cfg, c, ops)
    decreases |ops|
  {
    if ops != [] {
      StepKeepsInv(cfg, c, ops[0]);
      RunKeepsInv(cfg, Step(cfg, c, ops[0]), ops[1..]);
    }
  }

  lemma {:induction false} Concat(cfg: Config, c: Conn, a: seq<Op>, b: seq<Op>)
    requires Legal(cfg, c, a) && Legal(cfg, Run(cfg, c, a), b)
    ensures Legal(cfg, c, a + b) && Run(cfg, c, a + b) == Run(cfg, Run(cfg, c, a), b)
    decreases |a|
  {
    if a == [] {
      assert a + b == b;
    } else {
      assert (a + b)[1..] == a[1..] + b;
      Concat(cfg, Step(cfg, c, a[0]), a[1..], b);
    }
  }

  lemma {:induction false} InitInv(mark: nat)
    ensures Inv(mark, INIT)
  {
  }

  // ---------------------------------------------------------------------------
  // The promises
  // ---------------------------------------------------------------------------

  /**
  Stream conservation: what the socket took, followed by what is still buffered, is the in-order
  concatenation of all sends that were not dropped whole; and input bytes are conserved likewise.
  */
  lemma {:induction false} StreamConservation(cfg: Config, ops: seq<Op>)
    requires Legal(cfg, INIT, ops)
    ensures var c := Run(cfg, INIT, ops);
      && SentBytes(c.trace) + c.output == UndroppedSends(cfg, INIT, ops)
      && ConsumedBytes(c.trace) + c.input == ReceivedBytes(c.trace)
  {
    InitInv(cfg.mark);
    RunKeepsInv(cfg, INIT, ops);
  }

  /**
  Until close or destruction the channel asks for read events always, and for write events exactly while
  bytes are buffered.
  */
  lemma {:induction false} WriteInterestMatchesBacklog(cfg: Config, ops: seq<Op>)
    requires Legal(cfg, INIT, ops)
    ensures var c := Run(cfg, INIT, ops);
      && (Open(c.state) ==> c.reading && (c.writing <==> c.output != []))
      && (!Open(c.state) ==> !c.reading && !c.writing)
  {
    InitInv(cfg.mark);
    RunKeepsInv(cfg, INIT, ops);
  }

  /**
  The write half is closed at most once, after the last accepted byte, and nothing is accepted or
  sent later: `h` is the moment of closing, and `a` is anything done at a later moment `g`.
  */
  lemma {:induction false} HalfCloseOrder(cfg: Config, ops: seq<Op>, h: History)
    requires Legal(cfg, INIT, ops) && Within(Then(h, ShutWr), Run(cfg, INIT, ops).trace)
    ensures Flushed(h) && Flushed(Run(cfg, INIT, ops).trace)
    ensures forall g, a ::
      Within(Then(h, ShutWr), g) && Within(Then(g, a), Run(cfg, INIT, ops).trace) ==>
        !a.Accepted? && !a.Sent? && !a.ShutWr?
  {
    InitInv(cfg.mark);
    RunKeepsInv(cfg, INIT, ops);
    var c := Run(cfg, INIT, ops);
    JustifiedAt(cfg.mark, c.trace, Then(h, ShutWr));
    DidWithin(Then(h, ShutWr), c.trace, ShutWr);
    assert SentBytes(c.trace) + [] == SentBytes(c.trace);
    forall g, a | Within(Then(h, ShutWr), g) && Within(Then(g, a), c.trace)
      ensures !a.Accepted? && !a.Sent? && !a.ShutWr?
    {
      JustifiedAt(cfg.mark, c.trace, Then(g, a));
      DidWithin(Then(h, ShutWr), g, ShutWr);
    }
  }

  /** After `shutdown`, the write half is closed exactly when the backlog is gone, by the step that drains it. */
  lemma {:induction false} HalfCloseWhenDrained(cfg: Config, ops: seq<Op>)
    requires Legal(cfg, INIT, ops)
    ensures var c := Run(cfg, INIT, ops);
      && ((c.state == Connecting || c.state == Connected) ==> !Did(c.trace, ShutWr))
      && (c.state == Disconnecting ==> (Did(c.trace, ShutWr) <==> c.output == []))
  {
    InitInv(cfg.mark);
    RunKeepsInv(cfg, INIT, ops);
  }

  /** A write-complete notification is queued only when everything accepted so far has reached the socket. */
  lemma {:induction false} WriteCompleteExact(cfg: Config, ops: seq<Op>, h: History)
    requires Legal(cfg, INIT, ops) && Within(Then(h, WriteComplete), Run(cfg, INIT, ops).trace)
    ensures Flushed(h)
  {
    InitInv(cfg.mark);
    RunKeepsInv(cfg, INIT, ops);
    JustifiedAt(cfg.mark, Run(cfg, INIT, ops).trace, Then(h, WriteComplete));
  }

  /** A high-water notification carries the true backlog; between two of them the backlog was below the mark. */
  lemma {:induction false} HighWaterExact(cfg: Config, ops: seq<Op>, g: History, m: nat, h: History, n: nat)
    requires Legal(cfg, INIT, ops)
    requires Within(Then(g, HighWater(m)), h) && Within(Then(h, HighWater(n)), Run(cfg, INIT, ops).trace)
    ensures cfg.mark <= m == Backlog(g) && cfg.mark <= n == Backlog(h)
    ensures exists k :: Within(Then(g, HighWater(m)), k) && Within(k, h) && Backlog(k) < cfg.mark
  {
    InitInv(cfg.mark);
    RunKeepsInv(cfg, INIT, ops);
    JustifiedAt(cfg.mark, Run(cfg, INIT, ops).trace, Then(h, HighWater(n)));
    JustifiedAt(cfg.mark, h, Then(g, HighWater(m)));
    var k := RearmedPoint(cfg.mark, Then(g, HighWater(m)), h);
  }

  /** How often the history holds a high-water notification. */
  function HighWaters(h: History): nat {
    if h == Start then 0 else HighWaters(h.past) + if h.now.HighWater? then 1 else 0
  }

  function Completions(h: History): nat {
    if h == Start then 0 else Completions(h.past) + if h.now.WriteComplete? then 1 else 0
  }

  /** What an undropped send leaves in the output, and which notifications it queued. */
  lemma {:induction false} SendCounts(cfg: Config, c: Conn, data: seq<Byte>, r: WriteResult)
    requires Interest(c) && !Dropped(c, OpSend(data, r))
    ensures var d := Send(cfg, c, data, r); var k := if c.output == [] then Taken(r, |data|) else 0;
      && d.output == c.output + data[k..]
      && HighWaters(d.trace) == HighWaters(c.trace)
           + (if cfg.onHighWater && |c.output| < cfg.mark <= |d.output| then 1 else 0)
      && Completions(d.trace) == Completions(c.trace)
           + (if cfg.onComplete && c.output == [] && r.Wrote? && k == |data| then 1 else 0)
  {
    var a := Emit(c, Accepted(data));
    assert HighWaters(a.trace) == HighWaters(c.trace) && Completions(a.trace) == Completions(c.trace);
    if c.output == [] && r.Wrote? {
      var k := Taken(r, |data|);
      var b := Emit(a, Sent(data[..k]));
      assert HighWaters(b.trace) == HighWaters(c.trace) && Completions(b.trace) == Completions(c.trace);
    }
  }

  /** No crossing of the mark goes unreported: a step reports one exactly when the output grows past it. */
  lemma {:induction false} HighWaterIffCrossed(cfg: Config, c: Conn, op: Op)
    requires Inv(cfg.mark, c) && Enabled(c, op)
    ensures var d := Step(cfg, c, op);
      HighWaters(d.trace) == HighWaters(c.trace)
        + if cfg.onHighWater && |c.output| < cfg.mark <= |d.output| then 1 else 0
  {
    if op.OpSend? && !Dropped(c, op) {
      SendCounts(cfg, c, op.data, op.w);
    } else if op.OpHandleWrite? {
      HandleWriteCounts(cfg, c, op.w);
    }
  }

  lemma {:induction false} HandleWriteCounts(cfg: Config, c: Conn, r: WriteResult)
    requires Interest(c)
    ensures var d := HandleWrite(cfg, c, r);
      && |d.output| <= |c.output|
      && HighWaters(d.trace) == HighWaters(c.trace)
      && Completions(d.trace) == Completions(c.trace)
           + (if cfg.onComplete && c.writing && d.output == [] then 1 else 0)
  {
    var k := Taken(r, |c.output|);
    if c.writing && k != 0 {
      var d := Emit(c, Sent(c.output[..k])).(output := c.output[k..]);
      assert HighWaters(d.trace) == HighWaters(c.trace) && Completions(d.trace) == Completions(c.trace);
    }
  }

  /**
  No completed write goes unreported: a step reports one exactly when it leaves the output empty
  after the socket took the last byte of it (an empty send counts when its write succeeds).
  */
  lemma {:induction false} WriteCompleteIffDrained(cfg: Config, c: Conn, op: Op)
    requires Inv(cfg.mark, c) && Enabled(c, op)
    ensures var d := Step(cfg, c, op);
      Completions(d.trace) == Completions(c.trace)
        + if && cfg.onComplete
             && d.output == []
             && (|| (op.OpHandleWrite? && c.writing)
                 || (op.OpSend? && !Dropped(c, op) && op.w.Wrote?))
          then 1 else 0
  {
    if op.OpSend? && !Dropped(c, op) {
      SendCounts(cfg, c, op.data, op.w);
    } else if op.OpHandleWrite? {
      HandleWriteCounts(cfg, c, op.w);
    }
  }

  /**
  The socket's answers are honoured to the byte. A direct write or a drain that took `n` bytes has sent
  exactly the first `n`, and the rest is what stays buffered; a send that has to wait, or whose write is
  refused, is buffered whole; a broken peer or a connection that is not connected changes nothing; and
  no other operation touches the output.
  */
  lemma {:induction false} AnswersHonoured(cfg: Config, c: Conn, op: Op)
    requires Inv(cfg.mark, c) && Enabled(c, op)
    ensures var d := Step(cfg, c, op);
      && (op.OpSend? && c.state == Connected && c.output == [] && op.w.Wrote? && op.w.n <= |op.data| ==>
            SentBytes(d.trace) == SentBytes(c.trace) + op.data[..op.w.n] && d.output == op.data[op.w.n..])
      && (op.OpSend? && c.state == Connected && (c.output != [] || op.w.WouldBlock? || op.w.OtherError?) ==>
            SentBytes(d.trace) == SentBytes(c.trace) && d.output == c.output + op.data)
      && (op.OpSend? && (c.state != Connected || (c.output == [] && op.w.Broken?)) ==> d == c)
      && (op.OpHandleWrite? && c.writing && op.w.Wrote? && op.w.n <= |c.output| ==>
            SentBytes(d.trace) == SentBytes(c.trace) + c.output[..op.w.n] && d.output == c.output[op.w.n..])
      && (op.OpHandleWrite? && (!c.writing || !op.w.Wrote?) ==> d == c)
      && (!op.OpSend? && !op.OpHandleWrite? ==> SentBytes(d.trace) == SentBytes(c.trace) && d.output == c.output)
  {
    match op
    case OpSend(data, w) =>
      if c.state == Connected && (c.output != [] || !w.Broken?) {
        SendOutput(cfg, c, data, w);
      }
    case OpHandleWrite(w) => HandleWriteOutput(cfg, c, w);
    case _ =>
  }

  lemma {:induction false} SendOutput(cfg: Config, c: Conn, data: seq<Byte>, r: WriteResult)
    requires Interest(c) && c.state == Connected && (c.output != [] || !r.Broken?)
    ensures var d := Send(cfg, c, data, r); var k := if c.output == [] then Taken(r, |data|) else 0;
      && SentBytes(d.trace) == SentBytes(c.trace) + data[..k] && d.output == c.output + data[k..]
      && ReceivedBytes(d.trace) == ReceivedBytes(c.trace) && ConsumedBytes(d.trace) == ConsumedBytes(c.trace)
  {
    var a := Emit(c, Accepted(data));
    SameBytes(c, Accepted(data));
    if c.output == [] && r.Wrote? {
      var k := Taken(r, |data|);
      var b := Emit(a, Sent(data[..k]));
      assert SentBytes(b.trace) == SentBytes(c.trace) + data[..k];
      assert ReceivedBytes(b.trace) == ReceivedBytes(c.trace) && ConsumedBytes(b.trace) == ConsumedBytes(c.trace);
    }
  }

  lemma {:induction false} HandleWriteOutput(cfg: Config, c: Conn, r: WriteResult)
    requires Interest(c)
    ensures var d := HandleWrite(cfg, c, r); var k := if c.writing then Taken(r, |c.output|) else 0;
      && SentBytes(d.trace) == SentBytes(c.trace) + c.output[..k] && d.output == c.output[k..]
      && ReceivedBytes(d.trace) == ReceivedBytes(c.trace) && ConsumedBytes(d.trace) == ConsumedBytes(c.trace)
  {
    var k := Taken(r, |c.output|);
    if c.writing && k != 0 {
      var d := Emit(c, Sent(c.output[..k])).(output := c.output[k..]);
      assert SentBytes(d.trace) == SentBytes(c.trace) + c.output[..k];
      assert ReceivedBytes(d.trace) == ReceivedBytes(c.trace) && ConsumedBytes(d.trace) == ConsumedBytes(c.trace);
    }
  }

  /** An action that moves no bytes over the socket or out of the input buffer. */
  lemma SameBytes(c: Conn, a: Action)
    requires !a.Sent? && !a.Received? && !a.Consumed?
    ensures var d := Emit(c, a);
      && SentBytes(d.trace) == SentBytes(c.trace)
      && ReceivedBytes(d.trace) == ReceivedBytes(c.trace) && ConsumedBytes(d.trace) == ConsumedBytes(c.trace)
  {
  }

  /**
  The input side to the byte: what a read delivers is received and buffered, a callback gets as many
  buffered bytes as it asks for or all there are, and no other operation touches the input.
  */
  lemma {:induction false} InputHonoured(cfg: Config, c: Conn, op: Op)
    requires Inv(cfg.mark, c) && Enabled(c, op)
    ensures var d := Step(cfg, c, op);
      && (op.OpHandleRead? && op.r.ReadBytes? ==>
            && ReceivedBytes(d.trace) == ReceivedBytes(c.trace) + op.r.bytes && d.input == c.input + op.r.bytes
            && ConsumedBytes(d.trace) == ConsumedBytes(c.trace))
      && (op.OpConsume? ==>
            && (op.n <= |c.input| ==>
                  ConsumedBytes(d.trace) == ConsumedBytes(c.trace) + c.input[..op.n] && d.input == c.input[op.n..])
            && (op.n > |c.input| ==>
                  ConsumedBytes(d.trace) == ConsumedBytes(c.trace) + c.input && d.input == [])
            && ReceivedBytes(d.trace) == ReceivedBytes(c.trace))
      && (!(op.OpHandleRead? && op.r.ReadBytes?) && !op.OpConsume? ==>
            && ReceivedBytes(d.trace) == ReceivedBytes(c.trace) && ConsumedBytes(d.trace) == ConsumedBytes(c.trace)
            && d.input == c.input)
  {
    match op
    case OpSend(data, w) =>
      if c.state == Connected && (c.output != [] || !w.Broken?) {
        SendOutput(cfg, c, data, w);
      }
    case OpHandleWrite(w) => HandleWriteOutput(cfg, c, w);
    case OpConsume(n) => assert n > |c.input| ==> c.input[..|c.input|] == c.input;
    case OpHandleRead(r) => assert c.input + [] == c.input && ReceivedBytes(c.trace) + [] == ReceivedBytes(c.trace);
    case _ =>
  }

  /** A hang-up, or the end of the peer's stream. */
  predicate PeerGone(op: Op) {
    op.OpHandleClose? || op == OpHandleRead(ReadBytes([]))
  }

  /** The transition table of a connection, whatever else the operation does. */
  lemma {:induction false} StateChanges(cfg: Config, c: Conn, op: Op)
    ensures Step(cfg, c, op).state ==
      if op.OpEstablish? then Connected
      else if PeerGone(op) || (op.OpDestroy? && c.state == Connected) then Disconnected
      else if op.OpShutdown? && c.state == Connected then Disconnecting
      else c.state
    ensures op.OpDestroy? ==> !Step(cfg, c, op).registered
  {
  }

  /** The state of a connection only moves forward, and Disconnected is final. */
  lemma {:induction false} StateMovesForward(cfg: Config, c: Conn, op: Op)
    requires Enabled(c, op)
    ensures Rank(c.state) <= Rank(Step(cfg, c, op).state)
  {
    StateChanges(cfg, c, op);
  }

  function Rank(s: State): nat {
    match s
    case Connecting => 0
    case Connected => 1
    case Disconnecting => 2
    case Disconnected => 3
  }

  // ---------------------------------------------------------------------------
  // The largest backlog of a run
  // ---------------------------------------------------------------------------

  datatype Side = Input | Output

  /** How many bytes the connection holds for one direction. */
  function Held(side: Side, c: Conn): nat {
    if side.Input? then |c.input| else |c.output|
  }

  /** The most the connection holds at any moment between the operations of a run. */
  function Peak(side: Side, cfg: Config, c: Conn, ops: seq<Op>): nat
    decreases |ops|
  {
    if ops == [] then Held(side, c) else L.Max(Held(side, c), Peak(side, cfg, Step(cfg, c, ops[0]), ops[1..]))
  }

  lemma {:induction false} PeakOneMore(side: Side, cfg: Config, c: Conn, ops: seq<Op>, op: Op)
    ensures Peak(side, cfg, c, ops + [op])
         == L.Max(Peak(side, cfg, c, ops), Held(side, Step(cfg, Run(cfg, c, ops), op)))
    decreases |ops|
  {
    if ops == [] {
      assert (ops + [op])[1..] == [];
    } else {
      assert (ops + [op])[1..] == ops[1..] + [op];
      PeakOneMore(side, cfg, Step(cfg, c, ops[0]), ops[1..], op);
    }
  }
}
