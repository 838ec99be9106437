/**
One TCP connection as a sequential machine: its state, its channel's interest bits, its input and
output queues, and a trace of everything it did to the socket or told its callbacks. Every function
here is a handler of the connection run to completion on its loop thread; the socket's answers are
parameters, so a run is any sequence of operations with any answers.
*/
module ConnStream {
  import BufferLayout

  type Byte = BufferLayout.Byte

  datatype State = Connecting | Connected | Disconnecting | Disconnected

  /** The socket's answer to a write: a count, a full send queue, a broken peer, or any other error. */
  datatype WriteResult = Wrote(n: nat) | WouldBlock | Broken | OtherError

  /** The socket's answer to a read; no bytes at all is the end of the peer's stream. */
  datatype ReadResult = ReadBytes(bytes: seq<Byte>) | ReadError

  /** What the connection does that somebody outside it can observe, in order. */
  datatype Action =
    | Accepted(bytes: seq<Byte>)   // a send the connection took responsibility for
    | Sent(bytes: seq<Byte>)       // bytes the socket took
    | ShutWr                       // the write half was closed
    | WriteComplete                // the write-complete callback was queued
    | HighWater(backlog: nat)      // the high-water callback was queued with this backlog
    | Received(bytes: seq<Byte>)   // bytes read from the socket
    | Consumed(bytes: seq<Byte>)   // bytes a message callback took out of the input buffer

  /** A history of actions, the latest one outermost. */
  datatype History = Start | Then(past: History, now: Action)

  datatype Config = Config(mark: nat, onComplete: bool, onHighWater: bool)

  datatype Conn = Conn(
    state: State,
    registered: bool,
    reading: bool,
    writing: bool,
    input: seq<Byte>,
    output: seq<Byte>,
    trace: History)

  const INIT: Conn := Conn(Connecting, false, false, false, [], [], Start)

  function Emit(c: Conn, a: Action): Conn {
    c.(trace := Then(c.trace, a))
  }

  function EmitIf(on: bool, c: Conn, a: Action): Conn {
    if on then Emit(c, a) else c
  }

  /** How many of `len` offered bytes a write result stands for; the socket never takes more than offered. */
  function Taken(r: WriteResult, len: nat): (k: nat)
    ensures k <= len
  {
    if r.Wrote? && r.n <= len then r.n else if r.Wrote? then len else 0
  }

  // ---------------------------------------------------------------------------
  // The handlers
  // ---------------------------------------------------------------------------

  function Establish(c: Conn): Conn {
    c.(state := Connected, registered := true, reading := true)
  }

  function Send(cfg: Config, c: Conn, data: seq<Byte>, r: WriteResult): Conn {
    if c.state == Connected then SendInLoop(cfg, c, data, r) else c
  }

  function SendInLoop(cfg: Config, c: Conn, data: seq<Byte>, r: WriteResult): Conn {
    if c.state == Disconnected then c
    else if c.writing || c.output != [] then Enqueue(cfg, Emit(c, Accepted(data)), data)
    else DirectWrite(cfg, c, data, r)
  }

  /** An idle connection offers the data to the socket at once; only a broken peer makes it drop them. */
  function DirectWrite(cfg: Config, c: Conn, data: seq<Byte>, r: WriteResult): Conn {
    if r.Broken? then c
    else if r.Wrote? then
      var k := Taken(r, |data|);
      var d := Emit(Emit(c, Accepted(data)), Sent(data[..k]));
      Enqueue(cfg, EmitIf(k == |data| && cfg.onComplete, d, WriteComplete), data[k..])
    else Enqueue(cfg, Emit(c, Accepted(data)), data)
  }

  /** Keep what the socket did not take, and ask for write events. */
  function Enqueue(cfg: Config, c: Conn, rest: seq<Byte>): Conn {
    if rest == [] then c
    else
      var total := |c.output| + |rest|;
      var crossed := total >= cfg.mark && |c.output| < cfg.mark && cfg.onHighWater;
      EmitIf(crossed, c, HighWater(total)).(
        output := c.output + rest, registered := c.registered || !c.writing, writing := true)
  }

  function Shutdown(c: Conn): Conn {
    if c.state == Connected then ShutdownInLoop(c.(state := Disconnecting)) else c
  }

  function ShutdownInLoop(c: Conn): Conn {
    if c.writing then c else Emit(c, ShutWr)
  }

  function HandleWrite(cfg: Config, c: Conn, r: WriteResult): Conn {
    var k := Taken(r, |c.output|);
    if !c.writing || k == 0 then c
    else
      var d := Emit(c, Sent(c.output[..k])).(output := c.output[k..]);
      if d.output != [] then d else FinishWriting(cfg, d)
  }

  /** The last buffered byte is gone: stop asking for write events, notify, and close a shut-down half. */
  function FinishWriting(cfg: Config, c: Conn): Conn {
    var d := EmitIf(cfg.onComplete, c, WriteComplete).(writing := false, registered := true);
    if d.state == Disconnecting then ShutdownInLoop(d) else d
  }

  function HandleRead(c: Conn, r: ReadResult): Conn {
    match r
    case ReadBytes(s) =>
      if s == [] then HandleClose(c) else Emit(c, Received(s)).(input := c.input + s)
    case ReadError => c
  }

  /** The message callback taking bytes out of the input buffer it was handed. */
  function Consume(c: Conn, n: nat): Conn {
    var k := if n < |c.input| then n else |c.input|;
    Emit(c, Consumed(c.input[..k])).(input := c.input[k..])
  }

  function HandleClose(c: Conn): Conn {
    c.(state := Disconnected, registered := true, reading := false, writing := false)
  }

  function Destroy(c: Conn): Conn {
    if c.state == Connected then c.(state := Disconnected, registered := false, reading := false, writing := false)
    else c.(registered := false)
  }

  datatype Op =
    | OpEstablish
    | OpSend(data: seq<Byte>, w: WriteResult)
    | OpShutdown
    | OpHandleWrite(w: WriteResult)
    | OpHandleRead(r: ReadResult)
    | OpConsume(n: nat)
    | OpHandleClose
    | OpDestroy

  /**
  Who calls what when: the connection is established once, at the start; the event handlers run only
  for a registered channel; destruction comes after establishment. Module Lifecycle proves that the
  server and the loops keep to this.
  */
  predicate Enabled(c: Conn, op: Op) {
    match op
    case OpEstablish => c.state == Connecting
    case OpHandleWrite(_) => c.registered
    case OpHandleRead(_) => c.registered
    case OpHandleClose => c.registered
    case OpDestroy => c.state != Connecting
    case _ => true
  }

  function Step(cfg: Config, c: Conn, op: Op): Conn {
    match op
    case OpEstablish => Establish(c)
    case OpSend(data, w) => Send(cfg, c, data, w)
    case OpShutdown => Shutdown(c)
    case OpHandleWrite(w) => HandleWrite(cfg, c, w)
    case OpHandleRead(r) => HandleRead(c, r)
    case OpConsume(n) => Consume(c, n)
    case OpHandleClose => HandleClose(c)
    case OpDestroy => Destroy(c)
  }

  predicate Legal(cfg: Config, c: Conn, ops: seq<Op>)
    decreases |ops|
  {
    ops == [] || (Enabled(c, ops[0]) && Legal(cfg, Step(cfg, c, ops[0]), ops[1..]))
  }

  function Run(cfg: Config, c: Conn, ops: seq<Op>): Conn
    decreases |ops|
  {
    if ops == [] then c else Run(cfg, Step(cfg, c, ops[0]), ops[1..])
  }

  // ---------------------------------------------------------------------------
  // Reading a history
  // ---------------------------------------------------------------------------

  function AcceptedBytes(h: History): seq<Byte> {
    if h == Start then []
    else if h.now.Accepted? then AcceptedBytes(h.past) + h.now.bytes
    else AcceptedBytes(h.past)
  }

  function SentBytes(h: History): seq<Byte> {
    if h == Start then []
    else if h.now.Sent? then SentBytes(h.past) + h.now.bytes
    else SentBytes(h.past)
  }

  function ReceivedBytes(h: History): seq<Byte> {
    if h == Start then []
    else if h.now.Received? then ReceivedBytes(h.past) + h.now.bytes
    else ReceivedBytes(h.past)
  }

  function ConsumedBytes(h: History): seq<Byte> {
    if h == Start then []
    else if h.now.Consumed? then ConsumedBytes(h.past) + h.now.bytes
    else ConsumedBytes(h.past)
  }

  /** Has the action been done in the history? */
  predicate Did(h: History, a: Action) {
    h.Then? && (h.now == a || Did(h.past, a))
  }

  /** `g` is an earlier point of the history `h`, or `h` itself. */
  predicate Within(g: History, h: History) {
    g == h || (h.Then? && Within(g, h.past))
  }

  /** Bytes taken over from callers that the socket has not taken yet. */
  function Backlog(h: History): int {
    |AcceptedBytes(h)| - |SentBytes(h)|
  }

  /** Everything accepted so far has reached the socket. */
  predicate Flushed(h: History) {
    SentBytes(h) == AcceptedBytes(h)
  }

  /** A send the connection drops whole: it is not connected, or an idle connection finds its peer gone. */
  predicate Dropped(c: Conn, op: Op)
    requires op.OpSend?
  {
    c.state != Connected || (!c.writing && c.output == [] && op.w.Broken?)
  }

  /** The concatenation, in order, of all sends of a run that are not dropped whole. */
  function UndroppedSends(cfg: Config, c: Conn, ops: seq<Op>): seq<Byte>
    decreases |ops|
  {
    if ops == [] then []
    else
      (if ops[0].OpSend? && !Dropped(c, ops[0]) then ops[0].data else [])
      + UndroppedSends(cfg, Step(cfg, c, ops[0]), ops[1..])
  }
}
