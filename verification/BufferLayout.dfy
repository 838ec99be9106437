/**
The growable byte buffer of the network layer: a byte vector with a read index and a write index,
an eight-byte prependable area in front, compaction by an overlapping copy and growth by resizing.

`Layout` is the buffer as a value; the functions on it are proved to behave like a byte queue over
every run (RunRefinesQueue) and to keep the vector small (MemoryBound). The in-place buffer that produces
exactly these layouts is class `NetBuffer.Buffer`.
*/
module BufferLayout {

  newtype Byte = b: int | 0 <= b < 256

  const CHEAP_PREPEND: nat := 8
  const INITIAL_SIZE: nat := 1024
  const EXTRA_SIZE: nat := 65536

  function Max(a: nat, b: nat): nat {
    if a < b then b else a
  }

  /** `d` with the elements from `at` on overwritten by `s`. */
  function Splice(d: seq<Byte>, at: nat, s: seq<Byte>): (r: seq<Byte>)
    requires at + |s| <= |d|
    ensures |r| == |d|
    ensures forall k :: 0 <= k < |d| ==> r[k] == if at <= k < at + |s| then s[k - at] else d[k]
  {
    d[..at] + s + d[at + |s|..]
  }

  datatype Layout = Layout(data: seq<Byte>, reader: nat, writer: nat) {

    predicate Ok() {
      CHEAP_PREPEND <= reader <= writer <= |data|
    }

    function Contents(): seq<Byte>
      requires Ok()
    {
      data[reader..writer]
    }

    function Writable(): nat
      requires Ok()
    {
      |data| - writer
    }

    /** How much one scatter read may deliver: the writable tail, plus the overflow area when the tail is short. */
    function ReadCapacity(): (n: nat)
      requires Ok()
      ensures 65536 <= n <= Writable() + 65536 && (Writable() >= 65536 ==> n == Writable())
    {
      Writable() + if Writable() < EXTRA_SIZE then EXTRA_SIZE else 0
    }
  }

  function Fresh(initial: nat): (r: Layout)
    ensures r.Ok() && r.Contents() == [] && |r.data| == 8 + initial && r.Writable() == initial
  {
    Layout(seq(CHEAP_PREPEND + initial, _ => 0 as Byte), CHEAP_PREPEND, CHEAP_PREPEND)
  }

  /** Dropping a prefix; asking for at least everything empties the queue and rewinds both indices. */
  function Retrieve(l: Layout, len: nat): (r: Layout)
    requires l.Ok()
    ensures r.Ok() && r.data == l.data
    ensures r.Contents() == QueueDrop(l.Contents(), len)
    ensures len >= |l.Contents()| ==> r.Writable() == |r.data| - CHEAP_PREPEND
  {
    if len < l.writer - l.reader then l.(reader := l.reader + len)
    else l.(reader := CHEAP_PREPEND, writer := CHEAP_PREPEND)
  }

  /**
  Either branch keeps the readable bytes and frees at least `len` bytes behind them. The vector grows only
  if there would not be room for them without any gap, and then to exactly the room asked for.
  */
  function MakeSpace(l: Layout, len: nat): (r: Layout)
    requires l.Ok() && l.Writable() < len
    ensures r.Ok() && r.Contents() == l.Contents() && r.Writable() >= len
    ensures |r.data| <= Max(|l.data|, CHEAP_PREPEND + 2 * (|l.Contents()| + len))
    ensures if |l.data| - CHEAP_PREPEND - |l.Contents()| < len then r.Writable() == len else |r.data| == |l.data|
  {
    if l.Writable() + l.reader < len + CHEAP_PREPEND then
      l.(data := l.data + seq(l.writer + len - |l.data|, _ => 0 as Byte))
    else
      assert CHEAP_PREPEND < l.reader;
      var n := l.writer - l.reader;
      Layout(Splice(l.data, CHEAP_PREPEND, l.Contents()), CHEAP_PREPEND, CHEAP_PREPEND + n)
  }

  function EnsureWritable(l: Layout, len: nat): (r: Layout)
    requires l.Ok()
    ensures r.Ok() && r.Contents() == l.Contents() && r.Writable() >= len
    ensures |r.data| <= Max(|l.data|, CHEAP_PREPEND + 2 * (|l.Contents()| + len))
  {
    if l.Writable() < len then MakeSpace(l, len) else l
  }

  function Append(l: Layout, s: seq<Byte>): (r: Layout)
    requires l.Ok()
    ensures r.Ok() && r.Contents() == l.Contents() + s
    ensures |r.data| <= Max(|l.data|, CHEAP_PREPEND + 2 * |r.Contents()|)
  {
    var e := EnsureWritable(l, |s|);
    e.(data := Splice(e.data, e.writer, s), writer := e.writer + |s|)
  }

  /** A scatter read of `incoming`: first into the writable tail, the excess through the overflow area. */
  function ReadFd(l: Layout, incoming: seq<Byte>): (r: Layout)
    requires l.Ok() && |incoming| <= l.ReadCapacity()
    ensures r.Ok() && r.Contents() == l.Contents() + incoming
    ensures |r.data| <= Max(|l.data|, CHEAP_PREPEND + 2 * |r.Contents()|)
  {
    var w := l.Writable();
    if |incoming| <= w then
      l.(data := Splice(l.data, l.writer, incoming), writer := l.writer + |incoming|)
    else
      var full := l.(data := Splice(l.data, l.writer, incoming[..w]), writer := |l.data|);
      assert incoming == incoming[..w] + incoming[w..];
      assert full.Contents() == l.Contents() + incoming[..w];
      Append(full, incoming[w..])
  }

  // ---------------------------------------------------------------------------
  // Runs
  // ---------------------------------------------------------------------------

  datatype Op =
    | OpAppend(bytes: seq<Byte>)
    | OpRetrieve(len: nat)
    | OpReadFd(bytes: seq<Byte>)
    | OpEnsure(len: nat)

  predicate Enabled(l: Layout, op: Op)
    requires l.Ok()
  {
    op.OpReadFd? ==> |op.bytes| <= l.ReadCapacity()
  }

  function Step(l: Layout, op: Op): (r: Layout)
    requires l.Ok() && Enabled(l, op)
    ensures r.Ok()
  {
    match op
    case OpAppend(s) => Append(l, s)
    case OpRetrieve(n) => Retrieve(l, n)
    case OpReadFd(s) => ReadFd(l, s)
    case OpEnsure(n) => EnsureWritable(l, n)
  }

  /** The kernel never delivers more than the two segments of each scatter read can hold. */
  predicate Legal(l: Layout, ops: seq<Op>)
    requires l.Ok()
    decreases |ops|
  {
    ops == [] || (Enabled(l, ops[0]) && Legal(Step(l, ops[0]), ops[1..]))
  }

  function Run(l: Layout, ops: seq<Op>): (r: Layout)
    requires l.Ok() && Legal(l, ops)
    ensures r.Ok()
    decreases |ops|
  {
    if ops == [] then l else Run(Step(l, ops[0]), ops[1..])
  }

  // The reference: a plain byte queue.

  function QueueDrop(q: seq<Byte>, len: nat): seq<Byte> {
    if len < |q| then q[len..] else []
  }

  function QueueStep(q: seq<Byte>, op: Op): seq<Byte> {
    match op
    case OpAppend(s) => q + s
    case OpRetrieve(n) => QueueDrop(q, n)
    case OpReadFd(s) => q + s
    case OpEnsure(_) => q
  }

  function QueueRun(q: seq<Byte>, ops: seq<Op>): seq<Byte>
    decreases |ops|
  {
    if ops == [] then q else QueueRun(QueueStep(q, ops[0]), ops[1..])
  }

  /** The largest length the queue reaches in the run; a bare reservation counts as if it were filled. */
  function Peak(q: seq<Byte>, ops: seq<Op>): (p: nat)
    ensures p >= |q|
    decreases |ops|
  {
    if ops == [] then |q|
    else Max(Demand(q, ops[0]), Peak(QueueStep(q, ops[0]), ops[1..]))
  }

  function Demand(q: seq<Byte>, op: Op): nat {
    if op.OpEnsure? then |q| + op.len else |q|
  }

  lemma StepContentsAndSize(l: Layout, op: Op)
    requires l.Ok() && Enabled(l, op)
    ensures Step(l, op).Contents() == QueueStep(l.Contents(), op)
    ensures |Step(l, op).data|
         <= Max(|l.data|, CHEAP_PREPEND + 2 * Max(Demand(l.Contents(), op), |Step(l, op).Contents()|))
  {
  }

  /** Indices, compaction and growth are invisible: the buffer is a byte queue over every run. */
  lemma {:induction false} RunRefinesQueue(l: Layout, ops: seq<Op>)
    requires l.Ok() && Legal(l, ops)
    ensures Run(l, ops).Contents() == QueueRun(l.Contents(), ops)
    decreases |ops|
  {
    if ops != [] {
      StepContentsAndSize(l, ops[0]);
      RunRefinesQueue(Step(l, ops[0]), ops[1..]);
    }
  }

  /** Any bound that covers the present vector and the peak content covers every later vector. */
  lemma {:induction false} SizeBound(l: Layout, ops: seq<Op>, bound: nat)
    requires l.Ok() && Legal(l, ops)
    requires |l.data| <= bound && CHEAP_PREPEND + 2 * Peak(l.Contents(), ops) <= bound
    ensures |Run(l, ops).data| <= bound
    decreases |ops|
  {
    if ops != [] {
      StepContentsAndSize(l, ops[0]);
      var next := Step(l, ops[0]);
      assert |next.Contents()| <= Peak(next.Contents(), ops[1..]) <= Peak(l.Contents(), ops);
      SizeBound(next, ops[1..], bound);
    }
  }

  /** The vector never exceeds the prepend area plus the initial size or twice the peak content. */
  lemma {:induction false} MemoryBound(initial: nat, ops: seq<Op>)
    requires Legal(Fresh(initial), ops)
    ensures |Run(Fresh(initial), ops).data| <= CHEAP_PREPEND + Max(initial, 2 * Peak([], ops))
  {
    SizeBound(Fresh(initial), ops, CHEAP_PREPEND + Max(initial, 2 * Peak([], ops)));
  }

  /** Without bare reservations the peak is a length the queue really reaches. */
  lemma {:induction false} PeakIsReached(q: seq<Byte>, ops: seq<Op>) returns (k: nat)
    requires forall i :: 0 <= i < |ops| ==> !ops[i].OpEnsure?
    ensures k <= |ops| && |QueueRun(q, ops[..k])| == Peak(q, ops)
    decreases |ops|
  {
    if ops == [] || Peak(q, ops) == |q| {
      k := 0;
    } else {
      var j := PeakIsReached(QueueStep(q, ops[0]), ops[1..]);
      k := j + 1;
      assert ops[..k][1..] == ops[1..][..j];
    }
  }
}
