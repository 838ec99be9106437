/**
The log stream: items are rendered straight into a bounded character buffer, and an item that does
not fit is left out whole. `LogRun` is the reference; the classes write in place and are proved to
leave exactly its text in the buffer.
*/
module LogStream {
  import opened DecimalText

  const KB_BUFFER_SIZE: nat := 1024
  const MAX_NUM_SIZE: nat := 48

  // ---------------------------------------------------------------------------
  // The reference
  // ---------------------------------------------------------------------------

  /** What can be streamed. Floating-point values arrive as the text the C library makes of them. */
  datatype Item =
    | Text(text: string)
    | NullText
    | Integer(n: int)
    | Floating(text: string)
  {
    /** Integers are of a 64-bit type or narrower; the C library's text is shorter than its bound. */
    predicate Ok() {
      && (Integer? ==> Fits64(n))
      && (Floating? ==> |text| < MAX_NUM_SIZE)
    }
  }

  function Render(item: Item): string {
    match item
    case Text(s) => s
    case NullText => "(null)"
    case Integer(n) => Decimal(n)
    case Floating(s) => s
  }

  /** Text needs one byte more than its length; numbers need their worst case. */
  predicate Fits(item: Item, free: int) {
    match item
    case Integer(_) => free >= MAX_NUM_SIZE
    case Floating(_) => free >= MAX_NUM_SIZE
    case _ => free > |Render(item)|
  }

  function Put(cap: nat, content: string, item: Item): string {
    if Fits(item, cap - |content|) then content + Render(item) else content
  }

  function LogRun(cap: nat, content: string, items: seq<Item>): string
    decreases |items|
  {
    if items == [] then content else LogRun(cap, Put(cap, content, items[0]), items[1..])
  }

  /** The items that found room, in order. */
  function Kept(cap: nat, content: string, items: seq<Item>): seq<Item>
    decreases |items|
  {
    if items == [] then []
    else (if Fits(items[0], cap - |content|) then [items[0]] else [])
         + Kept(cap, Put(cap, content, items[0]), items[1..])
  }

  function Concat(items: seq<Item>): string {
    if items == [] then "" else Render(items[0]) + Concat(items[1..])
  }

  predicate AllOk(items: seq<Item>) {
    forall i :: 0 <= i < |items| ==> items[i].Ok()
  }

  /** Whole items only: the buffer holds the complete renderings of the items that found room, in order. */
  lemma {:induction false} WholeItems(cap: nat, content: string, items: seq<Item>)
    ensures LogRun(cap, content, items) == content + Concat(Kept(cap, content, items))
    decreases |items|
  {
    if items == [] {
      assert content + "" == content;
    } else {
      var next := Put(cap, content, items[0]);
      var tail := Kept(cap, next, items[1..]);
      WholeItems(cap, next, items[1..]);
      if Fits(items[0], cap - |content|) {
        ConcatCons(items[0], tail);
        assert content + Render(items[0]) + Concat(tail) == content + (Render(items[0]) + Concat(tail));
      } else {
        assert [] + tail == tail;
      }
    }
  }

  lemma ConcatCons(item: Item, items: seq<Item>)
    ensures Concat([item] + items) == Render(item) + Concat(items)
  {
  }

  /** At least one byte stays free over every run. */
  lemma {:induction false} NeverFull(cap: nat, content: string, items: seq<Item>)
    requires |content| < cap && AllOk(items)
    ensures |LogRun(cap, content, items)| < cap
    decreases |items|
  {
    if items != [] {
      PutLeavesRoom(cap, content, items[0]);
      NeverFull(cap, Put(cap, content, items[0]), items[1..]);
    }
  }

  lemma PutLeavesRoom(cap: nat, content: string, item: Item)
    requires |content| < cap && item.Ok()
    ensures |Put(cap, content, item)| < cap
  {
    if item.Integer? {
      Length64(item.n);
    }
  }

  /** Nothing is left out of a message whose text leaves the room a number reserves. */
  lemma {:induction false} ShortMessageIsComplete(cap: nat, content: string, items: seq<Item>)
    requires AllOk(items) && |content| + |Concat(items)| + MAX_NUM_SIZE <= cap
    ensures Kept(cap, content, items) == items
    ensures LogRun(cap, content, items) == content + Concat(items)
    decreases |items|
  {
    if items == [] {
      assert content + "" == content;
    } else {
      var next := Put(cap, content, items[0]);
      assert next == content + Render(items[0]);
      ShortMessageIsComplete(cap, next, items[1..]);
      assert next + Concat(items[1..]) == content + Concat(items);
      assert [items[0]] + items[1..] == items;
    }
  }

  // ---------------------------------------------------------------------------
  // In place
  // ---------------------------------------------------------------------------

  method CopyChars(a: array<char>, at: nat, s: string)
    requires at + |s| <= a.Length
    modifies a
    ensures a[..at] == old(a[..at]) && a[at..at + |s|] == s
  {
    for i := 0 to |s|
      invariant a[..at] == old(a[..at])
      invariant forall k :: 0 <= k < i ==> a[at + k] == s[k]
    {
      a[at + i] := s[i];
    }
  }

  /** Reverses a[lo..hi] by swapping from both ends. */
  method ReverseRange(a: array<char>, lo: nat, hi: nat)
    requires lo <= hi <= a.Length
    modifies a
    ensures a[..lo] == old(a[..lo]) && a[lo..hi] == Reversed(old(a[lo..hi]))
  {
    var i, j := lo, hi;
    while j - i >= 2
      invariant lo <= i <= j <= hi && i - lo == hi - j
      invariant a[..lo] == old(a[..lo])
      invariant forall k :: lo <= k < hi ==>
        a[k] == if i <= k < j then old(a[k]) else old(a[lo + hi - 1 - k])
    {
      a[i], a[j - 1] := a[j - 1], a[i];
      i, j := i + 1, j - 1;
    }
    ghost var was := old(a[lo..hi]);
    forall k | 0 <= k < hi - lo
      ensures a[lo..hi][k] == Reversed(was)[k]
    {
      assert a[lo + k] == old(a[hi - 1 - k]);
    }
  }

  /** The do-while loop: the digits of `num`, least significant first, from `start` on. */
  method EmitDigits(a: array<char>, start: nat, table: string, num: int) returns (k: nat)
    requires |table| == 19 && start + |Emitted(table, num)| <= a.Length
    modifies a
    ensures a[..start] == old(a[..start])
    ensures k == |Emitted(table, num)| && a[start..start + k] == Emitted(table, num)
  {
    var rest := num;
    ghost var all := Emitted(table, num);
    k := 0;
    while true
      invariant 0 <= k < |all| && all[k..] == Emitted(table, rest)
      invariant forall i :: 0 <= i < start ==> a[i] == old(a[i])
      invariant forall i :: 0 <= i < k ==> a[start + i] == all[i]
      decreases Abs(rest)
    {
      EmittedStep(table, rest);
      assert all[k] == all[k..][0];
      a[start + k] := table[9 + TruncMod10(rest)];
      rest := TruncDiv10(rest);
      k := k + 1;
      if rest == 0 {
        break;
      }
      assert all[k..] == all[k - 1..][1..];
    }
  }

  /** Appends a minus sign to a[start..start+n] if asked to, and reverses the whole. */
  method SignAndReverse(a: array<char>, start: nat, n: nat, negative: bool) returns (k: nat)
    requires start + n + (if negative then 1 else 0) <= a.Length
    modifies a
    ensures a[..start] == old(a[..start]) && k == n + (if negative then 1 else 0)
    ensures a[start..start + k] == Reversed(old(a[start..start + n]) + if negative then "-" else "")
  {
    k := n;
    if negative {
      a[start + k] := '-';
      k := k + 1;
    }
    assert a[start..start + k] == old(a[start..start + n]) + if negative then "-" else "";
    ReverseRange(a, start, start + k);
  }

  /** Digits, sign, reversal: the canonical decimal text, in place. */
  method RenderInteger(a: array<char>, start: nat, num: int) returns (k: nat)
    requires start + |Decimal(num)| <= a.Length
    modifies a
    ensures a[..start] == old(a[..start])
    ensures k == |Decimal(num)| && a[start..start + k] == Decimal(num)
  {
    EmittedIsDecimal(num);
    var n := EmitDigits(a, start, MIRROR, num);
    k := SignAndReverse(a, start, n, num < 0);
  }

  lemma Joined(d: string, at: nat, k: nat)
    requires at + k <= |d|
    ensures d[..at + k] == d[..at] + d[at..at + k]
  {
  }

  class FixedBuffer {
    const data: array<char>
    var cur: nat

    ghost predicate Valid()
      reads this
    {
      cur <= data.Length
    }

    ghost function Contents(): string
      reads this, data
      requires Valid()
    {
      data[..cur]
    }

    constructor (size: nat)
      ensures Valid() && Contents() == "" && data.Length == size && fresh(data)
    {
      data := new char[size](_ => '\0');
      cur := 0;
    }

    method Size() returns (n: nat)
      requires Valid()
      ensures n == data.Length - |Contents()|
    {
      n := data.Length - cur;
    }

    method Append(s: string)
      requires Valid()
      modifies this, data
      ensures Valid()
      ensures Contents() == if data.Length - |old(Contents())| > |s| then old(Contents()) + s else old(Contents())
    {
      if data.Length - cur > |s| {
        CopyChars(data, cur, s);
        cur := cur + |s|;
      }
    }

    method Reset()
      requires Valid()
      modifies this
      ensures Valid() && Contents() == ""
    {
      cur := 0;
    }
  }

  class Stream {
    const buffer: FixedBuffer

    ghost predicate Valid()
      reads this, buffer
    {
      buffer.Valid() && buffer.data.Length == KB_BUFFER_SIZE && buffer.cur < KB_BUFFER_SIZE
    }

    ghost function Contents(): string
      reads this, buffer, buffer.data
      requires Valid()
    {
      buffer.Contents()
    }

    constructor ()
      ensures Valid() && Contents() == "" && fresh(buffer) && fresh(buffer.data)
    {
      buffer := new FixedBuffer(KB_BUFFER_SIZE);
    }

    method FormatInteger(num: int)
      requires Valid() && Fits64(num)
      modifies buffer, buffer.data
      ensures Valid()
      ensures Contents() == if |old(Contents())| + 48 <= 1024 then old(Contents()) + Decimal(num) else old(Contents())
    {
      if buffer.data.Length - buffer.cur >= MAX_NUM_SIZE {
        Length64(num);
        var k := RenderInteger(buffer.data, buffer.cur, num);
        Joined(buffer.data[..], buffer.cur, k);
        buffer.cur := buffer.cur + k;
      }
    }

    method FormatFloating(text: string)
      requires Valid() && |text| < MAX_NUM_SIZE
      modifies buffer, buffer.data
      ensures Valid()
      ensures Contents() == if |old(Contents())| + 48 <= 1024 then old(Contents()) + text else old(Contents())
    {
      if buffer.data.Length - buffer.cur >= MAX_NUM_SIZE {
        CopyChars(buffer.data, buffer.cur, text);
        Joined(buffer.data[..], buffer.cur, |text|);
        buffer.cur := buffer.cur + |text|;
      }
    }

    /** The shift operators. */
    method Shift(item: Item)
      requires Valid() && item.Ok()
      modifies buffer, buffer.data
      ensures Valid() && Contents() == Put(KB_BUFFER_SIZE, old(Contents()), item)
      ensures item.Text? ==>
        Contents() == old(Contents()) + if |old(Contents())| + |item.text| < 1024 then item.text else ""
      ensures item.NullText? ==>
        Contents() == old(Contents()) + if |old(Contents())| + 6 < 1024 then "(null)" else ""
      ensures item.Integer? ==>
        Contents() == old(Contents()) + if |old(Contents())| + 48 <= 1024 then Decimal(item.n) else ""
      ensures item.Floating? ==>
        Contents() == old(Contents()) + if |old(Contents())| + 48 <= 1024 then item.text else ""
    {
      match item
      case Text(s) => buffer.Append(s);
      case NullText => buffer.Append("(null)");
      case Integer(n) => FormatInteger(n);
      case Floating(s) => FormatFloating(s);
    }

    /** A whole message. */
    method StreamAll(items: seq<Item>)
      requires Valid() && AllOk(items)
      modifies buffer, buffer.data
      ensures Valid() && Contents() == LogRun(KB_BUFFER_SIZE, old(Contents()), items)
    {
      for i := 0 to |items|
        invariant Valid()
        invariant LogRun(KB_BUFFER_SIZE, Contents(), items[i..])
               == LogRun(KB_BUFFER_SIZE, old(Contents()), items)
      {
        Shift(items[i]);
        assert items[i..][1..] == items[i + 1..];
      }
    }
  }
}
