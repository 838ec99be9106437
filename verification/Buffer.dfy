/**
The in-place buffer: every method of class `Buffer` is proved to leave exactly the layout that its
value-level function in `BufferLayout` computes, whatever compaction or growth happens on the way.
*/
module NetBuffer {
  import L = BufferLayout

  /** Forward element copy from a sequence into an array. */
  method CopyIn(a: array<L.Byte>, at: nat, s: seq<L.Byte>)
    requires at + |s| <= a.Length
    modifies a
    ensures a[..] == L.Splice(old(a[..]), at, s)
  {
    for i := 0 to |s|
      invariant forall k :: 0 <= k < a.Length ==>
        a[k] == if at <= k < at + i then s[k - at] else old(a[k])
    {
      a[at + i] := s[i];
    }
  }

  /**
  Forward copy of a[from..from+n] onto a[to..to+n]. The ranges may overlap; a forward copy is sound
  because the destination lies strictly to the left.
  */
  method CopyDown(a: array<L.Byte>, from: nat, n: nat, to: nat)
    requires to < from && from + n <= a.Length
    modifies a
    ensures a[..] == L.Splice(old(a[..]), to, old(a[from..from + n]))
  {
    for i := 0 to n
      invariant forall k :: 0 <= k < a.Length ==>
        a[k] == if to <= k < to + i then old(a[k - to + from]) else old(a[k])
    {
      a[to + i] := a[from + i];
    }
  }

  class Buffer {
    var buf: array<L.Byte>
    var reader: nat
    var writer: nat

    ghost predicate Valid()
      reads this, buf
    {
      Value().Ok()
    }

    ghost function Value(): L.Layout
      reads this, buf
    {
      L.Layout(buf[..], reader, writer)
    }

    ghost function Contents(): seq<L.Byte>
      reads this, buf
      requires Valid()
    {
      Value().Contents()
    }

    constructor (initial: nat)
      ensures Valid() && fresh(buf) && Value() == L.Fresh(initial)
    {
      buf := new L.Byte[L.CHEAP_PREPEND + initial](_ => 0 as L.Byte);
      reader, writer := L.CHEAP_PREPEND, L.CHEAP_PREPEND;
      new;
      assert buf[..] == L.Fresh(initial).data;
    }

    method ReadableBytes() returns (n: nat)
      requires Valid()
      ensures n == |Contents()|
    {
      n := writer - reader;
    }

    method Retrieve(len: nat)
      requires Valid()
      modifies this`reader, this`writer
      ensures Valid() && Value() == L.Retrieve(old(Value()), len)
    {
      if len < writer - reader {
        reader := reader + len;
      } else {
        reader, writer := L.CHEAP_PREPEND, L.CHEAP_PREPEND;
      }
    }

    /** Reading past the readable bytes yields whatever the vector holds there, as in the source. */
    method RetrieveAsString(len: nat) returns (s: seq<L.Byte>)
      requires Valid() && reader + len <= buf.Length
      modifies this`reader, this`writer
      ensures Valid() && Value() == L.Retrieve(old(Value()), len)
      ensures s == old(buf[reader..reader + len])
      ensures len <= |old(Contents())| ==> s + Contents() == old(Contents())
    {
      ghost var was := Contents();
      s := buf[reader..reader + len];
      assert len <= |was| ==> s == was[..len];
      Retrieve(len);
      assert Contents() == L.QueueDrop(was, len);
    }

    method MakeSpace(len: nat)
      requires Valid() && Value().Writable() < len
      modifies this, buf
      ensures Valid() && (buf == old(buf) || fresh(buf))
      ensures Value() == L.MakeSpace(old(Value()), len)
    {
      if buf.Length - writer + reader < len + L.CHEAP_PREPEND {
        var was := buf[..];
        buf := new L.Byte[writer + len](i requires 0 <= i => if i < |was| then was[i] else 0);
        assert buf[..] == L.MakeSpace(old(Value()), len).data;
      } else {
        var readable := writer - reader;
        CopyDown(buf, reader, readable, L.CHEAP_PREPEND);
        reader := L.CHEAP_PREPEND;
        writer := reader + readable;
      }
    }

    method EnsureWritableBytes(len: nat)
      requires Valid()
      modifies this, buf
      ensures Valid() && (buf == old(buf) || fresh(buf))
      ensures Value() == L.EnsureWritable(old(Value()), len)
    {
      if buf.Length - writer < len {
        MakeSpace(len);
      }
    }

    method Append(s: seq<L.Byte>)
      requires Valid()
      modifies this, buf
      ensures Valid() && (buf == old(buf) || fresh(buf))
      ensures Value() == L.Append(old(Value()), s)
    {
      EnsureWritableBytes(|s|);
      CopyIn(buf, writer, s);
      writer := writer + |s|;
    }

    /** `incoming` is what the scatter read delivered; its length is the call's positive or zero result. */
    method ReadFd(incoming: seq<L.Byte>)
      requires Valid() && |incoming| <= Value().ReadCapacity()
      modifies this, buf
      ensures Valid() && (buf == old(buf) || fresh(buf))
      ensures Value() == L.ReadFd(old(Value()), incoming)
    {
      var writable := buf.Length - writer;
      if |incoming| <= writable {
        CopyIn(buf, writer, incoming);
        writer := writer + |incoming|;
      } else {
        CopyIn(buf, writer, incoming[..writable]);
        writer := buf.Length;
        Append(incoming[writable..]);
      }
    }
  }
}
