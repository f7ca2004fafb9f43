/** leven::Buffer: a byte array with a read index, a write index and a prependable header. */
module Buffers {
  import opened Common
  import opened IntCodec

  const CHEAP_PREPEND: nat := 8
  const INITIAL_SIZE: nat := 1024
  const EXTRA_SIZE: nat := 65536

  /** The layout of a buffer: everything but the bytes. */
  datatype Shape = Shape(size: nat, reader: nat, writer: nat) {
    predicate Valid() {
      reader <= writer <= size && CHEAP_PREPEND <= size
    }

    function Readable(): nat
      requires Valid()
    {
      writer - reader
    }

    function Writable(): nat
      requires Valid()
    {
      size - writer
    }
  }

  function FreshShape(initialSize: nat): (s: Shape)
    ensures s.Valid()
  {
    Shape(CHEAP_PREPEND + initialSize, CHEAP_PREPEND, CHEAP_PREPEND)
  }

  /** makeSpace, and only when the tail is too short: grow, or slide the contents left. */
  function EnsuredShape(s: Shape, len: nat): (t: Shape)
    requires s.Valid()
    ensures t.Valid() && t.Readable() == s.Readable() && t.Writable() >= len
  {
    if s.Writable() >= len then s
    else if s.Writable() + s.reader < len + CHEAP_PREPEND then s.(size := s.writer + len)
    else s.(reader := CHEAP_PREPEND, writer := CHEAP_PREPEND + s.Readable())
  }

  function AppendShape(s: Shape, len: nat): (t: Shape)
    requires s.Valid()
    ensures t.Valid() && t.Readable() == s.Readable() + len
  {
    var e := EnsuredShape(s, len);
    e.(writer := e.writer + len)
  }

  function RetrieveShape(s: Shape, len: nat): (t: Shape)
    requires s.Valid() && len <= s.Readable()
    ensures t.Valid() && t.Readable() == s.Readable() - len
  {
    if len < s.Readable() then s.(reader := s.reader + len)
    else s.(reader := CHEAP_PREPEND, writer := CHEAP_PREPEND)
  }

  function PrependShape(s: Shape, len: nat): (t: Shape)
    requires s.Valid() && len <= s.reader
    ensures t.Valid() && t.Readable() == s.Readable() + len
  {
    s.(reader := s.reader - len)
  }

  /** A read of n bytes: into the tail, and through the spill area when the tail is too short. */
  function ReadShape(s: Shape, n: nat): (t: Shape)
    requires s.Valid()
    ensures t.Valid() && t.Readable() == s.Readable() + n
  {
    if n <= s.Writable() then s.(writer := s.writer + n)
    else AppendShape(s.(writer := s.size), n - s.Writable())
  }

  datatype ShapeOp = Append(n: nat) | Retrieve(n: nat) | Prepend(n: nat) | Read(n: nat)

  /** One call; a call that its own assert rejects leaves the buffer as it is. */
  function ApplyShape(s: Shape, op: ShapeOp): (t: Shape)
    requires s.Valid()
    ensures t.Valid()
  {
    match op
    case Append(n) => AppendShape(s, n)
    case Retrieve(n) => if n <= s.Readable() then RetrieveShape(s, n) else s
    case Prepend(n) => if n <= s.reader then PrependShape(s, n) else s
    case Read(n) => ReadShape(s, n)
  }

  function RunShape(s: Shape, ops: seq<ShapeOp>): (t: Shape)
    requires s.Valid()
    ensures t.Valid()
    decreases |ops|
  {
    if ops == [] then s else RunShape(ApplyShape(s, ops[0]), ops[1..])
  }

  /** The largest number of readable bytes at any point of a run. */
  function Peak(s: Shape, ops: seq<ShapeOp>): (h: nat)
    requires s.Valid()
    ensures h >= s.Readable()
    decreases |ops|
  {
    if ops == [] then s.Readable() else Max(s.Readable(), Peak(ApplyShape(s, ops[0]), ops[1..]))
  }

  /** Growing never takes more than twice what is then readable, plus seven bytes. */
  lemma GrowthBound(s: Shape, op: ShapeOp)
    requires s.Valid()
    ensures s.size <= ApplyShape(s, op).size <= Max(s.size, 2 * ApplyShape(s, op).Readable() + CHEAP_PREPEND - 1)
  {
  }

  lemma {:induction false} MemoryBoundFrom(s: Shape, ops: seq<ShapeOp>, base: nat)
    requires s.Valid() && s.size <= Max(base, 2 * Peak(s, ops) + CHEAP_PREPEND - 1)
    ensures RunShape(s, ops).size <= Max(base, 2 * Peak(s, ops) + CHEAP_PREPEND - 1)
    decreases |ops|
  {
    if ops != [] {
      GrowthBound(s, ops[0]);
      var t := ApplyShape(s, ops[0]);
      var bigger := Max(base, 2 * Peak(s, ops) + CHEAP_PREPEND - 1);
      MemoryBoundFrom(t, ops[1..], bigger);
    }
  }

  /** Over any run on one buffer the array is no larger than its first size or twice the peak plus seven. */
  lemma MemoryBound(initialSize: nat, ops: seq<ShapeOp>)
    ensures var s := FreshShape(initialSize);
            RunShape(s, ops).size <= Max(CHEAP_PREPEND + initialSize, 2 * Peak(s, ops) + CHEAP_PREPEND - 1)
  {
    MemoryBoundFrom(FreshShape(initialSize), ops, CHEAP_PREPEND + initialSize);
  }

  /** The bound is reached. */
  lemma MemoryBoundIsTight()
    ensures var s := FreshShape(0);
            RunShape(s, [Append(1)]).size == 2 * Peak(s, [Append(1)]) + CHEAP_PREPEND - 1 > s.size
  {
    var s := FreshShape(0);
    assert RunShape(s, [Append(1)]) == RunShape(AppendShape(s, 1), []);
  }

  /** Until something is prepended, the header is intact, so a 64-bit length always fits in front. */
  lemma {:induction false} HeaderIntact(s: Shape, ops: seq<ShapeOp>)
    requires s.Valid() && s.reader >= CHEAP_PREPEND
    requires forall op :: op in ops ==> !op.Prepend?
    ensures RunShape(s, ops).reader >= W64.Bytes()
    decreases |ops|
  {
    if ops != [] {
      HeaderIntact(ApplyShape(s, ops[0]), ops[1..]);
    }
  }

  /** Over any run on one buffer, whenever it is empty all of its array but the header is free for the next bytes. */
  lemma EmptyIsFresh(initialSize: nat, ops: seq<ShapeOp>)
    ensures var t := RunShape(FreshShape(initialSize), ops);
            t.Readable() == 0 ==> t == FreshShape(t.size - CHEAP_PREPEND)
  {
    EmptyIsFreshFrom(FreshShape(initialSize), ops);
  }

  lemma {:induction false} EmptyIsFreshFrom(s: Shape, ops: seq<ShapeOp>)
    requires s.Valid() && (s.Readable() == 0 ==> s.reader == CHEAP_PREPEND)
    ensures var t := RunShape(s, ops); t.Readable() == 0 ==> t.reader == CHEAP_PREPEND
    decreases |ops|
  {
    if ops != [] {
      EmptyIsFreshFrom(ApplyShape(s, ops[0]), ops[1..]);
    }
  }

  /** What readv reported. */
  datatype ReadResult = Failed(errno: int) | Got(data: seq<byte>)

  class Buffer {
    var buffer: array<byte>
    var readerIndex: nat
    var writerIndex: nat

    ghost function Layout(): Shape
      reads this
    {
      Shape(buffer.Length, readerIndex, writerIndex)
    }

    ghost predicate Valid()
      reads this
    {
      Layout().Valid()
    }

    /** The readable bytes: all a client sees of the buffer. */
    ghost function Readable(): (s: seq<byte>)
      reads this, buffer
      requires Valid()
      ensures |s| == Layout().Readable()
    {
      buffer[readerIndex..writerIndex]
    }

    constructor (initialSize: nat := INITIAL_SIZE)
      ensures Valid() && fresh(buffer)
      ensures Readable() == [] && Layout() == FreshShape(initialSize)
    {
      buffer := new byte[CHEAP_PREPEND + initialSize](_ => 0);
      readerIndex := CHEAP_PREPEND;
      writerIndex := CHEAP_PREPEND;
    }

    method ReadableBytes() returns (n: nat)
      requires Valid()
      ensures n == |Readable()|
    {
      n := writerIndex - readerIndex;
    }

    method RetrieveAll()
      requires Valid()
      modifies this
      ensures Valid() && buffer == old(buffer)
      ensures Readable() == []
      ensures Layout() == RetrieveShape(old(Layout()), old(Layout()).Readable())
    {
      readerIndex := CHEAP_PREPEND;
      writerIndex := CHEAP_PREPEND;
    }

    method Retrieve(len: nat)
      requires Valid() && len <= |Readable()|
      modifies this
      ensures Valid() && buffer == old(buffer)
      ensures Readable() == old(Readable())[len..]
      ensures Layout() == RetrieveShape(old(Layout()), len)
    {
      if len < writerIndex - readerIndex {
        readerIndex := readerIndex + len;
      } else {
        RetrieveAll();
      }
    }

    method RetrieveAsString(len: nat) returns (result: seq<byte>)
      requires Valid() && len <= |Readable()|
      modifies this
      ensures Valid() && buffer == old(buffer)
      ensures result + Readable() == old(Readable()) && |result| == len
      ensures Layout() == RetrieveShape(old(Layout()), len)
    {
      result := buffer[readerIndex..readerIndex + len];
      Retrieve(len);
    }

    /** std::vector::resize to a larger size: the old bytes, then zeros. */
    method Resize(size: nat)
      requires size >= buffer.Length
      modifies this`buffer
      ensures fresh(buffer) && buffer.Length == size
      ensures buffer[..old(buffer.Length)] == old(buffer[..])
    {
      var grown := new byte[size](_ => 0);
      for i := 0 to buffer.Length
        modifies grown
        invariant grown[..i] == buffer[..i]
      {
        grown[i] := buffer[i];
      }
      buffer := grown;
    }

    /** std::copy of the readable bytes down to the header, over an overlapping range. */
    method SlideLeft()
      requires Valid() && CHEAP_PREPEND < readerIndex
      modifies this, buffer
      ensures Valid() && buffer == old(buffer)
      ensures Readable() == old(Readable())
      ensures readerIndex == CHEAP_PREPEND
    {
      var readable := writerIndex - readerIndex;
      for i := 0 to readable
        modifies buffer
        invariant buffer[CHEAP_PREPEND..CHEAP_PREPEND + i] == old(buffer[readerIndex..readerIndex + i])
        invariant forall k :: CHEAP_PREPEND + i <= k < buffer.Length ==> buffer[k] == old(buffer[k])
      {
        buffer[CHEAP_PREPEND + i] := buffer[readerIndex + i];
      }
      readerIndex := CHEAP_PREPEND;
      writerIndex := readerIndex + readable;
    }

    method MakeSpace(len: nat)
      requires Valid() && Layout().Writable() < len
      modifies this, buffer
      ensures Valid() && (buffer == old(buffer) || fresh(buffer))
      ensures Readable() == old(Readable())
      ensures Layout() == EnsuredShape(old(Layout()), len)
    {
      if buffer.Length - writerIndex + readerIndex < len + CHEAP_PREPEND {
        ghost var was := buffer[..];
        Resize(writerIndex + len);
        assert buffer[..|was|] == was;
        assert forall k :: readerIndex <= k < writerIndex ==> buffer[k] == was[k] by {
          assert forall k :: 0 <= k < |was| ==> buffer[k] == buffer[..|was|][k];
        }
      } else {
        assert CHEAP_PREPEND < readerIndex;
        SlideLeft();
      }
    }

    method EnsureWritableBytes(len: nat)
      requires Valid()
      modifies this, buffer
      ensures Valid() && (buffer == old(buffer) || fresh(buffer))
      ensures Readable() == old(Readable())
      ensures Layout() == EnsuredShape(old(Layout()), len)
    {
      if buffer.Length - writerIndex < len {
        MakeSpace(len);
      }
    }

    method Append(data: seq<byte>)
      requires Valid()
      modifies this, buffer
      ensures Valid() && (buffer == old(buffer) || fresh(buffer))
      ensures Readable() == old(Readable()) + data
      ensures Layout() == AppendShape(old(Layout()), |data|)
    {
      EnsureWritableBytes(|data|);
      FillTail(data);
    }

    /** data goes right behind the readable bytes, where it fits. */
    method FillTail(data: seq<byte>)
      requires Valid() && |data| <= Layout().Writable()
      modifies buffer, this`writerIndex
      ensures Valid() && Readable() == old(Readable()) + data
      ensures Layout() == old(Layout()).(writer := old(writerIndex) + |data|)
    {
      CopyIn(data, writerIndex);
      assert buffer[readerIndex..writerIndex] == buffer[..writerIndex][readerIndex..];
      assert old(Readable()) == old(buffer[..writerIndex])[readerIndex..];
      writerIndex := writerIndex + |data|;
      assert Readable() == buffer[readerIndex..writerIndex - |data|] + buffer[writerIndex - |data|..writerIndex];
    }

    /** std::copy of data into the array from position at on. */
    method CopyIn(data: seq<byte>, at: nat)
      requires at + |data| <= buffer.Length
      modifies buffer
      ensures buffer[at..at + |data|] == data
      ensures buffer[..at] == old(buffer[..at])
      ensures buffer[at + |data|..] == old(buffer[at + |data|..])
    {
      for i := 0 to |data|
        invariant buffer[at..at + i] == data[..i]
        invariant forall k :: 0 <= k < buffer.Length && !(at <= k < at + i) ==> buffer[k] == old(buffer[k])
      {
        buffer[at + i] := data[i];
      }
    }

    method Prepend(data: seq<byte>)
      requires Valid() && |data| <= readerIndex
      modifies this, buffer
      ensures Valid() && buffer == old(buffer)
      ensures Readable() == data + old(Readable())
      ensures Layout() == PrependShape(old(Layout()), |data|)
    {
      readerIndex := readerIndex - |data|;
      label copying:
      CopyIn(data, readerIndex);
      var split := readerIndex + |data|;
      assert buffer[split..writerIndex] == buffer[split..][..writerIndex - split];
      assert buffer[split..writerIndex] == old@copying(buffer[split..])[..writerIndex - split];
      assert Readable() == buffer[readerIndex..split] + buffer[split..writerIndex];
    }

    /** The most one readv can deliver: two segments only while the tail is shorter than the spill area. */
    ghost function ReadCapacity(): (n: nat)
      reads this
      requires Valid()
      ensures Layout().Writable() < EXTRA_SIZE ==> n < 2 * EXTRA_SIZE
    {
      var writable := buffer.Length - writerIndex;
      if writable < EXTRA_SIZE then writable + EXTRA_SIZE else writable
    }

    /** readv fills the tail of the array first and then the spill area, which is appended. */
    method ReadFd(result: ReadResult) returns (n: int)
      requires Valid()
      requires result.Got? ==> |result.data| <= ReadCapacity()
      modifies this, buffer
      ensures Valid() && (buffer == old(buffer) || fresh(buffer))
      ensures result.Failed? ==> n == -1 && Readable() == old(Readable()) && Layout() == old(Layout())
      ensures result.Got? ==> n == |result.data|
                              && Readable() == old(Readable()) + result.data
                              && Layout() == ReadShape(old(Layout()), n)
    {
      var writable := buffer.Length - writerIndex;
      match result {
        case Failed(_) =>
          n := -1;
        case Got(data) =>
          n := |data|;
          if n <= writable {
            FillTail(data);
          } else {
            ReadSplit(data);
          }
      }
    }

    /** What did not fit into the tail was read into the spill area. */
    method ReadSplit(data: seq<byte>)
      requires Valid() && |data| > Layout().Writable()
      modifies this, buffer
      ensures Valid() && (buffer == old(buffer) || fresh(buffer))
      ensures Readable() == old(Readable()) + data
      ensures Layout() == ReadShape(old(Layout()), |data|)
    {
      var writable := buffer.Length - writerIndex;
      FillTail(data[..writable]);
      Append(data[writable..]);
      assert data == data[..writable] + data[writable..];
    }

    method AppendInt(x: int, w: Width)
      requires Valid() && Fits(x, w)
      modifies this, buffer
      ensures Valid() && (buffer == old(buffer) || fresh(buffer))
      ensures Readable() == old(Readable()) + Encode(x, w)
      ensures Layout() == AppendShape(old(Layout()), w.Bytes())
    {
      Append(Encode(x, w));
    }

    method PrependInt(x: int, w: Width)
      requires Valid() && Fits(x, w) && w.Bytes() <= readerIndex
      modifies this, buffer
      ensures Valid() && buffer == old(buffer)
      ensures Readable() == Encode(x, w) + old(Readable())
      ensures Layout() == PrependShape(old(Layout()), w.Bytes())
    {
      Prepend(Encode(x, w));
    }

    method PeekInt(w: Width) returns (x: int)
      requires Valid() && |Readable()| >= w.Bytes()
      ensures Fits(x, w) && Encode(x, w) == Readable()[..w.Bytes()]
    {
      var s := buffer[readerIndex..readerIndex + w.Bytes()];
      x := Decode(s);
      EncodeDecode(s);
      assert s == Readable()[..w.Bytes()];
    }

    method ReadInt(w: Width) returns (x: int)
      requires Valid() && |Readable()| >= w.Bytes()
      modifies this
      ensures Valid() && buffer == old(buffer)
      ensures Fits(x, w) && Encode(x, w) + Readable() == old(Readable())
      ensures Layout() == RetrieveShape(old(Layout()), w.Bytes())
    {
      x := PeekInt(w);
      Retrieve(w.Bytes());
    }
  }
}
