/** The input and output buffer: a growing byte array with a read index and a write index,
    proved to be a byte queue. */
module Buffers {

  newtype byte = x: int | 0 <= x < 256

  const CHEAP_PREPEND := 8
  const INITIAL_SIZE := 1024
  const EXTRA_BUF_SIZE := 65536

  function Min(a: nat, b: nat): nat {
    if a < b then a else b
  }

  function Max(a: nat, b: nat): nat {
    if a < b then b else a
  }

  /** What `readv` or `write` may answer: an error, or how many bytes it moved. */
  datatype IoResult = Failed | Moved(n: nat)

  class Buffer {
    var buffer: array<byte>
    const extrabuf: array<byte>
    var readerIndex: nat
    var writerIndex: nat

    ghost const initialSize: nat
    ghost var peak: nat  // the largest readable length so far

    ghost predicate Valid()
      reads this
    {
      && extrabuf != buffer
      && extrabuf.Length == EXTRA_BUF_SIZE
      && CHEAP_PREPEND <= readerIndex <= writerIndex <= buffer.Length
      && writerIndex - readerIndex <= peak
      && CHEAP_PREPEND + initialSize <= buffer.Length <= Max(8 + initialSize, 2 * peak + 7)
    }

    ghost function Contents(): seq<byte>
      requires Valid()
      reads this, buffer
    {
      buffer[readerIndex..writerIndex]
    }

    /** What every operation may change and must restore. */
    twostate predicate Kept()
      reads this
    {
      && Valid()
      && (buffer == old(buffer) || fresh(buffer))
      && buffer.Length >= old(buffer.Length)
    }

    constructor (initialSize: nat)
      ensures Valid() && fresh(buffer) && fresh(extrabuf)
      ensures this.initialSize == initialSize && peak == 0 && Contents() == []
      ensures buffer.Length == 8 + initialSize && readerIndex == 8 && extrabuf.Length == 65536
    {
      this.initialSize := initialSize;
      buffer := new byte[CHEAP_PREPEND + initialSize];
      extrabuf := new byte[EXTRA_BUF_SIZE];
      readerIndex, writerIndex, peak := CHEAP_PREPEND, CHEAP_PREPEND, 0;
    }

    function ReadableBytes(): (n: nat)
      requires Valid()
      reads this, buffer
      ensures n == |Contents()|
    {
      writerIndex - readerIndex
    }

    function WritableBytes(): nat
      requires Valid()
      reads this
    {
      buffer.Length - writerIndex
    }

    method ResetIndices()
      requires Valid()
      modifies this`readerIndex, this`writerIndex
      ensures Valid() && Contents() == [] && readerIndex == 8 && writerIndex == 8
    {
      readerIndex := CHEAP_PREPEND;
      writerIndex := CHEAP_PREPEND;
    }

    /** Drops the oldest bytes, all of them when asked for more than there are. */
    method Retrieve(len: nat)
      requires Valid()
      modifies this`readerIndex, this`writerIndex
      ensures Valid() && Contents() == Perform(old(Contents()), Drop(len))
      ensures Contents() == if len < |old(Contents())| then old(Contents())[len..] else []
      ensures Contents() == [] ==> readerIndex == 8
    {
      var n := Min(len, ReadableBytes());
      readerIndex := readerIndex + n;
      if readerIndex == writerIndex {
        ResetIndices();
      }
    }

    method RetrieveAll()
      requires Valid()
      modifies this`readerIndex, this`writerIndex
      ensures Valid() && Contents() == Perform(old(Contents()), DropAll)
      ensures Contents() == [] && readerIndex == 8
    {
      ResetIndices();
    }

    method RetrieveAsString(len: nat) returns (result: seq<byte>)
      requires Valid()
      modifies this`readerIndex, this`writerIndex
      ensures Valid() && result == DroppedBy(old(Contents()), Drop(len)) && Contents() == Perform(old(Contents()), Drop(len))
      ensures old(Contents()) == result + Contents()
      ensures |result| == if len < |old(Contents())| then len else |old(Contents())|
    {
      var n := Min(len, ReadableBytes());
      ghost var content := Contents();
      result := buffer[readerIndex..readerIndex + n];
      assert result == content[..n] && content == content[..n] + content[n..];
      Retrieve(n);
    }

    method RetrieveAllAsString() returns (result: seq<byte>)
      requires Valid()
      modifies this`readerIndex, this`writerIndex
      ensures Valid() && result == old(Contents()) && Contents() == []
    {
      result := RetrieveAsString(ReadableBytes());
    }

    /** `buffer_.resize(size)`: the old bytes keep their places, the new ones are zero. */
    method Resize(size: nat)
      requires buffer.Length <= size
      modifies this`buffer
      ensures fresh(buffer) && buffer.Length == size && buffer[..old(buffer.Length)] == old(buffer[..])
    {
      var was := buffer;
      var grown := new byte[size](_ => 0);
      for i := 0 to was.Length
        invariant grown[..i] == was[..i] && was[..] == old(buffer[..])
      {
        grown[i] := was[i];
      }
      buffer := grown;
    }

    /** The overlapping copy of the readable bytes down to the front of the array. */
    method CopyDown()
      requires Valid()
      modifies this`readerIndex, this`writerIndex, buffer
      ensures Valid() && Contents() == old(Contents()) && readerIndex == 8
    {
      ghost var was := buffer[..];
      var readable := ReadableBytes();
      for i := 0 to readable
        modifies buffer
        invariant buffer[CHEAP_PREPEND..CHEAP_PREPEND + i] == was[readerIndex..readerIndex + i]
        invariant buffer[readerIndex + i..writerIndex] == was[readerIndex + i..writerIndex]
      {
        assert buffer[readerIndex + i] == buffer[readerIndex + i..writerIndex][0];
        buffer[CHEAP_PREPEND + i] := buffer[readerIndex + i];
      }
      readerIndex := CHEAP_PREPEND;
      writerIndex := readerIndex + readable;
    }

    /** Makes room for `len` more bytes. The array grows only when the contents and the new
        bytes would not fit even after moving everything to the front, and then the readable
        length that `len` leads to pays for the new size. */
    method MakeSpace(len: nat)
      requires Valid() && WritableBytes() < len
      modifies this`buffer, this`readerIndex, this`writerIndex, this`peak, buffer
      ensures Kept() && Contents() == old(Contents()) && len <= WritableBytes()
      ensures peak == Max(old(peak), |Contents()| + len)
      ensures buffer.Length > old(buffer.Length) <==> 8 + |old(Contents())| + len > old(buffer.Length)
      ensures buffer.Length == old(buffer.Length) ==> buffer == old(buffer)
    {
      peak := Max(peak, ReadableBytes() + len);
      if WritableBytes() + readerIndex < len + CHEAP_PREPEND {
        ghost var content := Contents();
        Resize(writerIndex + len);
        assert buffer[readerIndex..writerIndex] == buffer[..old(buffer.Length)][readerIndex..writerIndex] == content;
      } else {
        CopyDown();
      }
    }

    method EnsureWritableSpace(len: nat)
      requires Valid()
      modifies this`buffer, this`readerIndex, this`writerIndex, this`peak, buffer
      ensures Kept() && Contents() == old(Contents()) && len <= WritableBytes()
      ensures peak == Max(old(peak), |Contents()| + len) || (peak == old(peak) && len <= old(WritableBytes()))
      ensures buffer.Length > old(buffer.Length) <==> 8 + |old(Contents())| + len > old(buffer.Length)
    {
      if WritableBytes() < len {
        MakeSpace(len);
      }
    }

    /** Appends at the back. Storage grows exactly when everything readable and the new data
        exceed it, counted from the front. */
    method Append(data: seq<byte>)
      requires Valid()
      modifies this`buffer, this`readerIndex, this`writerIndex, this`peak, buffer
      ensures Kept() && Contents() == Perform(old(Contents()), Push(data)) && Contents() == old(Contents()) + data
      ensures peak == Max(old(peak), |Contents()|)
      ensures buffer.Length > old(buffer.Length) <==> 8 + |old(Contents())| + |data| > old(buffer.Length)
    {
      EnsureWritableSpace(|data|);
      CopyIn(data);
      Commit(|data|, data);
    }

    /** Bytes already standing at the write position become readable. */
    method Commit(n: nat, ghost data: seq<byte>)
      requires Valid() && n == |data| <= WritableBytes()
      requires buffer[writerIndex..writerIndex + n] == data
      modifies this`writerIndex, this`peak
      ensures Valid() && writerIndex == old(writerIndex) + n
      ensures Contents() == old(Contents()) + data && peak == Max(old(peak), |Contents()|)
    {
      assert buffer[readerIndex..writerIndex + n] == Contents() + data;
      peak := Max(peak, ReadableBytes() + n);
      writerIndex := writerIndex + n;
    }

    /** `std::copy_n` to the write position. */
    method CopyIn(data: seq<byte>)
      requires Valid() && |data| <= WritableBytes()
      modifies buffer
      ensures Valid() && Contents() == old(Contents())
      ensures buffer[writerIndex..writerIndex + |data|] == data
    {
      ghost var before := Contents();
      for i := 0 to |data|
        invariant Contents() == before
        invariant buffer[writerIndex..writerIndex + i] == data[..i]
      {
        buffer[writerIndex + i] := data[i];
      }
    }

    /** How many bytes the two segments offered to `readv` can take. */
    function ReadCapacity(): (n: nat)
      requires Valid()
      reads this
      ensures n >= 65536
    {
      WritableBytes() + if WritableBytes() < EXTRA_BUF_SIZE then EXTRA_BUF_SIZE else 0
    }

    /** A scatter read of `arrived`. The kernel fills the writable tail first and spills the
        rest into the extra buffer; nothing is lost or reordered. */
    method ReadFd(arrived: seq<byte>, failed: bool) returns (r: IoResult)
      requires Valid() && |arrived| <= ReadCapacity()
      modifies this`buffer, this`readerIndex, this`writerIndex, this`peak, buffer, extrabuf
      ensures Kept()
      ensures failed ==> r == Failed && Contents() == old(Contents()) && peak == old(peak)
      ensures !failed ==> Contents() == old(Contents()) + arrived
      ensures !failed ==> r == Moved(|arrived|) && Contents() == Perform(old(Contents()), Push(arrived)) && peak == Max(old(peak), |Contents()|)
    {
      if failed {
        return Failed;
      }
      var writable := WritableBytes();
      var direct := Min(|arrived|, writable);
      Scatter(arrived, direct);
      HandleReadResult(|arrived|, writable, arrived);
      return Moved(|arrived|);
    }

    /** The kernel's half of `readv`. */
    method Scatter(arrived: seq<byte>, direct: nat)
      requires Valid() && direct == Min(|arrived|, WritableBytes()) && |arrived| - direct <= EXTRA_BUF_SIZE
      modifies buffer, extrabuf
      ensures Valid() && Contents() == old(Contents())
      ensures buffer[writerIndex..writerIndex + direct] == arrived[..direct]
      ensures extrabuf[..|arrived| - direct] == arrived[direct..]
    {
      CopyIn(arrived[..direct]);
      Spill(arrived[direct..]);
    }

    method Spill(rest: seq<byte>)
      requires |rest| <= extrabuf.Length
      modifies extrabuf
      ensures extrabuf[..|rest|] == rest
    {
      for i := 0 to |rest|
        invariant extrabuf[..i] == rest[..i]
      {
        extrabuf[i] := rest[i];
      }
    }

    method HandleReadResult(n: nat, writable: nat, ghost arrived: seq<byte>)
      requires Valid() && writable == WritableBytes() && n == |arrived|
      requires buffer[writerIndex..writerIndex + Min(|arrived|, writable)] == arrived[..Min(|arrived|, writable)]
      requires |arrived| > writable ==> |arrived| - writable <= EXTRA_BUF_SIZE && extrabuf[..|arrived| - writable] == arrived[writable..]
      modifies this`buffer, this`readerIndex, this`writerIndex, this`peak, buffer
      ensures Kept() && Contents() == old(Contents()) + arrived && peak == Max(old(peak), |Contents()|)
    {
      if n <= writable {
        Commit(n, arrived);
      } else {
        Commit(writable, arrived[..writable]);
        Append(extrabuf[..n - writable]);
        assert arrived == arrived[..writable] + arrived[writable..];
      }
    }

    /** Hands the readable bytes to the kernel, which takes `n` of them. */
    method WriteFd(reply: IoResult) returns (r: IoResult)
      requires Valid() && (reply.Moved? ==> reply.n <= ReadableBytes())
      modifies this`readerIndex
      ensures Valid() && r == reply
      ensures Contents() == if reply.Moved? then old(Contents())[reply.n..] else old(Contents())
    {
      if reply.Moved? {
        readerIndex := readerIndex + reply.n;
      }
      r := reply;
    }
  }

  // ----- the queue that a buffer is ---------------------------------------------------------

  /** What the operations of a buffer do to its contents. */
  datatype QueueOp = Push(bytes: seq<byte>) | Drop(n: nat) | DropAll

  function DroppedBy(content: seq<byte>, op: QueueOp): seq<byte> {
    match op
    case Push(_) => []
    case Drop(n) => content[..Min(n, |content|)]
    case DropAll => content
  }

  function Perform(content: seq<byte>, op: QueueOp): seq<byte> {
    match op
    case Push(bytes) => content + bytes
    case Drop(n) => content[Min(n, |content|)..]
    case DropAll => []
  }

  function PerformAll(content: seq<byte>, ops: seq<QueueOp>): seq<byte>
    decreases |ops|
  {
    if ops == [] then content else PerformAll(Perform(content, ops[0]), ops[1..])
  }

  function Dropped(content: seq<byte>, ops: seq<QueueOp>): seq<byte>
    decreases |ops|
  {
    if ops == [] then [] else DroppedBy(content, ops[0]) + Dropped(Perform(content, ops[0]), ops[1..])
  }

  function Pushed(ops: seq<QueueOp>): seq<byte> {
    if ops == [] then [] else (if ops[0].Push? then ops[0].bytes else []) + Pushed(ops[1..])
  }

  /** First in, first out: over any interleaving, what was dropped and then what is left are
      what was there and then what was pushed, byte for byte. */
  lemma {:induction false} FirstInFirstOut(content: seq<byte>, ops: seq<QueueOp>)
    ensures Dropped(content, ops) + PerformAll(content, ops) == content + Pushed(ops)
    decreases |ops|
  {
    if ops != [] {
      var next := Perform(content, ops[0]);
      var pushed := if ops[0].Push? then ops[0].bytes else [];
      FirstInFirstOut(next, ops[1..]);
      OneOp(content, ops[0]);
      Interchange(DroppedBy(content, ops[0]), Dropped(next, ops[1..]), PerformAll(next, ops[1..]), content, next, pushed, Pushed(ops[1..]));
    }
  }

  lemma OneOp(content: seq<byte>, op: QueueOp)
    ensures DroppedBy(content, op) + Perform(content, op) == content + (if op.Push? then op.bytes else [])
  {
  }

  lemma Interchange<T>(out: seq<T>, later: seq<T>, left: seq<T>, content: seq<T>, next: seq<T>, pushed: seq<T>, rest: seq<T>)
    requires out + next == content + pushed && later + left == next + rest
    ensures (out + later) + left == content + (pushed + rest)
  {
    assert (out + later) + left == out + (later + left);
    assert out + (next + rest) == (out + next) + rest;
    assert (content + pushed) + rest == content + (pushed + rest);
  }
}
