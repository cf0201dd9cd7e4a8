/**
  The factories of datafactory.h: a queue of capsule buffers, the file read position and the chunk
  size, with the methods that load the file into the queue and take buffers out of it. The queue
  is the sequence that module Queue proves the linked queue to be.
 */
module Factory {
  import opened Capsules
  import opened Wrappers

  /** A capsule buffer, with the number of bytes received or to be sent; it is filled once. */
  class MemBuff {
    const size: nat
    const capsule: Capsule

    constructor (c: Capsule)
      ensures capsule == c && size == HEADER_SPACE + |c.payload|
    {
      capsule, size := c, HEADER_SPACE + |c.payload|;
    }
  }

  /** The capsules in a sequence of buffers. */
  ghost function Values(buffers: seq<MemBuff>): (v: seq<Capsule>)
    ensures |v| == |buffers|
    ensures forall i :: 0 <= i < |buffers| ==> v[i] == buffers[i].capsule
  {
    seq(|buffers|, i requires 0 <= i < |buffers| => buffers[i].capsule)
  }

  class DataFactory {
    var buffer: seq<MemBuff>
    var fin: bool
    var curSize: nat
    var chunkSize: nat

    /** The capsules in the queue. */
    ghost function Queued(): seq<Capsule>
      reads this`buffer
    {
      Values(buffer)
    }

    constructor (chunkSize: nat)
      ensures buffer == [] && !fin && curSize == 0 && this.chunkSize == chunkSize
    {
      buffer, fin, curSize := [], false, 0;
      this.chunkSize := chunkSize;
    }

    /** Reads up to `room` bytes of the file at the read position. */
    method ReadStream(source: seq<U8>, room: nat) returns (bytes: seq<U8>)
      requires curSize <= |source|
      ensures bytes == source[curSize..if curSize + room <= |source| then curSize + room else |source|]
    {
      var end := curSize + room;
      if end > |source| {
        end := |source|;
      }
      bytes := source[curSize..end];
    }

    /**
      Loads the next read of the file into the queue. Past the end of the file it only sets FIN; a
      short read sets FIN too and shrinks the chunk size.
     */
    method InputFromSource(source: seq<U8>)
      requires chunkSize >= HEADER_SPACE
      modifies this
      ensures |source| <= old(curSize) ==>
        fin && curSize == old(curSize) && chunkSize == old(chunkSize) && buffer == old(buffer)
      ensures old(curSize) < |source| ==>
        var room := old(chunkSize) - HEADER_SPACE;
        var end := if old(curSize) + room <= |source| then old(curSize) + room else |source|;
        var n := end - old(curSize);
        && curSize == end && fin == (old(fin) || n < room)
        && chunkSize == (if n < room then n + HEADER_SPACE else old(chunkSize))
        && Queued() == old(Queued()) +
             [Capsule(Header(0, 0, 0, 0, n % 0x1_0000, CTRL, 0, 0, 0, 0), source[old(curSize)..end])]
    {
      hide Values;
      if |source| <= curSize {
        fin := true;
        return;
      }
      var room := chunkSize - HEADER_SPACE;
      var bytes := ReadStream(source, room);
      var c := Capsule(Header(0, 0, 0, 0, |bytes| % 0x1_0000, CTRL, 0, 0, 0, 0), bytes);
      if |bytes| < room {
        chunkSize := |bytes| + HEADER_SPACE;
        fin := true;
      }
      var holder := Fill(c);
      curSize := curSize + |bytes|;
    }

    /** Puts a capsule, made here or received, in a new buffer at the end of the queue, and hands out the pointer to it. */
    method Fill(c: Capsule) returns (chunk: MemBuff)
      modifies this`buffer
      ensures fresh(chunk) && buffer == old(buffer) + [chunk]
      ensures chunk.capsule == c && chunk.size == HEADER_SPACE + |c.payload|
      ensures Queued() == old(Queued()) + [c]
    {
      chunk := new MemBuff(c);
      buffer := buffer + [chunk];
    }

    /** Pops the front of the queue, if it has one. */
    method FetchChunk() returns (front: Option<MemBuff>)
      modifies this`buffer
      ensures old(buffer) == [] ==> front == None && buffer == [] && Queued() == old(Queued()) == []
      ensures old(buffer) != [] ==>
        && front == Some(old(buffer[0])) && buffer == old(buffer[1..])
        && front.value.capsule == old(Queued()[0]) && Queued() == old(Queued()[1..])
    {
      if buffer == [] {
        return None;
      }
      front := Some(buffer[0]);
      buffer := buffer[1..];
    }

    /** Fills a new buffer at the end and pops the front, as the states that send or expect one capsule do. */
    method FillAndPop(c: Capsule) returns (front: Capsule)
      modifies this`buffer
      ensures front == (old(Queued()) + [c])[0] && Queued() == (old(Queued()) + [c])[1..]
    {
      var chunk := Fill(c);
      var popped := FetchChunk();
      front := popped.value.capsule;
    }
  }
}
