/** The part of java.nio.ByteBuffer that both services use on their one
    shared, fixed-capacity buffer: clear, put, flip, get, and the fill that
    DatagramChannel.receive performs. */
module ByteBuffers {
  import opened Wire

  class ByteBuffer {
    const data: array<byte>
    var position: nat
    var limit: nat

    ghost predicate Valid()
      reads this
    {
      position <= limit <= data.Length
    }

    /** ByteBuffer.allocate(capacity) */
    constructor Allocate(capacity: nat)
      ensures Valid() && fresh(data)
      ensures data.Length == capacity && position == 0 && limit == capacity
      ensures forall k :: 0 <= k < capacity ==> data[k] == 0
    {
      data := new byte[capacity](_ => 0);
      position, limit := 0, capacity;
    }

    /** buffer.clear(): the whole capacity becomes writable again. */
    method Clear()
      requires Valid()
      modifies this
      ensures Valid()
      ensures position == 0 && limit == data.Length
    {
      position, limit := 0, data.Length;
    }

    /** buffer.flip(): what was written becomes what is read. */
    method Flip()
      requires Valid()
      modifies this
      ensures Valid()
      ensures position == 0 && limit == old(position)
    {
      limit, position := position, 0;
    }

    /** Copies src to data[position..] and advances position past it. */
    method CopyIn(src: seq<byte>)
      requires Valid() && |src| <= limit - position
      modifies this, data
      ensures Valid() && limit == old(limit)
      ensures position == old(position) + |src|
      ensures data[..old(position)] == old(data[..position])
      ensures data[old(position)..position] == src
      ensures data[position..] == old(data[..])[position..]
    {
      var i := 0;
      while i < |src|
        invariant 0 <= i <= |src|
        invariant position == old(position) && limit == old(limit)
        invariant forall k :: 0 <= k < position ==> data[k] == old(data[k])
        invariant forall k :: 0 <= k < i ==> data[position + k] == src[k]
        invariant forall k :: position + i <= k < data.Length ==> data[k] == old(data[k])
      {
        data[position + i] := src[i];
        i := i + 1;
      }
      position := position + |src|;
      assert data[old(position)..position] == src;
    }

    /** buffer.put(src): BufferOverflowException, with nothing written,
        when src does not fit between position and limit. */
    method Put(src: seq<byte>) returns (overflow: bool)
      requires Valid()
      modifies this, data
      ensures Valid() && limit == old(limit)
      ensures overflow <==> |src| > old(limit - position)
      ensures overflow ==> position == old(position) && data[..] == old(data[..])
      ensures !overflow ==> position == old(position) + |src| && data[old(position)..position] == src
      ensures !overflow ==> data[..old(position)] == old(data[..position])
                            && data[position..] == old(data[..])[position..]
    {
      overflow := |src| > limit - position;
      if !overflow {
        CopyIn(src);
      }
    }

    /** The fill performed by DatagramChannel.receive(buffer): as much of
        the datagram as fits is stored, the rest is silently discarded. */
    method Receive(datagram: seq<byte>)
      requires Valid()
      modifies this, data
      ensures Valid() && limit == old(limit)
      ensures |datagram| <= old(limit - position) ==> position == old(position) + |datagram|
      ensures |datagram| > old(limit - position) ==> position == old(limit)
      ensures data[old(position)..position] == datagram[..position - old(position)]
      ensures data[..old(position)] == old(data[..position])
      ensures data[position..] == old(data[..])[position..]
    {
      if |datagram| <= limit - position {
        CopyIn(datagram);
      } else {
        CopyIn(datagram[..limit - position]);
      }
    }

    /** buffer.get(dst) with a fresh dst of n bytes; also what
        channel.send(buffer, target) consumes when n is the remaining count. */
    method Get(n: nat) returns (dst: seq<byte>)
      requires Valid() && n <= limit - position
      modifies this
      ensures Valid() && limit == old(limit)
      ensures position == old(position) + n
      ensures dst == data[old(position)..position]
    {
      dst := data[position..position + n];
      position := position + n;
    }
  }
}
