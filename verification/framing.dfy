/** The two ends of the framed stream: the trainer's socket, which delivers in chunks of its own
    choosing, and the client's data streams. */
module Framing {
  import opened FramingSpec

  /** A connected socket: bytes still to come, and bytes sent. */
  class SocketTransport {
    var incoming: seq<Byte>
    var outgoing: seq<Byte>

    constructor (bytes: seq<Byte>)
      ensures incoming == bytes && outgoing == []
    {
      incoming, outgoing := bytes, [];
    }

    /** Up to `limit` of the bytes to come, as many as the network likes; none once it is closed. */
    method Recv(limit: int) returns (chunk: seq<Byte>)
      requires 0 < limit
      modifies `incoming
      ensures old(incoming) == chunk + incoming && |chunk| <= limit
      ensures chunk == [] <==> old(incoming) == []
    {
      var size: int :| 0 <= size <= limit && size <= |incoming| && (size == 0 <==> incoming == []);
      chunk := incoming[..size];
      incoming := incoming[size..];
    }

    /** Exactly `size` bytes, or everything left when the peer has closed. */
    method ReadExact(size: int) returns (complete: bool, bytes: seq<Byte>)
      requires 0 <= size
      modifies `incoming
      ensures complete <==> size <= |old(incoming)|
      ensures complete ==> bytes == old(incoming)[..size] && incoming == old(incoming)[size..]
      ensures !complete ==> incoming == []
    {
      bytes := [];
      while |bytes| < size
        invariant |bytes| <= size && old(incoming) == bytes + incoming
        decreases size - |bytes|
      {
        var chunk := Recv(size - |bytes|);
        if chunk == [] {
          return false, bytes;
        }
        bytes := bytes + chunk;
      }
      return true, bytes;
    }

    method Receive() returns (read: Read)
      modifies `incoming
      ensures (read, incoming) == Next(old(incoming))
    {
      var complete, header := ReadExact(4);
      if !complete {
        return Ended;
      }
      var size := Unsigned(header);
      if size <= 0 || size > MAX_MESSAGE_BYTES {
        return BadLength;
      }
      var whole, payload := ReadExact(size);
      if !whole {
        return Ended;
      }
      assert payload == old(incoming)[4..4 + size] && incoming == old(incoming)[4 + size..];
      return Frame(payload);
    }

    method Send(payload: seq<Byte>) returns (sent: bool)
      modifies `outgoing
      ensures sent <==> Sendable(payload)
      ensures outgoing == if Sendable(payload) then old(outgoing) + FrameOf(payload) else old(outgoing)
    {
      if payload == [] || |payload| > MAX_MESSAGE_BYTES {
        return false;
      }
      outgoing := outgoing + (Header(|payload|) + payload);
      return true;
    }
  }

  /** The client's side: blocking data streams over the same bytes. */
  class FramedProtobuf {
    var input: seq<Byte>
    var output: seq<Byte>

    constructor (bytes: seq<Byte>)
      ensures input == bytes && output == []
    {
      input, output := bytes, [];
    }

    method ReadMessage() returns (read: Read)
      modifies `input
      ensures (read, input) == Next(old(input))
    {
      if |input| < 4 {
        input := [];
        return Ended;
      }
      var header := input[..4];
      input := input[4..];
      var size := Signed(header);
      ReadersAgree(header);
      if size <= 0 || size > MAX_MESSAGE_BYTES {
        return BadLength;
      }
      var length := if size <= |input| then size else |input|;
      var payload := input[..length];
      input := input[length..];
      if |payload| != size {
        return Ended;
      }
      assert payload == old(input)[4..4 + size] && input == old(input)[4 + size..];
      return Frame(payload);
    }

    method WriteMessage(payload: seq<Byte>) returns (written: bool)
      modifies `output
      ensures written <==> Sendable(payload)
      ensures output == if Sendable(payload) then old(output) + FrameOf(payload) else old(output)
    {
      if |payload| == 0 || |payload| > MAX_MESSAGE_BYTES {
        return false;
      }
      output := output + Header(|payload|);
      output := output + payload;
      return true;
    }
  }
}
