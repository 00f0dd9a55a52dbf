/** Length-prefixed frames: a four-byte big-endian length and that many bytes. */
module FramingSpec {
  type Byte = b: int | 0 <= b < 256

  const MAX_MESSAGE_BYTES: int := 1024 * 1024

  datatype Read = Frame(payload: seq<Byte>) | BadLength | Ended

  predicate Sendable(payload: seq<Byte>) {
    0 < |payload| <= MAX_MESSAGE_BYTES
  }

  /** The big-endian bytes of a length below 2^32. */
  function Header(size: int): (h: seq<Byte>)
    requires 0 <= size < 0x1_0000_0000
    ensures |h| == 4
  {
    var high := size / 256 / 256;
    [high / 256, high % 256, size / 256 % 256, size % 256]
  }

  /** The trainer's reader: an unsigned 32-bit length. */
  function Unsigned(h: seq<Byte>): (size: int)
    requires |h| == 4
    ensures 0 <= size < 0x1_0000_0000
  {
    var a: int, b: int, c: int, d: int := h[0], h[1], h[2], h[3];
    ((a * 256 + b) * 256 + c) * 256 + d
  }

  /** The client's reader: a two's-complement 32-bit length. */
  function Signed(h: seq<Byte>): (size: int)
    requires |h| == 4
    ensures -0x8000_0000 <= size < 0x8000_0000
  {
    var size := Unsigned(h);
    if size >= 0x8000_0000 then size - 0x1_0000_0000 else size
  }

  predicate Accepted(size: int) {
    0 < size <= MAX_MESSAGE_BYTES
  }

  function FrameOf(payload: seq<Byte>): seq<Byte>
    requires Sendable(payload)
  {
    Header(|payload|) + payload
  }

  /** What one read takes from a stream of bytes, and what it leaves. */
  function Next(stream: seq<Byte>): (r: (Read, seq<Byte>))
    ensures |r.1| <= |stream| && (r.0.Frame? ==> |r.1| < |stream|)
  {
    if |stream| < 4 then (Ended, [])
    else
      var size := Unsigned(stream[..4]);
      if !Accepted(size) then (BadLength, stream[4..])
      else if |stream| - 4 < size then (Ended, [])
      else (Frame(stream[4..4 + size]), stream[4 + size..])
  }

  predicate AllSendable(payloads: seq<seq<Byte>>) {
    forall k :: 0 <= k < |payloads| ==> Sendable(payloads[k])
  }

  /** The bytes a list of messages puts on the wire. */
  function Wire(payloads: seq<seq<Byte>>): seq<Byte>
    requires AllSendable(payloads)
  {
    if payloads == [] then [] else FrameOf(payloads[0]) + Wire(payloads[1..])
  }

  /** Reads until something other than a frame comes. */
  function ReadAll(stream: seq<Byte>): (seq<seq<Byte>>, Read)
    decreases |stream|
  {
    var (read, rest) := Next(stream);
    if read.Frame? then
      var (payloads, last) := ReadAll(rest);
      ([read.payload] + payloads, last)
    else ([], read)
  }

  // ---------------------------------------------------------------- headers

  lemma HeaderRoundTrip(size: int)
    requires 0 <= size < 0x1_0000_0000
    ensures Unsigned(Header(size)) == size
  {
  }

  /** The most significant byte comes first. */
  lemma HeaderIsBigEndian(size: int)
    requires 0 <= size < 0x1_0000_0000
    ensures var a: int, b: int, c: int, d: int :=
              Header(size)[0], Header(size)[1], Header(size)[2], Header(size)[3];
            size == 0x100_0000 * a + 0x1_0000 * b + 0x100 * c + d
  {
  }

  /** The two readers accept the same headers, those of 1 byte to 1 MiB, and then agree on the length. */
  lemma ReadersAgree(h: seq<Byte>)
    requires |h| == 4
    ensures Accepted(Signed(h)) <==> Accepted(Unsigned(h))
    ensures Accepted(Unsigned(h)) <==> 1 <= Unsigned(h) <= 1_048_576
    ensures Accepted(Signed(h)) ==> Signed(h) == Unsigned(h)
  {
  }

  // ---------------------------------------------------------------- streams

  lemma ReadAllOfFrame(payload: seq<Byte>, rest: seq<Byte>)
    requires Sendable(payload)
    ensures ReadAll(FrameOf(payload) + rest) == ([payload] + ReadAll(rest).0, ReadAll(rest).1)
  {
  }

  lemma Associative<T>(a: seq<T>, b: seq<T>, c: seq<T>)
    ensures (a + b) + c == a + (b + c)
  {
  }

  /** Reading back what was sent gives every message, whatever follows. */
  lemma {:induction false} RoundTrip(payloads: seq<seq<Byte>>, rest: seq<Byte>)
    requires AllSendable(payloads)
    ensures ReadAll(Wire(payloads) + rest).0 == payloads + ReadAll(rest).0
    ensures ReadAll(Wire(payloads) + rest).1 == ReadAll(rest).1
  {
    if payloads == [] {
      assert Wire(payloads) + rest == rest;
    } else {
      var first, others, more := payloads[0], payloads[1..], ReadAll(rest).0;
      Associative(FrameOf(first), Wire(others), rest);
      ReadAllOfFrame(first, Wire(others) + rest);
      RoundTrip(others, rest);
      Associative([first], others, more);
      assert [first] + others == payloads;
    }
  }

  /** Writing one more message appends its frame. */
  lemma {:induction false} WireGrows(payloads: seq<seq<Byte>>, payload: seq<Byte>)
    requires AllSendable(payloads) && Sendable(payload)
    ensures AllSendable(payloads + [payload])
    ensures Wire(payloads + [payload]) == Wire(payloads) + FrameOf(payload)
  {
    if payloads == [] {
      assert payloads + [payload] == [payload];
      assert Wire([payload]) == FrameOf(payload) + Wire([]);
    } else {
      WireGrows(payloads[1..], payload);
      assert (payloads + [payload])[1..] == payloads[1..] + [payload];
    }
  }

  /** A stream cut anywhere gives an initial part of the messages, then its end: a lost tail never
      turns into a wrong message or a length error. */
  lemma {:induction false} CutStream(payloads: seq<seq<Byte>>, cut: nat)
    requires AllSendable(payloads) && cut <= |Wire(payloads)|
    ensures var (got, last) := ReadAll(Wire(payloads)[..cut]);
            && last == Ended && |got| <= |payloads| && got == payloads[..|got|]
            && (cut == |Wire(payloads)| <==> |got| == |payloads|)
  {
    if payloads != [] {
      var frame, tail := FrameOf(payloads[0]), Wire(payloads[1..]);
      if cut < |frame| {
        CutFrame(payloads[0], cut);
        assert Wire(payloads)[..cut] == frame[..cut];
      } else {
        var rest := tail[..cut - |frame|];
        assert Wire(payloads)[..cut] == frame + rest;
        ReadAllOfFrame(payloads[0], rest);
        CutStream(payloads[1..], cut - |frame|);
        var got := ReadAll(rest).0;
        assert got == payloads[1..][..|got|];
      }
    }
  }

  lemma CutFrame(payload: seq<Byte>, cut: nat)
    requires Sendable(payload) && cut < |FrameOf(payload)|
    ensures Next(FrameOf(payload)[..cut]).0 == Ended
  {
  }
}
