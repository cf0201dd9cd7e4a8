/**
  Capsules and their 14-byte packed header (datafactory.h), with the header copies that
  the presentation layer and the gateway perform on the capsule's byte buffer.
 */
module Capsules {

  type U2 = x: int | 0 <= x < 4
  type U4 = x: int | 0 <= x < 16
  type U8 = x: int | 0 <= x < 0x100
  type U16 = x: int | 0 <= x < 0x1_0000
  type U32 = x: int | 0 <= x < 0x1_0000_0000

  /** Size of the packed header on the wire. */
  const HEADER_SPACE := 14

  // Capsule types and flags of the protocol.
  const CTRL: U2 := 0
  const PAYLD: U2 := 3
  const FIN: U8 := 1

  datatype Header = Header(
    srcid: U8, destid: U8, connid: U16, capid: U16, capSize: U16,
    capType: U2, capPriority: U2, capWinSiz: U4, capFlags: U8, capopts: U32)

  datatype Capsule = Capsule(header: Header, payload: seq<U8>)

  /** The test `capType & PAYLD`, which holds of every type but CTRL. */
  predicate IsPayload(h: Header) {
    h.capType != CTRL
  }

  /** The test `capFlags & FIN`. */
  predicate IsFin(h: Header) {
    h.capFlags % 2 == 1
  }

  /** The header's memory image: little-endian, bit-fields filled from the low bits. */
  function Encode(h: Header): (b: seq<U8>)
    ensures |b| == HEADER_SPACE
  {
    [ h.srcid, h.destid,
      h.connid % 0x100, h.connid / 0x100,
      h.capid % 0x100, h.capid / 0x100,
      h.capSize % 0x100, h.capSize / 0x100,
      h.capType + 4 * h.capPriority + 16 * h.capWinSiz, h.capFlags,
      h.capopts % 0x100, h.capopts / 0x100 % 0x100, h.capopts / 0x1_0000 % 0x100, h.capopts / 0x100_0000 ]
  }

  /** The little-endian 16-bit number in two bytes. */
  function Word16(lo: U8, hi: U8): U16 {
    (lo as int) + 0x100 * (hi as int)
  }

  /** The little-endian 32-bit number in four bytes. */
  function Word32(b0: U8, b1: U8, b2: U8, b3: U8): U32 {
    (b0 as int) + 0x100 * (b1 as int) + 0x1_0000 * (b2 as int) + 0x100_0000 * (b3 as int)
  }

  function Decode(b: seq<U8>): Header
    requires |b| >= HEADER_SPACE
  {
    Header(b[0], b[1], Word16(b[2], b[3]), Word16(b[4], b[5]), Word16(b[6], b[7]),
           b[8] % 4, b[8] / 4 % 4, b[8] / 16, b[9],
           Word32(b[10], b[11], b[12], b[13]))
  }

  lemma Word32Bytes(b0: U8, b1: U8, b2: U8, b3: U8)
    ensures var x := Word32(b0, b1, b2, b3);
      x % 0x100 == b0 && x / 0x100 % 0x100 == b1 && x / 0x1_0000 % 0x100 == b2 && x / 0x100_0000 == b3
  {
    var x: int := Word32(b0, b1, b2, b3);
    assert x / 0x100 == (b1 as int) + 0x100 * (b2 as int) + 0x1_0000 * (b3 as int);
    assert x / 0x1_0000 == (b2 as int) + 0x100 * (b3 as int);
  }

  lemma PackedByte(b: U8)
    ensures b % 4 + 4 * (b / 4 % 4) + 16 * (b / 16) == b
  {
    assert b == 4 * (b / 4) + b % 4;
    assert b / 4 == 4 * (b / 16) + b / 4 % 4;
  }

  lemma Word16Of(x: U16)
    ensures Word16(x % 0x100, x / 0x100) == x
  {
  }

  lemma Word32Of(x: U32)
    ensures Word32(x % 0x100, x / 0x100 % 0x100, x / 0x1_0000 % 0x100, x / 0x100_0000) == x
  {
    assert x / 0x1_0000 == x / 0x100 / 0x100 && x / 0x100_0000 == x / 0x1_0000 / 0x100;
  }

  lemma PackedFields(t: U2, p: U2, w: U4)
    ensures var b := t + 4 * p + 16 * w;
      b % 4 == t && b / 4 % 4 == p && b / 16 == w
  {
    var b := t + 4 * p + 16 * w;
    assert b / 4 == p + 4 * w;
  }

  lemma DecodeEncode(h: Header, rest: seq<U8>)
    ensures Decode(Encode(h) + rest) == h
  {
    Word16Of(h.connid);
    Word16Of(h.capid);
    Word16Of(h.capSize);
    Word32Of(h.capopts);
    PackedFields(h.capType, h.capPriority, h.capWinSiz);
    hide Word16, Word32;
    assert (Encode(h) + rest)[..HEADER_SPACE] == Encode(h);
  }

  lemma EncodeDecode(b: seq<U8>)
    requires |b| == HEADER_SPACE
    ensures Encode(Decode(b)) == b
  {
    PackedByte(b[8]);
    Word32Bytes(b[10], b[11], b[12], b[13]);
  }

  /** The packed layout, byte by byte: low bytes first, the three bit-fields in byte 8 from its low bits up. */
  predicate Laid(h: Header, b: seq<U8>) {
    && |b| >= 14
    && b[0] == h.srcid && b[1] == h.destid
    && h.connid == b[2] as int + 256 * (b[3] as int)
    && h.capid == b[4] as int + 256 * (b[5] as int)
    && h.capSize == b[6] as int + 256 * (b[7] as int)
    && b[8] == h.capType + 4 * h.capPriority + 16 * h.capWinSiz
    && b[9] == h.capFlags
    && h.capopts == b[10] as int + 256 * (b[11] as int) + 65536 * (b[12] as int) + 16777216 * (b[13] as int)
  }

  /** The header's image is the one 14-byte string with that layout, and decoding reads that layout. */
  lemma Layout(h: Header, b: seq<U8>)
    requires |b| == 14
    ensures Laid(h, b) <==> b == Encode(h)
    ensures Laid(h, b) <==> Decode(b) == h
  {
    if Laid(h, b) {
      PackedFields(h.capType, h.capPriority, h.capWinSiz);
      assert Decode(b) == h;
      EncodeDecode(b);
    }
    if b == Encode(h) || Decode(b) == h {
      DecodeEncode(h, []);
      assert Encode(h) + [] == Encode(h);
      EncodeDecode(b);
      PackedByte(b[8]);
    }
  }

  /** The tests of a received header read byte 8's two low bits and byte 9's lowest. */
  lemma Tests(h: Header, b: seq<U8>)
    requires Laid(h, b)
    ensures IsPayload(h) <==> b[8] % 4 != 0
    ensures IsFin(h) <==> b[9] % 2 == 1
  {
    PackedFields(h.capType, h.capPriority, h.capWinSiz);
  }

  /** The datagram of a capsule: header image, then the payload. */
  function Frame(c: Capsule): seq<U8> {
    Encode(c.header) + c.payload
  }

  /** The capsule that stripping the header recovers from a datagram. */
  function Unframe(d: seq<U8>): Capsule
    requires |d| >= HEADER_SPACE
  {
    Capsule(Decode(d), d[HEADER_SPACE..])
  }

  /** Framing is a bijection between capsules and datagrams of at least 14 bytes. */
  lemma FrameBijection(c: Capsule, d: seq<U8>)
    requires |d| >= HEADER_SPACE
    ensures Unframe(Frame(c)) == c
    ensures Frame(Unframe(d)) == d
  {
    DecodeEncode(c.header, c.payload);
    assert Frame(c)[HEADER_SPACE..] == c.payload;
    EncodeDecode(d[..HEADER_SPACE]);
    assert d == d[..HEADER_SPACE] + d[HEADER_SPACE..];
    assert Decode(d) == Decode(d[..HEADER_SPACE]);
  }

  lemma ImageLaid(h: Header, rest: seq<U8>)
    ensures Laid(h, Encode(h) + rest)
  {
    Layout(h, Encode(h));
  }

  lemma DecodedLaid(d: seq<U8>)
    requires |d| >= 14
    ensures Laid(Decode(d), d)
  {
    Layout(Decode(d), d[..14]);
  }

  /**
    A capsule in memory. The body is a pointer into a byte buffer: `off` is 0 for a capsule
    about to be sent and HEADER_SPACE once the header of a received one has been stripped.
   */
  class CapsuleBuffer {
    var header: Header
    var body: array<U8>
    var off: nat

    ghost predicate Valid()
      reads this
    {
      off + HEADER_SPACE <= body.Length
    }

    constructor (h: Header, length: nat)
      requires length >= HEADER_SPACE
      ensures Valid() && fresh(body) && off == 0 && header == h && body.Length == length
    {
      header, off := h, 0;
      body := new U8[length];
    }

    /** Copies the header over the first bytes of the body. */
    method OverlayHeader()
      requires Valid() && off == 0
      modifies body
      ensures Valid() && body[..] == Encode(header) + old(body[HEADER_SPACE..])
      ensures Laid(header, body[..])
    {
      hide Encode, Laid;
      var image := Encode(header);
      ImageLaid(header, old(body[HEADER_SPACE..]));
      for i := 0 to HEADER_SPACE
        invariant forall j :: 0 <= j < i ==> body[j] == image[j]
        invariant forall j :: i <= j < body.Length ==> body[j] == old(body[j])
      {
        body[i] := image[i];
      }
    }

    /**
      Sends a capsule: the presentation layer copies the header as it stands, the session then
      rewrites it, and the gateway copies it again before handing `capSize + 14` bytes to the
      socket. The datagram is the frame of the final header and of the untouched payload bytes.
     */
    method Send(final: Header) returns (datagram: seq<U8>)
      requires Valid() && off == 0 && HEADER_SPACE + final.capSize <= body.Length
      modifies this`header, body
      ensures header == final
      ensures datagram == Frame(Capsule(final, old(body[HEADER_SPACE..HEADER_SPACE + final.capSize])))
      ensures |datagram| == HEADER_SPACE + final.capSize
    {
      hide Encode;
      OverlayHeader();
      assert body[HEADER_SPACE..] == old(body[HEADER_SPACE..]);
      header := final;
      OverlayHeader();
      assert body[HEADER_SPACE..] == old(body[HEADER_SPACE..]);
      assert body[..] == body[..HEADER_SPACE] + body[HEADER_SPACE..];
      datagram := body[..HEADER_SPACE + header.capSize];
    }

    /**
      Receives a datagram into a buffer of `body.Length` bytes, dropping what does not fit, and
      strips the header: the capsule recovered from the bytes kept, payload in place after the offset.
     */
    method Pull(datagram: seq<U8>) returns (nread: nat)
      requires Valid() && off == 0
      requires |datagram| >= HEADER_SPACE
      modifies this`header, this`off, body
      ensures nread == if |datagram| <= body.Length then |datagram| else body.Length
      ensures off == HEADER_SPACE && off <= nread <= body.Length
      ensures Capsule(header, body[off..nread]) == Unframe(datagram[..nread])
      ensures Laid(header, datagram) && body[off..nread] == datagram[14..nread]
    {
      hide Laid;
      DecodedLaid(datagram);
      nread := if |datagram| <= body.Length then |datagram| else body.Length;
      for i := 0 to nread
        invariant body[..i] == datagram[..i]
      {
        body[i] := datagram[i];
      }
      header := Decode(body[..nread]);
      assert Decode(datagram[..nread]) == Decode(datagram);
      off := HEADER_SPACE;
      assert body[off..nread] == body[..nread][off..];
    }

    /** The bytes the sink write takes from a received capsule: `size - 14` of them, from the body pointer. */
    method SinkBytes(size: nat) returns (bytes: seq<U8>)
      requires off == HEADER_SPACE <= size <= body.Length
      ensures bytes == body[off..size]
      ensures |bytes| == size - HEADER_SPACE
    {
      bytes := body[off..off + (size - HEADER_SPACE)];
    }
  }

  /**
    What one peer sends with a data buffer, the other reads back from a receive buffer that is
    large enough: the final header, and exactly capSize payload bytes for the sink.
   */
  method FrameRoundTrip(out: CapsuleBuffer, final: Header, into: CapsuleBuffer) returns (bytes: seq<U8>)
    requires out.Valid() && into.Valid() && out.off == 0 && into.off == 0
    requires out != into && out.body != into.body
    requires HEADER_SPACE + final.capSize <= out.body.Length
    requires HEADER_SPACE + final.capSize <= into.body.Length
    modifies out, out.body, into, into.body
    ensures into.header == final
    ensures bytes == old(out.body[HEADER_SPACE..HEADER_SPACE + final.capSize])
  {
    var datagram := out.Send(final);
    var size := into.Pull(datagram);
    assert datagram[..size] == datagram;
    FrameBijection(Capsule(final, old(out.body[HEADER_SPACE..HEADER_SPACE + final.capSize])), datagram);
    bytes := into.SinkBytes(size);
  }
}
