/**
 Text frames of the inspector's live stream, against the base framing of section 5.2 of RFC 6455.
 */
module WebSocketFrame {
  import opened Common

  newtype Byte = x: int | 0 <= x < 256

  type Bytes = seq<Byte>

  const LENGTH_LIMIT: nat := 0x8000_0000_0000_0000

  // ---------------------------------------------------------------- big-endian numbers

  function Pow256(k: nat): nat {
    if k == 0 then 1 else 256 * Pow256(k - 1)
  }

  function BigEndian(n: nat, k: nat): (r: Bytes)
    ensures |r| == k
  {
    if k == 0 then [] else BigEndian(n / 256, k - 1) + [(n % 256) as Byte]
  }

  function Number(bytes: Bytes): nat {
    if bytes == [] then 0 else 256 * Number(bytes[..|bytes| - 1]) + bytes[|bytes| - 1] as nat
  }

  lemma {:induction false} NumberOfBigEndian(n: nat, k: nat)
    requires n < Pow256(k)
    ensures Number(BigEndian(n, k)) == n
    decreases k
  {
    if k > 0 {
      NumberOfBigEndian(n / 256, k - 1);
      var bytes := BigEndian(n, k);
      assert bytes[..|bytes| - 1] == BigEndian(n / 256, k - 1);
    }
  }

  lemma Widths()
    ensures Pow256(2) == 0x1_0000 && Pow256(8) == 0x1_0000_0000_0000_0000
  {
    assert Pow256(2) == 256 * Pow256(1) && Pow256(1) == 256 * Pow256(0);
    assert Pow256(4) == 256 * Pow256(3) && Pow256(3) == 256 * Pow256(2);
    assert Pow256(6) == 256 * Pow256(5) && Pow256(5) == 256 * Pow256(4);
    assert Pow256(8) == 256 * Pow256(7) && Pow256(7) == 256 * Pow256(6);
  }

  // ---------------------------------------------------------------- encoding

  function Header(length: nat): Bytes {
    if length < 126 then [0x81, length as Byte]
    else if length <= 0xffff then [0x81, 126] + BigEndian(length, 2)
    else [0x81, 127] + BigEndian(length, 8)
  }

  function Encode(payload: Bytes): Bytes {
    Header(|payload|) + payload
  }

  /** Writes `n` big-endian over `width` bytes from `offset` on, as the Buffer methods do. */
  method WriteBigEndian(buffer: array<Byte>, n: nat, offset: nat, width: nat)
    requires offset + width <= buffer.Length
    modifies buffer
    ensures buffer[..] == old(buffer[..offset]) + BigEndian(n, width) + old(buffer[offset + width..])
  {
    var i, left := width, n;
    while i > 0
      invariant 0 <= i <= width
      invariant buffer[..offset + i] == old(buffer[..offset + i])
      invariant buffer[offset + width..] == old(buffer[offset + width..])
      invariant BigEndian(left, i) + buffer[offset + i..offset + width] == BigEndian(n, width)
    {
      i := i - 1;
      ghost var tail := buffer[offset + i + 1..offset + width];
      buffer[offset + i] := (left % 256) as Byte;
      assert buffer[offset + i..offset + width] == [(left % 256) as Byte] + tail;
      left := left / 256;
    }
    assert buffer[..] == buffer[..offset] + buffer[offset..offset + width] + buffer[offset + width..];
  }

  method EncodeWebSocketTextFrame(payload: Bytes) returns (frame: Bytes)
    ensures frame == Encode(payload)
  {
    var payloadLength := |payload|;
    if payloadLength < 126 {
      var header := new Byte[2];
      header[0] := 0x81;
      header[1] := payloadLength as Byte;
      return header[..] + payload;
    }
    if payloadLength <= 0xffff {
      var header := new Byte[4];
      header[0] := 0x81;
      header[1] := 126;
      WriteBigEndian(header, payloadLength, 2, 2);
      return header[..] + payload;
    }
    var header := new Byte[10];
    header[0] := 0x81;
    header[1] := 127;
    WriteBigEndian(header, payloadLength, 2, 8);
    return header[..] + payload;
  }

  // ---------------------------------------------------------------- decoding

  datatype Frame = Frame(fin: bool, reserved: nat, opcode: nat, masked: bool, payload: Bytes)

  /** How many bytes follow the second one to give the length. */
  function LengthWidth(marker: nat): nat {
    if marker < 126 then 0 else if marker == 126 then 2 else 8
  }

  /** The fewest length bytes the RFC has a form for. */
  function ShortestWidth(length: nat): nat {
    if length < 126 then 0 else if length < 0x1_0000 then 2 else 8
  }

  /**
   One unmasked frame and what follows it.  A length whose 64-bit form has the highest bit set is
   malformed, and for a strict reader so is one that is not in its shortest form.
   */
  function DecodeForm(bytes: Bytes, strict: bool): Option<(Frame, Bytes)> {
    if |bytes| < 2 then None
    else
      var first, second := bytes[0] as nat, bytes[1] as nat;
      var marker := second % 128;
      var width := LengthWidth(marker);
      if second >= 128 || |bytes| < 2 + width then None
      else
        var length := if width == 0 then marker else Number(bytes[2..2 + width]);
        if (strict && width != ShortestWidth(length)) || length >= LENGTH_LIMIT || |bytes| < 2 + width + length then None
        else
          Some((Frame(first >= 128, first / 16 % 8, first % 16, false, bytes[2 + width..2 + width + length]),
                bytes[2 + width + length..]))
  }

  function Decode(bytes: Bytes): Option<(Frame, Bytes)> {
    DecodeForm(bytes, true)
  }

  lemma HeaderNumber(length: nat)
    requires length < LENGTH_LIMIT
    ensures var header := Header(length);
            var width := ShortestWidth(length);
            && |header| == 2 + width && header[0] == 0x81
            && LengthWidth(header[1] as nat) == width && header[1] < 128
            && (if width == 0 then header[1] as nat == length else Number(header[2..]) == length)
  {
    Widths();
    var header := Header(length);
    if 126 <= length <= 0xffff {
      NumberOfBigEndian(length, 2);
      assert header[2..] == BigEndian(length, 2);
    } else if length > 0xffff {
      NumberOfBigEndian(length, 8);
      assert header[2..] == BigEndian(length, 8);
    }
  }

  /** Decoding gives the payload back as one final text frame, and leaves what follows it alone. */
  lemma FrameRoundTrip(payload: Bytes, rest: Bytes)
    requires |payload| < 0x8000_0000_0000_0000
    ensures Decode(Encode(payload) + rest) == Some((Frame(true, 0, 1, false, payload), rest))
  {
    HeaderNumber(|payload|);
    var header := Header(|payload|);
    var width := ShortestWidth(|payload|);
    var bytes := Encode(payload) + rest;
    assert bytes[0] == header[0] && bytes[1] == header[1];
    assert bytes[2..2 + width] == header[2..];
    assert bytes[2 + width..2 + width + |payload|] == payload;
    assert bytes[2 + width + |payload|..] == rest;
    hide Header;
  }

  /** A stream of frames can be cut in one way only. */
  lemma FramesAreSelfDelimiting(a: Bytes, restA: Bytes, b: Bytes, restB: Bytes)
    requires |a| < 0x8000_0000_0000_0000 && |b| < 0x8000_0000_0000_0000
    requires Encode(a) + restA == Encode(b) + restB
    ensures a == b && restA == restB
  {
    FrameRoundTrip(a, restA);
    FrameRoundTrip(b, restB);
    hide Decode;
    hide Encode;
  }

  lemma {:induction false} NumberBound(bytes: Bytes)
    ensures Number(bytes) < Pow256(|bytes|)
    decreases |bytes|
  {
    if bytes != [] {
      NumberBound(bytes[..|bytes| - 1]);
    }
  }

  /** No byte string that even a lenient reader takes for this text frame is shorter. */
  lemma FrameIsShortest(payload: Bytes, other: Bytes, rest: Bytes)
    requires |payload| < 0x8000_0000_0000_0000
    requires DecodeForm(other, false) == Some((Frame(true, 0, 1, false, payload), rest))
    ensures |Encode(payload)| + |rest| <= |other|
  {
    HeaderNumber(|payload|);
    Widths();
    if |other| >= 4 {
      NumberBound(other[2..4]);
    }
    hide Header;
    hide Number;
  }

  function EncodeAll(payloads: seq<Bytes>): Bytes {
    if payloads == [] then [] else Encode(payloads[0]) + EncodeAll(payloads[1..])
  }

  function DecodeAll(bytes: Bytes): Option<seq<Bytes>>
    decreases |bytes|
  {
    if bytes == [] then Some([])
    else
      match Decode(bytes)
      case None => None
      case Some((frame, rest)) =>
        var more := DecodeAll(rest);
        if more.None? then None else Some([frame.payload] + more.value)
  }

  /** Any sequence of messages written to the socket is read back as that sequence. */
  lemma {:induction false} StreamRoundTrip(payloads: seq<Bytes>)
    requires forall i :: 0 <= i < |payloads| ==> |payloads[i]| < 0x8000_0000_0000_0000
    ensures DecodeAll(EncodeAll(payloads)) == Some(payloads)
    decreases |payloads|
  {
    if payloads != [] {
      StreamRoundTrip(payloads[1..]);
      FrameRoundTrip(payloads[0], EncodeAll(payloads[1..]));
      hide Decode;
      assert |Encode(payloads[0])| > 0;
      hide Encode;
      DecodeAllStep(EncodeAll(payloads), Frame(true, 0, 1, false, payloads[0]), EncodeAll(payloads[1..]),
                    payloads[1..]);
      hide DecodeAll;
      assert [payloads[0]] + payloads[1..] == payloads;
    }
  }

  lemma DecodeAllStep(bytes: Bytes, frame: Frame, rest: Bytes, more: seq<Bytes>)
    requires Decode(bytes) == Some((frame, rest)) && |rest| < |bytes| && DecodeAll(rest) == Some(more)
    ensures DecodeAll(bytes) == Some([frame.payload] + more)
  {
    hide Decode;
  }
}
