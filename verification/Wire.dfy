/** The wire formats of the relay (internal/portforward/protocol.go) and of DNS
    over TCP (internal/interconnect/dns.go; RFC 1035, section 4.2.2). */
module Wire {
  import opened PortForward

  type Byte = b: nat | b < 0x100

  type Bytes = seq<Byte>

  const TOKEN_SIZE := 32
  const MAX_MAPPING_NAME := 63
  const PROTOCOL_VERSION: Byte := 1
  const RESPONSE_OK: Byte := 0
  const MAXIMUM_DNS_MESSAGE_SIZE := 65535
  const MAGIC: Bytes := ['W' as Byte, 'K' as Byte, 'T' as Byte, 'P' as Byte]

  /** What a reader makes of the bytes in front of it, and what it leaves. */
  datatype Decoded<T> = Got(value: T, rest: Bytes) | Refused(rest: Bytes)

  // ---- streams --------------------------------------------------------------

  /** A connection: writers append, readers take from the front. */
  class Stream {
    var bytes: Bytes

    constructor (bytes: Bytes)
      ensures this.bytes == bytes
    {
      this.bytes := bytes;
    }

    /** io.ReadFull: everything asked for, or an error after what there is. */
    method ReadFull(n: nat) returns (r: Option<Bytes>)
      modifies this
      ensures r.Some? <==> n <= |old(bytes)|
      ensures r.Some? ==> r.value == old(bytes)[..n] && bytes == old(bytes)[n..]
      ensures r.None? ==> bytes == []
    {
      if n <= |bytes| {
        r := Some(bytes[..n]);
        bytes := bytes[n..];
      } else {
        bytes, r := [], None;
      }
    }

    method Write(data: Bytes)
      modifies this
      ensures bytes == old(bytes) + data
    {
      bytes := bytes + data;
    }
  }

  // ---- big-endian lengths ---------------------------------------------------

  function PutUint16(n: nat): (r: Bytes)
    requires n < 0x1_0000
    ensures |r| == 2
  {
    [n / 0x100, n % 0x100]
  }

  function Uint16(b: Bytes): (r: nat)
    requires |b| == 2
    ensures r < 0x1_0000
  {
    (b[0] as int) * 0x100 + b[1] as int
  }

  lemma Uint16Inverse(n: nat, b: Bytes)
    ensures n < 0x1_0000 ==> Uint16(PutUint16(n)) == n
    ensures |b| == 2 ==> PutUint16(Uint16(b)) == b
  {
  }

  // ---- the relay preamble ---------------------------------------------------

  datatype Preamble = Preamble(token: Bytes, name: Bytes)

  predicate ValidPreamble(p: Preamble)
  {
    |p.token| == TOKEN_SIZE && 1 <= |p.name| <= MAX_MAPPING_NAME
  }

  function EncodePreamble(p: Preamble): Bytes
    requires ValidPreamble(p)
  {
    MAGIC + [PROTOCOL_VERSION, |p.name|] + p.token + p.name
  }

  function DecodePreamble(b: Bytes): Decoded<Preamble>
  {
    if |b| < 38 then Refused([])
    else
      var header, after := b[..38], b[38..];
      if header[..4] != MAGIC || header[4] != PROTOCOL_VERSION then Refused(after)
      else
        var length := header[5];
        if length < 1 || length > MAX_MAPPING_NAME then Refused(after)
        else if |after| < length then Refused([])
        else Got(Preamble(header[6..38], after[..length]), after[length..])
  }

  method WritePreamble(destination: Stream, p: Preamble) returns (ok: bool)
    modifies destination
    ensures ok <==> ValidPreamble(p)
    ensures destination.bytes == if ok then old(destination.bytes) + EncodePreamble(p) else old(destination.bytes)
  {
    if |p.token| != TOKEN_SIZE || |p.name| == 0 || |p.name| > MAX_MAPPING_NAME {
      return false;
    }
    var body: Bytes := MAGIC;
    body := body + [PROTOCOL_VERSION, |p.name|];
    body := body + p.token;
    body := body + p.name;
    destination.Write(body);
    return true;
  }

  method ReadPreamble(source: Stream) returns (p: Option<Preamble>)
    modifies source
    ensures p.Some? <==> DecodePreamble(old(source.bytes)).Got?
    ensures p.Some? ==> p.value == DecodePreamble(old(source.bytes)).value
    ensures source.bytes == DecodePreamble(old(source.bytes)).rest
  {
    var header := source.ReadFull(38);
    if header.None? || header.value[..4] != MAGIC || header.value[4] != PROTOCOL_VERSION {
      return None;
    }
    var length := header.value[5];
    if length < 1 || length > MAX_MAPPING_NAME {
      return None;
    }
    var name := source.ReadFull(length);
    if name.None? {
      return None;
    }
    return Some(Preamble(header.value[6..38], name.value));
  }

  /** What is read is what was written, and everything after it is left. */
  lemma PreambleRoundTrip(p: Preamble, rest: Bytes)
    requires ValidPreamble(p)
    ensures DecodePreamble(EncodePreamble(p) + rest) == Got(p, rest)
  {
    var b := EncodePreamble(p) + rest;
    var opening: Bytes := MAGIC + [PROTOCOL_VERSION, |p.name|];
    assert b == opening + (p.token + (p.name + rest));
    assert b[..4] == MAGIC && b[4] == PROTOCOL_VERSION && b[5] == |p.name|;
    assert b[6..38] == p.token;
    assert b[38..] == p.name + rest;
    assert b[..38][..4] == MAGIC && b[..38][6..38] == p.token;
  }

  /** An accepted preamble is the encoding of its value: no two byte strings
      stand for the same preamble. */
  lemma PreambleCanonical(b: Bytes)
    requires DecodePreamble(b).Got?
    ensures ValidPreamble(DecodePreamble(b).value)
    ensures b == EncodePreamble(DecodePreamble(b).value) + DecodePreamble(b).rest
  {
    var d := DecodePreamble(b);
    assert b[..38] == MAGIC + [PROTOCOL_VERSION, |d.value.name|] + d.value.token;
    assert b == b[..38] + (d.value.name + d.rest);
  }

  /** A preamble cut short is refused: no preamble starts another. */
  lemma PreamblePrefixFree(p: Preamble, n: nat)
    requires ValidPreamble(p) && n < |EncodePreamble(p)|
    ensures DecodePreamble(EncodePreamble(p)[..n]).Refused?
  {
    var cut := EncodePreamble(p)[..n];
    if n >= 38 {
      assert cut[5] == EncodePreamble(p)[5] == |p.name|;
      assert cut[..38][5] == cut[5] && |cut[38..]| < |p.name|;
    }
  }

  // ---- the relay response ---------------------------------------------------

  /** How the reader reports a response. */
  datatype Answer = Accepted | Rejected(message: Bytes)

  /** The message that fits the length field. */
  function Clipped(message: Bytes): Bytes
  {
    if |message| > 65535 then message[..65535] else message
  }

  function EncodeResponse(status: Byte, message: Bytes): Bytes
  {
    [status] + PutUint16(|Clipped(message)|) + Clipped(message)
  }

  function DecodeResponse(b: Bytes): Decoded<Answer>
  {
    if |b| < 3 then Refused([])
    else
      var length := Uint16(b[1..3]);
      if |b| - 3 < length then Refused([])
      else Got(if b[0] == RESPONSE_OK then Accepted else Rejected(b[3..3 + length]), b[3 + length..])
  }

  method WriteRelayResponse(destination: Stream, status: Byte, message: Bytes)
    modifies destination
    ensures destination.bytes == old(destination.bytes) + EncodeResponse(status, message)
  {
    var clipped := message;
    if |clipped| > 65535 {
      clipped := clipped[..65535];
    }
    destination.Write([status] + PutUint16(|clipped|));
    if clipped != [] {
      destination.Write(clipped);
    }
  }

  method ReadRelayResponse(source: Stream) returns (r: Option<Answer>)
    modifies source
    ensures r.Some? <==> DecodeResponse(old(source.bytes)).Got?
    ensures r.Some? ==> r.value == DecodeResponse(old(source.bytes)).value
    ensures source.bytes == DecodeResponse(old(source.bytes)).rest
  {
    var header := source.ReadFull(3);
    if header.None? {
      return None;
    }
    assert header.value[1..] == old(source.bytes)[1..3];
    var message := source.ReadFull(Uint16(header.value[1..]));
    if message.None? {
      return None;
    }
    return Some(if header.value[0] == RESPONSE_OK then Accepted else Rejected(message.value));
  }

  /** The reader accepts exactly the status it must, sees a message of up to
      65535 bytes whole, and leaves everything after it. */
  lemma ResponseRoundTrip(status: Byte, message: Bytes, rest: Bytes)
    ensures DecodeResponse(EncodeResponse(status, message) + rest) ==
            Got(if status == RESPONSE_OK then Accepted else Rejected(Clipped(message)), rest)
    ensures |message| <= 65535 ==> Clipped(message) == message
  {
    var text := Clipped(message);
    var b := EncodeResponse(status, message) + rest;
    assert b == [status] + PutUint16(|text|) + (text + rest);
    assert b[1..3] == PutUint16(|text|);
    Uint16Inverse(|text|, []);
    assert b[3..] == text + rest;
    assert b[3..3 + |text|] == text && b[3 + |text|..] == rest;
  }

  // ---- DNS frames -----------------------------------------------------------

  function EncodeFrame(message: Bytes): Bytes
    requires |message| <= MAXIMUM_DNS_MESSAGE_SIZE
  {
    PutUint16(|message|) + message
  }

  function DecodeFrame(b: Bytes): Decoded<Bytes>
  {
    if |b| < 2 then Refused([])
    else
      var size := Uint16(b[..2]);
      if |b| - 2 < size then Refused([]) else Got(b[2..2 + size], b[2 + size..])
  }

  method WriteDnsFrame(destination: Stream, message: Bytes) returns (ok: bool)
    modifies destination
    ensures ok <==> |message| <= MAXIMUM_DNS_MESSAGE_SIZE
    ensures destination.bytes == if ok then old(destination.bytes) + EncodeFrame(message) else old(destination.bytes)
  {
    if |message| > MAXIMUM_DNS_MESSAGE_SIZE {
      return false;
    }
    destination.Write(PutUint16(|message|));
    destination.Write(message);
    return true;
  }

  method ReadDnsFrame(source: Stream) returns (r: Option<Bytes>)
    modifies source
    ensures r.Some? <==> DecodeFrame(old(source.bytes)).Got?
    ensures r.Some? ==> r.value == DecodeFrame(old(source.bytes)).value
    ensures source.bytes == DecodeFrame(old(source.bytes)).rest
  {
    var size := source.ReadFull(2);
    if size.None? {
      return None;
    }
    r := source.ReadFull(Uint16(size.value));
  }

  lemma FrameRoundTrip(message: Bytes, rest: Bytes)
    requires |message| <= MAXIMUM_DNS_MESSAGE_SIZE
    ensures DecodeFrame(EncodeFrame(message) + rest) == Got(message, rest)
  {
    var b := EncodeFrame(message) + rest;
    assert b == PutUint16(|message|) + (message + rest);
    assert b[..2] == PutUint16(|message|);
    Uint16Inverse(|message|, []);
    assert b[2..] == message + rest;
    assert b[2..2 + |message|] == message && b[2 + |message|..] == rest;
  }

  lemma FrameCanonical(b: Bytes)
    requires DecodeFrame(b).Got?
    ensures |DecodeFrame(b).value| <= MAXIMUM_DNS_MESSAGE_SIZE
    ensures b == EncodeFrame(DecodeFrame(b).value) + DecodeFrame(b).rest
  {
    Uint16Inverse(0, b[..2]);
    assert b == b[..2] + (DecodeFrame(b).value + DecodeFrame(b).rest);
  }

  predicate Framable(messages: seq<Bytes>)
  {
    forall i | 0 <= i < |messages| :: |messages[i]| <= MAXIMUM_DNS_MESSAGE_SIZE
  }

  function EncodeFrames(messages: seq<Bytes>): Bytes
    requires Framable(messages)
  {
    if messages == [] then [] else EncodeFrame(messages[0]) + EncodeFrames(messages[1..])
  }

  /** Reading n frames one after the other. */
  function DecodeFrames(b: Bytes, n: nat): Decoded<seq<Bytes>>
  {
    if n == 0 then Got([], b)
    else
      match DecodeFrame(b)
      case Refused(rest) => Refused(rest)
      case Got(message, after) =>
        match DecodeFrames(after, n - 1)
        case Refused(rest) => Refused(rest)
        case Got(messages, rest) => Got([message] + messages, rest)
  }

  /** Frames written in sequence are read back in sequence, and everything
      after them is left. */
  lemma {:induction false} FramesRoundTrip(messages: seq<Bytes>, rest: Bytes)
    requires Framable(messages)
    ensures DecodeFrames(EncodeFrames(messages) + rest, |messages|) == Got(messages, rest)
  {
    if messages == [] {
      assert [] + rest == rest;
    } else {
      hide EncodeFrame, DecodeFrame;
      var after := EncodeFrames(messages[1..]) + rest;
      assert EncodeFrames(messages) + rest == EncodeFrame(messages[0]) + after;
      FrameRoundTrip(messages[0], after);
      FramesRoundTrip(messages[1..], rest);
      assert [messages[0]] + messages[1..] == messages;
    }
  }

  /** No byte string is two sequences of n frames. */
  lemma {:induction false} FramesCanonical(b: Bytes, n: nat, messages: seq<Bytes>, rest: Bytes)
    requires DecodeFrames(b, n) == Got(messages, rest)
    ensures |messages| == n && Framable(messages) && b == EncodeFrames(messages) + rest
    decreases n
  {
    hide EncodeFrame, DecodeFrame, EncodeFrames, Framable;
    if n == 0 {
      NoFrames(rest);
    } else {
      FrameCanonical(b);
      var first := DecodeFrame(b);
      var others := DecodeFrames(first.rest, n - 1).value;
      FramesCanonical(first.rest, n - 1, others, rest);
      FramesCons(first.value, others);
      assert EncodeFrame(first.value) + (EncodeFrames(others) + rest) == EncodeFrames(messages) + rest;
    }
  }

  lemma NoFrames(rest: Bytes)
    ensures Framable([]) && EncodeFrames([]) + rest == rest
  {
  }

  lemma FramesCons(first: Bytes, others: seq<Bytes>)
    requires |first| <= MAXIMUM_DNS_MESSAGE_SIZE && Framable(others)
    ensures Framable([first] + others) && EncodeFrames([first] + others) == EncodeFrame(first) + EncodeFrames(others)
  {
    hide EncodeFrame;
    assert ([first] + others)[1..] == others;
  }
}
