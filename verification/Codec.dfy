// The binary formats of fastudp/codec.py: header, nonce, response body, handshake bodies, tickets.
module Codec {
  import opened Common

  const MAGIC: Bytes := [0x46, 0x55, 0x44, 0x50] // "FUDP"
  const VERSION := 2
  const HEADER_SIZE := 34
  const MAX_PACKET_SIZE := 4096
  const MAX_PATH_BYTES := 512
  const MAX_BODY_BYTES := 1024 * 1024
  const MAX_CLIENT_ID_BYTES := 128
  const MAX_TICKET_BYTES := 512

  const MSG_HELLO := 1
  const MSG_CHALLENGE := 2
  const MSG_PROVE := 3
  const MSG_ACK := 4
  const MSG_REQUEST := 5
  const MSG_RESPONSE := 6
  const MSG_PING := 8
  const MSG_FRAME_ACK := 10
  const MSG_PATH_CHALLENGE := 11
  const MSG_PATH_RESPONSE := 12
  const MSG_CLOSE := 13

  const FLAG_ENCRYPTED := 1
  const FLAG_RESPONSE := 2

  // ---------- header ----------

  datatype Header = Header(
    msgType: int, flags: int, sessionId: int, streamId: int, sequence: int, requestId: int,
    pathLen: int, bodyLen: int, verb: int)

  predicate Fits(n: int, width: nat) {
    0 <= n < Pow256(width)
  }

  // struct.pack accepts the header: every number fits its field. The low bytes of method and
  // flags share one 16-bit field.
  predicate Packable(h: Header) {
    && Fits(h.msgType, 1) && Fits(h.sessionId, 8) && Fits(h.streamId, 4) && Fits(h.sequence, 4)
    && Fits(h.requestId, 4) && Fits(h.pathLen, 2) && Fits(h.bodyLen, 4)
  }

  function PackHeader(h: Header): (r: Result<Bytes>)
    ensures r.Ok? <==> Packable(h)
    ensures r.Ok? ==> |r.value| == HEADER_SIZE
  {
    if !Packable(h) then Err(OverflowError)
    else
      var combinedFlags := (h.verb % 256) * 256 + h.flags % 256;
      Ok(MAGIC + [VERSION as byte] + BE(h.msgType, 1) + BE(combinedFlags, 2) + BE(h.sessionId, 8) + BE(h.streamId, 4)
         + BE(h.sequence, 4) + BE(h.requestId, 4) + BE(h.pathLen, 2) + BE(h.bodyLen, 4))
  }

  function UnpackHeader(data: Bytes): (r: Result<Header>) {
    if |data| < HEADER_SIZE then Err(PacketTooLarge)
    else if data[0..4] != MAGIC || data[4] as int != VERSION then Err(ProtocolError)
    else
      var combinedFlags := FromBE(data[6..8]);
      Ok(Header(
        FromBE(data[5..6]),
        combinedFlags % 256,
        FromBE(data[8..16]),
        FromBE(data[16..20]),
        FromBE(data[20..24]),
        FromBE(data[24..28]),
        FromBE(data[28..30]),
        FromBE(data[30..34]),
        (combinedFlags / 256) % 256))
  }

  // What survives the wire: method and flags keep their low byte.
  function OnWire(h: Header): Header {
    h.(verb := h.verb % 256, flags := h.flags % 256)
  }

  lemma HeaderRoundTrip(h: Header, rest: Bytes)
    requires Packable(h)
    ensures UnpackHeader(PackHeader(h).value + rest) == Ok(OnWire(h))
  {
    FieldWidths();
    var data := PackHeader(h).value + rest;
    var combinedFlags := (h.verb % 256) * 256 + h.flags % 256;
    assert data[0..4] == MAGIC;
    assert data[5..6] == BE(h.msgType, 1);
    assert data[6..8] == BE(combinedFlags, 2);
    assert data[8..16] == BE(h.sessionId, 8);
    assert data[16..20] == BE(h.streamId, 4);
    assert data[20..24] == BE(h.sequence, 4);
    assert data[24..28] == BE(h.requestId, 4);
    assert data[28..30] == BE(h.pathLen, 2);
    assert data[30..34] == BE(h.bodyLen, 4);
    FromBEOfBE(h.msgType, 1);
    FromBEOfBE(combinedFlags, 2);
    FromBEOfBE(h.sessionId, 8);
    FromBEOfBE(h.streamId, 4);
    FromBEOfBE(h.sequence, 4);
    FromBEOfBE(h.requestId, 4);
    FromBEOfBE(h.pathLen, 2);
    FromBEOfBE(h.bodyLen, 4);
  }

  // Re-packing whatever a receiver unpacked gives back the sender's 34 bytes, so the associated
  // data that a receiver rebuilds is the sender's, bit for bit.
  lemma HeaderRebuild(data: Bytes)
    requires UnpackHeader(data).Ok?
    ensures PackHeader(UnpackHeader(data).value) == Ok(data[..HEADER_SIZE])
  {
    FieldWidths();
    BEOfFromBE(data[5..6]);
    BEOfFromBE(data[6..8]);
    BEOfFromBE(data[8..16]);
    BEOfFromBE(data[16..20]);
    BEOfFromBE(data[20..24]);
    BEOfFromBE(data[24..28]);
    BEOfFromBE(data[28..30]);
    BEOfFromBE(data[30..34]);
    var combinedFlags := FromBE(data[6..8]);
    assert combinedFlags / 256 < 256;
    assert (combinedFlags / 256) % 256 * 256 + combinedFlags % 256 == combinedFlags;
    assert data[..HEADER_SIZE] == data[0..4] + [data[4]] + data[5..6] + data[6..8] + data[8..16] + data[16..20]
                                  + data[20..24] + data[24..28] + data[28..30] + data[30..34];
  }

  // ---------- datagrams ----------

  datatype Datagram = Datagram(header: Header, path: Bytes, body: Bytes)

  function Split(data: Bytes, h: Header): Result<Datagram>
    requires h.pathLen >= 0 && h.bodyLen >= 0
  {
    var bodyAt := HEADER_SIZE + h.pathLen;
    if |data| < bodyAt + h.bodyLen then Err(ProtocolError)
    else Ok(Datagram(h, data[HEADER_SIZE..bodyAt], data[bodyAt..bodyAt + h.bodyLen]))
  }

  // The client's checks before it dispatches a datagram.
  function ClientSplit(data: Bytes): Result<Datagram> {
    match UnpackHeader(data)
    case Err(error) => Err(error)
    case Ok(h) => Split(data, h)
  }

  // The server's checks before it dispatches a datagram.
  function ServerSplit(data: Bytes): Result<Datagram> {
    if |data| < HEADER_SIZE || |data| > MAX_PACKET_SIZE then Err(PacketTooLarge)
    else
      match UnpackHeader(data)
      case Err(error) => Err(error)
      case Ok(h) => if h.pathLen > MAX_PATH_BYTES || h.bodyLen > MAX_BODY_BYTES then Err(PacketTooLarge) else Split(data, h)
  }

  // Both ends read back what was sent, except that the server refuses datagrams over its limits.
  lemma DatagramRoundTrip(h: Header, path: Bytes, body: Bytes)
    requires Packable(h) && h.pathLen == |path| && h.bodyLen == |body|
    ensures var data := PackHeader(h).value + path + body;
            && ClientSplit(data) == Ok(Datagram(OnWire(h), path, body))
            && (ServerSplit(data).Ok? <==> |path| <= MAX_PATH_BYTES && |data| <= MAX_PACKET_SIZE)
            && (ServerSplit(data).Ok? ==> ServerSplit(data) == ClientSplit(data))
  {
    hide UnpackHeader;
    var data := PackHeader(h).value + path + body;
    HeaderRoundTrip(h, path + body);
    assert data == PackHeader(h).value + (path + body);
    assert data[HEADER_SIZE..HEADER_SIZE + |path|] == path;
    assert data[HEADER_SIZE + |path|..HEADER_SIZE + |path| + |body|] == body;
  }

  // ---------- nonce ----------

  function Nonce(streamId: int, sequence: int): (n: Bytes)
    ensures |n| == 12
  {
    BE(streamId % 0x1_0000_0000, 4) + BE(sequence % 0x1_0000_0000_0000_0000, 8)
  }

  lemma NonceParts(streamId: int, sequence: int)
    requires Fits(streamId, 4) && Fits(sequence, 4)
    ensures FromBE(Nonce(streamId, sequence)[..4]) == streamId
    ensures FromBE(Nonce(streamId, sequence)[4..]) == sequence
  {
    hide BE, FromBE;
    FieldWidths();
    assert Nonce(streamId, sequence)[..4] == BE(streamId, 4);
    assert Nonce(streamId, sequence)[4..] == BE(sequence, 8);
    FromBEOfBE(streamId, 4);
    FromBEOfBE(sequence, 8);
  }

  lemma NonceInjective(streamA: int, sequenceA: int, streamB: int, sequenceB: int)
    requires Fits(streamA, 4) && Fits(sequenceA, 4) && Fits(streamB, 4) && Fits(sequenceB, 4)
    ensures Nonce(streamA, sequenceA) == Nonce(streamB, sequenceB) ==> streamA == streamB && sequenceA == sequenceB
  {
    NonceParts(streamA, sequenceA);
    NonceParts(streamB, sequenceB);
  }

  // ---------- response body ----------

  datatype Response = Response(status: int, contentType: Text, body: Bytes)

  function EncodeBodyPlain(r: Response): (e: Result<Bytes>)
    ensures e.Ok? <==> |r.contentType| <= 65535
    ensures e.Ok? ==> |e.value| == 4 + |r.contentType| + |r.body|
  {
    if |r.contentType| > 65535 then Err(PacketTooLarge)
    else Ok(BE(r.status % 0x1_0000, 2) + BE(|r.contentType|, 2) + r.contentType + r.body)
  }

  function DecodeBodyPlain(b: Bytes): Result<Response> {
    if |b| < 4 then Err(ProtocolError)
    else
      var bodyAt := 4 + FromBE(b[2..4]);
      if |b| < bodyAt then Err(ProtocolError)
      else if !ValidUtf8(b[4..bodyAt]) then Err(UnicodeError)
      else Ok(Response(FromBE(b[0..2]), b[4..bodyAt], b[bodyAt..]))
  }

  // A status outside 16 bits arrives truncated; nothing else changes.
  function Truncated(r: Response): Response {
    r.(status := r.status % 0x1_0000)
  }

  lemma BodyRoundTrip(r: Response)
    requires |r.contentType| <= 65535
    ensures DecodeBodyPlain(EncodeBodyPlain(r).value) == Ok(Truncated(r))
  {
    FieldWidths();
    var b := EncodeBodyPlain(r).value;
    assert b[0..2] == BE(r.status % 0x1_0000, 2);
    assert b[2..4] == BE(|r.contentType|, 2);
    FromBEOfBE(r.status % 0x1_0000, 2);
    FromBEOfBE(|r.contentType|, 2);
    assert b[4..4 + |r.contentType|] == r.contentType;
    assert b[4 + |r.contentType|..] == r.body;
  }

  // ---------- the layout shared by the handshake bodies ----------

  const MAC_SIZE := 32

  // head | 2-byte length | client id | middle | 2-byte length | variable part | mac
  datatype Frame = Frame(head: Bytes, clientId: Text, middle: Bytes, variable: Bytes, mac: Bytes)

  function Layout(f: Frame): (b: Bytes)
    ensures |b| == |f.head| + 2 + |f.clientId| + |f.middle| + 2 + |f.variable| + |f.mac|
  {
    f.head + BE(|f.clientId|, 2) + f.clientId + f.middle + BE(|f.variable|, 2) + f.variable + f.mac
  }

  // The decoders' shared checks, in their order, around a cursor into the body.
  function DecodeFrame(body: Bytes, headLen: nat, middleLen: nat): (r: Result<Frame>)
    ensures r.Ok? ==> |r.value.head| == headLen && |r.value.middle| == middleLen && |r.value.mac| == MAC_SIZE
    ensures r.Ok? ==> 0 < |r.value.clientId| <= MAX_CLIENT_ID_BYTES && |r.value.variable| <= 65535
  {
    if |body| < headLen + 2 + middleLen + 2 + MAC_SIZE then Err(SecurityError)
    else
      var offset := headLen + 2;
      var nameLen := FromBE(body[headLen..offset]);
      if nameLen == 0 || nameLen > MAX_CLIENT_ID_BYTES then Err(SecurityError)
      else if |body| < offset + nameLen + middleLen + 2 + MAC_SIZE then Err(SecurityError)
      else
        var middleAt := offset + nameLen;
        if !ValidUtf8(body[offset..middleAt]) then Err(UnicodeError)
        else
          var lengthAt := middleAt + middleLen;
          var variableAt := lengthAt + 2;
          var macAt := variableAt + FromBE(body[lengthAt..variableAt]);
          if |body| < macAt + MAC_SIZE then Err(SecurityError)
          else
            TwoByteLength(body[lengthAt..variableAt]);
            Ok(Frame(body[..headLen], body[offset..middleAt], body[middleAt..lengthAt], body[variableAt..macAt],
                     body[macAt..macAt + MAC_SIZE]))
  }

  lemma TwoByteLength(b: Bytes)
    requires |b| == 2
    ensures FromBE(b) <= 65535
  {
    FieldWidths();
    BEOfFromBE(b);
  }

  // Where the seven pieces of a layout lie.
  lemma Pieces(a: Bytes, b: Bytes, c: Bytes, d: Bytes, e: Bytes, f: Bytes, g: Bytes, suffix: Bytes)
    ensures var s := a + b + c + d + e + f + g + suffix;
            var atC := |a| + |b|;
            var atD := atC + |c|;
            var atE := atD + |d|;
            var atF := atE + |e|;
            var atG := atF + |f|;
            && s[..|a|] == a && s[|a|..atC] == b && s[atC..atD] == c && s[atD..atE] == d
            && s[atE..atF] == e && s[atF..atG] == f && s[atG..atG + |g|] == g
  {
  }

  lemma FrameRoundTrip(f: Frame, suffix: Bytes)
    requires 0 < |f.clientId| <= MAX_CLIENT_ID_BYTES && |f.variable| <= 65535 && |f.mac| == MAC_SIZE
    ensures DecodeFrame(Layout(f) + suffix, |f.head|, |f.middle|) == Ok(f)
  {
    hide BE, FromBE, ValidUtf8;
    FieldWidths();
    FromBEOfBE(|f.clientId|, 2);
    FromBEOfBE(|f.variable|, 2);
    Pieces(f.head, BE(|f.clientId|, 2), f.clientId, f.middle, BE(|f.variable|, 2), f.variable, f.mac, suffix);
  }

  // Where a decoder found the pieces.
  lemma DecodedPieces(body: Bytes, headLen: nat, middleLen: nat)
    requires DecodeFrame(body, headLen, middleLen).Ok?
    ensures var f := DecodeFrame(body, headLen, middleLen).value;
            var offset := headLen + 2;
            var middleAt := offset + |f.clientId|;
            var lengthAt := middleAt + middleLen;
            var variableAt := lengthAt + 2;
            var macAt := variableAt + |f.variable|;
            && macAt + MAC_SIZE <= |body|
            && FromBE(body[headLen..offset]) == |f.clientId| && FromBE(body[lengthAt..variableAt]) == |f.variable|
            && f == Frame(body[..headLen], body[offset..middleAt], body[middleAt..lengthAt], body[variableAt..macAt],
                          body[macAt..macAt + MAC_SIZE])
  {
  }

  // Whatever a decoder reads, laid out again, is the prefix of the body that it consumed.
  lemma FrameRebuild(body: Bytes, headLen: nat, middleLen: nat)
    requires DecodeFrame(body, headLen, middleLen).Ok?
    ensures Layout(DecodeFrame(body, headLen, middleLen).value) <= body
  {
    hide DecodeFrame, ValidUtf8, FromBE, BE;
    DecodedPieces(body, headLen, middleLen);
    var f := DecodeFrame(body, headLen, middleLen).value;
    var offset := headLen + 2;
    var middleAt := offset + |f.clientId|;
    var lengthAt := middleAt + middleLen;
    var variableAt := lengthAt + 2;
    var macAt := variableAt + |f.variable|;
    BEOfFromBE(body[headLen..offset]);
    BEOfFromBE(body[lengthAt..variableAt]);
    Reassembled(body, headLen, offset, middleAt, lengthAt, variableAt, macAt, macAt + MAC_SIZE);
    assert Layout(f) == body[..macAt + MAC_SIZE];
  }

  // Adjacent slices put together are a prefix.
  lemma Reassembled(s: Bytes, a: nat, b: nat, c: nat, d: nat, e: nat, f: nat, g: nat)
    requires a <= b <= c <= d <= e <= f <= g <= |s|
    ensures s[..a] + s[a..b] + s[b..c] + s[c..d] + s[d..e] + s[e..f] + s[f..g] == s[..g]
  {
  }

  // ---------- handshake bodies ----------

  datatype Hello = Hello(clientId: Text, cnonce: Bytes, ts: int, ticket: Bytes, mac: Bytes)
  datatype Challenge = Challenge(clientId: Text, cnonce: Bytes, snonce: Bytes, cookie: Bytes, ts: int, mac: Bytes)
  datatype Ack = Ack(sessionId: int, clientId: Text, cnonce: Bytes, snonce: Bytes, ts: int, ticket: Bytes, mac: Bytes)

  function EncodeHello(m: Hello): (r: Result<Bytes>)
    ensures r.Ok? <==> |m.clientId| <= MAX_CLIENT_ID_BYTES && |m.ticket| <= MAX_TICKET_BYTES && Fits(m.ts, 8)
    ensures r.Ok? ==> |r.value| == 12 + |m.clientId| + |m.cnonce| + |m.ticket| + |m.mac|
  {
    if |m.clientId| > MAX_CLIENT_ID_BYTES || |m.ticket| > MAX_TICKET_BYTES then Err(SecurityError)
    else if !Fits(m.ts, 8) then Err(OverflowError)
    else Ok(Layout(Frame([], m.clientId, BE(m.ts, 8) + m.cnonce, m.ticket, m.mac)))
  }

  function DecodeHello(body: Bytes): (r: Result<Hello>) {
    match DecodeFrame(body, 0, 24)
    case Err(error) => Err(error)
    case Ok(f) => Ok(Hello(f.clientId, f.middle[8..24], FromBE(f.middle[..8]), f.variable, f.mac))
  }

  // CHALLENGE and PROVE bodies have one layout and one set of checks.
  function EncodeChallenge(m: Challenge): (r: Result<Bytes>)
    ensures r.Ok? <==> |m.clientId| <= MAX_CLIENT_ID_BYTES && |m.cookie| <= 65535 && Fits(m.ts, 8)
    ensures r.Ok? ==> |r.value| == 12 + |m.clientId| + |m.cnonce| + |m.snonce| + |m.cookie| + |m.mac|
  {
    if |m.clientId| > MAX_CLIENT_ID_BYTES || |m.cookie| > 65535 then Err(SecurityError)
    else if !Fits(m.ts, 8) then Err(OverflowError)
    else Ok(Layout(Frame([], m.clientId, BE(m.ts, 8) + m.cnonce + m.snonce, m.cookie, m.mac)))
  }

  function DecodeChallenge(body: Bytes): (r: Result<Challenge>) {
    match DecodeFrame(body, 0, 40)
    case Err(error) => Err(error)
    case Ok(f) => Ok(Challenge(f.clientId, f.middle[8..24], f.middle[24..40], f.variable, FromBE(f.middle[..8]), f.mac))
  }

  function EncodeAck(m: Ack): (r: Result<Bytes>)
    ensures r.Ok? <==> |m.clientId| <= MAX_CLIENT_ID_BYTES && |m.ticket| <= MAX_TICKET_BYTES
                       && Fits(m.sessionId, 8) && Fits(m.ts, 8)
    ensures r.Ok? ==> |r.value| == 20 + |m.clientId| + |m.cnonce| + |m.snonce| + |m.ticket| + |m.mac|
  {
    if |m.clientId| > MAX_CLIENT_ID_BYTES || |m.ticket| > MAX_TICKET_BYTES then Err(SecurityError)
    else if !Fits(m.sessionId, 8) || !Fits(m.ts, 8) then Err(OverflowError)
    else Ok(Layout(Frame(BE(m.sessionId, 8), m.clientId, BE(m.ts, 8) + m.cnonce + m.snonce, m.ticket, m.mac)))
  }

  function DecodeAck(body: Bytes): (r: Result<Ack>) {
    match DecodeFrame(body, 8, 40)
    case Err(error) => Err(error)
    case Ok(f) => Ok(Ack(FromBE(f.head), f.clientId, f.middle[8..24], f.middle[24..40], FromBE(f.middle[..8]), f.variable, f.mac))
  }

  // Fields of the sizes the protocol uses: a non-empty client id, 16-byte nonces, a 32-byte mac.
  predicate Sized(clientId: Text, nonces: seq<Bytes>, mac: Bytes) {
    && 0 < |clientId|
    && (forall n | n in nonces :: |n| == 16)
    && |mac| == MAC_SIZE
  }

  lemma HelloRoundTrip(m: Hello, suffix: Bytes)
    requires Sized(m.clientId, [m.cnonce], m.mac) && EncodeHello(m).Ok?
    ensures DecodeHello(EncodeHello(m).value + suffix) == Ok(m)
  {
    assert m.cnonce in [m.cnonce];
    hide DecodeFrame, Layout, BE, FromBE;
    var f := Frame([], m.clientId, BE(m.ts, 8) + m.cnonce, m.ticket, m.mac);
    FrameRoundTrip(f, suffix);
    FromBEOfBE(m.ts, 8);
    assert f.middle[..8] == BE(m.ts, 8) && f.middle[8..24] == m.cnonce;
  }

  lemma ChallengeRoundTrip(m: Challenge, suffix: Bytes)
    requires Sized(m.clientId, [m.cnonce, m.snonce], m.mac) && EncodeChallenge(m).Ok?
    ensures DecodeChallenge(EncodeChallenge(m).value + suffix) == Ok(m)
  {
    assert m.cnonce in [m.cnonce, m.snonce] && m.snonce in [m.cnonce, m.snonce];
    hide DecodeFrame, Layout, BE, FromBE;
    var f := Frame([], m.clientId, BE(m.ts, 8) + m.cnonce + m.snonce, m.cookie, m.mac);
    FrameRoundTrip(f, suffix);
    FromBEOfBE(m.ts, 8);
    assert f.middle[..8] == BE(m.ts, 8) && f.middle[8..24] == m.cnonce && f.middle[24..40] == m.snonce;
  }

  lemma AckRoundTrip(m: Ack, suffix: Bytes)
    requires Sized(m.clientId, [m.cnonce, m.snonce], m.mac) && EncodeAck(m).Ok?
    ensures DecodeAck(EncodeAck(m).value + suffix) == Ok(m)
  {
    assert m.cnonce in [m.cnonce, m.snonce] && m.snonce in [m.cnonce, m.snonce];
    hide DecodeFrame, Layout, BE, FromBE;
    var f := Frame(BE(m.sessionId, 8), m.clientId, BE(m.ts, 8) + m.cnonce + m.snonce, m.ticket, m.mac);
    FrameRoundTrip(f, suffix);
    FromBEOfBE(m.ts, 8);
    FromBEOfBE(m.sessionId, 8);
    assert f.middle[..8] == BE(m.ts, 8) && f.middle[8..24] == m.cnonce && f.middle[24..40] == m.snonce;
  }

  // No encoded body is a prefix of a different one.
  lemma HelloPrefixFree(a: Hello, b: Hello, suffix: Bytes)
    requires Sized(a.clientId, [a.cnonce], a.mac) && EncodeHello(a).Ok?
    requires Sized(b.clientId, [b.cnonce], b.mac) && EncodeHello(b).Ok?
    requires EncodeHello(b).value == EncodeHello(a).value + suffix
    ensures a == b
  {
    HelloRoundTrip(a, suffix);
    HelloRoundTrip(b, []);
    assert EncodeHello(b).value + [] == EncodeHello(b).value;
  }

  lemma ChallengePrefixFree(a: Challenge, b: Challenge, suffix: Bytes)
    requires Sized(a.clientId, [a.cnonce, a.snonce], a.mac) && EncodeChallenge(a).Ok?
    requires Sized(b.clientId, [b.cnonce, b.snonce], b.mac) && EncodeChallenge(b).Ok?
    requires EncodeChallenge(b).value == EncodeChallenge(a).value + suffix
    ensures a == b
  {
    ChallengeRoundTrip(a, suffix);
    ChallengeRoundTrip(b, []);
    assert EncodeChallenge(b).value + [] == EncodeChallenge(b).value;
  }

  lemma AckPrefixFree(a: Ack, b: Ack, suffix: Bytes)
    requires Sized(a.clientId, [a.cnonce, a.snonce], a.mac) && EncodeAck(a).Ok?
    requires Sized(b.clientId, [b.cnonce, b.snonce], b.mac) && EncodeAck(b).Ok?
    requires EncodeAck(b).value == EncodeAck(a).value + suffix
    ensures a == b
  {
    AckRoundTrip(a, suffix);
    AckRoundTrip(b, []);
    assert EncodeAck(b).value + [] == EncodeAck(b).value;
  }

  // A decoded body, encoded again, is the part of the input that the decoder consumed.
  lemma HelloRebuild(body: Bytes)
    requires DecodeHello(body).Ok?
    ensures var r := EncodeHello(DecodeHello(body).value);
            && (r.Ok? <==> |DecodeHello(body).value.ticket| <= MAX_TICKET_BYTES)
            && (r.Ok? ==> r.value <= body)
  {
    hide DecodeFrame, Layout, BE, FromBE;
    var f := DecodeFrame(body, 0, 24).value;
    BEOfFromBE(f.middle[..8]);
    assert f.middle == f.middle[..8] + f.middle[8..24];
    assert f.head == [];
    FrameRebuild(body, 0, 24);
  }

  lemma ChallengeRebuild(body: Bytes)
    requires DecodeChallenge(body).Ok?
    ensures var r := EncodeChallenge(DecodeChallenge(body).value);
            r.Ok? && r.value <= body
  {
    hide DecodeFrame, Layout, BE, FromBE;
    var f := DecodeFrame(body, 0, 40).value;
    BEOfFromBE(f.middle[..8]);
    InThree(f.middle);
    assert f.head == [];
    FrameRebuild(body, 0, 40);
  }

  lemma AckRebuild(body: Bytes)
    requires DecodeAck(body).Ok?
    ensures var r := EncodeAck(DecodeAck(body).value);
            && (r.Ok? <==> |DecodeAck(body).value.ticket| <= MAX_TICKET_BYTES)
            && (r.Ok? ==> r.value <= body)
  {
    hide DecodeFrame, Layout, BE, FromBE;
    var f := DecodeFrame(body, 8, 40).value;
    BEOfFromBE(f.middle[..8]);
    BEOfFromBE(f.head);
    InThree(f.middle);
    FrameRebuild(body, 8, 40);
  }

  lemma InThree(middle: Bytes)
    requires |middle| == 40
    ensures middle[..8] + middle[8..24] + middle[24..40] == middle
  {
  }

  // ---------- resumption tickets ----------

  datatype TicketPayload = TicketPayload(sessionId: int, issuedAt: int, expiresAt: int, clientId: Text, sessionKey: Bytes)

  function EncodeTicketPayload(p: TicketPayload): (r: Result<Bytes>)
    ensures r.Ok? <==> |p.clientId| <= MAX_CLIENT_ID_BYTES && |p.sessionKey| == 32
                       && Fits(p.sessionId, 8) && Fits(p.issuedAt, 8) && Fits(p.expiresAt, 8)
    ensures r.Ok? ==> |r.value| == 58 + |p.clientId|
  {
    if |p.clientId| > MAX_CLIENT_ID_BYTES || |p.sessionKey| != 32 then Err(SecurityError)
    else if !Fits(p.sessionId, 8) || !Fits(p.issuedAt, 8) || !Fits(p.expiresAt, 8) then Err(OverflowError)
    else
      Ok(BE(p.sessionId, 8) + BE(p.issuedAt, 8) + BE(p.expiresAt, 8) + BE(|p.clientId|, 2) + p.clientId + p.sessionKey)
  }

  function DecodeTicketPayload(b: Bytes): (r: Result<TicketPayload>) {
    if |b| < 58 then Err(SecurityError)
    else
      var keyAt := 26 + FromBE(b[24..26]);
      if keyAt == 26 || keyAt > 26 + MAX_CLIENT_ID_BYTES || |b| < keyAt + 32 then Err(SecurityError)
      else if !ValidUtf8(b[26..keyAt]) then Err(UnicodeError)
      else Ok(TicketPayload(FromBE(b[0..8]), FromBE(b[8..16]), FromBE(b[16..24]), b[26..keyAt], b[keyAt..keyAt + 32]))
  }

  lemma TicketRoundTrip(p: TicketPayload, suffix: Bytes)
    requires EncodeTicketPayload(p).Ok? && |p.clientId| > 0
    ensures DecodeTicketPayload(EncodeTicketPayload(p).value + suffix) == Ok(p)
  {
    FieldWidths();
    var b := EncodeTicketPayload(p).value + suffix;
    var n := |p.clientId|;
    assert b[0..8] == BE(p.sessionId, 8);
    assert b[8..16] == BE(p.issuedAt, 8);
    assert b[16..24] == BE(p.expiresAt, 8);
    assert b[24..26] == BE(n, 2);
    assert b[26..26 + n] == p.clientId;
    assert b[26 + n..26 + n + 32] == p.sessionKey;
    FromBEOfBE(p.sessionId, 8);
    FromBEOfBE(p.issuedAt, 8);
    FromBEOfBE(p.expiresAt, 8);
    FromBEOfBE(n, 2);
  }

  lemma TicketPrefixFree(a: TicketPayload, b: TicketPayload, suffix: Bytes)
    requires EncodeTicketPayload(a).Ok? && |a.clientId| > 0 && EncodeTicketPayload(b).Ok? && |b.clientId| > 0
    requires EncodeTicketPayload(b).value == EncodeTicketPayload(a).value + suffix
    ensures a == b
  {
    hide EncodeTicketPayload, DecodeTicketPayload;
    TicketRoundTrip(a, suffix);
    TicketRoundTrip(b, []);
    assert EncodeTicketPayload(b).value + [] == EncodeTicketPayload(b).value;
  }

  lemma TicketRebuild(b: Bytes)
    requires DecodeTicketPayload(b).Ok?
    ensures var r := EncodeTicketPayload(DecodeTicketPayload(b).value);
            r.Ok? && r.value <= b
  {
    hide BE, FromBE, ValidUtf8;
    var p := DecodeTicketPayload(b).value;
    var keyAt := 26 + |p.clientId|;
    BEOfFromBE(b[0..8]);
    BEOfFromBE(b[8..16]);
    BEOfFromBE(b[16..24]);
    BEOfFromBE(b[24..26]);
    Reassembled(b, 8, 16, 24, 26, keyAt, keyAt + 32, keyAt + 32);
    assert b[..8] == b[0..8];
    assert EncodeTicketPayload(p).value == b[..keyAt + 32];
  }
}
