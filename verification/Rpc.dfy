// The request/response layer of one session epoch: what the client's request() and _on_response do
// (fastudp/client.py) and what the server's _handle_request and _finish_request do
// (fastudp/server.py), as functions of the two ends' states, down to the bytes on the wire.
module Rpc {
  import opened Common
  import opened Codec
  import opened ReplayWindows
  import opened Primitives

  // What is fixed for one epoch: the agreed session, the AEAD, the routes and the limits.
  datatype Epoch = Epoch(
    sessionId: int, key: Bytes, aead: Aead, routed: (int, Bytes) -> bool, maxStreams: int, cacheTtl: real)

  // A call of request(), identified by the stream and sequence number it drew.
  datatype Id = Id(stream: int, sequence: int)

  // The pair under which pending requests, cached responses and running handlers are filed.
  datatype ReqKey = ReqKey(stream: int, request: int)

  datatype Call = Call(requestId: int, verb: int, path: Text, body: Bytes)

  // What the caller of request() has got so far.
  datatype Outcome = Waiting | Answered(response: Response) | Failed | TimedOut

  const MAX_VERB := 5

  function WindowOf(windows: map<int, Window>, stream: int): Window {
    if stream in windows then windows[stream] else EMPTY
  }

  // ---------- packets ----------

  function RequestHeader(e: Epoch, id: Id, c: Call): Header {
    Header(MSG_REQUEST, FLAG_ENCRYPTED, e.sessionId, id.stream, id.sequence, c.requestId, |c.path|, |c.body| + TAG_SIZE, c.verb)
  }

  function RequestPacket(e: Epoch, id: Id, c: Call): Result<Bytes> {
    match PackHeader(RequestHeader(e, id, c))
    case Err(error) => Err(error)
    case Ok(header) => Ok(header + c.path + e.aead.encrypt(e.key, Nonce(id.stream, id.sequence), c.body, header + c.path))
  }

  function FrameAckHeader(e: Epoch, id: Id, requestId: int): Header {
    Header(MSG_FRAME_ACK, 0, e.sessionId, id.stream, id.sequence, requestId, 0, 0, 0)
  }

  function ReplyHeader(e: Epoch, id: Id, requestId: int, bodyLen: int): Header {
    Header(MSG_RESPONSE, FLAG_ENCRYPTED + FLAG_RESPONSE, e.sessionId, id.stream, id.sequence, requestId, 0, bodyLen, 0)
  }

  function ReplyPacket(e: Epoch, id: Id, requestId: int, r: Response): Result<Bytes> {
    match EncodeBodyPlain(r)
    case Err(error) => Err(error)
    case Ok(plain) =>
      match PackHeader(ReplyHeader(e, id, requestId, |plain| + TAG_SIZE))
      case Err(error) => Err(error)
      case Ok(header) => Ok(header + e.aead.encrypt(e.key, Nonce(id.stream, id.sequence), plain, header))
  }

  // ---------- client ----------

  datatype Stream = Stream(nextRequestId: int, nextSeq: int)

  datatype Client = Client(
    streams: map<int, Stream>,
    windows: map<int, Window>,
    pending: map<ReqKey, Id>,
    calls: map<Id, Call>,
    outcomes: map<Id, Outcome>)

  const NEW_CLIENT := Client(map[], map[], map[], map[], map[])

  // request() up to its first send: the new state, and the packet or the exception raised.
  function Begin(e: Epoch, c: Client, stream: int, verb: int, path: Text, body: Bytes): (Client, Result<Bytes>) {
    if |body| > MAX_BODY_BYTES then (c, Err(PacketTooLarge))
    else if stream !in c.streams && |c.streams| >= e.maxStreams then (c, Err(ProtocolError))
    else
      var s := if stream in c.streams then c.streams[stream] else Stream(1, 0);
      var id := Id(stream, s.nextSeq);
      var drawn := c.(streams := c.streams[stream := Stream(s.nextRequestId + 1, s.nextSeq + 1)]);
      if |path| > MAX_PATH_BYTES then (drawn, Err(PacketTooLarge))
      else
        var call := Call(s.nextRequestId, verb, path, body);
        var packet := RequestPacket(e, id, call);
        if packet.Err? then (drawn, packet)
        else (drawn.(pending := c.pending[ReqKey(stream, s.nextRequestId) := id],
                     calls := c.calls[id := call],
                     outcomes := c.outcomes[id := Waiting]), packet)
  }

  // The last timeout of request().
  function GiveUp(c: Client, id: Id): Client {
    if id in c.calls && id in c.outcomes && c.outcomes[id] == Waiting then
      c.(pending := c.pending - {ReqKey(id.stream, c.calls[id].requestId)}, outcomes := c.outcomes[id := TimedOut])
    else c
  }

  function OpenReply(e: Epoch, h: Header, body: Bytes): Result<Response> {
    match PackHeader(ReplyHeader(e, Id(h.streamId, h.sequence), h.requestId, |body|))
    case Err(error) => Err(error)
    case Ok(aad) =>
      match e.aead.decrypt(e.key, Nonce(h.streamId, h.sequence), body, aad)
      case None => Err(SecurityError)
      case Some(plain) => DecodeBodyPlain(plain)
  }

  // The part of _on_response after the window accepted the number: pop the future and resolve it.
  function Settle(e: Epoch, c: Client, h: Header, body: Bytes): Client {
    var key := ReqKey(h.streamId, h.requestId);
    if key !in c.pending then c
    else
      var id := c.pending[key];
      var popped := c.(pending := c.pending - {key});
      if id !in c.outcomes || c.outcomes[id] != Waiting then popped
      else
        var r := OpenReply(e, h, body);
        popped.(outcomes := c.outcomes[id := if r.Ok? then Answered(r.value) else Failed])
  }

  function OnResponse(e: Epoch, c: Client, h: Header, body: Bytes): Client {
    if h.sessionId != e.sessionId then c
    else
      var (window, ok) := Offer(WindowOf(c.windows, h.streamId), h.sequence);
      var c1 := c.(windows := c.windows[h.streamId := window]);
      if ok then Settle(e, c1, h, body) else c1
  }

  function ClientReceive(e: Epoch, c: Client, data: Bytes): Client {
    var d := ClientSplit(data);
    if d.Ok? && d.value.header.msgType == MSG_RESPONSE then OnResponse(e, c, d.value.header, d.value.body) else c
  }

  // ---------- server ----------

  datatype CacheEntry = CacheEntry(packet: Bytes, expiresAt: real)

  datatype Session = Session(
    windows: map<int, Window>,
    cache: map<ReqKey, CacheEntry>,
    inflight: map<ReqKey, real>)

  const NEW_SESSION := Session(map[], map[], map[])

  const INFLIGHT_TTL := 10.0

  const APPLICATION_JSON: Text :=
    AsciiText([0x61, 0x70, 0x70, 0x6C, 0x69, 0x63, 0x61, 0x74, 0x69, 0x6F, 0x6E, 0x2F, 0x6A, 0x73, 0x6F, 0x6E])

  // {"detail":"not found"}
  const NOT_FOUND_JSON: Bytes :=
    [0x7B, 0x22, 0x64, 0x65, 0x74, 0x61, 0x69, 0x6C, 0x22, 0x3A, 0x22, 0x6E, 0x6F, 0x74, 0x20, 0x66, 0x6F, 0x75, 0x6E, 0x64, 0x22, 0x7D]

  function NotFoundResponse(): Response {
    Response(404, APPLICATION_JSON, NOT_FOUND_JSON)
  }

  // What became of one REQUEST datagram; the last two carry the decrypted body.
  datatype Verdict = Resent | Replayed | EmptyPath | BadPath | Undecryptable | NotFound(body: Bytes) | Started(body: Bytes)

  datatype Handled = Handled(session: Session, sent: seq<Bytes>, verdict: Verdict)

  // Caches the response and sends it. The exceptions of packing leave the session as it was.
  function SendResponse(e: Epoch, s: Session, id: Id, requestId: int, r: Response, now: real): (Session, seq<Bytes>) {
    var key := ReqKey(id.stream, requestId);
    var packet := ReplyPacket(e, id, requestId, r);
    if packet.Err? then (s, [])
    else (s.(cache := s.cache[key := CacheEntry(packet.value, now + e.cacheTtl)], inflight := s.inflight - {key}), [packet.value])
  }

  function OpenRequest(e: Epoch, h: Header, path: Bytes, body: Bytes): Result<Bytes> {
    match PackHeader(Header(MSG_REQUEST, h.flags, e.sessionId, h.streamId, h.sequence, h.requestId, |path|, |body|, h.verb))
    case Err(error) => Err(error)
    case Ok(header) =>
      match e.aead.decrypt(e.key, Nonce(h.streamId, h.sequence), body, header + path)
      case None => Err(SecurityError)
      case Some(plain) => Ok(plain)
  }

  function HandleRequest(e: Epoch, s: Session, h: Header, path: Bytes, body: Bytes, now: real): Handled {
    var key := ReqKey(h.streamId, h.requestId);
    var id := Id(h.streamId, h.sequence);
    if key in s.cache then Handled(s, [s.cache[key].packet], Resent)
    else
      var (window, ok) := Offer(WindowOf(s.windows, h.streamId), h.sequence);
      var s1 := s.(windows := s.windows[h.streamId := window]);
      if !ok then Handled(s1, [], Replayed)
      else if path == [] then Handled(s1, [], EmptyPath)
      else if !ValidUtf8(path) then Handled(s1, [], BadPath)
      else
        var plain := OpenRequest(e, h, path, body);
        var ack := PackHeader(FrameAckHeader(e, id, h.requestId));
        if plain.Err? || ack.Err? then Handled(s1, [], Undecryptable)
        else if !e.routed(h.verb, path) then
          var (s2, sent) := SendResponse(e, s1, id, h.requestId, NotFoundResponse(), now);
          Handled(s2, [ack.value] + sent, NotFound(plain.value))
        else
          Handled(s1.(inflight := s1.inflight[key := now + INFLIGHT_TTL]), [ack.value], Started(plain.value))
  }

  // One pass of the cleanup loop over the session's tables.
  function Sweep(s: Session, now: real): Session {
    s.(cache := map k | k in s.cache && s.cache[k].expiresAt >= now :: s.cache[k],
       inflight := map k | k in s.inflight && s.inflight[k] >= now :: s.inflight[k])
  }

  // ---------- the two ends read each other's packets exactly ----------

  // Authenticated delivery: the header that the server rebuilds as associated data is the client's,
  // so it obtains the exact method, path and body.
  lemma RequestDelivered(e: Epoch, id: Id, c: Call)
    requires Sound(e.aead) && RequestPacket(e, id, c).Ok? && |c.path| <= MAX_PATH_BYTES && 0 <= c.verb <= MAX_VERB
    ensures var data := RequestPacket(e, id, c).value;
            && |data| == HEADER_SIZE + |c.path| + |c.body| + TAG_SIZE
            && (ServerSplit(data).Ok? <==> |data| <= MAX_PACKET_SIZE)
            && (ServerSplit(data).Ok? ==>
                  var d := ServerSplit(data).value;
                  && d.header == RequestHeader(e, id, c)
                  && d.path == c.path
                  && OpenRequest(e, d.header, d.path, d.body) == Ok(c.body))
  {
    hide PackHeader, ServerSplit, ClientSplit, Nonce, Packable;
    var h := RequestHeader(e, id, c);
    var header := PackHeader(h).value;
    var cipher := e.aead.encrypt(e.key, Nonce(id.stream, id.sequence), c.body, header + c.path);
    DatagramRoundTrip(h, c.path, cipher);
  }

  lemma FrameAckDelivered(e: Epoch, id: Id, requestId: int)
    requires PackHeader(FrameAckHeader(e, id, requestId)).Ok?
    ensures ClientSplit(PackHeader(FrameAckHeader(e, id, requestId)).value)
         == Ok(Datagram(FrameAckHeader(e, id, requestId), [], []))
  {
    hide PackHeader, ServerSplit, ClientSplit, Packable;
    var header := PackHeader(FrameAckHeader(e, id, requestId)).value;
    DatagramRoundTrip(FrameAckHeader(e, id, requestId), [], []);
    assert header + [] + [] == header;
  }

  // The client obtains the exact content type and payload, and the status modulo 2^16.
  lemma ReplyDelivered(e: Epoch, id: Id, requestId: int, r: Response)
    requires Sound(e.aead) && ReplyPacket(e, id, requestId, r).Ok?
    ensures var data := ReplyPacket(e, id, requestId, r).value;
            var d := ClientSplit(data);
            && d.Ok?
            && d.value.header == ReplyHeader(e, id, requestId, |d.value.body|)
            && OpenReply(e, d.value.header, d.value.body) == Ok(Truncated(r))
  {
    hide PackHeader, ServerSplit, ClientSplit, Nonce, Packable, EncodeBodyPlain, DecodeBodyPlain;
    var plain := EncodeBodyPlain(r).value;
    var h := ReplyHeader(e, id, requestId, |plain| + TAG_SIZE);
    var header := PackHeader(h).value;
    var cipher := e.aead.encrypt(e.key, Nonce(id.stream, id.sequence), plain, header);
    DatagramRoundTrip(h, [], cipher);
    assert header + [] + cipher == header + cipher;
    BodyRoundTrip(r);
  }
}
