// What request(), _on_response and _handle_request do with every input, in numbers and raw bytes.
module RpcRequests {
  import opened Common
  import opened Codec
  import opened ReplayWindows
  import opened Primitives
  import opened Rpc
  import opened RpcSystem
  import opened RpcSafety
  import opened RpcTheorems
  import opened RpcNonces
  import opened RpcCompletion

  // ---------- request() ----------

  // The request id and sequence number that a stream gives out next.
  function Next(c: Client, stream: int): Stream {
    if stream in c.streams then c.streams[stream] else Stream(1, 0)
  }

  // The stream is known, or there is room for it.
  predicate HasRoom(e: Epoch, c: Client, stream: int) {
    stream in c.streams || |c.streams| < e.maxStreams
  }

  // The numbers of the header fit 8, 4, 4 and 4 bytes.
  predicate NumbersFit(e: Epoch, c: Client, stream: int) {
    && 0 <= e.sessionId < 0x1_0000_0000_0000_0000 && 0 <= stream < 0x1_0000_0000
    && 0 <= Next(c, stream).nextSeq < 0x1_0000_0000 && 0 <= Next(c, stream).nextRequestId < 0x1_0000_0000
  }

  // A request is sent exactly if its body has at most a mebibyte, its path at most 512 bytes, its stream
  // is known or has room, and the header's numbers fit. The refusals come in that order, and only the
  // last two use up the numbers.
  lemma RequestSentIff(e: Epoch, c: Client, stream: int, verb: int, path: Text, body: Bytes)
    ensures var (c', packet) := Begin(e, c, stream, verb, path, body);
            var n := Next(c, stream);
            var drawn := c.(streams := c.streams[stream := Stream(n.nextRequestId + 1, n.nextSeq + 1)]);
            && (packet.Ok? <==> |body| <= 1048576 && |path| <= 512 && HasRoom(e, c, stream) && NumbersFit(e, c, stream))
            && (|body| > 1048576 ==> c' == c && packet == Err(PacketTooLarge))
            && (|body| <= 1048576 && !HasRoom(e, c, stream) ==> c' == c && packet == Err(ProtocolError))
            && (|body| <= 1048576 && HasRoom(e, c, stream) && |path| > 512 ==> c' == drawn && packet == Err(PacketTooLarge))
            && (|body| <= 1048576 && HasRoom(e, c, stream) && |path| <= 512 && !NumbersFit(e, c, stream) ==>
                  c' == drawn && packet == Err(OverflowError))
            && (packet.Ok? ==>
                  var id := Id(stream, n.nextSeq);
                  c' == drawn.(pending := c.pending[ReqKey(stream, n.nextRequestId) := id],
                               calls := c.calls[id := Call(n.nextRequestId, verb, path, body)],
                               outcomes := c.outcomes[id := Waiting]))
  {
    hide Nonce;
    FieldWidths();
  }

  predicate MaySend(e: Epoch, c: Client, stream: int, path: Text, body: Bytes) {
    |body| <= 1048576 && |path| <= 512 && HasRoom(e, c, stream) && NumbersFit(e, c, stream)
  }

  // The packet carries the call: a server that gets it reads this method, path and body.
  predicate Carries(e: Epoch, packet: Bytes, id: Id, c: Call) {
    && |packet| == 50 + |c.path| + |c.body|
    && (|packet| <= 4096 ==>
          && ServerSplit(packet).Ok?
          && var d := ServerSplit(packet).value;
             && d.header.msgType == MSG_REQUEST && d.header.sessionId == e.sessionId
             && Id(d.header.streamId, d.header.sequence) == id && d.header.requestId == c.requestId && d.header.verb == c.verb
             && d.path == c.path && OpenRequest(e, d.header, d.path, d.body) == Ok(c.body))
  }

  // Over runs: in every reachable state a request that may be sent puts a packet that carries it into
  // the network and waits; one that may not sends nothing, and nobody waits for it.
  lemma RequestSends(e: Epoch, steps: seq<Step>, stream: int, verb: int, path: Text, body: Bytes)
    requires Admissible(e) && 0 <= verb <= MAX_VERB
    ensures var s := Run(e, steps);
            var s' := Run(e, steps + [Request(stream, verb, path, body)]);
            var n := Next(s.client, stream);
            var id := Id(stream, n.nextSeq);
            if MaySend(e, s.client, stream, path, body) then
              && id !in s.client.calls && Waits(s', id) && s'.client.calls[id] == Call(n.nextSeq + 1, verb, path, body)
              && exists packet | packet in s'.toServer :: Carries(e, packet, id, s'.client.calls[id])
            else s'.toServer == s.toServer && s'.client.outcomes == s.client.outcomes && s'.client.pending == s.client.pending
  {
    hide Inv, Run, Begin, Apply, RequestPacket, ServerSplit, Sound;
    var s := Run(e, steps);
    Reachable(e, steps);
    OneMore(e, steps, Request(stream, verb, path, body));
    RequestSentIff(e, s.client, stream, verb, path, body);
    NewNumber(e, s, stream);
    StreamNumbers(e, s, stream);
    RequestApplied(e, s, stream, verb, path, body);
    if MaySend(e, s.client, stream, path, body) {
      var id := Id(stream, Next(s.client, stream).nextSeq);
      var call := Call(Next(s.client, stream).nextRequestId, verb, path, body);
      RequestDelivered(e, id, call);
      assert Carries(e, RequestPacket(e, id, call).value, id, call);
    }
  }

  lemma RequestApplied(e: Epoch, s: System, stream: int, verb: int, path: Text, body: Bytes)
    requires 0 <= verb <= MAX_VERB
    ensures var (client, packet) := Begin(e, s.client, stream, verb, path, body);
            Apply(e, s, Request(stream, verb, path, body))
            == s.(client := client, toServer := if packet.Ok? then s.toServer + {packet.value} else s.toServer)
    ensures var n := Next(s.client, stream);
            Begin(e, s.client, stream, verb, path, body).1.Ok? ==>
              Begin(e, s.client, stream, verb, path, body).1
              == RequestPacket(e, Id(stream, n.nextSeq), Call(n.nextRequestId, verb, path, body))
  {
    hide RequestPacket, ServerReceive, ClientReceive, FinishTask, Sweep, GiveUp;
  }

  // And it can be answered: from every reachable state with the session in place, a request that may be
  // sent, has a path and fits a datagram is resolved by some continuation.
  lemma RequestCanComplete(e: Epoch, steps: seq<Step>, stream: int, verb: int, path: Text, body: Bytes) returns (more: seq<Step>)
    requires Admissible(e) && 0 <= verb <= MAX_VERB && path != [] && 50 + |path| + |body| <= 4096
    requires MaySend(e, Run(e, steps).client, stream, path, body) && Run(e, steps).live
    ensures |more| <= 5 && more != [] && more[0] == Request(stream, verb, path, body)
    ensures Resolved(Run(e, steps + more), Id(stream, Next(Run(e, steps).client, stream).nextSeq))
  {
    hide Inv, Run, Apply, Begin, RequestPacket, HasRoom, NumbersFit, Carries, Answerable, Outstanding, Resolved, Sound;
    var s := Run(e, steps);
    RequestSentIff(e, s.client, stream, verb, path, body);
    var first := Request(stream, verb, path, body);
    var id := Id(stream, Next(s.client, stream).nextSeq);
    RequestSends(e, steps, stream, verb, path, body);
    Reachable(e, steps);
    OneMore(e, steps, first);
    RequestApplied(e, s, stream, verb, path, body);
    NewCallAnswerable(e, s, Run(e, steps + [first]), stream, verb, path, body);
    var rest := ChanceTaken(e, steps + [first], id);
    more := [first] + rest;
    assert steps + [first] + rest == steps + more;
  }

  lemma NewCallAnswerable(e: Epoch, s: System, s': System, stream: int, verb: int, path: Text, body: Bytes)
    requires Inv(e, s) && s.live && path != [] && 50 + |path| + |body| <= 4096
    requires var id := Id(stream, Next(s.client, stream).nextSeq);
             id !in s.client.calls && Waits(s', id) && s'.client.calls[id].path == path && s'.client.calls[id].body == body
    requires s' == s.(client := s'.client, toServer := s'.toServer) && s'.client.windows == s.client.windows
    ensures Chance(e, s', Id(stream, Next(s.client, stream).nextSeq))
  {
    hide Inv, Outstanding;
    WindowsBehind(e, s, stream);
  }

  lemma WindowsBehind(e: Epoch, s: System, stream: int)
    requires Inv(e, s)
    ensures var n := Next(s.client, stream).nextSeq;
            && WindowOf(s.client.windows, stream).highest < n && WindowOf(s.session.windows, stream).highest < n
            && (Id(stream, n) in s.served ==> Id(stream, n) in s.client.calls)
  {
    hide CacheInv, Network, AnswerInv, StartedOnce, RequestPacket, Valid, Marked, Seen;
    assert ClientWindow(s.client, stream) && ServerWindow(s.client, s.session.windows, stream) && NumberedStream(s.client, stream);
    assert ServedCall(s.client, s.session.windows, s.served, Id(stream, Next(s.client, stream).nextSeq));
  }

  // ---------- the last timeout of request() ----------

  // A timeout of a waiting call settles it for good: its entry is off file, nothing else changes, and no
  // later reply answers it.
  lemma TimeoutSettles(e: Epoch, steps: seq<Step>, id: Id, more: seq<Step>)
    requires Admissible(e) && Waits(Run(e, steps), id)
    ensures var s := Run(e, steps);
            var s' := Run(e, steps + [Timeout(id)]);
            && s' == s.(client := s.client.(pending := s.client.pending - {ReqKey(id.stream, id.sequence + 1)},
                                            outcomes := s.client.outcomes[id := TimedOut]))
            && ReqKey(id.stream, id.sequence + 1) in s.client.pending
    ensures var after := Run(e, steps + [Timeout(id)] + more).client;
            id in after.outcomes && after.outcomes[id] == TimedOut
  {
    hide Inv, Run, Apply, GiveUp, RequestPacket, Later, Sound;
    var s := Run(e, steps);
    Reachable(e, steps);
    OneMore(e, steps, Timeout(id));
    TimeoutApplied(e, s, id);
    CallNumbers(e, s, id);
    Filed(e, s, id);
    NothingUndone(e, steps + [Timeout(id)], more, id);
    SettledStays(Run(e, steps + [Timeout(id)]), Run(e, steps + [Timeout(id)] + more), id);
  }

  lemma TimeoutApplied(e: Epoch, s: System, id: Id)
    requires Waits(s, id)
    ensures Apply(e, s, Timeout(id))
         == s.(client := s.client.(pending := s.client.pending - {ReqKey(id.stream, s.client.calls[id].requestId)},
                                   outcomes := s.client.outcomes[id := TimedOut]))
  {
    hide RequestPacket, Begin, ServerReceive, ClientReceive, FinishTask, Sweep;
  }

  lemma Filed(e: Epoch, s: System, id: Id)
    requires Inv(e, s) && Waits(s, id)
    ensures ReqKey(id.stream, id.sequence + 1) in s.client.pending
  {
    hide ServerInv, CacheInv, Network, AnswerInv, StartedOnce, RequestPacket, Marked;
    assert WaitingCall(s.client, id);
  }

  lemma SettledStays(s: System, s': System, id: Id)
    requires Later(View(s, id), View(s', id)) && id in s.client.calls && id in s.client.outcomes && s.client.outcomes[id] == TimedOut
    ensures id in s'.client.outcomes && s'.client.outcomes[id] == TimedOut
  {
  }

  // ---------- any response datagram ----------

  // A datagram for another session changes nothing at either end.
  lemma OtherSessionIgnored(e: Epoch, s: System, data: Bytes)
    ensures ClientSplit(data).Ok? && ClientSplit(data).value.header.sessionId != e.sessionId ==> ClientReceive(e, s.client, data) == s.client
    ensures ServerSplit(data).Ok? && ServerSplit(data).value.header.sessionId != e.sessionId ==> ServerReceive(e, s, data) == s
  {
    hide ClientSplit, ServerSplit, HandleRequest;
  }

  // Any RESPONSE datagram of this session, genuine or not. A number already used up changes nothing but
  // the table of windows; else the number is used up, and the future under its key, if there is one, is
  // taken off file and gets the response exactly if the body opens and decodes to it, and an error
  // otherwise. Nobody else's future changes.
  lemma AnyResponse(e: Epoch, c: Client, data: Bytes)
    requires ClientSplit(data).Ok? && ClientSplit(data).value.header.msgType == MSG_RESPONSE
    requires ClientSplit(data).value.header.sessionId == e.sessionId
    requires Valid(WindowOf(c.windows, ClientSplit(data).value.header.streamId)) && ClientSplit(data).value.header.sequence >= 0
    ensures var d := ClientSplit(data).value;
            var c' := ClientReceive(e, c, data);
            var key := ReqKey(d.header.streamId, d.header.requestId);
            var stale := Seen(WindowOf(c.windows, d.header.streamId), d.header.sequence);
            && c'.streams == c.streams && c'.calls == c.calls
            && (forall st | st != d.header.streamId :: WindowOf(c'.windows, st) == WindowOf(c.windows, st))
            && Seen(WindowOf(c'.windows, d.header.streamId), d.header.sequence)
            && (stale ==> WindowOf(c'.windows, d.header.streamId) == WindowOf(c.windows, d.header.streamId))
            && (stale || key !in c.pending ==> c'.pending == c.pending && c'.outcomes == c.outcomes)
            && (!stale && key in c.pending ==>
                  var id := c.pending[key];
                  && c'.pending == c.pending - {key}
                  && (id in c.outcomes && c.outcomes[id] == Waiting ==>
                        c'.outcomes == c.outcomes[id := match OpenReply(e, d.header, d.body)
                                                        case Ok(r) => Answered(r)
                                                        case Err(_) => Failed])
                  && (!(id in c.outcomes && c.outcomes[id] == Waiting) ==> c'.outcomes == c.outcomes))
  {
    hide ClientSplit, OpenReply, Offer, Seen, Valid;
    var h := ClientSplit(data).value.header;
    OfferEffect(WindowOf(c.windows, h.streamId), h.sequence);
  }

  // In raw bytes: any response of the session opens under the header of a genuine one with its numbers,
  // which is its own 34 bytes unless its kind, flags, method or path length are not those of a response.
  lemma ResponseOpensIff(e: Epoch, data: Bytes, r: Response)
    requires ClientSplit(data).Ok? && ClientSplit(data).value.header.sessionId == e.sessionId
    ensures var d := ClientSplit(data).value;
            var aad := data[..5] + [6, 0, 3] + data[8..28] + [0, 0] + data[30..34];
            var plain := e.aead.decrypt(e.key, BE(d.header.streamId, 4) + BE(d.header.sequence, 8), d.body, aad);
            OpenReply(e, d.header, d.body) == Ok(r) <==> plain.Some? && DecodeBodyPlain(plain.value) == Ok(r)
  {
    hide DecodeBodyPlain, BE, FromBE;
    FieldWidths();
    var h := ClientSplit(data).value.header;
    BEOfFromBE(data[8..16]);
    BEOfFromBE(data[16..20]);
    BEOfFromBE(data[20..24]);
    BEOfFromBE(data[24..28]);
    BEOfFromBE(data[30..34]);
    NonceBytes(data);
    SmallFields();
    var reply := ReplyHeader(e, Id(h.streamId, h.sequence), h.requestId, h.bodyLen);
    assert PackHeader(reply).value == data[..5] + [6, 0, 3] + data[8..28] + [0, 0] + data[30..34];
  }

  lemma SmallFields()
    ensures BE(6, 1) == [6] && BE(3, 2) == [0, 3] && BE(0, 2) == [0, 0]
  {
    assert BE(3, 2) == BE(0, 1) + [3] && BE(0, 2) == BE(0, 1) + [0];
  }

  lemma NonceBytes(data: Bytes)
    requires UnpackHeader(data).Ok?
    ensures var h := UnpackHeader(data).value;
            && 0 <= h.streamId < 0x1_0000_0000 && 0 <= h.sequence < 0x1_0000_0000
            && Nonce(h.streamId, h.sequence) == BE(h.streamId, 4) + BE(h.sequence, 8)
  {
    hide BE, FromBE;
    FieldWidths();
    BEOfFromBE(data[16..20]);
    BEOfFromBE(data[20..24]);
  }

  // The server opens a request under exactly the header and path bytes that precede its body.
  lemma RequestOpensUnderItsBytes(e: Epoch, data: Bytes)
    requires ServerSplit(data).Ok? && ServerSplit(data).value.header.msgType == 5 && ServerSplit(data).value.header.sessionId == e.sessionId
    ensures var d := ServerSplit(data).value;
            var plain := e.aead.decrypt(e.key, BE(d.header.streamId, 4) + BE(d.header.sequence, 8), d.body, data[..34 + |d.path|]);
            OpenRequest(e, d.header, d.path, d.body) == if plain.Some? then Ok(plain.value) else Err(SecurityError)
  {
    hide PackHeader, BE;
    var d := ServerSplit(data).value;
    HeaderRebuild(data);
    NonceBytes(data);
    assert data[..34] + d.path == data[..34 + |d.path|];
  }

  // ---------- any request datagram ----------

  // Any REQUEST for this session, genuine or not, with a number that fits: exactly what the server does.
  lemma AnyRequest(e: Epoch, s: Session, h: Header, path: Bytes, body: Bytes, now: real)
    requires h.sequence >= 0 && Valid(WindowOf(s.windows, h.streamId)) && PackHeader(FrameAckHeader(e, Id(h.streamId, h.sequence), h.requestId)).Ok?
    ensures var handled := HandleRequest(e, s, h, path, body, now);
            var s' := handled.session;
            var key := ReqKey(h.streamId, h.requestId);
            var stale := Seen(WindowOf(s.windows, h.streamId), h.sequence);
            var ack := PackHeader(FrameAckHeader(e, Id(h.streamId, h.sequence), h.requestId)).value;
            var notFound := ReplyPacket(e, Id(h.streamId, h.sequence), h.requestId, NotFoundResponse());
            if key in s.cache then handled == Handled(s, [s.cache[key].packet], Resent)
            else
              // from here on the number is used up, whatever the datagram turns out to be
              && Seen(WindowOf(s'.windows, h.streamId), h.sequence)
              && (forall st | st != h.streamId :: WindowOf(s'.windows, st) == WindowOf(s.windows, st))
              && if stale then
                   handled.verdict == Replayed && handled.sent == [] && s' == s.(windows := s'.windows)
                   && WindowOf(s'.windows, h.streamId) == WindowOf(s.windows, h.streamId)
                 else if path == [] || !ValidUtf8(path) || OpenRequest(e, h, path, body).Err? then
                   && (handled.verdict == EmptyPath || handled.verdict == BadPath || handled.verdict == Undecryptable)
                   && handled.sent == [] && s' == s.(windows := s'.windows)
                 else if e.routed(h.verb, path) then
                   && handled.verdict == Started(OpenRequest(e, h, path, body).value) && handled.sent == [ack]
                   && s' == s.(windows := s'.windows, inflight := s.inflight[key := now + 10.0])
                 else
                   && handled.verdict == NotFound(OpenRequest(e, h, path, body).value)
                   && handled.sent == [ack] + (if notFound.Ok? then [notFound.value] else [])
                   && s' == if notFound.Err? then s.(windows := s'.windows)
                            else s.(windows := s'.windows, inflight := s.inflight - {key},
                                    cache := s.cache[key := CacheEntry(notFound.value, now + e.cacheTtl)])
  {
    hide PackHeader, ReplyPacket, OpenRequest, Offer, Seen, Valid, ValidUtf8, NotFoundResponse, SendResponse;
    OfferEffect(WindowOf(s.windows, h.streamId), h.sequence);
    SendResponseEffect(e, s.(windows := s.windows[h.streamId := Offer(WindowOf(s.windows, h.streamId), h.sequence).0]),
                       Id(h.streamId, h.sequence), h.requestId, NotFoundResponse(), now);
  }

  // A response can be sent exactly if its content type has at most 65535 bytes and the header's numbers
  // fit; and then the server files the packet for the time to live and sends it.
  lemma ResponseSentIff(e: Epoch, s: Session, id: Id, requestId: int, r: Response, now: real)
    ensures var packet := ReplyPacket(e, id, requestId, r);
            var (s', sent) := SendResponse(e, s, id, requestId, r, now);
            && (packet.Ok? <==>
                && |r.contentType| <= 65535
                && 0 <= e.sessionId < 0x1_0000_0000_0000_0000 && 0 <= id.stream < 0x1_0000_0000
                && 0 <= id.sequence < 0x1_0000_0000 && 0 <= requestId < 0x1_0000_0000
                && 20 + |r.contentType| + |r.body| < 0x1_0000_0000)
            && (packet.Err? ==> s' == s && sent == [])
            && (packet.Ok? ==> sent == [packet.value]
                               && s' == s.(cache := s.cache[ReqKey(id.stream, requestId) := CacheEntry(packet.value, now + e.cacheTtl)],
                                           inflight := s.inflight - {ReqKey(id.stream, requestId)}))
  {
    hide Nonce;
    FieldWidths();
  }

  // ---------- headers and the fixed answer ----------

  // The headers of a request, a frame acknowledgement and a response, in numbers.
  lemma PacketHeaders(e: Epoch, id: Id, c: Call, requestId: int, bodyLen: int)
    ensures RequestHeader(e, id, c) == Header(5, 1, e.sessionId, id.stream, id.sequence, c.requestId, |c.path|, |c.body| + 16, c.verb)
    ensures FrameAckHeader(e, id, requestId) == Header(10, 0, e.sessionId, id.stream, id.sequence, requestId, 0, 0, 0)
    ensures ReplyHeader(e, id, requestId, bodyLen) == Header(6, 3, e.sessionId, id.stream, id.sequence, requestId, 0, bodyLen, 0)
  {
  }

  // An unrouted request is answered with status 404, application/json and this text.
  lemma NotFoundSays()
    ensures NotFoundResponse().status == 404 && Truncated(NotFoundResponse()) == NotFoundResponse()
    ensures Spells(NotFoundResponse().contentType, "application/json")
    ensures Spells(NotFoundResponse().body, "{\"detail\":\"not found\"}")
  {
    hide ValidUtf8;
    assert Spells(NOT_FOUND_JSON, "{\"detail\":\"not found\"}");
  }
}
