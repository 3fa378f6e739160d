// Every step of the handshake system keeps the invariant.
module HandshakeSafety {
  import opened Common
  import opened Codec
  import opened Primitives
  import opened Security
  import opened Handshake
  import opened HandshakeSystem

  // ---------- messages are read back exactly ----------

  lemma PacketDelivered(msgType: int, id: int, body: Bytes)
    requires Fits(msgType, 1) && Packet(msgType, id, body).Ok?
    ensures var data := Packet(msgType, id, body).value;
            && |data| == HEADER_SIZE + |body|
            && ClientSplit(data).Ok? && ClientSplit(data).value.header.msgType == msgType
            && ClientSplit(data).value.header.sessionId == id && ClientSplit(data).value.body == body
            && (ServerSplit(data).Ok? <==> |data| <= MAX_PACKET_SIZE)
            && (ServerSplit(data).Ok? ==> ServerSplit(data) == ClientSplit(data))
  {
    hide PackHeader, ServerSplit, ClientSplit, Packable;
    var h := Header(msgType, 0, id, 0, 0, 0, 0, |body|, 0);
    DatagramRoundTrip(h, [], body);
    assert PackHeader(h).value + [] + body == PackHeader(h).value + body;
  }

  // No self-rejection: every HELLO, CHALLENGE, PROVE and ACK with fields of the protocol's sizes that
  // its encoder accepts fits a datagram, and its receiver decodes the message that was sent.
  lemma HelloDelivered(m: Hello)
    requires HelloPacket(m).Ok? && Sized(m.clientId, [m.cnonce], m.mac)
    ensures var d := ServerSplit(HelloPacket(m).value);
            d.Ok? && d.value.header.msgType == MSG_HELLO && DecodeHello(d.value.body) == Ok(m)
  {
    hide PackHeader, ServerSplit, ClientSplit, Packet, EncodeHello, DecodeHello;
    assert m.cnonce in [m.cnonce];
    FieldWidths();
    HelloRoundTrip(m, []);
    var body := EncodeHello(m).value;
    assert body + [] == body;
    PacketDelivered(MSG_HELLO, 0, body);
  }

  lemma ChallengeDelivered(m: Challenge)
    requires ChallengePacket(m).Ok? && Sized(m.clientId, [m.cnonce, m.snonce], m.mac)
    ensures var d := ClientSplit(ChallengePacket(m).value);
            d.Ok? && d.value.header.msgType == MSG_CHALLENGE && DecodeChallenge(d.value.body) == Ok(m)
  {
    hide PackHeader, ServerSplit, ClientSplit, Packet, EncodeChallenge, DecodeChallenge;
    FieldWidths();
    ChallengeRoundTrip(m, []);
    var body := EncodeChallenge(m).value;
    assert body + [] == body;
    PacketDelivered(MSG_CHALLENGE, 0, body);
  }

  lemma ProveDelivered(m: Challenge)
    requires ProvePacket(m).Ok? && Sized(m.clientId, [m.cnonce, m.snonce], m.mac)
    ensures var d := ServerSplit(ProvePacket(m).value);
            && |m.clientId| <= MAX_CLIENT_ID_BYTES
            && (d.Ok? <==> 110 + |m.clientId| + |m.cookie| <= MAX_PACKET_SIZE)
            && (d.Ok? ==> d.value.header.msgType == MSG_PROVE && DecodeChallenge(d.value.body) == Ok(m))
  {
    hide PackHeader, ServerSplit, ClientSplit, Packet, EncodeChallenge, DecodeChallenge;
    FieldWidths();
    assert m.cnonce in [m.cnonce, m.snonce] && m.snonce in [m.cnonce, m.snonce];
    ChallengeRoundTrip(m, []);
    var body := EncodeChallenge(m).value;
    assert body + [] == body;
    PacketDelivered(MSG_PROVE, 0, body);
  }

  lemma AckDelivered(m: Ack)
    requires AckPacket(m).Ok? && Sized(m.clientId, [m.cnonce, m.snonce], m.mac)
    ensures var d := ClientSplit(AckPacket(m).value);
            d.Ok? && d.value.header.msgType == MSG_ACK && DecodeAck(d.value.body) == Ok(m)
  {
    hide PackHeader, ServerSplit, ClientSplit, Packet, EncodeAck, DecodeAck;
    FieldWidths();
    AckRoundTrip(m, []);
    var body := EncodeAck(m).value;
    assert body + [] == body;
    PacketDelivered(MSG_ACK, 0, body);
  }

  // What a ticket was sealed with is what its opener reads.
  lemma TicketOpens(w: World, origin: map<int, Origin>, p: TicketPayload, ticket: Bytes)
    requires SoundWorld(w) && Seals(w, origin, p, ticket)
    ensures |ticket| == 86 + |p.clientId|
    ensures var payload := OpenTicket(w.hash, w.aead, w.psk, ticket);
            payload.Some? && DecodeTicketPayload(payload.value) == Ok(p)
  {
    hide OpenTicket, SealTicket, EncodeTicketPayload, DecodeTicketPayload, KeyOf, Sound, SoundHash;
    var payload := EncodeTicketPayload(p).value;
    SealedTicketOpens(w.hash, w.aead, w.psk, payload);
    TicketRoundTrip(p, []);
    assert payload + [] == payload;
  }

  // A ticket gives its holder the session and key that were sealed, until it expires.
  lemma TicketRestores(w: World, origin: map<int, Origin>, p: TicketPayload, ticket: Bytes, clientId: Text, wall: real)
    requires SoundWorld(w) && Seals(w, origin, p, ticket)
    ensures RestoreTicket(w, ticket, clientId, wall)
         == if p.clientId != clientId || p.expiresAt < Trunc(wall) then None else Some(Agreed(p.sessionId, p.sessionKey))
    ensures |ticket| == 86 + |p.clientId|
  {
    hide OpenTicket, Seals, DecodeTicketPayload, Sound, SoundHash;
    TicketOpens(w, origin, p, ticket);
  }

  // An empty client id gets past the encoder, and only an empty one is refused by the decoder.
  lemma OnlyEmptyClientIdRefused(m: Hello)
    requires HelloPacket(m).Ok? && |m.cnonce| == NONCE_BYTES && |m.mac| == MAC_SIZE
    ensures var d := ServerSplit(HelloPacket(m).value);
            && d.Ok? && d.value.header.msgType == MSG_HELLO
            && (DecodeHello(d.value.body).Ok? <==> m.clientId != [])
  {
    hide PackHeader, ServerSplit, ClientSplit, Packet;
    if m.clientId == [] {
      FieldWidths();
      var body := EncodeHello(m).value;
      PacketDelivered(MSG_HELLO, 0, body);
      assert body[0..2] == BE(0, 2);
      FromBEOfBE(0, 2);
    } else {
      hide EncodeHello, DecodeHello, HelloPacket;
      HelloDelivered(m);
    }
  }

  // ---------- growing histories ----------

  predicate Extends(origin: map<int, Origin>, origin': map<int, Origin>) {
    forall id | id in origin :: id in origin' && origin'[id] == origin[id]
  }

  lemma TicketsLast(w: World, origin: map<int, Origin>, origin': map<int, Origin>, ticket: Bytes)
    requires Extends(origin, origin')
    ensures GoodTicket(w, origin, ticket) ==> GoodTicket(w, origin', ticket)
    ensures forall id {:trigger TicketFor(w, origin', ticket, id)} :: TicketFor(w, origin, ticket, id) ==> TicketFor(w, origin', ticket, id)
  {
    hide EncodeTicketPayload, SealTicket, KeyOf;
    if GoodTicket(w, origin, ticket) && ticket != [] {
      var p :| Seals(w, origin, p, ticket);
      assert Seals(w, origin', p, ticket);
    }
    forall id | TicketFor(w, origin, ticket, id) ensures TicketFor(w, origin', ticket, id) {
      var p: TicketPayload :| p.sessionId == id && Seals(w, origin, p, ticket);
      assert Seals(w, origin', p, ticket);
    }
  }

  lemma PacketsLast(w: World, origin: map<int, Origin>, origin': map<int, Origin>, data: Bytes)
    requires Extends(origin, origin')
    ensures FromClient(w, origin, data) ==> FromClient(w, origin', data)
    ensures FromServer(w, origin, data) ==> FromServer(w, origin', data)
  {
    hide HelloPacket, AckPacket, IsProve, IsChallenge, HasType, TicketFor, GoodTicket, Sized;
    if m :| IsHello(w, origin, m, data) {
      TicketsLast(w, origin, origin', m.ticket);
      assert IsHello(w, origin', m, data);
    }
    if m :| IsAck(w, origin, m, data) {
      TicketsLast(w, origin, origin', m.ticket);
      assert IsAck(w, origin', m, data);
    }
  }

  lemma ClientsLast(w: World, s: System, s': System)
    requires Extends(s.origin, s'.origin) && s'.clients == s.clients && s'.late == s.late
    requires forall i {:trigger ClientOk(w, s, i)} :: ClientOk(w, s, i)
    ensures forall i {:trigger ClientOk(w, s', i)} :: ClientOk(w, s', i)
  {
    hide KeyOf, GoodTicket, LateKey;
    forall i ensures ClientOk(w, s', i) {
      assert ClientOk(w, s, i);
      if i in s.clients {
        TicketsLast(w, s.origin, s'.origin, s.clients[i].ticket);
      }
    }
  }

  // Everything but the server's own state carries over when the history grows.
  lemma RestLasts(w: World, s: System, s': System)
    requires Inv(w, s) && Extends(s.origin, s'.origin) && s'.clients == s.clients && s'.late == s.late
    requires s'.toServer <= s.toServer
    requires forall d | d in s'.toClient :: d in s.toClient || FromServer(w, s'.origin, d)
    requires ServerInv(w, s')
    ensures Inv(w, s')
  {
    hide ServerInv, FromClient, FromServer, ClientOk;
    ClientsLast(w, s, s');
    forall d | d in s'.toServer ensures FromClient(w, s'.origin, d) {
      PacketsLast(w, s.origin, s'.origin, d);
    }
    forall d | d in s'.toClient ensures FromServer(w, s'.origin, d) {
      PacketsLast(w, s.origin, s'.origin, d);
    }
  }

  // ---------- traffic, address checks, cleanup ----------

  // No session or entry is added, and sessions change nothing but their address and challenges.
  predicate Quiet(a: Server, b: Server) {
    && (forall id | id in b.sessions ::
          id in a.sessions && b.sessions[id] == a.sessions[id].(addr := b.sessions[id].addr, paths := b.sessions[id].paths))
    && (forall k | k in b.pending :: k in a.pending && b.pending[k] == a.pending[k])
  }

  lemma QuietKeepsServer(w: World, s: System, s': System)
    requires ServerInv(w, s) && Quiet(s.server, s'.server)
    requires s'.origin == s.origin && s'.challenges == s.challenges && s.drawn <= s'.drawn
    ensures ServerInv(w, s')
  {
    hide KeyOf, TicketFor, Identity, Fits;
    forall id ensures SessionOk(w, s'.server, s'.origin, id) {
      assert SessionOk(w, s.server, s.origin, id);
    }
    forall k ensures PendingOk(s'.server, s'.challenges, k) {
      assert PendingOk(s.server, s.challenges, k);
    }
    forall k, id ensures Unspent(s'.server, s'.origin, k, id) {
      assert Unspent(s.server, s.origin, k, id);
    }
    forall n ensures ChallengeOk(s'.challenges, s'.drawn, n) {
      assert ChallengeOk(s.challenges, s.drawn, n);
    }
  }

  // A quiet step enters nothing in the histories.
  lemma QuietHistory(w: World, s: System, server': Server, data: Bytes, addr: Addr, r: Random)
    requires ServerInv(w, s) && Quiet(s.server, server') && FreshRandom(s, r)
    ensures Stored(s, server', data, addr, r) == s.challenges
    ensures Created(s, server', data, addr, r) == s.origin
  {
    hide KeyOf, TicketFor, Identity, Fits, ServerSplit, DecodeHello, DecodeChallenge;
    assert SessionOk(w, s.server, s.origin, r.sessionId);
    forall k | k in server'.pending ensures server'.pending[k].snonce != r.nonce {
      assert PendingOk(s.server, s.challenges, k);
      assert ChallengeOk(s.challenges, s.drawn, s.server.pending[k].snonce);
    }
  }

  lemma ChallengeQuiet(w: World, s: Server, id: int, addr: Addr, now: real, token: Bytes)
    requires id in s.sessions
    ensures Quiet(s, IssuePathChallenge(w, s, id, addr, now, token).0)
    ensures OnlyPathChallenge(IssuePathChallenge(w, s, id, addr, now, token).1)
  {
    hide Packet;
    var reply := IssuePathChallenge(w, s, id, addr, now, token).1;
    assert reply.Some? ==> IsPathChallenge(id, token, reply.value);
  }

  lemma NoPathChallenge()
    ensures OnlyPathChallenge(None)
  {
  }

  // Pings, path responses and all traffic inside sessions are quiet.
  lemma OtherDatagramsQuiet(w: World, s: Server, d: Datagram, addr: Addr, now: real, r: Random)
    ensures var h := d.header;
            var (ping, pong) := HandlePing(w, s, h.sessionId, addr, now, r.nonce);
            var (traffic, reply) := HandleTraffic(w, s, h.msgType, h.sessionId, addr, now, r.nonce);
            && Quiet(s, ping) && OnlyPathChallenge(pong)
            && Quiet(s, traffic) && OnlyPathChallenge(reply)
            && Quiet(s, HandlePathResponse(s, h.sessionId, d.body, addr, now))
  {
    hide IssuePathChallenge, OnlyPathChallenge, PathValidated;
    if d.header.sessionId in s.sessions {
      ChallengeQuiet(w, s, d.header.sessionId, addr, now, r.nonce);
    }
    NoPathChallenge();
  }

  ghost predicate OnlyPathChallenge(reply: Option<Bytes>) {
    reply.Some? ==> exists id, token :: IsPathChallenge(id, token, reply.value)
  }

  predicate IsPathChallenge(id: int, token: Bytes, data: Bytes) {
    Packet(MSG_PATH_CHALLENGE, id, token) == Ok(data)
  }

  lemma PathChallengeIsOther(w: World, origin: map<int, Origin>, reply: Option<Bytes>)
    requires OnlyPathChallenge(reply) && reply.Some?
    ensures FromServer(w, origin, reply.value)
  {
    hide Packet, ClientSplit, ServerSplit;
    FieldWidths();
    var id, token :| IsPathChallenge(id, token, reply.value);
    PacketDelivered(MSG_PATH_CHALLENGE, id, token);
  }

  // A step of the server that is quiet and at most challenges an address.
  lemma QuietStep(w: World, s: System, s': System, data: Bytes, addr: Addr, r: Random, reply: Option<Bytes>)
    requires Inv(w, s) && FreshRandom(s, r) && Quiet(s.server, s'.server) && OnlyPathChallenge(reply)
    requires s' == Recorded(s, s'.server, reply, data, addr, r)
    ensures Inv(w, s')
  {
    hide ServerInv, FromServer, OnlyPathChallenge, Stored, Created, FreshRandom, Quiet, FromClient, ClientOk;
    QuietHistory(w, s, s'.server, data, addr, r);
    QuietKeepsServer(w, s, s');
    if reply.Some? {
      PathChallengeIsOther(w, s'.origin, reply);
    }
    RestLasts(w, s, s');
  }

  // ---------- HELLO ----------

  // The pending entry that a HELLO leaves.
  function EntryOf(w: World, m: Hello, addr: Addr, now: real, snonce: Bytes): Pending {
    Pending(m.clientId, addr, m.cnonce, snonce, CookieOf(w, addr, m.clientId, m.cnonce, m.ts), m.ts, now, now + w.pendingTtl)
  }

  // A HELLO that names a session: it is there, under the key it was created with, at the sender's
  // address, and no other session or entry changes.
  ghost predicate Restores(w: World, s: System, s': System, m: Hello, id: int, addr: Addr) {
    && id in s.origin && m.clientId == s.origin[id].clientId
    && s'.server.pending == s.server.pending
    && id in s'.server.sessions && s'.server.sessions == s.server.sessions[id := s'.server.sessions[id]]
    && var session := s'.server.sessions[id];
       && session.clientId == m.clientId && session.key == KeyOf(w, s.origin[id]) && session.addr == addr
       && session.expiresAt == s.now + w.sessionTtl && !session.closed
       && (id in s.server.sessions ==> session.paths == s.server.sessions[id].paths)
  }

  // The entry of a HELLO: the histories after it has been stored.
  lemma StorePendingStep(w: World, s: System, s': System, m: Hello, addr: Addr, wall: real, r: Random, data: Bytes)
    requires SoundWorld(w) && Inv(w, s) && FreshRandom(s, r) && Identity(m.clientId, m.cnonce)
    requires ServerSplit(data).Ok? && DecodeHello(ServerSplit(data).value.body) == Ok(m)
    requires var (server', reply) := StorePending(w, s.server, m, addr, s.now, wall, r.nonce);
             s' == Recorded(s, server', reply, data, addr, r)
    ensures Inv(w, s')
    ensures var p := EntryOf(w, m, addr, s.now, r.nonce);
            && s'.server == s.server.(pending := s.server.pending[PendingKey(addr, m.clientId, m.cnonce) := p])
            && s'.challenges == s.challenges[r.nonce := p] && s'.origin == s.origin
  {
    hide KeyOf, TicketFor, Fits, ServerSplit, DecodeHello, DecodeChallenge, ChallengePacket, CookieOf, ChallengeMac, FromServer,
         FromClient, ClientOk, Sound, SoundHash;
    assert SessionOk(w, s.server, s.origin, r.sessionId);
    forall id ensures SessionOk(w, s'.server, s'.origin, id) {
      assert SessionOk(w, s.server, s.origin, id);
    }
    forall k ensures PendingOk(s'.server, s'.challenges, k) {
      assert PendingOk(s.server, s.challenges, k);
      if k in s.server.pending {
        assert ChallengeOk(s.challenges, s.drawn, s.server.pending[k].snonce);
      }
    }
    forall n ensures ChallengeOk(s'.challenges, s'.drawn, n) {
      assert ChallengeOk(s.challenges, s.drawn, n);
    }
    forall id ensures OriginOk(s'.challenges, s'.origin, id) {
      assert OriginOk(s.challenges, s.origin, id);
      if id in s.origin {
        assert ChallengeOk(s.challenges, s.drawn, s.origin[id].snonce);
      }
    }
    forall k, id ensures Unspent(s'.server, s'.origin, k, id) {
      assert Unspent(s.server, s.origin, k, id);
      assert OriginOk(s.challenges, s.origin, id);
      if id in s.origin {
        assert ChallengeOk(s.challenges, s.drawn, s.origin[id].snonce);
      }
    }
    ChallengeReply(w, s, s', m, addr, wall, r);
    RestLasts(w, s, s');
  }

  lemma ChallengeReply(w: World, s: System, s': System, m: Hello, addr: Addr, wall: real, r: Random)
    requires SoundWorld(w) && Identity(m.clientId, m.cnonce) && |r.nonce| == NONCE_BYTES
    requires s'.toClient == Add(s.toClient, StorePending(w, s.server, m, addr, s.now, wall, r.nonce).1)
    ensures forall d | d in s'.toClient :: d in s.toClient || FromServer(w, s'.origin, d)
  {
    hide ChallengePacket, CookieOf, FromServer;
    var cookie := CookieOf(w, addr, m.clientId, m.cnonce, m.ts);
    var ts := Trunc(wall);
    var c := Challenge(m.clientId, m.cnonce, r.nonce, cookie, ts, ChallengeMac(w, m.clientId, m.cnonce, r.nonce, cookie, ts));
    assert Sized(c.clientId, [c.cnonce, c.snonce], c.mac);
    if ChallengePacket(c).Ok? {
      ChallengeIsFromServer(w, s'.origin, c, ChallengePacket(c).value);
    }
  }

  lemma ChallengeIsFromServer(w: World, origin: map<int, Origin>, c: Challenge, data: Bytes)
    requires IsChallenge(c, data)
    ensures FromServer(w, origin, data)
  {
    hide IsChallenge, HasType, IsAck;
  }

  lemma AckIsFromServer(w: World, origin: map<int, Origin>, a: Ack, data: Bytes)
    requires IsAck(w, origin, a, data)
    ensures FromServer(w, origin, data)
  {
    hide IsChallenge, HasType, IsAck;
  }

  // A server ticket seals the session it is issued for.
  lemma IssuedTicket(w: World, origin: map<int, Origin>, id: int, session: Session, wall: real)
    requires id in origin && session.clientId == origin[id].clientId && |session.clientId| > 0 && session.key == KeyOf(w, origin[id])
    ensures SessionTicket(w, id, session, wall).Ok? ==> TicketFor(w, origin, SessionTicket(w, id, session, wall).value, id)
  {
    hide KeyOf, EncodeTicketPayload, SealTicket;
    var p := TicketPayload(id, Trunc(wall), Trunc(wall + w.resumptionTtl), session.clientId, session.key);
    if EncodeTicketPayload(p).Ok? {
      assert Seals(w, origin, p, SessionTicket(w, id, session, wall).value);
    }
  }

  // A resumption: the session comes back, or stays, with its own key.
  lemma ResumeStep(w: World, s: System, s': System, m: Hello, p: TicketPayload, addr: Addr, wall: real, r: Random, data: Bytes)
    requires SoundWorld(w) && Inv(w, s) && FreshRandom(s, r) && Identity(m.clientId, m.cnonce)
    requires Seals(w, s.origin, p, m.ticket) && p.clientId == m.clientId
    requires var (server', reply) := Resume(w, s.server, m, Agreed(p.sessionId, p.sessionKey), addr, s.now, wall, r.nonce);
             s' == Recorded(s, server', reply, data, addr, r)
    ensures Inv(w, s')
    ensures Restores(w, s, s', m, p.sessionId, addr) && s'.challenges == s.challenges && s'.origin == s.origin
  {
    hide KeyOf, TicketFor, Fits, ServerSplit, DecodeHello, DecodeChallenge, AckPacket, AckMac, FromServer, FromClient, ClientOk,
         Sound, SoundHash, SealTicket, EncodeTicketPayload, SessionTicket;
    var id := p.sessionId;
    assert SessionOk(w, s.server, s.origin, id) && SessionOk(w, s.server, s.origin, r.sessionId);
    var session := Resumed(w, s.server, m, Agreed(id, p.sessionKey), addr, s.now);
    IssuedTicket(w, s.origin, id, session, wall);
    forall k | k in s.server.pending ensures s.server.pending[k].snonce != r.nonce {
      assert PendingOk(s.server, s.challenges, k);
      assert ChallengeOk(s.challenges, s.drawn, s.server.pending[k].snonce);
    }
    assert s'.origin == s.origin && s'.challenges == s.challenges && s'.server.pending == s.server.pending;
    forall i ensures SessionOk(w, s'.server, s'.origin, i) {
      assert SessionOk(w, s.server, s.origin, i);
    }
    forall k ensures PendingOk(s'.server, s'.challenges, k) {
      assert PendingOk(s.server, s.challenges, k);
    }
    forall k, i ensures Unspent(s'.server, s'.origin, k, i) {
      assert Unspent(s.server, s.origin, k, i);
    }
    forall n ensures ChallengeOk(s'.challenges, s'.drawn, n) {
      assert ChallengeOk(s.challenges, s.drawn, n);
    }
    assert OriginOk(s.challenges, s.origin, id) && ChallengeOk(s.challenges, s.drawn, s.origin[id].snonce);
    ResumeReply(w, s, s', m, id, session, wall, r);
    RestLasts(w, s, s');
  }

  lemma ResumeReply(w: World, s: System, s': System, m: Hello, id: int, session: Session, wall: real, r: Random)
    requires SoundWorld(w) && Identity(m.clientId, m.cnonce) && |r.nonce| == NONCE_BYTES
    requires s'.origin == s.origin && id in s.origin && m.clientId == s.origin[id].clientId && s.origin[id].snonce != r.nonce
    requires SessionTicket(w, id, session, wall).Ok? ==> TicketFor(w, s.origin, SessionTicket(w, id, session, wall).value, id)
    requires s'.toClient == match SessionTicket(w, id, session, wall)
                            case Err(_) => s.toClient
                            case Ok(ticket) => Add(s.toClient, Sent(AckPacket(ResumeAck(w, m, id, r.nonce, wall, ticket))))
    ensures forall d | d in s'.toClient :: d in s.toClient || FromServer(w, s'.origin, d)
  {
    hide AckPacket, FromServer, TicketFor, SessionTicket;
    match SessionTicket(w, id, session, wall)
    case Err(_) =>
    case Ok(ticket) =>
      var a := ResumeAck(w, m, id, r.nonce, wall, ticket);
      assert Sized(a.clientId, [a.cnonce, a.snonce], a.mac);
      if AckPacket(a).Ok? {
        assert IsAck(w, s.origin, a, AckPacket(a).value);
        AckIsFromServer(w, s.origin, a, AckPacket(a).value);
      }
  }

  lemma QuietServerStep(w: World, s: System, data: Bytes, addr: Addr, r: Random)
    requires Inv(w, s) && FreshRandom(s, r)
    ensures Inv(w, Recorded(s, s.server, None, data, addr, r))
  {
    hide ServerInv, FromServer, OnlyPathChallenge, FreshRandom, FromClient, ClientOk, Stored, Created;
    NoPathChallenge();
    QuietStep(w, s, Recorded(s, s.server, None, data, addr, r), data, addr, r, None);
  }

  // Whatever HELLO the server can decode came from a client: its ticket is empty or genuine.
  lemma ReceivedHello(w: World, origin: map<int, Origin>, data: Bytes)
    requires SoundWorld(w) && FromClient(w, origin, data)
    requires ServerSplit(data).Ok? && ServerSplit(data).value.header.msgType == MSG_HELLO
    ensures DecodeHello(ServerSplit(data).value.body).Ok? ==>
              var m := DecodeHello(ServerSplit(data).value.body).value;
              Identity(m.clientId, m.cnonce) && GoodTicket(w, origin, m.ticket)
  {
    hide ServerSplit, GoodTicket, Packet, DecodeHello, DecodeChallenge, Sound, SoundHash;
    if m :| IsHello(w, origin, m, data) {
      if m.clientId == [] {
        OnlyEmptyClientIdRefused(m);
      } else {
        HelloDelivered(m);
      }
    } else {
      var m :| IsProve(m, data);
      ProveDelivered(m);
    }
  }

  // What becomes of a HELLO: nothing if the table is full or the HELLO does not verify; else its ticket's
  // session is restored, if the ticket gives one; else it leaves a pending entry, on record.
  ghost predicate HelloBecomes(w: World, s: System, s': System, body: Bytes, addr: Addr, wall: real, r: Random) {
    var verified := VerifyHello(w, body, wall);
    if |s.server.sessions| >= w.maxClients || verified.None? then
      s'.server == s.server && s'.toClient == s.toClient && s'.challenges == s.challenges && s'.origin == s.origin
    else
      var m := verified.value;
      var restored := if m.ticket == [] then None else RestoreTicket(w, m.ticket, m.clientId, wall);
      if restored.Some? then
        Restores(w, s, s', m, restored.value.id, addr) && s'.challenges == s.challenges && s'.origin == s.origin
      else
        var p := EntryOf(w, m, addr, s.now, r.nonce);
        && s'.server == s.server.(pending := s.server.pending[PendingKey(addr, m.clientId, m.cnonce) := p])
        && s'.challenges == s.challenges[r.nonce := p] && s'.origin == s.origin
  }

  lemma HelloStep(w: World, s: System, data: Bytes, addr: Addr, wall: real, r: Random)
    requires SoundWorld(w) && Inv(w, s) && FreshRandom(s, r) && FromClient(w, s.origin, data)
    requires ServerSplit(data).Ok? && ServerSplit(data).value.header.msgType == MSG_HELLO
    ensures var (server', reply) := HandleHello(w, s.server, ServerSplit(data).value.body, addr, s.now, wall, r.nonce);
            var s' := Recorded(s, server', reply, data, addr, r);
            Inv(w, s') && HelloBecomes(w, s, s', ServerSplit(data).value.body, addr, wall, r)
  {
    hide Inv, FromClient, ServerSplit, DecodeHello, Resume, StorePending, RestoreTicket, FreshRandom, Sound, SoundHash, Recorded,
         HelloMac, TsOk, Seals, Identity, CookieOf, Restores;
    var body := ServerSplit(data).value.body;
    ReceivedHello(w, s.origin, data);
    QuietServerStep(w, s, data, addr, r);
    NothingHappens(w, s, data, addr, r);
    if |s.server.sessions| < w.maxClients && VerifyHello(w, body, wall).Some? {
      var m := VerifyHello(w, body, wall).value;
      if m.ticket != [] && RestoreTicket(w, m.ticket, m.clientId, wall).Some? {
        var p :| Seals(w, s.origin, p, m.ticket);
        TicketRestores(w, s.origin, p, m.ticket, m.clientId, wall);
        var (server', reply) := Resume(w, s.server, m, Agreed(p.sessionId, p.sessionKey), addr, s.now, wall, r.nonce);
        ResumeStep(w, s, Recorded(s, server', reply, data, addr, r), m, p, addr, wall, r, data);
      } else {
        var (server', reply) := StorePending(w, s.server, m, addr, s.now, wall, r.nonce);
        StorePendingStep(w, s, Recorded(s, server', reply, data, addr, r), m, addr, wall, r, data);
      }
    }
  }

  lemma NothingHappens(w: World, s: System, data: Bytes, addr: Addr, r: Random)
    requires Inv(w, s) && FreshRandom(s, r)
    ensures var s' := Recorded(s, s.server, None, data, addr, r);
            s'.server == s.server && s'.toClient == s.toClient && s'.challenges == s.challenges && s'.origin == s.origin
  {
    hide ServerInv, Stored, Created, FreshRandom, FromClient, FromServer, ClientOk;
    QuietHistory(w, s, s.server, data, addr, r);
  }

  // ---------- PROVE ----------

  // An entry spent on a new session: the entry is gone, the session is there under the key of the
  // entry's nonces, with a ticket of its own, on record, and nothing else changes.
  ghost predicate Spends(w: World, s: System, s': System, key: PendingKey, id: int) {
    && key in s.server.pending && id !in s.server.sessions && id !in s.origin
    && var p := s.server.pending[key];
       && s'.origin == s.origin[id := Origin(p.clientId, p.cnonce, p.snonce, key.addr, s.now)]
       && s'.server.pending == s.server.pending - {key} && id in s'.server.sessions
       && s'.server.sessions == s.server.sessions[id := s'.server.sessions[id]]
       && var session := s'.server.sessions[id];
          && session.clientId == p.clientId && session.addr == key.addr && session.key == KeyOf(w, s'.origin[id])
          && session.expiresAt == s.now + w.sessionTtl && TicketFor(w, s'.origin, session.ticket, id)
  }

  // A proved entry becomes a session, once.
  lemma CreateStep(w: World, s: System, s': System, m: Challenge, addr: Addr, wall: real, r: Random, ticket: Bytes, data: Bytes)
    requires SoundWorld(w) && Inv(w, s) && FreshRandom(s, r)
    requires ServerSplit(data).Ok? && DecodeChallenge(ServerSplit(data).value.body) == Ok(m)
    requires var key := PendingKey(addr, m.clientId, m.cnonce);
             && key in s.server.pending
             && var p := s.server.pending[key];
             && s.now <= p.expiresAt
             && SessionTicket(w, r.sessionId, NewSession(w, p, addr, s.now), wall) == Ok(ticket)
             && var server' := Server(s.server.pending - {key},
                                      s.server.sessions[r.sessionId := NewSession(w, p, addr, s.now).(ticket := ticket)]);
             && s' == Recorded(s, server', Sent(AckPacket(ProveAck(w, p, r.sessionId, wall, ticket))), data, addr, r)
    ensures Inv(w, s') && s'.challenges == s.challenges
    ensures Spends(w, s, s', PendingKey(addr, m.clientId, m.cnonce), r.sessionId)
  {
    hide TicketFor, Fits, ServerSplit, DecodeHello, DecodeChallenge, AckPacket, AckMac, FromServer, FromClient, ClientOk,
         Sound, SoundHash, SealTicket, EncodeTicketPayload, SessionTicket, DeriveSessionKey;
    var id := r.sessionId;
    var key := PendingKey(addr, m.clientId, m.cnonce);
    var p := s.server.pending[key];
    assert SessionOk(w, s.server, s.origin, id) && PendingOk(s.server, s.challenges, key);
    assert ChallengeOk(s.challenges, s.drawn, p.snonce);
    forall k | k in s.server.pending ensures s.server.pending[k].snonce != r.nonce {
      assert PendingOk(s.server, s.challenges, k);
      assert ChallengeOk(s.challenges, s.drawn, s.server.pending[k].snonce);
    }
    assert s'.challenges == s.challenges;
    assert s'.origin == s.origin[id := Origin(p.clientId, p.cnonce, p.snonce, addr, s.now)];
    IssuedTicket(w, s'.origin, id, NewSession(w, p, addr, s.now), wall);
    CreatedServer(w, s, s', key, r);
    CreatedReply(w, s, s', p, id, wall, ticket);
    RestLasts(w, s, s');
  }

  lemma CreatedServer(w: World, s: System, s': System, key: PendingKey, r: Random)
    requires ServerInv(w, s) && FreshRandom(s, r) && key in s.server.pending
    requires var p := s.server.pending[key];
             && s.now <= p.expiresAt && p.addr == key.addr
             && s'.server.pending == s.server.pending - {key}
             && s'.challenges == s.challenges && s.drawn <= s'.drawn
             && s'.origin == s.origin[r.sessionId := Origin(p.clientId, p.cnonce, p.snonce, key.addr, s.now)]
             && (forall i | i in s'.server.sessions && i != r.sessionId ::
                   i in s.server.sessions && s'.server.sessions[i] == s.server.sessions[i])
             && SessionOk(w, s'.server, s'.origin, r.sessionId)
    ensures ServerInv(w, s')
  {
    hide Fits, Seals, KeyOf, Identity;
    var id := r.sessionId;
    var p := s.server.pending[key];
    assert PendingOk(s.server, s.challenges, key);
    forall i ensures SessionOk(w, s'.server, s'.origin, i) {
      assert SessionOk(w, s.server, s.origin, i);
      if i in s'.server.sessions && i != id {
        TicketsLast(w, s.origin, s'.origin, s'.server.sessions[i].ticket);
      }
    }
    forall k ensures PendingOk(s'.server, s'.challenges, k) {
      assert PendingOk(s.server, s.challenges, k);
    }
    forall k, i ensures Unspent(s'.server, s'.origin, k, i) {
      assert Unspent(s.server, s.origin, k, i);
      assert PendingOk(s.server, s.challenges, k);
    }
    forall n ensures ChallengeOk(s'.challenges, s'.drawn, n) {
      assert ChallengeOk(s.challenges, s.drawn, n);
    }
    forall i ensures OriginOk(s'.challenges, s'.origin, i) {
      assert OriginOk(s.challenges, s.origin, i);
    }
    forall a, b ensures Apart(s'.origin, a, b) {
      assert Apart(s.origin, a, b);
      assert Unspent(s.server, s.origin, key, a) && Unspent(s.server, s.origin, key, b);
    }
  }

  lemma CreatedReply(w: World, s: System, s': System, p: Pending, id: int, wall: real, ticket: Bytes)
    requires SoundWorld(w) && Identity(p.clientId, p.cnonce) && |p.snonce| == NONCE_BYTES
    requires id in s'.origin && TicketFor(w, s'.origin, ticket, id)
    requires s'.origin[id].clientId == p.clientId && s'.origin[id].cnonce == p.cnonce
    requires s'.toClient == Add(s.toClient, Sent(AckPacket(ProveAck(w, p, id, wall, ticket))))
    ensures forall d | d in s'.toClient :: d in s.toClient || FromServer(w, s'.origin, d)
  {
    hide AckPacket, FromServer, TicketFor;
    var a := ProveAck(w, p, id, wall, ticket);
    assert Sized(a.clientId, [a.cnonce, a.snonce], a.mac);
    if AckPacket(a).Ok? {
      assert IsAck(w, s'.origin, a, AckPacket(a).value);
      AckIsFromServer(w, s'.origin, a, AckPacket(a).value);
    }
  }

  // What becomes of a PROVE: nothing if it finds no entry; the entry goes if it has expired; nothing if
  // the PROVE does not verify or the session's ticket cannot be sealed; else the entry is spent.
  ghost predicate ProveBecomes(w: World, s: System, s': System, body: Bytes, addr: Addr, wall: real, r: Random) {
    var same := s'.server == s.server && s'.origin == s.origin;
    match DecodeChallenge(body)
    case Err(_) => same
    case Ok(m) =>
      var key := PendingKey(addr, m.clientId, m.cnonce);
      if key !in s.server.pending then same
      else
        var p := s.server.pending[key];
        if p.expiresAt < s.now then s'.server == s.server.(pending := s.server.pending - {key}) && s'.origin == s.origin
        else if !VerifyProve(w, m, p, wall) || SessionTicket(w, r.sessionId, NewSession(w, p, addr, s.now), wall).Err? then same
        else Spends(w, s, s', key, r.sessionId)
  }

  lemma ProveStep(w: World, s: System, data: Bytes, addr: Addr, wall: real, r: Random)
    requires SoundWorld(w) && Inv(w, s) && FreshRandom(s, r) && ServerSplit(data).Ok?
    ensures var (server', reply) := HandleProve(w, s.server, ServerSplit(data).value.body, addr, s.now, wall, r.sessionId);
            var s' := Recorded(s, server', reply, data, addr, r);
            Inv(w, s') && ProveBecomes(w, s, s', ServerSplit(data).value.body, addr, wall, r) && s'.challenges == s.challenges
  {
    hide Inv, ServerSplit, DecodeChallenge, SessionTicket, NewSession, ProveAck, AckPacket, FreshRandom, Sound, SoundHash, Recorded,
         VerifyProve, OnlyPathChallenge, Spends;
    var body := ServerSplit(data).value.body;
    QuietServerStep(w, s, data, addr, r);
    NothingHappens(w, s, data, addr, r);
    if DecodeChallenge(body).Ok? {
      var m := DecodeChallenge(body).value;
      var key := PendingKey(addr, m.clientId, m.cnonce);
      if key in s.server.pending {
        var p := s.server.pending[key];
        if p.expiresAt < s.now {
          NoPathChallenge();
          var server' := s.server.(pending := s.server.pending - {key});
          RecordedServer(s, server', None, data, addr, r);
          ExpiredEntry(w, s, key, data, addr, r);
          QuietStep(w, s, Recorded(s, server', None, data, addr, r), data, addr, r, None);
        } else if SessionTicket(w, r.sessionId, NewSession(w, p, addr, s.now), wall).Ok? && VerifyProve(w, m, p, wall) {
          var ticket := SessionTicket(w, r.sessionId, NewSession(w, p, addr, s.now), wall).value;
          var (server', reply) := HandleProve(w, s.server, body, addr, s.now, wall, r.sessionId);
          CreateStep(w, s, Recorded(s, server', reply, data, addr, r), m, addr, wall, r, ticket, data);
        }
      }
    }
  }

  lemma ExpiredEntry(w: World, s: System, key: PendingKey, data: Bytes, addr: Addr, r: Random)
    requires Inv(w, s) && FreshRandom(s, r)
    ensures var s' := Recorded(s, s.server.(pending := s.server.pending - {key}), None, data, addr, r);
            s'.challenges == s.challenges && s'.origin == s.origin
  {
    hide ServerInv, Stored, Created, FreshRandom, FromClient, FromServer, ClientOk;
    QuietHistory(w, s, s.server.(pending := s.server.pending - {key}), data, addr, r);
  }

  lemma RecordedServer(s: System, server': Server, reply: Option<Bytes>, data: Bytes, addr: Addr, r: Random)
    ensures Recorded(s, server', reply, data, addr, r).server == server'
  {
  }

  // ---------- a datagram reaches the server ----------

  lemma ServerGetsStep(w: World, s: System, data: Bytes, addr: Addr, wall: real, r: Random)
    requires SoundWorld(w) && Inv(w, s) && ReachesServer(s, data, r)
    ensures Inv(w, ServerStep(w, s, data, addr, wall, r))
  {
    hide ServerInv, ClientOk, FromServer, ServerSplit, FreshRandom, Sound, SoundHash, Recorded, HandleHello, HandleProve, HandlePing,
         HandleTraffic, HandlePathResponse, OnlyPathChallenge, Quiet, IsHello, IsProve;
    QuietServerStep(w, s, data, addr, r);
    if ServerSplit(data).Ok? {
      var d := ServerSplit(data).value;
      if d.header.msgType == MSG_HELLO {
        HelloStep(w, s, data, addr, wall, r);
      } else if d.header.msgType == MSG_PROVE {
        ProveStep(w, s, data, addr, wall, r);
      } else {
        OtherDatagramsQuiet(w, s.server, d, addr, s.now, r);
        NoPathChallenge();
        var (server', reply) := Receive(w, s.server, data, addr, s.now, wall, r);
        RecordedServer(s, server', reply, data, addr, r);
        QuietStep(w, s, Recorded(s, server', reply, data, addr, r), data, addr, r, reply);
      }
    }
  }

  // ---------- a datagram reaches a client ----------

  // Whatever CHALLENGE a client can decode came from the server.
  lemma ReceivedChallenge(w: World, origin: map<int, Origin>, data: Bytes)
    requires FromServer(w, origin, data)
    requires ClientSplit(data).Ok? && ClientSplit(data).value.header.msgType == MSG_CHALLENGE
    ensures exists m: Challenge :: Sized(m.clientId, [m.cnonce, m.snonce], m.mac) && DecodeChallenge(ClientSplit(data).value.body) == Ok(m)
  {
    hide ClientSplit, Packet, DecodeAck, DecodeChallenge, Sized, TicketFor;
    if m :| IsChallenge(m, data) {
      ChallengeDelivered(m);
      assert Sized(m.clientId, [m.cnonce, m.snonce], m.mac) && DecodeChallenge(ClientSplit(data).value.body) == Ok(m);
    } else {
      var m :| IsAck(w, origin, m, data);
      AckDelivered(m);
    }
  }

  // Whatever ACK a client can decode came from the server.
  lemma ReceivedAck(w: World, origin: map<int, Origin>, data: Bytes)
    requires FromServer(w, origin, data)
    requires ClientSplit(data).Ok? && ClientSplit(data).value.header.msgType == MSG_ACK
    ensures DecodeAck(ClientSplit(data).value.body).Ok? && IsAck(w, origin, DecodeAck(ClientSplit(data).value.body).value, data)
  {
    hide ClientSplit, Packet, DecodeAck, DecodeChallenge, Sized, TicketFor;
    if m :| IsAck(w, origin, m, data) {
      AckDelivered(m);
    } else {
      var m :| IsChallenge(m, data);
      ChallengeDelivered(m);
    }
  }

  lemma ProveReply(w: World, origin: map<int, Origin>, c: Client, data: Bytes, wall: real)
    requires SoundWorld(w) && FromServer(w, origin, data)
    requires ClientSplit(data).Ok? && ClientSplit(data).value.header.msgType == MSG_CHALLENGE
    ensures var reply := OnChallenge(w, c, ClientSplit(data).value.body, wall);
            reply.Some? ==> FromClient(w, origin, reply.value)
  {
    hide ClientSplit, DecodeChallenge, ProvePacket, ChallengeMac, HasType, IsHello, FromServer;
    ReceivedChallenge(w, origin, data);
    var m: Challenge :| Sized(m.clientId, [m.cnonce, m.snonce], m.mac) && DecodeChallenge(ClientSplit(data).value.body) == Ok(m);
    assert m.cnonce in [m.cnonce, m.snonce] && m.snonce in [m.cnonce, m.snonce];
    var ts := Trunc(wall);
    var prove := m.(ts := ts, mac := ProveMac(w, m.clientId, m.cnonce, m.snonce, m.cookie, ts));
    if ProvePacket(prove).Ok? {
      assert IsProve(prove, ProvePacket(prove).value);
    }
  }

  lemma PathReply(w: World, origin: map<int, Origin>, c: Client, id: int, body: Bytes)
    ensures var reply := OnPathChallenge(c, id, body);
            reply.Some? ==> FromClient(w, origin, reply.value)
  {
    hide Packet, ServerSplit, ClientSplit;
    FieldWidths();
    if OnPathChallenge(c, id, body).Some? {
      PacketDelivered(MSG_PATH_RESPONSE, id, body);
    }
  }

  // What a client holds after an ACK that it accepts.
  lemma AckAgrees(w: World, s: System, c: Client, data: Bytes, wall: real)
    requires SoundWorld(w) && FromServer(w, s.origin, data) && Accepted(c, data).Some?
    ensures var m := Accepted(c, data).value;
            var c' := OnAck(w, c, ClientSplit(data).value.body, wall);
            && IsAck(w, s.origin, m, data)
            && c' == c.(ticket := m.ticket, session := c'.session) && GoodTicket(w, s.origin, c'.ticket)
            && c'.session.Some? && c'.session.value.id == m.sessionId
            && (!IsLate(w, s, m, wall) ==> c'.session.value.key == KeyOf(w, s.origin[m.sessionId]))
            && (IsLate(w, s, m, wall) ==> LateKey(w, s.origin[m.sessionId], c'.session.value.key, m.cnonce, m.snonce))
  {
    hide ClientSplit, DecodeAck, FromServer, RestoreTicket, DeriveSessionKey, Sound, SoundHash, AckPacket, EncodeTicketPayload, SealTicket;
    ReceivedAck(w, s.origin, data);
    var m := Accepted(c, data).value;
    var p: TicketPayload :| p.sessionId == m.sessionId && Seals(w, s.origin, p, m.ticket);
    TicketRestores(w, s.origin, p, m.ticket, m.clientId, wall);
  }

  // A client that accepts nothing keeps its session; any reply is a PROVE or a path response.
  lemma ClientKept(w: World, s: System, i: int, data: Bytes, wall: real)
    requires SoundWorld(w) && Inv(w, s) && ReachesClient(s, i, data) && Accepted(s.clients[i], data).None?
    ensures var (c', reply) := ClientReceive(w, s.clients[i], data, wall);
            c' == s.clients[i] && (reply.Some? ==> FromClient(w, s.origin, reply.value))
  {
    hide ServerInv, ClientOk, FromServer, FromClient, ClientSplit, DecodeAck, OnChallenge, OnPathChallenge, Sound, SoundHash;
    if ClientSplit(data).Ok? {
      var d := ClientSplit(data).value;
      if d.header.msgType == MSG_CHALLENGE {
        ProveReply(w, s.origin, s.clients[i], data, wall);
      } else if d.header.msgType == MSG_PATH_CHALLENGE {
        PathReply(w, s.origin, s.clients[i], d.header.sessionId, d.body);
      }
    }
  }

  // One client moves, and possibly sends.
  lemma OneClient(w: World, s: System, s': System, i: int, packet: Option<Bytes>)
    requires Inv(w, s)
    requires s' == s.(clients := s'.clients, toServer := Add(s.toServer, packet), late := s'.late)
    requires packet.Some? ==> FromClient(w, s.origin, packet.value)
    requires forall j | j != i :: (j in s'.clients <==> j in s.clients) && (j in s'.late <==> j in s.late)
    requires forall j | j != i && j in s.clients :: s'.clients[j] == s.clients[j]
    requires ClientOk(w, s', i)
    ensures Inv(w, s')
  {
    hide FromClient, FromServer, GoodTicket, KeyOf, LateKey, SessionOk, PendingOk, OriginOk, ChallengeOk, Unspent, Apart;
    assert ServerInv(w, s');
    forall j ensures ClientOk(w, s', j) {
      assert ClientOk(w, s, j);
    }
  }

  lemma ClientGetsStep(w: World, s: System, i: int, data: Bytes, wall: real)
    requires SoundWorld(w) && Inv(w, s) && ReachesClient(s, i, data)
    ensures Inv(w, ClientStep(w, s, i, data, wall))
  {
    hide ServerInv, FromServer, FromClient, ClientSplit, DecodeAck, OnAck, OnChallenge, OnPathChallenge, Sound, SoundHash, IsLate,
         GoodTicket, KeyOf, LateKey, IsAck;
    var c := s.clients[i];
    var s' := ClientStep(w, s, i, data, wall);
    assert ClientOk(w, s, i);
    if Accepted(c, data).Some? {
      AckAgrees(w, s, c, data, wall);
      AckKnown(w, s.origin, Accepted(c, data).value, data);
      assert ClientOk(w, s', i);
      OneClient(w, s, s', i, None);
    } else {
      ClientKept(w, s, i, data, wall);
      assert ClientOk(w, s', i);
      OneClient(w, s, s', i, ClientReceive(w, c, data, wall).1);
    }
  }

  lemma AckKnown(w: World, origin: map<int, Origin>, m: Ack, data: Bytes)
    requires IsAck(w, origin, m, data)
    ensures m.sessionId in origin && m.clientId == origin[m.sessionId].clientId
  {
  }

  lemma OpenStep(w: World, s: System, i: int, cnonce: Bytes, wall: real)
    requires SoundWorld(w) && Inv(w, s) && i in s.clients && |cnonce| == NONCE_BYTES
    ensures Inv(w, Apply(w, s, Open(i, cnonce, wall)))
  {
    hide ServerInv, FromServer, HelloPacket, HelloMac, GoodTicket, KeyOf, LateKey, HasType, IsProve;
    var c := s.clients[i];
    var s' := Apply(w, s, Open(i, cnonce, wall));
    assert ClientOk(w, s, i);
    var ts := Trunc(wall);
    var m := Hello(c.clientId, cnonce, ts, c.ticket, HelloMac(w, c.clientId, cnonce, ts, c.ticket));
    HelloMacSize(w, c.clientId, cnonce, ts, c.ticket);
    if HelloPacket(m).Ok? {
      assert IsHello(w, s.origin, m, HelloPacket(m).value);
    }
    assert ClientOk(w, s', i);
    OneClient(w, s, s', i, Sent(HelloPacket(m)));
  }

  lemma HelloMacSize(w: World, clientId: Text, cnonce: Bytes, ts: int, ticket: Bytes)
    requires SoundWorld(w)
    ensures |HelloMac(w, clientId, cnonce, ts, ticket)| == MAC_SIZE
  {
  }

  lemma NewClientStep(w: World, s: System, i: int, clientId: Text)
    requires Inv(w, s) && i !in s.clients
    ensures Inv(w, Apply(w, s, NewClient(i, clientId)))
  {
    hide ServerInv, FromClient, FromServer, KeyOf, LateKey;
    var s' := Apply(w, s, NewClient(i, clientId));
    assert ClientOk(w, s', i);
    OneClient(w, s, s', i, None);
  }

  lemma CleanupQuiet(s: Server, now: real)
    ensures Quiet(s, Cleanup(s, now)) && Quiet(s, s)
  {
  }

  lemma OtherSteps(w: World, s: System, step: Step)
    requires Inv(w, s)
    requires step.LoseToServer? || step.LoseToClient? || step.CleanupPass? || step.Tick?
    ensures Inv(w, Apply(w, s, step))
  {
    hide ServerInv, FromClient, FromServer, ClientOk, Cleanup, Quiet;
    var s' := Apply(w, s, step);
    CleanupQuiet(s.server, s.now);
    QuietKeepsServer(w, s, s');
    RestLasts(w, s, s');
  }

  lemma EveryStep(w: World, s: System, step: Step)
    requires SoundWorld(w) && Inv(w, s)
    ensures Inv(w, Apply(w, s, step))
  {
    hide Inv, ServerStep, ClientStep, FreshRandom, Sound, SoundHash;
    match step
    case ServerGets(data, addr, wall, r) =>
      if ReachesServer(s, data, r) {
        ServerGetsStep(w, s, data, addr, wall, r);
      }
    case ClientGets(i, data, wall) =>
      if ReachesClient(s, i, data) {
        ClientGetsStep(w, s, i, data, wall);
      }
    case Open(i, cnonce, wall) =>
      if i in s.clients && |cnonce| == NONCE_BYTES {
        OpenStep(w, s, i, cnonce, wall);
      }
    case NewClient(i, clientId) =>
      if i !in s.clients {
        NewClientStep(w, s, i, clientId);
      }
    case _ =>
      OtherSteps(w, s, step);
  }

  lemma {:induction false} Reachable(w: World, steps: seq<Step>)
    requires SoundWorld(w)
    ensures Inv(w, Run(w, steps))
  {
    hide Sound, SoundHash, KeyOf, Apply;
    if steps != [] {
      Reachable(w, steps[..|steps| - 1]);
      EveryStep(w, Run(w, steps[..|steps| - 1]), steps[|steps| - 1]);
    }
  }
}
