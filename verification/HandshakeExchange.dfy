// Undisturbed exchanges complete: nothing that one end builds from the other end's data is refused.
module HandshakeExchange {
  import opened Common
  import opened Codec
  import opened Primitives
  import opened Security
  import opened Handshake
  import opened HandshakeSystem
  import opened HandshakeSafety
  import opened HandshakeTheorems

  // The two ends' wall clocks at the five moments of an exchange.
  datatype Clocks = Clocks(connect: real, hello: real, challenge: real, prove: real, ack: real)

  // The clocks fit the timestamps and are within the allowed skew of each other.
  predicate InStep(w: World, k: Clocks) {
    && Fits(Trunc(k.connect), 8) && Fits(Trunc(k.hello), 8) && Fits(Trunc(k.challenge), 8) && Fits(Trunc(k.prove), 8)
    && Fits(Trunc(k.hello + w.resumptionTtl), 8) && Fits(Trunc(k.prove + w.resumptionTtl), 8)
    && TsOk(Trunc(k.connect), k.hello) && TsOk(Trunc(k.challenge), k.prove)
  }

  // ---------- exactly what is refused ----------

  // The server verifies a HELLO exactly when its timestamp is within the skew and its mac is right;
  // otherwise the datagram has no effect.
  lemma HelloVerifiedIff(w: World, s: Server, m: Hello, addr: Addr, now: real, wall: real, r: Random)
    requires HelloPacket(m).Ok? && Sized(m.clientId, [m.cnonce], m.mac)
    ensures var data := HelloPacket(m).value;
            && ServerSplit(data).Ok?
            && var verified := VerifyHello(w, ServerSplit(data).value.body, wall);
               && (if -15 <= Trunc(wall) - m.ts <= 15 && m.mac == HelloMac(w, m.clientId, m.cnonce, m.ts, m.ticket)
                   then verified == Some(m) else verified == None)
               && (verified == None ==> Receive(w, s, data, addr, now, wall, r) == (s, None))
  {
    hide ServerSplit, DecodeHello, HelloMac, HelloPacket, Resume, StorePending, RestoreTicket, HandleProve, HandlePing,
         HandlePathResponse, HandleTraffic;
    HelloDelivered(m);
  }

  // The server turns a pending entry into a session exactly when the PROVE comes in time, repeats the
  // entry's server nonce and cookie, and has a timestamp within the skew and the right mac.
  lemma ProveCreatesIff(w: World, s: Server, m: Challenge, addr: Addr, now: real, wall: real, r: Random)
    requires SoundWorld(w) && ProvePacket(m).Ok? && Sized(m.clientId, [m.cnonce, m.snonce], m.mac)
    requires 110 + |m.clientId| + |m.cookie| <= MAX_PACKET_SIZE
    requires var key := PendingKey(addr, m.clientId, m.cnonce);
             key in s.pending && s.pending[key].clientId == m.clientId && s.pending[key].cnonce == m.cnonce
    requires r.sessionId !in s.sessions && Fits(r.sessionId, 8) && Fits(Trunc(wall), 8) && Fits(Trunc(wall + w.resumptionTtl), 8)
    ensures var p := s.pending[PendingKey(addr, m.clientId, m.cnonce)];
            var (s', reply) := Receive(w, s, ProvePacket(m).value, addr, now, wall, r);
            && (r.sessionId in s'.sessions <==>
                && now <= p.expiresAt && m.snonce == p.snonce && m.cookie == p.cookie
                && -15 <= Trunc(wall) - m.ts <= 15 && m.mac == ProveMac(w, m.clientId, m.cnonce, m.snonce, m.cookie, m.ts))
            && (r.sessionId !in s'.sessions ==> s'.sessions == s.sessions && reply == None)
  {
    hide ServerSplit, DecodeChallenge, ProveMac, ProvePacket, SessionTicket, DeriveSessionKey, AckPacket, ProveAck, HandleHello, HandlePing,
         HandlePathResponse, HandleTraffic, Sound, SoundHash;
    ProveDelivered(m);
    var p := s.pending[PendingKey(addr, m.clientId, m.cnonce)];
    SessionKeySize(w.hash, w.psk, p.clientId, p.cnonce, p.snonce);
    TicketFits(w, r.sessionId, NewSession(w, p, addr, now), wall);
  }

  // A client proves exactly the challenges that are for its own identity and current nonce and have
  // the right mac.
  lemma ChallengeAnsweredIff(w: World, c: Client, m: Challenge, wall: real)
    requires SoundWorld(w) && ChallengePacket(m).Ok? && Sized(m.clientId, [m.cnonce, m.snonce], m.mac) && Fits(Trunc(wall), 8)
    ensures ClientReceive(w, c, ChallengePacket(m).value, wall).0 == c
    ensures ClientReceive(w, c, ChallengePacket(m).value, wall).1.Some? <==>
            && m.clientId == c.clientId && c.cnonce == Some(m.cnonce)
            && m.mac == ChallengeMac(w, m.clientId, m.cnonce, m.snonce, m.cookie, m.ts)
  {
    hide ClientSplit, DecodeChallenge, ChallengeMac, ProveMac, ChallengePacket, ProvePacket, OnAck, OnPathChallenge, Sound, SoundHash;
    ChallengeDelivered(m);
    ProvePacketFits(w, m, wall);
  }

  // A client answers exactly the path challenges of 16 bytes for its own session, with the token itself.
  lemma PathChallengeAnsweredIff(w: World, c: Client, id: int, token: Bytes, wall: real)
    requires Packet(MSG_PATH_CHALLENGE, id, token).Ok?
    ensures ClientReceive(w, c, Packet(MSG_PATH_CHALLENGE, id, token).value, wall)
         == (c, if c.session.Some? && c.session.value.id == id && |token| == 16
                then Some(Packet(MSG_PATH_RESPONSE, id, token).value) else None)
    ensures Packet(MSG_PATH_RESPONSE, id, token).Ok?
  {
    hide ClientSplit, ServerSplit, OnChallenge, OnAck;
    FieldWidths();
    PacketDelivered(MSG_PATH_CHALLENGE, id, token);
  }

  // This packet is the ACK for session `id` of these nonces, with this ticket, made now and authentic.
  ghost predicate Acknowledges(w: World, data: Bytes, id: int, clientId: Text, cnonce: Bytes, snonce: Bytes, wall: real, ticket: Bytes) {
    && ClientSplit(data).Ok? && ClientSplit(data).value.header.msgType == MSG_ACK
    && exists mac ::
         && DecodeAck(ClientSplit(data).value.body) == Ok(Ack(id, clientId, cnonce, snonce, Trunc(wall), ticket, mac))
         && mac == MacOf(w.hash, w.psk, [ACK, Decimal(id), clientId, cnonce, snonce, Decimal(Trunc(wall)), ticket])
  }

  // The reply to a PROVE acknowledges the session just created, and the reply to a resumption the
  // session just restored, with the ticket that the server keeps for it.
  lemma ProveAcknowledged(w: World, s: Server, body: Bytes, addr: Addr, now: real, wall: real, id: int)
    requires SoundWorld(w) && HandleProve(w, s, body, addr, now, wall, id).1.Some? && DecodeChallenge(body).Ok?
    requires var m := DecodeChallenge(body).value; Identity(m.clientId, m.cnonce) && |m.snonce| == NONCE_BYTES
    ensures var m := DecodeChallenge(body).value;
            var (s', reply) := HandleProve(w, s, body, addr, now, wall, id);
            id in s'.sessions && Acknowledges(w, reply.value, id, m.clientId, m.cnonce, m.snonce, wall, s'.sessions[id].ticket)
  {
    hide ClientSplit, DecodeAck, DecodeChallenge, SessionTicket, AckPacket, ProveMac, DeriveSessionKey, AckMac, Sound, SoundHash;
    var m := DecodeChallenge(body).value;
    var p := s.pending[PendingKey(addr, m.clientId, m.cnonce)];
    var ticket := SessionTicket(w, id, NewSession(w, p, addr, now), wall).value;
    AckReads(w, ProveAck(w, p, id, wall, ticket), wall);
  }

  lemma ResumeAcknowledged(w: World, s: Server, m: Hello, agreed: Agreed, addr: Addr, now: real, wall: real, snonce: Bytes)
    requires SoundWorld(w) && Identity(m.clientId, m.cnonce) && |snonce| == NONCE_BYTES
    requires Resume(w, s, m, agreed, addr, now, wall, snonce).1.Some?
    ensures var (s', reply) := Resume(w, s, m, agreed, addr, now, wall, snonce);
            && agreed.id in s'.sessions
            && Acknowledges(w, reply.value, agreed.id, m.clientId, m.cnonce, snonce, wall, s'.sessions[agreed.id].ticket)
  {
    hide ClientSplit, DecodeAck, SessionTicket, AckPacket, AckMac, Resumed, Sound, SoundHash;
    var ticket := SessionTicket(w, agreed.id, Resumed(w, s, m, agreed, addr, now), wall).value;
    AckReads(w, ResumeAck(w, m, agreed.id, snonce, wall, ticket), wall);
  }

  lemma AckReads(w: World, m: Ack, wall: real)
    requires SoundWorld(w) && AckPacket(m).Ok? && Identity(m.clientId, m.cnonce) && |m.snonce| == NONCE_BYTES
    requires m.ts == Trunc(wall) && m.mac == AckMac(w, m.sessionId, m.clientId, m.cnonce, m.snonce, m.ts, m.ticket)
    ensures Acknowledges(w, AckPacket(m).value, m.sessionId, m.clientId, m.cnonce, m.snonce, wall, m.ticket)
  {
    hide ClientSplit, DecodeAck, AckPacket, MacOf, Sound, SoundHash, Trunc;
    AckMacSize(w, m);
    AckDelivered(m);
  }

  lemma ProvePacketFits(w: World, m: Challenge, wall: real)
    requires SoundWorld(w) && ChallengePacket(m).Ok? && Sized(m.clientId, [m.cnonce, m.snonce], m.mac) && Fits(Trunc(wall), 8)
    ensures var ts := Trunc(wall);
            ProvePacket(m.(ts := ts, mac := ProveMac(w, m.clientId, m.cnonce, m.snonce, m.cookie, ts))).Ok?
  {
    hide ProveMac, PackHeader, Sound, SoundHash;
    FieldWidths();
    assert m.cnonce in [m.cnonce, m.snonce] && m.snonce in [m.cnonce, m.snonce];
    ProveMacSize(w, m, Trunc(wall));
  }

  lemma ProveMacSize(w: World, m: Challenge, ts: int)
    requires SoundWorld(w)
    ensures |ProveMac(w, m.clientId, m.cnonce, m.snonce, m.cookie, ts)| == MAC_SIZE
  {
  }

  // ---------- the four datagrams ----------

  function ChallengeFor(w: World, p: Pending, wall: real): Challenge {
    var ts := Trunc(wall);
    Challenge(p.clientId, p.cnonce, p.snonce, p.cookie, ts, ChallengeMac(w, p.clientId, p.cnonce, p.snonce, p.cookie, ts))
  }

  function PendingFor(w: World, c: Client, addr: Addr, cnonce: Bytes, snonce: Bytes, ts: int, now: real): Pending {
    Pending(c.clientId, addr, cnonce, snonce, CookieOf(w, addr, c.clientId, cnonce, ts), ts, now, now + w.pendingTtl)
  }

  // The HELLO reaches the server intact.
  lemma HelloArrives(w: World, s: Server, c: Client, addr: Addr, cnonce: Bytes, r: Random, now: real, connect: real, wall: real)
    requires SoundWorld(w) && Identity(c.clientId, cnonce) && |c.ticket| <= MAX_TICKET_BYTES
    requires Fits(Trunc(connect), 8) && TsOk(Trunc(connect), wall)
    ensures var (c', hello) := Connect(w, c, cnonce, connect);
            && hello.Ok? && c' == c.(cnonce := Some(cnonce))
            && ServerSplit(hello.value).Ok? && ServerSplit(hello.value).value.header.msgType == MSG_HELLO
            && var m := VerifyHello(w, ServerSplit(hello.value).value.body, wall);
               m.Some? && m.value.clientId == c.clientId && m.value.cnonce == cnonce && m.value.ticket == c.ticket
               && m.value.ts == Trunc(connect)
  {
    hide DecodeHello, ServerSplit, HelloMac, PackHeader, Sound, SoundHash;
    FieldWidths();
    var ts := Trunc(connect);
    HelloMacSize(w, c.clientId, cnonce, ts, c.ticket);
    var m := Hello(c.clientId, cnonce, ts, c.ticket, HelloMac(w, c.clientId, cnonce, ts, c.ticket));
    HelloDelivered(m);
  }

  lemma ChallengeArrives(w: World, c: Client, p: Pending, sent: real, wall: real)
    requires SoundWorld(w) && Identity(p.clientId, p.cnonce) && |p.snonce| == NONCE_BYTES && |p.cookie| == HASH_SIZE
    requires c.clientId == p.clientId && c.cnonce == Some(p.cnonce)
    requires Fits(Trunc(sent), 8) && Fits(Trunc(wall), 8)
    ensures var data := ChallengePacket(ChallengeFor(w, p, sent));
            && data.Ok?
            && ClientReceive(w, c, data.value, wall) == (c, Some(ProvePacket(Proof(w, p, wall)).value))
            && ProvePacket(Proof(w, p, wall)).Ok?
  {
    hide DecodeChallenge, ClientSplit, ChallengeMac, ProveMac, ChallengePacket, ProvePacket, OnAck, OnPathChallenge, Sound, SoundHash;
    MacSizes(w, p, Trunc(sent));
    var m := ChallengeFor(w, p, sent);
    assert Sized(m.clientId, [m.cnonce, m.snonce], m.mac);
    ChallengeFits(w, p, sent);
    ChallengeDelivered(m);
    ProvePacketFits(w, m, wall);
  }

  lemma ChallengeFits(w: World, p: Pending, sent: real)
    requires SoundWorld(w) && Identity(p.clientId, p.cnonce) && |p.snonce| == NONCE_BYTES && |p.cookie| == HASH_SIZE
    requires Fits(Trunc(sent), 8)
    ensures ChallengePacket(ChallengeFor(w, p, sent)).Ok?
  {
    hide ChallengeMac, PackHeader, Sound, SoundHash;
    FieldWidths();
    MacSizes(w, p, Trunc(sent));
  }

  lemma MacSizes(w: World, p: Pending, ts: int)
    requires SoundWorld(w)
    ensures |ChallengeMac(w, p.clientId, p.cnonce, p.snonce, p.cookie, ts)| == MAC_SIZE
    ensures |ProveMac(w, p.clientId, p.cnonce, p.snonce, p.cookie, ts)| == MAC_SIZE
  {
  }

  function Proof(w: World, p: Pending, wall: real): Challenge {
    var ts := Trunc(wall);
    Challenge(p.clientId, p.cnonce, p.snonce, p.cookie, ts, ProveMac(w, p.clientId, p.cnonce, p.snonce, p.cookie, ts))
  }

  // A ticket for a session of a proper client is sealed, and is short enough for every encoder.
  lemma TicketFits(w: World, id: int, session: Session, wall: real)
    requires SoundWorld(w) && Fits(id, 8) && |session.clientId| <= MAX_CLIENT_ID_BYTES && |session.key| == KEY_SIZE
    requires Fits(Trunc(wall), 8) && Fits(Trunc(wall + w.resumptionTtl), 8)
    ensures var ticket := SessionTicket(w, id, session, wall);
            ticket.Ok? && |ticket.value| == 86 + |session.clientId| <= 214 <= MAX_TICKET_BYTES
  {
    hide SealTicket, Sound, SoundHash;
    var p := TicketPayload(id, Trunc(wall), Trunc(wall + w.resumptionTtl), session.clientId, session.key);
    SealedTicketOpens(w.hash, w.aead, w.psk, EncodeTicketPayload(p).value);
  }

  lemma ProveArrives(w: World, s: Server, p: Pending, r: Random, now: real, sent: real, wall: real)
    requires SoundWorld(w) && Identity(p.clientId, p.cnonce) && |p.snonce| == NONCE_BYTES && |p.cookie| == HASH_SIZE
    requires Fits(Trunc(sent), 8) && TsOk(Trunc(sent), wall) && Fits(Trunc(wall), 8) && Fits(Trunc(wall + w.resumptionTtl), 8)
    requires var key := PendingKey(p.addr, p.clientId, p.cnonce);
             key in s.pending && s.pending[key] == p && now <= p.expiresAt
    requires Fits(r.sessionId, 8)
    ensures var session := NewSession(w, p, p.addr, now);
            var ticket := SessionTicket(w, r.sessionId, session, wall);
            && ProvePacket(Proof(w, p, sent)).Ok? && ticket.Ok? && |ticket.value| <= MAX_TICKET_BYTES
            && AckPacket(ProveAck(w, p, r.sessionId, wall, ticket.value)).Ok?
            && Receive(w, s, ProvePacket(Proof(w, p, sent)).value, p.addr, now, wall, r)
               == (Server(s.pending - {PendingKey(p.addr, p.clientId, p.cnonce)}, s.sessions[r.sessionId := session.(ticket := ticket.value)]),
                   Some(AckPacket(ProveAck(w, p, r.sessionId, wall, ticket.value)).value))
  {
    hide Packet, ServerSplit, DecodeChallenge, HandleProve, HandleHello, HandlePing, HandlePathResponse, HandleTraffic, SessionTicket,
         AckPacket, ProvePacket, ProveAck, NewSession, Sound, SoundHash;
    ProofRead(w, p, sent);
    ProofAccepted(w, s, p, r, now, sent, wall, ServerSplit(ProvePacket(Proof(w, p, sent)).value).value.body);
  }

  lemma ProofRead(w: World, p: Pending, sent: real)
    requires SoundWorld(w) && Identity(p.clientId, p.cnonce) && |p.snonce| == NONCE_BYTES && |p.cookie| == HASH_SIZE
    requires Fits(Trunc(sent), 8)
    ensures ProvePacket(Proof(w, p, sent)).Ok?
    ensures var d := ServerSplit(ProvePacket(Proof(w, p, sent)).value);
            d.Ok? && d.value.header.msgType == MSG_PROVE && DecodeChallenge(d.value.body) == Ok(Proof(w, p, sent))
  {
    hide DecodeChallenge, ServerSplit, ProveMac, PackHeader, Sound, SoundHash;
    FieldWidths();
    var m := Proof(w, p, sent);
    MacSizes(w, p, Trunc(sent));
    assert Sized(m.clientId, [m.cnonce, m.snonce], m.mac);
    ProveDelivered(m);
  }

  lemma ProofAccepted(w: World, s: Server, p: Pending, r: Random, now: real, sent: real, wall: real, body: Bytes)
    requires SoundWorld(w) && Identity(p.clientId, p.cnonce) && |p.snonce| == NONCE_BYTES
    requires TsOk(Trunc(sent), wall) && Fits(Trunc(wall), 8) && Fits(Trunc(wall + w.resumptionTtl), 8) && Fits(r.sessionId, 8)
    requires var key := PendingKey(p.addr, p.clientId, p.cnonce);
             key in s.pending && s.pending[key] == p && now <= p.expiresAt
    requires DecodeChallenge(body) == Ok(Proof(w, p, sent))
    ensures var session := NewSession(w, p, p.addr, now);
            var ticket := SessionTicket(w, r.sessionId, session, wall);
            && ticket.Ok? && |ticket.value| <= MAX_TICKET_BYTES
            && AckPacket(ProveAck(w, p, r.sessionId, wall, ticket.value)).Ok?
            && HandleProve(w, s, body, p.addr, now, wall, r.sessionId)
               == (Server(s.pending - {PendingKey(p.addr, p.clientId, p.cnonce)}, s.sessions[r.sessionId := session.(ticket := ticket.value)]),
                   Some(AckPacket(ProveAck(w, p, r.sessionId, wall, ticket.value)).value))
  {
    hide DecodeChallenge, ProveMac, AckPacket, SessionTicket, DeriveSessionKey, ProveAck, TsOk, Sound, SoundHash;
    SessionKeySize(w.hash, w.psk, p.clientId, p.cnonce, p.snonce);
    var session := NewSession(w, p, p.addr, now);
    TicketFits(w, r.sessionId, session, wall);
    AckFits(w, p, r.sessionId, wall, SessionTicket(w, r.sessionId, session, wall).value);
  }

  lemma AckFits(w: World, p: Pending, id: int, wall: real, ticket: Bytes)
    requires SoundWorld(w) && Identity(p.clientId, p.cnonce) && |p.snonce| == NONCE_BYTES && |ticket| <= MAX_TICKET_BYTES
    requires Fits(id, 8) && Fits(Trunc(wall), 8)
    ensures AckPacket(ProveAck(w, p, id, wall, ticket)).Ok?
  {
    hide AckMac, PackHeader, Sound, SoundHash;
    FieldWidths();
    AckMacSize(w, ProveAck(w, p, id, wall, ticket));
  }

  lemma AckMacSize(w: World, m: Ack)
    requires SoundWorld(w)
    ensures |AckMac(w, m.sessionId, m.clientId, m.cnonce, m.snonce, m.ts, m.ticket)| == MAC_SIZE
  {
  }

  // The ACK reaches the client intact.
  lemma AckArrives(w: World, c: Client, m: Ack, wall: real)
    requires SoundWorld(w) && AckPacket(m).Ok? && Sized(m.clientId, [m.cnonce, m.snonce], m.mac) && m.ticket != []
    requires c.clientId == m.clientId && c.cnonce == Some(m.cnonce)
    ensures var restored := RestoreTicket(w, m.ticket, m.clientId, wall);
            var derived := Some(Agreed(m.sessionId, DeriveSessionKey(w.hash, w.psk, m.clientId, m.cnonce, m.snonce)));
            ClientReceive(w, c, AckPacket(m).value, wall)
            == (c.(ticket := m.ticket, session := if restored.Some? then restored else derived), None)
  {
    hide DecodeAck, ClientSplit, RestoreTicket, DeriveSessionKey, AckPacket, Sound, SoundHash;
    AckDelivered(m);
  }

  // Cleanup passes at these times.
  function Passes(s: Server, times: seq<real>): Server {
    if times == [] then s else Cleanup(Passes(s, times[..|times| - 1]), times[|times| - 1])
  }

  lemma {:induction false} PassesKeep(s: Server, times: seq<real>, key: PendingKey)
    requires key in s.pending && forall i | 0 <= i < |times| :: times[i] <= s.pending[key].expiresAt
    ensures key in Passes(s, times).pending && Passes(s, times).pending[key] == s.pending[key]
  {
    if times != [] {
      PassesKeep(s, times[..|times| - 1], key);
    }
  }

  // A new client and a server with room, clocks within the skew, and the PROVE and any number of cleanup
  // passes before it no later than the pending entry's expiry: both ends then hold one session with one
  // key, whenever the ACK arrives.
  lemma FullHandshake(w: World, s: Server, c: Client, addr: Addr, cnonce: Bytes, r1: Random, r2: Random, t1: real, t2: real, k: Clocks,
      passes: seq<real>)
    requires SoundWorld(w) && Identity(c.clientId, cnonce) && |r1.nonce| == NONCE_BYTES && Fits(r2.sessionId, 8)
    requires c.ticket == [] && |s.sessions| < w.maxClients && InStep(w, k) && t2 <= t1 + w.pendingTtl
    requires forall i | 0 <= i < |passes| :: passes[i] <= t1 + w.pendingTtl
    ensures var (c1, hello) := Connect(w, c, cnonce, k.connect);
            && hello.Ok?
            && var (s1, challenge) := Receive(w, s, hello.value, addr, t1, k.hello, r1);
            && challenge.Some? && s1.sessions == s.sessions
            && var (c2, prove) := ClientReceive(w, c1, challenge.value, k.challenge);
            && prove.Some?
            && var later := Passes(s1, passes);
            && var (s2, ack) := Receive(w, later, prove.value, addr, t2, k.prove, r2);
            && ack.Some?
            && var (c3, none) := ClientReceive(w, c2, ack.value, k.ack);
            && none == None && c3.clientId == c.clientId
            && c3.session.Some? && c3.session.value.id == r2.sessionId && r2.sessionId in s2.sessions
            && s2.sessions[r2.sessionId].key == c3.session.value.key
            && s2.sessions[r2.sessionId].clientId == c.clientId && s2.sessions[r2.sessionId].addr == addr
            && s2.sessions == later.sessions[r2.sessionId := s2.sessions[r2.sessionId]]
            && s2.sessions[r2.sessionId].ticket == c3.ticket != []
            && RestoresUntil(w, c3.ticket, c.clientId, c3.session.value, Trunc(k.prove + w.resumptionTtl))
  {
    hide Receive, ClientReceive, Connect, InStep, Identity, CookieOf, RestoresUntil, Passes, Fits, TsOk, Trunc, Sound, SoundHash, ProvePacket,
         Proof;
    var p := PendingFor(w, c, addr, cnonce, r1.nonce, Trunc(k.connect), t1);
    var key := PendingKey(addr, c.clientId, cnonce);
    HelloToProve(w, s, c, addr, cnonce, r1, t1, k);
    var s1 := s.(pending := s.pending[key := p]);
    PassesKeep(s1, passes, key);
    ProveToAck(w, Passes(s1, passes), c.(cnonce := Some(cnonce)), p, r2, t2, k);
  }

  // The first half: the HELLO leaves its entry, and the client proves it.
  lemma HelloToProve(w: World, s: Server, c: Client, addr: Addr, cnonce: Bytes, r: Random, now: real, k: Clocks)
    requires SoundWorld(w) && Identity(c.clientId, cnonce) && |r.nonce| == NONCE_BYTES && InStep(w, k)
    requires c.ticket == [] && |s.sessions| < w.maxClients
    ensures var p := PendingFor(w, c, addr, cnonce, r.nonce, Trunc(k.connect), now);
            var (c1, hello) := Connect(w, c, cnonce, k.connect);
            && |p.cookie| == HASH_SIZE && c1 == c.(cnonce := Some(cnonce)) && hello.Ok?
            && var (s1, challenge) := Receive(w, s, hello.value, addr, now, k.hello, r);
            && s1 == s.(pending := s.pending[PendingKey(addr, c.clientId, cnonce) := p]) && challenge.Some?
            && ProvePacket(Proof(w, p, k.challenge)).Ok?
            && ClientReceive(w, c1, challenge.value, k.challenge) == (c1, Some(ProvePacket(Proof(w, p, k.challenge)).value))
  {
    hide Receive, ClientReceive, Connect, ServerSplit, VerifyHello, CookieOf, Sound, SoundHash, ProvePacket, Proof, ChallengePacket;
    HelloArrives(w, s, c, addr, cnonce, r, now, k.connect, k.hello);
    HelloStored(w, s, c, addr, cnonce, r, now, k.connect, k.hello);
    var p := PendingFor(w, c, addr, cnonce, r.nonce, Trunc(k.connect), now);
    ChallengeArrives(w, Connect(w, c, cnonce, k.connect).0, p, k.hello, k.challenge);
  }

  // The second half: the entry becomes a session, and the client gets it.
  lemma ProveToAck(w: World, s: Server, c: Client, p: Pending, r: Random, now: real, k: Clocks)
    requires SoundWorld(w) && Identity(p.clientId, p.cnonce) && |p.snonce| == NONCE_BYTES && |p.cookie| == HASH_SIZE
    requires Fits(r.sessionId, 8) && InStep(w, k) && now <= p.expiresAt
    requires c.clientId == p.clientId && c.cnonce == Some(p.cnonce) && ProvePacket(Proof(w, p, k.challenge)).Ok?
    requires var key := PendingKey(p.addr, p.clientId, p.cnonce); key in s.pending && s.pending[key] == p
    ensures var (s', ack) := Receive(w, s, ProvePacket(Proof(w, p, k.challenge)).value, p.addr, now, k.prove, r);
            && ack.Some?
            && var (c', none) := ClientReceive(w, c, ack.value, k.ack);
            && none == None && c'.clientId == c.clientId
            && c'.session.Some? && c'.session.value.id == r.sessionId && r.sessionId in s'.sessions
            && s'.sessions == s.sessions[r.sessionId := s'.sessions[r.sessionId]]
            && var session := s'.sessions[r.sessionId];
               && session.key == c'.session.value.key && session.clientId == c.clientId && session.addr == p.addr
               && session.ticket == c'.ticket != []
               && RestoresUntil(w, c'.ticket, c.clientId, c'.session.value, Trunc(k.prove + w.resumptionTtl))
  {
    hide Receive, ClientReceive, RestoreTicket, SessionTicket, AckPacket, ProvePacket, DeriveSessionKey, RestoresUntil, Proof, Sound, SoundHash;
    ProveArrives(w, s, p, r, now, k.challenge, k.prove);
    var session := NewSession(w, p, p.addr, now);
    var ticket := SessionTicket(w, r.sessionId, session, k.prove).value;
    NewTicket(w, p, session, r.sessionId, now, k.prove);
    TicketAt(w, ticket, p.clientId, Agreed(r.sessionId, session.key), Trunc(k.prove + w.resumptionTtl), k.ack);
    ProveAckSized(w, p, r.sessionId, k.prove, ticket);
    AckArrives(w, c, ProveAck(w, p, r.sessionId, k.prove, ticket), k.ack);
  }

  lemma ProveAckSized(w: World, p: Pending, id: int, wall: real, ticket: Bytes)
    requires SoundWorld(w) && Identity(p.clientId, p.cnonce) && |p.snonce| == NONCE_BYTES
    ensures var m := ProveAck(w, p, id, wall, ticket); Sized(m.clientId, [m.cnonce, m.snonce], m.mac)
  {
    hide AckMac;
    AckMacSize(w, ProveAck(w, p, id, wall, ticket));
  }

  lemma HelloStored(w: World, s: Server, c: Client, addr: Addr, cnonce: Bytes, r: Random, now: real, connect: real, wall: real)
    requires SoundWorld(w) && Identity(c.clientId, cnonce) && |r.nonce| == NONCE_BYTES && c.ticket == [] && |s.sessions| < w.maxClients
    requires Fits(Trunc(connect), 8) && Fits(Trunc(wall), 8) && TsOk(Trunc(connect), wall)
    ensures var hello := Connect(w, c, cnonce, connect).1;
            var p := PendingFor(w, c, addr, cnonce, r.nonce, Trunc(connect), now);
            && hello.Ok? && |p.cookie| == HASH_SIZE && ChallengePacket(ChallengeFor(w, p, wall)).Ok?
            && Receive(w, s, hello.value, addr, now, wall, r)
               == (s.(pending := s.pending[PendingKey(addr, c.clientId, cnonce) := p]), Some(ChallengePacket(ChallengeFor(w, p, wall)).value))
  {
    hide Connect, ServerSplit, VerifyHello, HandleProve, HandlePing, HandlePathResponse, HandleTraffic, ChallengeMac, Sound, CookieOf,
         SoundHash, PackHeader;
    HelloArrives(w, s, c, addr, cnonce, r, now, connect, wall);
    var p := PendingFor(w, c, addr, cnonce, r.nonce, Trunc(connect), now);
    CookieSize(w, addr, c.clientId, cnonce, Trunc(connect));
    MacSizes(w, p, Trunc(wall));
    FieldWidths();
  }

  lemma CookieSize(w: World, addr: Addr, clientId: Text, cnonce: Bytes, ts: int)
    requires SoundWorld(w)
    ensures |CookieOf(w, addr, clientId, cnonce, ts)| == HASH_SIZE
  {
  }

  // At whatever time, the ticket gives its owner `a`, up to the expiry, and then nothing.
  ghost predicate RestoresUntil(w: World, ticket: Bytes, clientId: Text, a: Agreed, expiry: int) {
    forall later {:trigger RestoreTicket(w, ticket, clientId, later)} ::
      RestoreTicket(w, ticket, clientId, later) == if Trunc(later) <= expiry then Some(a) else None
  }

  lemma TicketAt(w: World, ticket: Bytes, clientId: Text, a: Agreed, expiry: int, later: real)
    requires RestoresUntil(w, ticket, clientId, a, expiry)
    ensures RestoreTicket(w, ticket, clientId, later) == if Trunc(later) <= expiry then Some(a) else None
  {
    hide RestoreTicket;
  }

  // A new session's ticket restores the session's own key until it expires.
  lemma NewTicket(w: World, p: Pending, session: Session, id: int, now: real, wall: real)
    requires SoundWorld(w) && Identity(p.clientId, p.cnonce) && session == NewSession(w, p, p.addr, now)
    requires SessionTicket(w, id, session, wall).Ok?
    ensures var ticket := SessionTicket(w, id, session, wall).value;
            && ticket != []
            && RestoresUntil(w, ticket, p.clientId, Agreed(id, session.key), Trunc(wall + w.resumptionTtl))
  {
    hide DeriveSessionKey, SealTicket, EncodeTicketPayload, RestoreTicket, Sound, SoundHash;
    var origin := map[id := Origin(p.clientId, p.cnonce, p.snonce, p.addr, now)];
    var payload := TicketPayload(id, Trunc(wall), Trunc(wall + w.resumptionTtl), session.clientId, session.key);
    var ticket := SessionTicket(w, id, session, wall).value;
    assert Seals(w, origin, payload, ticket);
    forall later
      ensures RestoreTicket(w, ticket, p.clientId, later)
           == if Trunc(later) <= Trunc(wall + w.resumptionTtl) then Some(Agreed(id, session.key)) else None
    {
      TicketRestores(w, origin, payload, ticket, p.clientId, later);
    }
    TicketOpens(w, origin, payload, ticket);
  }

  // The server takes a session's owner back on a ticket that it finds live.
  lemma HelloRestores(w: World, s: Server, c: Client, origin: map<int, Origin>, p: TicketPayload, addr: Addr, cnonce: Bytes, r: Random,
      now: real, connect: real, wall: real)
    requires SoundWorld(w) && Identity(c.clientId, cnonce) && |r.nonce| == NONCE_BYTES && |s.sessions| < w.maxClients
    requires Seals(w, origin, p, c.ticket) && p.clientId == c.clientId && Trunc(wall) <= p.expiresAt
    requires p.sessionId in s.sessions ==> s.sessions[p.sessionId].clientId == p.clientId
    requires Fits(Trunc(connect), 8) && Fits(Trunc(wall), 8) && Fits(Trunc(wall + w.resumptionTtl), 8) && TsOk(Trunc(connect), wall)
    ensures var hello := Connect(w, c, cnonce, connect).1;
            && hello.Ok?
            && var (s', reply) := Receive(w, s, hello.value, addr, now, wall, r);
            && p.sessionId in s'.sessions && s'.sessions[p.sessionId].key == p.sessionKey && s'.sessions[p.sessionId].addr == addr
            && var ticket := s'.sessions[p.sessionId].ticket;
               var ack := ResumeAckFor(w, c, cnonce, p.sessionId, r.nonce, wall, ticket);
            && Seals(w, origin, p.(issuedAt := Trunc(wall), expiresAt := Trunc(wall + w.resumptionTtl)), ticket)
            && AckPacket(ack).Ok? && reply == Some(AckPacket(ack).value) && Sized(ack.clientId, [ack.cnonce, ack.snonce], ack.mac)
  {
    hide Connect, ServerSplit, VerifyHello, HandleProve, HandlePing, HandlePathResponse, HandleTraffic, AckMac, PackHeader,
         RestoreTicket, SessionTicket, KeyOf, SealTicket, Sound, SoundHash, AckPacket, Sized, Layout;
    TicketRestores(w, origin, p, c.ticket, c.clientId, wall);
    HelloArrives(w, s, c, addr, cnonce, r, now, connect, wall);
    var m := VerifyHello(w, ServerSplit(Connect(w, c, cnonce, connect).1.value).value.body, wall).value;
    var session := Resumed(w, s, m, Agreed(p.sessionId, p.sessionKey), addr, now);
    assert session.clientId == p.clientId && session.key == p.sessionKey;
    TicketFits(w, p.sessionId, session, wall);
    RenewedTicket(w, origin, p, c.ticket, session, wall);
    var ticket := SessionTicket(w, p.sessionId, session, wall).value;
    ResumeAckFits(w, c, cnonce, p.sessionId, r.nonce, wall, ticket);
  }

  // The ACK that answers a resumption.
  function ResumeAckFor(w: World, c: Client, cnonce: Bytes, id: int, snonce: Bytes, wall: real, ticket: Bytes): Ack {
    ResumeAck(w, Hello(c.clientId, cnonce, 0, [], []), id, snonce, wall, ticket)
  }

  lemma ResumeAckFits(w: World, c: Client, cnonce: Bytes, id: int, snonce: Bytes, wall: real, ticket: Bytes)
    requires SoundWorld(w) && Identity(c.clientId, cnonce) && |snonce| == NONCE_BYTES && |ticket| <= MAX_TICKET_BYTES
    requires Fits(id, 8) && Fits(Trunc(wall), 8)
    ensures var m := ResumeAckFor(w, c, cnonce, id, snonce, wall, ticket);
            AckPacket(m).Ok? && Sized(m.clientId, [m.cnonce, m.snonce], m.mac)
  {
    hide AckMac, PackHeader, Sound, SoundHash;
    FieldWidths();
    AckMacSize(w, ResumeAckFor(w, c, cnonce, id, snonce, wall, ticket));
  }

  lemma RenewedTicket(w: World, origin: map<int, Origin>, p: TicketPayload, ticket: Bytes, session: Session, wall: real)
    requires Seals(w, origin, p, ticket)
    requires session.clientId == p.clientId && session.key == p.sessionKey
    requires SessionTicket(w, p.sessionId, session, wall).Ok?
    ensures Seals(w, origin, p.(issuedAt := Trunc(wall), expiresAt := Trunc(wall + w.resumptionTtl)),
                  SessionTicket(w, p.sessionId, session, wall).value)
  {
    hide KeyOf, SealTicket;
  }

  // A resumption: the server goes on with the session's own key, and the client ends up with that key
  // exactly when the ACK reaches it before the renewed ticket expires.
  lemma ResumedHandshake(w: World, s: Server, c: Client, origin: map<int, Origin>, p: TicketPayload, addr: Addr, cnonce: Bytes, r: Random,
      now: real, k: Clocks)
    requires SoundWorld(w) && DistinctKeys(w)
    requires Identity(c.clientId, cnonce) && |r.nonce| == NONCE_BYTES && |s.sessions| < w.maxClients && InStep(w, k)
    requires Seals(w, origin, p, c.ticket) && p.clientId == c.clientId && Trunc(k.hello) <= p.expiresAt
    requires p.sessionId in s.sessions ==> s.sessions[p.sessionId].clientId == p.clientId
    requires var o := origin[p.sessionId]; |o.cnonce| == NONCE_BYTES && |o.snonce| == NONCE_BYTES && r.nonce != o.snonce
    ensures var (c1, hello) := Connect(w, c, cnonce, k.connect);
            && hello.Ok?
            && var (s1, ack) := Receive(w, s, hello.value, addr, now, k.hello, r);
            && ack.Some?
            && var c2 := ClientReceive(w, c1, ack.value, k.ack).0;
            && p.sessionId in s1.sessions && s1.sessions[p.sessionId].key == p.sessionKey && s1.sessions[p.sessionId].addr == addr
            && c2.session.Some? && c2.session.value.id == p.sessionId && c2.ticket == s1.sessions[p.sessionId].ticket
            && (c2.session.value.key == s1.sessions[p.sessionId].key <==> Trunc(k.ack) <= Trunc(k.hello + w.resumptionTtl))
  {
    hide Receive, ClientReceive, RestoreTicket, AckPacket, AckMac, VerifyHello, Connect, DeriveSessionKey, DistinctKeys, EncodeTicketPayload,
         SealTicket, ServerSplit, Sound, SoundHash;
    TicketRestores(w, origin, p, c.ticket, c.clientId, k.hello);
    HelloArrives(w, s, c, addr, cnonce, r, now, k.connect, k.hello);
    HelloRestores(w, s, c, origin, p, addr, cnonce, r, now, k.connect, k.hello);
    var (c1, hello) := Connect(w, c, cnonce, k.connect);
    var s1 := Receive(w, s, hello.value, addr, now, k.hello, r).0;
    var ticket := s1.sessions[p.sessionId].ticket;
    var ack := ResumeAckFor(w, c, cnonce, p.sessionId, r.nonce, k.hello, ticket);
    var p' := p.(issuedAt := Trunc(k.hello), expiresAt := Trunc(k.hello + w.resumptionTtl));
    TicketRestores(w, origin, p', ticket, c.clientId, k.ack);
    AckArrives(w, c1, ack, k.ack);
    KeysApart(w, origin[p.sessionId], cnonce, r.nonce);
  }

  lemma KeysApart(w: World, o: Origin, cnonce: Bytes, snonce: Bytes)
    requires DistinctKeys(w) && |o.cnonce| == NONCE_BYTES && |o.snonce| == NONCE_BYTES
    requires |cnonce| == NONCE_BYTES && |snonce| == NONCE_BYTES && snonce != o.snonce
    ensures DeriveSessionKey(w.hash, w.psk, o.clientId, cnonce, snonce) != KeyOf(w, o)
  {
    hide DeriveSessionKey;
  }

  // ---------- path validation ----------

  // The client that owns a session answers the server's challenge; in time, the answer moves the
  // session to the challenged address and uses the challenge up, and too late it changes nothing.
  lemma PathValidationCompletes(w: World, s: Server, c: Client, id: int, addr: Addr, t1: real, t2: real, wall: real, token: Bytes, r: Random)
    requires id in s.sessions && Fits(id, 8) && !PathValidated(s.sessions[id], addr, t1) && |token| == NONCE_BYTES
    requires c.session.Some? && c.session.value.id == id
    ensures var (s1, challenge) := IssuePathChallenge(w, s, id, addr, t1, token);
            && challenge.Some?
            && var (c1, response) := ClientReceive(w, c, challenge.value, wall);
            && c1 == c && response.Some?
            && var (s2, none) := Receive(w, s1, response.value, addr, t2, wall, r);
            && none == None
            && s2 == if t2 > t1 + w.pathTtl then s1
                     else s.(sessions := s.sessions[id := s.sessions[id].(addr := addr, paths := s.sessions[id].paths - {addr})])
  {
    hide PackHeader, ServerSplit, ClientSplit, HandleHello, HandleProve, HandlePing, HandleTraffic, OnAck, OnChallenge;
    FieldWidths();
    PacketDelivered(MSG_PATH_CHALLENGE, id, token);
    PacketDelivered(MSG_PATH_RESPONSE, id, token);
    var s1 := IssuePathChallenge(w, s, id, addr, t1, token).0;
    assert s1.sessions[id].paths - {addr} == s.sessions[id].paths - {addr};
    if t2 <= t1 + w.pathTtl {
      var s2 := HandlePathResponse(s1, id, token, addr, t2);
      assert s2.sessions == s.sessions[id := s.sessions[id].(addr := addr, paths := s.sessions[id].paths - {addr})];
    }
  }
}
