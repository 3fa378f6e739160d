// What one datagram, and one cleanup pass, does to every session and every pending entry of the server:
// when a session enters the table, leaves it, moves or is challenged, and when an entry does.
module ServerLaws {
  import opened Common
  import opened Codec
  import opened Primitives
  import opened Security
  import opened Handshake
  import opened HandshakeSafety

  predicate IsKind(data: Bytes, msgType: int) {
    ServerSplit(data).Ok? && ServerSplit(data).value.header.msgType == msgType
  }

  predicate Naming(data: Bytes, id: int) {
    ServerSplit(data).Ok? && ServerSplit(data).value.header.sessionId == id
  }

  // Traffic inside session `id`: every kind of datagram but the four that have a handler of their own.
  predicate InSession(data: Bytes, id: int) {
    && Naming(data, id)
    && !IsKind(data, MSG_HELLO) && !IsKind(data, MSG_PROVE) && !IsKind(data, MSG_PING) && !IsKind(data, MSG_PATH_RESPONSE)
  }

  // A challenge to `addr` is out for the session, and its time has not passed.
  predicate Live(session: Session, addr: Addr, now: real) {
    addr in session.paths && session.paths[addr].token != [] && now <= session.paths[addr].expiresAt
  }

  // ---------- what the datagram is to a session ----------

  // A HELLO, verified and with room in the table, whose ticket restores the session.
  predicate Restoring(w: World, s: Server, data: Bytes, wall: real, id: int) {
    && IsKind(data, MSG_HELLO) && |s.sessions| < w.maxClients
    && var m := VerifyHello(w, ServerSplit(data).value.body, wall);
       && m.Some? && m.value.ticket != []
       && var a := RestoreTicket(w, m.value.ticket, m.value.clientId, wall);
          a.Some? && a.value.id == id
  }

  // It ends the session: traffic after its expiry, or, before that, CLOSE from the session's address or
  // from one with a live challenge.
  predicate Ending(session: Session, data: Bytes, addr: Addr, now: real, id: int) {
    && InSession(data, id)
    && (session.expiresAt < now || (IsKind(data, MSG_CLOSE) && (session.addr == addr || Live(session, addr, now))))
  }

  // The token of the live challenge, sent back from the challenged address.
  predicate Answering(session: Session, data: Bytes, addr: Addr, now: real, id: int) {
    && Naming(data, id) && IsKind(data, MSG_PATH_RESPONSE)
    && Live(session, addr, now)
    && |session.paths[addr].token| == 16 && ServerSplit(data).value.body == session.paths[addr].token
  }

  // Traffic other than CLOSE from an address with a live challenge, in the session's time.
  predicate Carrying(session: Session, data: Bytes, addr: Addr, now: real, id: int) {
    InSession(data, id) && !IsKind(data, MSG_CLOSE) && now <= session.expiresAt && Live(session, addr, now)
  }

  // A ping at any time, or traffic in the session's time, from another address without a live challenge.
  predicate Asking(session: Session, data: Bytes, addr: Addr, now: real, id: int) {
    && session.addr != addr && !Live(session, addr, now)
    && Naming(data, id) && (IsKind(data, MSG_PING) || (InSession(data, id) && now <= session.expiresAt))
  }

  // ---------- what the datagram is to a pending entry ----------

  // A HELLO, verified and with room in the table, that restores no session.
  predicate Enrolling(w: World, s: Server, data: Bytes, wall: real) {
    && IsKind(data, MSG_HELLO) && |s.sessions| < w.maxClients
    && var m := VerifyHello(w, ServerSplit(data).value.body, wall);
       m.Some? && (m.value.ticket == [] || RestoreTicket(w, m.value.ticket, m.value.clientId, wall).None?)
  }

  function HelloKey(data: Bytes, addr: Addr): Option<PendingKey> {
    if !IsKind(data, MSG_HELLO) then None
    else
      match DecodeHello(ServerSplit(data).value.body)
      case Err(_) => None
      case Ok(m) => Some(PendingKey(addr, m.clientId, m.cnonce))
  }

  // A PROVE for this entry.
  predicate Proving(data: Bytes, addr: Addr, k: PendingKey) {
    && IsKind(data, MSG_PROVE)
    && var m := DecodeChallenge(ServerSplit(data).value.body);
       m.Ok? && k == PendingKey(addr, m.value.clientId, m.value.cnonce)
  }

  // A PROVE that turns the entry into session `id`: in time, right in every field, and with a ticket
  // that can be sealed.
  predicate Redeeming(w: World, s: Server, data: Bytes, addr: Addr, now: real, wall: real, id: int, k: PendingKey) {
    && Proving(data, addr, k) && k in s.pending
    && var m := DecodeChallenge(ServerSplit(data).value.body).value;
       var p := s.pending[k];
       && now <= p.expiresAt
       && m.clientId == p.clientId && m.cnonce == p.cnonce && m.snonce == p.snonce && m.cookie == p.cookie
       && -15 <= Trunc(wall) - m.ts <= 15 && m.mac == ProveMac(w, m.clientId, m.cnonce, m.snonce, m.cookie, m.ts)
       && SessionTicket(w, id, NewSession(w, p, addr, now), wall).Ok?
  }

  // ---------- the laws ----------

  // Session `id` is in the table afterwards exactly if it was there and was not ended, or was restored,
  // or created.
  ghost predicate EntersOrLeaves(w: World, s: Server, s': Server, data: Bytes, addr: Addr, now: real, wall: real, r: Random, id: int) {
    id in s'.sessions <==>
      || (id in s.sessions && !Ending(s.sessions[id], data, addr, now, id))
      || Restoring(w, s, data, wall, id)
      || (id == r.sessionId && exists k :: Redeeming(w, s, data, addr, now, wall, id, k))
  }

  // A session that stays without being restored keeps its owner, key, expiry and ticket. Its address
  // becomes the sender's exactly if the datagram answers or carries; a challenge goes exactly if it is
  // answered, and one is added exactly if the datagram asks for it.
  predicate Keeps(w: World, s: Server, s': Server, data: Bytes, addr: Addr, now: real, token: Bytes, id: int) {
    id in s.sessions && id in s'.sessions ==>
      var a, b := s.sessions[id], s'.sessions[id];
      && b.clientId == a.clientId && b.key == a.key && b.expiresAt == a.expiresAt && b.ticket == a.ticket && b.closed == a.closed
      && b.addr == (if Answering(a, data, addr, now, id) || Carrying(a, data, addr, now, id) then addr else a.addr)
      && b.paths == if Answering(a, data, addr, now, id) then a.paths - {addr}
                    else if Asking(a, data, addr, now, id) then a.paths[addr := PathEntry(token, now + w.pathTtl)]
                    else a.paths
  }

  // A restored session is the ticket's, at the sender's address, open, with its whole time before it.
  predicate Restored(w: World, s: Server, s': Server, data: Bytes, addr: Addr, now: real, wall: real, id: int)
    requires Restoring(w, s, data, wall, id)
  {
    && id in s'.sessions
    && var m := VerifyHello(w, ServerSplit(data).value.body, wall).value;
       var b := s'.sessions[id];
       && b.addr == addr && b.expiresAt == now + w.sessionTtl && !b.closed
       && b.key == RestoreTicket(w, m.ticket, m.clientId, wall).value.key
       && b.clientId == (if id in s.sessions then s.sessions[id].clientId else m.clientId)
       && b.paths == if id in s.sessions then s.sessions[id].paths else map[]
  }

  // A created session is that of its entry.
  predicate Founded(w: World, s: Server, s': Server, data: Bytes, addr: Addr, now: real, wall: real, id: int, k: PendingKey) {
    && k in s.pending && id in s'.sessions
    && var p, b := s.pending[k], s'.sessions[id];
       && b.clientId == p.clientId && b.addr == addr && b.expiresAt == now + w.sessionTtl && b.paths == map[] && !b.closed
       && b.key == DeriveSessionKey(w.hash, w.psk, p.clientId, p.cnonce, p.snonce)
       && SessionTicket(w, id, NewSession(w, p, addr, now), wall) == Ok(b.ticket)
  }

  // An entry is there afterwards exactly if a HELLO has just left it, or it was there and no PROVE for it
  // came too late or was redeemed.
  predicate EntryLaw(w: World, s: Server, s': Server, data: Bytes, addr: Addr, now: real, wall: real, r: Random, k: PendingKey) {
    if Enrolling(w, s, data, wall) && HelloKey(data, addr) == Some(k) then
      var m := VerifyHello(w, ServerSplit(data).value.body, wall).value;
      k in s'.pending && s'.pending[k] == EntryOf(w, m, addr, now, r.nonce)
    else
      && (k in s'.pending <==>
            && k in s.pending && !Redeeming(w, s, data, addr, now, wall, r.sessionId, k)
            && !(Proving(data, addr, k) && s.pending[k].expiresAt < now))
      && (k in s'.pending ==> s'.pending[k] == s.pending[k])
  }

  // The reply to anything but HELLO and PROVE is a challenge to the sender, if the datagram asks for one.
  predicate ReplyLaw(s: Server, data: Bytes, addr: Addr, now: real, token: Bytes, reply: Option<Bytes>) {
    !IsKind(data, MSG_HELLO) && !IsKind(data, MSG_PROVE) ==>
      reply == if ServerSplit(data).Err? then None
               else
                 var id := ServerSplit(data).value.header.sessionId;
                 if id in s.sessions && Asking(s.sessions[id], data, addr, now, id) && |token| == 16 then
                   Sent(Packet(MSG_PATH_CHALLENGE, id, token))
                 else None
  }

  ghost predicate ServerLaw(w: World, s: Server, s': Server, data: Bytes, addr: Addr, now: real, wall: real, r: Random, id: int) {
    && EntersOrLeaves(w, s, s', data, addr, now, wall, r, id)
    && (if Restoring(w, s, data, wall, id) then Restored(w, s, s', data, addr, now, wall, id)
        else Keeps(w, s, s', data, addr, now, r.nonce, id))
    && (id == r.sessionId ==> forall k | Redeeming(w, s, data, addr, now, wall, id, k) :: Founded(w, s, s', data, addr, now, wall, id, k))
  }

  // ---------- one datagram ----------

  lemma HelloLaw(w: World, s: Server, data: Bytes, addr: Addr, now: real, wall: real, r: Random, id: int, k: PendingKey)
    requires r.sessionId !in s.sessions && IsKind(data, MSG_HELLO)
    ensures var s' := HandleHello(w, s, ServerSplit(data).value.body, addr, now, wall, r.nonce).0;
            ServerLaw(w, s, s', data, addr, now, wall, r, id) && EntryLaw(w, s, s', data, addr, now, wall, r, k)
  {
    hide ServerSplit, DecodeHello, RestoreTicket, HelloMac, TsOk, CookieOf, ChallengePacket, ChallengeMac, SessionTicket, ResumeAck,
         AckPacket, EntryLaw, ServerLaw, HandleHello;
    var s' := HandleHello(w, s, ServerSplit(data).value.body, addr, now, wall, r.nonce).0;
    assert ServerLaw(w, s, s', data, addr, now, wall, r, id) by { HelloSessions(w, s, data, addr, now, wall, r, id); }
    assert EntryLaw(w, s, s', data, addr, now, wall, r, k) by { HelloEntries(w, s, data, addr, now, wall, r, k); }
  }

  lemma HelloSessions(w: World, s: Server, data: Bytes, addr: Addr, now: real, wall: real, r: Random, id: int)
    requires IsKind(data, MSG_HELLO)
    ensures ServerLaw(w, s, HandleHello(w, s, ServerSplit(data).value.body, addr, now, wall, r.nonce).0, data, addr, now, wall, r, id)
  {
    hide ServerSplit, VerifyHello, RestoreTicket, CookieOf, ChallengePacket, ChallengeMac, Resume, Resumed, Founded;
    var verified := VerifyHello(w, ServerSplit(data).value.body, wall);
    if |s.sessions| < w.maxClients && verified.Some? && verified.value.ticket != []
       && RestoreTicket(w, verified.value.ticket, verified.value.clientId, wall).Some? {
      var agreed := RestoreTicket(w, verified.value.ticket, verified.value.clientId, wall).value;
      ResumedTable(w, s, verified.value, agreed, addr, now, wall, r.nonce);
      ResumedFields(w, s, verified.value, agreed, addr, now);
    }
  }

  lemma ResumedTable(w: World, s: Server, m: Hello, agreed: Agreed, addr: Addr, now: real, wall: real, snonce: Bytes)
    ensures var s' := Resume(w, s, m, agreed, addr, now, wall, snonce).0;
            && agreed.id in s'.sessions && s'.sessions == s.sessions[agreed.id := s'.sessions[agreed.id]]
            && s'.sessions[agreed.id] == Resumed(w, s, m, agreed, addr, now).(ticket := s'.sessions[agreed.id].ticket)
  {
    hide SessionTicket, AckPacket, ResumeAck, Resumed;
  }

  lemma ResumedFields(w: World, s: Server, m: Hello, agreed: Agreed, addr: Addr, now: real)
    ensures var b := Resumed(w, s, m, agreed, addr, now);
            && b.addr == addr && b.expiresAt == now + w.sessionTtl && !b.closed && b.key == agreed.key
            && b.clientId == (if agreed.id in s.sessions then s.sessions[agreed.id].clientId else m.clientId)
            && b.paths == if agreed.id in s.sessions then s.sessions[agreed.id].paths else map[]
  {
  }

  lemma HelloEntries(w: World, s: Server, data: Bytes, addr: Addr, now: real, wall: real, r: Random, k: PendingKey)
    requires IsKind(data, MSG_HELLO)
    ensures EntryLaw(w, s, HandleHello(w, s, ServerSplit(data).value.body, addr, now, wall, r.nonce).0, data, addr, now, wall, r, k)
  {
    hide ServerSplit, DecodeHello, RestoreTicket, HelloMac, TsOk, CookieOf, ChallengePacket, ChallengeMac, SessionTicket, ResumeAck,
         AckPacket;
  }

  lemma ProveLaw(w: World, s: Server, data: Bytes, addr: Addr, now: real, wall: real, r: Random, id: int, k: PendingKey)
    requires r.sessionId !in s.sessions && IsKind(data, MSG_PROVE)
    ensures var s' := HandleProve(w, s, ServerSplit(data).value.body, addr, now, wall, r.sessionId).0;
            ServerLaw(w, s, s', data, addr, now, wall, r, id) && EntryLaw(w, s, s', data, addr, now, wall, r, k)
  {
    hide ServerSplit, HandleProve, DecodeChallenge, EntryLaw, ServerLaw;
    var s' := HandleProve(w, s, ServerSplit(data).value.body, addr, now, wall, r.sessionId).0;
    assert ServerLaw(w, s, s', data, addr, now, wall, r, id) by { ProveSessions(w, s, data, addr, now, wall, r, id); }
    assert EntryLaw(w, s, s', data, addr, now, wall, r, k) by { ProveEntries(w, s, data, addr, now, wall, r, k); }
  }

  lemma ProveSessions(w: World, s: Server, data: Bytes, addr: Addr, now: real, wall: real, r: Random, id: int)
    requires r.sessionId !in s.sessions && IsKind(data, MSG_PROVE)
    ensures ServerLaw(w, s, HandleProve(w, s, ServerSplit(data).value.body, addr, now, wall, r.sessionId).0, data, addr, now, wall, r, id)
  {
    hide ServerSplit, RestoreTicket, SessionTicket, ProveAck, AckPacket, DecodeChallenge, DeriveSessionKey, ProveMac;
    var m := DecodeChallenge(ServerSplit(data).value.body);
    if m.Ok? {
      var k := PendingKey(addr, m.value.clientId, m.value.cnonce);
      var s' := HandleProve(w, s, ServerSplit(data).value.body, addr, now, wall, r.sessionId).0;
      assert forall other :: Redeeming(w, s, data, addr, now, wall, r.sessionId, other) ==> other == k;
      assert r.sessionId in s'.sessions ==> Redeeming(w, s, data, addr, now, wall, r.sessionId, k);
    }
  }

  lemma ProveEntries(w: World, s: Server, data: Bytes, addr: Addr, now: real, wall: real, r: Random, k: PendingKey)
    requires IsKind(data, MSG_PROVE)
    ensures EntryLaw(w, s, HandleProve(w, s, ServerSplit(data).value.body, addr, now, wall, r.sessionId).0, data, addr, now, wall, r, k)
  {
    hide ServerSplit, SessionTicket, ProveAck, AckPacket, DecodeChallenge, NewSession, ProveMac, VerifyHello;
  }

  lemma PathResponseLaw(w: World, s: Server, data: Bytes, addr: Addr, now: real, wall: real, r: Random, id: int, k: PendingKey)
    requires IsKind(data, MSG_PATH_RESPONSE)
    ensures var d := ServerSplit(data).value;
            var s' := HandlePathResponse(s, d.header.sessionId, d.body, addr, now);
            ServerLaw(w, s, s', data, addr, now, wall, r, id) && EntryLaw(w, s, s', data, addr, now, wall, r, k)
  {
    hide ServerSplit, DecodeHello, RestoreTicket, VerifyHello, DecodeChallenge, SessionTicket;
  }

  lemma PingLaw(w: World, s: Server, data: Bytes, addr: Addr, now: real, wall: real, r: Random, id: int, k: PendingKey)
    requires IsKind(data, MSG_PING)
    ensures var (s', reply) := HandlePing(w, s, ServerSplit(data).value.header.sessionId, addr, now, r.nonce);
            && ServerLaw(w, s, s', data, addr, now, wall, r, id) && EntryLaw(w, s, s', data, addr, now, wall, r, k)
            && ReplyLaw(s, data, addr, now, r.nonce, reply)
  {
    hide ServerSplit, DecodeHello, RestoreTicket, VerifyHello, DecodeChallenge, SessionTicket, Packet;
  }

  lemma TrafficLaw(w: World, s: Server, data: Bytes, addr: Addr, now: real, wall: real, r: Random, id: int, k: PendingKey)
    requires exists i :: InSession(data, i)
    ensures var h := ServerSplit(data).value.header;
            var (s', reply) := HandleTraffic(w, s, h.msgType, h.sessionId, addr, now, r.nonce);
            && ServerLaw(w, s, s', data, addr, now, wall, r, id) && EntryLaw(w, s, s', data, addr, now, wall, r, k)
            && ReplyLaw(s, data, addr, now, r.nonce, reply)
  {
    hide ServerSplit, DecodeHello, RestoreTicket, VerifyHello, DecodeChallenge, SessionTicket, Packet;
  }

  // Every datagram, whatever it holds and whoever sends it.
  lemma DatagramLaw(w: World, s: Server, data: Bytes, addr: Addr, now: real, wall: real, r: Random, id: int, k: PendingKey)
    requires r.sessionId !in s.sessions
    ensures var (s', reply) := Receive(w, s, data, addr, now, wall, r);
            && ServerLaw(w, s, s', data, addr, now, wall, r, id) && EntryLaw(w, s, s', data, addr, now, wall, r, k)
            && ReplyLaw(s, data, addr, now, r.nonce, reply)
  {
    hide ServerSplit, HandleHello, HandleProve, HandlePing, HandlePathResponse, HandleTraffic, ServerLaw, EntryLaw;
    if ServerSplit(data).Err? {
      UnreadableLaw(w, s, data, addr, now, wall, r, id, k);
    } else if IsKind(data, MSG_HELLO) {
      HelloLaw(w, s, data, addr, now, wall, r, id, k);
    } else if IsKind(data, MSG_PROVE) {
      ProveLaw(w, s, data, addr, now, wall, r, id, k);
    } else if IsKind(data, MSG_PING) {
      PingLaw(w, s, data, addr, now, wall, r, id, k);
    } else if IsKind(data, MSG_PATH_RESPONSE) {
      PathResponseLaw(w, s, data, addr, now, wall, r, id, k);
    } else {
      assert InSession(data, ServerSplit(data).value.header.sessionId);
      TrafficLaw(w, s, data, addr, now, wall, r, id, k);
    }
  }

  lemma UnreadableLaw(w: World, s: Server, data: Bytes, addr: Addr, now: real, wall: real, r: Random, id: int, k: PendingKey)
    requires ServerSplit(data).Err?
    ensures ServerLaw(w, s, s, data, addr, now, wall, r, id) && EntryLaw(w, s, s, data, addr, now, wall, r, k)
  {
    hide ServerSplit, VerifyHello, RestoreTicket, DecodeHello, DecodeChallenge;
  }

  // ---------- the two datagrams that a session's owner sends about it ----------

  // A path response moves the session and uses the challenge up exactly if the session is there, its
  // sender was challenged, the time has not passed and the body is the 16 bytes of the token. Otherwise
  // it changes nothing.
  lemma PathResponseIff(w: World, s: Server, id: int, body: Bytes, addr: Addr, now: real, wall: real, r: Random)
    requires Packet(MSG_PATH_RESPONSE, id, body).Ok?
    ensures Receive(w, s, Packet(MSG_PATH_RESPONSE, id, body).value, addr, now, wall, r)
         == if id in s.sessions && addr in s.sessions[id].paths && now <= s.sessions[id].paths[addr].expiresAt
               && |body| == 16 && body == s.sessions[id].paths[addr].token
            then (s.(sessions := s.sessions[id := s.sessions[id].(addr := addr, paths := s.sessions[id].paths - {addr})]), None)
            else (s, None)
  {
    hide Packet, ServerSplit, ClientSplit;
    FieldWidths();
    PacketDelivered(MSG_PATH_RESPONSE, id, body);
  }

  // The CLOSE of a client that holds a session takes exactly that session out of the table if it comes
  // from the session's address or from one with a live challenge, as any traffic does once the session
  // has expired. From elsewhere it only gets its sender challenged.
  lemma CloseIff(w: World, s: Server, c: Client, addr: Addr, now: real, wall: real, r: Random)
    requires c.session.Some? && Fits(c.session.value.id, 8) && |r.nonce| == NONCE_BYTES
    ensures var id := c.session.value.id;
            && CloseOf(c).Some?
            && Receive(w, s, CloseOf(c).value, addr, now, wall, r)
               == if id !in s.sessions then (s, None)
                  else if s.sessions[id].expiresAt < now || s.sessions[id].addr == addr || Live(s.sessions[id], addr, now) then
                    (s.(sessions := s.sessions - {id}), None)
                  else
                    (s.(sessions := s.sessions[id := s.sessions[id].(
                          paths := s.sessions[id].paths[addr := PathEntry(r.nonce, now + w.pathTtl)])]),
                     Sent(Packet(MSG_PATH_CHALLENGE, id, r.nonce)))
  {
    hide PackHeader, ServerSplit, ClientSplit;
    FieldWidths();
    PacketDelivered(MSG_CLOSE, c.session.value.id, []);
  }

  // ---------- one cleanup pass ----------

  // A pass leaves exactly the unexpired entries, the unexpired open sessions and, of those, the unexpired
  // challenges, and changes nothing else.
  predicate CleanupLaw(s: Server, s': Server, now: real, id: int, k: PendingKey, addr: Addr) {
    && (k in s'.pending <==> k in s.pending && now <= s.pending[k].expiresAt)
    && (k in s'.pending ==> s'.pending[k] == s.pending[k])
    && (id in s'.sessions <==> id in s.sessions && now <= s.sessions[id].expiresAt && !s.sessions[id].closed)
    && (id in s'.sessions ==>
          var a, b := s.sessions[id], s'.sessions[id];
          && b.clientId == a.clientId && b.addr == a.addr && b.key == a.key && b.expiresAt == a.expiresAt && b.ticket == a.ticket
          && b.closed == a.closed
          && (addr in b.paths <==> addr in a.paths && now <= a.paths[addr].expiresAt)
          && (addr in b.paths ==> b.paths[addr] == a.paths[addr]))
  }

  lemma CleanupExact(s: Server, now: real, id: int, k: PendingKey, addr: Addr)
    ensures CleanupLaw(s, Cleanup(s, now), now, id, k, addr)
  {
  }
}
