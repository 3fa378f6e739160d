// The handshake, resumption and address-migration handlers of fastudp/server.py and
// fastudp/client.py, as functions on the two ends' states, from datagram to datagram.
module Handshake {
  import opened Common
  import opened Codec
  import opened Primitives
  import opened Security

  // The pre-shared key, the primitives and the server's configuration.
  datatype World = World(
    psk: Bytes, hash: Hash, aead: Aead,
    sessionTtl: real, pendingTtl: real, resumptionTtl: real, pathTtl: real, maxClients: int)

  datatype Addr = Addr(host: Text, port: int)

  const NONCE_BYTES := 16
  const MAX_CLOCK_SKEW := 15

  // int(x)
  function Trunc(x: real): int {
    if x >= 0.0 then x.Floor else -(-x).Floor
  }

  function TsOk(ts: int, wall: real): bool {
    -MAX_CLOCK_SKEW <= Trunc(wall) - ts <= MAX_CLOCK_SKEW
  }

  // ---------- message authentication ----------

  // str(n), encoded
  function Decimal(n: int): Bytes
    decreases n < 0, if n < 0 then -n else n
  {
    if n < 0 then [0x2D] + Decimal(-n)
    else if n < 10 then [(0x30 + n) as byte]
    else Decimal(n / 10) + [(0x30 + n % 10) as byte]
  }

  // "COOKIE", "HELLO", "CHALLENGE", "PROVE", "ACK"
  const COOKIE: Bytes := [0x43, 0x4F, 0x4F, 0x4B, 0x49, 0x45]
  const HELLO: Bytes := [0x48, 0x45, 0x4C, 0x4C, 0x4F]
  const CHALLENGE: Bytes := [0x43, 0x48, 0x41, 0x4C, 0x4C, 0x45, 0x4E, 0x47, 0x45]
  const PROVE: Bytes := [0x50, 0x52, 0x4F, 0x56, 0x45]
  const ACK: Bytes := [0x41, 0x43, 0x4B]

  function CookieOf(w: World, addr: Addr, clientId: Text, cnonce: Bytes, ts: int): Bytes {
    MacOf(w.hash, w.psk, [COOKIE, addr.host, Decimal(addr.port), clientId, cnonce, Decimal(ts)])
  }

  function HelloMac(w: World, clientId: Text, cnonce: Bytes, ts: int, ticket: Bytes): Bytes {
    MacOf(w.hash, w.psk, [HELLO, clientId, cnonce, Decimal(ts), ticket])
  }

  function ChallengeMac(w: World, clientId: Text, cnonce: Bytes, snonce: Bytes, cookie: Bytes, ts: int): Bytes {
    MacOf(w.hash, w.psk, [CHALLENGE, clientId, cnonce, snonce, cookie, Decimal(ts)])
  }

  function ProveMac(w: World, clientId: Text, cnonce: Bytes, snonce: Bytes, cookie: Bytes, ts: int): Bytes {
    MacOf(w.hash, w.psk, [PROVE, clientId, cnonce, snonce, cookie, Decimal(ts)])
  }

  function AckMac(w: World, id: int, clientId: Text, cnonce: Bytes, snonce: Bytes, ts: int, ticket: Bytes): Bytes {
    MacOf(w.hash, w.psk, [ACK, Decimal(id), clientId, cnonce, snonce, Decimal(ts), ticket])
  }

  // ---------- packets ----------

  // A header carrying only a type, a session and a body length, and the body.
  function Packet(msgType: int, sessionId: int, body: Bytes): Result<Bytes> {
    match PackHeader(Header(msgType, 0, sessionId, 0, 0, 0, 0, |body|, 0))
    case Err(error) => Err(error)
    case Ok(header) => Ok(header + body)
  }

  function Wrapped(msgType: int, body: Result<Bytes>): Result<Bytes> {
    match body
    case Err(error) => Err(error)
    case Ok(b) => Packet(msgType, 0, b)
  }

  function HelloPacket(m: Hello): Result<Bytes> {
    Wrapped(MSG_HELLO, EncodeHello(m))
  }

  function ChallengePacket(m: Challenge): Result<Bytes> {
    Wrapped(MSG_CHALLENGE, EncodeChallenge(m))
  }

  function ProvePacket(m: Challenge): Result<Bytes> {
    Wrapped(MSG_PROVE, EncodeChallenge(m))
  }

  function AckPacket(m: Ack): Result<Bytes> {
    Wrapped(MSG_ACK, EncodeAck(m))
  }

  function Sent(packet: Result<Bytes>): Option<Bytes> {
    match packet
    case Ok(data) => Some(data)
    case Err(_) => None
  }

  // ---------- server ----------

  datatype Pending = Pending(
    clientId: Text, addr: Addr, cnonce: Bytes, snonce: Bytes, cookie: Bytes, ts: int, createdAt: real, expiresAt: real)

  datatype PendingKey = PendingKey(addr: Addr, clientId: Text, cnonce: Bytes)

  datatype PathEntry = PathEntry(token: Bytes, expiresAt: real)

  // The part of SessionState that the handshake and the address checks use.
  datatype Session = Session(
    clientId: Text, addr: Addr, key: Bytes, expiresAt: real, ticket: Bytes, paths: map<Addr, PathEntry>, closed: bool)

  datatype Server = Server(pending: map<PendingKey, Pending>, sessions: map<int, Session>)

  const NEW_SERVER := Server(map[], map[])

  function SessionTicket(w: World, id: int, s: Session, wall: real): Result<Bytes> {
    match EncodeTicketPayload(TicketPayload(id, Trunc(wall), Trunc(wall + w.resumptionTtl), s.clientId, s.key))
    case Err(error) => Err(error)
    case Ok(payload) => Ok(SealTicket(w.hash, w.aead, w.psk, payload))
  }

  datatype Agreed = Agreed(id: int, key: Bytes)

  // What a ticket restores, at either end.
  function RestoreTicket(w: World, ticket: Bytes, clientId: Text, wall: real): Option<Agreed> {
    match OpenTicket(w.hash, w.aead, w.psk, ticket)
    case None => None
    case Some(payload) =>
      match DecodeTicketPayload(payload)
      case Err(_) => None
      case Ok(p) => if p.clientId != clientId || p.expiresAt < Trunc(wall) then None else Some(Agreed(p.sessionId, p.sessionKey))
  }

  function VerifyHello(w: World, body: Bytes, wall: real): Option<Hello> {
    match DecodeHello(body)
    case Err(_) => None
    case Ok(m) => if !TsOk(m.ts, wall) || HelloMac(w, m.clientId, m.cnonce, m.ts, m.ticket) != m.mac then None else Some(m)
  }

  function HandleHello(w: World, s: Server, body: Bytes, addr: Addr, now: real, wall: real, snonce: Bytes): (Server, Option<Bytes>) {
    if |s.sessions| >= w.maxClients then (s, None)
    else
      match VerifyHello(w, body, wall)
      case None => (s, None)
      case Some(m) =>
        var restored := if m.ticket == [] then None else RestoreTicket(w, m.ticket, m.clientId, wall);
        match restored
        case Some(agreed) => Resume(w, s, m, agreed, addr, now, wall, snonce)
        case None => StorePending(w, s, m, addr, now, wall, snonce)
  }

  // The session that a valid ticket names, brought back or updated.
  function Resumed(w: World, s: Server, m: Hello, agreed: Agreed, addr: Addr, now: real): Session {
    if agreed.id in s.sessions then
      s.sessions[agreed.id].(addr := addr, key := agreed.key, expiresAt := now + w.sessionTtl, closed := false)
    else Session(m.clientId, addr, agreed.key, now + w.sessionTtl, [], map[], false)
  }

  function ResumeAck(w: World, m: Hello, id: int, snonce: Bytes, wall: real, ticket: Bytes): Ack {
    var ts := Trunc(wall);
    Ack(id, m.clientId, m.cnonce, snonce, ts, ticket, AckMac(w, id, m.clientId, m.cnonce, snonce, ts, ticket))
  }

  function Resume(w: World, s: Server, m: Hello, agreed: Agreed, addr: Addr, now: real, wall: real, snonce: Bytes): (Server, Option<Bytes>) {
    var session := Resumed(w, s, m, agreed, addr, now);
    match SessionTicket(w, agreed.id, session, wall)
    case Err(_) => (s.(sessions := s.sessions[agreed.id := session]), None)
    case Ok(ticket) =>
      (s.(sessions := s.sessions[agreed.id := session.(ticket := ticket)]),
       Sent(AckPacket(ResumeAck(w, m, agreed.id, snonce, wall, ticket))))
  }

  function StorePending(w: World, s: Server, m: Hello, addr: Addr, now: real, wall: real, snonce: Bytes): (Server, Option<Bytes>) {
    var cookie := CookieOf(w, addr, m.clientId, m.cnonce, m.ts);
    var pending := Pending(m.clientId, addr, m.cnonce, snonce, cookie, m.ts, now, now + w.pendingTtl);
    var ts := Trunc(wall);
    var challenge := Challenge(m.clientId, m.cnonce, snonce, cookie, ts, ChallengeMac(w, m.clientId, m.cnonce, snonce, cookie, ts));
    (s.(pending := s.pending[PendingKey(addr, m.clientId, m.cnonce) := pending]), Sent(ChallengePacket(challenge)))
  }

  predicate VerifyProve(w: World, m: Challenge, p: Pending, wall: real) {
    && m.clientId == p.clientId && m.cnonce == p.cnonce && m.snonce == p.snonce && m.cookie == p.cookie
    && TsOk(m.ts, wall)
    && ProveMac(w, m.clientId, m.cnonce, m.snonce, m.cookie, m.ts) == m.mac
  }

  function NewSession(w: World, p: Pending, addr: Addr, now: real): Session {
    Session(p.clientId, addr, DeriveSessionKey(w.hash, w.psk, p.clientId, p.cnonce, p.snonce), now + w.sessionTtl, [], map[], false)
  }

  function ProveAck(w: World, p: Pending, id: int, wall: real, ticket: Bytes): Ack {
    var ts := Trunc(wall);
    Ack(id, p.clientId, p.cnonce, p.snonce, ts, ticket, AckMac(w, id, p.clientId, p.cnonce, p.snonce, ts, ticket))
  }

  function HandleProve(w: World, s: Server, body: Bytes, addr: Addr, now: real, wall: real, id: int): (Server, Option<Bytes>) {
    match DecodeChallenge(body)
    case Err(_) => (s, None)
    case Ok(m) =>
      var key := PendingKey(addr, m.clientId, m.cnonce);
      if key !in s.pending then (s, None)
      else
        var p := s.pending[key];
        if p.expiresAt < now then (s.(pending := s.pending - {key}), None)
        else if !VerifyProve(w, m, p, wall) then (s, None)
        else
          var session := NewSession(w, p, addr, now);
          match SessionTicket(w, id, session, wall)
          case Err(_) => (s, None)
          case Ok(ticket) =>
            (Server(s.pending - {key}, s.sessions[id := session.(ticket := ticket)]), Sent(AckPacket(ProveAck(w, p, id, wall, ticket))))
  }

  // ---------- address checks ----------

  predicate PathValidated(s: Session, addr: Addr, now: real) {
    addr in s.paths && s.paths[addr].expiresAt >= now && s.paths[addr].token != []
  }

  function IssuePathChallenge(w: World, s: Server, id: int, addr: Addr, now: real, token: Bytes): (Server, Option<Bytes>)
    requires id in s.sessions
  {
    var session := s.sessions[id];
    var entry := if addr in session.paths then session.paths[addr] else PathEntry([], 0.0);
    if entry.expiresAt < now || entry.token == [] then
      var paths := session.paths[addr := PathEntry(token, now + w.pathTtl)];
      (s.(sessions := s.sessions[id := session.(paths := paths)]),
       if |token| != NONCE_BYTES then None else Sent(Packet(MSG_PATH_CHALLENGE, id, token)))
    else (s, None)
  }

  function HandlePathResponse(s: Server, id: int, body: Bytes, addr: Addr, now: real): Server {
    if id !in s.sessions || |body| != NONCE_BYTES then s
    else
      var session := s.sessions[id];
      if addr !in session.paths then s
      else if session.paths[addr].expiresAt < now || session.paths[addr].token != body then s
      else s.(sessions := s.sessions[id := session.(addr := addr, paths := session.paths - {addr})])
  }

  // Everything else that names a session: expiry, the address check, and CLOSE.
  function HandleTraffic(w: World, s: Server, msgType: int, id: int, addr: Addr, now: real, token: Bytes): (Server, Option<Bytes>) {
    if id !in s.sessions then (s, None)
    else if now > s.sessions[id].expiresAt then (s.(sessions := s.sessions - {id}), None)
    else if s.sessions[id].addr != addr && !PathValidated(s.sessions[id], addr, now) then
      IssuePathChallenge(w, s, id, addr, now, token)
    else if msgType == MSG_CLOSE then (s.(sessions := s.sessions - {id}), None)
    else (s.(sessions := s.sessions[id := s.sessions[id].(addr := addr)]), None)
  }

  function HandlePing(w: World, s: Server, id: int, addr: Addr, now: real, token: Bytes): (Server, Option<Bytes>) {
    if id !in s.sessions || s.sessions[id].addr == addr then (s, None)
    else IssuePathChallenge(w, s, id, addr, now, token)
  }

  // What secrets.* yields while one datagram is handled.
  datatype Random = Random(nonce: Bytes, sessionId: int)

  // datagram_received
  function Receive(w: World, s: Server, data: Bytes, addr: Addr, now: real, wall: real, random: Random): (Server, Option<Bytes>) {
    match ServerSplit(data)
    case Err(_) => (s, None)
    case Ok(d) =>
      var h := d.header;
      if h.msgType == MSG_HELLO then HandleHello(w, s, d.body, addr, now, wall, random.nonce)
      else if h.msgType == MSG_PROVE then HandleProve(w, s, d.body, addr, now, wall, random.sessionId)
      else if h.msgType == MSG_PING then HandlePing(w, s, h.sessionId, addr, now, random.nonce)
      else if h.msgType == MSG_PATH_RESPONSE then (HandlePathResponse(s, h.sessionId, d.body, addr, now), None)
      else HandleTraffic(w, s, h.msgType, h.sessionId, addr, now, random.nonce)
  }

  // One pass of the cleanup loop.
  function Swept(s: Session, now: real): Session {
    s.(paths := map a | a in s.paths && s.paths[a].expiresAt >= now :: s.paths[a])
  }

  function Cleanup(s: Server, now: real): Server {
    Server(map k | k in s.pending && s.pending[k].expiresAt >= now :: s.pending[k],
           map id | id in s.sessions && s.sessions[id].expiresAt >= now && !s.sessions[id].closed :: Swept(s.sessions[id], now))
  }

  // ---------- client ----------

  datatype Client = Client(clientId: Text, cnonce: Option<Bytes>, session: Option<Agreed>, ticket: Bytes)

  // The start of connect(): the HELLO, or the exception raised.
  function Connect(w: World, c: Client, cnonce: Bytes, wall: real): (Client, Result<Bytes>) {
    var ts := Trunc(wall);
    var packet := HelloPacket(Hello(c.clientId, cnonce, ts, c.ticket, HelloMac(w, c.clientId, cnonce, ts, c.ticket)));
    (if packet.Ok? then c.(cnonce := Some(cnonce)) else c, packet)
  }

  function OnChallenge(w: World, c: Client, body: Bytes, wall: real): Option<Bytes> {
    match DecodeChallenge(body)
    case Err(_) => None
    case Ok(m) =>
      if m.clientId != c.clientId || Some(m.cnonce) != c.cnonce then None
      else if ChallengeMac(w, m.clientId, m.cnonce, m.snonce, m.cookie, m.ts) != m.mac then None
      else
        var ts := Trunc(wall);
        Sent(ProvePacket(m.(ts := ts, mac := ProveMac(w, m.clientId, m.cnonce, m.snonce, m.cookie, ts))))
  }

  // _on_ack: the mac is not looked at.
  function OnAck(w: World, c: Client, body: Bytes, wall: real): Client {
    match DecodeAck(body)
    case Err(_) => c
    case Ok(m) =>
      if m.clientId != c.clientId || Some(m.cnonce) != c.cnonce then c
      else
        var c1 := if m.ticket == [] then c else c.(ticket := m.ticket);
        var restored := if m.ticket == [] then None else RestoreTicket(w, m.ticket, c.clientId, wall);
        match restored
        case Some(agreed) => c1.(session := Some(agreed))
        case None => c1.(session := Some(Agreed(m.sessionId, DeriveSessionKey(w.hash, w.psk, m.clientId, m.cnonce, m.snonce))))
  }

  function OnPathChallenge(c: Client, id: int, body: Bytes): Option<Bytes> {
    if c.session.None? || c.session.value.id != id || |body| != NONCE_BYTES then None
    else Sent(Packet(MSG_PATH_RESPONSE, id, body))
  }

  // _send_close
  function CloseOf(c: Client): Option<Bytes> {
    if c.session.None? then None else Sent(Packet(MSG_CLOSE, c.session.value.id, []))
  }

  // _on_datagram
  function ClientReceive(w: World, c: Client, data: Bytes, wall: real): (Client, Option<Bytes>) {
    match ClientSplit(data)
    case Err(_) => (c, None)
    case Ok(d) =>
      if d.header.msgType == MSG_CHALLENGE then (c, OnChallenge(w, c, d.body, wall))
      else if d.header.msgType == MSG_ACK then (OnAck(w, c, d.body, wall), None)
      else if d.header.msgType == MSG_PATH_CHALLENGE then (c, OnPathChallenge(c, d.header.sessionId, d.body))
      else (c, None)
  }
}
