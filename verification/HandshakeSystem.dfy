// Any number of clients, one server and a network that loses, duplicates, reorders and redirects
// datagrams, as a step system. Only HELLO, PROVE, CHALLENGE and ACK come from the protocol's own
// ends; every other kind of datagram may arrive from anywhere at any time.
module HandshakeSystem {
  import opened Common
  import opened Codec
  import opened Primitives
  import opened Security
  import opened Handshake

  // The PROVE that created a session: its identity and nonces, where it came from and when.
  datatype Origin = Origin(clientId: Text, cnonce: Bytes, snonce: Bytes, addr: Addr, at: real)

  datatype System = System(
    server: Server,
    clients: map<int, Client>,
    toServer: set<Bytes>,
    toClient: set<Bytes>,
    now: real,
    // history
    drawn: set<Bytes>, // every server nonce so far
    challenges: map<Bytes, Pending>, // every pending entry ever stored, by its server nonce
    origin: map<int, Origin>, // every session ever created by a PROVE
    late: set<int>) // clients whose session comes from a resumption ACK that reached them after its ticket had expired

  datatype Step =
    | NewClient(client: int, clientId: Text)
    | Open(client: int, cnonce: Bytes, wall: real)
    | ServerGets(data: Bytes, addr: Addr, wall: real, random: Random)
    | ClientGets(client: int, data: Bytes, wall: real)
    | LoseToServer(data: Bytes)
    | LoseToClient(data: Bytes)
    | CleanupPass
    | Tick(elapsed: real)

  const INITIAL := System(NEW_SERVER, map[], {}, {}, 0.0, {}, map[], map[], {})

  predicate HasType(d: Result<Datagram>, a: int, b: int) {
    d.Ok? && (d.value.header.msgType == a || d.value.header.msgType == b)
  }

  // Server nonces and session ids are fresh, and of the sizes that secrets.* gives them.
  predicate FreshRandom(s: System, r: Random) {
    && |r.nonce| == NONCE_BYTES && r.nonce !in s.drawn
    && Fits(r.sessionId, 8) && r.sessionId !in s.origin
  }

  function Add(packets: set<Bytes>, packet: Option<Bytes>): set<Bytes> {
    match packet
    case Some(data) => packets + {data}
    case None => packets
  }

  // The pending entry that this datagram stored, if it did.
  function Stored(s: System, server': Server, data: Bytes, addr: Addr, r: Random): map<Bytes, Pending> {
    match ServerSplit(data)
    case Err(_) => s.challenges
    case Ok(d) =>
      match DecodeHello(d.body)
      case Err(_) => s.challenges
      case Ok(m) =>
        var key := PendingKey(addr, m.clientId, m.cnonce);
        if key in server'.pending && server'.pending[key].snonce == r.nonce then s.challenges[r.nonce := server'.pending[key]]
        else s.challenges
  }

  // The session that this datagram created, if it did.
  function Created(s: System, server': Server, data: Bytes, addr: Addr, r: Random): map<int, Origin> {
    if r.sessionId !in server'.sessions then s.origin
    else
      match ServerSplit(data)
      case Err(_) => s.origin
      case Ok(d) =>
        match DecodeChallenge(d.body)
        case Err(_) => s.origin
        case Ok(m) =>
          var key := PendingKey(addr, m.clientId, m.cnonce);
          if key !in s.server.pending then s.origin
          else
            var p := s.server.pending[key];
            s.origin[r.sessionId := Origin(p.clientId, p.cnonce, p.snonce, addr, s.now)]
  }

  // The ACK that the client accepts from this datagram.
  function Accepted(c: Client, data: Bytes): Option<Ack> {
    match ClientSplit(data)
    case Err(_) => None
    case Ok(d) =>
      if d.header.msgType != MSG_ACK then None
      else
        match DecodeAck(d.body)
        case Err(_) => None
        case Ok(m) => if m.clientId != c.clientId || Some(m.cnonce) != c.cnonce then None else Some(m)
  }

  // A resumption ACK whose ticket the client's clock already calls expired.
  predicate IsLate(w: World, s: System, m: Ack, wall: real) {
    && RestoreTicket(w, m.ticket, m.clientId, wall).None?
    && (m.sessionId in s.origin ==> m.snonce != s.origin[m.sessionId].snonce)
  }

  function Late(w: World, s: System, client: int, c: Client, data: Bytes, wall: real): set<int> {
    match Accepted(c, data)
    case None => s.late
    case Some(m) => if IsLate(w, s, m, wall) then s.late + {client} else s.late - {client}
  }

  // The system after the server has handled a datagram.
  function Recorded(s: System, server': Server, reply: Option<Bytes>, data: Bytes, addr: Addr, r: Random): System {
    s.(server := server',
       toClient := Add(s.toClient, reply),
       drawn := s.drawn + {r.nonce},
       challenges := Stored(s, server', data, addr, r),
       origin := Created(s, server', data, addr, r))
  }

  function ServerStep(w: World, s: System, data: Bytes, addr: Addr, wall: real, r: Random): System {
    var (server', reply) := Receive(w, s.server, data, addr, s.now, wall, r);
    Recorded(s, server', reply, data, addr, r)
  }

  function ClientStep(w: World, s: System, client: int, data: Bytes, wall: real): System
    requires client in s.clients
  {
    var c := s.clients[client];
    var (c', reply) := ClientReceive(w, c, data, wall);
    s.(clients := s.clients[client := c'], toServer := Add(s.toServer, reply), late := Late(w, s, client, c, data, wall))
  }

  // The network may deliver these datagrams.
  predicate ReachesServer(s: System, data: Bytes, r: Random) {
    FreshRandom(s, r) && (data in s.toServer || !HasType(ServerSplit(data), MSG_HELLO, MSG_PROVE))
  }

  predicate ReachesClient(s: System, i: int, data: Bytes) {
    i in s.clients && (data in s.toClient || !HasType(ClientSplit(data), MSG_CHALLENGE, MSG_ACK))
  }

  // A step that is not enabled changes nothing.
  function Apply(w: World, s: System, step: Step): System {
    match step
    case NewClient(i, clientId) =>
      if i in s.clients then s else s.(clients := s.clients[i := Client(clientId, None, None, [])])
    case Open(i, cnonce, wall) =>
      if i in s.clients && |cnonce| == NONCE_BYTES then
        var (c', packet) := Connect(w, s.clients[i], cnonce, wall);
        s.(clients := s.clients[i := c'], toServer := Add(s.toServer, Sent(packet)))
      else s
    case ServerGets(data, addr, wall, r) =>
      if ReachesServer(s, data, r) then ServerStep(w, s, data, addr, wall, r) else s
    case ClientGets(i, data, wall) =>
      if ReachesClient(s, i, data) then ClientStep(w, s, i, data, wall) else s
    case LoseToServer(data) => s.(toServer := s.toServer - {data})
    case LoseToClient(data) => s.(toClient := s.toClient - {data})
    case CleanupPass => s.(server := Cleanup(s.server, s.now))
    case Tick(elapsed) => if elapsed >= 0.0 then s.(now := s.now + elapsed) else s
  }

  function Run(w: World, steps: seq<Step>): System {
    if steps == [] then INITIAL else Apply(w, Run(w, steps[..|steps| - 1]), steps[|steps| - 1])
  }

  lemma LastStep(w: World, steps: seq<Step>)
    requires steps != []
    ensures Run(w, steps) == Apply(w, Run(w, steps[..|steps| - 1]), steps[|steps| - 1])
  {
    hide Apply;
  }

  ghost predicate SoundWorld(w: World) {
    SoundHash(w.hash) && Sound(w.aead)
  }

  // ---------- the inductive invariant ----------

  function KeyOf(w: World, o: Origin): Bytes {
    DeriveSessionKey(w.hash, w.psk, o.clientId, o.cnonce, o.snonce)
  }

  // `ticket` seals the owner and the key of session `id`.
  predicate Seals(w: World, origin: map<int, Origin>, p: TicketPayload, ticket: Bytes) {
    && p.sessionId in origin
    && p.clientId == origin[p.sessionId].clientId && |p.clientId| > 0
    && p.sessionKey == KeyOf(w, origin[p.sessionId])
    && EncodeTicketPayload(p).Ok?
    && ticket == SealTicket(w.hash, w.aead, w.psk, EncodeTicketPayload(p).value)
  }

  ghost predicate TicketFor(w: World, origin: map<int, Origin>, ticket: Bytes, id: int) {
    exists p: TicketPayload :: p.sessionId == id && Seals(w, origin, p, ticket)
  }

  ghost predicate GoodTicket(w: World, origin: map<int, Origin>, ticket: Bytes) {
    ticket == [] || exists p :: Seals(w, origin, p, ticket)
  }

  predicate Identity(clientId: Text, cnonce: Bytes) {
    0 < |clientId| <= MAX_CLIENT_ID_BYTES && |cnonce| == NONCE_BYTES
  }

  ghost predicate SessionOk(w: World, server: Server, origin: map<int, Origin>, id: int) {
    id in server.sessions ==>
      && id in origin
      && server.sessions[id].clientId == origin[id].clientId
      && server.sessions[id].key == KeyOf(w, origin[id])
      && (server.sessions[id].ticket == [] || TicketFor(w, origin, server.sessions[id].ticket, id))
  }

  // A pending entry is on record and has not created a session yet.
  predicate PendingOk(server: Server, challenges: map<Bytes, Pending>, k: PendingKey) {
    k in server.pending ==>
      var p := server.pending[k];
      && k == PendingKey(p.addr, p.clientId, p.cnonce)
      && p.snonce in challenges && challenges[p.snonce] == p
  }

  predicate Unspent(server: Server, origin: map<int, Origin>, k: PendingKey, id: int) {
    k in server.pending && id in origin ==> origin[id].snonce != server.pending[k].snonce
  }

  predicate ChallengeOk(challenges: map<Bytes, Pending>, drawn: set<Bytes>, n: Bytes) {
    n in challenges ==>
      && n in drawn && |n| == NONCE_BYTES
      && challenges[n].snonce == n && Identity(challenges[n].clientId, challenges[n].cnonce)
  }

  // Each session comes from one recorded entry, for the same address, identity and nonces, that had
  // not expired.
  predicate OriginOk(challenges: map<Bytes, Pending>, origin: map<int, Origin>, id: int) {
    id in origin ==>
      var o := origin[id];
      && Fits(id, 8)
      && o.snonce in challenges
      && challenges[o.snonce].clientId == o.clientId && challenges[o.snonce].cnonce == o.cnonce
      && challenges[o.snonce].addr == o.addr && o.at <= challenges[o.snonce].expiresAt
  }

  predicate Apart(origin: map<int, Origin>, a: int, b: int) {
    a in origin && b in origin && a != b ==> origin[a].snonce != origin[b].snonce
  }

  ghost predicate ServerInv(w: World, s: System) {
    && (forall id {:trigger SessionOk(w, s.server, s.origin, id)} :: SessionOk(w, s.server, s.origin, id))
    && (forall k {:trigger PendingOk(s.server, s.challenges, k)} :: PendingOk(s.server, s.challenges, k))
    && (forall k, id {:trigger Unspent(s.server, s.origin, k, id)} :: Unspent(s.server, s.origin, k, id))
    && (forall n {:trigger ChallengeOk(s.challenges, s.drawn, n)} :: ChallengeOk(s.challenges, s.drawn, n))
    && (forall id {:trigger OriginOk(s.challenges, s.origin, id)} :: OriginOk(s.challenges, s.origin, id))
    && (forall a, b {:trigger Apart(s.origin, a, b)} :: Apart(s.origin, a, b))
  }

  ghost predicate IsHello(w: World, origin: map<int, Origin>, m: Hello, data: Bytes) {
    HelloPacket(m) == Ok(data) && |m.cnonce| == NONCE_BYTES && |m.mac| == MAC_SIZE && GoodTicket(w, origin, m.ticket)
  }

  predicate IsProve(m: Challenge, data: Bytes) {
    ProvePacket(m) == Ok(data) && Sized(m.clientId, [m.cnonce, m.snonce], m.mac)
  }

  predicate IsChallenge(m: Challenge, data: Bytes) {
    ChallengePacket(m) == Ok(data) && Sized(m.clientId, [m.cnonce, m.snonce], m.mac)
  }

  // An ACK names a session of its client and carries a ticket for it. It answers a PROVE, and then
  // has the nonces that the session's key was derived from, or a resumption, with a nonce of its own.
  ghost predicate IsAck(w: World, origin: map<int, Origin>, m: Ack, data: Bytes) {
    && AckPacket(m) == Ok(data) && Sized(m.clientId, [m.cnonce, m.snonce], m.mac)
    && m.sessionId in origin && m.clientId == origin[m.sessionId].clientId
    && TicketFor(w, origin, m.ticket, m.sessionId)
    && (m.snonce == origin[m.sessionId].snonce ==> m.cnonce == origin[m.sessionId].cnonce)
  }

  ghost predicate FromClient(w: World, origin: map<int, Origin>, data: Bytes) {
    || !HasType(ServerSplit(data), MSG_HELLO, MSG_PROVE)
    || (exists m :: IsHello(w, origin, m, data))
    || (exists m :: IsProve(m, data))
  }

  ghost predicate FromServer(w: World, origin: map<int, Origin>, data: Bytes) {
    || !HasType(ClientSplit(data), MSG_CHALLENGE, MSG_ACK)
    || (exists m :: IsChallenge(m, data))
    || (exists m :: IsAck(w, origin, m, data))
  }

  ghost predicate ClientOk(w: World, s: System, i: int) {
    i in s.clients ==>
      && GoodTicket(w, s.origin, s.clients[i].ticket)
      && (s.clients[i].cnonce.Some? ==> |s.clients[i].cnonce.value| == NONCE_BYTES)
      && (s.clients[i].session.Some? ==> Agrees(w, s, i, s.clients[i].session.value))
  }

  // The client's session is one that the server created for it, with the server's key unless the ACK was late; a late
  // ACK leaves a key derived from a nonce that is not the session's.
  ghost predicate Agrees(w: World, s: System, i: int, a: Agreed)
    requires i in s.clients
  {
    && a.id in s.origin && s.origin[a.id].clientId == s.clients[i].clientId
    && (i !in s.late ==> a.key == KeyOf(w, s.origin[a.id]))
    && (i in s.late ==> exists cnonce, snonce :: LateKey(w, s.origin[a.id], a.key, cnonce, snonce))
  }

  predicate LateKey(w: World, o: Origin, key: Bytes, cnonce: Bytes, snonce: Bytes) {
    snonce != o.snonce && key == DeriveSessionKey(w.hash, w.psk, o.clientId, cnonce, snonce)
  }

  ghost predicate Inv(w: World, s: System) {
    && ServerInv(w, s)
    && (forall d | d in s.toServer :: FromClient(w, s.origin, d))
    && (forall d | d in s.toClient :: FromServer(w, s.origin, d))
    && (forall i {:trigger ClientOk(w, s, i)} :: ClientOk(w, s, i))
  }
}
