// What the handshake guarantees over every run: key agreement and conservation.
module HandshakeTheorems {
  import opened Common
  import opened Codec
  import opened Primitives
  import opened Security
  import opened Handshake
  import opened HandshakeSystem
  import opened HandshakeSafety
  import opened ServerLaws

  // ---------- histories only grow ----------

  predicate Grows(s: System, s': System) {
    && Extends(s.origin, s'.origin)
    && (forall n | n in s.challenges :: n in s'.challenges && s'.challenges[n] == s.challenges[n])
  }

  lemma StepGrows(w: World, s: System, step: Step)
    requires Inv(w, s)
    ensures Grows(s, Apply(w, s, step))
  {
    hide Receive, Connect, ClientReceive, Late, SessionOk, ServerSplit, DecodeHello, DecodeChallenge, HasType, Cleanup, ClientOk,
         FromClient, FromServer;
    if step.ServerGets? && ReachesServer(s, step.data, step.random) {
      assert ChallengeOk(s.challenges, s.drawn, step.random.nonce);
    }
  }

  lemma {:induction false} RunGrows(w: World, steps: seq<Step>, n: nat)
    requires SoundWorld(w) && n <= |steps|
    ensures Grows(Run(w, steps[..n]), Run(w, steps))
  {
    hide Inv, Apply, Sound, SoundHash;
    if n == |steps| {
      assert steps[..n] == steps;
    } else {
      var before := steps[..|steps| - 1];
      assert before[..n] == steps[..n];
      RunGrows(w, before, n);
      Reachable(w, before);
      StepGrows(w, Run(w, before), steps[|steps| - 1]);
    }
  }

  // ---------- key agreement ----------

  // Whoever holds a session at whatever two moments of a run holds the same key for it: a client
  // that was not handed its session too late, and the server that created or restored it.
  lemma KeyAgreement(w: World, steps: seq<Step>, n: nat, m: nat, i: int)
    requires SoundWorld(w) && n <= |steps| && m <= |steps|
    requires var s := Run(w, steps[..n]); i in s.clients && i !in s.late && s.clients[i].session.Some?
    ensures var c := Run(w, steps[..n]).clients[i];
            var id := c.session.value.id;
            && id in Run(w, steps).origin && Run(w, steps).origin[id].clientId == c.clientId
            && c.session.value.key == KeyOf(w, Run(w, steps).origin[id])
            && var server := Run(w, steps[..m]).server;
               id in server.sessions ==>
                 server.sessions[id].key == c.session.value.key && server.sessions[id].clientId == c.clientId
  {
    hide Run, KeyOf, LateKey, GoodTicket, TicketFor, Sound, SoundHash;
    Reachable(w, steps[..n]);
    Reachable(w, steps[..m]);
    RunGrows(w, steps, n);
    RunGrows(w, steps, m);
    assert ClientOk(w, Run(w, steps[..n]), i);
    var id := Run(w, steps[..n]).clients[i].session.value.id;
    assert SessionOk(w, Run(w, steps[..m]).server, Run(w, steps[..m]).origin, id);
  }

  // A session keeps its owner and its key through removals and resumptions.
  lemma OneKeyPerSession(w: World, steps: seq<Step>, n: nat, m: nat, id: int)
    requires SoundWorld(w) && n <= |steps| && m <= |steps|
    requires id in Run(w, steps[..n]).server.sessions && id in Run(w, steps[..m]).server.sessions
    ensures var a := Run(w, steps[..n]).server.sessions[id];
            var b := Run(w, steps[..m]).server.sessions[id];
            a.key == b.key && a.clientId == b.clientId
  {
    hide Run, KeyOf, TicketFor, ClientOk, FromClient, FromServer, Sound, SoundHash;
    Reachable(w, steps[..n]);
    Reachable(w, steps[..m]);
    RunGrows(w, steps, n);
    RunGrows(w, steps, m);
    assert SessionOk(w, Run(w, steps[..n]).server, Run(w, steps[..n]).origin, id);
    assert SessionOk(w, Run(w, steps[..m]).server, Run(w, steps[..m]).origin, id);
  }

  // Tickets that clients or sessions hold, or that are on their way.
  ghost predicate Outstanding(s: System, ticket: Bytes) {
    || (exists i | i in s.clients :: s.clients[i].ticket == ticket)
    || (exists id | id in s.server.sessions :: s.server.sessions[id].ticket == ticket)
    || (exists data | data in s.toServer :: CarriedByHello(data, ticket))
    || (exists data | data in s.toClient :: CarriedByAck(data, ticket))
  }

  predicate CarriedByHello(data: Bytes, ticket: Bytes) {
    && ServerSplit(data).Ok? && ServerSplit(data).value.header.msgType == MSG_HELLO
    && DecodeHello(ServerSplit(data).value.body).Ok? && DecodeHello(ServerSplit(data).value.body).value.ticket == ticket
  }

  predicate CarriedByAck(data: Bytes, ticket: Bytes) {
    && ClientSplit(data).Ok? && ClientSplit(data).value.header.msgType == MSG_ACK
    && DecodeAck(ClientSplit(data).value.body).Ok? && DecodeAck(ClientSplit(data).value.body).value.ticket == ticket
  }

  lemma OutstandingIsGood(w: World, s: System, ticket: Bytes)
    requires SoundWorld(w) && Inv(w, s) && Outstanding(s, ticket)
    ensures GoodTicket(w, s.origin, ticket)
  {
    hide ServerSplit, ClientSplit, DecodeHello, DecodeAck, FromClient, FromServer, Seals, Sound, SoundHash, Sized, AckPacket, KeyOf;
    if i :| i in s.clients && s.clients[i].ticket == ticket {
      assert ClientOk(w, s, i);
    } else if id :| id in s.server.sessions && s.server.sessions[id].ticket == ticket {
      assert SessionOk(w, s.server, s.origin, id);
    } else if data :| data in s.toServer && CarriedByHello(data, ticket) {
      ReceivedHello(w, s.origin, data);
    } else {
      var data :| data in s.toClient && CarriedByAck(data, ticket);
      ReceivedAck(w, s.origin, data);
    }
  }

  // Whatever an outstanding ticket restores, at either end and at any time, is the session of its
  // owner with the key that the session was created with.
  lemma TicketsCarryTheKey(w: World, steps: seq<Step>, ticket: Bytes, clientId: Text, wall: real)
    requires SoundWorld(w) && Outstanding(Run(w, steps), ticket) && ticket != []
    ensures match RestoreTicket(w, ticket, clientId, wall)
            case None => true
            case Some(a) =>
              var origin := Run(w, steps).origin;
              a.id in origin && origin[a.id].clientId == clientId && a.key == KeyOf(w, origin[a.id])
  {
    hide Inv, Outstanding, RestoreTicket, KeyOf, Run, Sound, SoundHash, SealTicket;
    var s := Run(w, steps);
    Reachable(w, steps);
    OutstandingIsGood(w, s, ticket);
    var p :| Seals(w, s.origin, p, ticket);
    TicketRestores(w, s.origin, p, ticket, clientId, wall);
  }

  // ---------- when an ACK leaves the two ends with different keys ----------

  // For one client, different server nonces give different session keys.
  ghost predicate DistinctKeys(w: World) {
    forall clientId: Text, cnonceA: Bytes, snonceA: Bytes, cnonceB: Bytes, snonceB: Bytes
      {:trigger DeriveSessionKey(w.hash, w.psk, clientId, cnonceA, snonceA), DeriveSessionKey(w.hash, w.psk, clientId, cnonceB, snonceB)} ::
      |cnonceA| == NONCE_BYTES && |snonceA| == NONCE_BYTES && |cnonceB| == NONCE_BYTES && |snonceB| == NONCE_BYTES && snonceA != snonceB ==>
        DeriveSessionKey(w.hash, w.psk, clientId, cnonceA, snonceA) != DeriveSessionKey(w.hash, w.psk, clientId, cnonceB, snonceB)
  }

  function ToyHmac(key: Bytes, message: Bytes): (digest: Bytes)
    ensures |digest| == HASH_SIZE
  {
    if |key| < NONCE_BYTES then seq(HASH_SIZE, _ => 0) else key[..NONCE_BYTES] + seq(HASH_SIZE - NONCE_BYTES, _ => 0)
  }

  function ToyDecrypt(cipher: Bytes): Option<Bytes> {
    if |cipher| < TAG_SIZE then None else Some(cipher[..|cipher| - TAG_SIZE])
  }

  function ToyWorld(): World {
    World([], Hash((key: Bytes, message: Bytes) => ToyHmac(key, message), (message: Bytes) => seq(HASH_SIZE, _ => 0)),
          Aead((key: Bytes, nonce: Bytes, plain: Bytes, aad: Bytes) => plain + seq(TAG_SIZE, _ => 0),
               (key: Bytes, nonce: Bytes, cipher: Bytes, aad: Bytes) => ToyDecrypt(cipher)),
          1.0, 1.0, 1.0, 1.0, 1)
  }

  // The assumptions on the primitives can be met together.
  lemma AssumptionsMet()
    ensures SoundWorld(ToyWorld()) && DistinctKeys(ToyWorld())
  {
    var w := ToyWorld();
    forall key: Bytes, nonce: Bytes, plain: Bytes, aad: Bytes
      ensures w.aead.decrypt(key, nonce, w.aead.encrypt(key, nonce, plain, aad), aad) == Some(plain)
    {
      var cipher := w.aead.encrypt(key, nonce, plain, aad);
      assert cipher[..|cipher| - TAG_SIZE] == plain;
    }
    forall clientId: Text, cnonce: Bytes, snonce: Bytes | |cnonce| == NONCE_BYTES && |snonce| == NONCE_BYTES
      ensures DeriveSessionKey(w.hash, w.psk, clientId, cnonce, snonce) == ToyHmac(snonce, [])
    {
      ToyKey(clientId, cnonce, snonce);
    }
    forall a: Bytes, b: Bytes | |a| == NONCE_BYTES && |b| == NONCE_BYTES && ToyHmac(a, []) == ToyHmac(b, []) ensures a == b {
      assert a == ToyHmac(a, [])[..NONCE_BYTES] && b == ToyHmac(b, [])[..NONCE_BYTES];
    }
  }

  lemma ToyKey(clientId: Text, cnonce: Bytes, snonce: Bytes)
    requires |cnonce| == NONCE_BYTES && |snonce| == NONCE_BYTES
    ensures DeriveSessionKey(ToyWorld().hash, [], clientId, cnonce, snonce) == ToyHmac(snonce, [])
  {
    var hash := ToyWorld().hash;
    var info := SESSION_INFO + clientId + BAR + cnonce + BAR + snonce;
    var prk := hash.hmac(snonce + cnonce, []);
    assert prk == ToyHmac(snonce, []);
    assert T(hash, prk, info, 1) == hash.hmac(prk, T(hash, prk, info, 0) + info + [1]);
    assert Blocks(hash, prk, info, 1) == Blocks(hash, prk, info, 0) + T(hash, prk, info, 1) == T(hash, prk, info, 1);
    assert prk[..NONCE_BYTES] == snonce;
    assert |T(hash, prk, info, 1)| == KEY_SIZE;
  }

  // The client's clock has not passed the expiry sealed in the ticket.
  predicate TicketLive(w: World, ticket: Bytes, wall: real) {
    match OpenTicket(w.hash, w.aead, w.psk, ticket)
    case None => false
    case Some(payload) => DecodeTicketPayload(payload).Ok? && Trunc(wall) <= DecodeTicketPayload(payload).value.expiresAt
  }

  // The client agrees with the server on the key exactly when the ACK's ticket is still live for the
  // client or the ACK answers a PROVE. A resumption ACK that arrives later makes the client derive a
  // key that the server never has.
  lemma AckAgreesIff(w: World, steps: seq<Step>, i: int, data: Bytes, wall: real)
    requires SoundWorld(w) && DistinctKeys(w)
    requires var s := Run(w, steps); i in s.clients && data in s.toClient && Accepted(s.clients[i], data).Some?
    ensures var s := Run(w, steps);
            var m := Accepted(s.clients[i], data).value;
            var session := ClientReceive(w, s.clients[i], data, wall).0.session;
            && session.Some? && session.value.id == m.sessionId && m.sessionId in s.origin
            && (session.value.key == KeyOf(w, s.origin[m.sessionId]) <==>
                TicketLive(w, m.ticket, wall) || m.snonce == s.origin[m.sessionId].snonce)
  {
    hide Inv, ServerInv, Run, Sound, SoundHash, ClientReceive, Accepted, TicketLive, FromServer, RestoreTicket, IsAck,
         DeriveSessionKey, DistinctKeys, OnAck;
    var s := Run(w, steps);
    Reachable(w, steps);
    InvParts(w, s, data);
    var m := Accepted(s.clients[i], data).value;
    AcceptedIsTaken(w, s.clients[i], data, wall);
    AckAgrees(w, s, s.clients[i], data, wall);
    AckKnown(w, s.origin, m, data);
    AckTicketLive(w, s.origin, m, data, wall);
    if IsLate(w, s, m, wall) {
      LateKeyDiffers(w, s, m, data);
    }
  }

  lemma AcceptedIsTaken(w: World, c: Client, data: Bytes, wall: real)
    requires Accepted(c, data).Some?
    ensures ClientSplit(data).Ok? && ClientReceive(w, c, data, wall).0 == OnAck(w, c, ClientSplit(data).value.body, wall)
  {
    hide ClientSplit, DecodeAck, OnAck;
  }

  lemma InvParts(w: World, s: System, data: Bytes)
    requires Inv(w, s) && data in s.toClient
    ensures FromServer(w, s.origin, data) && ServerInv(w, s)
  {
    hide FromServer, FromClient, ServerInv;
  }

  // A client restores the ticket of its own ACK exactly when it is live.
  lemma AckTicketLive(w: World, origin: map<int, Origin>, m: Ack, data: Bytes, wall: real)
    requires SoundWorld(w) && IsAck(w, origin, m, data)
    ensures RestoreTicket(w, m.ticket, m.clientId, wall).None? <==> !TicketLive(w, m.ticket, wall)
  {
    hide AckPacket, DecodeTicketPayload, EncodeTicketPayload, OpenTicket, SealTicket, KeyOf, Sound, SoundHash;
    var p: TicketPayload :| p.sessionId == m.sessionId && Seals(w, origin, p, m.ticket);
    TicketRestores(w, origin, p, m.ticket, m.clientId, wall);
    TicketOpens(w, origin, p, m.ticket);
  }

  lemma LateKeyDiffers(w: World, s: System, m: Ack, data: Bytes)
    requires DistinctKeys(w) && ServerInv(w, s) && IsAck(w, s.origin, m, data) && m.snonce != s.origin[m.sessionId].snonce
    ensures DeriveSessionKey(w.hash, w.psk, m.clientId, m.cnonce, m.snonce) != KeyOf(w, s.origin[m.sessionId])
  {
    hide AckPacket, TicketFor, SessionOk, PendingOk, Unspent, Apart, DeriveSessionKey;
    assert m.cnonce in [m.cnonce, m.snonce] && m.snonce in [m.cnonce, m.snonce];
    assert OriginOk(s.challenges, s.origin, m.sessionId);
    assert ChallengeOk(s.challenges, s.drawn, s.origin[m.sessionId].snonce);
  }

  // ---------- conservation ----------

  predicate CreatedFrom(s: System, s': System, addr: Addr, id: int) {
    && id !in s.origin && id !in s.server.sessions
    && id in s'.origin && id in s'.server.sessions
    && var o := s'.origin[id];
       var key := PendingKey(o.addr, o.clientId, o.cnonce);
       && o.addr == addr && o.at == s.now
       && key in s.server.pending && key !in s'.server.pending
       && var p := s.server.pending[key];
          && p.clientId == o.clientId && p.addr == o.addr && p.cnonce == o.cnonce && p.snonce == o.snonce
          && s.now <= p.expiresAt
  }

  // Step `k` turned a pending entry into session `id`: the entry was there for this address, identity
  // and nonces, it had not expired, and it is gone afterwards.
  predicate CreatedAt(w: World, steps: seq<Step>, k: nat, id: int)
    requires k < |steps|
  {
    steps[k].ServerGets? && CreatedFrom(Run(w, steps[..k]), Run(w, steps[..k + 1]), steps[k].addr, id)
  }

  lemma OnlyServerCreates(w: World, s: System, step: Step)
    requires Apply(w, s, step).origin != s.origin
    ensures step.ServerGets? && ReachesServer(s, step.data, step.random)
  {
    hide Late, ClientReceive, Connect, Receive, Cleanup, Recorded, ReachesServer, ReachesClient;
  }

  lemma NewOrigin(w: World, s: System, data: Bytes, addr: Addr, wall: real, r: Random)
    requires SoundWorld(w) && Inv(w, s) && ReachesServer(s, data, r)
    requires ServerStep(w, s, data, addr, wall, r).origin != s.origin
    ensures r.sessionId !in s.origin && ServerStep(w, s, data, addr, wall, r).origin.Keys == s.origin.Keys + {r.sessionId}
    ensures CreatedFrom(s, ServerStep(w, s, data, addr, wall, r), addr, r.sessionId)
  {
    hide ServerSplit, DecodeHello, DecodeChallenge, KeyOf, TicketFor, HandleHello, HandlePing, HandleTraffic, HandlePathResponse,
         Stored, Sound, SoundHash, ChallengeOk, OriginOk, Unspent, Apart, FromClient, FromServer, ClientOk, IsHello, IsProve,
         SessionTicket, NewSession, ProveAck, AckPacket, VerifyProve, OnlyPathChallenge, Add;
    assert SessionOk(w, s.server, s.origin, r.sessionId);
    var d := ServerSplit(data).value;
    OtherDatagramsQuiet(w, s.server, d, addr, s.now, r);
    if d.header.msgType == MSG_HELLO {
      HelloCreatesNothing(w, s, d.body, addr, wall, r, data);
    } else {
      var m := DecodeChallenge(d.body).value;
      assert PendingOk(s.server, s.challenges, PendingKey(addr, m.clientId, m.cnonce));
    }
  }

  lemma HelloCreatesNothing(w: World, s: System, body: Bytes, addr: Addr, wall: real, r: Random, data: Bytes)
    requires SoundWorld(w) && Inv(w, s) && FreshRandom(s, r) && FromClient(w, s.origin, data)
    requires ServerSplit(data).Ok? && ServerSplit(data).value.header.msgType == MSG_HELLO && ServerSplit(data).value.body == body
    ensures r.sessionId !in HandleHello(w, s.server, body, addr, s.now, wall, r.nonce).0.sessions
  {
    hide ServerSplit, DecodeHello, RestoreTicket, Seals, FromClient, FromServer, ClientOk, Sound, SoundHash, SessionTicket, AckPacket,
         ChallengePacket, PendingOk, ChallengeOk, OriginOk, Unspent, Apart, TicketFor, HelloMac, CookieOf;
    assert SessionOk(w, s.server, s.origin, r.sessionId);
    ReceivedHello(w, s.origin, data);
    if VerifyHello(w, body, wall).Some? {
      var m := VerifyHello(w, body, wall).value;
      if m.ticket != [] {
        var p :| Seals(w, s.origin, p, m.ticket);
        TicketRestores(w, s.origin, p, m.ticket, m.clientId, wall);
        SealsKnown(w, s.origin, p, m.ticket);
      }
    }
  }

  lemma SealsKnown(w: World, origin: map<int, Origin>, p: TicketPayload, ticket: Bytes)
    requires Seals(w, origin, p, ticket)
    ensures p.sessionId in origin
  {
  }

  // Every session has its origin in one step of the run.
  lemma {:induction false} SessionComesFromEntry(w: World, steps: seq<Step>, id: int)
    requires SoundWorld(w) && id in Run(w, steps).origin
    ensures exists k | 0 <= k < |steps| :: CreatedAt(w, steps, k, id)
  {
    hide Inv, Apply, Run, ServerStep, CreatedFrom, CreatedAt, Sound, SoundHash;
    if steps == [] {
      NoOriginAtStart(w, id);
    } else {
      var last := |steps| - 1;
      var before := steps[..last];
      LastStep(w, steps);
      if id in Run(w, before).origin {
        SessionComesFromEntry(w, before, id);
        var k: nat :| k < last && CreatedAt(w, before, k, id);
        CreatedEarlier(w, steps, last, k, id);
        assert CreatedAt(w, steps, k, id);
      } else {
        Reachable(w, before);
        CreatedByStep(w, Run(w, before), steps[last], id);
        CreatedLast(w, steps, id);
        assert CreatedAt(w, steps, last, id);
      }
    }
  }

  lemma NoOriginAtStart(w: World, id: int)
    ensures id !in Run(w, []).origin
  {
  }

  lemma CreatedByStep(w: World, s: System, step: Step, id: int)
    requires SoundWorld(w) && Inv(w, s) && id !in s.origin && id in Apply(w, s, step).origin
    ensures step.ServerGets? && CreatedFrom(s, Apply(w, s, step), step.addr, id)
  {
    hide Inv, ServerStep, ClientStep, CreatedFrom, Cleanup, Connect, ReachesClient, Sound, SoundHash;
    OnlyServerCreates(w, s, step);
    NewOrigin(w, s, step.data, step.addr, step.wall, step.random);
  }

  lemma CreatedEarlier(w: World, steps: seq<Step>, n: nat, k: nat, id: int)
    requires k < n <= |steps|
    ensures CreatedAt(w, steps[..n], k, id) == CreatedAt(w, steps, k, id)
  {
    hide CreatedFrom, Run;
    assert steps[..n][..k] == steps[..k] && steps[..n][..k + 1] == steps[..k + 1] && steps[..n][k] == steps[k];
  }

  lemma CreatedLast(w: World, steps: seq<Step>, id: int)
    requires steps != []
    ensures var last := |steps| - 1;
            CreatedAt(w, steps, last, id)
            == (steps[last].ServerGets? && CreatedFrom(Run(w, steps[..last]), Run(w, steps), steps[last].addr, id))
  {
    hide CreatedFrom, Run;
    assert steps[..|steps| - 1 + 1] == steps;
  }

  // This step delivers a HELLO that the server accepts and that restores no session.
  predicate IsEnrolment(w: World, s: System, step: Step) {
    step.ServerGets? && ReachesServer(s, step.data, step.random) && Enrolling(w, s.server, step.data, step.wall)
  }

  function Enrolments(w: World, steps: seq<Step>): nat {
    if steps == [] then 0
    else
      var before := steps[..|steps| - 1];
      Enrolments(w, before) + if IsEnrolment(w, Run(w, before), steps[|steps| - 1]) then 1 else 0
  }

  // A server step that adds no pending entry records none.
  lemma NothingStored(w: World, s: System, server': Server, data: Bytes, addr: Addr, r: Random)
    requires Inv(w, s) && FreshRandom(s, r)
    requires forall k | k in server'.pending :: k in s.server.pending && server'.pending[k] == s.server.pending[k]
    ensures Stored(s, server', data, addr, r) == s.challenges
  {
    hide ServerSplit, DecodeHello, SessionOk, OriginOk, Unspent, Apart, FromClient, FromServer, ClientOk, Identity;
    forall k | k in s.server.pending ensures s.server.pending[k].snonce != r.nonce {
      assert PendingOk(s.server, s.challenges, k);
      assert ChallengeOk(s.challenges, s.drawn, s.server.pending[k].snonce);
    }
  }

  lemma ServerRecords(w: World, s: System, data: Bytes, addr: Addr, wall: real, r: Random)
    requires Inv(w, s) && ReachesServer(s, data, r)
    ensures var s' := ServerStep(w, s, data, addr, wall, r);
            |s'.challenges| == |s.challenges| + if IsEnrolment(w, s, ServerGets(data, addr, wall, r)) then 1 else 0
  {
    hide Inv, ServerSplit, DecodeHello, DecodeChallenge, HandlePing, HandleTraffic, HandlePathResponse, Created, FreshRandom,
         SessionTicket, Resumed, ResumeAck, NewSession, ProveAck, AckPacket, ChallengePacket, VerifyProve, OnlyPathChallenge, Add,
         RestoreTicket, HelloMac, CookieOf, ChallengeMac;
    var server' := ServerStep(w, s, data, addr, wall, r).server;
    if IsEnrolment(w, s, ServerGets(data, addr, wall, r)) {
      FreshNonce(w, s, r);
    } else {
      if ServerSplit(data).Ok? {
        OtherDatagramsQuiet(w, s.server, ServerSplit(data).value, addr, s.now, r);
      }
      NothingStored(w, s, server', data, addr, r);
    }
  }

  lemma FreshNonce(w: World, s: System, r: Random)
    requires Inv(w, s) && FreshRandom(s, r)
    ensures r.nonce !in s.challenges
  {
    assert ChallengeOk(s.challenges, s.drawn, r.nonce);
  }

  lemma StepRecords(w: World, s: System, step: Step)
    requires Inv(w, s)
    ensures |Apply(w, s, step).challenges| == |s.challenges| + if IsEnrolment(w, s, step) then 1 else 0
  {
    hide Inv, Late, ClientReceive, Connect, Receive, Cleanup, Recorded, ReachesServer, ReachesClient, ServerSplit, ServerStep;
    if step.ServerGets? && ReachesServer(s, step.data, step.random) {
      ServerRecords(w, s, step.data, step.addr, step.wall, step.random);
    }
  }

  lemma {:induction false} OneNonceEach(origin: map<int, Origin>, ids: set<int>, nonces: set<Bytes>)
    requires forall id | id in ids :: id in origin && origin[id].snonce in nonces
    requires forall a, b | a in ids && b in ids && a != b :: origin[a].snonce != origin[b].snonce
    ensures |ids| <= |nonces|
  {
    if ids != {} {
      SomeIn(ids);
      var id :| id in ids;
      OneNonceEach(origin, ids - {id}, nonces - {origin[id].snonce});
    }
  }

  // Sessions created by PROVE never outnumber the HELLOs that were accepted without restoring one:
  // each of those records one entry, and no two sessions share an entry.
  lemma {:induction false} Conservation(w: World, steps: seq<Step>)
    requires SoundWorld(w)
    ensures |Run(w, steps).challenges| == Enrolments(w, steps)
    ensures |Run(w, steps).origin| <= Enrolments(w, steps)
  {
    hide Inv, Apply, Sound, SoundHash, IsEnrolment;
    Reachable(w, steps);
    SessionsBounded(w, Run(w, steps));
    if steps != [] {
      Conservation(w, steps[..|steps| - 1]);
      Reachable(w, steps[..|steps| - 1]);
      StepRecords(w, Run(w, steps[..|steps| - 1]), steps[|steps| - 1]);
    }
  }

  lemma SessionsBounded(w: World, s: System)
    requires Inv(w, s)
    ensures |s.origin| <= |s.challenges|
  {
    hide SessionOk, PendingOk, ChallengeOk, Unspent, FromClient, FromServer, ClientOk, Fits;
    forall id | id in s.origin.Keys ensures s.origin[id].snonce in s.challenges.Keys {
      assert OriginOk(s.challenges, s.origin, id);
    }
    forall a, b | a in s.origin.Keys && b in s.origin.Keys && a != b ensures s.origin[a].snonce != s.origin[b].snonce {
      assert Apart(s.origin, a, b);
    }
    OneNonceEach(s.origin, s.origin.Keys, s.challenges.Keys);
    assert |s.origin| == |s.origin.Keys| && |s.challenges| == |s.challenges.Keys|;
  }
}
