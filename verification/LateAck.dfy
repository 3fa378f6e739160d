// A run of the handshake system, from its initial state, after which a client and the server hold one
// session with different keys.
module LateAck {
  import opened Common
  import opened Codec
  import opened Primitives
  import opened Security
  import opened Handshake
  import opened HandshakeSystem
  import opened HandshakeSafety
  import opened HandshakeTheorems
  import opened HandshakeExchange

  // ---------- what one hop does to the system ----------

  lemma OpenHop(w: World, s: System, i: int, cnonce: Bytes, wall: real)
    requires i in s.clients && |cnonce| == NONCE_BYTES
    ensures var s' := Apply(w, s, Open(i, cnonce, wall));
            var (c', packet) := Connect(w, s.clients[i], cnonce, wall);
            && s' == s.(clients := s.clients[i := c'], toServer := s'.toServer)
            && (packet.Ok? ==> packet.value in s'.toServer)
  {
    hide Connect;
  }

  lemma ServerHop(w: World, s: System, data: Bytes, addr: Addr, wall: real, r: Random)
    requires FreshRandom(s, r) && data in s.toServer
    ensures var s' := Apply(w, s, ServerGets(data, addr, wall, r));
            var (server', reply) := Receive(w, s.server, data, addr, s.now, wall, r);
            && s'.server == server' && (reply.Some? ==> reply.value in s'.toClient)
            && s'.clients == s.clients && s'.now == s.now && s'.drawn == s.drawn + {r.nonce}
            && (forall id | id in s'.origin :: id in s.origin || id == r.sessionId)
  {
    hide Receive, Stored, FreshRandom, ServerSplit, DecodeChallenge, HasType;
  }

  lemma ClientHop(w: World, s: System, i: int, data: Bytes, wall: real)
    requires i in s.clients && data in s.toClient
    ensures var s' := Apply(w, s, ClientGets(i, data, wall));
            var (c', reply) := ClientReceive(w, s.clients[i], data, wall);
            && s'.clients == s.clients[i := c'] && (reply.Some? ==> reply.value in s'.toServer)
            && s'.server == s.server && s'.now == s.now && s'.drawn == s.drawn && s'.origin == s.origin
  {
    hide ClientReceive, Late, HasType;
  }

  // A datagram reaches the server and its reply comes back.
  lemma RoundTrip(w: World, s: System, i: int, data: Bytes, addr: Addr, wall: real, r: Random, later: real)
    requires FreshRandom(s, r) && data in s.toServer && i in s.clients
    requires Receive(w, s.server, data, addr, s.now, wall, r).1.Some?
    ensures var (server', reply) := Receive(w, s.server, data, addr, s.now, wall, r);
            var (c', answer) := ClientReceive(w, s.clients[i], reply.value, later);
            var s' := Apply(w, Apply(w, s, ServerGets(data, addr, wall, r)), ClientGets(i, reply.value, later));
            && s'.server == server' && s'.clients == s.clients[i := c'] && (answer.Some? ==> answer.value in s'.toServer)
            && s'.now == s.now && s'.drawn == s.drawn + {r.nonce}
            && (forall id | id in s'.origin :: id in s.origin || id == r.sessionId)
  {
    hide Apply, Receive, ClientReceive, FreshRandom;
    ServerHop(w, s, data, addr, wall, r);
    ClientHop(w, Apply(w, s, ServerGets(data, addr, wall, r)), i, Receive(w, s.server, data, addr, s.now, wall, r).1.value, later);
  }

  lemma TwoMore(w: World, steps: seq<Step>, first: Step, second: Step)
    ensures Run(w, steps + [first] + [second]) == Apply(w, Apply(w, Run(w, steps), first), second)
  {
    hide Run, Apply;
    OneMore(w, steps, first);
    OneMore(w, steps + [first], second);
  }

  lemma OneMore(w: World, steps: seq<Step>, step: Step)
    ensures Run(w, steps + [step]) == Apply(w, Run(w, steps), step)
  {
    hide Apply;
    LastStep(w, steps + [step]);
    assert (steps + [step])[..|steps|] == steps;
  }

  // ---------- the cast ----------

  function Sixteen(b: byte): (s: Bytes)
    ensures |s| == NONCE_BYTES && s[0] == b
  {
    seq(NONCE_BYTES, _ => b)
  }

  // Session ids have their top bit set.
  const FIRST_ID := 0x8000_0000_0000_0001
  const SECOND_ID := 0x8000_0000_0000_0002
  const SPARE_ID := 0x8000_0000_0000_0003

  function Name(): Text {
    AsciiText([0x61])
  }

  predicate Hour(w: World) {
    w.resumptionTtl == 3600.0 && w.pendingTtl >= 0.0 && w.maxClients > 1
  }

  // Client 0, called "a", and the server agree on one session, without a disturbance.
  predicate Established(w: World, s: System, addr: Addr) {
    && s.now == 0.0 && 0 in s.clients && s.clients[0].clientId == Name()
    && s.drawn == {Sixteen(2), Sixteen(3)} && (forall id | id in s.origin :: id == FIRST_ID || id == SECOND_ID)
    && s.server.sessions.Keys == {SECOND_ID} && s.server.sessions[SECOND_ID].clientId == Name()
    && s.clients[0].session == Some(Agreed(SECOND_ID, s.server.sessions[SECOND_ID].key))
    && s.clients[0].ticket == s.server.sessions[SECOND_ID].ticket != []
  }

  // The shape of the run: a first handshake, a second HELLO at once, and its ACK after an hour and a
  // second.
  predicate Story(steps: seq<Step>, addr: Addr) {
    && |steps| == 9
    && steps[0] == NewClient(0, Name()) && steps[1] == Open(0, Sixteen(1), 0.0)
    && steps[2].ServerGets? && steps[2] == ServerGets(steps[2].data, addr, 0.0, Random(Sixteen(2), FIRST_ID))
    && steps[3].ClientGets? && steps[3] == ClientGets(0, steps[3].data, 0.0)
    && steps[4].ServerGets? && steps[4] == ServerGets(steps[4].data, addr, 0.0, Random(Sixteen(3), SECOND_ID))
    && steps[5].ClientGets? && steps[5] == ClientGets(0, steps[5].data, 0.0)
    && steps[6] == Open(0, Sixteen(4), 0.0)
    && steps[7].ServerGets? && steps[7] == ServerGets(steps[7].data, addr, 0.0, Random(Sixteen(5), SPARE_ID))
    && steps[8].ClientGets? && steps[8] == ClientGets(0, steps[8].data, 3601.0)
  }

  // ---------- the run ----------

  lemma NoSteps(w: World)
    ensures Run(w, []) == INITIAL
  {
    hide Apply;
  }

  // The client's connect, in the initial state.
  lemma Opened(w: World) returns (steps: seq<Step>)
    requires Connect(w, Client(Name(), None, None, []), Sixteen(1), 0.0).1.Ok?
    ensures steps == [NewClient(0, Name())] + [Open(0, Sixteen(1), 0.0)]
    ensures var s := Run(w, steps);
            var (c, hello) := Connect(w, Client(Name(), None, None, []), Sixteen(1), 0.0);
            && s == INITIAL.(clients := map[0 := c], toServer := s.toServer) && hello.value in s.toServer
  {
    hide Apply, Run, Connect, Name, Sixteen;
    NoSteps(w);
    steps := [NewClient(0, Name())];
    OneMore(w, [], steps[0]);
    assert [] + steps == steps;
    FirstClient(w);
    OneMore(w, steps, Open(0, Sixteen(1), 0.0));
    OpenHop(w, Run(w, steps), 0, Sixteen(1), 0.0);
    steps := steps + [Open(0, Sixteen(1), 0.0)];
  }

  // The first handshake's messages and the states they leave, at time zero.
  datatype Messages = Messages(
    hello: Bytes, challenge: Bytes, prove: Bytes, ack: Bytes, asked: Client, proved: Client, settled: Client, pending: Server, server: Server)

  predicate Exchange(w: World, m: Messages, addr: Addr) {
    && Connect(w, Client(Name(), None, None, []), Sixteen(1), 0.0) == (m.asked, Ok(m.hello))
    && Receive(w, NEW_SERVER, m.hello, addr, 0.0, 0.0, Random(Sixteen(2), FIRST_ID)) == (m.pending, Some(m.challenge))
    && ClientReceive(w, m.asked, m.challenge, 0.0) == (m.proved, Some(m.prove))
    && Receive(w, m.pending, m.prove, addr, 0.0, 0.0, Random(Sixteen(3), SECOND_ID)) == (m.server, Some(m.ack))
    && ClientReceive(w, m.proved, m.ack, 0.0) == (m.settled, None)
  }

  lemma FirstExchange(w: World, addr: Addr) returns (m: Messages)
    requires SoundWorld(w) && Hour(w)
    ensures Exchange(w, m, addr)
    ensures m.settled.session.Some? && SECOND_ID in m.server.sessions
    ensures m.server.sessions == map[][SECOND_ID := m.server.sessions[SECOND_ID]] && m.server.sessions[SECOND_ID].clientId == Name()
    ensures m.settled.clientId == Name() && m.settled.session == Some(Agreed(SECOND_ID, m.server.sessions[SECOND_ID].key))
    ensures m.settled.ticket == m.server.sessions[SECOND_ID].ticket != []
    ensures RestoresUntil(w, m.settled.ticket, Name(), m.settled.session.value, 3600)
  {
    hide Connect, Receive, ClientReceive, RestoresUntil, InStep, Identity, Trunc, Name, Sixteen, Fits, Sound, SoundHash;
    SizesFit(w);
    var c := Client(Name(), None, None, []);
    var r1, r2 := Random(Sixteen(2), FIRST_ID), Random(Sixteen(3), SECOND_ID);
    FullHandshake(w, NEW_SERVER, c, addr, Sixteen(1), r1, r2, 0.0, 0.0, Clocks(0.0, 0.0, 0.0, 0.0, 0.0), []);
    var (asked, hello) := Connect(w, c, Sixteen(1), 0.0);
    var (pending, challenge) := Receive(w, NEW_SERVER, hello.value, addr, 0.0, 0.0, r1);
    var (proved, prove) := ClientReceive(w, asked, challenge.value, 0.0);
    var (server, ack) := Receive(w, pending, prove.value, addr, 0.0, 0.0, r2);
    var (settled, none) := ClientReceive(w, proved, ack.value, 0.0);
    m := Messages(hello.value, challenge.value, prove.value, ack.value, asked, proved, settled, pending, server);
  }

  // Those messages, in the system.
  lemma Rounds(w: World, s: System, m: Messages, addr: Addr)
    requires SoundWorld(w) && Exchange(w, m, addr) && m.hello in s.toServer
    requires s == INITIAL.(clients := map[0 := m.asked], toServer := s.toServer)
    ensures var s1 := Apply(w, Apply(w, s, ServerGets(m.hello, addr, 0.0, Random(Sixteen(2), FIRST_ID))), ClientGets(0, m.challenge, 0.0));
            var s2 := Apply(w, Apply(w, s1, ServerGets(m.prove, addr, 0.0, Random(Sixteen(3), SECOND_ID))), ClientGets(0, m.ack, 0.0));
            && s2.server == m.server && s2.now == 0.0 && s2.clients == map[0 := m.settled]
            && s2.drawn == {Sixteen(2), Sixteen(3)} && forall id | id in s2.origin :: id == FIRST_ID || id == SECOND_ID
  {
    hide Apply, Connect, Receive, ClientReceive, FreshRandom, Name, Sixteen, Sound, SoundHash;
    var r1, r2 := Random(Sixteen(2), FIRST_ID), Random(Sixteen(3), SECOND_ID);
    FreshNow(s, r1);
    RoundTrip(w, s, 0, m.hello, addr, 0.0, r1, 0.0);
    var s1 := Apply(w, Apply(w, s, ServerGets(m.hello, addr, 0.0, r1)), ClientGets(0, m.challenge, 0.0));
    Distinct(2, 3);
    FreshNow(s1, r2);
    RoundTrip(w, s1, 0, m.prove, addr, 0.0, r2, 0.0);
  }

  lemma Distinct(a: byte, b: byte)
    ensures Sixteen(a) == Sixteen(b) <==> a == b
  {
    assert Sixteen(a)[0] == a && Sixteen(b)[0] == b;
  }

  lemma FreshNow(s: System, r: Random)
    requires r.nonce !in s.drawn && |r.nonce| == NONCE_BYTES && r.sessionId !in s.origin && FIRST_ID <= r.sessionId <= SPARE_ID
    ensures FreshRandom(s, r)
  {
    FieldWidths();
  }

  lemma FirstHandshake(w: World, addr: Addr) returns (steps: seq<Step>, m: Messages)
    requires SoundWorld(w) && Hour(w)
    ensures steps == [NewClient(0, Name())] + [Open(0, Sixteen(1), 0.0)]
                     + [ServerGets(m.hello, addr, 0.0, Random(Sixteen(2), FIRST_ID))] + [ClientGets(0, m.challenge, 0.0)]
                     + [ServerGets(m.prove, addr, 0.0, Random(Sixteen(3), SECOND_ID))] + [ClientGets(0, m.ack, 0.0)]
    ensures Established(w, Run(w, steps), addr)
    ensures RestoresUntil(w, Run(w, steps).clients[0].ticket, Name(), Run(w, steps).clients[0].session.value, 3600)
  {
    hide Apply, Run, Connect, Receive, ClientReceive, RestoresUntil, Name, Sixteen, Sound, SoundHash;
    var r1, r2 := Random(Sixteen(2), FIRST_ID), Random(Sixteen(3), SECOND_ID);
    m := FirstExchange(w, addr);
    steps := Opened(w);
    Rounds(w, Run(w, steps), m, addr);
    TwoMore(w, steps, ServerGets(m.hello, addr, 0.0, r1), ClientGets(0, m.challenge, 0.0));
    steps := steps + [ServerGets(m.hello, addr, 0.0, r1)] + [ClientGets(0, m.challenge, 0.0)];
    TwoMore(w, steps, ServerGets(m.prove, addr, 0.0, r2), ClientGets(0, m.ack, 0.0));
    steps := steps + [ServerGets(m.prove, addr, 0.0, r2)] + [ClientGets(0, m.ack, 0.0)];
    assert m.server.sessions.Keys == {SECOND_ID};
  }

  lemma SizesFit(w: World)
    requires Hour(w)
    ensures Identity(Name(), Sixteen(1)) && InStep(w, Clocks(0.0, 0.0, 0.0, 0.0, 0.0))
    ensures Identity(Name(), Sixteen(4)) && InStep(w, Clocks(0.0, 0.0, 0.0, 0.0, 3601.0))
    ensures Fits(FIRST_ID, 8) && Fits(SECOND_ID, 8) && Fits(SPARE_ID, 8)
    ensures Trunc(0.0 + w.resumptionTtl) == 3600 && Trunc(3601.0) == 3601
  {
    FieldWidths();
  }

  lemma FirstClient(w: World)
    ensures Apply(w, INITIAL, NewClient(0, Name())) == INITIAL.(clients := map[0 := Client(Name(), None, None, [])])
  {
  }

  // The client holds the server's session with a key that is not the server's.
  predicate Disagree(s: System) {
    && 0 in s.clients && s.clients[0].session.Some? && s.clients[0].session.value.id == SECOND_ID
    && SECOND_ID in s.server.sessions && s.clients[0].session.value.key != s.server.sessions[SECOND_ID].key
  }

  // The ticket that the established client holds, and the nonces of its session.
  lemma HeldTicket(w: World, s: System, addr: Addr) returns (p: TicketPayload)
    requires SoundWorld(w) && Inv(w, s) && Established(w, s, addr)
    requires RestoresUntil(w, s.clients[0].ticket, Name(), s.clients[0].session.value, 3600)
    ensures Seals(w, s.origin, p, s.clients[0].ticket) && p.sessionId == SECOND_ID && p.clientId == Name() && 0 <= p.expiresAt
    ensures var o := s.origin[SECOND_ID];
            |o.cnonce| == NONCE_BYTES && |o.snonce| == NONCE_BYTES && (o.snonce == Sixteen(2) || o.snonce == Sixteen(3))
  {
    hide FromClient, FromServer, ClientOk, PendingOk, Unspent, Apart, RestoreTicket, Seals, KeyOf, RestoresUntil, Name, Sound, SoundHash;
    assert SessionOk(w, s.server, s.origin, SECOND_ID);
    assert OriginOk(s.challenges, s.origin, SECOND_ID);
    assert ChallengeOk(s.challenges, s.drawn, s.origin[SECOND_ID].snonce);
    var ticket := s.clients[0].ticket;
    p :| p.sessionId == SECOND_ID && Seals(w, s.origin, p, ticket);
    SealedOwner(w, s.origin, p, ticket);
    TicketAt(w, ticket, Name(), s.clients[0].session.value, 3600, 0.0);
    TicketRestores(w, s.origin, p, ticket, Name(), 0.0);
  }

  lemma SealedOwner(w: World, origin: map<int, Origin>, p: TicketPayload, ticket: Bytes)
    requires Seals(w, origin, p, ticket)
    ensures p.sessionId in origin && p.clientId == origin[p.sessionId].clientId
  {
  }

  // The second HELLO, the ACK that it gets, and the client an hour and a second later.
  lemma SecondExchange(w: World, s: System, addr: Addr) returns (asked: Client, hello: Bytes, server: Server, ack: Bytes, late: Client)
    requires SoundWorld(w) && DistinctKeys(w) && Hour(w) && Inv(w, s) && Established(w, s, addr)
    requires RestoresUntil(w, s.clients[0].ticket, Name(), s.clients[0].session.value, 3600)
    ensures Connect(w, s.clients[0], Sixteen(4), 0.0) == (asked, Ok(hello))
    ensures Receive(w, s.server, hello, addr, 0.0, 0.0, Random(Sixteen(5), SPARE_ID)) == (server, Some(ack))
    ensures ClientReceive(w, asked, ack, 3601.0).0 == late
    ensures late.session.Some? && late.session.value.id == SECOND_ID && SECOND_ID in server.sessions
    ensures late.session.value.key != server.sessions[SECOND_ID].key
  {
    var p := HeldTicket(w, s, addr);
    hide Connect, Receive, ClientReceive, RestoresUntil, InStep, Inv, Seals, DistinctKeys, Identity, Trunc, Fits, Name, Sixteen, Sound, SoundHash;
    var c, r := s.clients[0], Random(Sixteen(5), SPARE_ID);
    SizesFit(w);
    Distinct(5, 2);
    Distinct(5, 3);
    assert |s.server.sessions| == |s.server.sessions.Keys| == 1;
    ResumedHandshake(w, s.server, c, s.origin, p, addr, Sixteen(4), r, 0.0, Clocks(0.0, 0.0, 0.0, 0.0, 3601.0));
    var hi, answer;
    asked, hi := Connect(w, c, Sixteen(4), 0.0).0, Connect(w, c, Sixteen(4), 0.0).1;
    hello := hi.value;
    server, answer := Receive(w, s.server, hello, addr, 0.0, 0.0, r).0, Receive(w, s.server, hello, addr, 0.0, 0.0, r).1;
    ack := answer.value;
    late := ClientReceive(w, asked, ack, 3601.0).0;
  }

  lemma LateRound(w: World, s: System, addr: Addr) returns (hello: Bytes, ack: Bytes)
    requires SoundWorld(w) && DistinctKeys(w) && Hour(w) && Inv(w, s) && Established(w, s, addr)
    requires RestoresUntil(w, s.clients[0].ticket, Name(), s.clients[0].session.value, 3600)
    ensures Disagree(Apply(w, Apply(w, Apply(w, s, Open(0, Sixteen(4), 0.0)),
                                    ServerGets(hello, addr, 0.0, Random(Sixteen(5), SPARE_ID))), ClientGets(0, ack, 3601.0)))
  {
    hide Apply, Connect, Receive, ClientReceive, RestoresUntil, FreshRandom, Inv, DistinctKeys, Name, Sixteen, Sound, SoundHash;
    var asked, server, late;
    asked, hello, server, ack, late := SecondExchange(w, s, addr);
    var r := Random(Sixteen(5), SPARE_ID);
    OpenHop(w, s, 0, Sixteen(4), 0.0);
    var s1 := Apply(w, s, Open(0, Sixteen(4), 0.0));
    Distinct(5, 2);
    Distinct(5, 3);
    FreshNow(s1, r);
    RoundTrip(w, s1, 0, hello, addr, 0.0, r, 3601.0);
  }

  // A concrete case of disagreement, reached from the initial state.
  lemma LateAckExample(w: World, addr: Addr) returns (steps: seq<Step>)
    requires SoundWorld(w) && DistinctKeys(w) && Hour(w)
    ensures Story(steps, addr) && Disagree(Run(w, steps))
  {
    hide Apply, Run, RestoresUntil, Established, Disagree, DistinctKeys, Inv, Name, Sound, SoundHash;
    var first, m := FirstHandshake(w, addr);
    Reachable(w, first);
    var again, late := LateRound(w, Run(w, first), addr);
    OneMore(w, first, Open(0, Sixteen(4), 0.0));
    steps := first + [Open(0, Sixteen(4), 0.0)];
    TwoMore(w, steps, ServerGets(again, addr, 0.0, Random(Sixteen(5), SPARE_ID)), ClientGets(0, late, 3601.0));
    steps := steps + [ServerGets(again, addr, 0.0, Random(Sixteen(5), SPARE_ID))] + [ClientGets(0, late, 3601.0)];
  }
}
