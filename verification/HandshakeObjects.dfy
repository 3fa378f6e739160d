// The mutable objects of the handshake: the server's pending and session tables and the client's
// handshake state. Each method is proved to do exactly what the function of the same name in module
// Handshake says of the object's state as a value, View().
module HandshakeObjects {
  import opened Common
  import opened Codec
  import opened Handshake
  import Rpc
  import Security

  // SessionState: the fields that the handshake and the address checks use, in place, and the request
  // tables, which RpcObjects changes in place, as a value.
  class SessionState {
    const id: int
    const clientId: Text
    var addr: Addr
    var key: Bytes
    var expiresAt: real
    var ticket: Bytes
    var paths: map<Addr, PathEntry>
    var closed: bool
    var requests: Rpc.Session

    function View(): Session
      reads this
    {
      Session(clientId, addr, key, expiresAt, ticket, paths, closed)
    }

    constructor (id: int, clientId: Text, addr: Addr, key: Bytes, expiresAt: real)
      ensures this.id == id && View() == Session(clientId, addr, key, expiresAt, [], map[], false) && requests == Rpc.NEW_SESSION
    {
      this.id, this.clientId, this.addr, this.key, this.expiresAt := id, clientId, addr, key, expiresAt;
      ticket, paths, closed, requests := [], map[], false, Rpc.NEW_SESSION;
    }

    // This session's part of one pass of the cleanup loop.
    method Sweep(now: real)
      modifies this
      ensures View() == Swept(old(View()), now) && requests == Rpc.Sweep(old(requests), now)
    {
      requests := Rpc.Sweep(requests, now);
      var addrs := paths.Keys;
      while addrs != {}
        invariant View() == old(View()).(paths := paths) && requests == Rpc.Sweep(old(requests), now)
        invariant addrs <= paths.Keys <= old(paths).Keys
        invariant forall a | a in old(paths) :: if a in addrs || old(paths)[a].expiresAt >= now
                                                then a in paths && paths[a] == old(paths)[a] else a !in paths
        decreases |addrs|
      {
        var a :| a in addrs;
        addrs := addrs - {a};
        if paths[a].expiresAt < now {
          paths := paths - {a};
        }
      }
    }
  }

  // A table of session objects: every id has its own (no object is in it twice), and `model` and
  // `tables` hold their values.
  ghost predicate SessionTable(sessions: map<int, SessionState>, model: map<int, Session>, tables: map<int, Rpc.Session>)
    reads sessions.Values
  {
    && sessions.Keys == model.Keys == tables.Keys
    && forall id | id in sessions ::
         sessions[id].id == id && sessions[id].View() == model[id] && sessions[id].requests == tables[id]
  }

  // Sessions keep their request tables, and a session that was not there starts with empty ones.
  ghost predicate Carried(before: map<int, Rpc.Session>, after: map<int, Rpc.Session>) {
    forall id | id in after :: after[id] == if id in before then before[id] else Rpc.NEW_SESSION
  }

  class FastUDPServer {
    const world: World
    var pending: map<PendingKey, Pending>
    var sessions: map<int, SessionState>
    ghost var model: map<int, Session>
    ghost var tables: map<int, Rpc.Session>

    ghost predicate Valid()
      reads this, sessions.Values
    {
      SessionTable(sessions, model, tables)
    }

    ghost function View(): Server
      reads this
    {
      Server(pending, model)
    }

    constructor (world: World)
      ensures Valid() && View() == NEW_SERVER && this.world == world && fresh(sessions.Values)
    {
      this.world := world;
      pending, sessions := map[], map[];
      model, tables := map[], map[];
    }

    method HandleHello(body: Bytes, addr: Addr, now: real, wall: real, snonce: Bytes) returns (reply: Option<Bytes>)
      requires Valid()
      modifies this, sessions.Values
      ensures Valid() && fresh(sessions.Values - old(sessions.Values)) && Carried(old(tables), tables)
      ensures (View(), reply) == Handshake.HandleHello(world, old(View()), body, addr, now, wall, snonce)
    {
      hide VerifyHello, Handshake.RestoreTicket, ChallengePacket, CookieOf, ChallengeMac, Handshake.Resume, SessionTable, Trunc;
      SameKeys();
      assert |sessions| == |sessions.Keys| && |model| == |model.Keys|;
      if |sessions| >= world.maxClients {
        return None;
      }
      var verified := VerifyHello(world, body, wall);
      if verified.None? {
        return None;
      }
      var m := verified.value;
      if m.ticket != [] {
        var restored := RestoreTicket(world, m.ticket, m.clientId, wall);
        if restored.Some? {
          reply := Resume(m, restored.value, addr, now, wall, snonce);
          return;
        }
      }
      var cookie := CookieOf(world, addr, m.clientId, m.cnonce, m.ts);
      pending := pending[PendingKey(addr, m.clientId, m.cnonce) :=
        Pending(m.clientId, addr, m.cnonce, snonce, cookie, m.ts, now, now + world.pendingTtl)];
      var ts := Trunc(wall);
      reply := Sent(ChallengePacket(
        Challenge(m.clientId, m.cnonce, snonce, cookie, ts, ChallengeMac(world, m.clientId, m.cnonce, snonce, cookie, ts))));
    }

    // A session that is still there is updated in place, under whatever other names it has; one that is
    // not is made anew.
    method Resume(m: Hello, agreed: Agreed, addr: Addr, now: real, wall: real, snonce: Bytes) returns (reply: Option<Bytes>)
      requires Valid()
      modifies this, sessions.Values
      ensures Valid() && fresh(sessions.Values - old(sessions.Values)) && Carried(old(tables), tables)
      ensures agreed.id in old(sessions) ==> sessions == old(sessions)
      ensures (View(), reply) == Handshake.Resume(world, old(View()), m, agreed, addr, now, wall, snonce)
    {
      hide SessionTicket, AckPacket, Valid, Resumed;
      BringBack(m, agreed, addr, now);
      ghost var resumed := model[agreed.id];
      var session := sessions[agreed.id];
      ViewAt(agreed.id);
      var ticket := SessionTicket(world, agreed.id, session.View(), wall);
      if ticket.Err? {
        return None;
      }
      SetTicket(agreed.id, ticket.value);
      assert model == old(model)[agreed.id := resumed.(ticket := ticket.value)];
      reply := Sent(AckPacket(ResumeAck(world, m, agreed.id, snonce, wall, ticket.value)));
    }

    lemma ViewAt(id: int)
      requires Valid() && id in sessions
      ensures id in model && id in tables && sessions[id].View() == model[id] && sessions[id].requests == tables[id]
    {
    }

    method BringBack(m: Hello, agreed: Agreed, addr: Addr, now: real)
      requires Valid()
      modifies this, sessions.Values
      ensures Valid() && fresh(sessions.Values - old(sessions.Values)) && pending == old(pending) && agreed.id in sessions
      ensures agreed.id in old(sessions) ==> sessions == old(sessions)
      ensures model == old(model)[agreed.id := Resumed(world, old(View()), m, agreed, addr, now)]
      ensures Carried(old(tables), tables)
    {
      SameKeys();
      hide Valid;
      if agreed.id !in sessions {
        Create(agreed.id, m.clientId, addr, agreed.key, now + world.sessionTtl);
      } else {
        Renew(agreed.id, addr, agreed.key, now + world.sessionTtl);
      }
    }

    method Create(id: int, clientId: Text, addr: Addr, key: Bytes, expiresAt: real)
      requires Valid()
      modifies this
      ensures Valid() && fresh(sessions.Values - old(sessions.Values)) && pending == old(pending) && id in sessions
      ensures model == old(model)[id := Session(clientId, addr, key, expiresAt, [], map[], false)]
      ensures tables == old(tables)[id := Rpc.NEW_SESSION]
    {
      hide SessionTable;
      var session := new SessionState(id, clientId, addr, key, expiresAt);
      Put(id, session);
    }

    method Renew(id: int, addr: Addr, key: Bytes, expiresAt: real)
      requires Valid() && id in sessions
      modifies this`model, sessions[id]
      ensures Valid() && id in old(model)
      ensures model == old(model)[id := old(model)[id].(addr := addr, key := key, expiresAt := expiresAt, closed := false)]
    {
      var session := sessions[id];
      session.addr, session.key, session.expiresAt, session.closed := addr, key, expiresAt, false;
      model := model[id := model[id].(addr := addr, key := key, expiresAt := expiresAt, closed := false)];
    }

    method MoveTo(id: int, addr: Addr)
      requires Valid() && id in sessions
      modifies this`model, sessions[id]
      ensures Valid() && id in old(model) && model == old(model)[id := old(model)[id].(addr := addr)]
    {
      sessions[id].addr := addr;
      model := model[id := model[id].(addr := addr)];
    }

    method SetTicket(id: int, ticket: Bytes)
      requires Valid() && id in sessions
      modifies this`model, sessions[id]
      ensures Valid() && model == old(model)[id := old(model)[id].(ticket := ticket)]
    {
      sessions[id].ticket := ticket;
      model := model[id := model[id].(ticket := ticket)];
    }

    // sessions[id] = session, for an object that is in no table yet.
    method Put(id: int, session: SessionState)
      requires Valid() && session.id == id
      modifies this
      ensures Valid() && sessions == old(sessions)[id := session] && pending == old(pending)
      ensures model == old(model)[id := session.View()] && tables == old(tables)[id := session.requests]
    {
      sessions, model, tables := sessions[id := session], model[id := session.View()], tables[id := session.requests];
    }

    method HandleProve(body: Bytes, addr: Addr, now: real, wall: real, id: int) returns (reply: Option<Bytes>)
      requires Valid()
      modifies this
      ensures Valid() && fresh(sessions.Values - old(sessions.Values))
      ensures tables == old(tables) || tables == old(tables)[id := Rpc.NEW_SESSION]
      ensures (View(), reply) == Handshake.HandleProve(world, old(View()), body, addr, now, wall, id)
    {
      hide DecodeChallenge, SessionTicket, AckPacket, VerifyProve, Security.DeriveSessionKey, ProveAck, SessionTable;
      var decoded := DecodeChallenge(body);
      if decoded.Err? {
        return None;
      }
      var key := PendingKey(addr, decoded.value.clientId, decoded.value.cnonce);
      if key !in pending {
        return None;
      }
      var p := pending[key];
      if p.expiresAt < now {
        pending := pending - {key};
        return None;
      }
      if !VerifyProve(world, decoded.value, p, wall) {
        return None;
      }
      var session := new SessionState(
        id, p.clientId, addr, Security.DeriveSessionKey(world.hash, world.psk, p.clientId, p.cnonce, p.snonce), now + world.sessionTtl);
      var ticket := SessionTicket(world, id, session.View(), wall);
      if ticket.Err? {
        return None;
      }
      session.ticket := ticket.value;
      Put(id, session);
      pending := pending - {key};
      reply := Sent(AckPacket(ProveAck(world, p, id, wall, ticket.value)));
    }

    method IssuePathChallenge(id: int, addr: Addr, now: real, token: Bytes) returns (reply: Option<Bytes>)
      requires Valid() && id in sessions
      modifies this`model, sessions[id]
      ensures Valid()
      ensures (View(), reply) == Handshake.IssuePathChallenge(world, old(View()), id, addr, now, token)
    {
      hide Packet;
      var session := sessions[id];
      var entry := PathEntry([], 0.0);
      if addr in session.paths {
        entry := session.paths[addr];
      }
      if entry.expiresAt < now || entry.token == [] {
        session.paths := session.paths[addr := PathEntry(token, now + world.pathTtl)];
        model := model[id := session.View()];
        if |token| == NONCE_BYTES {
          return Sent(Packet(MSG_PATH_CHALLENGE, id, token));
        }
      }
      reply := None;
    }

    method HandlePing(id: int, addr: Addr, now: real, token: Bytes) returns (reply: Option<Bytes>)
      requires Valid()
      modifies this`model, sessions.Values
      ensures Valid()
      ensures (View(), reply) == Handshake.HandlePing(world, old(View()), id, addr, now, token)
    {
      hide Handshake.IssuePathChallenge;
      if id !in sessions || sessions[id].addr == addr {
        return None;
      }
      reply := IssuePathChallenge(id, addr, now, token);
    }

    method HandlePathResponse(id: int, body: Bytes, addr: Addr, now: real)
      requires Valid()
      modifies this`model, sessions.Values
      ensures Valid()
      ensures View() == Handshake.HandlePathResponse(old(View()), id, body, addr, now)
    {
      if id !in sessions || |body| != NONCE_BYTES || addr !in sessions[id].paths {
        return;
      }
      var session := sessions[id];
      var entry := session.paths[addr];
      if entry.expiresAt < now || entry.token != body {
        return;
      }
      session.addr := addr;
      session.paths := session.paths - {addr};
      model := model[id := session.View()];
    }

    method HandleTraffic(msgType: int, id: int, addr: Addr, now: real, token: Bytes) returns (reply: Option<Bytes>)
      requires Valid()
      modifies this, sessions.Values
      ensures Valid() && sessions.Values <= old(sessions.Values) && Carried(old(tables), tables)
      ensures (View(), reply) == Handshake.HandleTraffic(world, old(View()), msgType, id, addr, now, token)
    {
      hide Handshake.IssuePathChallenge;
      if id !in sessions {
        return None;
      }
      var session := sessions[id];
      if now > session.expiresAt {
        Pop(id);
        return None;
      }
      if session.addr != addr {
        if !PathValidated(session.View(), addr, now) {
          reply := IssuePathChallenge(id, addr, now, token);
          return;
        }
        MoveTo(id, addr);
      }
      if msgType == MSG_CLOSE {
        Close(id);
        assert model == old(model) - {id};
      } else {
        assert model == old(model)[id := old(model)[id].(addr := addr)];
      }
      reply := None;
    }

    // session.closed = True, and out of the table with it.
    method Close(id: int)
      requires Valid() && id in sessions
      modifies this, sessions[id]
      ensures Valid() && sessions == old(sessions) - {id} && pending == old(pending) && old(sessions[id]).closed
      ensures model == old(model) - {id} && tables == old(tables) - {id}
    {
      sessions[id].closed := true;
      Pop(id);
    }

    // sessions.pop(id, None). Whoever else holds the object keeps it.
    method Pop(id: int)
      requires id in sessions && SessionTable(sessions - {id}, model - {id}, tables - {id})
      modifies this`sessions, this`model, this`tables
      ensures Valid() && sessions == old(sessions) - {id} && pending == old(pending)
      ensures model == old(model) - {id} && tables == old(tables) - {id}
    {
      sessions, model, tables := sessions - {id}, model - {id}, tables - {id};
    }

    method DatagramReceived(data: Bytes, addr: Addr, now: real, wall: real, random: Random) returns (reply: Option<Bytes>)
      requires Valid()
      modifies this, sessions.Values
      ensures Valid() && fresh(sessions.Values - old(sessions.Values))
      ensures (View(), reply) == Receive(world, old(View()), data, addr, now, wall, random)
    {
      hide ServerSplit, Handshake.HandleHello, Handshake.HandleProve, Handshake.HandlePing, Handshake.HandlePathResponse,
           Handshake.HandleTraffic;
      var split := ServerSplit(data);
      if split.Err? {
        return None;
      }
      var h := split.value.header;
      if h.msgType == MSG_HELLO {
        reply := HandleHello(split.value.body, addr, now, wall, random.nonce);
      } else if h.msgType == MSG_PROVE {
        reply := HandleProve(split.value.body, addr, now, wall, random.sessionId);
      } else if h.msgType == MSG_PING {
        reply := HandlePing(h.sessionId, addr, now, random.nonce);
      } else if h.msgType == MSG_PATH_RESPONSE {
        HandlePathResponse(h.sessionId, split.value.body, addr, now);
        reply := None;
      } else {
        reply := HandleTraffic(h.msgType, h.sessionId, addr, now, random.nonce);
      }
    }

    // One pass of the cleanup loop, the sessions' request tables included.
    method Cleanup(now: real)
      requires Valid()
      modifies this, sessions.Values
      ensures Valid() && sessions.Values <= old(sessions.Values)
      ensures View() == Handshake.Cleanup(old(View()), now)
      ensures forall id | id in sessions :: id in old(tables) && tables[id] == Rpc.Sweep(old(tables)[id], now)
    {
      DropPending(now);
      DropSessions(now);
    }

    method DropPending(now: real)
      requires Valid()
      modifies this`pending
      ensures Valid() && pending == Handshake.Cleanup(old(View()), now).pending
    {
      var keys := pending.Keys;
      while keys != {}
        invariant keys <= pending.Keys <= old(pending).Keys
        invariant forall k | k in old(pending) :: if k in keys || old(pending)[k].expiresAt >= now
                                                  then k in pending && pending[k] == old(pending)[k] else k !in pending
        decreases |keys|
      {
        var k :| k in keys;
        keys := keys - {k};
        if pending[k].expiresAt < now {
          pending := pending - {k};
        }
      }
    }

    method DropSessions(now: real)
      requires Valid()
      modifies this`sessions, this`model, this`tables, sessions.Values
      ensures Valid() && sessions.Values <= old(sessions.Values)
      ensures model == Handshake.Cleanup(old(View()), now).sessions
      ensures forall id | id in sessions :: id in old(tables) && tables[id] == Rpc.Sweep(old(tables)[id], now)
    {
      SameKeys();
      hide Valid, SessionTable, Swept, Rpc.Sweep, Cleaned;
      NothingCleaned(model, tables, now);
      var ids := sessions.Keys;
      while ids != {}
        invariant Valid() && sessions.Values <= old(sessions.Values) && ids <= sessions.Keys && model.Keys <= old(model).Keys
        invariant AllCleaned(old(model), old(tables), model, tables, ids, now)
        decreases |ids|
      {
        SomeIn(ids);
        var id :| id in ids;
        ghost var m, t := model, tables;
        SameKeys();
        SweepOne(id, now);
        CleanedOne(old(model), old(tables), m, t, model, tables, ids, id, now);
        ids := ids - {id};
      }
      SameKeys();
      NoneLeft(old(View()), old(tables), model, tables, now);
    }

    lemma SameKeys()
      requires Valid()
      ensures sessions.Keys == model.Keys == tables.Keys
    {
    }

    // One session's turn in the cleanup loop.
    method SweepOne(id: int, now: real)
      requires Valid() && id in sessions
      modifies this`sessions, this`model, this`tables, sessions[id]
      ensures Valid() && id in old(model) && id in old(tables) && sessions.Values <= old(sessions.Values)
      ensures if old(model)[id].expiresAt < now || old(model)[id].closed then
                sessions == old(sessions) - {id} && model == old(model) - {id} && tables == old(tables) - {id}
              else
                && sessions == old(sessions) && model == old(model)[id := Swept(old(model)[id], now)]
                && tables == old(tables)[id := Rpc.Sweep(old(tables)[id], now)]
    {
      hide Swept, Rpc.Sweep;
      ViewAt(id);
      if sessions[id].expiresAt < now || sessions[id].closed {
        Pop(id);
      } else {
        SweepAt(id, now);
      }
    }

    method SweepAt(id: int, now: real)
      requires Valid() && id in sessions
      modifies this`model, this`tables, sessions[id]
      ensures Valid() && id in old(model) && id in old(tables)
      ensures model == old(model)[id := Swept(old(model)[id], now)] && tables == old(tables)[id := Rpc.Sweep(old(tables)[id], now)]
    {
      hide Swept, Rpc.Sweep, SessionState.View;
      sessions[id].Sweep(now);
      model, tables := model[id := Swept(model[id], now)], tables[id := Rpc.Sweep(tables[id], now)];
    }

    // What the cleanup loop has done about one session, `todo` being those still to come.
    static predicate Cleaned(before: map<int, Session>, tablesBefore: map<int, Rpc.Session>, after: map<int, Session>,
        tablesAfter: map<int, Rpc.Session>, todo: set<int>, id: int, now: real)
    {
      id in before && id in tablesBefore ==>
        if id in todo then
          id in after && after[id] == before[id] && id in tablesAfter && tablesAfter[id] == tablesBefore[id]
        else if before[id].expiresAt < now || before[id].closed then id !in after
        else
          && id in after && after[id] == Swept(before[id], now)
          && id in tablesAfter && tablesAfter[id] == Rpc.Sweep(tablesBefore[id], now)
    }

    static ghost predicate AllCleaned(before: map<int, Session>, tablesBefore: map<int, Rpc.Session>, after: map<int, Session>,
        tablesAfter: map<int, Rpc.Session>, todo: set<int>, now: real)
    {
      forall id {:trigger Cleaned(before, tablesBefore, after, tablesAfter, todo, id, now)} ::
        Cleaned(before, tablesBefore, after, tablesAfter, todo, id, now)
    }

    static lemma NothingCleaned(before: map<int, Session>, tablesBefore: map<int, Rpc.Session>, now: real)
      ensures AllCleaned(before, tablesBefore, before, tablesBefore, before.Keys, now)
    {
    }

    static lemma CleanedOne(before: map<int, Session>, tablesBefore: map<int, Rpc.Session>, m: map<int, Session>, t: map<int, Rpc.Session>,
        after: map<int, Session>, tablesAfter: map<int, Rpc.Session>, todo: set<int>, id: int, now: real)
      requires id in todo && id in m && id in t && m.Keys <= before.Keys == tablesBefore.Keys
      requires AllCleaned(before, tablesBefore, m, t, todo, now)
      requires if m[id].expiresAt < now || m[id].closed then after == m - {id} && tablesAfter == t - {id}
               else after == m[id := Swept(m[id], now)] && tablesAfter == t[id := Rpc.Sweep(t[id], now)]
      ensures AllCleaned(before, tablesBefore, after, tablesAfter, todo - {id}, now)
    {
      hide Swept, Rpc.Sweep;
      assert Cleaned(before, tablesBefore, m, t, todo, id, now);
      forall i ensures Cleaned(before, tablesBefore, after, tablesAfter, todo - {id}, i, now) {
        assert Cleaned(before, tablesBefore, m, t, todo, i, now);
      }
    }

    static lemma NoneLeft(before: Server, tablesBefore: map<int, Rpc.Session>, after: map<int, Session>,
        tablesAfter: map<int, Rpc.Session>, now: real)
      requires before.sessions.Keys == tablesBefore.Keys && after.Keys <= before.sessions.Keys
      requires AllCleaned(before.sessions, tablesBefore, after, tablesAfter, {}, now)
      ensures after == Handshake.Cleanup(before, now).sessions
      ensures forall id | id in after :: id in tablesAfter && tablesAfter[id] == Rpc.Sweep(tablesBefore[id], now)
    {
      hide Swept, Rpc.Sweep;
      var swept := Handshake.Cleanup(before, now).sessions;
      forall id | id in before.sessions
        ensures (id in swept <==> id in after) && (id in swept ==> swept[id] == after[id])
        ensures id in after ==> id in tablesAfter && tablesAfter[id] == Rpc.Sweep(tablesBefore[id], now)
      {
        assert Cleaned(before.sessions, tablesBefore, after, tablesAfter, {}, id, now);
      }
      assert after == swept;
    }
  }

  class FastUDPClient {
    const world: World
    const clientId: Text
    var cnonce: Option<Bytes> // pending_handshake["cnonce"]
    var session: Option<Agreed>
    var ticket: Bytes

    function View(): Client
      reads this
    {
      Client(clientId, cnonce, session, ticket)
    }

    constructor (world: World, clientId: Text)
      ensures View() == Client(clientId, None, None, []) && this.world == world
    {
      this.world, this.clientId := world, clientId;
      cnonce, session, ticket := None, None, [];
    }

    method Connect(nonce: Bytes, wall: real) returns (packet: Result<Bytes>)
      modifies this
      ensures (View(), packet) == Handshake.Connect(world, old(View()), nonce, wall)
    {
      hide HelloPacket;
      var ts := Trunc(wall);
      packet := HelloPacket(Hello(clientId, nonce, ts, ticket, HelloMac(world, clientId, nonce, ts, ticket)));
      if packet.Ok? {
        cnonce := Some(nonce);
      }
    }

    method OnAck(body: Bytes, wall: real)
      modifies this
      ensures View() == Handshake.OnAck(world, old(View()), body, wall)
    {
      hide DecodeAck, RestoreTicket;
      var decoded := DecodeAck(body);
      if decoded.Err? {
        return;
      }
      var m := decoded.value;
      if m.clientId != clientId || Some(m.cnonce) != cnonce {
        return;
      }
      if m.ticket != [] {
        ticket := m.ticket;
        var restored := RestoreTicket(world, m.ticket, clientId, wall);
        if restored.Some? {
          session := restored;
          return;
        }
      }
      session := Some(Agreed(m.sessionId, Security.DeriveSessionKey(world.hash, world.psk, m.clientId, m.cnonce, m.snonce)));
    }

    // What close() sends to the server.
    method SendClose() returns (packet: Option<Bytes>)
      ensures packet == CloseOf(View())
    {
      hide PackHeader;
      if session.None? {
        return None;
      }
      packet := Sent(Packet(MSG_CLOSE, session.value.id, []));
    }

    method OnDatagram(data: Bytes, wall: real) returns (reply: Option<Bytes>)
      modifies this
      ensures (View(), reply) == ClientReceive(world, old(View()), data, wall)
    {
      hide ClientSplit, OnChallenge, Handshake.OnAck, OnPathChallenge;
      var split := ClientSplit(data);
      if split.Err? {
        return None;
      }
      var h := split.value.header;
      if h.msgType == MSG_CHALLENGE {
        return OnChallenge(world, View(), split.value.body, wall);
      }
      if h.msgType == MSG_ACK {
        OnAck(split.value.body, wall);
      } else if h.msgType == MSG_PATH_CHALLENGE {
        return OnPathChallenge(View(), h.sessionId, split.value.body);
      }
      reply := None;
    }
  }
}
