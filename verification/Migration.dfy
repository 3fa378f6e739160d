// How a session's address moves, over every run of the handshake system.
module Migration {
  import opened Common
  import opened Codec
  import opened Primitives
  import opened Security
  import opened Handshake
  import opened HandshakeSystem
  import opened HandshakeSafety
  import opened ServerLaws
  import opened SessionLife

  predicate HasEntry(s: System, id: int, addr: Addr, e: PathEntry) {
    id in s.server.sessions && addr in s.server.sessions[id].paths && s.server.sessions[id].paths[addr] == e
  }

  // This step challenges the address for the session: there was no live challenge for it, now there
  // is one, and the challenge is on its way.
  predicate Challenges(w: World, s: System, s': System, step: Step, id: int, addr: Addr, token: Bytes) {
    && step.ServerGets? && step.addr == addr && step.random.nonce == token && token != []
    && id in s.server.sessions && !Live(s.server.sessions[id], addr, s.now)
    && HasEntry(s', id, addr, PathEntry(token, s.now + w.pathTtl))
    && Packet(MSG_PATH_CHALLENGE, id, token).Ok? && Packet(MSG_PATH_CHALLENGE, id, token).value in s'.toClient
  }

  predicate ChallengedAt(w: World, steps: seq<Step>, k: nat, id: int, addr: Addr, token: Bytes)
    requires k < |steps|
  {
    Challenges(w, Run(w, steps[..k]), Run(w, steps[..k + 1]), steps[k], id, addr, token)
  }

  // A path response from `addr` that carries the token, after which the session is there and the
  // challenge is gone.
  predicate Answers(s': System, step: Step, id: int, addr: Addr, token: Bytes) {
    && step.ServerGets? && step.addr == addr
    && ServerSplit(step.data).Ok? && ServerSplit(step.data).value.header.msgType == MSG_PATH_RESPONSE
    && ServerSplit(step.data).value.header.sessionId == id && ServerSplit(step.data).value.body == token
    && id in s'.server.sessions && s'.server.sessions[id].addr == addr && addr !in s'.server.sessions[id].paths
  }

  // ---------- one datagram ----------

  // What a datagram can do to one session's address and challenges.
  ghost predicate Moves(w: World, s: System, s': System, step: Step, id: int) {
    && (forall a, e | HasEntry(s', id, a, e) ::
          HasEntry(s, id, a, e) || (Challenges(w, s, s', step, id, a, e.token) && e.expiresAt == s.now + w.pathTtl))
    && (forall a, e | HasEntry(s, id, a, e) && s.now <= e.expiresAt && e.token != [] ::
          HasEntry(s', id, a, e) || id !in s'.server.sessions || Answers(s', step, id, a, e.token))
    && (id in s.server.sessions && id in s'.server.sessions ==>
          var a := s.server.sessions[id];
          s'.server.sessions[id].addr == if Relocates(w, s, step, id) then step.addr else a.addr)
  }

  // The three datagrams that make their sender's address the session's.
  predicate Relocates(w: World, s: System, step: Step, id: int)
    requires id in s.server.sessions
  {
    && Arrives(s, step)
    && var a := s.server.sessions[id];
       || Restoring(w, s.server, step.data, step.wall, id)
       || Answering(a, step.data, step.addr, s.now, id)
       || Carrying(a, step.data, step.addr, s.now, id)
  }

  lemma ArrivalMoves(w: World, s: System, s': System, step: Step, id: int)
    requires Arrives(s, step) && step.random.sessionId !in s.server.sessions
    requires ServerLaw(w, s.server, s'.server, step.data, step.addr, s.now, step.wall, step.random, id)
    requires id in s.server.sessions && Asking(s.server.sessions[id], step.data, step.addr, s.now, id) ==>
               Challenges(w, s, s', step, id, step.addr, step.random.nonce)
    ensures Moves(w, s, s', step, id)
  {
    hide ReachesServer, Restoring, Redeeming, Carrying, Ending, ServerSplit, VerifyHello, RestoreTicket, Challenges, DeriveSessionKey,
         SessionTicket;
  }

  // A challenge that the datagram asks for is recorded and on its way.
  lemma AskedChallenge(w: World, s: System, s': System, step: Step, id: int)
    requires Arrives(s, step) && id in s.server.sessions && Asking(s.server.sessions[id], step.data, step.addr, s.now, id)
    requires Fits(id, 8) && |step.random.nonce| == NONCE_BYTES && step.random.sessionId !in s.server.sessions
    requires ServerLaw(w, s.server, s'.server, step.data, step.addr, s.now, step.wall, step.random, id)
    requires exists reply :: ReplyLaw(s.server, step.data, step.addr, s.now, step.random.nonce, reply) && s'.toClient == Add(s.toClient, reply)
    ensures Challenges(w, s, s', step, id, step.addr, step.random.nonce)
  {
    hide ReachesServer, Restored, Redeeming, VerifyHello, RestoreTicket, DeriveSessionKey, SessionTicket, Packet, ServerSplit;
    TokenFits(id, step.random.nonce);
    assert id in s'.server.sessions;
  }

  lemma TokenFits(id: int, token: Bytes)
    requires Fits(id, 8) && |token| == NONCE_BYTES
    ensures Packet(MSG_PATH_CHALLENGE, id, token).Ok?
  {
    FieldWidths();
  }

  lemma SessionIds(w: World, s: System, id: int)
    requires Inv(w, s) && id in s.server.sessions
    ensures id in s.origin && Fits(id, 8)
  {
    hide Fits, KeyOf, TicketFor, FromClient, FromServer, ClientOk;
    assert SessionOk(w, s.server, s.origin, id) && OriginOk(s.challenges, s.origin, id);
  }

  lemma RepliesTravel(w: World, s: System, step: Step)
    requires Arrives(s, step)
    ensures |step.random.nonce| == NONCE_BYTES
    ensures Apply(w, s, step).toClient == Add(s.toClient, Receive(w, s.server, step.data, step.addr, s.now, step.wall, step.random).1)
  {
    hide Receive, Stored, Created;
  }

  lemma EveryStepMoves(w: World, s: System, step: Step, id: int)
    requires Inv(w, s)
    ensures Moves(w, s, Apply(w, s, step), step, id)
  {
    hide Inv, Apply, Receive, Cleanup, Moves, ServerLaw, EntryLaw, ReplyLaw, Asking, Challenges, ReachesServer;
    ServerAfter(w, s, step);
    var s' := Apply(w, s, step);
    if Arrives(s, step) {
      FreshId(w, s, step);
      RepliesTravel(w, s, step);
      if id in s.server.sessions {
        SessionIds(w, s, id);
      }
      DatagramLaw(w, s.server, step.data, step.addr, s.now, step.wall, step.random, id, PendingKey(step.addr, [], []));
      if id in s.server.sessions && Asking(s.server.sessions[id], step.data, step.addr, s.now, id) {
        AskedChallenge(w, s, s', step, id);
      }
      ArrivalMoves(w, s, s', step, id);
    } else {
      QuietMoves(w, s, s', step, id);
    }
  }

  lemma QuietMoves(w: World, s: System, s': System, step: Step, id: int)
    requires !Arrives(s, step) && s'.server == if step.CleanupPass? then Cleanup(s.server, s.now) else s.server
    ensures Moves(w, s, s', step, id)
  {
    hide Challenges, Answers;
  }

  // ---------- over whole runs ----------

  // Every address check on record was issued at some step, with its expiry counted from there.
  lemma {:induction false} EntryWasChallenged(w: World, steps: seq<Step>, id: int, addr: Addr, e: PathEntry)
    requires SoundWorld(w) && HasEntry(Run(w, steps), id, addr, e)
    ensures exists k | 0 <= k < |steps| ::
              ChallengedAt(w, steps, k, id, addr, e.token) && e.expiresAt == Run(w, steps[..k]).now + w.pathTtl
  {
    hide Inv, Apply, Run, Challenges, ChallengedAt, HasEntry, Resumes, Sound, SoundHash;
    if steps == [] {
      NothingAtStart(w, id, addr, e);
    } else {
      var last := |steps| - 1;
      var before := steps[..last];
      LastStep(w, steps);
      Reachable(w, before);
      EveryStepMoves(w, Run(w, before), steps[last], id);
      if HasEntry(Run(w, before), id, addr, e) {
        EntryWasChallenged(w, before, id, addr, e);
        var k: nat :| k < last && ChallengedAt(w, before, k, id, addr, e.token) && e.expiresAt == Run(w, before[..k]).now + w.pathTtl;
        assert before[..k] == steps[..k];
        ChallengedEarlier(w, steps, last, k, id, addr, e.token);
        assert ChallengedAt(w, steps, k, id, addr, e.token);
      } else {
        ChallengedLast(w, steps, id, addr, e.token);
        assert ChallengedAt(w, steps, last, id, addr, e.token);
      }
    }
  }

  lemma NothingAtStart(w: World, id: int, addr: Addr, e: PathEntry)
    ensures !HasEntry(Run(w, []), id, addr, e)
  {
  }

  lemma ChallengedLast(w: World, steps: seq<Step>, id: int, addr: Addr, token: Bytes)
    requires steps != []
    ensures var last := |steps| - 1;
            ChallengedAt(w, steps, last, id, addr, token)
            == Challenges(w, Run(w, steps[..last]), Run(w, steps), steps[last], id, addr, token)
  {
    hide Challenges, Run;
    assert steps[..|steps| - 1 + 1] == steps;
  }

  // The last step moved a session that was there before and is there after.
  predicate Moved(w: World, steps: seq<Step>, id: int)
    requires steps != []
  {
    var before := Run(w, steps[..|steps| - 1]).server;
    var after := Run(w, steps).server;
    id in before.sessions && id in after.sessions && before.sessions[id].addr != after.sessions[id].addr
  }

  // A live session moves only to the sender of the datagram, and only if that datagram is a HELLO with a
  // ticket for the session, or the address was challenged for the session at most the validation time
  // earlier, and the datagram sends back that challenge's token or is traffic of the session.
  lemma MigrationHistory(w: World, steps: seq<Step>, id: int)
    requires SoundWorld(w) && steps != [] && Moved(w, steps, id)
    ensures var last := steps[|steps| - 1];
            var s := Run(w, steps[..|steps| - 1]);
            && last.ServerGets? && last.addr == Run(w, steps).server.sessions[id].addr
            && (|| Resumes(w, s, last, id)
                || exists k, token | 0 <= k < |steps| - 1 ::
                     && ChallengedAt(w, steps, k, id, last.addr, token) && s.now - Run(w, steps[..k]).now <= w.pathTtl
                     && HasEntry(s, id, last.addr, PathEntry(token, Run(w, steps[..k]).now + w.pathTtl))
                     && (|| Answering(s.server.sessions[id], last.data, last.addr, s.now, id)
                         || Carrying(s.server.sessions[id], last.data, last.addr, s.now, id)))
  {
    hide Inv, Apply, Run, Challenges, Restoring, ChallengedAt, Sound, SoundHash, InSession, IsKind, Naming, ServerSplit;
    var last := |steps| - 1;
    var before := steps[..last];
    var s := Run(w, before);
    LastStep(w, steps);
    Reachable(w, before);
    EveryStepMoves(w, s, steps[last], id);
    var addr := steps[last].addr;
    if !Resumes(w, s, steps[last], id) {
      var e := s.server.sessions[id].paths[addr];
      assert HasEntry(s, id, addr, e);
      EntryWasChallenged(w, before, id, addr, e);
      var k: nat :| k < last && ChallengedAt(w, before, k, id, addr, e.token) && e.expiresAt == Run(w, before[..k]).now + w.pathTtl;
      assert before[..k] == steps[..k];
      ChallengedEarlier(w, steps, last, k, id, addr, e.token);
      assert ChallengedAt(w, steps, k, id, addr, e.token);
    }
  }

  lemma ChallengedEarlier(w: World, steps: seq<Step>, n: nat, k: nat, id: int, addr: Addr, token: Bytes)
    requires k < n <= |steps|
    ensures ChallengedAt(w, steps[..n], k, id, addr, token) == ChallengedAt(w, steps, k, id, addr, token)
  {
    hide Challenges, Run;
    assert steps[..n][..k] == steps[..k] && steps[..n][..k + 1] == steps[..k + 1] && steps[..n][k] == steps[k];
  }

  // At step `j` the address answered its challenge, or the session went.
  predicate Cleared(w: World, steps: seq<Step>, j: nat, id: int, addr: Addr, token: Bytes)
    requires j < |steps|
  {
    id !in Run(w, steps[..j + 1]).server.sessions || Answers(Run(w, steps[..j + 1]), steps[j], id, addr, token)
  }

  // From the challenge on, its record stays until it expires or is cleared.
  lemma {:induction false} ChallengeStays(w: World, steps: seq<Step>, k: nat, m: nat, id: int, addr: Addr, token: Bytes)
    requires SoundWorld(w) && k < m <= |steps| && ChallengedAt(w, steps, k, id, addr, token)
    ensures var expiry := Run(w, steps[..k]).now + w.pathTtl;
            || HasEntry(Run(w, steps[..m]), id, addr, PathEntry(token, expiry))
            || expiry < Run(w, steps[..m]).now
            || exists j | k < j < m :: Cleared(w, steps, j, id, addr, token)
    decreases m
  {
    hide Inv, Apply, Run, Challenges, Cleared, HasEntry, Answers, Resumes, Sound, SoundHash;
    var e := PathEntry(token, Run(w, steps[..k]).now + w.pathTtl);
    ChallengeRecorded(w, steps, k, id, addr, token);
    if m > k + 1 {
      ChallengeStays(w, steps, k, m - 1, id, addr, token);
      var s := Run(w, steps[..m - 1]);
      LastStep(w, steps[..m]);
      assert steps[..m][..m - 1] == steps[..m - 1];
      ClockStep(w, s, steps[m - 1]);
      if HasEntry(s, id, addr, e) && s.now <= e.expiresAt {
        Reachable(w, steps[..m - 1]);
        EveryStepMoves(w, s, steps[m - 1], id);
        ClearedThen(w, steps, m - 1, id, addr, token);
        assert HasEntry(Run(w, steps[..m]), id, addr, e) || Cleared(w, steps, m - 1, id, addr, token);
      }
    }
  }

  lemma ChallengeRecorded(w: World, steps: seq<Step>, k: nat, id: int, addr: Addr, token: Bytes)
    requires k < |steps| && ChallengedAt(w, steps, k, id, addr, token)
    ensures token != [] && HasEntry(Run(w, steps[..k + 1]), id, addr, PathEntry(token, Run(w, steps[..k]).now + w.pathTtl))
  {
    hide Run, Packet;
  }

  lemma ClearedThen(w: World, steps: seq<Step>, j: nat, id: int, addr: Addr, token: Bytes)
    requires j < |steps|
    ensures var after := Run(w, steps[..j + 1]);
            Cleared(w, steps, j, id, addr, token) == (id !in after.server.sessions || Answers(after, steps[j], id, addr, token))
  {
    hide Run, Answers;
  }

  // Two challenges to one address for one session are separated by the first one's expiry, by its
  // answer, or by a moment without the session.
  lemma ChallengesSeparated(w: World, steps: seq<Step>, k: nat, n: nat, id: int, addr: Addr, first: Bytes, second: Bytes)
    requires SoundWorld(w) && k < n < |steps|
    requires ChallengedAt(w, steps, k, id, addr, first) && ChallengedAt(w, steps, n, id, addr, second)
    ensures || Run(w, steps[..n]).now > Run(w, steps[..k]).now + w.pathTtl
            || exists j | k < j < n :: Cleared(w, steps, j, id, addr, first)
  {
    hide Run, Cleared, Packet, Sound, SoundHash;
    ChallengeStays(w, steps, k, n, id, addr, first);
  }

  // The challenge need not be answered: a second datagram from the new address moves the session, and
  // does so exactly while the challenge and the session are live.
  lemma UnansweredChallengeMoves(w: World, s: Server, id: int, addr: Addr, first: int, second: int, t1: real, t2: real, a: Bytes, b: Bytes)
    requires id in s.sessions && s.sessions[id].addr != addr && !PathValidated(s.sessions[id], addr, t1)
    requires t1 <= s.sessions[id].expiresAt && a != []
    ensures var s1 := HandleTraffic(w, s, first, id, addr, t1, a).0;
            var s2 := HandleTraffic(w, s1, second, id, addr, t2, b).0;
            && id in s1.sessions && s1.sessions[id].addr == s.sessions[id].addr
            && (id in s2.sessions && s2.sessions[id].addr == addr <==>
                t2 <= s.sessions[id].expiresAt && t2 <= t1 + w.pathTtl && second != MSG_CLOSE)
  {
    hide Packet;
  }
}
