// How long sessions and pending entries last, over every run of the handshake system.
module SessionLife {
  import opened Common
  import opened Codec
  import opened Primitives
  import opened Security
  import opened Handshake
  import opened HandshakeSystem
  import opened HandshakeSafety
  import opened HandshakeTheorems
  import opened ServerLaws

  predicate Arrives(s: System, step: Step) {
    step.ServerGets? && ReachesServer(s, step.data, step.random)
  }

  // ---------- what a step is to a session ----------

  // A HELLO, from wherever, whose ticket restores the session.
  predicate Resumes(w: World, s: System, step: Step, id: int) {
    Arrives(s, step) && Restoring(w, s.server, step.data, step.wall, id)
  }

  // A PROVE that turns a pending entry into the session.
  ghost predicate Creates(w: World, s: System, step: Step, id: int) {
    Arrives(s, step) && id == step.random.sessionId
    && exists k :: Redeeming(w, s.server, step.data, step.addr, s.now, step.wall, id, k)
  }

  // CLOSE from its address or a challenged one, traffic after its expiry, or a cleanup pass after its expiry.
  predicate Ends(s: System, step: Step, id: int) {
    && id in s.server.sessions
    && var session := s.server.sessions[id];
       || (Arrives(s, step) && Ending(session, step.data, step.addr, s.now, id))
       || (step.CleanupPass? && session.expiresAt < s.now)
  }

  // The session is in both tables with the same owner, key, expiry and ticket.
  predicate SameSession(a: Server, b: Server, id: int) {
    && id in a.sessions && id in b.sessions
    && var x, y := a.sessions[id], b.sessions[id];
       x.clientId == y.clientId && x.key == y.key && x.expiresAt == y.expiresAt && x.ticket == y.ticket
  }

  predicate IsOpen(s: System, id: int) {
    id in s.server.sessions ==> !s.server.sessions[id].closed
  }

  // ---------- one step ----------

  lemma ServerAfter(w: World, s: System, step: Step)
    ensures Apply(w, s, step).server
         == if Arrives(s, step) then Receive(w, s.server, step.data, step.addr, s.now, step.wall, step.random).0
            else if step.CleanupPass? then Cleanup(s.server, s.now)
            else s.server
  {
    hide Receive, Cleanup, ReachesServer, ReachesClient, ClientReceive, Connect, Late, Stored, Created, Add;
  }

  lemma FreshId(w: World, s: System, step: Step)
    requires Inv(w, s) && Arrives(s, step)
    ensures step.random.sessionId !in s.server.sessions && step.random.sessionId !in s.origin
  {
    hide PendingOk, Unspent, ChallengeOk, OriginOk, Apart, FromClient, FromServer, ClientOk, KeyOf, TicketFor, HasType;
    assert SessionOk(w, s.server, s.origin, step.random.sessionId);
  }

  ghost predicate SessionStep(w: World, s: System, s': System, step: Step, id: int) {
    && (id in s'.server.sessions <==>
          (id in s.server.sessions && !Ends(s, step, id)) || Resumes(w, s, step, id) || Creates(w, s, step, id))
    && (id in s.server.sessions && id in s'.server.sessions && !Resumes(w, s, step, id) ==> SameSession(s.server, s'.server, id))
    && (Creates(w, s, step, id) ==> id !in s.server.sessions && id !in s.origin)
    && (Resumes(w, s, step, id) ==> s'.server.sessions[id].expiresAt == s.now + w.sessionTtl)
    && IsOpen(s', id)
  }

  // Every step of every end, the network and the clock: when a session enters or leaves the table, and
  // what it keeps.
  lemma EveryStepSessions(w: World, s: System, step: Step, id: int)
    requires Inv(w, s) && IsOpen(s, id)
    ensures SessionStep(w, s, Apply(w, s, step), step, id)
  {
    hide Inv, Apply, Receive, Cleanup, ReachesServer, Restoring, Redeeming, Ending, Answering, Carrying, Asking;
    ServerAfter(w, s, step);
    if Arrives(s, step) {
      FreshId(w, s, step);
      var k := PendingKey(step.addr, [], []);
      DatagramLaw(w, s.server, step.data, step.addr, s.now, step.wall, step.random, id, k);
      ArrivalStep(w, s, Apply(w, s, step), step, id);
    } else if step.CleanupPass? {
      CleanupExact(s.server, s.now, id, PendingKey(Addr([], 0), [], []), Addr([], 0));
    }
  }

  lemma ArrivalStep(w: World, s: System, s': System, step: Step, id: int)
    requires Arrives(s, step) && step.random.sessionId !in s.server.sessions && step.random.sessionId !in s.origin && IsOpen(s, id)
    requires ServerLaw(w, s.server, s'.server, step.data, step.addr, s.now, step.wall, step.random, id)
    ensures SessionStep(w, s, s', step, id)
  {
    hide ReachesServer, Restoring, Redeeming, Ending, Answering, Carrying, Asking, VerifyHello, RestoreTicket, DeriveSessionKey, SessionTicket;
    if Creates(w, s, step, id) {
      var k :| Redeeming(w, s.server, step.data, step.addr, s.now, step.wall, id, k);
      assert Founded(w, s.server, s'.server, step.data, step.addr, s.now, step.wall, id, k);
    }
  }

  // ---------- over whole runs ----------

  predicate ResumedAt(w: World, steps: seq<Step>, j: nat, id: int)
    requires j < |steps|
  {
    Resumes(w, Run(w, steps[..j]), steps[j], id)
  }

  predicate EndedAt(w: World, steps: seq<Step>, j: nat, id: int)
    requires j < |steps|
  {
    Ends(Run(w, steps[..j]), steps[j], id)
  }

  // No step from `k` up to `m` delivers a HELLO whose ticket restores the session.
  predicate Unresumed(w: World, steps: seq<Step>, k: nat, m: nat, id: int)
    requires k <= m <= |steps|
  {
    forall j: nat {:trigger ResumedAt(w, steps, j, id)} :: k <= j < m ==> !ResumedAt(w, steps, j, id)
  }

  predicate Unended(w: World, steps: seq<Step>, k: nat, m: nat, id: int)
    requires k <= m <= |steps|
  {
    forall j: nat {:trigger EndedAt(w, steps, j, id)} :: k <= j < m ==> !EndedAt(w, steps, j, id)
  }

  // No session in the table is ever closed.
  lemma {:induction false} NeverClosed(w: World, steps: seq<Step>, id: int)
    requires SoundWorld(w)
    ensures IsOpen(Run(w, steps), id)
  {
    hide Inv, Apply, Resumes, Creates, Ends, Sound, SoundHash;
    if steps != [] {
      var before := steps[..|steps| - 1];
      NeverClosed(w, before, id);
      Reachable(w, before);
      EveryStepSessions(w, Run(w, before), steps[|steps| - 1], id);
    }
  }

  lemma NextState(w: World, steps: seq<Step>, m: nat)
    requires m < |steps|
    ensures Run(w, steps[..m + 1]) == Apply(w, Run(w, steps[..m]), steps[m])
  {
    hide Run, Apply;
    LastStep(w, steps[..m + 1]);
    assert steps[..m + 1][..m] == steps[..m];
  }

  lemma StepOfRun(w: World, steps: seq<Step>, m: nat, id: int)
    requires SoundWorld(w) && m < |steps|
    ensures Inv(w, Run(w, steps[..m])) && SessionStep(w, Run(w, steps[..m]), Run(w, steps[..m + 1]), steps[m], id)
  {
    hide Inv, Apply, Run, SessionStep, Sound, SoundHash;
    NeverClosed(w, steps[..m], id);
    Reachable(w, steps[..m]);
    NextState(w, steps, m);
    EveryStepSessions(w, Run(w, steps[..m]), steps[m], id);
  }

  // Until its owner resumes it, a session that was ever created is in the table exactly if it was there
  // and no step has ended it since; and it keeps its owner, key, expiry and ticket.
  lemma {:induction false} SessionLifetime(w: World, steps: seq<Step>, k: nat, m: nat, id: int)
    requires SoundWorld(w) && k <= m <= |steps| && id in Run(w, steps[..k]).origin && Unresumed(w, steps, k, m, id)
    ensures id in Run(w, steps[..m]).server.sessions <==> id in Run(w, steps[..k]).server.sessions && Unended(w, steps, k, m, id)
    ensures id in Run(w, steps[..m]).server.sessions ==> SameSession(Run(w, steps[..k]).server, Run(w, steps[..m]).server, id)
    decreases m
  {
    hide Inv, Apply, Run, Resumes, Creates, Ends, Sound, SoundHash;
    if k < m {
      SessionLifetime(w, steps, k, m - 1, id);
      StepOfRun(w, steps, m - 1, id);
      assert !ResumedAt(w, steps, m - 1, id);
      assert EndedAt(w, steps, m - 1, id) == Ends(Run(w, steps[..m - 1]), steps[m - 1], id);
      OriginsStay(w, steps, k, m - 1, id);
    }
  }

  lemma OriginsStay(w: World, steps: seq<Step>, k: nat, m: nat, id: int)
    requires SoundWorld(w) && k <= m <= |steps| && id in Run(w, steps[..k]).origin
    ensures id in Run(w, steps[..m]).origin
  {
    hide Run, Sound, SoundHash;
    RunGrows(w, steps[..m], k);
    assert steps[..m][..k] == steps[..k];
  }

  // Only a HELLO with a ticket for the session brings it back once it has gone.
  lemma BackByTicket(w: World, steps: seq<Step>, k: nat, m: nat, id: int)
    requires SoundWorld(w) && k <= m <= |steps| && id in Run(w, steps[..k]).origin
    requires id !in Run(w, steps[..k]).server.sessions && id in Run(w, steps[..m]).server.sessions
    ensures exists j: nat | k <= j < m :: ResumedAt(w, steps, j, id)
  {
    hide Run, ResumedAt, Sound, SoundHash;
    if Unresumed(w, steps, k, m, id) {
      SessionLifetime(w, steps, k, m, id);
    }
  }

  // Step `j` brings the server a CLOSE for the session, from the session's address or one that it has a
  // live challenge out to.
  predicate ClosedAt(w: World, steps: seq<Step>, j: nat, id: int)
    requires j < |steps|
  {
    var s := Run(w, steps[..j]);
    && id in s.server.sessions && Arrives(s, steps[j]) && InSession(steps[j].data, id) && IsKind(steps[j].data, MSG_CLOSE)
    && (s.server.sessions[id].addr == steps[j].addr || Live(s.server.sessions[id], steps[j].addr, s.now))
  }

  lemma TableOnRecord(w: World, steps: seq<Step>, id: int)
    requires SoundWorld(w) && id in Run(w, steps).server.sessions
    ensures id in Run(w, steps).origin && Fits(id, 8)
  {
    hide Run, Fits, PendingOk, Unspent, ChallengeOk, Apart, FromClient, FromServer, ClientOk, KeyOf, TicketFor, Sound, SoundHash;
    Reachable(w, steps);
    assert SessionOk(w, Run(w, steps).server, Run(w, steps).origin, id);
    assert OriginOk(Run(w, steps).challenges, Run(w, steps).origin, id);
  }

  // A client's CLOSE, once delivered, is final: only a ticket for the session brings it back.
  lemma CloseIsFinal(w: World, steps: seq<Step>, j: nat, m: nat, c: Client, id: int)
    requires SoundWorld(w) && j < m <= |steps| && c.session.Some? && c.session.value.id == id && id in Run(w, steps[..j]).server.sessions
    requires var s := Run(w, steps[..j]);
             && steps[j].ServerGets? && FreshRandom(s, steps[j].random) && CloseOf(c) == Some(steps[j].data)
             && (s.server.sessions[id].addr == steps[j].addr || Live(s.server.sessions[id], steps[j].addr, s.now))
    ensures ClosedAt(w, steps, j, id) && id !in Run(w, steps[..j + 1]).server.sessions
    ensures Unresumed(w, steps, j + 1, m, id) ==> id !in Run(w, steps[..m]).server.sessions
  {
    hide Run, Apply, Inv, ResumedAt, PackHeader, ServerSplit, ClientSplit, FreshRandom, Sound, SoundHash, Resumes, Creates, SessionStep, Live;
    TableOnRecord(w, steps[..j], id);
    FieldWidths();
    PacketDelivered(MSG_CLOSE, id, []);
    StepOfRun(w, steps, j, id);
    ClosingStep(w, Run(w, steps[..j]), Run(w, steps[..j + 1]), steps[j], id);
    OriginsStay(w, steps, j, j + 1, id);
    if Unresumed(w, steps, j + 1, m, id) {
      SessionLifetime(w, steps, j + 1, m, id);
    }
  }

  lemma ClosingStep(w: World, s: System, s': System, step: Step, id: int)
    requires Arrives(s, step) && id in s.server.sessions && InSession(step.data, id) && IsKind(step.data, MSG_CLOSE)
    requires s.server.sessions[id].addr == step.addr || Live(s.server.sessions[id], step.addr, s.now)
    requires SessionStep(w, s, s', step, id)
    ensures id !in s'.server.sessions
  {
    hide ReachesServer, Redeeming, ServerSplit, Live, VerifyHello, RestoreTicket;
  }

  lemma {:induction false} ClockRuns(w: World, steps: seq<Step>, k: nat, m: nat)
    requires k <= m <= |steps|
    ensures Run(w, steps[..k]).now <= Run(w, steps[..m]).now
    decreases m
  {
    hide Apply, Run;
    if k < m {
      ClockRuns(w, steps, k, m - 1);
      NextState(w, steps, m - 1);
      ClockStep(w, Run(w, steps[..m - 1]), steps[m - 1]);
    }
  }

  lemma ClockStep(w: World, s: System, step: Step)
    ensures s.now <= Apply(w, s, step).now
  {
    hide Receive, ClientReceive, Connect, Cleanup, ReachesServer, ReachesClient, Stored, Created, Late, Add;
  }

  // Within its time a session goes only by a CLOSE.
  lemma OnlyCloseInTime(w: World, steps: seq<Step>, k: nat, m: nat, id: int)
    requires SoundWorld(w) && k <= m <= |steps| && Unresumed(w, steps, k, m, id)
    requires id in Run(w, steps[..k]).server.sessions && id !in Run(w, steps[..m]).server.sessions
    requires Run(w, steps[..m]).now <= Run(w, steps[..k]).server.sessions[id].expiresAt
    ensures exists j: nat | k <= j < m :: ClosedAt(w, steps, j, id)
  {
    hide Run, ResumedAt, InSession, IsKind, Arrives, Live, Sound, SoundHash;
    TableOnRecord(w, steps[..k], id);
    SessionLifetime(w, steps, k, m, id);
    var j: nat :| k <= j < m && EndedAt(w, steps, j, id);
    SessionLifetime(w, steps, k, j, id);
    ClockRuns(w, steps, j, m);
    assert ClosedAt(w, steps, j, id);
  }

  // Past its time a session is gone for good after a cleanup pass, unless it is resumed.
  lemma GoneAfterExpiry(w: World, steps: seq<Step>, k: nat, j: nat, m: nat, id: int)
    requires SoundWorld(w) && k <= j < m <= |steps| && Unresumed(w, steps, k, m, id) && id in Run(w, steps[..k]).server.sessions
    requires steps[j].CleanupPass? && Run(w, steps[..k]).server.sessions[id].expiresAt < Run(w, steps[..j]).now
    ensures id !in Run(w, steps[..m]).server.sessions
  {
    hide Run, ResumedAt, Ending, Arrives, Sound, SoundHash;
    TableOnRecord(w, steps[..k], id);
    SessionLifetime(w, steps, k, m, id);
    SessionLifetime(w, steps, k, j, id);
    assert id in Run(w, steps[..j]).server.sessions ==> EndedAt(w, steps, j, id);
  }

  // ---------- pending entries ----------

  predicate Enrols(w: World, s: System, step: Step, key: PendingKey) {
    Arrives(s, step) && Enrolling(w, s.server, step.data, step.wall) && HelloKey(step.data, step.addr) == Some(key)
  }

  predicate Redeems(w: World, s: System, step: Step, key: PendingKey) {
    Arrives(s, step) && Redeeming(w, s.server, step.data, step.addr, s.now, step.wall, step.random.sessionId, key)
  }

  // A PROVE for the entry, or a cleanup pass, after its expiry.
  predicate Expires(s: System, step: Step, key: PendingKey) {
    && key in s.server.pending && s.server.pending[key].expiresAt < s.now
    && (step.CleanupPass? || (Arrives(s, step) && Proving(step.data, step.addr, key)))
  }

  predicate EntryStep(w: World, s: System, s': System, step: Step, key: PendingKey) {
    if Enrols(w, s, step, key) then
      && VerifyHello(w, ServerSplit(step.data).value.body, step.wall).Some?
      && var m := VerifyHello(w, ServerSplit(step.data).value.body, step.wall).value;
         key in s'.server.pending && s'.server.pending[key] == EntryOf(w, m, step.addr, s.now, step.random.nonce)
    else
      && (key in s'.server.pending <==> key in s.server.pending && !Redeems(w, s, step, key) && !Expires(s, step, key))
      && (key in s'.server.pending ==> s'.server.pending[key] == s.server.pending[key])
  }

  lemma EveryStepEntries(w: World, s: System, step: Step, key: PendingKey)
    requires Inv(w, s)
    ensures EntryStep(w, s, Apply(w, s, step), step, key)
  {
    hide Inv, Apply, Receive, Cleanup, ReachesServer, Redeeming, Proving, VerifyHello, RestoreTicket, HelloKey, ServerLaw;
    ServerAfter(w, s, step);
    if Arrives(s, step) {
      FreshId(w, s, step);
      DatagramLaw(w, s.server, step.data, step.addr, s.now, step.wall, step.random, step.random.sessionId, key);
    } else if step.CleanupPass? {
      CleanupExact(s.server, s.now, 0, key, Addr([], 0));
    }
  }

  predicate EnrolledAt(w: World, steps: seq<Step>, j: nat, key: PendingKey)
    requires j < |steps|
  {
    Enrols(w, Run(w, steps[..j]), steps[j], key)
  }

  predicate RedeemedAt(w: World, steps: seq<Step>, j: nat, key: PendingKey)
    requires j < |steps|
  {
    Redeems(w, Run(w, steps[..j]), steps[j], key)
  }

  predicate ExpiredAt(w: World, steps: seq<Step>, j: nat, key: PendingKey)
    requires j < |steps|
  {
    Expires(Run(w, steps[..j]), steps[j], key)
  }

  // No step from `k` up to `m` delivers a HELLO that enrols under this address, identity and nonce.
  predicate NotEnrolled(w: World, steps: seq<Step>, k: nat, m: nat, key: PendingKey)
    requires k <= m <= |steps|
  {
    forall j: nat {:trigger EnrolledAt(w, steps, j, key)} :: k <= j < m ==> !EnrolledAt(w, steps, j, key)
  }

  predicate NotSpent(w: World, steps: seq<Step>, k: nat, m: nat, key: PendingKey)
    requires k <= m <= |steps|
  {
    && (forall j: nat {:trigger RedeemedAt(w, steps, j, key)} :: k <= j < m ==> !RedeemedAt(w, steps, j, key))
    && (forall j: nat {:trigger ExpiredAt(w, steps, j, key)} :: k <= j < m ==> !ExpiredAt(w, steps, j, key))
  }

  lemma EntryStepOfRun(w: World, steps: seq<Step>, m: nat, key: PendingKey)
    requires SoundWorld(w) && m < |steps|
    ensures EntryStep(w, Run(w, steps[..m]), Run(w, steps[..m + 1]), steps[m], key)
  {
    hide Inv, Apply, Run, EntryStep, Sound, SoundHash;
    Reachable(w, steps[..m]);
    NextState(w, steps, m);
    EveryStepEntries(w, Run(w, steps[..m]), steps[m], key);
  }

  // Until another HELLO enrols under its key, an entry is there exactly if it was there and no step has
  // redeemed it or found it expired; and it stays as it is.
  lemma {:induction false} EntryLifetime(w: World, steps: seq<Step>, k: nat, m: nat, key: PendingKey)
    requires SoundWorld(w) && k <= m <= |steps| && NotEnrolled(w, steps, k, m, key)
    ensures key in Run(w, steps[..m]).server.pending <==> key in Run(w, steps[..k]).server.pending && NotSpent(w, steps, k, m, key)
    ensures key in Run(w, steps[..m]).server.pending ==>
              key in Run(w, steps[..k]).server.pending && Run(w, steps[..m]).server.pending[key] == Run(w, steps[..k]).server.pending[key]
    decreases m
  {
    hide Run, Enrols, Redeems, Expires, Sound, SoundHash;
    if k < m {
      EntryLifetime(w, steps, k, m - 1, key);
      EntryStepOfRun(w, steps, m - 1, key);
      var s := Run(w, steps[..m - 1]);
      assert EnrolledAt(w, steps, m - 1, key) == Enrols(w, s, steps[m - 1], key);
      assert RedeemedAt(w, steps, m - 1, key) == Redeems(w, s, steps[m - 1], key);
      assert ExpiredAt(w, steps, m - 1, key) == Expires(s, steps[m - 1], key);
    }
  }

  // From the HELLO that left it, an entry stays until its time is over, another HELLO replaces it, or a
  // PROVE redeems it.
  lemma EntryStays(w: World, steps: seq<Step>, i: nat, m: nat, key: PendingKey)
    requires SoundWorld(w) && i < m <= |steps| && EnrolledAt(w, steps, i, key)
    ensures key in Run(w, steps[..i + 1]).server.pending
    ensures var p := Run(w, steps[..i + 1]).server.pending[key];
            && p.expiresAt == Run(w, steps[..i]).now + w.pendingTtl && p.snonce == steps[i].random.nonce && p.addr == steps[i].addr
            && (|| (key in Run(w, steps[..m]).server.pending && Run(w, steps[..m]).server.pending[key] == p)
                || p.expiresAt < Run(w, steps[..m]).now
                || exists j: nat | i < j < m :: EnrolledAt(w, steps, j, key) || RedeemedAt(w, steps, j, key))
  {
    hide Run, Enrols, Redeems, EnrolledAt, RedeemedAt, Arrives, Proving, VerifyHello, CookieOf, Sound, SoundHash;
    EntryStepOfRun(w, steps, i, key);
    assert Enrols(w, Run(w, steps[..i]), steps[i], key) by { StoredBy(w, steps, i, key); }
    if NotEnrolled(w, steps, i + 1, m, key) {
      EntryLifetime(w, steps, i + 1, m, key);
      if j: nat :| i < j < m && ExpiredAt(w, steps, j, key) {
        NotEnrolledBefore(w, steps, i + 1, j, m, key);
        EntryLifetime(w, steps, i + 1, j, key);
        ClockRuns(w, steps, j, m);
      }
    }
  }

  lemma StoredBy(w: World, steps: seq<Step>, i: nat, key: PendingKey)
    requires i < |steps| && EnrolledAt(w, steps, i, key)
    ensures Enrols(w, Run(w, steps[..i]), steps[i], key) && steps[i].ServerGets?
  {
    hide Run, Enrolling, HelloKey;
  }

  lemma NotEnrolledBefore(w: World, steps: seq<Step>, k: nat, j: nat, m: nat, key: PendingKey)
    requires k <= j <= m <= |steps| && NotEnrolled(w, steps, k, m, key)
    ensures NotEnrolled(w, steps, k, j, key)
  {
    hide EnrolledAt;
  }
}
