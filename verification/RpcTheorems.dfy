// What the refinement gives over whole runs of an epoch: at-most-once execution, answers that match
// their executions, distinct nonces, harmless cache eviction, and completion whenever it is possible.
module RpcTheorems {
  import opened Common
  import opened Codec
  import opened ReplayWindows
  import opened Primitives
  import opened Rpc
  import opened RpcSystem
  import opened RpcSafety

  function Continue(e: Epoch, s: System, more: seq<Step>): System
    decreases |more|
  {
    if more == [] then s else Continue(e, Apply(e, s, more[0]), more[1..])
  }

  lemma {:induction false} RunContinues(e: Epoch, steps: seq<Step>, more: seq<Step>)
    ensures Run(e, steps + more) == Continue(e, Run(e, steps), more)
    decreases |more|
  {
    hide Apply;
    if more == [] {
      assert steps + more == steps;
    } else {
      RunContinues(e, steps + [more[0]], more[1..]);
      assert steps + [more[0]] + more[1..] == steps + more;
      assert (steps + [more[0]])[..|steps|] == steps;
    }
  }

  lemma {:induction false} Reachable(e: Epoch, steps: seq<Step>)
    requires Admissible(e)
    ensures Inv(e, Run(e, steps))
  {
    hide Inv, Apply;
    if steps == [] {
      InitialInv(e);
    } else {
      Reachable(e, steps[..|steps| - 1]);
      EveryStep(e, Run(e, steps[..|steps| - 1]), steps[|steps| - 1]);
    }
  }

  lemma InitialInv(e: Epoch)
    ensures Inv(e, INITIAL)
  {
  }

  // Every run of the concrete system, seen call by call, is a run of the at-most-once service.
  lemma Refinement(e: Epoch, steps: seq<Step>, next: Step)
    requires Admissible(e)
    ensures forall id :: View(Run(e, []), id) == None
    ensures ServiceStep(e, Run(e, steps), Run(e, steps + [next]))
  {
    hide Inv, Apply, ServiceStep;
    Reachable(e, steps);
    EveryStep(e, Run(e, steps), next);
    assert (steps + [next])[..|steps|] == steps;
  }

  // ---------- the service never undoes anything ----------

  predicate Precedes(x: Exec, y: Exec) {
    x == NotRun || x == y || (x == Running && y.Done?)
  }

  // The request is fixed, an execution never starts over and keeps its result, and an outcome once
  // settled stays.
  predicate Later(before: Option<AbstractCall>, after: Option<AbstractCall>) {
    before.Some? ==>
      && after.Some?
      && after.value.verb == before.value.verb && after.value.path == before.value.path && after.value.body == before.value.body
      && Precedes(before.value.exec, after.value.exec)
      && (before.value.outcome != Waiting ==> after.value.outcome == before.value.outcome)
  }

  lemma StepIsLater(e: Epoch, s: System, s': System, id: Id)
    requires ServiceStep(e, s, s')
    ensures Later(View(s, id), View(s', id))
  {
    hide NotFoundResponse, Truncated, View;
    var moved :| Moves(e, s, s', moved);
  }

  lemma {:induction false} NothingUndone(e: Epoch, steps: seq<Step>, more: seq<Step>, id: Id)
    requires Admissible(e)
    ensures Later(View(Run(e, steps), id), View(Run(e, steps + more), id))
  {
    hide Run, View, ServiceStep;
    if more == [] {
      assert steps + more == steps;
    } else {
      var init := more[..|more| - 1];
      NothingUndone(e, steps, init, id);
      Refinement(e, steps + init, more[|more| - 1]);
      assert steps + init + [more[|more| - 1]] == steps + more;
      StepIsLater(e, Run(e, steps + init), Run(e, steps + more), id);
    }
  }

  // ---------- at most once, with matching answers ----------

  // In every reachable state: each handler task was started for a different call and got that call's
  // exact method, path and body; no future ever holds an error; and a resolved future holds the
  // response of the execution of its own call.
  lemma AtMostOnce(e: Epoch, steps: seq<Step>)
    requires Admissible(e)
    ensures var s := Run(e, steps);
            && (forall i, j | 0 <= i < j < |s.started| :: s.started[i] != s.started[j])
            && (forall id | id in s.started :: id in s.served)
            && (forall id | id in s.served ::
                  && id in s.client.calls
                  && s.served[id].verb == s.client.calls[id].verb
                  && s.served[id].path == s.client.calls[id].path
                  && s.served[id].body == s.client.calls[id].body)
            && (forall id | id in s.client.outcomes ::
                  && s.client.outcomes[id] != Failed
                  && (s.client.outcomes[id].Answered? ==>
                        id in s.served && s.served[id].exec.Done?
                        && s.client.outcomes[id].response == Truncated(s.served[id].exec.response)))
  {
    hide ClientInv, CacheInv, Network, Run, Seen, Marked, Valid, Truncated;
    Reachable(e, steps);
    var s := Run(e, steps);
    forall id | id in s.served ensures ServedCall(s.client, s.session.windows, s.served, id) {
    }
    forall id | id in s.client.outcomes ensures AnsweredCall(s.client, s.served, id) {
    }
  }

  // Eviction, retransmission and late completion in any order: a request that was accepted once is
  // never accepted again, whether or not its response is still cached.
  lemma NeverRunAgain(e: Epoch, steps: seq<Step>, id: Id, data: Bytes)
    requires Admissible(e)
    requires id in Run(e, steps).served && IsRequest(e, Run(e, steps).client, id, data)
    ensures var s := Run(e, steps);
            var s' := ServerReceive(e, s, data);
            && s'.started == s.started && s'.served == s.served
            && (forall k | k in s.session.cache :: k !in s.session.inflight)
  {
    hide ClientInv, Network, AnswerInv, Run, Marked, Valid, RequestPacket, PackHeader, ServerSplit, HandleRequest, GenuineOutcome,
         IsReply, Sound;
    Reachable(e, steps);
    var s := Run(e, steps);
    forall k | k in s.session.cache ensures k !in s.session.inflight {
      assert CachedKey(e, s.session, s.served, k);
    }
    CallOfServed(e, s, id);
    ServedOnce(e, s, id, data);
  }

  lemma ServedOnce(e: Epoch, s: System, id: Id, data: Bytes)
    requires Admissible(e) && Inv(e, s) && id in s.served && IsRequest(e, s.client, id, data)
    ensures ServerReceive(e, s, data).started == s.started && ServerReceive(e, s, data).served == s.served
  {
    hide Inv, RequestPacket, PackHeader, SendResponse, ServerSplit, HandleRequest, Offer, NotFoundResponse, Sound;
    RefusedIfServed(e, s, id);
    if ServerSplit(data).Ok? {
      HandleGenuine(e, s.session, id, s.client.calls[id], data, s.now);
    }
  }

  lemma RefusedIfServed(e: Epoch, s: System, id: Id)
    requires Inv(e, s) && id in s.served
    ensures id in s.client.calls && |s.client.calls[id].path| <= MAX_PATH_BYTES && 0 <= s.client.calls[id].verb <= MAX_VERB
    ensures !Offer(WindowOf(s.session.windows, id.stream), id.sequence).1
  {
    hide Network, AnswerInv, CacheInv, StartedOnce, Marked, RequestPacket, Offer;
    assert NumberedCall(e, s.client, id);
    assert ServedCall(s.client, s.session.windows, s.served, id);
    assert ServerWindow(s.client, s.session.windows, id.stream);
    EmptyIsValid();
    OfferEffect(WindowOf(s.session.windows, id.stream), id.sequence);
  }

  // The cleanup loop, at these times.
  function Sweeps(s: Session, times: seq<real>): Session {
    if times == [] then s else Sweep(Sweeps(s, times[..|times| - 1]), times[|times| - 1])
  }

  lemma {:induction false} SweepsKeep(s: Session, times: seq<real>, k: ReqKey)
    ensures Sweeps(s, times).windows == s.windows
    ensures k in Sweeps(s, times).cache <==> k in s.cache && forall t | t in times :: t <= s.cache[k].expiresAt
    ensures k in Sweeps(s, times).cache ==> Sweeps(s, times).cache[k] == s.cache[k]
    ensures k in Sweeps(s, times).inflight <==> k in s.inflight && forall t | t in times :: t <= s.inflight[k]
    ensures k in Sweeps(s, times).inflight ==> Sweeps(s, times).inflight[k] == s.inflight[k]
  {
    if times != [] {
      var n := |times| - 1;
      SweepsKeep(s, times[..n], k);
      if k in s.cache {
        AllBut(times, s.cache[k].expiresAt);
      }
      if k in s.inflight {
        AllBut(times, s.inflight[k]);
      }
    }
  }

  lemma AllBut(times: seq<real>, limit: real)
    requires times != []
    ensures var n := |times| - 1;
            (forall t | t in times :: t <= limit) <==> (forall t | t in times[..n] :: t <= limit) && times[n] <= limit
  {
    var n := |times| - 1;
    assert times[n] in times && forall t | t in times[..n] :: t in times;
    assert forall t | t in times :: t in times[..n] || t == times[n];
  }

  // A sent response answers retransmissions exactly until a cleanup finds its time to live passed.
  lemma AnsweredUntilEvicted(e: Epoch, s: Session, id: Id, requestId: int, r: Response, sentAt: real, times: seq<real>,
      h: Header, path: Bytes, body: Bytes, now: real)
    requires ReplyPacket(e, id, requestId, r).Ok? && h.streamId == id.stream && h.requestId == requestId
    ensures var s1 := Sweeps(SendResponse(e, s, id, requestId, r, sentAt).0, times);
            var handled := HandleRequest(e, s1, h, path, body, now);
            && (handled.verdict.Resent? <==> forall t | t in times :: t <= sentAt + e.cacheTtl)
            && (handled.verdict.Resent? ==> handled.sent == [ReplyPacket(e, id, requestId, r).value] && handled.session == s1)
  {
    hide ReplyPacket, Sweeps, Offer, OpenRequest, PackHeader, NotFoundResponse, ValidUtf8;
    SweepsKeep(SendResponse(e, s, id, requestId, r, sentAt).0, times, ReqKey(id.stream, requestId));
  }

  // ---------- identifiers and nonces ----------

  // On every stream the request id runs one ahead of the sequence number, and calls of the epoch have
  // one nonce exactly if they are one call.
  lemma NoncesDiffer(e: Epoch, steps: seq<Step>, a: Id, b: Id)
    requires Admissible(e)
    requires a in Run(e, steps).client.calls && b in Run(e, steps).client.calls
    ensures Nonce(a.stream, a.sequence) == Nonce(b.stream, b.sequence) <==> a == b
    ensures forall st | st in Run(e, steps).client.streams ::
              Run(e, steps).client.streams[st].nextRequestId == Run(e, steps).client.streams[st].nextSeq + 1
  {
    hide Inv, Run, Nonce;
    Reachable(e, steps);
    var c := Run(e, steps).client;
    CallFits(e, Run(e, steps), a);
    CallFits(e, Run(e, steps), b);
    NonceInjective(a.stream, a.sequence, b.stream, b.sequence);
    forall st | st in c.streams ensures c.streams[st].nextRequestId == c.streams[st].nextSeq + 1 {
      StreamNumbers(e, Run(e, steps), st);
    }
  }

  lemma CallFits(e: Epoch, s: System, id: Id)
    requires Inv(e, s) && id in s.client.calls
    ensures Fits(id.stream, 4) && Fits(id.sequence, 4)
  {
    hide ServerInv, CacheInv, Network, AnswerInv, StartedOnce, Marked, Valid, Fits;
    assert NumberedCall(e, s.client, id);
    assert Packable(RequestHeader(e, id, s.client.calls[id]));
  }

  lemma StreamNumbers(e: Epoch, s: System, stream: int)
    requires Inv(e, s)
    ensures NumberedStream(s.client, stream)
  {
    hide ServerInv, CacheInv, Network, AnswerInv, StartedOnce;
  }

  // ---------- completion ----------

  // A call can still be answered by sending its request again: it waits, its packet fits a datagram,
  // the session is in place, the client's window has not moved 64 past its number, and either its
  // reply is still cached or being made, or the server has not accepted it, but still would.
  predicate Answerable(s: System, id: Id) {
    && id in s.client.calls && id in s.client.outcomes && s.client.outcomes[id] == Waiting
    && HEADER_SIZE + |s.client.calls[id].path| + |s.client.calls[id].body| + TAG_SIZE <= MAX_PACKET_SIZE
    && s.live
    && WindowOf(s.client.windows, id.stream).highest < id.sequence + REPLAY_WINDOW
    && if id in s.served then s.served[id].exec.Done? ==> ReqKey(id.stream, id.sequence + 1) in s.session.cache
       else s.client.calls[id].path != [] && WindowOf(s.session.windows, id.stream).highest < id.sequence + REPLAY_WINDOW
  }

  predicate Resolved(s: System, id: Id) {
    id in s.client.outcomes && s.client.outcomes[id].Answered?
  }

  // In every reachable state, retransmitting an answerable call, delivering it, ending its handler
  // with any response `r` that fits a packet and delivering the reply resolves its future.
  lemma CanComplete(e: Epoch, steps: seq<Step>, id: Id, r: Response) returns (more: seq<Step>)
    requires Admissible(e) && Answerable(Run(e, steps), id)
    requires ReplyPacket(e, id, id.sequence + 1, r).Ok?
    ensures |more| <= 4 && Resolved(Run(e, steps + more), id)
  {
    hide Inv, Apply, Run, Answerable;
    var s := Run(e, steps);
    Reachable(e, steps);
    var first := Resend(e, s, id);
    EveryStep(e, s, first[0]);
    EveryStep(e, Apply(e, s, first[0]), first[1]);
    assert first == [first[0], first[1]];
    ContinueTwice(e, s, first[0], first[1]);
    var s2 := Continue(e, s, first);
    var second := Conclude(e, s2, id, r);
    more := first + second;
    RunContinues(e, steps, more);
    ContinueAppends(e, s, first, second);
  }

  lemma {:induction false} ContinueAppends(e: Epoch, s: System, first: seq<Step>, second: seq<Step>)
    ensures Continue(e, s, first + second) == Continue(e, Continue(e, s, first), second)
    decreases |first|
  {
    hide Apply;
    if first == [] {
      assert first + second == second;
    } else {
      assert (first + second)[1..] == first[1..] + second;
      ContinueAppends(e, Apply(e, s, first[0]), first[1..], second);
    }
  }

  lemma ContinueTwice(e: Epoch, s: System, a: Step, b: Step)
    ensures Continue(e, s, [a, b]) == Apply(e, Apply(e, s, a), b)
    ensures Continue(e, s, [a]) == Apply(e, s, a)
  {
    hide Apply;
    assert [a, b][1..] == [b];
    assert Continue(e, Apply(e, s, a), [b]) == Apply(e, Apply(e, s, a), b);
  }

  // The request, sent again and delivered, ends up running, or with its reply in the network.
  predicate UnderWay(e: Epoch, s: System, id: Id) {
    && id in s.client.calls && id in s.client.outcomes && s.client.outcomes[id] == Waiting
    && id in s.served
    && WindowOf(s.client.windows, id.stream).highest < id.sequence + REPLAY_WINDOW
    && (s.served[id].exec.Done? ==>
          var reply := ReplyPacket(e, id, s.served[id].requestId, s.served[id].exec.response);
          reply.Ok? && reply.value in s.toClient)
  }

  lemma Resend(e: Epoch, s: System, id: Id) returns (first: seq<Step>)
    requires Admissible(e) && Inv(e, s) && Answerable(s, id)
    ensures |first| == 2 && UnderWay(e, Continue(e, s, first), id)
  {
    hide ServerInv, CacheInv, Network, AnswerInv, RequestPacket, ServerSplit, ServerReceive, Begin, ClientReceive, FinishTask, Sweep,
         GiveUp, StartedOnce;
    assert NumberedCall(e, s.client, id);
    var packet := RequestPacket(e, id, s.client.calls[id]).value;
    first := [Retransmit(id), DeliverToServer(packet)];
    var s1 := s.(toServer := s.toServer + {packet});
    ContinueTwice(e, s, first[0], first[1]);
    DeliveredRequest(e, s1, id, packet);
  }

  lemma DeliveredRequest(e: Epoch, s: System, id: Id, packet: Bytes)
    requires Admissible(e) && ClientInv(e, s.client) && ServerInv(s.client, s.session.windows, s.served)
    requires CacheInv(e, s.session, s.served) && Answerable(s, id)
    requires packet in s.toServer && RequestPacket(e, id, s.client.calls[id]) == Ok(packet)
    ensures UnderWay(e, Apply(e, s, DeliverToServer(packet)), id)
  {
    hide ServerInv, CacheInv, RequestPacket, ServerSplit, HandleRequest, Offer, Marked, Valid, Sound, PackHeader, ReplyPacket,
         NotFoundResponse, SendResponse, GenuineOutcome, Begin, ClientReceive, FinishTask, Sweep, GiveUp;
    var c := s.client.calls[id];
    assert NumberedCall(e, s.client, id);
    RequestDelivered(e, id, c);
    HandleGenuine(e, s.session, id, c, packet, s.now);
    assert Apply(e, s, DeliverToServer(packet))
        == Handle(s, id, c.requestId, c.verb, c.path, GenuineOutcome(e, s.session, id, c, s.now));
    HandledUnderWay(e, s, id);
  }

  lemma HandledUnderWay(e: Epoch, s: System, id: Id)
    requires ClientInv(e, s.client) && ServerInv(s.client, s.session.windows, s.served)
    requires CacheInv(e, s.session, s.served) && Answerable(s, id)
    requires PackHeader(FrameAckHeader(e, id, s.client.calls[id].requestId)).Ok?
    ensures var c := s.client.calls[id];
            UnderWay(e, Handle(s, id, c.requestId, c.verb, c.path, GenuineOutcome(e, s.session, id, c, s.now)), id)
  {
    hide RequestPacket, Offer, Marked, Valid, PackHeader, ReplyPacket, NotFoundResponse, SendResponse;
    var c := s.client.calls[id];
    var key := ReqKey(id.stream, c.requestId);
    assert NumberedCall(e, s.client, id);
    assert CachedKey(e, s.session, s.served, key);
    assert Id(key.stream, key.request - 1) == id;
    if key !in s.session.cache {
      assert ServedCall(s.client, s.session.windows, s.served, id);
      assert MarkedCall(s.client, s.session.windows, s.served, id);
      assert ServerWindow(s.client, s.session.windows, id.stream);
      EmptyIsValid();
      OfferEffect(WindowOf(s.session.windows, id.stream), id.sequence);
      if id !in s.served && !e.routed(c.verb, c.path) {
        NotFoundFits(e, id, c.requestId);
        var (window, ok) := Offer(WindowOf(s.session.windows, id.stream), id.sequence);
        SendResponseEffect(e, s.session.(windows := s.session.windows[id.stream := window]), id, c.requestId, NotFoundResponse(), s.now);
      }
    }
  }

  // The fixed 404 answer fits a packet wherever a frame ack does.
  lemma NotFoundFits(e: Epoch, id: Id, requestId: int)
    requires PackHeader(FrameAckHeader(e, id, requestId)).Ok?
    ensures ReplyPacket(e, id, requestId, NotFoundResponse()).Ok?
  {
    hide PackHeader;
    FieldWidths();
    assert Packable(FrameAckHeader(e, id, requestId));
    assert |NotFoundResponse().contentType| == 16 && |NotFoundResponse().body| == 22;
    assert Packable(ReplyHeader(e, id, requestId, 4 + 16 + 22 + TAG_SIZE));
  }

  // From there the handler ends, if it runs, and the reply is delivered.
  lemma Conclude(e: Epoch, s: System, id: Id, r: Response) returns (second: seq<Step>)
    requires Admissible(e) && Inv(e, s) && UnderWay(e, s, id)
    requires ReplyPacket(e, id, id.sequence + 1, r).Ok?
    ensures |second| <= 2 && Resolved(Continue(e, s, second), id)
  {
    hide Inv, ReplyPacket, Apply;
    var finish := Finish(id, r);
    if s.served[id].exec.Done? {
      var deliver := DeliverToClient(ReplyPacket(e, id, s.served[id].requestId, s.served[id].exec.response).value);
      second := [deliver];
      ReplyResolves(e, s, id, deliver.data);
      ContinueTwice(e, s, deliver, deliver);
    } else {
      var deliver := DeliverToClient(ReplyPacket(e, id, id.sequence + 1, r).value);
      second := [finish, deliver];
      EveryStep(e, s, finish);
      FinishUnderWay(e, s, id, r);
      ReplyResolves(e, Apply(e, s, finish), id, deliver.data);
      ContinueTwice(e, s, finish, deliver);
    }
  }

  lemma FinishUnderWay(e: Epoch, s: System, id: Id, r: Response)
    requires Inv(e, s) && UnderWay(e, s, id) && !s.served[id].exec.Done?
    requires ReplyPacket(e, id, id.sequence + 1, r).Ok?
    ensures var s' := Apply(e, s, Finish(id, r));
            UnderWay(e, s', id) && s'.served[id].exec == Done(r) && s'.served[id].requestId == id.sequence + 1
  {
    hide ClientInv, CacheInv, Network, AnswerInv, ReplyPacket, Seen, SendResponse, Begin, RequestPacket, ServerReceive, ClientReceive, Sweep, GiveUp,
         StartedOnce;
    CallOfServed(e, s, id);
    assert ServedCall(s.client, s.session.windows, s.served, id);
    SendResponseEffect(e, s.session, id, s.served[id].requestId, r, s.now);
  }

  lemma ReplyResolves(e: Epoch, s: System, id: Id, packet: Bytes)
    requires Admissible(e) && Inv(e, s) && UnderWay(e, s, id) && s.served[id].exec.Done?
    requires ReplyPacket(e, id, s.served[id].requestId, s.served[id].exec.response) == Ok(packet)
    ensures Resolved(Apply(e, s, DeliverToClient(packet)), id)
  {
    hide ServerInv, CacheInv, Network, AnswerInv, ReplyPacket, Marked, Valid, RequestPacket, ClientSplit, OpenReply, Offer, Sound, Begin,
         ServerReceive, FinishTask, Sweep, GiveUp, StartedOnce;
    CallOfServed(e, s, id);
    ReplyDelivered(e, id, s.served[id].requestId, s.served[id].exec.response);
    assert WaitingCall(s.client, id);
    assert PendingKey(s.client, ReqKey(id.stream, id.sequence + 1));
    assert ClientWindow(s.client, id.stream);
    assert NumberedCall(e, s.client, id);
    EmptyIsValid();
    OfferEffect(WindowOf(s.client.windows, id.stream), id.sequence);
  }
}
