// Exactly which waiting calls some continuation of a run can still answer.
module RpcCompletion {
  import opened Common
  import opened Codec
  import opened ReplayWindows
  import opened Primitives
  import opened Rpc
  import opened RpcSystem
  import opened RpcSafety
  import opened RpcTheorems
  import opened RpcNonces

  predicate Waits(s: System, id: Id) {
    id in s.client.calls && id in s.client.outcomes && s.client.outcomes[id] == Waiting
  }

  predicate Outstanding(e: Epoch, s: System, id: Id) {
    Replied(e, s, id) && ReplyPacket(e, id, s.served[id].requestId, s.served[id].exec.response).value in s.toClient
  }

  // The call waits, the client's window would take its number, and its reply is in the network, is
  // being made, or would be sent (again) for one more copy of the request.
  predicate Chance(e: Epoch, s: System, id: Id) {
    && Waits(s, id)
    && WindowOf(s.client.windows, id.stream).highest < id.sequence + REPLAY_WINDOW
    && (Outstanding(e, s, id) || (id in s.served && s.served[id].exec == Running) || Answerable(s, id))
  }

  // ---------- a chance can be taken ----------

  lemma ChanceTaken(e: Epoch, steps: seq<Step>, id: Id) returns (more: seq<Step>)
    requires Admissible(e) && Chance(e, Run(e, steps), id)
    ensures |more| <= 4 && Resolved(Run(e, steps + more), id)
  {
    hide Inv, Run, Answerable, UnderWay, Replied, ReplyPacket, NotFoundResponse, Resolved, Sound;
    var s := Run(e, steps);
    Reachable(e, steps);
    ReplyFits(e, s, id);
    if Answerable(s, id) {
      more := CanComplete(e, steps, id, NotFoundResponse());
    } else {
      OnItsWay(e, s, id);
      more := Conclude(e, s, id, NotFoundResponse());
      RunContinues(e, steps, more);
    }
  }

  lemma OnItsWay(e: Epoch, s: System, id: Id)
    requires Chance(e, s, id) && !Answerable(s, id)
    ensures UnderWay(e, s, id)
  {
    hide Answerable, ReplyPacket;
  }

  // ---------- a lost chance does not come back ----------

  // What a step must not do, to leave a call without a chance as it is.
  predicate NoBetter(e: Epoch, s: System, s': System, id: Id) {
    && id in s.client.calls && id in s'.client.calls && s'.client.calls[id] == s.client.calls[id]
    && (Waits(s', id) ==> Waits(s, id))
    && WindowOf(s.client.windows, id.stream).highest <= WindowOf(s'.client.windows, id.stream).highest
    && (s'.live ==> s.live)
    && (id in s'.served <==> id in s.served) && (id in s.served ==> s'.served[id] == s.served[id])
    && (ReqKey(id.stream, id.sequence + 1) in s'.session.cache ==> ReqKey(id.stream, id.sequence + 1) in s.session.cache)
    && WindowOf(s.session.windows, id.stream).highest <= WindowOf(s'.session.windows, id.stream).highest
    && (Outstanding(e, s', id) ==> Outstanding(e, s, id))
  }

  lemma NoBetterNoChance(e: Epoch, s: System, s': System, id: Id)
    requires id in s.client.calls && NoBetter(e, s, s', id)
    ensures Chance(e, s', id) ==> Chance(e, s, id)
  {
    hide Outstanding;
  }

  // The client's side of every step: the call stays, no outcome is undone, no window falls back.
  lemma ClientForward(e: Epoch, s: System, step: Step, id: Id)
    requires Admissible(e) && Inv(e, s) && id in s.client.calls
    ensures var s' := Apply(e, s, step);
            && id in s'.client.calls && s'.client.calls[id] == s.client.calls[id]
            && (Waits(s', id) ==> Waits(s, id))
            && WindowOf(s.client.windows, id.stream).highest <= WindowOf(s'.client.windows, id.stream).highest
  {
    hide Inv, Apply, SealsOf, Kept, Adds, Sound;
    EveryStepSeals(e, s, step);
    KeptCall(s, Apply(e, s, step), id);
    WaitsBack(e, s, step, id);
    ClientWindowForward(e, s, step, id.stream);
  }

  lemma KeptCall(s: System, s': System, id: Id)
    requires Kept(s, s') && id in s.client.calls
    ensures id in s'.client.calls && s'.client.calls[id] == s.client.calls[id]
  {
  }

  lemma WaitsBack(e: Epoch, s: System, step: Step, id: Id)
    requires Admissible(e) && Inv(e, s) && id in s.client.calls
    ensures Waits(Apply(e, s, step), id) ==> Waits(s, id)
  {
    hide Inv, Apply, ServiceStep, Sound;
    EveryStep(e, s, step);
    StepIsLater(e, s, Apply(e, s, step), id);
    HasOutcome(e, s, id);
  }

  lemma HasOutcome(e: Epoch, s: System, id: Id)
    requires Inv(e, s) && id in s.client.calls
    ensures id in s.client.outcomes
  {
    hide ServerInv, CacheInv, Network, AnswerInv, StartedOnce, RequestPacket;
    assert NumberedCall(e, s.client, id);
  }

  lemma ClientWindowForward(e: Epoch, s: System, step: Step, stream: int)
    requires Inv(e, s)
    ensures WindowOf(s.client.windows, stream).highest <= WindowOf(Apply(e, s, step).client.windows, stream).highest
  {
    hide Inv, ServerReceive, FinishTask, Sweep, RequestPacket, ClientReceive;
    match step
    case DeliverToClient(data) => OnResponseForward(e, s, data, stream);
    case DeliverToServer(data) => ServerLeavesClient(e, s, data);
    case Finish(task, r) => TaskLeavesClient(e, s, task, r);
    case _ =>
  }

  lemma ServerLeavesClient(e: Epoch, s: System, data: Bytes)
    ensures ServerReceive(e, s, data).client == s.client
  {
    hide HandleRequest, ServerSplit;
  }

  lemma TaskLeavesClient(e: Epoch, s: System, task: Id, r: Response)
    ensures FinishTask(e, s, task, r).client == s.client
  {
    hide SendResponse;
  }

  lemma OnResponseForward(e: Epoch, s: System, data: Bytes, stream: int)
    requires Inv(e, s)
    ensures WindowOf(s.client.windows, stream).highest <= WindowOf(ClientReceive(e, s.client, data).windows, stream).highest
  {
    hide Inv, ClientSplit, Offer, OpenReply, Valid;
    if ClientSplit(data).Ok? {
      var h := ClientSplit(data).value.header;
      ValidWindows(e, s, h.streamId);
      OfferForward(WindowOf(s.client.windows, h.streamId), h.sequence);
    }
  }

  lemma ValidWindows(e: Epoch, s: System, stream: int)
    requires Inv(e, s)
    ensures Valid(WindowOf(s.client.windows, stream)) && Valid(WindowOf(s.session.windows, stream))
  {
    hide CacheInv, Network, AnswerInv, StartedOnce, Valid;
    EmptyIsValid();
    assert ClientWindow(s.client, stream) && ServerWindow(s.client, s.session.windows, stream);
  }

  lemma OfferForward(w: Window, n: int)
    requires Valid(w)
    ensures w.highest <= Offer(w, n).0.highest
    ensures Offer(w, n).1 ==> w.highest < n + REPLAY_WINDOW
  {
    hide Offer, Valid;
    OfferStep(w, n, n);
  }

  // ---------- packets of different calls differ ----------

  lemma RepliesDiffer(e: Epoch, served: map<Id, Served>, a: Id, b: Id, d: Bytes)
    requires Admissible(e) && IsReply(e, served, a, d) && IsReply(e, served, b, d)
    ensures a == b
  {
    hide ReplyPacket, ClientSplit, OpenReply, Truncated, Sound;
    ReplyDelivered(e, a, served[a].requestId, served[a].exec.response);
    ReplyDelivered(e, b, served[b].requestId, served[b].exec.response);
  }

  lemma FrameAckIsNoReply(e: Epoch, served: map<Id, Served>, a: Id, b: Id, d: Bytes)
    requires Admissible(e) && IsFrameAck(e, served, a, d)
    ensures !IsReply(e, served, b, d)
  {
    hide ReplyPacket, PackHeader, ClientSplit, OpenReply, Truncated, Sound;
    FrameAckDelivered(e, a, served[a].requestId);
    if IsReply(e, served, b, d) {
      ReplyDelivered(e, b, served[b].requestId, served[b].exec.response);
    }
  }

  // ---------- a handler ends ----------

  lemma FinishNoBetter(e: Epoch, s: System, task: Id, r: Response, id: Id)
    requires Admissible(e) && Inv(e, s) && id in s.client.calls
    ensures var s' := Apply(e, s, Finish(task, r)); Chance(e, s', id) ==> Chance(e, s, id)
  {
    hide Inv, Apply, Chance, NoBetter, Sound;
    var s' := Apply(e, s, Finish(task, r));
    ClientForward(e, s, Finish(task, r), id);
    if task in s.served && s.served[task].exec == Running {
      TaskEnds(e, s, s', task, r);
      if task == id {
        RunningHasChance(e, s, s', id);
      } else {
        OtherTaskEnds(e, s, s', task, r, id);
        NoBetterNoChance(e, s, s', id);
      }
    } else {
      NotRunning(e, s, task, r);
    }
  }

  lemma NotRunning(e: Epoch, s: System, task: Id, r: Response)
    requires !(task in s.served && s.served[task].exec == Running)
    ensures Apply(e, s, Finish(task, r)) == s
  {
    hide SendResponse, Begin, RequestPacket, ServerReceive, ClientReceive, Sweep, GiveUp;
  }

  lemma RunningHasChance(e: Epoch, s: System, s': System, id: Id)
    requires id in s.client.calls && id in s.served && s.served[id].exec == Running
    requires Waits(s', id) ==> Waits(s, id)
    requires WindowOf(s.client.windows, id.stream).highest <= WindowOf(s'.client.windows, id.stream).highest
    ensures Chance(e, s', id) ==> Chance(e, s, id)
  {
    hide Outstanding, Answerable;
  }

  lemma TaskEnds(e: Epoch, s: System, s': System, task: Id, r: Response)
    requires Inv(e, s) && task in s.served && s.served[task].exec == Running && s' == Apply(e, s, Finish(task, r))
    ensures s'.live == s.live && s'.session.windows == s.session.windows
    ensures s'.served == s.served[task := s.served[task].(exec := Done(r))]
    ensures forall k | k in s'.session.cache :: k in s.session.cache || k == ReqKey(task.stream, task.sequence + 1)
    ensures forall d | d in s'.toClient :: d in s.toClient || IsReply(e, s'.served, task, d)
  {
    hide Inv, ReplyPacket, SendResponse, Begin, RequestPacket, ServerReceive, ClientReceive, Sweep, GiveUp;
    ServedNumbers(e, s, task);
    SendResponseEffect(e, s.session, task, s.served[task].requestId, r, s.now);
  }

  lemma ServedNumbers(e: Epoch, s: System, id: Id)
    requires Inv(e, s) && id in s.served
    ensures id in s.client.calls && s.served[id].requestId == id.sequence + 1
  {
    hide ClientInv, CacheInv, ServerInv, Network, AnswerInv, StartedOnce;
    CallOfServed(e, s, id);
  }

  lemma OtherTaskEnds(e: Epoch, s: System, s': System, task: Id, r: Response, id: Id)
    requires Admissible(e) && id in s.client.calls && task != id && task in s.served
    requires id in s'.client.calls && s'.client.calls[id] == s.client.calls[id] && (Waits(s', id) ==> Waits(s, id))
    requires WindowOf(s.client.windows, id.stream).highest <= WindowOf(s'.client.windows, id.stream).highest
    requires s'.live == s.live && s'.session.windows == s.session.windows
    requires s'.served == s.served[task := s.served[task].(exec := Done(r))]
    requires forall k | k in s'.session.cache :: k in s.session.cache || k == ReqKey(task.stream, task.sequence + 1)
    requires forall d | d in s'.toClient :: d in s.toClient || IsReply(e, s'.served, task, d)
    ensures NoBetter(e, s, s', id)
  {
    hide ReplyPacket, Sound;
    if Outstanding(e, s', id) {
      var d := ReplyPacket(e, id, s'.served[id].requestId, s'.served[id].exec.response).value;
      assert IsReply(e, s'.served, id, d);
      if d !in s.toClient {
        RepliesDiffer(e, s'.served, task, id, d);
      }
    }
  }

  // ---------- a request reaches the server ----------

  lemma DeliveryNoBetter(e: Epoch, s: System, data: Bytes, id: Id)
    requires Admissible(e) && Inv(e, s) && id in s.client.calls
    ensures var s' := Apply(e, s, DeliverToServer(data)); Chance(e, s', id) ==> Chance(e, s, id)
  {
    hide Inv, Chance, NoBetter, Handle, GenuineOutcome, HandleRequest, ServerSplit, RequestPacket, Begin, ClientReceive, FinishTask,
         Sweep, GiveUp, Sound;
    var s' := Apply(e, s, DeliverToServer(data));
    if data in s.toServer && s' != s {
      var from := ClientSent(e, s, data);
      var c := s.client.calls[from];
      CallNumbers(e, s, from);
      HandleGenuine(e, s.session, from, c, data, s.now);
      RequestDelivered(e, from, c);
      ClientForward(e, s, DeliverToServer(data), id);
      HandledNoBetter(e, s, s', from, id);
    }
  }

  lemma HandledNoBetter(e: Epoch, s: System, s': System, from: Id, id: Id)
    requires Admissible(e) && Inv(e, s) && id in s.client.calls && from in s.client.calls && s.live
    requires s.client.calls[from].requestId == from.sequence + 1
    requires HEADER_SIZE + |s.client.calls[from].path| + |s.client.calls[from].body| + TAG_SIZE <= MAX_PACKET_SIZE
    requires PackHeader(FrameAckHeader(e, from, s.client.calls[from].requestId)).Ok?
    requires var c := s.client.calls[from];
             s' == Handle(s, from, c.requestId, c.verb, c.path, GenuineOutcome(e, s.session, from, c, s.now))
    ensures Chance(e, s', id) ==> Chance(e, s, id)
  {
    hide Inv, Chance, NoBetter, Handle, Offer, SendResponse, NotFoundResponse, PackHeader, Sound;
    var c := s.client.calls[from];
    var key := ReqKey(from.stream, from.sequence + 1);
    var ok := Offer(WindowOf(s.session.windows, from.stream), from.sequence).1;
    ValidWindows(e, s, from.stream);
    OfferForward(WindowOf(s.session.windows, from.stream), from.sequence);
    HandleLeavesClient(s, from, c.requestId, c.verb, c.path, GenuineOutcome(e, s.session, from, c, s.now));
    if from == id && (key in s.session.cache || (ok && c.path != [])) {
      if key !in s.session.cache && id in s.served {
        RefusedIfServed(e, s, id);
        assert false;
      }
      SendableAgain(e, s, s', id);
    } else {
      HandledServer(e, s, s', from, id);
      NoBetterNoChance(e, s, s', id);
    }
  }

  lemma HandleLeavesClient(s: System, id: Id, requestId: int, verb: int, path: Bytes, handled: Handled)
    ensures var s' := Handle(s, id, requestId, verb, path, handled); s'.client == s.client && s'.live == s.live
  {
    hide NotFoundResponse;
  }

  lemma SendableAgain(e: Epoch, s: System, s': System, id: Id)
    requires id in s.client.calls && s.live && s'.client == s.client
    requires HEADER_SIZE + |s.client.calls[id].path| + |s.client.calls[id].body| + TAG_SIZE <= MAX_PACKET_SIZE
    requires ReqKey(id.stream, id.sequence + 1) in s.session.cache
             || (id !in s.served && s.client.calls[id].path != [] && WindowOf(s.session.windows, id.stream).highest < id.sequence + REPLAY_WINDOW)
    requires Inv(e, s)
    ensures Chance(e, s', id) ==> Chance(e, s, id)
  {
    hide Outstanding, Inv;
    if ReqKey(id.stream, id.sequence + 1) in s.session.cache {
      CachedIsServed(e, s, id);
    }
  }

  lemma CachedIsServed(e: Epoch, s: System, id: Id)
    requires Inv(e, s) && ReqKey(id.stream, id.sequence + 1) in s.session.cache
    ensures id in s.served
  {
    hide ClientInv, ServerInv, Network, AnswerInv, StartedOnce, ReplyPacket;
    assert CachedKey(e, s.session, s.served, ReqKey(id.stream, id.sequence + 1));
  }

  // What handling a request does to the tables.
  lemma HandledTables(e: Epoch, s: System, from: Id, c: Call)
    requires c.requestId == from.sequence + 1 && PackHeader(FrameAckHeader(e, from, c.requestId)).Ok?
    ensures var s' := Handle(s, from, c.requestId, c.verb, c.path, GenuineOutcome(e, s.session, from, c, s.now));
            var key := ReqKey(from.stream, from.sequence + 1);
            var (window, ok) := Offer(WindowOf(s.session.windows, from.stream), from.sequence);
            && s'.client == s.client && s'.live == s.live
            && (s'.session.windows == s.session.windows || s'.session.windows == s.session.windows[from.stream := window])
            && (forall k | k in s'.session.cache :: k in s.session.cache || k == key)
            && (s'.served == s.served || (from in s'.served && s'.served == s.served[from := s'.served[from]]))
            && (key !in s.session.cache && (c.path == [] || !ok) ==>
                  s'.served == s.served && s'.session.cache == s.session.cache && s'.toClient == s.toClient)
  {
    hide Offer, SendResponse, NotFoundResponse, PackHeader, ReplyPacket;
    var (window, ok) := Offer(WindowOf(s.session.windows, from.stream), from.sequence);
    SendResponseEffect(e, s.session.(windows := s.session.windows[from.stream := window]), from, c.requestId, NotFoundResponse(), s.now);
  }

  // The server's side of handling another call's request, or one that it does not take.
  lemma HandledServer(e: Epoch, s: System, s': System, from: Id, id: Id)
    requires Admissible(e) && Inv(e, s) && id in s.client.calls && from in s.client.calls
    requires s.client.calls[from].requestId == from.sequence + 1
    requires PackHeader(FrameAckHeader(e, from, s.client.calls[from].requestId)).Ok?
    requires var c := s.client.calls[from];
             s' == Handle(s, from, c.requestId, c.verb, c.path, GenuineOutcome(e, s.session, from, c, s.now))
    requires from == id ==> ReqKey(from.stream, from.sequence + 1) !in s.session.cache
    requires from == id ==> s.client.calls[from].path == [] || !Offer(WindowOf(s.session.windows, from.stream), from.sequence).1
    ensures NoBetter(e, s, s', id)
  {
    hide Inv, Offer, Handle, GenuineOutcome, PackHeader, ReplyPacket, Outstanding, Sound;
    ValidWindows(e, s, from.stream);
    OfferForward(WindowOf(s.session.windows, from.stream), from.sequence);
    HandledTables(e, s, from, s.client.calls[from]);
    if Outstanding(e, s', id) {
      OutstandingIsServed(e, s', id);
      SentAbout(e, s, s', from);
      OutstandingBefore(e, s, s', from, id);
    }
  }

  lemma OutstandingIsServed(e: Epoch, s: System, id: Id)
    requires Outstanding(e, s, id)
    ensures id in s.served && s.served[id].exec.Done?
  {
    hide ReplyPacket;
  }

  // Whatever handling a request sends is a reply to it or its acknowledgement.
  lemma SentAbout(e: Epoch, s: System, s': System, from: Id)
    requires Inv(e, s) && from in s.client.calls && s.client.calls[from].requestId == from.sequence + 1
    requires PackHeader(FrameAckHeader(e, from, s.client.calls[from].requestId)).Ok?
    requires var c := s.client.calls[from];
             s' == Handle(s, from, c.requestId, c.verb, c.path, GenuineOutcome(e, s.session, from, c, s.now))
    ensures forall d | d in s'.toClient :: d in s.toClient || IsReply(e, s'.served, from, d) || IsFrameAck(e, s'.served, from, d)
  {
    hide Inv, Offer, SendResponse, NotFoundResponse, PackHeader, ReplyPacket;
    var c := s.client.calls[from];
    var (window, ok) := Offer(WindowOf(s.session.windows, from.stream), from.sequence);
    SendResponseEffect(e, s.session.(windows := s.session.windows[from.stream := window]), from, c.requestId, NotFoundResponse(), s.now);
    CachedReply(e, s, from);
  }

  lemma CachedReply(e: Epoch, s: System, id: Id)
    requires Inv(e, s)
    ensures var key := ReqKey(id.stream, id.sequence + 1);
            key in s.session.cache ==> IsReply(e, s.served, id, s.session.cache[key].packet)
  {
    hide ClientInv, ServerInv, Network, AnswerInv, StartedOnce, IsReply;
    var key := ReqKey(id.stream, id.sequence + 1);
    assert CachedKey(e, s.session, s.served, key);
    assert Id(key.stream, key.request - 1) == id;
  }

  lemma OutstandingBefore(e: Epoch, s: System, s': System, from: Id, id: Id)
    requires Admissible(e) && Outstanding(e, s', id) && (from != id || s'.toClient == s.toClient)
    requires id in s.served && s'.served[id] == s.served[id]
    requires forall d | d in s'.toClient :: d in s.toClient || IsReply(e, s'.served, from, d) || IsFrameAck(e, s'.served, from, d)
    ensures Outstanding(e, s, id)
  {
    hide ReplyPacket, IsFrameAck, Sound;
    var d := ReplyPacket(e, id, s'.served[id].requestId, s'.served[id].exec.response).value;
    assert IsReply(e, s'.served, id, d);
    if d !in s.toClient {
      if IsFrameAck(e, s'.served, from, d) {
        FrameAckIsNoReply(e, s'.served, from, id, d);
      } else {
        RepliesDiffer(e, s'.served, from, id, d);
      }
    }
  }

  // ---------- the other steps ----------

  lemma OtherNoBetter(e: Epoch, s: System, step: Step, id: Id)
    requires Admissible(e) && Inv(e, s) && id in s.client.calls && !step.DeliverToServer? && !step.Finish?
    ensures Chance(e, Apply(e, s, step), id) ==> Chance(e, s, id)
  {
    hide Inv, Apply, Chance, Sound, ReplyPacket;
    ClientForward(e, s, step, id);
    OtherServer(e, s, step, id);
    NoBetterNoChance(e, s, Apply(e, s, step), id);
  }

  lemma OtherServer(e: Epoch, s: System, step: Step, id: Id)
    requires !step.DeliverToServer? && !step.Finish?
    ensures var s' := Apply(e, s, step);
            && s'.served == s.served && (s'.live ==> s.live) && s'.session.windows == s.session.windows && s'.toClient <= s.toClient
            && (forall k | k in s'.session.cache :: k in s.session.cache)
  {
    hide Begin, ServerReceive, ClientReceive, FinishTask, GiveUp, RequestPacket;
  }

  lemma NoStepGivesChance(e: Epoch, s: System, step: Step, id: Id)
    requires Admissible(e) && Inv(e, s) && id in s.client.calls
    ensures Chance(e, Apply(e, s, step), id) ==> Chance(e, s, id)
  {
    hide Inv, Apply, Chance, Sound;
    match step
    case DeliverToServer(data) => DeliveryNoBetter(e, s, data, id);
    case Finish(task, r) => FinishNoBetter(e, s, task, r, id);
    case _ => OtherNoBetter(e, s, step, id);
  }

  // ---------- resolution takes a chance ----------

  lemma ResolvedByChance(e: Epoch, s: System, step: Step, id: Id)
    requires Admissible(e) && Inv(e, s) && id in s.client.calls && !Resolved(s, id)
    ensures Resolved(Apply(e, s, step), id) ==> Chance(e, s, id)
  {
    hide Inv, Chance, ClientSplit, ClientReceive, ServerReceive, FinishTask, Sweep, RequestPacket, Sound;
    match step
    case DeliverToClient(data) =>
      if data in s.toClient && Resolved(Apply(e, s, step), id) {
        ServerSent(e, s, data);
        ReplyTaken(e, s, data, id);
      }
    case DeliverToServer(data) => ServerLeavesClient(e, s, data);
    case Finish(task, r) => TaskLeavesClient(e, s, task, r);
    case Request(stream, verb, path, body) => NewNumber(e, s, stream);
    case _ =>
  }

  lemma ReplyTaken(e: Epoch, s: System, data: Bytes, id: Id)
    requires Admissible(e) && Inv(e, s) && id in s.client.calls && data in s.toClient && FromServer(e, s.served, data)
    requires !Resolved(s, id) && Resolved(s.(client := ClientReceive(e, s.client, data)), id)
    ensures Chance(e, s, id)
  {
    hide Inv, ReplyPacket, Offer, ClientSplit, OpenReply, IsReply, IsFrameAck, Valid, Answerable, Sound;
    var from :| IsReply(e, s.served, from, data) || IsFrameAck(e, s.served, from, data);
    if IsFrameAck(e, s.served, from, data) {
      FrameAckRead(e, s, from, data);
    } else {
      ReplyRead(e, s, from, data);
      ServedNumbers(e, s, from);
      FiledUnder(e, s, from);
      ValidWindows(e, s, from.stream);
      OfferForward(WindowOf(s.client.windows, from.stream), from.sequence);
      ReplyIsOutstanding(e, s, from, data);
    }
  }

  lemma FiledUnder(e: Epoch, s: System, id: Id)
    requires Inv(e, s)
    ensures var key := ReqKey(id.stream, id.sequence + 1); key in s.client.pending ==> s.client.pending[key] == id
  {
    hide ServerInv, CacheInv, Network, AnswerInv, StartedOnce;
    assert PendingKey(s.client, ReqKey(id.stream, id.sequence + 1));
    assert Id(id.stream, id.sequence + 1 - 1) == id;
  }

  lemma ReplyIsOutstanding(e: Epoch, s: System, id: Id, data: Bytes)
    requires IsReply(e, s.served, id, data) && data in s.toClient
    ensures Outstanding(e, s, id)
  {
    hide ReplyPacket;
  }

  lemma {:induction false} OnlyByChance(e: Epoch, steps: seq<Step>, more: seq<Step>, id: Id)
    requires Admissible(e) && id in Run(e, steps).client.calls && !Resolved(Run(e, steps), id)
    ensures id in Run(e, steps + more).client.calls
    ensures Resolved(Run(e, steps + more), id) || Chance(e, Run(e, steps + more), id) ==> Chance(e, Run(e, steps), id)
  {
    hide Inv, Apply, Run, Chance, Resolved, Sound;
    if more == [] {
      assert steps + more == steps;
    } else {
      var init, last := more[..|more| - 1], more[|more| - 1];
      OnlyByChance(e, steps, init, id);
      assert steps + init + [last] == steps + more;
      OneMore(e, steps + init, last);
      var s := Run(e, steps + init);
      Reachable(e, steps + init);
      ClientForward(e, s, last, id);
      if !Resolved(s, id) {
        NoStepGivesChance(e, s, last, id);
        ResolvedByChance(e, s, last, id);
      }
    }
  }

  // In every reachable state, a call that waits can still be answered by some continuation exactly if
  // it has a chance; and then four steps are enough.
  lemma CompletesIff(e: Epoch, steps: seq<Step>, id: Id)
    requires Admissible(e) && Waits(Run(e, steps), id)
    ensures Chance(e, Run(e, steps), id) <==> exists more :: Resolved(Run(e, steps + more), id)
  {
    hide Inv, Run, Chance, Sound;
    if Chance(e, Run(e, steps), id) {
      var more := ChanceTaken(e, steps, id);
    }
    if more :| Resolved(Run(e, steps + more), id) {
      OnlyByChance(e, steps, more, id);
    }
  }
}
