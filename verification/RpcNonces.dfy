// Every encryption of an epoch, in order, and exactly when two of them share a nonce.
module RpcNonces {
  import opened Common
  import opened Codec
  import opened ReplayWindows
  import opened Primitives
  import opened Rpc
  import opened RpcSystem
  import opened RpcSafety
  import opened RpcTheorems

  // One call of encrypt: which end made it, for which call, and its arguments.
  datatype Seal = Seal(reply: bool, id: Id, nonce: Bytes, aad: Bytes, plain: Bytes)

  function RequestSeal(e: Epoch, id: Id, c: Call): Seal
    requires RequestPacket(e, id, c).Ok?
  {
    Seal(false, id, Nonce(id.stream, id.sequence), PackHeader(RequestHeader(e, id, c)).value + c.path, c.body)
  }

  function ReplySeal(e: Epoch, id: Id, requestId: int, r: Response): Seal
    requires ReplyPacket(e, id, requestId, r).Ok?
  {
    var plain := EncodeBodyPlain(r).value;
    Seal(true, id, Nonce(id.stream, id.sequence), PackHeader(ReplyHeader(e, id, requestId, |plain| + TAG_SIZE)).value, plain)
  }

  // A packet is its associated data followed by what that one encryption gives.
  lemma SealsMakePackets(e: Epoch, id: Id, c: Call, requestId: int, r: Response)
    ensures RequestPacket(e, id, c).Ok? ==>
              var seal := RequestSeal(e, id, c);
              RequestPacket(e, id, c).value == seal.aad + e.aead.encrypt(e.key, seal.nonce, seal.plain, seal.aad)
    ensures ReplyPacket(e, id, requestId, r).Ok? ==>
              var seal := ReplySeal(e, id, requestId, r);
              ReplyPacket(e, id, requestId, r).value == seal.aad + e.aead.encrypt(e.key, seal.nonce, seal.plain, seal.aad)
  {
    hide PackHeader, EncodeBodyPlain, Nonce;
  }

  function IfBuilt(e: Epoch, id: Id, requestId: int, r: Response): seq<Seal> {
    if ReplyPacket(e, id, requestId, r).Ok? then [ReplySeal(e, id, requestId, r)] else []
  }

  // What a step encrypts: request() once, before its first send; the server for a 404 and when a
  // handler ends. A retransmission and an answer from the cache encrypt nothing.
  function SealsOf(e: Epoch, s: System, step: Step): seq<Seal> {
    match step
    case Request(stream, verb, path, body) =>
      var st := if stream in s.client.streams then s.client.streams[stream] else Stream(1, 0);
      var id := Id(stream, st.nextSeq);
      var call := Call(st.nextRequestId, verb, path, body);
      if 0 <= verb <= MAX_VERB && Begin(e, s.client, stream, verb, path, body).1.Ok? && RequestPacket(e, id, call).Ok? then
        [RequestSeal(e, id, call)]
      else []
    case DeliverToServer(data) =>
      var d := ServerSplit(data);
      if data !in s.toServer || !s.live || d.Err? || d.value.header.msgType != MSG_REQUEST || d.value.header.sessionId != e.sessionId then []
      else
        var h := d.value.header;
        var handled := HandleRequest(e, s.session, h, d.value.path, d.value.body, s.now);
        if handled.verdict.NotFound? then IfBuilt(e, Id(h.streamId, h.sequence), h.requestId, NotFoundResponse()) else []
    case Finish(task, response) =>
      if task in s.served && s.served[task].exec == Running then IfBuilt(e, task, s.served[task].requestId, response) else []
    case _ => []
  }

  // All encryptions of a run, in order.
  function Sealed(e: Epoch, steps: seq<Step>): seq<Seal> {
    if steps == [] then []
    else
      var before := steps[..|steps| - 1];
      Sealed(e, before) + SealsOf(e, Run(e, before), steps[|steps| - 1])
  }

  // ---------- the history is what the state says ----------

  // The server has built a response packet for the call.
  predicate Replied(e: Epoch, s: System, id: Id) {
    id in s.served && s.served[id].exec.Done? && ReplyPacket(e, id, s.served[id].requestId, s.served[id].exec.response).Ok?
  }

  predicate IsSeal(e: Epoch, s: System, seal: Seal) {
    if seal.reply then
      Replied(e, s, seal.id) && seal == ReplySeal(e, seal.id, s.served[seal.id].requestId, s.served[seal.id].exec.response)
    else
      && seal.id in s.client.calls && RequestPacket(e, seal.id, s.client.calls[seal.id]).Ok?
      && seal == RequestSeal(e, seal.id, s.client.calls[seal.id])
  }

  predicate Listed(h: seq<Seal>, reply: bool, id: Id) {
    exists i | 0 <= i < |h| :: h[i].reply == reply && h[i].id == id
  }

  ghost predicate SealInv(e: Epoch, s: System, h: seq<Seal>) {
    && (forall i | 0 <= i < |h| :: IsSeal(e, s, h[i]))
    && (forall i, j | 0 <= i < j < |h| :: h[i].reply != h[j].reply || h[i].id != h[j].id)
    && (forall id | id in s.client.calls :: Listed(h, false, id))
    && (forall id {:trigger Replied(e, s, id)} :: Replied(e, s, id) ==> Listed(h, true, id))
  }

  // What was sealed stays as it was.
  predicate Kept(s: System, s': System) {
    && (forall id | id in s.client.calls :: id in s'.client.calls && s'.client.calls[id] == s.client.calls[id])
    && (forall id | id in s.served && s.served[id].exec.Done? :: id in s'.served && s'.served[id] == s.served[id])
  }

  // At most one encryption, for a packet that was not there before.
  ghost predicate Adds(e: Epoch, s: System, s': System, more: seq<Seal>) {
    && |more| <= 1
    && (forall x | x in more :: IsSeal(e, s', x) && if x.reply then !Replied(e, s, x.id) else x.id !in s.client.calls)
    && (forall id | id in s'.client.calls :: id in s.client.calls || Listed(more, false, id))
    && (forall id {:trigger Replied(e, s', id)} :: Replied(e, s', id) ==> Replied(e, s, id) || Listed(more, true, id))
  }

  lemma SealsKept(e: Epoch, s: System, s': System, h: seq<Seal>, more: seq<Seal>)
    requires SealInv(e, s, h) && Kept(s, s') && Adds(e, s, s', more)
    ensures SealInv(e, s', h + more)
  {
    hide RequestPacket, ReplyPacket, RequestSeal, ReplySeal;
    var h' := h + more;
    forall i | 0 <= i < |h'| ensures IsSeal(e, s', h'[i]) {
      if i < |h| {
        assert IsSeal(e, s, h[i]);
      } else {
        assert h'[i] in more;
      }
    }
    forall i, j | 0 <= i < j < |h'| ensures h'[i].reply != h'[j].reply || h'[i].id != h'[j].id {
      assert IsSeal(e, s, h[i]);
      if j >= |h| {
        assert h'[j] in more;
      }
    }
    forall id | id in s'.client.calls ensures Listed(h', false, id) {
      ListedGrows(h, more, false, id);
    }
    forall id | Replied(e, s', id) ensures Listed(h', true, id) {
      ListedGrows(h, more, true, id);
    }
  }

  lemma ListedGrows(h: seq<Seal>, more: seq<Seal>, reply: bool, id: Id)
    ensures Listed(h, reply, id) || Listed(more, reply, id) ==> Listed(h + more, reply, id)
  {
    if i :| 0 <= i < |h| && h[i].reply == reply && h[i].id == id {
      assert (h + more)[i] == h[i];
    }
    if i :| 0 <= i < |more| && more[i].reply == reply && more[i].id == id {
      assert (h + more)[|h| + i] == more[i];
    }
  }

  // ---------- every step ----------

  lemma NothingSealed(e: Epoch, s: System, s': System)
    requires s'.client.calls == s.client.calls && Kept(s, s')
    requires forall id | id in s'.served && s'.served[id].exec.Done? :: id in s.served && s'.served[id] == s.served[id]
    ensures Adds(e, s, s', [])
  {
    hide ReplyPacket;
  }

  lemma SameCalls(e: Epoch, s: System, s': System)
    requires s'.client.calls == s.client.calls && s'.served == s.served
    ensures Kept(s, s') && Adds(e, s, s', [])
  {
    hide Adds;
    NothingSealed(e, s, s');
  }

  lemma CallSealed(e: Epoch, s: System, s': System, id: Id, c: Call)
    requires id !in s.client.calls && s'.client.calls == s.client.calls[id := c] && s'.served == s.served
    requires RequestPacket(e, id, c).Ok?
    ensures Kept(s, s') && Adds(e, s, s', [RequestSeal(e, id, c)])
  {
    hide RequestPacket, ReplyPacket, ReplySeal;
    var more := [RequestSeal(e, id, c)];
    assert !more[0].reply && more[0].id == id;
    assert Listed(more, false, id);
  }

  lemma RequestSeals(e: Epoch, s: System, stream: int, verb: int, path: Text, body: Bytes)
    requires Inv(e, s)
    ensures var step := Request(stream, verb, path, body);
            var s' := Apply(e, s, step);
            Kept(s, s') && Adds(e, s, s', SealsOf(e, s, step))
  {
    hide RequestPacket, RequestSeal, Inv, Kept, Adds, ServerReceive, ClientReceive, FinishTask, Sweep, GiveUp, ServerSplit, HandleRequest,
         IfBuilt, NotFoundResponse;
    var step := Request(stream, verb, path, body);
    var s' := Apply(e, s, step);
    var st := if stream in s.client.streams then s.client.streams[stream] else Stream(1, 0);
    NewNumber(e, s, stream);
    if SealsOf(e, s, step) == [] {
      SameCalls(e, s, s');
    } else {
      CallSealed(e, s, s', Id(stream, st.nextSeq), Call(st.nextRequestId, verb, path, body));
    }
  }

  lemma OneReplySeal(e: Epoch, id: Id, requestId: int, r: Response)
    ensures var more := IfBuilt(e, id, requestId, r);
            if ReplyPacket(e, id, requestId, r).Ok? then
              more == [ReplySeal(e, id, requestId, r)] && Listed(more, true, id) && more[0].reply && more[0].id == id
            else more == []
  {
    hide ReplyPacket;
    if ReplyPacket(e, id, requestId, r).Ok? {
      var more := IfBuilt(e, id, requestId, r);
      assert more[0].reply && more[0].id == id;
    }
  }

  // The number that a stream draws next belongs to no call.
  lemma NewNumber(e: Epoch, s: System, stream: int)
    requires Inv(e, s)
    ensures Id(stream, if stream in s.client.streams then s.client.streams[stream].nextSeq else 0) !in s.client.calls
  {
    hide ServerInv, CacheInv, Network, AnswerInv, StartedOnce, RequestPacket;
    assert NumberedCall(e, s.client, Id(stream, if stream in s.client.streams then s.client.streams[stream].nextSeq else 0));
  }

  lemma FinishSeals(e: Epoch, s: System, task: Id, r: Response)
    ensures var step := Finish(task, r);
            var s' := Apply(e, s, step);
            Kept(s, s') && Adds(e, s, s', SealsOf(e, s, step))
  {
    hide Kept, Adds, IfBuilt, Begin, ServerReceive, ClientReceive, Sweep, GiveUp, SendResponse, HandleRequest, ServerSplit, RequestPacket,
         RequestSeal, NotFoundResponse;
    var step := Finish(task, r);
    var s' := Apply(e, s, step);
    if task in s.served && s.served[task].exec == Running {
      assert s'.client == s.client && s'.served == s.served[task := s.served[task].(exec := Done(r))];
      TaskSeals(e, s, s', task, r);
    } else {
      SameCalls(e, s, s');
    }
  }

  lemma TaskSeals(e: Epoch, s: System, s': System, task: Id, r: Response)
    requires task in s.served && s.served[task].exec == Running
    requires s'.client == s.client && s'.served == s.served[task := s.served[task].(exec := Done(r))]
    ensures Kept(s, s') && Adds(e, s, s', IfBuilt(e, task, s.served[task].requestId, r))
  {
    hide Adds, IfBuilt;
    SealsFinished(e, s, s', task, r);
  }

  // The execution of one call ends, and its reply is built if it can be.
  lemma SealsFinished(e: Epoch, s: System, s': System, id: Id, r: Response)
    requires s'.client.calls == s.client.calls && id in s'.served
    requires id in s.served ==> !s.served[id].exec.Done?
    requires s'.served == s.served[id := s'.served[id]] && s'.served[id].exec == Done(r)
    ensures Adds(e, s, s', IfBuilt(e, id, s'.served[id].requestId, r))
  {
    hide ReplyPacket, ReplySeal, IfBuilt;
    OneReplySeal(e, id, s'.served[id].requestId, r);
    forall other | Replied(e, s', other) ensures Replied(e, s, other) || Listed(IfBuilt(e, id, s'.served[id].requestId, r), true, other) {
    }
  }

  // A REQUEST datagram: encryption happens for a 404 only, and only for a call not served before.
  lemma DeliverySeals(e: Epoch, s: System, data: Bytes)
    requires Admissible(e) && Inv(e, s)
    ensures var step := DeliverToServer(data);
            var s' := Apply(e, s, step);
            Kept(s, s') && Adds(e, s, s', SealsOf(e, s, step))
  {
    hide Inv, Kept, Adds, IfBuilt, Handle, Begin, ClientReceive, FinishTask, Sweep, GiveUp, ServerSplit, HandleRequest, GenuineOutcome,
         RequestPacket, NotFoundResponse, Sound;
    var step := DeliverToServer(data);
    var s' := Apply(e, s, step);
    if data in s.toServer && s.live && ServerSplit(data).Ok? {
      var id := ClientSent(e, s, data);
      var c := s.client.calls[id];
      CallNumbers(e, s, id);
      HandleGenuine(e, s.session, id, c, data, s.now);
      NotServedBefore(e, s, id);
      HandledSeals(e, s, id, c, GenuineOutcome(e, s.session, id, c, s.now));
    } else {
      SameCalls(e, s, s');
    }
  }

  lemma HandledSeals(e: Epoch, s: System, id: Id, c: Call, handled: Handled)
    requires handled.verdict.NotFound? || handled.verdict.Started? ==> id !in s.served
    ensures var s' := Handle(s, id, c.requestId, c.verb, c.path, handled);
            Kept(s, s') && Adds(e, s, s', if handled.verdict.NotFound? then IfBuilt(e, id, c.requestId, NotFoundResponse()) else [])
  {
    hide Adds, IfBuilt, NotFoundResponse;
    var s' := Handle(s, id, c.requestId, c.verb, c.path, handled);
    if handled.verdict.NotFound? {
      SealsFinished(e, s, s', id, NotFoundResponse());
    } else {
      NothingSealed(e, s, s');
    }
  }

  lemma ClientSent(e: Epoch, s: System, data: Bytes) returns (id: Id)
    requires Inv(e, s) && data in s.toServer
    ensures IsRequest(e, s.client, id, data)
  {
    hide ClientInv, ServerInv, CacheInv, AnswerInv, StartedOnce, RequestPacket, FromServer;
    assert FromClient(e, s.client, data);
    id :| IsRequest(e, s.client, id, data);
  }

  lemma CallNumbers(e: Epoch, s: System, id: Id)
    requires Inv(e, s) && id in s.client.calls
    ensures |s.client.calls[id].path| <= MAX_PATH_BYTES && 0 <= s.client.calls[id].verb <= MAX_VERB
    ensures s.client.calls[id].requestId == id.sequence + 1 && RequestPacket(e, id, s.client.calls[id]).Ok?
  {
    hide ServerInv, CacheInv, Network, AnswerInv, StartedOnce, RequestPacket;
    assert NumberedCall(e, s.client, id);
  }

  // Acceptance means that the call was not served before.
  lemma NotServedBefore(e: Epoch, s: System, id: Id)
    requires Inv(e, s) && id in s.client.calls
    requires PackHeader(FrameAckHeader(e, id, s.client.calls[id].requestId)).Ok?
    ensures var verdict := GenuineOutcome(e, s.session, id, s.client.calls[id], s.now).verdict;
            verdict.NotFound? || verdict.Started? ==> id !in s.served
  {
    hide Inv, PackHeader, Offer, SendResponse, NotFoundResponse;
    if id in s.served {
      RefusedIfServed(e, s, id);
    }
  }

  lemma EveryStepSeals(e: Epoch, s: System, step: Step)
    requires Admissible(e) && Inv(e, s)
    ensures Kept(s, Apply(e, s, step)) && Adds(e, s, Apply(e, s, step), SealsOf(e, s, step))
  {
    hide Inv, Adds, SealsOf, Sound;
    match step
    case Request(stream, verb, path, body) => RequestSeals(e, s, stream, verb, path, body);
    case DeliverToServer(data) => DeliverySeals(e, s, data);
    case Finish(task, response) => FinishSeals(e, s, task, response);
    case _ => OtherSeals(e, s, step);
  }

  lemma OtherSeals(e: Epoch, s: System, step: Step)
    requires !step.Request? && !step.DeliverToServer? && !step.Finish?
    ensures Kept(s, Apply(e, s, step)) && Adds(e, s, Apply(e, s, step), SealsOf(e, s, step))
  {
    hide Kept, Adds, SealsOf, Begin, ServerReceive, ClientReceive, FinishTask, Sweep, GiveUp, RequestPacket;
    CallsStay(e, s.client, step);
    OtherEncryptsNothing(e, s, step);
    SameCalls(e, s, Apply(e, s, step));
  }

  lemma OtherEncryptsNothing(e: Epoch, s: System, step: Step)
    requires !step.Request? && !step.DeliverToServer? && !step.Finish?
    ensures SealsOf(e, s, step) == []
  {
    hide Begin, ServerSplit, HandleRequest, IfBuilt, RequestPacket, RequestSeal, NotFoundResponse;
  }

  lemma CallsStay(e: Epoch, c: Client, step: Step)
    ensures step.DeliverToClient? ==> ClientReceive(e, c, step.data).calls == c.calls
    ensures step.Timeout? ==> GiveUp(c, step.id).calls == c.calls
  {
    hide ClientSplit, Offer, OpenReply;
  }

  lemma {:induction false} SealedIsState(e: Epoch, steps: seq<Step>)
    requires Admissible(e)
    ensures SealInv(e, Run(e, steps), Sealed(e, steps))
  {
    hide Inv, Apply, Kept, Adds, SealsOf, Sound;
    if steps != [] {
      hide SealInv;
      var before := steps[..|steps| - 1];
      var s := Run(e, before);
      SealedIsState(e, before);
      Reachable(e, before);
      EveryStepSeals(e, s, steps[|steps| - 1]);
      SealsKept(e, s, Apply(e, s, steps[|steps| - 1]), Sealed(e, before), SealsOf(e, s, steps[|steps| - 1]));
    }
  }

  // ---------- nonces ----------

  // Two encryptions of a run share a nonce exactly if they are the request and the reply of one call:
  // no two requests do, and no two replies.
  lemma NonceSharedIff(e: Epoch, steps: seq<Step>, i: nat, j: nat)
    requires Admissible(e) && i < j < |Sealed(e, steps)|
    ensures var h := Sealed(e, steps);
            h[i].nonce == h[j].nonce <==> h[i].id == h[j].id && h[i].reply != h[j].reply
  {
    hide Inv, Run, Sealed, Nonce, Replied, RequestPacket, ReplyPacket, Sound;
    var s, h := Run(e, steps), Sealed(e, steps);
    Reachable(e, steps);
    SealedIsState(e, steps);
    SealOfCall(e, s, h[i]);
    SealOfCall(e, s, h[j]);
    NoncesDiffer(e, steps, h[i].id, h[j].id);
  }

  lemma SealOfCall(e: Epoch, s: System, seal: Seal)
    requires Inv(e, s) && IsSeal(e, s, seal)
    ensures seal.id in s.client.calls && seal.nonce == Nonce(seal.id.stream, seal.id.sequence)
  {
    hide ClientInv, CacheInv, Network, AnswerInv, StartedOnce, RequestPacket, ReplyPacket, PackHeader, EncodeBodyPlain, Nonce, Seen;
    assert ServedCall(s.client, s.session.windows, s.served, seal.id);
  }

  predicate Shared(h: seq<Seal>, nonce: Bytes) {
    exists i, j | 0 <= i < j < |h| :: h[i].nonce == nonce && h[j].nonce == nonce
  }

  // A call's nonce is used twice exactly if the server has built its response packet.
  lemma NonceUsedTwiceIff(e: Epoch, steps: seq<Step>, id: Id)
    requires Admissible(e) && id in Run(e, steps).client.calls
    ensures Shared(Sealed(e, steps), Nonce(id.stream, id.sequence)) <==> Replied(e, Run(e, steps), id)
  {
    hide Inv, Run, Sealed, Nonce, Replied, RequestPacket, ReplyPacket, RequestSeal, ReplySeal, Kept, Adds, Sound;
    var s, h := Run(e, steps), Sealed(e, steps);
    Reachable(e, steps);
    SealedIsState(e, steps);
    if i, j :| 0 <= i < j < |h| && h[i].nonce == Nonce(id.stream, id.sequence) && h[j].nonce == Nonce(id.stream, id.sequence) {
      NonceSharedIff(e, steps, i, j);
      SealOfCall(e, s, h[i]);
      NoncesDiffer(e, steps, h[i].id, id);
      assert IsSeal(e, s, h[i]) && IsSeal(e, s, h[j]);
    }
    if Replied(e, s, id) {
      assert Listed(h, false, id) && Listed(h, true, id);
      var i :| 0 <= i < |h| && !h[i].reply && h[i].id == id;
      var j :| 0 <= j < |h| && h[j].reply && h[j].id == id;
      SealOfCall(e, s, h[i]);
      SealOfCall(e, s, h[j]);
      assert if i < j then h[i].nonce == h[j].nonce == Nonce(id.stream, id.sequence) else h[j].nonce == h[i].nonce == Nonce(id.stream, id.sequence);
    }
  }

  // ---------- one run in which it happens ----------

  // GET / without a body, the first call of an epoch.
  function FirstCall(): Call {
    Call(1, 1, AsciiText([0x2F]), [])
  }

  lemma FirstCallSent(e: Epoch)
    requires Fits(e.sessionId, 8) && e.maxStreams > 0
    ensures var s := Apply(e, INITIAL, Request(0, FirstCall().verb, FirstCall().path, FirstCall().body));
            var packet := RequestPacket(e, Id(0, 0), FirstCall());
            && packet.Ok? && Answerable(s, Id(0, 0)) && packet.value in s.toServer && s.client.calls == map[Id(0, 0) := FirstCall()]
            && s.client.windows == map[]
  {
    hide PackHeader, Nonce, ServerReceive, ClientReceive, FinishTask, Sweep, GiveUp;
    FieldWidths();
    assert Packable(RequestHeader(e, Id(0, 0), FirstCall()));
  }

  // A run that ends with a request and its response both in the network, under one nonce; the response
  // is cached, and the client has not taken anything yet.
  lemma SharedNonceRun(e: Epoch) returns (steps: seq<Step>)
    requires Admissible(e) && Fits(e.sessionId, 8) && e.maxStreams > 0
    ensures var s := Run(e, steps);
            var id := Id(0, 0);
            && s.client.calls == map[id := FirstCall()]
            && RequestPacket(e, id, FirstCall()).Ok? && RequestPacket(e, id, FirstCall()).value in s.toServer
            && Replied(e, s, id) && ReplyPacket(e, id, s.served[id].requestId, s.served[id].exec.response).value in s.toClient
            && Shared(Sealed(e, steps), Nonce(id.stream, id.sequence))
            && ReqKey(0, 1) in s.session.cache && s.client.windows == map[]
  {
    var id, packet := Id(0, 0), RequestPacket(e, Id(0, 0), FirstCall()).value;
    var first := Request(0, FirstCall().verb, FirstCall().path, FirstCall().body);
    assert Run(e, []) == INITIAL;
    hide Inv, Apply, Run, Answerable, UnderWay, RequestPacket, ReplyPacket, Replied, Sealed, Shared, Nonce, FirstCall, NotFoundResponse, Sound;
    FirstCallSent(e);
    OneMore(e, [], first);
    steps := [] + [first];
    Reachable(e, steps);
    DeliveredInPlace(e, Run(e, steps), id, packet);
    OneMore(e, steps, DeliverToServer(packet));
    steps := steps + [DeliverToServer(packet)];
    Reachable(e, steps);
    if !Run(e, steps).served[id].exec.Done? {
      EndedInPlace(e, Run(e, steps), id);
      OneMore(e, steps, Finish(id, NotFoundResponse()));
      steps := steps + [Finish(id, NotFoundResponse())];
    }
    AnsweredInPlace(e, Run(e, steps), id);
    NonceUsedTwiceIff(e, steps, id);
  }

  lemma DeliveredInPlace(e: Epoch, s: System, id: Id, packet: Bytes)
    requires Admissible(e) && Inv(e, s) && Answerable(s, id)
    requires packet in s.toServer && RequestPacket(e, id, s.client.calls[id]) == Ok(packet)
    ensures var s' := Apply(e, s, DeliverToServer(packet));
            && UnderWay(e, s', id) && id in s'.served
            && s'.toServer == s.toServer && s'.client == s.client
            && (s'.served[id].exec.Done? ==> ReqKey(id.stream, id.sequence + 1) in s'.session.cache)
  {
    hide Inv, Answerable, UnderWay, RequestPacket, HandleRequest, Handle, GenuineOutcome, ServerSplit, Begin, ClientReceive, FinishTask,
         Sweep, GiveUp, Sound;
    DeliveredUnderWay(e, s, id, packet);
    AnswerableFits(s, id);
    CallNumbers(e, s, id);
    RequestDelivered(e, id, s.client.calls[id]);
    HandleGenuine(e, s.session, id, s.client.calls[id], packet, s.now);
    DoneIsCached(e, s, id);
  }

  lemma DeliveredUnderWay(e: Epoch, s: System, id: Id, packet: Bytes)
    requires Admissible(e) && Inv(e, s) && Answerable(s, id)
    requires packet in s.toServer && RequestPacket(e, id, s.client.calls[id]) == Ok(packet)
    ensures UnderWay(e, Apply(e, s, DeliverToServer(packet)), id) && id in Apply(e, s, DeliverToServer(packet)).served
  {
    hide ClientInv, ServerInv, CacheInv, Network, AnswerInv, StartedOnce, Answerable, RequestPacket, ReplyPacket, Apply, Sound;
    DeliveredRequest(e, s, id, packet);
  }

  lemma AnswerableFits(s: System, id: Id)
    requires Answerable(s, id)
    ensures id in s.client.calls && s.live
    ensures HEADER_SIZE + |s.client.calls[id].path| + |s.client.calls[id].body| + TAG_SIZE <= MAX_PACKET_SIZE
    ensures id in s.served && s.served[id].exec.Done? ==> ReqKey(id.stream, id.sequence + 1) in s.session.cache
  {
  }

  lemma DoneIsCached(e: Epoch, s: System, id: Id)
    requires Inv(e, s) && id in s.client.calls && s.client.calls[id].requestId == id.sequence + 1
    requires PackHeader(FrameAckHeader(e, id, s.client.calls[id].requestId)).Ok?
    requires id in s.served && s.served[id].exec.Done? ==> ReqKey(id.stream, id.sequence + 1) in s.session.cache
    ensures var c := s.client.calls[id];
            var s' := Handle(s, id, c.requestId, c.verb, c.path, GenuineOutcome(e, s.session, id, c, s.now));
            && s'.toServer == s.toServer && s'.client == s.client
            && (id in s'.served && s'.served[id].exec.Done? ==> ReqKey(id.stream, id.sequence + 1) in s'.session.cache)
  {
    hide Inv, Offer, SendResponse, NotFoundResponse, PackHeader, ReplyPacket;
    var c := s.client.calls[id];
    var window := Offer(WindowOf(s.session.windows, id.stream), id.sequence).0;
    ReplyFits(e, s, id);
    SendResponseEffect(e, s.session.(windows := s.session.windows[id.stream := window]), id, c.requestId, NotFoundResponse(), s.now);
  }

  lemma EndedInPlace(e: Epoch, s: System, id: Id)
    requires Inv(e, s) && UnderWay(e, s, id) && id in s.served && !s.served[id].exec.Done?
    ensures var s' := Apply(e, s, Finish(id, NotFoundResponse()));
            && UnderWay(e, s', id) && id in s'.served && s'.served[id].exec.Done?
            && s'.toServer == s.toServer && s'.client == s.client
            && ReqKey(id.stream, id.sequence + 1) in s'.session.cache
  {
    hide Inv, RequestPacket, ReplyPacket, Begin, ServerReceive, ClientReceive, Sweep, GiveUp, SendResponse, NotFoundResponse;
    ReplyFits(e, s, id);
    FinishUnderWay(e, s, id, NotFoundResponse());
    UnderWayIsRunning(e, s, id);
    SendResponseEffect(e, s.session, id, s.served[id].requestId, NotFoundResponse(), s.now);
  }

  lemma UnderWayIsRunning(e: Epoch, s: System, id: Id)
    requires Inv(e, s) && id in s.served && !s.served[id].exec.Done?
    ensures s.served[id].exec == Running && s.served[id].requestId == id.sequence + 1
  {
    hide CacheInv, Network, AnswerInv, StartedOnce, RequestPacket, Seen;
    CallOfServed(e, s, id);
    assert ServedCall(s.client, s.session.windows, s.served, id);
  }

  // The fixed 404 answer fits wherever the request did.
  lemma ReplyFits(e: Epoch, s: System, id: Id)
    requires Inv(e, s) && id in s.client.calls
    ensures ReplyPacket(e, id, id.sequence + 1, NotFoundResponse()).Ok?
  {
    hide Inv, PackHeader, EncodeBodyPlain, Nonce, NotFoundResponse;
    FieldWidths();
    CallNumbers(e, s, id);
    assert Packable(RequestHeader(e, id, s.client.calls[id]));
    assert Packable(FrameAckHeader(e, id, id.sequence + 1));
    NotFoundFits(e, id, id.sequence + 1);
  }

  lemma AnsweredInPlace(e: Epoch, s: System, id: Id)
    requires UnderWay(e, s, id) && id in s.served && s.served[id].exec.Done?
    ensures Replied(e, s, id) && ReplyPacket(e, id, s.served[id].requestId, s.served[id].exec.response).value in s.toClient
  {
    hide ReplyPacket;
  }
}
