// What crosses from one epoch to the next: a resumption keeps the session's id and key, the client's
// stream counters start again, and the server's session may or may not have lived on.
module RpcEpochs {
  import opened Common
  import opened Codec
  import opened ReplayWindows
  import opened Primitives
  import opened Rpc
  import opened RpcSystem
  import opened RpcSafety
  import opened RpcTheorems
  import opened RpcNonces
  import opened RpcCompletion

  // The client after _on_ack: a fresh TransportSession, and everything else as it was.
  function Renewed(c: Client): Client {
    c.(streams := map[])
  }

  // The call that a request on this stream becomes.
  function NextId(c: Client, stream: int): Id {
    Id(stream, if stream in c.streams then c.streams[stream].nextSeq else 0)
  }

  // ---------- a new request meets the session of the epoch before ----------

  // `c` is any client of the new epoch, `s` any state that the epoch before has ended in, its session
  // still in place. A nonce is used again exactly if the old epoch had drawn that number on that
  // stream. The server answers from the old cache exactly while it holds an entry under that number,
  // refuses the request exactly if the number is otherwise used up, and only else looks at it.
  lemma SecondEpochRequest(e: Epoch, steps: seq<Step>, c: Client, stream: int, verb: int, path: Text, body: Bytes, now: real)
    requires Admissible(e) && 0 <= verb <= MAX_VERB && path != []
    requires NumberedStream(c, stream) && Begin(e, c, stream, verb, path, body).1.Ok?
    requires HEADER_SIZE + |path| + |body| + TAG_SIZE <= MAX_PACKET_SIZE
    ensures var s := Run(e, steps);
            var id := NextId(c, stream);
            var key := ReqKey(stream, id.sequence + 1);
            var d := ServerSplit(Begin(e, c, stream, verb, path, body).1.value);
            && d.Ok?
            && var handled := HandleRequest(e, s.session, d.value.header, d.value.path, d.value.body, now);
               && ((exists was | was in s.client.calls :: Nonce(was.stream, was.sequence) == Nonce(id.stream, id.sequence))
                   <==> id in s.client.calls)
               && (handled.verdict.Resent? <==> key in s.session.cache)
               && (handled.verdict.Replayed? <==> key !in s.session.cache && Seen(WindowOf(s.session.windows, stream), id.sequence))
  {
    hide Inv, Run, RequestPacket, HandleRequest, ServerSplit, PackHeader, Nonce, Seen, Offer, SendResponse, NotFoundResponse, Sound;
    var s, id := Run(e, steps), NextId(c, stream);
    Reachable(e, steps);
    var call := BegunCall(e, c, stream, verb, path, body);
    var packet := Begin(e, c, stream, verb, path, body).1.value;
    RequestDelivered(e, id, call);
    HandleGenuine(e, s.session, id, call, packet, now);
    ValidWindows(e, s, stream);
    OfferEffect(WindowOf(s.session.windows, stream), id.sequence);
    OldNonces(e, s, id, call);
  }

  lemma BegunCall(e: Epoch, c: Client, stream: int, verb: int, path: Text, body: Bytes) returns (call: Call)
    requires NumberedStream(c, stream) && Begin(e, c, stream, verb, path, body).1.Ok?
    ensures var id := NextId(c, stream);
            var (c', packet) := Begin(e, c, stream, verb, path, body);
            && id.sequence >= 0 && call == Call(id.sequence + 1, verb, path, body)
            && |path| <= MAX_PATH_BYTES && RequestPacket(e, id, call) == packet
            && c'.windows == c.windows && c'.pending == c.pending[ReqKey(stream, id.sequence + 1) := id]
            && c'.outcomes == c.outcomes[id := Waiting]
  {
    hide RequestPacket;
    call := Call(NextId(c, stream).sequence + 1, verb, path, body);
  }

  lemma OldNonces(e: Epoch, s: System, id: Id, call: Call)
    requires Inv(e, s) && RequestPacket(e, id, call).Ok?
    ensures (exists was | was in s.client.calls :: Nonce(was.stream, was.sequence) == Nonce(id.stream, id.sequence)) <==> id in s.client.calls
  {
    hide Inv, Nonce;
    assert Packable(RequestHeader(e, id, call));
    forall was | was in s.client.calls
      ensures Nonce(was.stream, was.sequence) == Nonce(id.stream, id.sequence) ==> was == id
    {
      CallFits(e, s, was);
      NonceInjective(was.stream, was.sequence, id.stream, id.sequence);
    }
  }

  // The client after a request of the new epoch has met the old session and what that last sends has
  // come back.
  function Exchanged(e: Epoch, s: System, c: Client, stream: int, verb: int, path: Text, body: Bytes): Client {
    var (c1, packet) := Begin(e, c, stream, verb, path, body);
    if packet.Err? || ServerSplit(packet.value).Err? then c1
    else
      var d := ServerSplit(packet.value).value;
      var sent := HandleRequest(e, s.session, d.header, d.path, d.body, s.now).sent;
      if sent == [] then c1 else ClientReceive(e, c1, sent[|sent| - 1])
  }

  // An answer from the old cache is the response of the old epoch's call under that number, whatever
  // the new request asks; it resolves the new future exactly if the client's window, which outlives the
  // epoch, still takes the number.
  lemma StaleAnswerIff(e: Epoch, steps: seq<Step>, c: Client, stream: int, verb: int, path: Text, body: Bytes)
    requires Admissible(e) && 0 <= verb <= MAX_VERB && path != []
    requires NumberedStream(c, stream) && Begin(e, c, stream, verb, path, body).1.Ok? && Valid(WindowOf(c.windows, stream))
    requires HEADER_SIZE + |path| + |body| + TAG_SIZE <= MAX_PACKET_SIZE
    requires ReqKey(stream, NextId(c, stream).sequence + 1) in Run(e, steps).session.cache
    ensures var s, id := Run(e, steps), NextId(c, stream);
            var c' := Exchanged(e, s, c, stream, verb, path, body);
            && id in s.served && s.served[id].exec.Done? && id in c'.outcomes
            && c'.outcomes[id] == if Seen(WindowOf(c.windows, stream), id.sequence) then Waiting
                                  else Answered(Truncated(s.served[id].exec.response))
  {
    hide Inv, Run, Begin, RequestPacket, ServerSplit, HandleRequest, ClientReceive, Seen, Valid, IsReply, Truncated, Sound;
    var s, id := Run(e, steps), NextId(c, stream);
    Reachable(e, steps);
    var call := BegunCall(e, c, stream, verb, path, body);
    var (c1, packet) := Begin(e, c, stream, verb, path, body);
    RequestDelivered(e, id, call);
    FromCache(e, s.session, ServerSplit(packet.value).value, s.now);
    CachedReply(e, s, id);
    IsServed(e, s, id, s.session.cache[ReqKey(stream, id.sequence + 1)].packet);
    StaleReplyTaken(e, s, c1, id, s.session.cache[ReqKey(stream, id.sequence + 1)].packet);
  }

  lemma IsServed(e: Epoch, s: System, id: Id, packet: Bytes)
    requires Inv(e, s) && IsReply(e, s.served, id, packet)
    ensures id in s.served && s.served[id].exec.Done? && s.served[id].requestId == id.sequence + 1 && id.sequence >= 0
  {
    hide Inv, ReplyPacket;
    ServedNumbers(e, s, id);
    NumbersNonNegative(e, s, id);
  }

  lemma StaleReplyTaken(e: Epoch, s: System, c: Client, id: Id, packet: Bytes)
    requires Admissible(e) && IsReply(e, s.served, id, packet) && id in s.served && s.served[id].exec.Done?
    requires s.served[id].requestId == id.sequence + 1 && id.sequence >= 0 && Valid(WindowOf(c.windows, id.stream))
    requires ReqKey(id.stream, id.sequence + 1) in c.pending && c.pending[ReqKey(id.stream, id.sequence + 1)] == id
    requires id in c.outcomes && c.outcomes[id] == Waiting
    ensures var c' := ClientReceive(e, c, packet);
            && id in c'.outcomes
            && c'.outcomes[id] == if Seen(WindowOf(c.windows, id.stream), id.sequence) then Waiting
                                  else Answered(Truncated(s.served[id].exec.response))
  {
    hide ClientSplit, OpenReply, Offer, Seen, Valid, IsReply, Truncated, Sound;
    ReplyRead(e, s, id, packet);
    OfferEffect(WindowOf(c.windows, id.stream), id.sequence);
  }

  // A case of it: GET / has been answered, but the answer has not arrived, when the client resumes and
  // asks for GET / with another body. The new future gets the old answer.
  lemma StaleAnswerExample(e: Epoch) returns (steps: seq<Step>)
    requires Admissible(e) && Fits(e.sessionId, 8) && e.maxStreams > 0
    ensures var s := Run(e, steps);
            var id := Id(0, 0);
            && id in s.client.calls && s.client.calls[id] == FirstCall() && FirstCall().body == []
            && id in s.served && s.served[id].exec.Done?
            && var c := Exchanged(e, s, Renewed(s.client), 0, FirstCall().verb, FirstCall().path, [1]);
               id in c.outcomes && c.outcomes[id] == Answered(Truncated(s.served[id].exec.response))
  {
    hide Inv, Run, Begin, Exchanged, RequestPacket, ReplyPacket, Sealed, Shared, Seen, Valid, Truncated, Sound;
    steps := SharedNonceRun(e);
    var s := Run(e, steps);
    SecondCallSent(e, s.client);
    EmptyIsValid();
    NothingSeen();
    StaleAnswerIff(e, steps, Renewed(s.client), 0, FirstCall().verb, FirstCall().path, [1]);
  }

  // The new epoch's first request on stream 0 encodes and fits a datagram.
  lemma SecondCallSent(e: Epoch, c: Client)
    requires Fits(e.sessionId, 8) && e.maxStreams > 0
    ensures Begin(e, Renewed(c), 0, FirstCall().verb, FirstCall().path, [1]).1.Ok? && |FirstCall().path| == 1
    ensures 0 <= FirstCall().verb <= MAX_VERB && NumberedStream(Renewed(c), 0) && NextId(Renewed(c), 0) == Id(0, 0)
  {
    hide PackHeader, Nonce;
    FieldWidths();
    assert Packable(RequestHeader(e, Id(0, 0), Call(1, FirstCall().verb, FirstCall().path, [1])));
  }

  lemma NothingSeen()
    ensures !Seen(WindowOf(map[], 0), 0)
  {
  }

  lemma FromCache(e: Epoch, s: Session, d: Datagram, now: real)
    ensures var handled := HandleRequest(e, s, d.header, d.path, d.body, now);
            var key := ReqKey(d.header.streamId, d.header.requestId);
            key in s.cache ==> handled == Handled(s, [s.cache[key].packet], Resent)
  {
    hide Offer, OpenRequest, SendResponse, PackHeader, NotFoundResponse;
  }

  // ---------- an old request meets a session rebuilt from a ticket ----------

  // At-most-once execution is per server session: a genuine request, from whatever epoch under this id
  // and key, is executed by any session that neither caches its reply nor has its number used up. A
  // session rebuilt from a ticket has neither, so it executes again whatever is still in the network.
  lemma ExecutedIff(e: Epoch, steps: seq<Step>, id: Id, data: Bytes, session: Session, now: real)
    requires Admissible(e) && IsRequest(e, Run(e, steps).client, id, data) && ServerSplit(data).Ok?
    requires Valid(WindowOf(session.windows, id.stream))
    ensures var c := Run(e, steps).client.calls[id];
            var d := ServerSplit(data).value;
            var verdict := HandleRequest(e, session, d.header, d.path, d.body, now).verdict;
            && (verdict.Started? || verdict.NotFound? <==>
                && ReqKey(id.stream, id.sequence + 1) !in session.cache
                && !Seen(WindowOf(session.windows, id.stream), id.sequence) && c.path != [])
            && (verdict.Started? || verdict.NotFound? ==> verdict.body == c.body)
  {
    hide Inv, Run, RequestPacket, HandleRequest, ServerSplit, PackHeader, Offer, Seen, Valid, SendResponse, NotFoundResponse, Sound;
    var s := Run(e, steps);
    Reachable(e, steps);
    CallNumbers(e, s, id);
    NumbersNonNegative(e, s, id);
    HandleGenuine(e, session, id, s.client.calls[id], data, now);
    OfferEffect(WindowOf(session.windows, id.stream), id.sequence);
  }

  lemma NumbersNonNegative(e: Epoch, s: System, id: Id)
    requires Inv(e, s) && id in s.client.calls
    ensures id.sequence >= 0
  {
    hide ServerInv, CacheInv, Network, AnswerInv, StartedOnce, RequestPacket;
    assert NumberedCall(e, s.client, id);
  }

  lemma RebuiltSessionRunsAgain(e: Epoch, steps: seq<Step>, id: Id, data: Bytes, now: real)
    requires Admissible(e) && IsRequest(e, Run(e, steps).client, id, data) && ServerSplit(data).Ok?
    requires Run(e, steps).client.calls[id].path != []
    ensures var d := ServerSplit(data).value;
            var verdict := HandleRequest(e, NEW_SESSION, d.header, d.path, d.body, now).verdict;
            (verdict.Started? || verdict.NotFound?) && verdict.body == Run(e, steps).client.calls[id].body
  {
    hide Run, RequestPacket, HandleRequest, ServerSplit, Sound;
    EmptyIsValid();
    NeverSeen(e, steps, id);
    ExecutedIff(e, steps, id, data, NEW_SESSION, now);
  }

  lemma NeverSeen(e: Epoch, steps: seq<Step>, id: Id)
    requires Admissible(e) && id in Run(e, steps).client.calls
    ensures !Seen(EMPTY, id.sequence)
  {
    hide Inv, Run, Sound;
    Reachable(e, steps);
    NumbersNonNegative(e, Run(e, steps), id);
  }
}
