// The invariant holds in every reachable state, and every step refines the abstract service.
module RpcSafety {
  import opened Common
  import opened Codec
  import opened ReplayWindows
  import opened Primitives
  import opened Rpc
  import opened RpcSystem

  // ---------- windows ----------

  // Accepting a number marks it, revives none, and forgets none.
  lemma OfferEffect(w: Window, n: int)
    requires Valid(w)
    ensures var (w', ok) := Offer(w, n);
            && Valid(w')
            && (ok <==> n >= 0 && !Seen(w, n))
            && (!ok ==> w' == w)
            && (ok ==> w'.highest == (if w.highest < n then n else w.highest) && Seen(w', n))
            && (forall m {:trigger Marked(w', m)} :: Marked(w', m) ==> (ok && m == n) || Marked(w, m))
            && (forall m {:trigger Seen(w', m)} :: Seen(w, m) ==> Seen(w', m))
  {
    OfferStep(w, n, n);
    forall m
      ensures var (w', ok) := Offer(w, n);
              (Marked(w', m) ==> (ok && m == n) || Marked(w, m)) && (Seen(w, m) ==> Seen(w', m))
    {
      OfferStep(w, n, m);
    }
  }

  lemma UnmarkedAbove(w: Window, n: int)
    requires n > w.highest
    ensures !Marked(w, n)
  {
  }

  // A step that leaves the calls, their outcomes and the served requests alone moves no call.
  lemma Stutter(e: Epoch, s: System, s': System)
    requires s'.client.calls == s.client.calls && s'.client.outcomes == s.client.outcomes && s'.served == s.served
    ensures ServiceStep(e, s, s')
  {
    hide Advance;
    assert Moves(e, s, s', Id(0, 0));
  }

  // ---------- request() and its timeouts ----------

  // Drawing a pair of numbers.
  lemma DrawKeepsClient(e: Epoch, c: Client, c': Client, stream: int)
    requires ClientInv(e, c)
    requires var s := if stream in c.streams then c.streams[stream] else Stream(1, 0);
             c' == c.(streams := c.streams[stream := Stream(s.nextRequestId + 1, s.nextSeq + 1)])
    ensures ClientInv(e, c')
  {
    hide RequestPacket, Valid, Marked;
    assert NumberedStream(c, stream);
    forall st ensures NumberedStream(c', st) {
      assert NumberedStream(c, st);
    }
    forall id ensures NumberedCall(e, c', id) {
      assert NumberedCall(e, c, id);
    }
    forall k ensures PendingKey(c', k) {
      assert PendingKey(c, k);
    }
    forall id ensures WaitingCall(c', id) {
      assert WaitingCall(c, id);
    }
    forall st ensures ClientWindow(c', st) {
      assert ClientWindow(c, st);
    }
  }

  // Filing the call under the pair just drawn.
  lemma FileKeepsClient(e: Epoch, c: Client, c': Client, id: Id, call: Call)
    requires ClientInv(e, c)
    requires id.stream in c.streams && id.sequence == c.streams[id.stream].nextSeq - 1 >= 0 && call.requestId == id.sequence + 1
    requires id !in c.calls
    requires id.stream in c.windows ==> c.windows[id.stream].highest < id.sequence
    requires 0 <= call.verb <= MAX_VERB && |call.path| <= MAX_PATH_BYTES && RequestPacket(e, id, call).Ok?
    requires c' == c.(pending := c.pending[ReqKey(id.stream, call.requestId) := id], calls := c.calls[id := call],
                      outcomes := c.outcomes[id := Waiting])
    ensures ClientInv(e, c')
  {
    hide RequestPacket, Valid, Marked;
    forall st ensures NumberedStream(c', st) {
      assert NumberedStream(c, st);
    }
    forall i ensures NumberedCall(e, c', i) {
      assert NumberedCall(e, c, i);
    }
    assert NumberedCall(e, c, id);
    forall k ensures PendingKey(c', k) {
      assert PendingKey(c, k);
    }
    forall i ensures WaitingCall(c', i) {
      assert WaitingCall(c, i);
      if i == id {
        UnmarkedAbove(WindowOf(c.windows, id.stream), id.sequence);
      }
    }
    forall st ensures ClientWindow(c', st) {
      assert ClientWindow(c, st);
    }
  }

  // What the server holds is about calls already made, so a new call does not touch it.
  lemma NewCallKeepsServer(c: Client, c': Client, windows: map<int, Window>, served: map<Id, Served>, id: Id)
    requires ServerInv(c, windows, served)
    requires forall st | st in c.streams :: st in c'.streams && c'.streams[st].nextSeq >= c.streams[st].nextSeq
    requires forall i | i in c.calls :: i in c'.calls && c'.calls[i] == c.calls[i]
    requires forall i | i in c'.calls :: i in c.calls || i == id
    requires id !in c.calls
    requires id.stream in c.streams ==> id.sequence == c.streams[id.stream].nextSeq
    requires id.sequence >= 0
    ensures ServerInv(c', windows, served)
  {
    hide Valid, Marked, Seen;
    forall st ensures ServerWindow(c', windows, st) {
      assert ServerWindow(c, windows, st);
    }
    forall i ensures ServedCall(c', windows, served, i) {
      assert ServedCall(c, windows, served, i);
    }
    forall i ensures MarkedCall(c', windows, served, i) {
      assert MarkedCall(c, windows, served, i);
      if i == id {
        assert ServerWindow(c, windows, id.stream);
        UnmarkedAbove(WindowOf(windows, id.stream), id.sequence);
      }
    }
  }

  lemma NetworkUnderNewCall(e: Epoch, c: Client, c': Client, packets: set<Bytes>)
    requires forall d | d in packets :: FromClient(e, c, d)
    requires forall i | i in c.calls :: i in c'.calls && c'.calls[i] == c.calls[i]
    ensures forall d | d in packets :: FromClient(e, c', d)
  {
    hide RequestPacket;
    forall d | d in packets ensures FromClient(e, c', d) {
      assert FromClient(e, c, d);
      var i :| IsRequest(e, c, i, d);
      assert IsRequest(e, c', i, d);
    }
  }

  // request() raised: at most a pair of numbers was drawn.
  lemma RequestRefused(e: Epoch, s: System, s': System, stream: int)
    requires Inv(e, s) && s' == s.(client := s'.client)
    requires var st := if stream in s.client.streams then s.client.streams[stream] else Stream(1, 0);
             s'.client == s.client.(streams := s.client.streams[stream := Stream(st.nextRequestId + 1, st.nextSeq + 1)])
    ensures Inv(e, s') && ServiceStep(e, s, s')
  {
    hide RequestPacket, Valid, Marked, Seen, CacheInv, StartedOnce, ServiceStep, View;
    var c, c' := s.client, s'.client;
    var id := Id(stream, if stream in c.streams then c.streams[stream].nextSeq else 0);
    assert NumberedStream(c, stream) && NumberedCall(e, c, id);
    DrawKeepsClient(e, c, c', stream);
    NewCallKeepsServer(c, c', s.session.windows, s.served, id);
    NetworkUnderNewCall(e, c, c', s.toServer);
    forall i ensures AnsweredCall(c', s.served, i) {
      assert AnsweredCall(c, s.served, i);
    }
    Stutter(e, s, s');
  }

  // request() sent its packet and waits.
  lemma RequestFiled(e: Epoch, s: System, s': System, id: Id, call: Call, packet: Bytes)
    requires Inv(e, s)
    requires id.sequence == if id.stream in s.client.streams then s.client.streams[id.stream].nextSeq else 0
    requires call.requestId == if id.stream in s.client.streams then s.client.streams[id.stream].nextRequestId else 1
    requires 0 <= call.verb <= MAX_VERB && |call.path| <= MAX_PATH_BYTES && RequestPacket(e, id, call) == Ok(packet)
    requires s' == s.(toServer := s.toServer + {packet}, client := s.client.(
                 streams := s.client.streams[id.stream := Stream(call.requestId + 1, id.sequence + 1)],
                 pending := s.client.pending[ReqKey(id.stream, call.requestId) := id],
                 calls := s.client.calls[id := call],
                 outcomes := s.client.outcomes[id := Waiting]))
    ensures Inv(e, s') && ServiceStep(e, s, s')
  {
    hide RequestPacket, Valid, Marked, Seen, CacheInv, StartedOnce, ServiceStep, View;
    var c, c' := s.client, s'.client;
    var drawn := c.(streams := c'.streams);
    assert NumberedStream(c, id.stream) && NumberedCall(e, c, id) && ClientWindow(c, id.stream);
    assert ServedCall(c, s.session.windows, s.served, id);
    DrawKeepsClient(e, c, drawn, id.stream);
    FileKeepsClient(e, drawn, c', id, call);
    NewCallKeepsServer(c, c', s.session.windows, s.served, id);
    NetworkUnderNewCall(e, c, c', s.toServer);
    assert IsRequest(e, c', id, packet);
    forall i ensures AnsweredCall(c', s.served, i) {
      assert AnsweredCall(c, s.served, i);
    }
    IssuedAbstractly(e, s, s', id);
  }

  lemma IssuedAbstractly(e: Epoch, s: System, s': System, id: Id)
    requires id !in s.client.calls && id !in s.served && s'.served == s.served && id in s'.client.calls
    requires s'.client.calls == s.client.calls[id := s'.client.calls[id]] && s'.client.outcomes == s.client.outcomes[id := Waiting]
    ensures ServiceStep(e, s, s')
  {
    hide Advance;
    assert Moves(e, s, s', id);
  }

  lemma RequestStep(e: Epoch, s: System, stream: int, verb: int, path: Text, body: Bytes)
    requires Inv(e, s)
    ensures var s' := Apply(e, s, Request(stream, verb, path, body));
            Inv(e, s') && ServiceStep(e, s, s')
  {
    hide RequestPacket, Inv, ServiceStep, View, ServerReceive, ClientReceive, FinishTask, Sweep, GiveUp;
    var s' := Apply(e, s, Request(stream, verb, path, body));
    if 0 <= verb <= MAX_VERB {
      var (c', packet) := Begin(e, s.client, stream, verb, path, body);
      if packet.Ok? {
        var st := if stream in s.client.streams then s.client.streams[stream] else Stream(1, 0);
        RequestFiled(e, s, s', Id(stream, st.nextSeq), Call(st.nextRequestId, verb, path, body), packet.value);
      } else if c' != s.client {
        RequestRefused(e, s, s', stream);
      } else {
        Stutter(e, s, s');
      }
    } else {
      Stutter(e, s, s');
    }
  }

  lemma RetransmitStep(e: Epoch, s: System, id: Id)
    requires Inv(e, s)
    ensures var s' := Apply(e, s, Retransmit(id));
            Inv(e, s') && ServiceStep(e, s, s')
  {
    hide RequestPacket, Begin, ServerReceive, ClientReceive, FinishTask, Sweep, GiveUp, StartedOnce, ServiceStep, View;
    if id in s.client.calls {
      assert NumberedCall(e, s.client, id);
      assert IsRequest(e, s.client, id, RequestPacket(e, id, s.client.calls[id]).value);
    }
    Stutter(e, s, Apply(e, s, Retransmit(id)));
  }

  lemma GiveUpKeepsClient(e: Epoch, c: Client, id: Id)
    requires ClientInv(e, c)
    ensures ClientInv(e, GiveUp(c, id))
  {
    hide RequestPacket, Valid, Marked;
    var c' := GiveUp(c, id);
    assert NumberedCall(e, c, id);
    forall st ensures NumberedStream(c', st) {
      assert NumberedStream(c, st);
    }
    forall i ensures NumberedCall(e, c', i) {
      assert NumberedCall(e, c, i);
    }
    forall k ensures PendingKey(c', k) {
      assert PendingKey(c, k);
    }
    forall i ensures WaitingCall(c', i) {
      assert WaitingCall(c, i);
    }
    forall st ensures ClientWindow(c', st) {
      assert ClientWindow(c, st);
    }
  }

  // A change of the client that touches only what is waiting keeps everything else in place.
  lemma OutcomeKeepsRest(e: Epoch, s: System, s': System)
    requires Inv(e, s) && s' == s.(client := s'.client) && ClientInv(e, s'.client)
    requires s'.client.calls == s.client.calls && s'.client.streams == s.client.streams
    requires AnswerInv(s'.client, s'.served)
    ensures Inv(e, s')
  {
    hide RequestPacket, Valid, Marked, Seen;
    var c, c' := s.client, s'.client;
    forall st ensures ServerWindow(c', s.session.windows, st) {
      assert ServerWindow(c, s.session.windows, st);
    }
    forall i ensures ServedCall(c', s.session.windows, s.served, i) {
      assert ServedCall(c, s.session.windows, s.served, i);
    }
    forall i ensures MarkedCall(c', s.session.windows, s.served, i) {
      assert MarkedCall(c, s.session.windows, s.served, i);
    }
    NetworkUnderNewCall(e, c, c', s.toServer);
  }

  lemma TimedOutAbstractly(e: Epoch, s: System, s': System, id: Id)
    requires s' == s.(client := GiveUp(s.client, id)) && s'.client != s.client
    ensures ServiceStep(e, s, s')
  {
    hide GiveUp, NotFoundResponse, Truncated;
    GiveUpEffect(s.client, id);
    assert Moves(e, s, s', id);
  }

  lemma TimeoutStep(e: Epoch, s: System, id: Id)
    requires Inv(e, s)
    ensures var s' := Apply(e, s, Timeout(id));
            Inv(e, s') && ServiceStep(e, s, s')
  {
    hide Inv, RequestPacket, Begin, ServerReceive, ClientReceive, FinishTask, Sweep, GiveUp, ServiceStep, View;
    var s' := Apply(e, s, Timeout(id));
    assert s' == s.(client := GiveUp(s.client, id));
    GiveUpKeepsInv(e, s, id);
    if s'.client != s.client {
      TimedOutAbstractly(e, s, s', id);
    } else {
      Stutter(e, s, s');
    }
  }

  lemma GiveUpKeepsInv(e: Epoch, s: System, id: Id)
    requires Inv(e, s)
    ensures Inv(e, s.(client := GiveUp(s.client, id)))
  {
    hide ClientInv, ServerInv, CacheInv, Network, AnswerInv, StartedOnce, GiveUp;
    GiveUpKeepsClient(e, s.client, id);
    GiveUpKeepsAnswers(s.client, s.served, id);
    GiveUpEffect(s.client, id);
    OutcomeKeepsRest(e, s, s.(client := GiveUp(s.client, id)));
  }

  lemma GiveUpEffect(c: Client, id: Id)
    ensures var c' := GiveUp(c, id);
            && c'.calls == c.calls && c'.streams == c.streams && c'.windows == c.windows
            && (c' != c ==> id in c.outcomes && c.outcomes[id] == Waiting && c'.outcomes == c.outcomes[id := TimedOut])
  {
  }

  lemma GiveUpKeepsAnswers(c: Client, served: map<Id, Served>, id: Id)
    requires AnswerInv(c, served)
    ensures AnswerInv(GiveUp(c, id), served)
  {
    forall i ensures AnsweredCall(GiveUp(c, id), served, i) {
      assert AnsweredCall(c, served, i);
    }
  }

  // ---------- the server accepts a request ----------

  // What handling comes to for a request that decrypts.
  function GenuineOutcome(e: Epoch, s: Session, id: Id, c: Call, now: real): Handled
    requires PackHeader(FrameAckHeader(e, id, c.requestId)).Ok?
  {
    var key := ReqKey(id.stream, c.requestId);
    var (window, ok) := Offer(WindowOf(s.windows, id.stream), id.sequence);
    var ack := PackHeader(FrameAckHeader(e, id, c.requestId)).value;
    var s1 := s.(windows := s.windows[id.stream := window]);
    if key in s.cache then Handled(s, [s.cache[key].packet], Resent)
    else if !ok then Handled(s1, [], Replayed)
    else if c.path == [] then Handled(s1, [], EmptyPath)
    else if e.routed(c.verb, c.path) then
      Handled(s1.(inflight := s1.inflight[key := now + INFLIGHT_TTL]), [ack], Started(c.body))
    else
      var (s2, sent) := SendResponse(e, s1, id, c.requestId, NotFoundResponse(), now);
      Handled(s2, [ack] + sent, NotFound(c.body))
  }

  // The server never finds a genuine request undecryptable or misencoded.
  lemma HandleGenuine(e: Epoch, s: Session, id: Id, c: Call, data: Bytes, now: real)
    requires Sound(e.aead) && RequestPacket(e, id, c) == Ok(data) && |c.path| <= MAX_PATH_BYTES && 0 <= c.verb <= MAX_VERB
    requires ServerSplit(data).Ok?
    ensures var d := ServerSplit(data).value;
            && d.header == RequestHeader(e, id, c) && d.path == c.path
            && PackHeader(FrameAckHeader(e, id, c.requestId)).Ok?
            && HandleRequest(e, s, d.header, d.path, d.body, now) == GenuineOutcome(e, s, id, c, now)
  {
    hide ServerSplit, OpenRequest, SendResponse, NotFoundResponse, Offer;
    RequestDelivered(e, id, c);
  }

  // SendResponse files and sends exactly the reply packet, or does nothing.
  lemma SendResponseEffect(e: Epoch, s: Session, id: Id, requestId: int, r: Response, now: real)
    ensures var (s', sent) := SendResponse(e, s, id, requestId, r, now);
            var packet := ReplyPacket(e, id, requestId, r);
            && s'.windows == s.windows
            && (packet.Ok? ==> sent == [packet.value]
                               && s'.cache == s.cache[ReqKey(id.stream, requestId) := CacheEntry(packet.value, now + e.cacheTtl)]
                               && s'.inflight == s.inflight - {ReqKey(id.stream, requestId)})
            && (packet.Err? ==> s' == s && sent == [])
  {
    hide ReplyPacket;
  }

  // Offering the number of a call to the server's window: an accepted number was never served, and
  // serving it (or its having an empty path) restores the invariant.
  lemma WindowAdvances(e: Epoch, c: Client, windows: map<int, Window>, served: map<Id, Served>, served': map<Id, Served>, id: Id)
    requires ClientInv(e, c) && ServerInv(c, windows, served) && id in c.calls
    requires if !Offer(WindowOf(windows, id.stream), id.sequence).1 || c.calls[id].path == [] then served' == served
             else id in served' && served'[id].exec != NotRun
                  && served' == served[id := Served(c.calls[id].requestId, c.calls[id].verb, c.calls[id].path, c.calls[id].body, served'[id].exec)]
    ensures var (window, ok) := Offer(WindowOf(windows, id.stream), id.sequence);
            && ServerInv(c, windows[id.stream := window], served')
            && (ok ==> id !in served)
  {
    hide Offer, Valid, Marked, Seen, RequestPacket;
    var w := WindowOf(windows, id.stream);
    var windows' := windows[id.stream := Offer(w, id.sequence).0];
    assert NumberedCall(e, c, id) && ServerWindow(c, windows, id.stream) && ServedCall(c, windows, served, id);
    EmptyIsValid();
    OfferEffect(w, id.sequence);
    forall st ensures ServerWindow(c, windows', st) {
      assert ServerWindow(c, windows, st);
    }
    forall i ensures ServedCall(c, windows', served', i) {
      assert ServedCall(c, windows, served, i);
    }
    forall i ensures MarkedCall(c, windows', served', i) {
      assert MarkedCall(c, windows, served, i);
    }
  }

  lemma EmptyIsValid()
    ensures Valid(EMPTY) && EMPTY.highest == -1
  {
  }

  // Replies and frame acks stay what they are when a call is served or its handler ends.
  predicate Grows(served: map<Id, Served>, served': map<Id, Served>) {
    forall i | i in served ::
      i in served' && served'[i].requestId == served[i].requestId && (served[i].exec.Done? ==> served'[i] == served[i])
  }

  lemma FromServerGrows(e: Epoch, served: map<Id, Served>, served': map<Id, Served>, packet: Bytes)
    requires Grows(served, served') && FromServer(e, served, packet)
    ensures FromServer(e, served', packet)
  {
    hide ReplyPacket, PackHeader;
    var i :| IsReply(e, served, i, packet) || IsFrameAck(e, served, i, packet);
    assert IsReply(e, served', i, packet) || IsFrameAck(e, served', i, packet);
  }

  // Filing the reply of a finished execution keeps the cache in order.
  lemma CacheReply(e: Epoch, s: Session, served: map<Id, Served>, served': map<Id, Served>, id: Id, r: Response, now: real)
    requires CacheInv(e, s, served) && Grows(served, served')
    requires id in served' && served'[id].exec == Done(r) && served'[id].requestId == id.sequence + 1
    ensures var (s', sent) := SendResponse(e, s, id, id.sequence + 1, r, now);
            && CacheInv(e, s', served')
            && forall d | d in sent :: FromServer(e, served', d)
  {
    hide ReplyPacket, PackHeader, SendResponse;
    SendResponseEffect(e, s, id, id.sequence + 1, r, now);
    var (s', sent) := SendResponse(e, s, id, id.sequence + 1, r, now);
    forall k ensures CachedKey(e, s', served', k) {
      assert CachedKey(e, s, served, k);
    }
    assert forall d | d in sent :: IsReply(e, served', id, d);
  }

  // A handler starts: the request joins the in-flight table, under a key that has no cached reply.
  lemma StartKeepsCache(e: Epoch, s: Session, served: map<Id, Served>, served': map<Id, Served>, key: ReqKey, deadline: real)
    requires CacheInv(e, s, served) && Grows(served, served') && key !in s.cache
    ensures CacheInv(e, s.(inflight := s.inflight[key := deadline]), served')
  {
    hide ReplyPacket;
    var s' := s.(inflight := s.inflight[key := deadline]);
    forall k ensures CachedKey(e, s', served', k) {
      assert CachedKey(e, s, served, k);
    }
  }

  // What acceptance of the unserved call `id` means for the whole system.
  lemma Accepted(e: Epoch, s: System, s': System, id: Id)
    requires Inv(e, s) && id in s.client.calls && id !in s.served && id in s'.served
    requires s'.client == s.client && s'.toServer == s.toServer && s'.served == s.served[id := s'.served[id]]
    requires ServerInv(s'.client, s'.session.windows, s'.served) && CacheInv(e, s'.session, s'.served)
    requires forall d | d in s'.toClient :: d in s.toClient || FromServer(e, s'.served, d)
    requires s'.started == s.started || s'.started == s.started + [id]
    requires s'.served[id].exec == if e.routed(s.client.calls[id].verb, s.client.calls[id].path) then Running else Done(NotFoundResponse())
    ensures Inv(e, s') && ServiceStep(e, s, s')
  {
    hide ClientInv, ServerInv, CacheInv, FromClient, FromServer, NotFoundResponse;
    forall d | d in s'.toClient ensures FromServer(e, s'.served, d) {
      if d in s.toClient {
        FromServerGrows(e, s.served, s'.served, d);
      }
    }
    forall i ensures AnsweredCall(s'.client, s'.served, i) {
      assert AnsweredCall(s.client, s.served, i);
    }
    AcceptedAbstractly(e, s, s', id);
  }

  lemma AcceptedAbstractly(e: Epoch, s: System, s': System, id: Id)
    requires ClientInv(e, s.client) && id in s.client.calls && id !in s.served && id in s'.served
    requires s'.client == s.client && s'.served == s.served[id := s'.served[id]]
    requires s'.served[id].exec == if e.routed(s.client.calls[id].verb, s.client.calls[id].path) then Running else Done(NotFoundResponse())
    ensures ServiceStep(e, s, s')
  {
    hide NotFoundResponse, RequestPacket;
    assert NumberedCall(e, s.client, id);
    assert Moves(e, s, s', id);
  }

  // The server's tables change while the served calls do not.
  lemma SessionKeepsRest(e: Epoch, s: System, s': System)
    requires Inv(e, s) && s' == s.(session := s'.session, toClient := s'.toClient)
    requires ServerInv(s.client, s'.session.windows, s.served) && CacheInv(e, s'.session, s.served)
    requires forall d | d in s'.toClient :: d in s.toClient || FromServer(e, s.served, d)
    ensures Inv(e, s') && ServiceStep(e, s, s')
  {
    hide ClientInv, ServerInv, CacheInv, FromClient, FromServer;
    Stutter(e, s, s');
  }

  lemma RejectedKeepsCache(e: Epoch, s: Session, windows: map<int, Window>, served: map<Id, Served>)
    requires CacheInv(e, s, served)
    ensures CacheInv(e, s.(windows := windows), served)
  {
    hide ReplyPacket;
    forall k ensures CachedKey(e, s.(windows := windows), served, k) {
      assert CachedKey(e, s, served, k);
    }
  }

  lemma ServerStep(e: Epoch, s: System, data: Bytes)
    requires Admissible(e) && Inv(e, s)
    ensures var s' := Apply(e, s, DeliverToServer(data));
            Inv(e, s') && ServiceStep(e, s, s')
  {
    hide Sound, ServerSplit, HandleRequest, GenuineOutcome, RequestPacket, PackHeader, Begin, ClientReceive, FinishTask, Sweep, GiveUp,
         ServiceStep, View, StartedOnce;
    var s' := Apply(e, s, DeliverToServer(data));
    if data in s.toServer && s' != s {
      assert FromClient(e, s.client, data);
      var id :| IsRequest(e, s.client, id, data);
      assert NumberedCall(e, s.client, id);
      var c := s.client.calls[id];
      HandleGenuine(e, s.session, id, c, data, s.now);
      var d := ServerSplit(data).value;
      HandledStep(e, s, s', id);
    } else {
      Stutter(e, s, s');
    }
  }

  // That outcome, applied to the system.
  lemma HandledStep(e: Epoch, s: System, s': System, id: Id)
    requires Inv(e, s) && id in s.client.calls
    requires PackHeader(FrameAckHeader(e, id, s.client.calls[id].requestId)).Ok?
    requires var c := s.client.calls[id];
             s' == Handle(s, id, c.requestId, c.verb, c.path, GenuineOutcome(e, s.session, id, c, s.now))
    ensures Inv(e, s') && ServiceStep(e, s, s')
  {
    hide RequestPacket, ReplyPacket, PackHeader, Offer, SendResponse, NotFoundResponse, Marked, Seen;
    var c := s.client.calls[id];
    var key := ReqKey(id.stream, c.requestId);
    assert NumberedCall(e, s.client, id);
    if key in s.session.cache {
      assert CachedKey(e, s.session, s.served, key);
      assert IsReply(e, s.served, Id(key.stream, key.request - 1), s.session.cache[key].packet);
      SessionKeepsRest(e, s, s');
      return;
    }
    var (window, ok) := Offer(WindowOf(s.session.windows, id.stream), id.sequence);
    var windows := s.session.windows[id.stream := window];
    var s1 := s.session.(windows := windows);
    WindowAdvances(e, s.client, s.session.windows, s.served, s'.served, id);
    RejectedKeepsCache(e, s.session, windows, s.served);
    if ok && c.path != [] {
      assert IsFrameAck(e, s'.served, id, PackHeader(FrameAckHeader(e, id, c.requestId)).value);
      assert Grows(s.served, s'.served);
      if e.routed(c.verb, c.path) {
        StartKeepsCache(e, s1, s.served, s'.served, key, s.now + INFLIGHT_TTL);
      } else {
        CacheReply(e, s1, s.served, s'.served, id, NotFoundResponse(), s.now);
        SendResponseEffect(e, s1, id, c.requestId, NotFoundResponse(), s.now);
      }
      Accepted(e, s, s', id);
    } else {
      SessionKeepsRest(e, s, s');
    }
  }

  // ---------- a handler ends, the tables are swept ----------

  lemma FinishStep(e: Epoch, s: System, task: Id, r: Response)
    requires Inv(e, s)
    ensures var s' := Apply(e, s, Finish(task, r));
            Inv(e, s') && ServiceStep(e, s, s')
  {
    hide ClientInv, CacheInv, FromClient, FromServer, SendResponse, Seen, Marked, Valid, RequestPacket, Begin, ServerReceive,
         ClientReceive, Sweep, GiveUp, ServiceStep, View;
    var s' := Apply(e, s, Finish(task, r));
    if task in s.served && s.served[task].exec == Running {
      assert ServedCall(s.client, s.session.windows, s.served, task);
      CallOfServed(e, s, task);
      CacheReply(e, s.session, s.served, s'.served, task, r, s.now);
      SendResponseEffect(e, s.session, task, s.served[task].requestId, r, s.now);
      forall d | d in s'.toClient ensures FromServer(e, s'.served, d) {
        if d in s.toClient {
          FromServerGrows(e, s.served, s'.served, d);
        }
      }
      FinishKeepsServer(s, s', task);
      forall i ensures AnsweredCall(s'.client, s'.served, i) {
        assert AnsweredCall(s.client, s.served, i);
      }
      FinishedAbstractly(e, s, s', task, r);
    } else {
      Stutter(e, s, s');
    }
  }

  lemma CallOfServed(e: Epoch, s: System, id: Id)
    requires ClientInv(e, s.client) && ServerInv(s.client, s.session.windows, s.served) && id in s.served
    ensures id in s.client.calls && id in s.client.outcomes && s.served[id].requestId == s.client.calls[id].requestId == id.sequence + 1
  {
    hide RequestPacket, Seen, Marked, Valid;
    assert ServedCall(s.client, s.session.windows, s.served, id);
    assert NumberedCall(e, s.client, id);
  }

  lemma FinishKeepsServer(s: System, s': System, task: Id)
    requires ServerInv(s.client, s.session.windows, s.served) && task in s.served
    requires s'.client == s.client && s'.session.windows == s.session.windows
    requires task in s'.served && s'.served[task].exec != NotRun
    requires s'.served == s.served[task := s.served[task].(exec := s'.served[task].exec)]
    ensures ServerInv(s'.client, s'.session.windows, s'.served)
  {
    hide Seen, Marked, Valid;
    forall st ensures ServerWindow(s'.client, s'.session.windows, st) {
      assert ServerWindow(s.client, s.session.windows, st);
    }
    forall i ensures ServedCall(s'.client, s'.session.windows, s'.served, i) {
      assert ServedCall(s.client, s.session.windows, s.served, i);
    }
    forall i ensures MarkedCall(s'.client, s'.session.windows, s'.served, i) {
      assert MarkedCall(s.client, s.session.windows, s.served, i);
    }
  }

  lemma FinishedAbstractly(e: Epoch, s: System, s': System, task: Id, r: Response)
    requires task in s.served && s.served[task].exec == Running && task in s.client.calls && task in s.client.outcomes
    requires s'.client == s.client && s'.served == s.served[task := s.served[task].(exec := Done(r))]
    ensures ServiceStep(e, s, s')
  {
    hide NotFoundResponse;
    assert Moves(e, s, s', task);
  }

  lemma CleanupStep(e: Epoch, s: System)
    requires Inv(e, s)
    ensures var s' := Apply(e, s, Cleanup);
            Inv(e, s') && ServiceStep(e, s, s')
  {
    hide ClientInv, ServerInv, Network, AnswerInv, IsReply, Begin, RequestPacket, ServerReceive, ClientReceive, FinishTask, GiveUp, StartedOnce,
         ServiceStep, View;
    var s' := Apply(e, s, Cleanup);
    forall k ensures CachedKey(e, s'.session, s.served, k) {
      assert CachedKey(e, s.session, s.served, k);
    }
    assert Network(e, s') by {
      SameNetwork(e, s, s');
    }
    Stutter(e, s, s');
  }

  lemma SameNetwork(e: Epoch, s: System, s': System)
    requires Network(e, s)
    requires s'.client == s.client && s'.served == s.served && s'.toServer <= s.toServer && s'.toClient <= s.toClient
    ensures Network(e, s')
  {
    hide FromClient, FromServer;
  }

  // ---------- the client takes a response ----------

  lemma ClientStep(e: Epoch, s: System, data: Bytes)
    requires Admissible(e) && Inv(e, s)
    ensures var s' := Apply(e, s, DeliverToClient(data));
            Inv(e, s') && ServiceStep(e, s, s')
  {
    hide Sound, ClientSplit, ReplyPacket, Inv, OpenReply, OnResponse, ServiceStep, View, IsFrameAck, IsReply, Begin, RequestPacket, ServerReceive,
         FinishTask, Sweep, GiveUp;
    var s' := Apply(e, s, DeliverToClient(data));
    if data in s.toClient {
      ServerSent(e, s, data);
      var id :| IsReply(e, s.served, id, data) || IsFrameAck(e, s.served, id, data);
      if IsFrameAck(e, s.served, id, data) {
        FrameAckRead(e, s, id, data);
        Stutter(e, s, s');
      } else {
        ReplyRead(e, s, id, data);
        var d := ClientSplit(data).value;
        ReplyStep(e, s, s', id, d.header, d.body);
      }
    } else {
      Stutter(e, s, s');
    }
  }

  lemma ServerSent(e: Epoch, s: System, data: Bytes)
    requires Inv(e, s) && data in s.toClient
    ensures FromServer(e, s.served, data)
  {
    hide ClientInv, ServerInv, CacheInv, AnswerInv, FromServer, FromClient;
  }

  lemma FrameAckRead(e: Epoch, s: System, id: Id, data: Bytes)
    requires IsFrameAck(e, s.served, id, data)
    ensures ClientSplit(data).Ok? && ClientSplit(data).value.header.msgType == MSG_FRAME_ACK
  {
    hide ClientSplit, PackHeader;
    FrameAckDelivered(e, id, s.served[id].requestId);
  }

  lemma ReplyRead(e: Epoch, s: System, id: Id, data: Bytes)
    requires Admissible(e) && IsReply(e, s.served, id, data)
    ensures id in s.served && s.served[id].exec.Done?
    ensures var d := ClientSplit(data);
            && d.Ok? && d.value.header == ReplyHeader(e, id, s.served[id].requestId, |d.value.body|)
            && OpenReply(e, d.value.header, d.value.body) == Ok(Truncated(s.served[id].exec.response))
  {
    hide Sound, ClientSplit, ReplyPacket, OpenReply, Truncated;
    ReplyDelivered(e, id, s.served[id].requestId, s.served[id].exec.response);
  }

  // The reply to `id` is accepted at most once, and then its future is on file exactly if it waits.
  lemma ReplyKeepsClient(e: Epoch, c: Client, c': Client, id: Id)
    requires ClientInv(e, c) && id in c.calls
    requires var key := ReqKey(id.stream, id.sequence + 1);
             var (window, ok) := Offer(WindowOf(c.windows, id.stream), id.sequence);
             var c1 := c.(windows := c.windows[id.stream := window]);
             if ok && key in c.pending then
               id in c'.outcomes && c'.outcomes[id] != Waiting
               && c' == c1.(pending := c.pending - {key}, outcomes := c.outcomes[id := c'.outcomes[id]])
             else c' == c1
    ensures ClientInv(e, c')
  {
    hide RequestPacket, Valid, Marked, Seen, Offer;
    assert NumberedCall(e, c, id) && WaitingCall(c, id) && ClientWindow(c, id.stream);
    EmptyIsValid();
    OfferEffect(WindowOf(c.windows, id.stream), id.sequence);
    forall st ensures NumberedStream(c', st) {
      assert NumberedStream(c, st);
    }
    forall i ensures NumberedCall(e, c', i) {
      assert NumberedCall(e, c, i);
    }
    forall k ensures PendingKey(c', k) {
      assert PendingKey(c, k);
    }
    assert PendingKey(c, ReqKey(id.stream, id.sequence + 1));
    forall i ensures WaitingCall(c', i) {
      assert WaitingCall(c, i);
    }
    forall st ensures ClientWindow(c', st) {
      assert ClientWindow(c, st);
    }
  }

  lemma AnsweredAbstractly(e: Epoch, s: System, s': System, id: Id)
    requires id in s.served && s.served[id].exec.Done? && id in s.client.calls && id in s.client.outcomes
    requires s'.served == s.served && s'.client.calls == s.client.calls && s.client.outcomes[id] == Waiting
    requires s'.client.outcomes == s.client.outcomes[id := Answered(Truncated(s.served[id].exec.response))]
    ensures ServiceStep(e, s, s')
  {
    hide NotFoundResponse, Truncated;
    assert Moves(e, s, s', id);
  }

  // OnResponse for the genuine reply to `id`.
  lemma ReplyStep(e: Epoch, s: System, s': System, id: Id, h: Header, body: Bytes)
    requires Inv(e, s) && id in s.served && s.served[id].exec.Done?
    requires s' == s.(client := OnResponse(e, s.client, h, body))
    requires h == ReplyHeader(e, id, s.served[id].requestId, |body|)
    requires OpenReply(e, h, body) == Ok(Truncated(s.served[id].exec.response))
    ensures Inv(e, s') && ServiceStep(e, s, s')
  {
    hide ServerInv, CacheInv, Network, RequestPacket, Offer, Valid, Marked, Seen, OpenReply, Truncated, NotFoundResponse;
    CallOfServed(e, s, id);
    var key := ReqKey(id.stream, id.sequence + 1);
    assert PendingKey(s.client, key);
    ReplyKeepsClient(e, s.client, s'.client, id);
    forall i ensures AnsweredCall(s'.client, s'.served, i) {
      assert AnsweredCall(s.client, s.served, i);
    }
    OutcomeKeepsRest(e, s, s');
    if s'.client.outcomes != s.client.outcomes {
      AnsweredAbstractly(e, s, s', id);
    } else {
      Stutter(e, s, s');
    }
  }

  // ---------- every step, every run ----------

  lemma EveryStep(e: Epoch, s: System, step: Step)
    requires Admissible(e) && Inv(e, s)
    ensures Inv(e, Apply(e, s, step))
    ensures ServiceStep(e, s, Apply(e, s, step))
  {
    hide Inv, ServiceStep, Apply;
    match step
    case Request(stream, verb, path, body) => RequestStep(e, s, stream, verb, path, body);
    case Retransmit(id) => RetransmitStep(e, s, id);
    case Timeout(id) => TimeoutStep(e, s, id);
    case DeliverToServer(data) => ServerStep(e, s, data);
    case DeliverToClient(data) => ClientStep(e, s, data);
    case Finish(task, response) => FinishStep(e, s, task, response);
    case Cleanup => CleanupStep(e, s);
    case _ => OtherStep(e, s, step);
  }

  lemma OtherStep(e: Epoch, s: System, step: Step)
    requires Inv(e, s)
    requires step.LoseToServer? || step.LoseToClient? || step.Close? || step.Tick?
    ensures Inv(e, Apply(e, s, step)) && ServiceStep(e, s, Apply(e, s, step))
  {
    hide ClientInv, ServerInv, CacheInv, AnswerInv, FromClient, FromServer, ServiceStep, View, Begin, RequestPacket, ServerReceive, ClientReceive,
         FinishTask, Sweep, GiveUp, StartedOnce;
    SameNetwork(e, s, Apply(e, s, step));
    Stutter(e, s, Apply(e, s, step));
  }
}
