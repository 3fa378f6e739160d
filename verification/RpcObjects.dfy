// The mutable objects of the request/response layer: SessionState's tables on the server and the
// client's request and response handling. Each method is proved to do exactly what the function of
// the same name in module Rpc says; `model` is the object's state as a value.
module RpcObjects {
  import opened Common
  import opened Codec
  import opened ReplayWindows
  import opened Primitives
  import opened Rpc

  // A table of window objects: every stream has its own, and `model` holds their values.
  ghost predicate WindowTable(windows: map<int, ReplayWindow>, model: map<int, Window>)
    reads windows.Values
  {
    && windows.Keys == model.Keys
    && (forall st | st in windows :: windows[st].Valid() && windows[st].View() == model[st])
    && (forall a, b | a in windows && b in windows && a != b :: windows[a] != windows[b])
  }

  // recv_windows.setdefault(stream, ReplayWindow()).accept(sequence)
  method Offered(windows: map<int, ReplayWindow>, ghost model: map<int, Window>, stream: int, sequence: int)
    returns (windows': map<int, ReplayWindow>, ok: bool)
    requires WindowTable(windows, model)
    modifies windows.Values
    ensures fresh(windows'.Values - windows.Values)
    ensures ok == Offer(WindowOf(model, stream), sequence).1
    ensures WindowTable(windows', model[stream := Offer(WindowOf(model, stream), sequence).0])
  {
    windows' := windows;
    if stream !in windows {
      var window := new ReplayWindow();
      windows' := windows[stream := window];
    }
    ok := windows'[stream].Accept(sequence);
  }

  class SessionState {
    const epoch: Epoch
    var windows: map<int, ReplayWindow>
    var cache: map<ReqKey, CacheEntry>
    var inflight: map<ReqKey, real>
    ghost var model: Session

    ghost predicate Valid()
      reads this, windows.Values
    {
      && WindowTable(windows, model.windows)
      && cache == model.cache
      && inflight == model.inflight
    }

    constructor (epoch: Epoch)
      ensures Valid() && model == NEW_SESSION && this.epoch == epoch && fresh(windows.Values)
    {
      this.epoch := epoch;
      windows, cache, inflight := map[], map[], map[];
      model := NEW_SESSION;
    }

    method SendResponse(id: Id, requestId: int, r: Response, now: real) returns (sent: seq<Bytes>)
      requires Valid()
      modifies this
      ensures Valid() && windows == old(windows)
      ensures (model, sent) == Rpc.SendResponse(epoch, old(model), id, requestId, r, now)
    {
      var plain := EncodeBodyPlain(r);
      if plain.Err? {
        return [];
      }
      var header := PackHeader(ReplyHeader(epoch, id, requestId, |plain.value| + TAG_SIZE));
      if header.Err? {
        return [];
      }
      var nonce := Nonce(id.stream, id.sequence);
      var packet := header.value + epoch.aead.encrypt(epoch.key, nonce, plain.value, header.value);
      cache := cache[ReqKey(id.stream, requestId) := CacheEntry(packet, now + epoch.cacheTtl)];
      inflight := inflight - {ReqKey(id.stream, requestId)};
      model := model.(cache := cache, inflight := inflight);
      sent := [packet];
    }

    method HandleRequest(h: Header, path: Bytes, body: Bytes, now: real) returns (sent: seq<Bytes>, verdict: Verdict)
      requires Valid()
      modifies this, windows.Values
      ensures Valid() && fresh(windows.Values - old(windows.Values))
      ensures Handled(model, sent, verdict) == Rpc.HandleRequest(epoch, old(model), h, path, body, now)
    {
      hide PackHeader, Offer, ValidUtf8, Represents;
      var key := ReqKey(h.streamId, h.requestId);
      if key in cache {
        return [cache[key].packet], Resent;
      }
      var ok;
      windows, ok := Offered(windows, model.windows, h.streamId, h.sequence);
      model := model.(windows := model.windows[h.streamId := Offer(WindowOf(model.windows, h.streamId), h.sequence).0]);
      if !ok {
        return [], Replayed;
      }
      if path == [] {
        return [], EmptyPath;
      }
      if !ValidUtf8(path) {
        return [], BadPath;
      }
      var plain := OpenRequest(epoch, h, path, body);
      if plain.Err? {
        return [], Undecryptable;
      }
      var id := Id(h.streamId, h.sequence);
      var ack := PackHeader(FrameAckHeader(epoch, id, h.requestId));
      if ack.Err? {
        return [], Undecryptable;
      }
      sent := [ack.value];
      if !epoch.routed(h.verb, path) {
        var answer := SendResponse(id, h.requestId, NotFoundResponse(), now);
        return sent + answer, NotFound(plain.value);
      }
      inflight := inflight[key := now + INFLIGHT_TTL];
      model := model.(inflight := inflight);
      verdict := Started(plain.value);
    }

    // The session's part of one pass of the cleanup loop.
    method Sweep(now: real)
      requires Valid()
      modifies this
      ensures Valid() && windows == old(windows)
      ensures model == Rpc.Sweep(old(model), now)
    {
      var keys := cache.Keys;
      while keys != {}
        invariant keys <= old(cache).Keys && inflight == old(inflight) && windows == old(windows) && model == old(model)
        invariant cache.Keys <= old(cache).Keys
        invariant forall k | k in old(cache) :: if k in keys || old(cache)[k].expiresAt >= now
                                                then k in cache && cache[k] == old(cache)[k] else k !in cache
        decreases |keys|
      {
        var k :| k in keys;
        keys := keys - {k};
        if cache[k].expiresAt < now {
          cache := cache - {k};
        }
      }
      keys := inflight.Keys;
      while keys != {}
        invariant keys <= old(inflight).Keys && cache == Rpc.Sweep(old(model), now).cache && windows == old(windows) && model == old(model)
        invariant inflight.Keys <= old(inflight).Keys
        invariant forall k | k in old(inflight) :: if k in keys || old(inflight)[k] >= now
                                                   then k in inflight && inflight[k] == old(inflight)[k] else k !in inflight
        decreases |keys|
      {
        var k :| k in keys;
        keys := keys - {k};
        if inflight[k] < now {
          inflight := inflight - {k};
        }
      }
      model := Rpc.Sweep(model, now);
    }
  }

  class FastUDPClient {
    const epoch: Epoch
    var streams: map<int, Stream>
    var windows: map<int, ReplayWindow>
    var pending: map<ReqKey, Id>
    var calls: map<Id, Call>
    var outcomes: map<Id, Outcome> // the futures
    ghost var model: Client

    ghost predicate Valid()
      reads this, windows.Values
    {
      && WindowTable(windows, model.windows)
      && model == Client(streams, model.windows, pending, calls, outcomes)
    }

    constructor (epoch: Epoch)
      ensures Valid() && model == NEW_CLIENT && this.epoch == epoch && fresh(windows.Values)
    {
      this.epoch := epoch;
      streams, windows, pending, calls, outcomes := map[], map[], map[], map[], map[];
      model := NEW_CLIENT;
    }

    // request() up to its first send.
    method Begin(stream: int, verb: int, path: Text, body: Bytes) returns (packet: Result<Bytes>)
      requires Valid()
      modifies this
      ensures Valid() && windows == old(windows)
      ensures (model, packet) == Rpc.Begin(epoch, old(model), stream, verb, path, body)
    {
      hide PackHeader, RequestPacket, Represents;
      if |body| > MAX_BODY_BYTES {
        return Err(PacketTooLarge);
      }
      if stream !in streams && |streams| >= epoch.maxStreams {
        return Err(ProtocolError);
      }
      var s := if stream in streams then streams[stream] else Stream(1, 0);
      var requestId, sequence := s.nextRequestId, s.nextSeq;
      streams := streams[stream := Stream(requestId + 1, sequence + 1)];
      model := model.(streams := streams);
      if |path| > MAX_PATH_BYTES {
        return Err(PacketTooLarge);
      }
      var id := Id(stream, sequence);
      packet := RequestPacket(epoch, id, Call(requestId, verb, path, body));
      if packet.Err? {
        return;
      }
      pending := pending[ReqKey(stream, requestId) := id];
      calls := calls[id := Call(requestId, verb, path, body)];
      outcomes := outcomes[id := Waiting];
      model := model.(pending := pending, calls := calls, outcomes := outcomes);
    }

    // The last timeout of request().
    method GiveUp(id: Id)
      requires Valid()
      modifies this
      ensures Valid() && windows == old(windows)
      ensures model == Rpc.GiveUp(old(model), id)
    {
      if id in calls && id in outcomes && outcomes[id] == Waiting {
        pending := pending - {ReqKey(id.stream, calls[id].requestId)};
        outcomes := outcomes[id := TimedOut];
        model := model.(pending := pending, outcomes := outcomes);
      }
    }

    method Receive(data: Bytes)
      requires Valid()
      modifies this, windows.Values
      ensures Valid() && fresh(windows.Values - old(windows.Values))
      ensures model == ClientReceive(epoch, old(model), data)
    {
      hide ClientSplit;
      var d := ClientSplit(data);
      if d.Ok? && d.value.header.msgType == MSG_RESPONSE {
        OnResponse(d.value.header, d.value.body);
      }
    }

    method OnResponse(h: Header, body: Bytes)
      requires Valid()
      modifies this, windows.Values
      ensures Valid() && fresh(windows.Values - old(windows.Values))
      ensures model == Rpc.OnResponse(epoch, old(model), h, body)
    {
      hide Rpc.Settle, Offer, Represents;
      if h.sessionId != epoch.sessionId {
        return;
      }
      var ok;
      windows, ok := Offered(windows, model.windows, h.streamId, h.sequence);
      model := model.(windows := model.windows[h.streamId := Offer(WindowOf(model.windows, h.streamId), h.sequence).0]);
      if ok {
        Settle(h, body);
      }
    }

    method Settle(h: Header, body: Bytes)
      requires Valid()
      modifies this
      ensures Valid() && windows == old(windows)
      ensures model == Rpc.Settle(epoch, old(model), h, body)
    {
      hide OpenReply, Represents;
      var key := ReqKey(h.streamId, h.requestId);
      if key !in pending {
        return;
      }
      var id := pending[key];
      pending := pending - {key};
      model := model.(pending := pending);
      if id !in outcomes || outcomes[id] != Waiting {
        return;
      }
      var r := OpenReply(epoch, h, body);
      outcomes := outcomes[id := if r.Ok? then Answered(r.value) else Failed];
      model := model.(outcomes := outcomes);
    }
  }
}
