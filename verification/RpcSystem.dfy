// One client, one server session and a network that loses, duplicates and reorders datagrams,
// as a step system; and the abstract at-most-once RPC that it refines.
module RpcSystem {
  import opened Common
  import opened Codec
  import opened ReplayWindows
  import opened Primitives
  import opened Rpc

  // ---------- the abstract service ----------

  datatype Exec = NotRun | Running | Done(response: Response)

  datatype AbstractCall = AbstractCall(verb: int, path: Bytes, body: Bytes, exec: Exec, outcome: Outcome)

  // The service is a family of calls, one for each identifier (None: not issued yet). This is all
  // that may happen to a call in an at-most-once RPC service: a handler starts only from NotRun, and
  // an answer is the result of the execution of that same call.
  ghost predicate Move(e: Epoch, before: Option<AbstractCall>, after: Option<AbstractCall>) {
    || after == before
    || (before.None? && after.Some? && after.value.exec == NotRun && after.value.outcome == Waiting)
    || (before.Some? && after.Some? && Advance(e, before.value, after.value))
  }

  ghost predicate Advance(e: Epoch, c: AbstractCall, c': AbstractCall) {
    || (c.exec == NotRun && e.routed(c.verb, c.path) && c' == c.(exec := Running))
    || (c.exec == NotRun && !e.routed(c.verb, c.path) && c' == c.(exec := Done(NotFoundResponse())))
    || (c.exec == Running && c'.exec.Done? && c' == c.(exec := c'.exec))
    || (c.exec.Done? && c.outcome == Waiting && c' == c.(outcome := Answered(Truncated(c.exec.response))))
    || (c.outcome == Waiting && c' == c.(outcome := TimedOut))
  }

  // ---------- the concrete system ----------

  // A request that the server accepted, with the state of its handler task.
  datatype Served = Served(requestId: int, verb: int, path: Bytes, body: Bytes, exec: Exec)

  datatype System = System(
    client: Client,
    session: Session,
    live: bool, // the server's session table still holds the session
    toServer: set<Bytes>,
    toClient: set<Bytes>,
    served: map<Id, Served>,
    started: seq<Id>, // every handler task ever created, in order
    now: real)

  datatype Step =
    | Request(stream: int, verb: int, path: Text, body: Bytes)
    | Retransmit(id: Id)
    | Timeout(id: Id)
    | DeliverToServer(data: Bytes) // the datagram stays in the network: it may be delivered again
    | DeliverToClient(data: Bytes)
    | LoseToServer(data: Bytes)
    | LoseToClient(data: Bytes)
    | Finish(task: Id, response: Response)
    | Cleanup
    | Close
    | Tick(elapsed: real)

  const INITIAL := System(NEW_CLIENT, NEW_SESSION, true, {}, {}, map[], [], 0.0)

  function AsSet<T>(s: seq<T>): set<T> {
    set x | x in s
  }

  // The server's session, the network and the served calls after one REQUEST has been handled.
  function Handle(s: System, id: Id, requestId: int, verb: int, path: Bytes, handled: Handled): System {
    var s1 := s.(session := handled.session, toClient := s.toClient + AsSet(handled.sent));
    match handled.verdict
    case NotFound(body) => s1.(served := s.served[id := Served(requestId, verb, path, body, Done(NotFoundResponse()))])
    case Started(body) => s1.(served := s.served[id := Served(requestId, verb, path, body, Running)], started := s.started + [id])
    case _ => s1
  }

  function ServerReceive(e: Epoch, s: System, data: Bytes): System {
    var d := ServerSplit(data);
    if !s.live || d.Err? || d.value.header.msgType != MSG_REQUEST || d.value.header.sessionId != e.sessionId then s
    else
      var h := d.value.header;
      Handle(s, Id(h.streamId, h.sequence), h.requestId, h.verb, d.value.path,
             HandleRequest(e, s.session, h, d.value.path, d.value.body, s.now))
  }

  function FinishTask(e: Epoch, s: System, task: Id, r: Response): System {
    var (session, sent) := SendResponse(e, s.session, task, if task in s.served then s.served[task].requestId else 0, r, s.now);
    if task in s.served && s.served[task].exec == Running then
      s.(session := session, toClient := s.toClient + AsSet(sent), served := s.served[task := s.served[task].(exec := Done(r))])
    else s
  }

  // A step that is not enabled changes nothing.
  function Apply(e: Epoch, s: System, step: Step): System {
    match step
    case Request(stream, verb, path, body) =>
      if 0 <= verb <= MAX_VERB then
        var (client, packet) := Begin(e, s.client, stream, verb, path, body);
        s.(client := client, toServer := if packet.Ok? then s.toServer + {packet.value} else s.toServer)
      else s
    case Retransmit(id) =>
      if id in s.client.calls && id in s.client.outcomes && s.client.outcomes[id] == Waiting then
        var packet := RequestPacket(e, id, s.client.calls[id]);
        s.(toServer := if packet.Ok? then s.toServer + {packet.value} else s.toServer)
      else s
    case Timeout(id) => s.(client := GiveUp(s.client, id))
    case DeliverToServer(data) => if data in s.toServer then ServerReceive(e, s, data) else s
    case DeliverToClient(data) => if data in s.toClient then s.(client := ClientReceive(e, s.client, data)) else s
    case LoseToServer(data) => s.(toServer := s.toServer - {data})
    case LoseToClient(data) => s.(toClient := s.toClient - {data})
    case Finish(task, response) => FinishTask(e, s, task, response)
    case Cleanup => s.(session := Sweep(s.session, s.now))
    case Close => s.(live := false)
    case Tick(elapsed) => if elapsed >= 0.0 then s.(now := s.now + elapsed) else s
  }

  function Run(e: Epoch, steps: seq<Step>): System {
    if steps == [] then INITIAL else Apply(e, Run(e, steps[..|steps| - 1]), steps[|steps| - 1])
  }

  lemma OneMore(e: Epoch, steps: seq<Step>, step: Step)
    ensures Run(e, steps + [step]) == Apply(e, Run(e, steps), step)
  {
    hide Apply;
    assert (steps + [step])[..|steps|] == steps;
  }

  ghost predicate Admissible(e: Epoch) {
    Sound(e.aead)
  }

  // The call `id` of the abstract service, as the concrete state shows it.
  function View(s: System, id: Id): Option<AbstractCall> {
    if id in s.client.calls && id in s.client.outcomes then
      var c := s.client.calls[id];
      Some(AbstractCall(c.verb, c.path, c.body, if id in s.served then s.served[id].exec else NotRun, s.client.outcomes[id]))
    else None
  }

  // A step of the service moves one call, and that call only.
  ghost predicate ServiceStep(e: Epoch, s: System, s': System) {
    exists id :: Moves(e, s, s', id)
  }

  ghost predicate Moves(e: Epoch, s: System, s': System, id: Id) {
    && Move(e, View(s, id), View(s', id))
    && forall other {:trigger View(s', other)} | other != id :: View(s', other) == View(s, other)
  }

  // ---------- the inductive invariant ----------

  // Each clause speaks of one identifier or key and is used by naming it.

  // Every call drew its own pair of numbers, and the request id runs one ahead.
  predicate NumberedStream(c: Client, stream: int) {
    stream in c.streams ==> c.streams[stream].nextSeq >= 0 && c.streams[stream].nextRequestId == c.streams[stream].nextSeq + 1
  }

  predicate NumberedCall(e: Epoch, c: Client, id: Id) {
    && (id in c.calls <==> id in c.outcomes)
    && (id in c.calls ==>
          && id.stream in c.streams
          && 0 <= id.sequence < c.streams[id.stream].nextSeq
          && c.calls[id].requestId == id.sequence + 1
          && 0 <= c.calls[id].verb <= MAX_VERB
          && |c.calls[id].path| <= MAX_PATH_BYTES
          && RequestPacket(e, id, c.calls[id]).Ok?)
  }

  // A call is waiting exactly while its future is on file, and until then the client's window
  // has not accepted its number.
  predicate PendingKey(c: Client, k: ReqKey) {
    k in c.pending ==>
      var id := Id(k.stream, k.request - 1);
      c.pending[k] == id && id in c.outcomes && c.outcomes[id] == Waiting
  }

  predicate WaitingCall(c: Client, id: Id) {
    id in c.outcomes && c.outcomes[id] == Waiting ==>
      ReqKey(id.stream, id.sequence + 1) in c.pending && !Marked(WindowOf(c.windows, id.stream), id.sequence)
  }

  predicate ClientWindow(c: Client, stream: int) {
    stream in c.windows ==>
      Valid(c.windows[stream]) && stream in c.streams && c.windows[stream].highest < c.streams[stream].nextSeq
  }

  ghost predicate ClientInv(e: Epoch, c: Client) {
    && (forall stream {:trigger NumberedStream(c, stream)} :: NumberedStream(c, stream))
    && (forall id {:trigger NumberedCall(e, c, id)} :: NumberedCall(e, c, id))
    && (forall k {:trigger PendingKey(c, k)} :: PendingKey(c, k))
    && (forall id {:trigger WaitingCall(c, id)} :: WaitingCall(c, id))
    && (forall stream {:trigger ClientWindow(c, stream)} :: ClientWindow(c, stream))
  }

  // What the server accepted is what the client sent, and its number is used up.
  predicate ServedCall(c: Client, windows: map<int, Window>, served: map<Id, Served>, id: Id) {
    id in served ==>
      && id in c.calls
      && served[id].requestId == c.calls[id].requestId
      && served[id].verb == c.calls[id].verb
      && served[id].path == c.calls[id].path
      && served[id].body == c.calls[id].body
      && served[id].exec != NotRun
      && Seen(WindowOf(windows, id.stream), id.sequence)
  }

  // A number still marked in a window was accepted for its call, unless that had an empty path.
  predicate MarkedCall(c: Client, windows: map<int, Window>, served: map<Id, Served>, id: Id) {
    id in c.calls && c.calls[id].path != [] && Marked(WindowOf(windows, id.stream), id.sequence) ==> id in served
  }

  predicate ServerWindow(c: Client, windows: map<int, Window>, stream: int) {
    stream in windows ==>
      Valid(windows[stream]) && stream in c.streams && windows[stream].highest < c.streams[stream].nextSeq
  }

  ghost predicate ServerInv(c: Client, windows: map<int, Window>, served: map<Id, Served>) {
    && (forall stream {:trigger ServerWindow(c, windows, stream)} :: ServerWindow(c, windows, stream))
    && (forall id {:trigger ServedCall(c, windows, served, id)} :: ServedCall(c, windows, served, id))
    && (forall id {:trigger MarkedCall(c, windows, served, id)} :: MarkedCall(c, windows, served, id))
  }

  predicate IsRequest(e: Epoch, c: Client, id: Id, packet: Bytes) {
    id in c.calls && RequestPacket(e, id, c.calls[id]) == Ok(packet)
  }

  predicate IsReply(e: Epoch, served: map<Id, Served>, id: Id, packet: Bytes) {
    id in served && served[id].exec.Done? && ReplyPacket(e, id, served[id].requestId, served[id].exec.response) == Ok(packet)
  }

  predicate IsFrameAck(e: Epoch, served: map<Id, Served>, id: Id, packet: Bytes) {
    id in served && PackHeader(FrameAckHeader(e, id, served[id].requestId)) == Ok(packet)
  }

  // The cache holds finished replies only, and never a request that is still in flight.
  predicate CachedKey(e: Epoch, s: Session, served: map<Id, Served>, k: ReqKey) {
    k in s.cache ==> k !in s.inflight && IsReply(e, served, Id(k.stream, k.request - 1), s.cache[k].packet)
  }

  ghost predicate CacheInv(e: Epoch, s: Session, served: map<Id, Served>) {
    forall k {:trigger CachedKey(e, s, served, k)} :: CachedKey(e, s, served, k)
  }

  ghost predicate FromClient(e: Epoch, c: Client, packet: Bytes) {
    exists id :: IsRequest(e, c, id, packet)
  }

  ghost predicate FromServer(e: Epoch, served: map<Id, Served>, packet: Bytes) {
    exists id :: IsReply(e, served, id, packet) || IsFrameAck(e, served, id, packet)
  }

  ghost predicate Network(e: Epoch, s: System) {
    && (forall d | d in s.toServer :: FromClient(e, s.client, d))
    && (forall d | d in s.toClient :: FromServer(e, s.served, d))
  }

  predicate AnsweredCall(c: Client, served: map<Id, Served>, id: Id) {
    id in c.outcomes ==>
      && c.outcomes[id] != Failed
      && (c.outcomes[id].Answered? ==>
            id in served && served[id].exec.Done? && c.outcomes[id].response == Truncated(served[id].exec.response))
  }

  ghost predicate AnswerInv(c: Client, served: map<Id, Served>) {
    forall id {:trigger AnsweredCall(c, served, id)} :: AnsweredCall(c, served, id)
  }

  // Every handler task belongs to a different accepted request.
  predicate StartedOnce(started: seq<Id>, served: map<Id, Served>) {
    && (forall i | 0 <= i < |started| :: started[i] in served)
    && (forall i, j | 0 <= i < j < |started| :: started[i] != started[j])
  }

  ghost predicate Inv(e: Epoch, s: System) {
    && ClientInv(e, s.client)
    && ServerInv(s.client, s.session.windows, s.served)
    && CacheInv(e, s.session, s.served)
    && Network(e, s)
    && AnswerInv(s.client, s.served)
    && StartedOnce(s.started, s.served)
  }
}
