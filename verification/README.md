# fastudp: a verified model

`fastudp` is a small request/response protocol over UDP with a pre-shared-key handshake, resumption
tickets, encrypted requests on numbered streams, an anti-replay window, a response cache, address
migration, per-address rate limits, a congestion controller and a router. This project models that
logic in Dafny and proves what the protocol as a whole does, for every input, every interleaving and
every run.

The model works on bytes. Datagrams are byte strings, both ends parse and build them with the codec of
the protocol, and the network is a set of byte strings that it may deliver any number of times, in any
order, or never. `dafny verify dfyconfig.toml` checks everything.

## How it is laid out

| files | what they hold |
|---|---|
| `Common`, `Bits`, `Primitives` | bytes, big-endian numbers, UTF-8; shifts and masks on naturals; the cryptographic primitives as parameters |
| `ReplayWindows` | the sliding window, its refinement of the plain set of accepted numbers, and the object |
| `Codec` | header, response body, handshake bodies and ticket payload |
| `Rpc`, `RpcSystem`, `RpcSafety`, `RpcTheorems`, `RpcObjects` | requests and responses: the two ends as functions, the step system and its invariant, the proof of each step, the theorems, the mutable objects |
| `RpcNonces`, `RpcCompletion`, `RpcEpochs` | every encryption of an epoch and its nonce; exactly which calls can still be answered; what crosses from one epoch to the next |
| `RpcRequests` | which requests are sent and which responses accepted, in numbers and raw bytes, for every input |
| `Security` | HKDF expansion, session keys, tickets, the mac |
| `Handshake`, `HandshakeSystem`, `HandshakeSafety`, `HandshakeTheorems`, `HandshakeExchange`, `LateAck`, `HandshakeObjects` | handshake and resumption, in the same way |
| `ServerLaws`, `ClientLaws`, `SessionLife`, `Migration` | what one datagram or cleanup pass does to every session and entry, and a datagram to a client; how long sessions and entries last over runs; how addresses move |
| `WireFormats` | constants, layouts, authenticated texts, derived keys and tickets, written out in literal numbers and bytes |
| `Routing`, `Templates` | the template compiler, the meaning of what it emits, matching, the table; the grammar of templates |
| `TokenBuckets`, `RateLimits`, `Congestion` | the arithmetic cores, over the reals |

Code that changes state in place is a class here too (`ReplayWindow`, the two halves of `SessionState`, `FastUDPServer`,
the two halves of `FastUDPClient`, `TokenBucket`, `RateLimiter`, `RouteTable`,
`UDPCongestionController`), and the loops of the code are loops. Each method is proved to do to its
object what a function says of the object's value, and the theorems are about those functions.

## The main results

1. **At-most-once requests.** Every run of client, server session and network, with loss, duplication,
   reordering, retries, timeouts, concurrent handlers, cache eviction and closing, is a run of an
   abstract at-most-once service (`RpcTheorems.Refinement`). So every handler task belongs to a
   different call and gets that call's exact method, path and body, no future ever fails, and a resolved
   future holds the response of its own call's execution (`AtMostOnce`). What is settled stays settled
   (`NothingUndone`). A waiting call can be answered by some continuation exactly if its reply is in the
   network, is being made, or would be sent for one more copy of the request, and the client's window
   still takes it; four steps are then enough (`RpcCompletion.CompletesIff`).
2. **The replay window** decides every sequence of calls as the plain set of accepted numbers would
   (`ReplayWindows.EveryCallSequence`).
3. **Key agreement.** Over every run of any number of clients, whoever holds a session at whatever two
   moments holds the key it was created with, and so does every outstanding ticket, except for one case
   of the code, given exactly by `AckAgreesIff` (next section).
   Two encryptions of an epoch share a nonce exactly if they are the request and the response of one
   call (`RpcNonces.NonceSharedIff`).
4. **Conservation.** Sessions never outnumber the HELLOs that enrolled, and each comes from one unexpired
   pending entry that is then gone.
5. **Lifetimes and migration.** One law covers every datagram from anywhere: exactly when a session enters
   the table, leaves it, moves or is challenged, and exactly when a pending entry comes and goes
   (`ServerLaws.DatagramLaw`). Over runs, between resumptions, a session is in the table exactly if it was
   and nothing ended it (`SessionLife.SessionLifetime`), a delivered CLOSE is final but for a ticket
   (`CloseIsFinal`), entries last exactly until they are redeemed, replaced or found expired
   (`EntryLifetime`), and every address change has its HELLO, or its earlier challenge and either that
   challenge's token or traffic of the session (`Migration.MigrationHistory`).
6. **Codec, routing, arithmetic.** Both-way round trips, a template compiler that accepts exactly a grammar of
   templates and preserves their meaning with a greedy right-inverse matcher, the min-plus closed form of
   the token bucket, the exact rule by which the limiter lets datagrams pass, and the square-root growth
   of the congestion window.

## Where the code differs from what it promises

* **A resumption ACK that comes too late.** The client restores its session from the ticket inside the
  ACK (`fastudp/client.py:299-306`). If its clock has passed that ticket's expiry, it falls through and
  derives a key from the nonce of the ACK, which for a resumption is not the nonce that the session's
  key was made from. The client then holds the right session id with a key that the server never has.
  `HandshakeTheorems.AckAgreesIff` gives the exact condition over all runs,
  `HandshakeExchange.ResumedHandshake` the same for one exchange, and `LateAck.LateAckExample` a run of
  nine steps from the initial state that ends this way.
  The model's history marks such clients as late and says of them what they hold.
* **Address changes need no answer.** The repository's README asks that migration be authenticated.
  While a challenge to an address is live, any datagram for the session from that address moves the
  session there (`fastudp/server.py:202-206`, `501-506`); `Migration.UnansweredChallengeMoves` says
  exactly when.
* **Unique nonces.** The repository's README promises unique nonces from stream and sequence numbers. A
  response is encrypted under the nonce of its request (`fastudp/server.py:626`), so a call's nonce is
  used twice exactly if the server has built its response packet (`RpcNonces.NonceUsedTwiceIff`), and
  never otherwise: over all encryptions of a run, two share a nonce exactly if they are the request and
  the response of one call (`NonceSharedIff`). `SharedNonceRun` is a run that ends with both in the
  network.
* **Resumption and the request layer.** A resumption keeps the session's id and key, restarts the client's
  counters (`fastudp/client.py:302-308`) and leaves a live session's tables in place
  (`fastudp/server.py:379-383`). A new request then repeats a nonce exactly if the old epoch drew its
  number, is answered from the old cache exactly while that holds an entry under its number, and is
  refused exactly if the number is otherwise used up (`RpcEpochs.SecondEpochRequest`). The old answer
  resolves the new future exactly if the client's window, which outlives the epoch, still takes the
  number (`StaleAnswerIff`, with a case in `StaleAnswerExample`). A session rebuilt from a ticket after its
  removal runs old requests again (`RebuiltSessionRunsAgain`), so at-most-once is per server session.
* **Empty client ids** pass the encoder, and they alone are refused by the decoder
  (`HandshakeSafety.OnlyEmptyClientIdRefused`).
* **Packets in flight** are counted down once more for a duplicate ack. From agreement, the count agrees
  with the record of sent packets all along a sequence of events exactly if every event is on record in
  the state it meets (`Congestion.InFlightMatchesIff`).
* A response status outside 16 bits arrives reduced modulo 2^16 (`Codec.BodyRoundTrip`).
* `hkdf_expand` raises only beyond 255 blocks; a negative length gives no octets
  (`Security.HkdfExpand`).

## Assumptions

* The AEAD decrypts what it encrypted and adds a 16-byte tag; HMAC-SHA-256 and SHA-256 give 32 bytes.
  Nothing is said of their strength. `DistinctKeys`, used only where two keys are shown to differ, says
  that different 16-byte server nonces give one client different keys. `HandshakeTheorems.AssumptionsMet`
  shows that all of this can hold together.
* Server nonces and session ids are fresh, and HELLO, PROVE, CHALLENGE and ACK datagrams come from the
  protocol's two ends. All other datagrams may come from anywhere in the handshake system. In the
  request system every datagram comes from one of the two ends.
* Time moves forward. Wall clocks are arbitrary at every step, and need not agree.
* A handler reads the clock once where the code reads it two or three times.

## Model

| member | source | states |
|---|---|---|
| ReplayWindows.OfferStep | fastudp/security.py:37-60 | one call accepts exactly the non-negative numbers neither marked nor too old, moves the top to the maximum, marks exactly the new number, keeps every refused number refused and keeps the bitmap below 2^64 |
| ReplayWindows.OfferRefines | fastudp/security.py:37-60 | a window that represents a set of accepted numbers decides as the set does and then represents the set with the accepted number added |
| ReplayWindows.EveryCallSequence | fastudp/security.py:37-60 | after every sequence of calls, bit d is set iff highest-d was accepted, and the next call is accepted iff its number is non-negative, new, and less than 64 below every accepted number |
| ReplayWindows.NeverTwice | fastudp/security.py:37-60 | a number once accepted is refused after any further calls |
| ReplayWindows.ReplayWindow.Accept | fastudp/security.py:37-60 | the object's verdict is the set rule on the history of everything it ever accepted |
| Codec.HeaderRoundTrip | fastudp/codec.py:21-55 | unpacking a packed header followed by anything gives its fields back, method and flags modulo 256 |
| Codec.HeaderRebuild | fastudp/codec.py:21-55 | re-packing whatever was unpacked gives the sender's 34 bytes, so rebuilt associated data is the sender's |
| Codec.DatagramRoundTrip | fastudp/server.py:168-178 | both ends split a datagram into the sender's header, path and body; the server refuses it exactly when the path or the datagram is over its limit |
| Codec.NonceInjective | fastudp/codec.py:57-59 | nonces of header-sized stream and sequence numbers are equal only for equal pairs |
| Codec.BodyRoundTrip | fastudp/codec.py:61-78 | a response body decodes to the same content type and payload and to the status modulo 2^16 |
| Codec.HelloRoundTrip | fastudp/codec.py:80-120 | decoding an encoded HELLO followed by anything gives the HELLO |
| Codec.ChallengeRoundTrip | fastudp/codec.py:122-192 | the same for CHALLENGE and PROVE bodies |
| Codec.AckRoundTrip | fastudp/codec.py:194-240 | the same for ACK |
| Codec.TicketRoundTrip | fastudp/codec.py:262-294 | the same for ticket payloads |
| Codec.HelloPrefixFree | fastudp/codec.py:80-120 | no encoded HELLO is a prefix of a different one; the encoder is injective |
| Codec.ChallengePrefixFree | fastudp/codec.py:122-192 | the same for CHALLENGE and PROVE |
| Codec.AckPrefixFree | fastudp/codec.py:194-240 | the same for ACK |
| Codec.TicketPrefixFree | fastudp/codec.py:262-294 | the same for ticket payloads |
| Codec.HelloRebuild | fastudp/codec.py:80-120 | a decoded HELLO can be encoded iff its ticket is within the limit, and then gives the consumed prefix of the body |
| Codec.ChallengeRebuild | fastudp/codec.py:122-192 | a decoded CHALLENGE or PROVE encodes to the consumed prefix |
| Codec.AckRebuild | fastudp/codec.py:194-240 | a decoded ACK can be encoded iff its ticket is within the limit, and then gives the consumed prefix |
| Codec.TicketRebuild | fastudp/codec.py:262-294 | a decoded ticket payload encodes to the consumed prefix |
| WireFormats.HeaderLayout | fastudp/codec.py:21-55 | each field of a header is at its place in the 34 bytes, most significant byte first |
| WireFormats.DatagramReadIff | fastudp/server.py:168-178 | a client reads a datagram iff it has our header and the lengths in it do not exceed the datagram, a server only if it also has at most 4096 bytes and a path of at most 512; where path and body lie; which error the others get |
| WireFormats.MostSignificantFirst | fastudp/codec.py:21-55 | numbers are big-endian: the first byte is the most significant |
| WireFormats.DecimalDenotes | fastudp/security.py:78-89 | the text of a number is the digits that denote it, without a superfluous zero |
| WireFormats.DecimalInjective | fastudp/security.py:78-89 | different numbers have different texts |
| WireFormats.MacTexts | fastudp/security.py:78-89 | each of the five macs is the HMAC of its label and fields with bars between them, in the stated order |
| WireFormats.SessionKeyIs | fastudp/security.py:119-122 | the session key is one HMAC block over label, client id and nonces, under the key extracted from the two nonces |
| WireFormats.TicketIs | fastudp/security.py:100-116 | a ticket is the first 12 octets of a hash of its payload followed by the payload sealed under them, and a string of at least 28 bytes is opened under its own first 12 |
| Rpc.RequestDelivered | fastudp/client.py:394-401 | a request packet passes the server's checks iff it is at most 4096 bytes, and then the server gets the header's fields, the path and, by decrypting under the header it rebuilds, the exact body |
| Rpc.FrameAckDelivered | fastudp/server.py:572-573 | a frame acknowledgement is read back with its numbers |
| Rpc.ReplyDelivered | fastudp/client.py:334-340 | the client decrypts a response packet to the server's content type and payload and to the status modulo 2^16 |
| RpcSafety.HandleGenuine | fastudp/server.py:532-598 | a genuine request is never undecryptable: it is resent from the cache, refused by the window, dropped for an empty path, answered 404, or started with the client's exact body |
| RpcSafety.EveryStep | fastudp/server.py:532-641 | every step of client, server, network and clock keeps the invariant and is one step of the abstract service or none |
| RpcTheorems.Reachable | fastudp/server.py:532-641 | every run stays in the invariant |
| RpcTheorems.Refinement | fastudp/server.py:532-641 | the system refines the abstract at-most-once service: each step moves at most one call, and as the service allows |
| RpcTheorems.NothingUndone | fastudp/client.py:388-417 | over any continuation of a run a call keeps its request, an execution never restarts and keeps its result, and a settled outcome stays |
| RpcTheorems.AtMostOnce | fastudp/server.py:575-614 | in every run each handler task is for a different call, with that call's method, path and body; no future fails; a resolved future holds the response of its own execution |
| RpcTheorems.NeverRunAgain | fastudp/server.py:532-542 | delivering an accepted request again, before or after eviction, starts nothing; cached and in-flight keys are disjoint |
| RpcTheorems.AnsweredUntilEvicted | fastudp/server.py:273-278 | after any cleanup times, a retransmission is answered with the very same packet iff no cleanup came after the response's expiry |
| RpcTheorems.NoncesDiffer | fastudp/client.py:388-398 | in every run the request id is one ahead of the sequence number on each stream, and two calls have one nonce iff they are one call |
| RpcNonces.SealsMakePackets | fastudp/server.py:625-638 | every request and response packet is its associated data followed by one encryption under the nonce of its stream and sequence number |
| RpcNonces.EveryStepSeals | fastudp/client.py:398-401 | each step encrypts at most once, a request when its call is made and a reply when its execution ends; retransmissions and cached answers encrypt nothing |
| RpcNonces.SealedIsState | fastudp/server.py:625-638 | in every run the encryptions made are exactly one per call and one per response packet built, each with that call's or response's own arguments |
| RpcNonces.NonceSharedIff | fastudp/codec.py:57-59 | two encryptions of a run share a nonce iff they are the request and the reply of one call |
| RpcNonces.NonceUsedTwiceIff | fastudp/server.py:626-637 | a call's nonce is used twice iff the server has built its response packet |
| RpcNonces.SharedNonceRun | fastudp/server.py:626-641 | a run that ends with a request and its response in the network under one nonce |
| RpcTheorems.CanComplete | fastudp/client.py:409-417 | from every reachable state in which one more copy of the request would be answered, at most four steps (retransmit, deliver, finish with any response, deliver) resolve the call |
| RpcCompletion.ChanceTaken | fastudp/client.py:409-417 | a call with a chance is resolved by at most four steps |
| RpcCompletion.NoStepGivesChance | fastudp/server.py:532-542 | no step of client, server, network, handlers, cleanup or clock gives a call without a chance one |
| RpcCompletion.CompletesIff | fastudp/client.py:324-342 | in every reachable state a waiting call can be answered by some continuation iff the client's window still takes its number and its reply is in the network, is being made, or would be sent for one more copy of the request |
| RpcEpochs.SecondEpochRequest | fastudp/client.py:302-308 | a request of the next epoch repeats an old nonce iff the old epoch drew its number, is answered from the old cache iff that has an entry under its number, and is refused iff the number is otherwise used up |
| RpcEpochs.StaleAnswerIff | fastudp/server.py:532-537 | the old session's cached answer resolves the new request's future with the old call's response iff the client's surviving window still takes the number |
| RpcEpochs.StaleAnswerExample | fastudp/server.py:532-537 | a run after which a new request with another body gets the old answer |
| RpcEpochs.ExecutedIff | fastudp/server.py:532-542 | a genuine request is executed by a session iff that neither caches its reply nor has its number used up, and its path is not empty; then with the call's exact body |
| RpcEpochs.RebuiltSessionRunsAgain | fastudp/server.py:368-378 | a session rebuilt from a ticket executes every genuine request of the old epoch again |
| RpcRequests.RequestSentIff | fastudp/client.py:383-401 | a request is sent iff its body has at most 1048576 bytes and its path at most 512, its stream is known or has room, and the numbers fit; the refusals come in the code's order and only the later ones use up numbers; an accepted one is filed and waits |
| RpcRequests.RequestSends | fastudp/client.py:364-410 | in every reachable state a request that meets those conditions puts a packet into the network from which the server reads its verb, path and body, and waits; any other sends and files nothing |
| RpcRequests.RequestCanComplete | fastudp/client.py:364-419 | from every reachable state, such a request with a path and within a datagram's size is resolved by at most four further steps |
| RpcRequests.TimeoutSettles | fastudp/client.py:413-417 | a timeout of a waiting call takes its entry off file, changes nothing else, and no later step of the run answers it |
| RpcRequests.OtherSessionIgnored | fastudp/client.py:325-326 | a datagram that names another session changes nothing at either end |
| RpcRequests.AnyResponse | fastudp/client.py:324-342 | any RESPONSE of the session, genuine or not: a used number changes no future; a new one takes the future under its key off file and resolves it with the response iff the body opens and decodes |
| RpcRequests.ResponseOpensIff | fastudp/client.py:334-340 | any response of the session opens under the nonce of its numbers and exactly these 34 bytes: its own, with the kind and flags of a response, no method and no path |
| RpcRequests.RequestOpensUnderItsBytes | fastudp/server.py:551-567 | a request opens under exactly the header and path bytes that precede its body |
| RpcRequests.AnyRequest | fastudp/server.py:520-598 | any REQUEST of the session, genuine or not: resent from the cache, refused as replayed, dropped, answered 404 or started with the in-flight mark for ten seconds, and what each leaves of the tables |
| RpcRequests.ResponseSentIff | fastudp/server.py:616-641 | a response is sent and cached for the time to live iff its content type has at most 65535 bytes and the numbers fit; otherwise nothing changes |
| RpcRequests.NotFoundSays | fastudp/server.py:575-581 | an unrouted request is answered with status 404 and this JSON text |
| RpcObjects.Offered | fastudp/server.py:539-540 | looking up a stream's window, creating it if needed, and offering a number changes that stream's window only, as the window rule says |
| RpcObjects.SessionState.HandleRequest | fastudp/server.py:520-598 | the session object's tables, the packets sent and the verdict are those of the specification, on its in-place tables and window objects |
| RpcObjects.SessionState.SendResponse | fastudp/server.py:616-641 | caching, in-flight removal and the packet sent; a packing failure changes nothing |
| RpcObjects.SessionState.Sweep | fastudp/server.py:273-278 | the two cleanup loops drop exactly the expired cached responses and in-flight marks |
| RpcObjects.FastUDPClient.Begin | fastudp/client.py:364-410 | numbers drawn, future filed and first packet, or the exception raised with exactly the numbers drawn by then, as RequestSentIff states in numbers |
| RpcObjects.FastUDPClient.GiveUp | fastudp/client.py:413-417 | the last timeout removes the pending entry and fixes the outcome |
| RpcObjects.FastUDPClient.Receive | fastudp/client.py:216-245 | a datagram changes the client as the specification says, and only if it is a response |
| RpcObjects.FastUDPClient.OnResponse | fastudp/client.py:324-342 | session check, then the stream's window, then the future |
| RpcObjects.FastUDPClient.Settle | fastudp/client.py:330-342 | the popped future is resolved at most once, with the decrypted response or an error |
| Security.BlockAt | fastudp/security.py:67-75 | octet i of the expansion's blocks is octet i mod 32 of block i div 32 + 1 (section 2.3 of RFC 5869) |
| Security.ExpandAt | fastudp/security.py:67-75 | the output has the asked length and its octets do not depend on that length |
| Security.ExpandPrefix | fastudp/security.py:67-75 | a shorter output is a prefix of a longer one |
| Security.HkdfExpand | fastudp/security.py:67-75 | the loop ends with the first `length` octets of T(1), T(2), ... up to 255 blocks, and raises exactly beyond |
| Security.SessionKeySize | fastudp/security.py:119-122 | session keys have 32 bytes, as the ticket encoder demands |
| Security.SealedTicketOpens | fastudp/security.py:104-116 | an opened sealed ticket is its payload, and is 28 bytes longer |
| Security.Mac | fastudp/security.py:78-89 | the incremental hash is the hash of the parts with bars between them |
| HandshakeSafety.HelloDelivered | fastudp/codec.py:80-120 | every HELLO that its encoder accepts fits a datagram and is decoded by the server to the same message |
| HandshakeSafety.ChallengeDelivered | fastudp/codec.py:122-156 | the same for CHALLENGE at the client |
| HandshakeSafety.ProveDelivered | fastudp/codec.py:158-192 | the same for PROVE, which the server refuses exactly when the cookie makes it longer than 4096 bytes |
| HandshakeSafety.AckDelivered | fastudp/codec.py:194-240 | the same for ACK at the client |
| HandshakeSafety.OnlyEmptyClientIdRefused | fastudp/codec.py:103-104 | a HELLO with fields of the protocol's sizes that the encoder accepts always passes the server's datagram checks, and is decoded iff its client id is not empty |
| HandshakeSafety.TicketRestores | fastudp/server.py:298-308 | a sealed ticket gives its owner, and nobody else, the sealed session and key until it expires, at either end |
| HandshakeSafety.HelloStep | fastudp/server.py:358-425 | a HELLO from any client, duplicated or redirected, changes nothing if the table is full or it does not verify; else it restores its ticket's session under that session's own key at the sender's address; else it leaves one recorded pending entry; nothing else changes and the invariant is kept |
| HandshakeSafety.ProveStep | fastudp/server.py:427-463 | a PROVE changes nothing, removes an expired entry, or spends one entry on one new session with the key of that entry's nonces and a ticket of its own; nothing else changes and the invariant is kept |
| HandshakeSafety.ClientGetsStep | fastudp/client.py:272-322 | whatever a client makes of a datagram keeps the invariant |
| HandshakeSafety.EveryStep | fastudp/server.py:358-463 | every step of clients, server, network, cleanup and clock keeps the invariant |
| HandshakeSafety.Reachable | fastudp/server.py:358-463 | every run stays in the invariant |
| HandshakeTheorems.KeyAgreement | fastudp/client.py:292-310 | a client that holds a session (not from a late ACK) and a server that holds it, at any two moments of a run, have the same key and owner, those of the PROVE that created it |
| HandshakeTheorems.OneKeyPerSession | fastudp/server.py:368-383 | through removals and resumptions a session keeps its key and owner |
| HandshakeTheorems.TicketsCarryTheKey | fastudp/server.py:288-296 | every ticket held or in flight restores, whenever and wherever, nothing or its owner's session with the key it was created with |
| HandshakeTheorems.AckAgreesIff | fastudp/client.py:299-308 | the key a client takes from an ACK is the server's iff the ACK's ticket is live for the client's clock or the ACK answers a PROVE |
| HandshakeTheorems.AssumptionsMet | fastudp/security.py:119-122 | the assumptions on the primitives are satisfiable |
| HandshakeTheorems.SessionComesFromEntry | fastudp/server.py:427-450 | each session was created at one step, from a pending entry for the same address, identity and nonces that had not expired and is gone afterwards |
| HandshakeTheorems.Conservation | fastudp/server.py:401-413 | over every run the recorded entries are as many as the HELLOs accepted without restoring a session, and the sessions created are at most as many |
| HandshakeExchange.HelloVerifiedIff | fastudp/server.py:334-341 | a HELLO is verified iff its time is within the skew and its mac is right; otherwise the datagram has no effect |
| HandshakeExchange.ProveCreatesIff | fastudp/server.py:343-353 | a session is created iff the PROVE comes in time and repeats nonce and cookie with a fresh time and the right mac |
| HandshakeExchange.ChallengeAnsweredIff | fastudp/client.py:272-290 | a client answers exactly the challenges for its identity and current nonce with the right mac |
| ClientLaws.ConnectSentIff | fastudp/client.py:247-253 | the HELLO is sent iff client id, held ticket and time are within 128 bytes, 512 bytes and 8 bytes; then the nonce is remembered and the server reads the HELLO, and otherwise the client is unchanged; which error is raised |
| ClientLaws.AnyAck | fastudp/client.py:292-310 | an ACK for the client's identity and nonce gives it the session its ticket restores, or else the one its nonces derive, and its ticket unless that is empty |
| ClientLaws.AnyDatagram | fastudp/client.py:216-245 | nothing but such an ACK changes the client, and only CHALLENGE and PATH_CHALLENGE are answered |
| HandshakeExchange.PathChallengeAnsweredIff | fastudp/client.py:352-362 | a client answers exactly the 16-byte path challenges for its own session, with the token itself |
| HandshakeExchange.ProveAcknowledged | fastudp/server.py:452-463 | the reply to a redeemed PROVE is an authentic ACK with the new session's id, the entry's nonces, the server's time and the ticket on record |
| HandshakeExchange.ResumeAcknowledged | fastudp/server.py:386-399 | the reply to a resumption is an authentic ACK with the session's id, the nonces, the server's time and the renewed ticket |
| HandshakeExchange.TicketFits | fastudp/server.py:288-296 | every issued ticket is sealed and has 86 bytes plus the client id, at most 214 |
| HandshakeExchange.FullHandshake | fastudp/client.py:247-310 | a handshake disturbed by nothing but any number of cleanup passes before the entry's expiry is refused nowhere and leaves both ends with one session, key, owner and ticket, whenever the ACK arrives; the ticket restores exactly that session until it expires |
| HandshakeExchange.ResumedHandshake | fastudp/server.py:363-399 | an undisturbed resumption gives the server the session's own key, and the client the same key iff the ACK arrives before the renewed ticket expires |
| LateAck.LateAckExample | fastudp/client.py:299-308 | a run of nine steps from the initial state, with session ids as the server draws them, after which the two ends hold one session with different keys |
| HandshakeExchange.PathValidationCompletes | fastudp/server.py:485-518 | the owner's answer to a path challenge moves the session and uses the challenge up if it is in time, and otherwise changes nothing |
| ServerLaws.DatagramLaw | fastudp/server.py:162-226 | for every datagram: a session is there afterwards iff it was and was not ended (traffic after its expiry, or CLOSE from its own or a challenged address), or a ticket restored it, or a PROVE created it; what is not restored keeps owner, key, expiry and ticket, moves iff answered or carried from a challenged address, loses a challenge iff answered and gains one iff asked; a pending entry comes and goes exactly as stated; the reply is a challenge iff one is asked for |
| ServerLaws.PathResponseIff | fastudp/server.py:485-499 | a path response moves the session and uses the challenge up iff the session is there, its sender has a live challenge and the body is that challenge's 16-byte token; otherwise nothing changes |
| ServerLaws.CloseIff | fastudp/client.py:210-214 | the CLOSE that a client builds takes exactly its session out of the server's table if it comes from the session's address or a challenged one, or after the expiry; from elsewhere it only gets its sender challenged |
| ServerLaws.CleanupExact | fastudp/server.py:261-281 | a cleanup pass leaves exactly the unexpired entries, the unexpired open sessions and their unexpired challenges, all as they were |
| SessionLife.EveryStepSessions | fastudp/server.py:162-226 | for every step of the system: when a session enters or leaves the table, what it keeps, and that no session in the table is closed |
| SessionLife.SessionLifetime | fastudp/server.py:193-224 | between resumptions a session is in the table iff it was and no step (CLOSE, traffic after expiry, cleanup after expiry) ended it, with the same owner, key, expiry and ticket |
| SessionLife.BackByTicket | fastudp/server.py:363-383 | a session that has gone comes back only by a HELLO whose ticket restores it |
| SessionLife.CloseIsFinal | fastudp/server.py:221-224 | after a client's CLOSE is delivered from its own or a challenged address the session is gone until its ticket restores it |
| SessionLife.OnlyCloseInTime | fastudp/server.py:193-224 | before its expiry a session goes only by a CLOSE |
| SessionLife.GoneAfterExpiry | fastudp/server.py:269-272 | a session whose time is over is gone after the next cleanup pass and stays so unless resumed |
| SessionLife.EveryStepEntries | fastudp/server.py:401-441 | for every step: a pending entry is stored by an enrolling HELLO, and otherwise is there afterwards iff it was and was neither redeemed nor found expired |
| SessionLife.EntryLifetime | fastudp/server.py:427-441 | until replaced, an entry is there iff it was and no PROVE redeemed it and no PROVE or cleanup pass found it expired, and is unchanged |
| SessionLife.EntryStays | fastudp/server.py:401-413 | from the HELLO that stored it, with its expiry counted from there, an entry stays until its time is over, another HELLO replaces it, or a PROVE redeems it |
| Migration.EveryStepMoves | fastudp/server.py:202-206 | any step can only add a path challenge by issuing and sending one, drop a live one by its answer or with the session, and move a session iff it is a resumption, the live challenge's token, or traffic in the session's time from an address with a live challenge |
| Migration.EntryWasChallenged | fastudp/server.py:508-518 | every path challenge on record was issued at some step, and expires the validation time after it |
| Migration.MigrationHistory | fastudp/server.py:379-383 | in every run an address change of a live session is to the datagram's sender, by a ticket for the session, or after a challenge issued for that address at most the validation time earlier whose token the datagram sends back, or with traffic of the session other than CLOSE while that challenge and the session last |
| Migration.ChallengeStays | fastudp/server.py:508-518 | an issued challenge stays on record until it expires, is answered, or its session goes |
| Migration.ChallengesSeparated | fastudp/server.py:508-518 | two challenges to one address for one session are separated by the first one's expiry, its answer, or a moment without the session |
| Migration.UnansweredChallengeMoves | fastudp/server.py:501-506 | a second datagram from an unvalidated address moves the session iff challenge and session are live and it is not CLOSE |
| HandshakeObjects.FastUDPServer.DatagramReceived | fastudp/server.py:162-226 | the dispatcher's effect on the tables and its reply are those of the specification |
| HandshakeObjects.FastUDPServer.HandleHello | fastudp/server.py:358-425 | the pending table, the sessions and the reply after a HELLO |
| HandshakeObjects.FastUDPServer.Resume | fastudp/server.py:366-399 | a live session object is updated in place and keeps its request tables, an absent one is made with empty tables; it stays so if renewing the ticket fails |
| HandshakeObjects.FastUDPServer.HandleProve | fastudp/server.py:427-463 | the order of pop, checks, creation and reply, with each failure leaving what the code leaves |
| HandshakeObjects.FastUDPServer.IssuePathChallenge | fastudp/server.py:508-518 | a challenge is recorded and sent only when none is live |
| HandshakeObjects.FastUDPServer.HandlePing | fastudp/server.py:465-471 | a ping from another address issues a challenge and moves nothing |
| HandshakeObjects.FastUDPServer.HandlePathResponse | fastudp/server.py:485-499 | the session object moves and drops the challenge for a live matching token from the challenged address, and is untouched otherwise (PathResponseIff) |
| HandshakeObjects.FastUDPServer.HandleTraffic | fastudp/server.py:193-224 | expiry, the address check and CLOSE, in the code's order (DatagramLaw states the outcome of each) |
| HandshakeObjects.FastUDPServer.Cleanup | fastudp/server.py:261-281 | the cleanup loops drop exactly the expired entries and the expired or closed sessions, and from the objects of the others exactly the expired challenges, cached responses and in-flight marks |
| HandshakeObjects.FastUDPServer.Close | fastudp/server.py:221-224 | the session object is marked closed for whoever else holds it, and leaves the table |
| HandshakeObjects.FastUDPClient.Connect | fastudp/client.py:247-253 | the HELLO carries the held ticket, and the nonce is remembered only once it is encoded |
| HandshakeObjects.FastUDPClient.OnAck | fastudp/client.py:292-310 | the ticket is kept and the session taken from it, or derived |
| HandshakeObjects.FastUDPClient.SendClose | fastudp/client.py:210-214 | a client with a session builds the CLOSE for it, and any other sends nothing |
| HandshakeObjects.FastUDPClient.OnDatagram | fastudp/client.py:216-245 | the dispatcher's effect on the client and its reply |
| Templates.TemplateIff | fastudp/routing.py:95-120 | a template is accepted, as these tokens, iff it starts with a slash, its text is made of literal characters and brace pairs around identifiers (white space trimmed) that stand for them, and no name repeats; which error each other one gets |
| Routing.CompilationPreservesMeaning | fastudp/routing.py:95-120 | the emitted text, read back as an expression, is exactly the template's literals and groups, and a path matches iff some non-empty slash-free values for the parameters yield it |
| Routing.CompilePath | fastudp/routing.py:95-120 | the loop compiles every valid template to its literals and groups and raises on every other |
| Routing.AcceptsIffYields | fastudp/routing.py:84-92 | the language of an expression is the set of strings that admissible values yield |
| Routing.FindIsGreediest | fastudp/routing.py:84-92 | the backtracking search finds a match iff there is one, and each parameter in turn takes as much as it can |
| Routing.CapturesRebuildPath | fastudp/routing.py:84-92 | the captured values put back into the template give the path |
| Routing.RouteTable.Add | fastudp/routing.py:72-82 | exactly the valid templates are appended, compiled, at the end |
| Routing.RouteTable.Match | fastudp/routing.py:84-92 | the earliest registered route of the method whose template accepts the path, with the greediest captures, and RouteNotFound only if there is none |
| TokenBuckets.ClosedForm | fastudp/security.py:19-27 | after any calls the tokens are the minimum, over "full at call k" and the initial state, of refill minus cost admitted since |
| TokenBuckets.AdmitsExactly | fastudp/security.py:19-27 | a call is admitted iff it keeps every one of those terms non-negative |
| TokenBuckets.NeverNegative | fastudp/security.py:19-27 | with ordered times and non-negative costs and rate the tokens stay between zero and the burst |
| TokenBuckets.IntervalBound | fastudp/security.py:19-27 | the cost admitted over any interval of calls is at most burst plus rate times the elapsed time |
| TokenBuckets.TokenBucket.Allow | fastudp/security.py:19-27 | the object is the bucket of the closed form |
| RateLimits.Independent | fastudp/server.py:254-259 | whatever other addresses send, an address's bucket is the one it would have alone |
| RateLimits.AtMostBurstPlusRate | fastudp/server.py:254-259 | from any arrival on, at most burst plus rate times the elapsed time datagrams of one address pass |
| RateLimits.PassesIff | fastudp/server.py:254-259 | a datagram passes iff the burst is at least 1 and, for every earlier arrival of its address, it and those passed since are at most burst plus rate times the time since |
| RateLimits.FirstBurstPasses | fastudp/server.py:254-259 | the first floor(burst) datagrams of every address pass |
| RateLimits.RateLimiter.RateAllow | fastudp/server.py:254-259 | the table of bucket objects charges the address's own bucket, which starts full (PassesIff) |
| Congestion.GrowthBound | fastudp/congestion.py:19-25 | n acks raise the square of the window by between 2n (up to the maximum) and 3n |
| Congestion.OneWindowOfAcks | fastudp/congestion.py:19-25 | one window's worth of acks adds at most one |
| Congestion.LossBound | fastudp/congestion.py:27-28 | k losses give the window halved k times, but at least 2 |
| Congestion.WindowOfEvents | fastudp/congestion.py:15-28 | whatever is sent in between, events without losses leave the window of that many acks, and events without acks that of that many losses |
| Congestion.WindowBounds | fastudp/congestion.py:15-28 | so for the controller's own runs: square-root growth while nothing is lost, at most one per window of acks, and halving down to 2 while nothing is acknowledged |
| Congestion.StaysInRange | fastudp/congestion.py:15-28 | under any mix of events the window stays between 2 and its maximum and the count is never negative |
| Congestion.InFlightMatchesIff | fastudp/congestion.py:15-24 | from agreement, the in-flight count agrees with the sent record after every prefix of a sequence of events iff each event, in the state it meets, sends a number off record or acknowledges one on it (or any, when the record is empty) |
| Congestion.AgreesAgain | fastudp/congestion.py:15-24 | a concrete sequence after which the count disagrees and then agrees again |
| Congestion.EstimateMoves | fastudp/congestion.py:19-23 | the ack of a number on record moves the estimate to seven eighths of its distance from that number's round trip, on the same side; nothing else changes it |
| Congestion.RecordIff | fastudp/congestion.py:15-23 | a number is on record with a time iff its last event sent it at that time |
| Congestion.SendsAllowed | fastudp/congestion.py:12-17 | from nothing in flight the window lets through exactly as many packets as it is wide, rounded up |
| Congestion.GuardedInFlight | fastudp/congestion.py:12-28 | a sender that asks first never has as many packets in flight as the maximum window plus one |
| Congestion.UDPCongestionController.OnSend | fastudp/congestion.py:15-17 | the object's fields after a send |
| Congestion.UDPCongestionController.OnAck | fastudp/congestion.py:19-25 | the object's fields after an ack |
| Congestion.UDPCongestionController.OnLoss | fastudp/congestion.py:27-28 | the object's fields after a loss |

## Left out

- Sockets, the event loop, logging, the command line, `serve` and `close`: input and output only. Each datagram callback and each task completion is one step.
- The strength of the cryptography and forged handshake datagrams: no adversary is modelled.
- Runs across epochs: the request system covers one session epoch. What the next epoch's requests meet, and what a rebuilt session does with old ones, is proved per request in `RpcEpochs`, from any state that the old epoch can end in.
- The request system and the handshake system are separate: the first starts after the ACK, the second sees in-session traffic only for expiry, addresses and CLOSE.
- Retransmission counts, timers and cancellation of `request`: the request system may retransmit and give up at any moment, which covers every number of retries. With `retries` below zero the code raises without sending or unfiling the future; here that is a packet that is lost and never times out.
- HandshakeObjects.SessionState.Sweep: the request tables of a session are one value in this object, and the cleanup of its cache and in-flight marks is one assignment; in place, with their loops and the window objects, they are `RpcObjects.SessionState`.
- PONG, `_handle_response`, `_handle_frame_ack`, the client's `acked` events and its `server_addr`: they change nothing that the theorems speak of. A PING would use up a number of a stream's window; the client never sends one, so the request system has none, and the handshake system keeps only its address check.
- The address check in front of `_handle_request`: in the request system a datagram that it holds back is a lost one.
- `last_activity`, `created_at` of sessions, `pending_handshake`'s snonce and cookie: written and never read.
- The limit on streams per session on the server is not enforced by the code; the client's is part of `Rpc.Begin`.
- The limiter in front of the server: a refused datagram is a lost one for the other systems.
- `split_path`, query parameters, `convert_param`, `build_handler_kwargs`, `normalize_response` and JSON: whether a method and path are routed is a parameter of the request system, and the 404 body is its literal text.
- Text outside ASCII: strings are their UTF-8 bytes, and what the host language knows of identifiers, white space and upper case beyond ASCII is a parameter of the router.
- Regular expressions beyond the subset that the compiler emits; `re.compile`'s refusal of repeated group names is part of the template rule.
- Rounding of floating-point numbers in the token bucket and the congestion controller: reals.
- `pq.py`, `session.py`, `exceptions.py`, `app` decorators: settled by reading one branch.
