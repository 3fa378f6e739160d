// When a client's HELLO is sent, and what any datagram makes of a client.
module ClientLaws {
  import opened Common
  import opened Codec
  import opened Primitives
  import opened Security
  import opened Handshake
  import opened HandshakeSystem
  import opened HandshakeSafety

  // connect() sends its HELLO exactly if the client id has at most 128 bytes, the held ticket at most 512
  // and the time fits. Then the nonce is remembered and, unless the client id is empty, the server reads
  // the HELLO with the held ticket; otherwise the client stays as it was.
  lemma ConnectSentIff(w: World, c: Client, cnonce: Bytes, wall: real)
    requires SoundWorld(w) && |cnonce| == NONCE_BYTES
    ensures var (c', packet) := Connect(w, c, cnonce, wall);
            var ts := Trunc(wall);
            && (packet.Ok? <==> |c.clientId| <= 128 && |c.ticket| <= 512 && 0 <= ts < 0x1_0000_0000_0000_0000)
            && c' == (if packet.Ok? then Client(c.clientId, Some(cnonce), c.session, c.ticket) else c)
            && (packet.Err? ==> packet == Err(if |c.clientId| > 128 || |c.ticket| > 512 then SecurityError else OverflowError))
            && (packet.Ok? && c.clientId != [] ==>
                  && ServerSplit(packet.value).Ok? && ServerSplit(packet.value).value.header.msgType == MSG_HELLO
                  && DecodeHello(ServerSplit(packet.value).value.body)
                     == Ok(Hello(c.clientId, cnonce, ts, c.ticket, HelloMac(w, c.clientId, cnonce, ts, c.ticket))))
  {
    hide DecodeHello, ServerSplit, HelloMac, Sound, SoundHash;
    FieldWidths();
    var ts := Trunc(wall);
    HelloMacSize(w, c.clientId, cnonce, ts, c.ticket);
    var m := Hello(c.clientId, cnonce, ts, c.ticket, HelloMac(w, c.clientId, cnonce, ts, c.ticket));
    if HelloPacket(m).Ok? && c.clientId != [] {
      hide EncodeHello, PackHeader;
      HelloDelivered(m);
    }
  }

  // An ACK for the client gives it the session that its ticket restores, or, without a ticket or with one
  // that restores nothing, the session that its nonces derive; a ticket is kept in either case, and an
  // empty one leaves the held one. It is not answered.
  lemma AnyAck(w: World, c: Client, data: Bytes, wall: real, m: Ack)
    requires Accepted(c, data) == Some(m)
    ensures var derived := Agreed(m.sessionId, DeriveSessionKey(w.hash, w.psk, m.clientId, m.cnonce, m.snonce));
            var restored := RestoreTicket(w, m.ticket, c.clientId, wall);
            ClientReceive(w, c, data, wall)
            == (Client(c.clientId, c.cnonce,
                       Some(if m.ticket != [] && restored.Some? then restored.value else derived),
                       if m.ticket != [] then m.ticket else c.ticket), None)
  {
    hide ClientSplit, DecodeAck, RestoreTicket, DeriveSessionKey;
  }

  // Nothing but an ACK for it changes a client, and only CHALLENGE and PATH_CHALLENGE are answered.
  lemma AnyDatagram(w: World, c: Client, data: Bytes, wall: real)
    ensures Accepted(c, data).None? ==> ClientReceive(w, c, data, wall).0 == c
    ensures ClientReceive(w, c, data, wall).1.Some? ==>
              && ClientSplit(data).Ok?
              && var kind := ClientSplit(data).value.header.msgType; kind == MSG_CHALLENGE || kind == MSG_PATH_CHALLENGE
  {
    hide ClientSplit, DecodeAck, RestoreTicket, DeriveSessionKey, OnChallenge, OnPathChallenge;
  }
}
