// The constants, authenticated texts and derived keys of the handshake, written out.
module WireFormats {
  import opened Common
  import opened Codec
  import opened Primitives
  import opened Security
  import opened Handshake

  // ---------- constants ----------

  lemma Labels()
    ensures Spells(MAGIC, "FUDP") && Spells(BAR, "|")
    ensures Spells(COOKIE, "COOKIE") && Spells(HELLO, "HELLO") && Spells(CHALLENGE, "CHALLENGE")
    ensures Spells(PROVE, "PROVE") && Spells(ACK, "ACK")
  {
  }

  lemma SessionLabel()
    ensures Spells(SESSION_INFO, "fastudp-session|")
  {
  }

  lemma TicketLabels()
    ensures Spells(TICKET_SALT, "fastudp-ticket-salt") && Spells(TICKET_KEY, "fastudp-ticket-key")
    ensures Spells(TICKET_NONCE, "fastudp-ticket-nonce") && Spells(TICKET_AAD, "fastudp-ticket-aad")
  {
  }

  // The kinds of datagrams, and the limits.
  lemma Numbers()
    ensures [MSG_HELLO, MSG_CHALLENGE, MSG_PROVE, MSG_ACK, MSG_REQUEST, MSG_RESPONSE, MSG_PING, MSG_FRAME_ACK, MSG_PATH_CHALLENGE,
             MSG_PATH_RESPONSE, MSG_CLOSE] == [1, 2, 3, 4, 5, 6, 8, 10, 11, 12, 13]
    ensures MAX_PACKET_SIZE == 4096 && MAX_PATH_BYTES == 512 && MAX_BODY_BYTES == 1_048_576
    ensures MAX_CLIENT_ID_BYTES == 128 && MAX_TICKET_BYTES == 512 && NONCE_BYTES == 16 && MAX_CLOCK_SKEW == 15
  {
  }

  // ---------- the header ----------

  lemma HeaderFits(h: Header)
    ensures PackHeader(h).Ok? <==>
              && 0 <= h.msgType < 256 && 0 <= h.sessionId < 0x1_0000_0000_0000_0000 && 0 <= h.streamId < 0x1_0000_0000
              && 0 <= h.sequence < 0x1_0000_0000 && 0 <= h.requestId < 0x1_0000_0000 && 0 <= h.pathLen < 0x1_0000
              && 0 <= h.bodyLen < 0x1_0000_0000
  {
    hide PackHeader;
    FieldWidths();
  }

  // Where each field of a header is, most significant byte first.
  lemma HeaderLayout(h: Header)
    requires PackHeader(h).Ok?
    ensures var b := PackHeader(h).value;
            && |b| == 34 && Spells(b[..4], "FUDP") && b[4] == 2 && b[5] as int == h.msgType
            && b[6] as int == h.verb % 256 && b[7] as int == h.flags % 256
            && FromBE(b[8..16]) == h.sessionId && FromBE(b[16..20]) == h.streamId && FromBE(b[20..24]) == h.sequence
            && FromBE(b[24..28]) == h.requestId && FromBE(b[28..30]) == h.pathLen && FromBE(b[30..34]) == h.bodyLen
  {
    hide PackHeader, Packable, FromBE, Spells;
    var b := PackHeader(h).value;
    HeaderRoundTrip(h, []);
    assert b + [] == b;
    ByteFields(b);
    MagicBytes(b);
  }

  // A field of one byte is the byte, and one of two bytes its two halves.
  lemma ByteFields(b: Bytes)
    requires |b| >= 8
    ensures FromBE(b[5..6]) == b[5] as int && FromBE(b[6..8]) == b[6] as int * 256 + b[7] as int
  {
    assert b[5..6][..0] == [] && b[6..8][..1] == b[6..7] && b[6..7][..0] == [];
  }

  // The first byte of a number is its most significant one, and the last its least.
  lemma {:induction false} MostSignificantFirst(n: nat, w: nat)
    requires w > 0 && n < Pow256(w)
    ensures var b := BE(n, w);
            && b[0] as int * Pow256(w - 1) <= n < (b[0] as int + 1) * Pow256(w - 1)
            && b[w - 1] as int == n % 256
  {
    if w > 1 {
      MostSignificantFirst(n / 256, w - 1);
      Scaled(n, BE(n, w)[0] as int, Pow256(w - 2));
    }
  }

  lemma Scaled(n: nat, first: nat, p: nat)
    requires first * p <= n / 256 < (first + 1) * p
    ensures first * (256 * p) <= n < (first + 1) * (256 * p)
  {
    assert first * (256 * p) == 256 * (first * p);
    assert (first + 1) * (256 * p) == 256 * ((first + 1) * p);
  }

  // The bytes that a datagram must have in front to be read at all.
  predicate OurHeader(data: Bytes) {
    |data| >= 34 && Spells(data[..4], "FUDP") && data[4] == 2
  }

  // A client reads a datagram exactly if it has our header and the lengths in that do not exceed it; a server
  // only if, besides, it has at most 4096 bytes and its path at most 512. What is read lies where the
  // lengths say; which error everything else gets.
  lemma DatagramReadIff(data: Bytes)
    ensures ClientSplit(data).Ok? <==> OurHeader(data) && |data| >= 34 + FromBE(data[28..30]) + FromBE(data[30..34])
    ensures ClientSplit(data).Ok? ==>
              var d, pathLen := ClientSplit(data).value, FromBE(data[28..30]);
              && d.path == data[34..34 + pathLen] && d.body == data[34 + pathLen..34 + pathLen + FromBE(data[30..34])]
              && d.header.msgType == data[5] as int && d.header.sessionId == FromBE(data[8..16])
    ensures ServerSplit(data).Ok? <==> ClientSplit(data).Ok? && |data| <= 4096 && FromBE(data[28..30]) <= 512
    ensures ServerSplit(data).Ok? ==> ServerSplit(data) == ClientSplit(data)
    ensures ServerSplit(data).Err? ==>
              ServerSplit(data) == Err(if |data| < 34 || |data| > 4096 then PacketTooLarge
                                       else if !OurHeader(data) then ProtocolError
                                       else if FromBE(data[28..30]) > 512 || FromBE(data[30..34]) > 1_048_576 then PacketTooLarge
                                       else ProtocolError)
    ensures ClientSplit(data).Err? ==> ClientSplit(data) == Err(if |data| < 34 then PacketTooLarge else ProtocolError)
  {
    hide FromBE;
    Labels();
    if |data| >= 34 {
      MagicBytes(data);
      ByteFields(data);
    }
  }

  lemma MagicBytes(data: Bytes)
    requires |data| >= 34
    ensures data[0..4] == MAGIC <==> Spells(data[..4], "FUDP")
  {
    Labels();
    assert data[0..4] == data[..4];
    if Spells(data[..4], "FUDP") {
      forall i | 0 <= i < 4 ensures data[..4][i] == MAGIC[i] {
        assert data[..4][i] as int == "FUDP"[i] as int == MAGIC[i] as int;
      }
    }
  }

  // ---------- bodies ----------

  // The bodies of handshake datagrams, field by field.
  lemma BodyLayouts(hello: Hello, m: Challenge, ack: Ack)
    ensures EncodeHello(hello).Ok? ==>
              EncodeHello(hello).value
              == BE(|hello.clientId|, 2) + hello.clientId + BE(hello.ts, 8) + hello.cnonce + BE(|hello.ticket|, 2) + hello.ticket + hello.mac
    ensures EncodeChallenge(m).Ok? ==>
              EncodeChallenge(m).value
              == BE(|m.clientId|, 2) + m.clientId + BE(m.ts, 8) + m.cnonce + m.snonce + BE(|m.cookie|, 2) + m.cookie + m.mac
    ensures EncodeAck(ack).Ok? ==>
              EncodeAck(ack).value
              == BE(ack.sessionId, 8) + BE(|ack.clientId|, 2) + ack.clientId + BE(ack.ts, 8) + ack.cnonce + ack.snonce
                 + BE(|ack.ticket|, 2) + ack.ticket + ack.mac
  {
    hide BE;
  }

  // And those of tickets and responses.
  lemma PayloadLayouts(p: TicketPayload, r: Response)
    ensures EncodeTicketPayload(p).Ok? ==>
              EncodeTicketPayload(p).value
              == BE(p.sessionId, 8) + BE(p.issuedAt, 8) + BE(p.expiresAt, 8) + BE(|p.clientId|, 2) + p.clientId + p.sessionKey
    ensures EncodeBodyPlain(r).Ok? ==>
              EncodeBodyPlain(r).value == BE(r.status % 0x1_0000, 2) + BE(|r.contentType|, 2) + r.contentType + r.body
  {
    hide BE;
  }

  // A handshake body that is not read has a length that does not fit or, if every check passes up to its
  // client id, a client id that is not UTF-8.
  lemma FrameErrors(body: Bytes, headLen: nat, middleLen: nat)
    requires DecodeFrame(body, headLen, middleLen).Err?
    ensures var least := headLen + middleLen + 36;
            var badText := |body| >= least
                           && var n := FromBE(body[headLen..headLen + 2]);
                              0 < n <= 128 && |body| >= least + n && !ValidUtf8(body[headLen + 2..headLen + 2 + n]);
            DecodeFrame(body, headLen, middleLen) == Err(if badText then UnicodeError else SecurityError)
  {
    hide ValidUtf8, FromBE;
  }

  // Which response bodies are read, and which errors the others and oversized content types get.
  lemma BodyReadIff(b: Bytes, r: Response)
    ensures EncodeBodyPlain(r).Err? ==> |r.contentType| > 65535 && EncodeBodyPlain(r) == Err(PacketTooLarge)
    ensures DecodeBodyPlain(b).Ok? <==> |b| >= 4 && |b| >= 4 + FromBE(b[2..4]) && ValidUtf8(b[4..4 + FromBE(b[2..4])])
    ensures DecodeBodyPlain(b).Err? ==>
              DecodeBodyPlain(b) == Err(if |b| < 4 || |b| < 4 + FromBE(b[2..4]) then ProtocolError else UnicodeError)
  {
    hide ValidUtf8, BE;
  }

  // ---------- clocks ----------

  // int(x) drops the fraction, towards zero.
  lemma TruncDropsFraction(x: real)
    ensures x >= 0.0 ==> Trunc(x) as real <= x < Trunc(x) as real + 1.0
    ensures x <= 0.0 ==> Trunc(x) as real - 1.0 < x <= Trunc(x) as real
  {
  }

  // ---------- decimal numbers ----------

  predicate Digit(c: byte) {
    0x30 <= c <= 0x39
  }

  // The number that a digit string denotes.
  function Value(digits: Bytes): int
    requires forall i | 0 <= i < |digits| :: Digit(digits[i])
  {
    if digits == [] then 0 else Value(digits[..|digits| - 1]) * 10 + (digits[|digits| - 1] as int - 0x30)
  }

  // str(n) for n >= 0: digits that denote n, without a superfluous zero in front.
  lemma {:induction false} DecimalDenotes(n: nat)
    ensures var d := Decimal(n);
            && d != [] && (forall i | 0 <= i < |d| :: Digit(d[i])) && Value(d) == n
            && (n > 0 ==> d[0] != 0x30) && (n == 0 ==> d == [0x30])
  {
    if n < 10 {
      assert Decimal(n)[..0] == [];
    } else {
      DecimalDenotes(n / 10);
      var d := Decimal(n);
      assert d[..|d| - 1] == Decimal(n / 10);
    }
  }

  // And a minus sign in front of that for n < 0: different numbers have different texts.
  lemma DecimalInjective(a: int, b: int)
    ensures Decimal(a) == Decimal(b) <==> a == b
  {
    if a >= 0 {
      DecimalDenotes(a);
    } else {
      DecimalDenotes(-a);
      assert Decimal(a)[1..] == Decimal(-a) && Decimal(a)[0] == 0x2D;
    }
    if b >= 0 {
      DecimalDenotes(b);
    } else {
      DecimalDenotes(-b);
      assert Decimal(b)[1..] == Decimal(-b) && Decimal(b)[0] == 0x2D;
    }
  }

  // ---------- authenticated texts ----------

  // Each mac is the HMAC, under the pre-shared key, of these bytes.
  lemma MacTexts(w: World, addr: Addr, clientId: Text, cnonce: Bytes, snonce: Bytes, cookie: Bytes, ticket: Bytes, id: int, ts: int)
    ensures CookieOf(w, addr, clientId, cnonce, ts)
         == w.hash.hmac(w.psk, COOKIE + BAR + addr.host + BAR + Decimal(addr.port) + BAR + clientId + BAR + cnonce + BAR + Decimal(ts))
    ensures HelloMac(w, clientId, cnonce, ts, ticket)
         == w.hash.hmac(w.psk, HELLO + BAR + clientId + BAR + cnonce + BAR + Decimal(ts) + BAR + ticket)
    ensures ChallengeMac(w, clientId, cnonce, snonce, cookie, ts)
         == w.hash.hmac(w.psk, CHALLENGE + BAR + clientId + BAR + cnonce + BAR + snonce + BAR + cookie + BAR + Decimal(ts))
    ensures ProveMac(w, clientId, cnonce, snonce, cookie, ts)
         == w.hash.hmac(w.psk, PROVE + BAR + clientId + BAR + cnonce + BAR + snonce + BAR + cookie + BAR + Decimal(ts))
    ensures AckMac(w, id, clientId, cnonce, snonce, ts, ticket)
         == w.hash.hmac(w.psk, ACK + BAR + Decimal(id) + BAR + clientId + BAR + cnonce + BAR + snonce + BAR + Decimal(ts) + BAR + ticket)
  {
    hide Decimal;
    JoinFive(HELLO, clientId, cnonce, Decimal(ts), ticket);
    JoinSix(COOKIE, addr.host, Decimal(addr.port), clientId, cnonce, Decimal(ts));
    JoinSix(CHALLENGE, clientId, cnonce, snonce, cookie, Decimal(ts));
    JoinSix(PROVE, clientId, cnonce, snonce, cookie, Decimal(ts));
    JoinSix(ACK, Decimal(id), clientId, cnonce, snonce, Decimal(ts));
    JoinOneMore([ACK, Decimal(id), clientId, cnonce, snonce, Decimal(ts)], ticket);
    assert [ACK, Decimal(id), clientId, cnonce, snonce, Decimal(ts)] + [ticket]
        == [ACK, Decimal(id), clientId, cnonce, snonce, Decimal(ts), ticket];
  }

  lemma JoinOneMore(parts: seq<Bytes>, last: Bytes)
    requires parts != []
    ensures Joined(parts + [last]) == Joined(parts) + BAR + last
  {
    assert (parts + [last])[..|parts|] == parts;
  }

  lemma JoinFive(a: Bytes, b: Bytes, c: Bytes, d: Bytes, e: Bytes)
    ensures Joined([a, b, c, d, e]) == a + BAR + b + BAR + c + BAR + d + BAR + e
  {
    hide Joined;
    JoinOne(a);
    JoinOneMore([a], b);
    JoinOneMore([a] + [b], c);
    JoinOneMore([a] + [b] + [c], d);
    JoinOneMore([a] + [b] + [c] + [d], e);
    assert [a] + [b] + [c] + [d] + [e] == [a, b, c, d, e];
  }

  lemma JoinSix(a: Bytes, b: Bytes, c: Bytes, d: Bytes, e: Bytes, f: Bytes)
    ensures Joined([a, b, c, d, e, f]) == a + BAR + b + BAR + c + BAR + d + BAR + e + BAR + f
  {
    hide Joined;
    JoinFive(a, b, c, d, e);
    JoinOneMore([a, b, c, d, e], f);
    assert [a, b, c, d, e] + [f] == [a, b, c, d, e, f];
  }

  lemma JoinOne(a: Bytes)
    ensures Joined([a]) == a
  {
  }

  // ---------- keys and tickets ----------

  // 32 octets of HKDF are one block: HMAC of the info and the counter 1, under the extracted key.
  lemma OneBlock(hash: Hash, prk: Bytes, info: Bytes)
    requires SoundHash(hash)
    ensures Expand(hash, prk, info, 32) == hash.hmac(prk, info + [1])
  {
    assert T(hash, prk, info, 0) == [];
    assert [] + info + [1] == info + [1];
    assert T(hash, prk, info, 1) == hash.hmac(prk, info + [1]);
    forall i | 0 <= i < 32 ensures Expand(hash, prk, info, 32)[i] == hash.hmac(prk, info + [1])[i] {
      ExpandAt(hash, prk, info, 32, i);
    }
    ExpandAt(hash, prk, info, 32, 0);
  }

  lemma SessionKeyIs(hash: Hash, psk: Bytes, clientId: Bytes, cnonce: Bytes, snonce: Bytes)
    requires SoundHash(hash)
    ensures DeriveSessionKey(hash, psk, clientId, cnonce, snonce)
         == hash.hmac(hash.hmac(snonce + cnonce, psk), SESSION_INFO + clientId + BAR + cnonce + BAR + snonce + [1])
  {
    hide Expand, SoundHash;
    OneBlock(hash, hash.hmac(snonce + cnonce, psk), SESSION_INFO + clientId + BAR + cnonce + BAR + snonce);
  }

  // A ticket is the first 12 octets of a hash of its payload, and the payload sealed under them; it is opened
  // under its own first 12 octets.
  lemma TicketIs(hash: Hash, aead: Aead, psk: Bytes, payload: Bytes, ticket: Bytes)
    requires SoundHash(hash)
    ensures var nonce := hash.sha256(TICKET_NONCE + payload + psk)[..12];
            SealTicket(hash, aead, psk, payload)
            == nonce + aead.encrypt(hash.hmac(hash.hmac(TICKET_SALT, psk), TICKET_KEY + [1]), nonce, payload, TICKET_AAD)
    ensures OpenTicket(hash, aead, psk, ticket)
         == if |ticket| < 28 then None
            else aead.decrypt(hash.hmac(hash.hmac(TICKET_SALT, psk), TICKET_KEY + [1]), ticket[..12], ticket[12..], TICKET_AAD)
  {
    hide Expand;
    OneBlock(hash, hash.hmac(TICKET_SALT, psk), TICKET_KEY);
  }
}
