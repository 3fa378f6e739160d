// Key derivation and message authentication of fastudp/security.py over an HMAC given as a parameter.
module Security {
  import opened Common
  import opened Primitives

  // T(i) of section 2.3 of RFC 5869; T(0) is empty.
  function T(hash: Hash, prk: Bytes, info: Bytes, i: nat): Bytes
    requires i <= 255
  {
    if i == 0 then [] else hash.hmac(prk, T(hash, prk, info, i - 1) + info + [i as byte])
  }

  // T(1) | T(2) | ... | T(n)
  function Blocks(hash: Hash, prk: Bytes, info: Bytes, n: nat): Bytes
    requires n <= 255
  {
    if n == 0 then [] else Blocks(hash, prk, info, n - 1) + T(hash, prk, info, n)
  }

  lemma {:induction false} BlockAt(hash: Hash, prk: Bytes, info: Bytes, n: nat, i: nat)
    requires SoundHash(hash) && n <= 255
    ensures |Blocks(hash, prk, info, n)| == HASH_SIZE * n
    ensures i < HASH_SIZE * n ==> Blocks(hash, prk, info, n)[i] == T(hash, prk, info, i / HASH_SIZE + 1)[i % HASH_SIZE]
  {
    if n > 0 {
      BlockAt(hash, prk, info, n - 1, i);
      if HASH_SIZE * (n - 1) <= i < HASH_SIZE * n {
        assert i / HASH_SIZE == n - 1;
      }
    }
  }

  const MAX_EXPANSION := 255 * HASH_SIZE

  // s[:n] for n >= 0
  function Take(s: Bytes, n: nat): Bytes {
    if n <= |s| then s[..n] else s
  }

  // The output keying material: the first `length` octets of as many blocks as that takes.
  function Expand(hash: Hash, prk: Bytes, info: Bytes, length: int): Bytes
    requires length <= MAX_EXPANSION
  {
    if length <= 0 then [] else Take(Blocks(hash, prk, info, (length + HASH_SIZE - 1) / HASH_SIZE), length)
  }

  // Octet i is octet i mod 32 of T(i div 32 + 1), whatever length was asked for: a shorter output is
  // a prefix of a longer one.
  lemma ExpandAt(hash: Hash, prk: Bytes, info: Bytes, length: nat, i: nat)
    requires SoundHash(hash) && i < length <= MAX_EXPANSION
    ensures |Expand(hash, prk, info, length)| == length
    ensures Expand(hash, prk, info, length)[i] == T(hash, prk, info, i / HASH_SIZE + 1)[i % HASH_SIZE]
  {
    BlockAt(hash, prk, info, (length + HASH_SIZE - 1) / HASH_SIZE, i);
  }

  lemma ExpandPrefix(hash: Hash, prk: Bytes, info: Bytes, short: nat, long: nat)
    requires SoundHash(hash) && short <= long <= MAX_EXPANSION
    ensures Expand(hash, prk, info, short) <= Expand(hash, prk, info, long)
  {
    if short > 0 {
      ExpandAt(hash, prk, info, short, 0);
      ExpandAt(hash, prk, info, long, 0);
      forall i | 0 <= i < short ensures Expand(hash, prk, info, short)[i] == Expand(hash, prk, info, long)[i] {
        ExpandAt(hash, prk, info, short, i);
        ExpandAt(hash, prk, info, long, i);
      }
    }
  }

  // The one-byte counter runs out exactly beyond 255 blocks; up to there the loop is section 2.3.
  method HkdfExpand(hash: Hash, prk: Bytes, info: Bytes, length: int) returns (r: Result<Bytes>)
    requires SoundHash(hash)
    ensures length <= MAX_EXPANSION ==> r == Ok(Expand(hash, prk, info, length))
    ensures length > MAX_EXPANSION ==> r == Err(ValueError)
  {
    var okm: Bytes := [];
    var t: Bytes := [];
    var counter := 1;
    while |okm| < length
      invariant 1 <= counter <= 256
      invariant okm == Blocks(hash, prk, info, counter - 1) && |okm| == HASH_SIZE * (counter - 1)
      invariant t == T(hash, prk, info, counter - 1)
      invariant counter > 1 ==> HASH_SIZE * (counter - 2) < length
      decreases length - |okm|
    {
      if counter > 255 {
        return Err(ValueError);
      }
      BlockAt(hash, prk, info, counter, 0);
      t := hash.hmac(prk, t + info + [counter as byte]);
      okm := okm + t;
      counter := counter + 1;
    }
    if length <= 0 {
      return Ok([]);
    }
    assert counter - 1 == (length + HASH_SIZE - 1) / HASH_SIZE;
    r := Ok(okm[..length]);
  }

  // "fastudp-session|"
  const SESSION_INFO: Bytes :=
    [0x66, 0x61, 0x73, 0x74, 0x75, 0x64, 0x70, 0x2D, 0x73, 0x65, 0x73, 0x73, 0x69, 0x6F, 0x6E, 0x7C]
  const BAR: Bytes := [0x7C]

  const KEY_SIZE := 32

  function DeriveSessionKey(hash: Hash, psk: Bytes, clientId: Bytes, cnonce: Bytes, snonce: Bytes): Bytes {
    Expand(hash, hash.hmac(snonce + cnonce, psk), SESSION_INFO + clientId + BAR + cnonce + BAR + snonce, KEY_SIZE)
  }

  lemma SessionKeySize(hash: Hash, psk: Bytes, clientId: Bytes, cnonce: Bytes, snonce: Bytes)
    requires SoundHash(hash)
    ensures |DeriveSessionKey(hash, psk, clientId, cnonce, snonce)| == KEY_SIZE
  {
    ExpandAt(hash, hash.hmac(snonce + cnonce, psk), SESSION_INFO + clientId + BAR + cnonce + BAR + snonce, KEY_SIZE, 0);
  }

  // ---------- tickets ----------

  // "fastudp-ticket-salt", "fastudp-ticket-key", "fastudp-ticket-nonce", "fastudp-ticket-aad"
  const TICKET_SALT: Bytes :=
    [0x66, 0x61, 0x73, 0x74, 0x75, 0x64, 0x70, 0x2D, 0x74, 0x69, 0x63, 0x6B, 0x65, 0x74, 0x2D, 0x73, 0x61, 0x6C, 0x74]
  const TICKET_KEY: Bytes :=
    [0x66, 0x61, 0x73, 0x74, 0x75, 0x64, 0x70, 0x2D, 0x74, 0x69, 0x63, 0x6B, 0x65, 0x74, 0x2D, 0x6B, 0x65, 0x79]
  const TICKET_NONCE: Bytes :=
    [0x66, 0x61, 0x73, 0x74, 0x75, 0x64, 0x70, 0x2D, 0x74, 0x69, 0x63, 0x6B, 0x65, 0x74, 0x2D, 0x6E, 0x6F, 0x6E, 0x63, 0x65]
  const TICKET_AAD: Bytes :=
    [0x66, 0x61, 0x73, 0x74, 0x75, 0x64, 0x70, 0x2D, 0x74, 0x69, 0x63, 0x6B, 0x65, 0x74, 0x2D, 0x61, 0x61, 0x64]

  const NONCE_SIZE := 12

  function TicketKey(hash: Hash, psk: Bytes): Bytes {
    Expand(hash, hash.hmac(TICKET_SALT, psk), TICKET_KEY, KEY_SIZE)
  }

  function SealTicket(hash: Hash, aead: Aead, psk: Bytes, payload: Bytes): Bytes {
    var nonce := Take(hash.sha256(TICKET_NONCE + payload + psk), NONCE_SIZE);
    nonce + aead.encrypt(TicketKey(hash, psk), nonce, payload, TICKET_AAD)
  }

  function OpenTicket(hash: Hash, aead: Aead, psk: Bytes, ticket: Bytes): Option<Bytes> {
    if |ticket| < NONCE_SIZE + TAG_SIZE then None
    else aead.decrypt(TicketKey(hash, psk), ticket[..NONCE_SIZE], ticket[NONCE_SIZE..], TICKET_AAD)
  }

  lemma SealedTicketOpens(hash: Hash, aead: Aead, psk: Bytes, payload: Bytes)
    requires SoundHash(hash) && Sound(aead)
    ensures OpenTicket(hash, aead, psk, SealTicket(hash, aead, psk, payload)) == Some(payload)
    ensures |SealTicket(hash, aead, psk, payload)| == NONCE_SIZE + |payload| + TAG_SIZE
  {
    var nonce := Take(hash.sha256(TICKET_NONCE + payload + psk), NONCE_SIZE);
    var ticket := SealTicket(hash, aead, psk, payload);
    assert |nonce| == NONCE_SIZE;
    assert ticket[..NONCE_SIZE] == nonce;
    assert ticket[NONCE_SIZE..] == aead.encrypt(TicketKey(hash, psk), nonce, payload, TICKET_AAD);
  }

  // ---------- mac ----------

  // The bytes that mac() feeds to the hash: the parts with bars between them.
  function Joined(parts: seq<Bytes>): Bytes {
    if parts == [] then [] else if |parts| == 1 then parts[0] else Joined(parts[..|parts| - 1]) + BAR + parts[|parts| - 1]
  }

  function MacOf(hash: Hash, key: Bytes, parts: seq<Bytes>): (m: Bytes) {
    hash.hmac(key, Joined(parts))
  }

  method Mac(hash: Hash, key: Bytes, parts: seq<Bytes>) returns (digest: Bytes)
    ensures digest == MacOf(hash, key, parts)
  {
    var fed: Bytes := [];
    var first := true;
    for i := 0 to |parts|
      invariant fed == Joined(parts[..i]) && first == (i == 0)
    {
      assert parts[..i + 1][..i] == parts[..i];
      if !first {
        fed := fed + BAR;
      }
      first := false;
      fed := fed + parts[i];
    }
    assert parts[..|parts|] == parts;
    digest := hash.hmac(key, fed);
  }
}
