// Shared vocabulary: byte strings, results, big-endian numbers and UTF-8 text.
module Common {
  newtype byte = b: int | 0 <= b < 256

  type Bytes = seq<byte>

  datatype Option<+T> = None | Some(value: T)

  // The exceptions the modelled code raises or swallows.
  datatype Error =
    | PacketTooLarge
    | ProtocolError
    | SecurityError
    | OverflowError // struct.error and OverflowError: a number does not fit its field
    | UnicodeError
    | ValueError
    | RegexError // re.error

  datatype Result<+T> = Ok(value: T) | Err(error: Error)

  // ---------- big-endian numbers ----------

  function Pow256(w: nat): (p: nat)
    ensures p > 0
  {
    if w == 0 then 1 else 256 * Pow256(w - 1)
  }

  lemma FieldWidths()
    ensures Pow256(1) == 0x100
    ensures Pow256(2) == 0x1_0000
    ensures Pow256(4) == 0x1_0000_0000
    ensures Pow256(8) == 0x1_0000_0000_0000_0000
  {
    assert Pow256(2) == 256 * Pow256(1);
    assert Pow256(3) == 256 * Pow256(2);
    assert Pow256(4) == 256 * Pow256(3);
    assert Pow256(5) == 256 * Pow256(4);
    assert Pow256(6) == 256 * Pow256(5);
    assert Pow256(7) == 256 * Pow256(6);
  }

  // The low `w` bytes of `n`, most significant first.
  function BE(n: nat, w: nat): (b: Bytes)
    ensures |b| == w
  {
    if w == 0 then [] else BE(n / 256, w - 1) + [(n % 256) as byte]
  }

  function FromBE(b: Bytes): nat {
    if b == [] then 0 else FromBE(b[..|b| - 1]) * 256 + b[|b| - 1] as int
  }

  lemma {:induction false} FromBEOfBE(n: nat, w: nat)
    requires n < Pow256(w)
    ensures FromBE(BE(n, w)) == n
  {
    if w > 0 {
      var b, q, r := BE(n, w), n / 256, n % 256;
      assert q < Pow256(w - 1);
      FromBEOfBE(q, w - 1);
      assert b == BE(q, w - 1) + [r as byte];
      assert b[..w - 1] == BE(q, w - 1) && b[w - 1] == r as byte;
    }
  }

  lemma {:induction false} BEOfFromBE(b: Bytes)
    ensures FromBE(b) < Pow256(|b|)
    ensures BE(FromBE(b), |b|) == b
  {
    if b != [] {
      BEOfFromBE(b[..|b| - 1]);
      assert b == b[..|b| - 1] + [b[|b| - 1]];
    }
  }

  // ---------- text ----------

  predicate Continuation(c: byte) {
    0x80 <= c < 0xC0
  }

  // Strict UTF-8, as bytes.decode("utf-8") accepts it (the table of section 4 of RFC 3629).
  predicate ValidUtf8(s: Bytes) {
    if s == [] then true
    else if s[0] < 0x80 then ValidUtf8(s[1..])
    else if 0xC2 <= s[0] < 0xE0 then |s| >= 2 && Continuation(s[1]) && ValidUtf8(s[2..])
    else if 0xE0 <= s[0] < 0xF0 then
      && |s| >= 3 && Continuation(s[1]) && Continuation(s[2])
      && (s[0] == 0xE0 ==> s[1] >= 0xA0)
      && (s[0] == 0xED ==> s[1] < 0xA0)
      && ValidUtf8(s[3..])
    else if 0xF0 <= s[0] < 0xF5 then
      && |s| >= 4 && Continuation(s[1]) && Continuation(s[2]) && Continuation(s[3])
      && (s[0] == 0xF0 ==> s[1] >= 0x90)
      && (s[0] == 0xF4 ==> s[1] < 0x90)
      && ValidUtf8(s[4..])
    else false
  }

  // A str value, represented by its UTF-8 encoding.
  type Text = s: Bytes | ValidUtf8(s)

  lemma {:induction false} AsciiIsUtf8(s: Bytes)
    requires forall i | 0 <= i < |s| :: s[i] < 0x80
    ensures ValidUtf8(s)
  {
    if s != [] {
      AsciiIsUtf8(s[1..]);
    }
  }

  function AsciiText(s: Bytes): (t: Text)
    requires forall i | 0 <= i < |s| :: s[i] < 0x80
    ensures t == s
  {
    AsciiIsUtf8(s);
    s
  }

  // These bytes are this ASCII text.
  predicate Spells(b: Bytes, s: string) {
    |b| == |s| && forall i | 0 <= i < |s| :: b[i] as int == s[i] as int
  }

  // ---------- numbers ----------

  function Min(a: real, b: real): real {
    if a <= b then a else b
  }

  function Max(a: real, b: real): real {
    if a >= b then a else b
  }

  // ---------- sets ----------

  lemma NoneIn(ids: set<int>)
    requires forall i :: i !in ids
    ensures ids == {}
  {
    var empty: set<int> := {};
    assert forall i: int :: i in ids <==> i in empty;
  }

  lemma SomeIn(ids: set<int>)
    requires ids != {}
    ensures exists i :: i in ids
  {
    if forall i :: i !in ids {
      NoneIn(ids);
    }
  }
}
