// The cryptographic primitives, as parameters. Nothing is assumed of them beyond the round trip
// and the sizes that their interfaces promise.
module Primitives {
  import opened Common

  const TAG_SIZE := 16

  // ChaCha20-Poly1305: (key, nonce, plaintext or ciphertext, associated data)
  datatype Aead = Aead(
    encrypt: (Bytes, Bytes, Bytes, Bytes) -> Bytes,
    decrypt: (Bytes, Bytes, Bytes, Bytes) -> Option<Bytes>)

  ghost predicate Sound(a: Aead) {
    forall key: Bytes, nonce: Bytes, plain: Bytes, aad: Bytes {:trigger a.encrypt(key, nonce, plain, aad)} ::
      && |a.encrypt(key, nonce, plain, aad)| == |plain| + TAG_SIZE
      && a.decrypt(key, nonce, a.encrypt(key, nonce, plain, aad), aad) == Some(plain)
  }

  const HASH_SIZE := 32

  // HMAC-SHA-256 of (key, message), and SHA-256.
  datatype Hash = Hash(hmac: (Bytes, Bytes) -> Bytes, sha256: Bytes -> Bytes)

  ghost predicate SoundHash(h: Hash) {
    && (forall key: Bytes, message: Bytes {:trigger h.hmac(key, message)} :: |h.hmac(key, message)| == HASH_SIZE)
    && (forall message: Bytes {:trigger h.sha256(message)} :: |h.sha256(message)| == HASH_SIZE)
  }
}
