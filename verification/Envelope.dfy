/**
 * Sealed blobs, after `src/connections/envelope-cipher.ts`: a nonce, an authentication tag and a ciphertext,
 * one after the other. The cipher itself is a parameter.
 */
module Envelope {
  import opened Basics

  type Bytes = seq<bv8>

  const IV_BYTES: nat := 12
  const TAG_BYTES: nat := 16
  const KEY_BYTES: nat := 32

  /** An authenticated cipher: encryption gives a tag and a ciphertext, decryption checks the tag. */
  datatype Aead = Aead(encrypt: (Bytes, Bytes, Bytes) -> (Bytes, Bytes), decrypt: (Bytes, Bytes, Bytes, Bytes) -> Option<Bytes>)

  /** What is asked of the cipher: it opens what it sealed, with the key it was sealed with. */
  ghost predicate Opens(a: Aead) {
    forall plain, key, iv :: |iv| == IV_BYTES && |key| == KEY_BYTES ==>
      var (tag, text) := a.encrypt(plain, key, iv);
      |tag| == TAG_BYTES && a.decrypt(iv, tag, text, key) == Some(plain)
  }

  datatype CipherError = TooShort | Unauthentic | WrongLength

  function Seal(a: Aead, plain: Bytes, key: Bytes, iv: Bytes): Bytes {
    var (tag, text) := a.encrypt(plain, key, iv);
    iv + tag + text
  }

  function Open(a: Aead, blob: Bytes, key: Bytes): Result<Bytes, CipherError> {
    if |blob| < IV_BYTES + TAG_BYTES then Err(TooShort)
    else
      var tagged := IV_BYTES + TAG_BYTES;
      match a.decrypt(blob[..IV_BYTES], blob[IV_BYTES..tagged], blob[tagged..], key)
      case None => Err(Unauthentic)
      case Some(plain) => Ok(plain)
  }

  /** A data key must also have the right length. */
  function OpenDataKey(a: Aead, blob: Bytes, master: Bytes): Result<Bytes, CipherError> {
    match Open(a, blob, master)
    case Err(e) => Err(e)
    case Ok(key) => if |key| == KEY_BYTES then Ok(key) else Err(WrongLength)
  }

  lemma OpenOfSeal(a: Aead, plain: Bytes, key: Bytes, iv: Bytes)
    requires Opens(a) && |iv| == IV_BYTES && |key| == KEY_BYTES
    ensures Open(a, Seal(a, plain, key, iv), key) == Ok(plain)
  {
    var (tag, text) := a.encrypt(plain, key, iv);
    var blob := iv + tag + text;
    assert blob[..IV_BYTES] == iv && blob[IV_BYTES..IV_BYTES + TAG_BYTES] == tag && blob[IV_BYTES + TAG_BYTES..] == text;
  }
}
