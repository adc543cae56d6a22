/** Field encryption at rest: tagging, and pass-through of untagged text, around an abstract AEAD. */
module Crypto {
  import opened Wrappers
  import opened Text

  const ENC_PREFIX := "enc:v1:"

  /** seal(nonce, plaintext) is the encoded nonce and ciphertext; open undoes it or fails. */
  datatype Cipher = Cipher(seal: (string, string) -> string, open: string -> Option<string>)

  ghost predicate Sound(c: Cipher) {
    forall n, p :: c.open(c.seal(n, p)) == Some(p)
  }

  function Encrypt(c: Cipher, nonce: string, plaintext: string): string {
    ENC_PREFIX + c.seal(nonce, plaintext)
  }

  function Decrypt(c: Cipher, s: string): Result<string, string> {
    if !HasPrefix(s, ENC_PREFIX) then Ok(s)
    else match c.open(s[|ENC_PREFIX|..])
      case None => Err("decrypt")
      case Some(p) => Ok(p)
  }

  /** The store's `enc`: without a cipher the text is stored as it is. */
  function Enc(cipher: Option<Cipher>, nonce: string, plaintext: string): string {
    if cipher == None then plaintext else Encrypt(cipher.value, nonce, plaintext)
  }

  /** The store's `dec`. */
  function Dec(cipher: Option<Cipher>, stored: string): Result<string, string> {
    if cipher == None then Ok(stored) else Decrypt(cipher.value, stored)
  }

  lemma DecUndoesEnc(cipher: Option<Cipher>, nonce: string, p: string)
    requires cipher.Some? ==> Sound(cipher.value)
    ensures Dec(cipher, Enc(cipher, nonce, p)) == Ok(p)
  {
    if cipher.Some? {
      var sealed := cipher.value.seal(nonce, p);
      assert (ENC_PREFIX + sealed)[|ENC_PREFIX|..] == sealed;
    }
  }

  /** Text that decrypts to something else than itself, or not at all, carries the tag. */
  lemma UntaggedPassesThrough(c: Cipher, s: string)
    requires !HasPrefix(s, ENC_PREFIX)
    ensures forall cipher :: cipher == None || cipher == Some(c) ==> Dec(cipher, s) == Ok(s)
  {}

  /** With a cipher everything is tagged and sealed, without one nothing is; and only tagged text is opened. */
  lemma EncryptionTells(c: Cipher, nonce: string, p: string, s: string)
    ensures Enc(Some(c), nonce, p) == "enc:v1:" + c.seal(nonce, p)
    ensures Enc(None, nonce, p) == p && Dec(None, s) == Ok(s)
    ensures Dec(Some(c), "enc:v1:" + s) == if c.open(s).Some? then Ok(c.open(s).value) else Err("decrypt")
  {
    assert ("enc:v1:" + s)[7..] == s;
  }
}
