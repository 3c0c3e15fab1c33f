/**
 * Password hashing (app.py:37-45), kept abstract. bcrypt is foreign
 * cryptography, so the hash and the check are parameters of the model: a
 * `Hasher` carries them as total functions, and the one fact the handlers
 * rely on, that a password verifies against its own hash, is the predicate
 * `Sound` that lemmas take as a hypothesis.
 */
module Credentials {
  /** The salt bcrypt.gensalt() draws afresh for every hash. */
  type Salt = string

  datatype Hasher = Hasher(hash: (string, Salt) -> string, verify: (string, string) -> bool)

  /** Any password checks out against a hash made from it, whatever the salt. */
  ghost predicate Sound(h: Hasher) {
    forall password, salt :: h.verify(password, h.hash(password, salt))
  }

  lemma VerifiesOwnHash(h: Hasher, password: string, salt: Salt)
    requires Sound(h)
    ensures h.verify(password, h.hash(password, salt))
  {
  }
}
