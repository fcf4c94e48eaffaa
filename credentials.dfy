/** The password hash and the token signing of the auth handlers. Both are
    library calls whose internals are not part of this model: they enter as
    functions the caller supplies, and the one fact the round trip of signup and
    login needs about them is a hypothesis, `Sound`, never an axiom. */
module Credentials {

  /** `hash` stands for `bcrypt.hash(password, 10)`, `compare` for
      `bcrypt.compare(password, stored)` and `sign` for signing a token whose
      payload is the user id and email. */
  datatype Crypto = Crypto(hash: string -> string, compare: (string, string) -> bool,
                           sign: (int, string) -> string)

  /** A password always matches its own hash. */
  ghost predicate Sound(c: Crypto) {
    forall p :: c.compare(p, c.hash(p))
  }
}
