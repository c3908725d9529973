/**
 * The cryptographic libraries the server calls, reduced to the properties it relies on.
 *
 * - bcrypt: `hash(password, 10)` and `compare(password, hash)`. A hash is modelled as an
 *   injective encoding of the password and a salt; `compare` accepts exactly the password
 *   the hash was made from. (bcrypt itself reads only the first 72 bytes of a password;
 *   the model does not truncate.)
 * - jsonwebtoken: `sign({userId}, JWT_SECRET)` and `verify(token, JWT_SECRET)`. A token is
 *   the claim it carries plus whether it was signed with the server's key; `verify` yields
 *   the claim exactly for tokens `sign` made.
 * - speakeasy: `generateSecret({length: 20})` yields a secret and its provisioning URI, and
 *   `totp.verify({secret, token, window: 1})` is a yes/no answer that depends on the clock;
 *   the handlers receive the generated secret and the set of (secret, token) pairs the
 *   check accepts at the time of the request as parameters (`GeneratedSecret`, `TotpCheck`).
 */
module Crypto {
  import opened Wrappers

  /** The stored form of a password: a salted hash. */
  datatype PasswordHash = PasswordHash(salt: string, preimage: string)

  /** `bcrypt.compare(password, hash)`. */
  predicate Matches(password: string, hash: PasswordHash) {
    hash.preimage == password
  }

  /** `bcrypt.hash(password, 10)`, with the random salt as a parameter: `compare` accepts the
      password it was made from and no other. */
  function Hash(password: string, salt: string): (h: PasswordHash)
    ensures Matches(password, h)
    ensures forall other :: Matches(other, h) ==> other == password
  {
    PasswordHash(salt, password)
  }

  /** A bearer token: the `userId` claim and whether it carries a valid signature. */
  datatype Token = Token(userId: string, signed: bool)

  /** `jwt.sign({ userId }, JWT_SECRET)`. */
  function Sign(userId: string): Token {
    Token(userId, true)
  }

  /** `jwt.verify(token, JWT_SECRET)`: the claim of a token the server signed, and nothing for
      any other token. */
  function Verify(t: Token): (r: Option<string>)
    ensures r.Some? ==> t == Sign(r.value)
    ensures (exists u :: t == Sign(u)) ==> r.Some?
  {
    if t.signed then Some(t.userId) else None
  }

  /** What `speakeasy.generateSecret({ length: 20 })` returns that the server uses. */
  datatype GeneratedSecret = GeneratedSecret(base32: string, otpauthUrl: string)

  /** `speakeasy.totp.verify({ secret, encoding: 'base32', token, window: 1 })` at the time of
      the request: the pairs of stored secret and submitted token it accepts. */
  type TotpCheck = iset<(string, string)>
}
