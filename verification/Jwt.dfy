/** Tokens and their validity (nerd/jwt/jwt.go), with signatures left to a parameter. */
module Jwt {
  import opened Prelude

  type Token = string

  /** The part of the claims that is looked at: the expiration time in seconds, if present. */
  datatype Claims = Claims(exp: Option<int>)

  /** Decoding with a public key: the claims, or None if it is no token or not signed so. */
  type Decoder = Token -> Option<Claims>

  /** Clock readings are in nanoseconds. */
  const SECOND := 1_000_000_000

  // an absent claim leaves the field at 0
  function ExpiresAt(c: Claims): int {
    if c.exp.Some? then c.exp.value else 0
  }

  predicate NotPast(c: Claims, now: int) {
    ExpiresAt(c) == 0 || now / SECOND <= ExpiresAt(c)
  }

  /** isValid. */
  predicate IsValid(decode: Decoder, token: Token, now: int) {
    decode(token).Some? && NotPast(decode(token).value, now)
  }

  /** Section 4.1.4 of RFC 7519: not on or after the expiration time. */
  predicate Permitted(c: Claims, now: int) {
    c.exp.None? || now < c.exp.value * SECOND
  }

  /** isValid accepts all that the standard permits, and beyond that exactly a token within
      its last second, from its expiration time on, and one that has expired at time 0. */
  lemma AcceptedIsPermittedExcept(c: Claims, now: int)
    ensures Permitted(c, now) ==> NotPast(c, now)
    ensures NotPast(c, now) && !Permitted(c, now) <==>
      && c.exp.Some?
      && c.exp.value * SECOND <= now
      && (now < c.exp.value * SECOND + SECOND || c.exp.value == 0)
  {
    if c.exp.Some? {
      var e := c.exp.value;
      assert now / SECOND <= e <==> now < e * SECOND + SECOND;
    }
  }
}
