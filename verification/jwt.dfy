/** The part of JSON Web Tokens (RFC 7519) the backend relies on: a signed
    token carries a payload and an expiry time, and verification rejects a
    token whose signature does not check or whose `exp` claim has passed
    (section 4.1.4 of RFC 7519). Signing and signature checking are foreign
    code; `decode` stands for the signature check under the process secret. */
module Jwt {
  import opened Common

  /** `expiresIn: "1h"`, in seconds. */
  const VALIDITY_SECONDS := 3600

  /** The claims a token carries: the payload, issued-at and expiry times. */
  datatype Claims = Claims(payload: Payload, iat: int, exp: int)

  /** The claims of `jwt.sign(payload, secret, { expiresIn: "1h" })` at `now`. */
  function Sign(payload: Payload, now: int): (c: Claims)
    ensures c.payload == payload && c.iat == now
    ensures c.exp - c.iat == VALIDITY_SECONDS
  {
    Claims(payload, now, now + VALIDITY_SECONDS)
  }

  /** `jwt.verify(token, secret)`: the payload when the signature checks and
      the current time is before `exp`; nothing otherwise (the library throws). */
  function Verify(decode: string -> Option<Claims>, token: string, now: int): (p: Option<Payload>)
    ensures p.Some? <==> decode(token).Some? && now < decode(token).value.exp
    ensures p.Some? ==> p.value == decode(token).value.payload
  {
    match decode(token)
    case None => None
    case Some(c) => if now < c.exp then Some(c.payload) else None
  }

  /** A token signed at time `t` verifies, to its own payload, exactly at
      the times before `t` plus one hour. */
  lemma IssuedTokenLifetime(decode: string -> Option<Claims>, token: string, p: Payload, t: int, now: int)
    requires decode(token) == Some(Sign(p, t))
    ensures Verify(decode, token, now).Some? <==> now < t + VALIDITY_SECONDS
    ensures Verify(decode, token, now).Some? ==> Verify(decode, token, now).value == p
  {
  }
}
