/**
 * The server's view of the JSON Web Token library: the registered claims it
 * signs (RFC 7519) and what parsing a token string tells it. HMAC-SHA256
 * signing and verification (section 3.2 of RFC 7518) are not modelled; the
 * server code receives them as functions.
 */
module Jwt {

  /** The algorithm name of HMAC with SHA-256 in a token's header. */
  const HS256: string := "HS256"

  /** jwt.RegisteredClaims as Login fills them: sub, iat and exp, in Unix seconds. */
  datatype Claims = Claims(subject: string, issuedAt: int, expiresAt: int)

  /**
   * The outcome of jwt.ParseWithClaims on a token string, for the server's
   * secret and the current instant: either the string is not a token at all,
   * or it names an algorithm in its header, is valid or not (signature and
   * expiry), and carries a subject claim ("" when absent).
   */
  datatype Verification =
    | Unparsable
    | Parsed(alg: string, valid: bool, subject: string)
}
