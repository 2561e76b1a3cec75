/**
 * AuthMiddleware: the gate in front of every /api route. It reads the
 * Authorization header, verifies the bearer token and either aborts the
 * request with 401 or hands the user id in the token's subject on to the
 * handler.
 */
module Middleware {
  import opened Wrappers
  import Numeric
  import Jwt

  const BearerPrefix: string := "Bearer "

  const AuthorizationRequired: string := "authorization required"
  const InvalidToken: string := "invalid token"
  const InvalidClaims: string := "invalid token claims"
  const InvalidSubject: string := "invalid subject in token"

  /** The gate either aborts with a status and an error message or lets the request on with a user id. */
  datatype Decision = Reject(status: nat, message: string) | Accept(userID: nat)

  /** strings.HasPrefix: the string is the prefix followed by something. */
  predicate HasPrefix(s: string, prefix: string)
    ensures HasPrefix(s, prefix) <==> exists rest :: s == prefix + rest
  {
    if |prefix| <= |s| && s[..|prefix|] == prefix then
      assert s == prefix + s[|prefix|..];
      true
    else
      assert forall rest :: (prefix + rest)[..|prefix|] == prefix;
      false
  }

  /** strings.TrimPrefix: removes one copy of the prefix when it is there. */
  function TrimPrefix(s: string, prefix: string): (t: string)
    ensures HasPrefix(s, prefix) ==> prefix + t == s
    ensures !HasPrefix(s, prefix) ==> t == s
  {
    if HasPrefix(s, prefix) then s[|prefix|..] else s
  }

  /** The decision once the token string is parsed: algorithm, validity, subject, in that order. */
  function Judge(v: Jwt.Verification): (d: Decision)
    ensures d.Reject? ==> d.status == 401
    ensures d == Reject(401, InvalidToken) <==> (v.Unparsable? || v.alg != Jwt.HS256 || !v.valid)
    ensures d == Reject(401, InvalidClaims) <==> (v.Parsed? && v.alg == Jwt.HS256 && v.valid && v.subject == "")
    ensures d == Reject(401, InvalidSubject) <==>
      (v.Parsed? && v.alg == Jwt.HS256 && v.valid && v.subject != "" && Numeric.ParseUint(v.subject).None?)
    ensures d.Accept? ==> v.Parsed? && v.alg == Jwt.HS256 && v.valid && Numeric.ParseUint(v.subject) == Some(d.userID)
    ensures d.Accept? ==> d.userID <= Numeric.MaxUint64
    ensures v.Parsed? && v.alg == Jwt.HS256 && v.valid && Numeric.ParseUint(v.subject).Some? ==>
      d == Accept(Numeric.ParseUint(v.subject).value)
  {
    if v.Unparsable? || v.alg != Jwt.HS256 || !v.valid then Reject(401, InvalidToken)
    else if v.subject == "" then Reject(401, InvalidClaims)
    else match Numeric.ParseUint(v.subject)
      case None => Reject(401, InvalidSubject)
      case Some(uid) => Accept(uid)
  }

  /**
   * AuthMiddleware for one request: `header` is the Authorization header
   * ("" when absent) and `verify(token, secret)` is what the token library
   * reports, with its secret, the server's JWT secret.
   */
  function Authorize(header: string, secret: string, verify: (string, string) -> Jwt.Verification): (d: Decision)
    ensures d.Reject? ==> d.status == 401
    ensures d == Reject(401, AuthorizationRequired) <==> !HasPrefix(header, BearerPrefix)
    ensures HasPrefix(header, BearerPrefix) ==> d == Judge(verify(header[|BearerPrefix|..], secret))
  {
    if header == "" || !HasPrefix(header, BearerPrefix) then Reject(401, AuthorizationRequired)
    else Judge(verify(TrimPrefix(header, BearerPrefix), secret))
  }

  /**
   * Only the first "Bearer " comes off: whatever follows it, another
   * "Bearer " or spaces included, is the token the library is asked about.
   */
  lemma TokenIsRestOfHeader(token: string, secret: string, verify: (string, string) -> Jwt.Verification)
    ensures Authorize(BearerPrefix + token, secret, verify) == Judge(verify(token, secret))
  {
  }

  /** A subject with a sign, a non-digit or more than 64 bits of value is refused even on a valid HS256 token. */
  lemma RejectsMalformedSubject(subject: string)
    requires subject != ""
    requires subject[0] == '+' || subject[0] == '-' || (exists i :: 0 <= i < |subject| && !Numeric.IsDigit(subject[i]))
      || (Numeric.AllDigits(subject) && Numeric.ValueOf(subject) > Numeric.MaxUint64)
    ensures Judge(Jwt.Parsed(Jwt.HS256, true, subject)) == Reject(401, InvalidSubject)
  {
  }

  /** Subject round trip: a valid HS256 token whose subject is the decimal form of a 64-bit id admits exactly that id. */
  lemma {:induction false} AcceptsDecimalSubject(uid: nat)
    requires uid <= Numeric.MaxUint64
    ensures Judge(Jwt.Parsed(Jwt.HS256, true, Numeric.FormatUint(uid))) == Accept(uid)
  {
    Numeric.ParseUintFormatUint(uid);
  }

  /** The subject's leading zeros are ignored: "007" admits user 7. */
  lemma AcceptsLeadingZeros(uid: nat, zeros: nat)
    requires uid <= Numeric.MaxUint64
    ensures Judge(Jwt.Parsed(Jwt.HS256, true, seq(zeros, _ => '0') + Numeric.FormatUint(uid))) == Accept(uid)
  {
    var z := seq(zeros, _ => '0');
    Numeric.LeadingZerosValue(z, Numeric.FormatUint(uid));
    Numeric.ValueOfFormatUint(uid);
  }
}
