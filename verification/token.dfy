/** The session credential: a JSON Web Token (RFC 7519) whose payload is
    `{ id }`, signed with the process-wide `JWT_SECRET`, and expiring thirty
    days after it is issued.

    The cryptography is abstract: a token records the key it was signed
    with, and verification with a key succeeds on the signature check
    exactly when the two keys are equal. */
module Token {
  import opened Js

  /** `expiresIn: '30d'`, in seconds: the distance between the `iat`
      claim (section 4.1.6 of RFC 7519) and the `exp` claim (section 4.1.4). */
  const Lifetime: int := 30 * 24 * 60 * 60

  /** Registered claims plus the one private claim `id`. */
  datatype Claims = Claims(id: string, iat: int, exp: int)

  /** A signed token: its claims and the key its signature was made with. */
  datatype Jwt = Jwt(claims: Claims, signingKey: string)

  /** What the `jwt` cookie can hold: a token, or any other text (which the
      verifier rejects as malformed; the empty text counts as no cookie). */
  datatype CookieValue = Signed(jwt: Jwt) | Raw(text: string)

  datatype SignError = SecretMissing

  datatype VerifyError = Malformed | SecretNotProvided | InvalidSignature | Expired

  /** The token library's clock: whole seconds since the epoch. */
  function Seconds(nowMs: nat): nat
  {
    nowMs / 1000
  }

  /** `generateToken(id)`: sign `{ id }` with the secret, stamping `iat` from
      the clock and `exp` thirty days later. Signing with an empty or unset
      secret throws. */
  function Issue(id: string, secret: string, nowMs: nat): (r: Result<Jwt, SignError>)
    ensures r.Failure? <==> secret == ""
    ensures r.Success? ==> r.value.claims.id == id && r.value.signingKey == secret
    ensures r.Success? ==> r.value.claims.iat == Seconds(nowMs)
    ensures r.Success? ==> r.value.claims.exp - r.value.claims.iat == Lifetime
  {
    if secret == "" then Failure(SecretMissing)
    else
      var iat := Seconds(nowMs);
      Success(Jwt(Claims(id, iat, iat + Lifetime), secret))
  }

  /** `jwt.verify(token, secret)`: the claims, or the reason the token is
      refused. A token is expired once the clock reaches its `exp`. */
  function Verify(v: CookieValue, secret: string, nowMs: nat): (r: Result<Claims, VerifyError>)
    ensures r.Success? <==>
      v.Signed? && secret != "" && v.jwt.signingKey == secret && Seconds(nowMs) < v.jwt.claims.exp
    ensures r.Success? ==> r.value == v.jwt.claims
  {
    match v
    case Raw(_) => Failure(Malformed)
    case Signed(j) =>
      if secret == "" then Failure(SecretNotProvided)
      else if j.signingKey != secret then Failure(InvalidSignature)
      else if Seconds(nowMs) >= j.claims.exp then Failure(Expired)
      else Success(j.claims)
  }

  /** Round trip: a token issued for `id` verifies with the same secret, and
      yields `id`, exactly while fewer than thirty days have passed. */
  lemma IssueThenVerify(id: string, secret: string, issuedMs: nat, checkedMs: nat)
    requires secret != ""
    ensures Issue(id, secret, issuedMs).Success?
    ensures var t := Issue(id, secret, issuedMs).value;
      Verify(Signed(t), secret, checkedMs).Success? <==> Seconds(checkedMs) < Seconds(issuedMs) + Lifetime
    ensures var t := Issue(id, secret, issuedMs).value;
      Verify(Signed(t), secret, checkedMs).Success? ==> Verify(Signed(t), secret, checkedMs).value.id == id
  {
  }

  /** Once a token has failed verification it keeps failing later with the
      same key: expiry only moves one way. */
  lemma VerifyFailureIsPermanent(v: CookieValue, secret: string, nowMs: nat, laterMs: nat)
    requires nowMs <= laterMs
    requires Verify(v, secret, nowMs).Failure?
    ensures Verify(v, secret, laterMs).Failure?
  {
    assert Seconds(nowMs) <= Seconds(laterMs);
  }
}
