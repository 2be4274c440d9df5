/**
 * The token middleware (server/internal/middleware/auth.go): issuing access and
 * refresh tokens, checking the `Authorization` header, and renewing an access
 * token. Signing and verifying are oracles: `sign` turns claims into a token
 * string (None when signing fails), and `verify` reports what parsing a token
 * with a given secret yields.
 */
module Tokens {
  import opened Wrappers
  import opened Strings
  import Response

  const Issuer: string := "Springboard"

  /** Two hours, in seconds. */
  const AccessLifetime: int := 2 * 60 * 60

  /** Fourteen days, in seconds. */
  const RefreshLifetime: int := 14 * 24 * 60 * 60

  /** The HMAC secret a token is signed with. */
  datatype Secret = AccessSecret | RefreshSecret

  /**
   * The claims of a token. `jti` is the issue clock reading (the source uses its
   * text form as the token id). A refresh token has no openid claim, which reads
   * back as the empty string.
   */
  datatype Claims = Claims(openid: string, jti: int, issuer: string, issuedAt: int, expiresAt: int)

  type Signer = (Secret, Claims) -> Option<string>

  /** The validation flags a JWT parser can report. */
  datatype Flag = Malformed | Unverifiable | SignatureInvalid | Expired | NotValidYet | IssuedAtInvalid | OtherClaim

  /**
   * How parsing failed: not at all, with a validation error carrying a set of
   * flags, or with an error of another type.
   */
  datatype ParseError = NoError | Validation(flags: set<Flag>) | Other

  /** The outcome of parsing a token: the error, the token's `Valid` mark and its claims. */
  datatype JwtParse = JwtParse(err: ParseError, valid: bool, claims: Claims)

  type Verifier = (Secret, string) -> JwtParse

  /** A claims set accepted at clock `t`. */
  predicate Live(c: Claims, t: int) {
    c.issuedAt <= t < c.expiresAt
  }

  function AccessClaims(openid: string, now: int): (c: Claims)
    ensures c.openid == openid && c.issuer == Issuer
    ensures forall t :: Live(c, t) <==> now <= t < now + AccessLifetime
  {
    Claims(openid, now, Issuer, now, now + AccessLifetime)
  }

  function RefreshClaims(now: int): (c: Claims)
    ensures c.openid == "" && c.issuer == Issuer
    ensures forall t :: Live(c, t) <==> now <= t < now + RefreshLifetime
  {
    Claims("", now, Issuer, now, now + RefreshLifetime)
  }

  /**
   * A refresh token issued together with an access token is live whenever the
   * access token is, and alone from two hours to fourteen days after issue.
   */
  lemma RefreshOutlivesAccess(openid: string, now: int, t: int)
    ensures Live(AccessClaims(openid, now), t) ==> Live(RefreshClaims(now), t)
    ensures Live(RefreshClaims(now), t) && !Live(AccessClaims(openid, now), t) <==>
      now + AccessLifetime <= t < now + RefreshLifetime
  {
  }

  /**
   * `GenAccessToken`: whatever signing with the access secret makes of claims that
   * name `openid` and the issuer, carry the clock reading as token id, and are live
   * for two hours from `now`.
   */
  function GenAccessToken(openid: string, now: int, sign: Signer): (r: Option<string>)
    ensures exists c: Claims ::
              r == sign(AccessSecret, c) && c.openid == openid && c.issuer == Issuer &&
              c.jti == now && (forall t :: Live(c, t) <==> now <= t < now + AccessLifetime)
  {
    var c := AccessClaims(openid, now);
    assert forall t :: Live(c, t) <==> now <= t < now + AccessLifetime;
    sign(AccessSecret, c)
  }

  /**
   * `GenRefreshToken`: whatever signing with the refresh secret makes of anonymous
   * claims that name the issuer, carry the clock reading as token id, and are live
   * for fourteen days from `now`.
   */
  function GenRefreshToken(now: int, sign: Signer): (r: Option<string>)
    ensures exists c: Claims ::
              r == sign(RefreshSecret, c) && c.openid == "" && c.issuer == Issuer &&
              c.jti == now && (forall t :: Live(c, t) <==> now <= t < now + RefreshLifetime)
  {
    var c := RefreshClaims(now);
    assert forall t :: Live(c, t) <==> now <= t < now + RefreshLifetime;
    sign(RefreshSecret, c)
  }

  /** The `(access, refresh, error)` triple of `GenToken`. */
  datatype TokenPair = TokenPair(access: string, refresh: string, failed: bool)

  /** `GenToken`: both tokens, or both strings empty together with the error. */
  function GenToken(openid: string, now: int, sign: Signer): (r: TokenPair)
    ensures !r.failed <==> GenAccessToken(openid, now, sign).Some? && GenRefreshToken(now, sign).Some?
    ensures r.failed ==> r.access == "" && r.refresh == ""
    ensures !r.failed ==> r.access == GenAccessToken(openid, now, sign).value && r.refresh == GenRefreshToken(now, sign).value
  {
    match GenAccessToken(openid, now, sign)
    case None => TokenPair("", "", true)
    case Some(a) =>
      match GenRefreshToken(now, sign)
      case None => TokenPair("", "", true)
      case Some(f) => TokenPair(a, f, false)
  }

  /** The `(claims, isExpire, error)` triple of `ParseToken`. */
  datatype Parsed = Parsed(claims: Option<Claims>, isExpire: bool, failed: bool)

  /**
   * `ParseToken`: the claims of a valid access token. A parse error passes through;
   * a token that parsed but is not marked valid comes back as expired, together
   * with an "invalid token" error.
   */
  function ParseToken(token: string, verify: Verifier): (r: Parsed)
    ensures r.isExpire ==> r.failed
    ensures !r.failed <==> verify(AccessSecret, token).err.NoError? && verify(AccessSecret, token).valid
    ensures !r.failed ==> r.claims == Some(verify(AccessSecret, token).claims)
    ensures r.failed ==> r.claims.None?
  {
    var j := verify(AccessSecret, token);
    if !j.err.NoError? then Parsed(None, false, true)
    else if j.valid then Parsed(Some(j.claims), false, false)
    else Parsed(None, true, true)
  }

  /**
   * The token of a `Bearer <token>` header: the header split on single spaces must
   * give exactly the word `Bearer` and one more piece.
   */
  function BearerToken(header: string): Option<string> {
    var parts := SplitSpace(header);
    if |parts| != 2 || parts[0] != "Bearer" then None else Some(parts[1])
  }

  /**
   * The headers with a token are exactly `Bearer`, one space, and a token
   * without spaces (which may be empty).
   */
  lemma BearerTokenExactly(header: string, token: string)
    ensures BearerToken(header) == Some(token) <==> header == "Bearer " + token && ' ' !in token
  {
    if BearerToken(header) == Some(token) {
      var parts := SplitSpace(header);
      JoinSplit(header);
      SplitPiecesHaveNoSpace(header);
      assert parts == ["Bearer", token];
      assert JoinSpace(parts) == "Bearer" + " " + token;
      assert ' ' !in parts[1];
    }
    if header == "Bearer " + token && ' ' !in token {
      assert header == "Bearer" + " " + token;
      SplitAfterWord("Bearer", token);
      SplitWithoutSpace(token);
    }
  }

  /** What the middleware does with a request: stop it with a reply, or pass it on. */
  datatype Gate = Abort(reply: Response.Reply) | Continue(openid: string)

  /** The 401 reply with a `{"code": 401, "message": ...}` body. */
  function Unauthorized(message: string): Response.Reply {
    Response.Reply(401, Response.Notice(401, message))
  }

  /**
   * `Auth`: a request passes with the openid of a valid `Bearer` access token;
   * otherwise it is aborted with status 401 and a message saying why.
   */
  function Auth(header: string, verify: Verifier): (r: Gate)
    ensures header == "" ==> r == Abort(Unauthorized("miss token string"))
    ensures header != "" && BearerToken(header).None? ==> r == Abort(Unauthorized("wrong token format"))
    ensures header != "" && BearerToken(header).Some? && ParseToken(BearerToken(header).value, verify).failed ==>
      r == Abort(Unauthorized("invalid token"))
    ensures r.Continue? <==> BearerToken(header).Some? && !ParseToken(BearerToken(header).value, verify).failed
    ensures r.Continue? ==> r.openid == verify(AccessSecret, BearerToken(header).value).claims.openid
  {
    if header == "" then Abort(Unauthorized("miss token string"))
    else match BearerToken(header)
      case None => Abort(Unauthorized("wrong token format"))
      case Some(token) =>
        var parsed := ParseToken(token, verify);
        if parsed.failed then Abort(Unauthorized("invalid token"))
        else if parsed.isExpire then Abort(Unauthorized("token expired"))
        else Continue(parsed.claims.value.openid)
  }

  /** The "token expired" branch can never be taken: expiry always arrives as an error first. */
  lemma AuthNeverReportsExpiry(header: string, verify: Verifier)
    ensures Auth(header, verify) != Abort(Unauthorized("token expired"))
  {
    if header != "" && BearerToken(header).Some? {
      var parsed := ParseToken(BearerToken(header).value, verify);
      assert parsed.isExpire ==> parsed.failed;
    }
  }

  /**
   * Whether the access-token check lets a renewal through: no error, an error that
   * is not a validation error, or a validation error whose only flag is expiry.
   */
  predicate Renewable(e: ParseError) {
    e.NoError? || e.Other? || (e.Validation? && e.flags == {Expired})
  }

  /**
   * `RefreshToken`: a new access token for the openid in the old access token,
   * provided the refresh token (an optional `Bearer ` prefix removed) verifies with
   * the refresh secret and the access token's check is Renewable.
   */
  function RefreshToken(access: string, refresh: string, now: int, verify: Verifier, sign: Signer): (r: Option<string>)
    ensures var j := verify(AccessSecret, access);
      r.Some? <==> verify(RefreshSecret, TrimPrefix(refresh, "Bearer ")).err.NoError? && Renewable(j.err) &&
                   sign(AccessSecret, AccessClaims(j.claims.openid, now)).Some?
    ensures r.Some? ==> r == GenAccessToken(verify(AccessSecret, access).claims.openid, now, sign)
  {
    var rt := TrimPrefix(refresh, "Bearer ");
    if !verify(RefreshSecret, rt).err.NoError? then None
    else
      var j := verify(AccessSecret, access);
      if Renewable(j.err) then GenAccessToken(j.claims.openid, now, sign) else None
  }

  /**
   * A renewal keeps the user: the new token's claims name the openid of the old
   * token, and it is live for two hours from the renewal.
   */
  lemma RenewalKeepsIdentity(access: string, refresh: string, now: int, verify: Verifier, sign: Signer)
    requires RefreshToken(access, refresh, now, verify, sign).Some?
    ensures var c := AccessClaims(verify(AccessSecret, access).claims.openid, now);
      RefreshToken(access, refresh, now, verify, sign) == sign(AccessSecret, c) &&
      c.openid == verify(AccessSecret, access).claims.openid && Live(c, now) && !Live(c, now + AccessLifetime)
  {
  }

  /**
   * An expired access token that also fails another check, such as a bad signature,
   * is never renewed: expiry must be the only complaint.
   */
  lemma ForgedExpiredNotRenewed(access: string, refresh: string, now: int, verify: Verifier, sign: Signer, f: Flag)
    requires f != Expired && verify(AccessSecret, access).err == Validation({Expired, f})
    ensures RefreshToken(access, refresh, now, verify, sign).None?
  {
    assert f in verify(AccessSecret, access).err.flags;
  }

  /**
   * The refresh token is accepted with or without one `Bearer ` prefix (only one is
   * removed, so a token that itself starts with `Bearer ` is seen without it).
   */
  lemma BearerPrefixOptional(access: string, refresh: string, now: int, verify: Verifier, sign: Signer)
    requires !("Bearer " <= refresh)
    ensures RefreshToken(access, "Bearer " + refresh, now, verify, sign) == RefreshToken(access, refresh, now, verify, sign)
  {
    assert TrimPrefix("Bearer " + refresh, "Bearer ") == refresh by {
      assert ("Bearer " + refresh)[|"Bearer "|..] == refresh;
    }
  }
}
