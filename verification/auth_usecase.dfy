/**
 * The login and token endpoints (server/internal/controller/auth.go). The WeChat
 * code exchange is an outside call; its outcome is the `Upstream` parameter.
 */
module AuthUsecase {
  import opened Wrappers
  import opened Response
  import opened Tokens
  import opened AppUsers

  /** The `openid` member of the upstream JSON body. */
  datatype JsonField = Absent | StringValue(s: string) | OtherValue

  /** What the code exchange produced. */
  datatype Upstream = HttpFailed | BodyUnreadable | Body(openid: JsonField)

  datatype Credentials = Credentials(username: string, password: string)

  datatype Handled = Handled(db: UserDb, reply: Reply)

  /** The success reply carrying both tokens of a pair. */
  function PairReply(t: Tokens.TokenPair): Reply {
    SuccessResponse(Response.TokenPair(t.access, t.refresh))
  }

  /**
   * `Login`: tokens for the openid the upstream returned. A failed call, an
   * unreadable body, a missing (or null) openid and a signing failure all reply
   * LoginError; an openid that is not a string makes the type assertion panic,
   * which the recovery middleware turns into a bare 500.
   */
  function Login(upstream: Upstream, now: int, sign: Signer): (r: Reply)
    ensures r.status == 200 <==> upstream.Body? && upstream.openid.StringValue? && !GenToken(upstream.openid.s, now, sign).failed
    ensures r.status == 200 ==> r == PairReply(GenToken(upstream.openid.s, now, sign))
    ensures upstream.Body? && upstream.openid.OtherValue? ==> r == Reply(500, NoBody)
    ensures r.status != 200 && !(upstream.Body? && upstream.openid.OtherValue?) ==> r == ErrorResponse(LoginError)
  {
    match upstream
    case HttpFailed => ErrorResponse(LoginError)
    case BodyUnreadable => ErrorResponse(LoginError)
    case Body(field) =>
      match field
      case Absent => ErrorResponse(LoginError)
      case OtherValue => Reply(500, NoBody)
      case StringValue(openid) =>
        var pair := GenToken(openid, now, sign);
        if pair.failed then ErrorResponse(LoginError) else PairReply(pair)
  }

  /**
   * `AppRegister`: the tokens are issued (for the username) before the account is
   * stored; a signing failure replies LoginError and stores nothing, a failed
   * insert replies ServerError.
   */
  function AppRegister(db: UserDb, body: Option<Credentials>, now: int, sign: Signer): (r: Handled)
    ensures body.None? ==> r == Handled(db, ErrorResponse(ServerError))
    ensures body.Some? && GenToken(body.value.username, now, sign).failed ==> r == Handled(db, ErrorResponse(LoginError))
    ensures r.reply.status == 200 <==>
      body.Some? && !GenToken(body.value.username, now, sign).failed &&
      RegisterAppUser(db, body.value.username, body.value.password).Ok?
    ensures r.reply.status == 200 ==>
      r == Handled(RegisterAppUser(db, body.value.username, body.value.password).value,
                   PairReply(GenToken(body.value.username, now, sign)))
    ensures r.reply.status != 200 ==> r.db == db
  {
    match body
    case None => Handled(db, ErrorResponse(ServerError))
    case Some(req) =>
      var pair := GenToken(req.username, now, sign);
      if pair.failed then Handled(db, ErrorResponse(LoginError))
      else match RegisterAppUser(db, req.username, req.password)
        case Err(_) => Handled(db, ErrorResponse(ServerError))
        case Ok(after) => Handled(after, PairReply(pair))
  }

  /**
   * `AppLogin`: tokens for the username, returned only when the username and
   * password match a stored account; otherwise LoginError.
   */
  function AppLogin(db: UserDb, body: Option<Credentials>, now: int, sign: Signer): (r: Reply)
    ensures body.None? ==> r == ErrorResponse(ServerError)
    ensures r.status == 200 <==>
      body.Some? && !GenToken(body.value.username, now, sign).failed &&
      VerifyLogin(db, body.value.username, body.value.password).Ok?
    ensures r.status == 200 ==> r == PairReply(GenToken(body.value.username, now, sign))
    ensures body.Some? && r.status != 200 ==> r == ErrorResponse(LoginError)
  {
    match body
    case None => ErrorResponse(ServerError)
    case Some(req) =>
      var pair := GenToken(req.username, now, sign);
      if pair.failed then ErrorResponse(LoginError)
      else match VerifyLogin(db, req.username, req.password)
        case Err(_) => ErrorResponse(LoginError)
        case Ok(_) => PairReply(pair)
  }

  /** Someone who has registered can log in with the same credentials. */
  lemma RegisteredUserLogsIn(db: UserDb, creds: Credentials, now: int, later: int, sign: Signer)
    requires AppRegister(db, Some(creds), now, sign).reply.status == 200
    requires !GenToken(creds.username, later, sign).failed
    ensures AppLogin(AppRegister(db, Some(creds), now, sign).db, Some(creds), later, sign).status == 200
  {
    RegisterThenLogin(db, creds.username, creds.password);
  }

  /**
   * The app's own accounts are identified in their tokens by username: the access
   * token a registration returns carries the username as its openid claim.
   */
  lemma RegistrationTokenNamesUser(db: UserDb, creds: Credentials, now: int, sign: Signer)
    requires AppRegister(db, Some(creds), now, sign).reply.status == 200
    ensures AppRegister(db, Some(creds), now, sign).reply.body.data.accessToken
         == sign(AccessSecret, AccessClaims(creds.username, now)).value
  {
  }

  /**
   * `RefreshAccessToken`: a new access token when the header carries a bearer
   * access token and RefreshToken accepts it; RefreshTokenError otherwise.
   */
  function RefreshAccessToken(refreshQuery: Option<string>, header: string, now: int, verify: Verifier, sign: Signer): (r: Reply)
    ensures r.status == 200 <==>
      header != "" && BearerToken(header).Some? &&
      RefreshToken(BearerToken(header).value, Query(refreshQuery), now, verify, sign).Some?
    ensures r.status == 200 ==>
      r == SuccessResponse(AccessToken(RefreshToken(BearerToken(header).value, Query(refreshQuery), now, verify, sign).value))
    ensures r.status != 200 ==> r == ErrorResponse(RefreshTokenError)
  {
    if header == "" then ErrorResponse(RefreshTokenError)
    else match BearerToken(header)
      case None => ErrorResponse(RefreshTokenError)
      case Some(access) =>
        match RefreshToken(access, Query(refreshQuery), now, verify, sign)
        case None => ErrorResponse(RefreshTokenError)
        case Some(t) => SuccessResponse(AccessToken(t))
  }
}
