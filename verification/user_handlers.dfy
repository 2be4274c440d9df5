/**
 * The older refresh endpoint (server/internal/controller/user.go), which no route
 * uses: the same decision as the one in the auth controller, with fixed 401
 * messages and a bare `{"access_token"}` body.
 */
module UserHandlers {
  import opened Wrappers
  import opened Response
  import opened Tokens
  import AuthUsecase

  /** `RefreshAccessToken` of the user controller. */
  function RefreshAccessToken(refreshQuery: Option<string>, header: string, now: int, verify: Verifier, sign: Signer): (r: Reply)
    ensures header == "" ==> r == Unauthorized("miss token string")
    ensures header != "" && BearerToken(header).None? ==> r == Unauthorized("wrong token format")
    ensures header != "" && BearerToken(header).Some? ==>
      var t := RefreshToken(BearerToken(header).value, Query(refreshQuery), now, verify, sign);
      r == if t.Some? then Reply(200, Plain(AccessToken(t.value))) else Unauthorized("refresh token error")
  {
    if header == "" then Unauthorized("miss token string")
    else match BearerToken(header)
      case None => Unauthorized("wrong token format")
      case Some(access) =>
        match RefreshToken(access, Query(refreshQuery), now, verify, sign)
        case None => Unauthorized("refresh token error")
        case Some(t) => Reply(200, Plain(AccessToken(t)))
  }

  /**
   * The two refresh endpoints succeed on the same requests and hand out the same
   * token; they differ only in the shape of their replies.
   */
  lemma RefreshEndpointsAgree(refreshQuery: Option<string>, header: string, now: int, verify: Verifier, sign: Signer)
    ensures var mine := RefreshAccessToken(refreshQuery, header, now, verify, sign);
      var theirs := AuthUsecase.RefreshAccessToken(refreshQuery, header, now, verify, sign);
      (mine.status == 200 <==> theirs.status == 200) &&
      (mine.status == 200 ==> mine.body.data == theirs.body.data) &&
      (mine.status != 200 ==> mine.status == 401 && theirs.status == 403)
  {
  }
}
