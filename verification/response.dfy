/**
 * The reply shapes of the HTTP layer (server/internal/controller/response.go):
 * the error-code table and the two JSON envelopes every handler writes, plus the
 * bare bodies a few handlers write directly.
 */
module Response {
  import opened Entities
  import opened Wrappers

  // The error codes, in declaration order.
  const ServerError: nat := 0
  const AuthError: nat := 1
  const TokenExpired: nat := 2
  const LoginError: nat := 3
  const RefreshTokenError: nat := 4

  /** The HTTP status of each known code. */
  const HttpCode: map<nat, int> := map[
    ServerError := 502, AuthError := 401, TokenExpired := 401,
    LoginError := 403, RefreshTokenError := 403]

  /** The message of each known code. */
  const Message: map<nat, string> := map[
    ServerError := "服务器错误", AuthError := "无权访问", TokenExpired := "Token过期",
    LoginError := "登录失败", RefreshTokenError := "刷新Token失败"]

  const UnknownStatus: int := 403
  const UnknownMessage: string := "未知错误"

  /** A handler's `data` payload. */
  datatype Data =
    | NoData                                          // Go nil, written as JSON null
    | TemplateList(templates: seq<Template>)
    | PortfolioList(portfolios: seq<Portfolio>)
    | OneTemplate(template: Template)
    | OnePortfolio(portfolio: Portfolio)
    | SavedGraph(uid: string, projects: seq<Project>, template: Template)
    | FeedbackList(feedbacks: seq<Feedback>)
    | TokenPair(accessToken: string, refreshToken: string)
    | AccessToken(token: string)

  datatype Body =
    | Envelope(code: int, msg: string, data: Data)    // {"code", "msg", "data"}
    | ErrorEnvelope(code: int, msg: string)           // {"code", "msg"}
    | Notice(code: int, message: string)              // {"code", "message"}
    | Plain(data: Data)                               // the payload's own fields at top level
    | NoBody                                          // a panic turned into a bare 500

  datatype Reply = Reply(status: int, body: Body)

  /** gin's `c.Query(key)`: the parameter's value, "" when it is absent (None). */
  function Query(param: Option<string>): string {
    match param
    case None => ""
    case Some(s) => s
  }

  /** gin's `c.DefaultQuery(key, def)`: `def` only when the parameter is absent. */
  function DefaultQuery(param: Option<string>, def: string): string {
    match param
    case None => def
    case Some(s) => s
  }

  /** `SuccessResponse`: status 200 around the data, unchanged. */
  function SuccessResponse(data: Data): (r: Reply)
    ensures r.status == 200 && r.body.Envelope? && r.body.code == 200 && r.body.msg == "success"
    ensures r.body.data == data
  {
    Reply(200, Envelope(200, "success", data))
  }

  /**
   * `ErrorResponse`: the code's status and message from the tables, 403 and the
   * unknown-error message for a code missing from them. The body carries only the
   * code and the message, never the error itself.
   */
  function ErrorResponse(code: nat): (r: Reply)
    ensures r.body.ErrorEnvelope? && r.body.code == code
    ensures code in HttpCode ==> r.status == HttpCode[code] && r.body.msg == Message[code]
    ensures code !in HttpCode ==> r.status == UnknownStatus && r.body.msg == UnknownMessage
  {
    var status := if code in HttpCode then HttpCode[code] else UnknownStatus;
    var msg := if code in Message then Message[code] else UnknownMessage;
    Reply(status, ErrorEnvelope(code, msg))
  }

  /** The two tables cover the same five codes. */
  lemma TablesAgree()
    ensures HttpCode.Keys == Message.Keys == {0, 1, 2, 3, 4}
  {
  }

  /**
   * An error reply can never be mistaken for a success: its status is not 200, and
   * the status tells the class of error — 502 for a server error, 401 for the two
   * authentication codes, 403 for everything else.
   */
  lemma ErrorStatusClasses(code: nat)
    ensures ErrorResponse(code).status != 200
    ensures ErrorResponse(code).status == 502 <==> code == ServerError
    ensures ErrorResponse(code).status == 401 <==> code == AuthError || code == TokenExpired
    ensures ErrorResponse(code).status == 403 <==> code != ServerError && code != AuthError && code != TokenExpired
    ensures ErrorResponse(code).body.msg == UnknownMessage <==> code > RefreshTokenError
  {
    assert code in HttpCode <==> code <= 4;
  }

  /** Distinct codes give distinct replies. */
  lemma ErrorResponseInjective(a: nat, b: nat)
    requires ErrorResponse(a) == ErrorResponse(b)
    ensures a == b
  {
    assert ErrorResponse(a).body.code == a;
  }
}
