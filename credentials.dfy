/**
 * Values exchanged with the backend by the storage client: token-refresh
 * replies, the session headers built from the access token, HTTP replies
 * and `raise_for_status`.
 */
module Credentials {
  import opened Common

  /**
   * The reply to `POST /api/v2/profile/auth/token-refresh/`: either the
   * request or its JSON decoding raised, or a status and the `access` field.
   */
  datatype TokenReply = TokenRequestFailed | TokenResponse(status: int, access: Option<string>)

  /** Status 200 with a non-empty `access` token: the only reply that changes the credentials. */
  predicate Granted(reply: TokenReply) {
    reply.TokenResponse? && reply.status == 200 && Present(reply.access)
  }

  const BaseUrl: string := "https://abrehamrahi.ir"
  const BearerPrefix: string := "Bearer "
  const UserAgent: string :=
    "Mozilla/5.0 (Windows NT 10.0; Win64; x64) AppleWebKit/537.36 (KHTML, like Gecko) Chrome/142.0.0.0 Safari/537.36"

  /** `f'Bearer {self.access_token}' if self.access_token else ''`. */
  function AuthorizationHeader(access: Option<string>): string {
    if Present(access) then BearerPrefix + access.value else ""
  }

  /** The token a bearer header carries, if it is one. */
  function BearerToken(header: string): Option<string> {
    if |header| > |BearerPrefix| && header[..|BearerPrefix|] == BearerPrefix then Some(header[|BearerPrefix|..])
    else None
  }

  /**
   * The header is empty exactly when there is no access token, and
   * otherwise carries exactly the current token.
   */
  lemma AuthorizationHeaderCarriesToken(access: Option<string>)
    ensures AuthorizationHeader(access) == "" <==> !Present(access)
    ensures Present(access) ==> BearerToken(AuthorizationHeader(access)) == access
    ensures !Present(access) ==> BearerToken(AuthorizationHeader(access)) == None
  {
    if Present(access) {
      var h := AuthorizationHeader(access);
      assert h[..|BearerPrefix|] == BearerPrefix;
      assert h[|BearerPrefix|..] == access.value;
    }
  }

  /** `self.headers` as `_update_session_headers` builds it. */
  function SessionHeaders(access: Option<string>): (h: map<string, string>)
    ensures h.Keys == {"authorization", "user-agent", "origin", "referer", "content-type"}
    ensures h["authorization"] == AuthorizationHeader(access)
  {
    map[
      "authorization" := AuthorizationHeader(access),
      "user-agent" := UserAgent,
      "origin" := BaseUrl,
      "referer" := BaseUrl + "/drive/files",
      "content-type" := "application/json"
    ]
  }

  /** Headers built for two tokens differ at most in `authorization`. */
  lemma SessionHeadersDifferOnlyInAuthorization(a: Option<string>, b: Option<string>, k: string)
    requires k in SessionHeaders(a) && k != "authorization"
    ensures k in SessionHeaders(b) && SessionHeaders(a)[k] == SessionHeaders(b)[k]
  {
  }

  // ---------------------------------------------------------------------
  // HTTP replies

  /** A response: its status code and its decoded JSON body. */
  datatype Response<B> = Response(status: int, body: B)

  /** What one `session.get/post/delete` does: it raises, or it returns a response. */
  datatype HttpReply<B> = RequestFailed | Replied(response: Response<B>)

  /**
   * What the backend answers to one authorized call: the first reply, the
   * token-refresh reply used if that was a 401, and the reply to the
   * re-issued request.
   */
  datatype CallScript<B> = CallScript(first: HttpReply<B>, refresh: TokenReply, retry: HttpReply<B>)

  /** `raise_for_status`: statuses 400 to 599 raise. */
  function RaiseForStatus<B>(response: Response<B>): Result<Response<B>, Error> {
    if 400 <= response.status < 600 then Failure(HttpStatusError(response.status)) else Success(response)
  }

  /** The outcome of the last request of a call: its exception, or `raise_for_status` of its response. */
  function ReplyOutcome<B>(reply: HttpReply<B>): (r: Result<Response<B>, Error>)
    ensures reply.RequestFailed? ==> r == Failure(NetworkError)
    ensures reply.Replied? && reply.response.status == 401 ==> r == Failure(HttpStatusError(401))
    ensures r.Success? ==> reply.Replied? && r.value == reply.response && !(400 <= reply.response.status < 600)
  {
    match reply
    case RequestFailed => Failure(NetworkError)
    case Replied(response) => RaiseForStatus(response)
  }

  // ---------------------------------------------------------------------
  // The refresh-once pattern of the authorized calls

  /** The request is answered with 401. */
  predicate Unauthorized<B>(reply: HttpReply<B>) {
    reply.Replied? && reply.response.status == 401
  }

  /**
   * The request is sent a second time: the first reply is a 401, a refresh
   * token is held (so `refresh_access_token` asks for a token at all) and
   * the refresh is granted.
   */
  predicate Reissued<B>(script: CallScript<B>, refreshHeld: bool) {
    Unauthorized(script.first) && refreshHeld && Granted(script.refresh)
  }

  /**
   * The outcome of an authorized call.  Without a 401 it is that of the
   * first reply; a 401 whose refresh fails raises 401; a re-issued request
   * answered with 401 again raises 401 too, with no second refresh.
   */
  function CallOutcome<B>(script: CallScript<B>, refreshHeld: bool): (r: Result<Response<B>, Error>)
    ensures !Unauthorized(script.first) ==> r == ReplyOutcome(script.first)
    ensures Unauthorized(script.first) && !Reissued(script, refreshHeld) ==> r == Failure(HttpStatusError(401))
    ensures Reissued(script, refreshHeld) ==> r == ReplyOutcome(script.retry)
    ensures Reissued(script, refreshHeld) && Unauthorized(script.retry) ==> r == Failure(HttpStatusError(401))
    ensures r.Success? ==> r.value.status != 401
  {
    ReplyOutcome(if Reissued(script, refreshHeld) then script.retry else script.first)
  }

  /**
   * The access token after an authorized call: the token of the granted
   * refresh when the request was re-issued, otherwise the token before.
   */
  function TokenAfter<B>(access: Option<string>, script: CallScript<B>, refreshHeld: bool): Option<string> {
    if Reissued(script, refreshHeld) then script.refresh.access else access
  }

  /** `response.json()` after `raise_for_status`. */
  function BodyOf<B>(r: Result<Response<B>, Error>): Result<B, Error> {
    match r
    case Success(response) => Success(response.body)
    case Failure(e) => Failure(e)
  }
}
