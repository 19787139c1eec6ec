/** The interceptors of the shared HTTP client (src/services/auth.ts): the
    request interceptor that attaches the stored token, and the response
    interceptor that turns a failed request into the message shown to the
    user, the logout on an expired session, and the rejection passed on to
    the caller. */
module Auth {
  import opened Js
  import opened Text

  type Headers = map<string, string>

  const AuthorizationHeader: string := "Authorization"
  const BearerPrefix: string := "Bearer "

  /** The request interceptor: with a stored token (`localStorage` read by
      the caller) the Authorization header is set to "Bearer " + token; with
      none the headers pass through as they are. */
  function AttachToken(headers: Headers, token: Option<string>): (r: Headers)
    ensures Truthy(token) ==> AuthorizationHeader in r && r[AuthorizationHeader] == BearerPrefix + token.value
    ensures !Truthy(token) ==> r == headers
    ensures forall h :: h != AuthorizationHeader ==> (h in r <==> h in headers)
    ensures forall h :: h != AuthorizationHeader && h in headers ==> r[h] == headers[h]
  {
    if Truthy(token) then headers[AuthorizationHeader := BearerPrefix + token.value] else headers
  }

  /** The token can be read back from the header it produced, so different
      tokens give different headers. */
  lemma TokenReadBack(headers: Headers, token: string, other: string)
    requires token != ""
    ensures var v := AttachToken(headers, Some(token))[AuthorizationHeader];
      StartsWith(v, BearerPrefix) && v[|BearerPrefix|..] == token
    ensures other != "" && other != token ==>
      AttachToken(headers, Some(other))[AuthorizationHeader] != AttachToken(headers, Some(token))[AuthorizationHeader]
  {
    var v := AttachToken(headers, Some(token))[AuthorizationHeader];
    assert v[|BearerPrefix|..] == token;
    if other != "" {
      var w := AttachToken(headers, Some(other))[AuthorizationHeader];
      assert w[|BearerPrefix|..] == other;
    }
  }

  // ---------------------------------------------------------------------
  // Response errors

  /** The server's answer to a failed request: its status and the `message`
      of its body, when the body has one. */
  datatype ErrorResponse = ErrorResponse(status: int, bodyMessage: Option<string>)

  /** A failed request as axios reports it: with a response, with only a
      request (no answer), or with neither (the request was never made). */
  datatype RequestError = RequestError(response: Option<ErrorResponse>, requestSent: bool, message: Option<string>)

  /** What the interceptor does with a failure: the message it shows,
      whether it logs the user out (drops the token and goes to the login
      page), and the error it rejects with. */
  datatype Handled = Handled(shown: string, logout: bool, rejected: RequestError)

  const BadRequestText: string := "请求参数错误"
  const ExpiredText: string := "登录已过期，请重新登录"
  const ForbiddenText: string := "权限不足，无法访问"
  const NotFoundText: string := "请求的资源不存在"
  const ServerErrorText: string := "服务器内部错误，请稍后重试"
  const NetworkText: string := "网络连接失败，请检查网络设置"
  const UnknownText: string := "未知错误"

  /** `请求失败 (status)`. */
  function StatusText(status: int): string {
    "请求失败 (" + IntToDecimal(status) + ")"
  }

  /** The message shown for a server answer. */
  function ResponseText(r: ErrorResponse): (text: string)
    ensures r.status == 400 ==> text == if Truthy(r.bodyMessage) then r.bodyMessage.value else BadRequestText
    ensures r.status == 401 ==> text == ExpiredText
    ensures r.status == 403 ==> text == ForbiddenText
    ensures r.status == 404 ==> text == NotFoundText
    ensures r.status == 500 ==> text == ServerErrorText
    ensures r.status !in {400, 401, 403, 404, 500} ==>
      text == if Truthy(r.bodyMessage) then r.bodyMessage.value else StatusText(r.status)
  {
    match r.status
    case 400 => if Truthy(r.bodyMessage) then r.bodyMessage.value else BadRequestText
    case 401 => ExpiredText
    case 403 => ForbiddenText
    case 404 => NotFoundText
    case 500 => ServerErrorText
    case _ => if Truthy(r.bodyMessage) then r.bodyMessage.value else StatusText(r.status)
  }

  /** The response interceptor's error branch. */
  function HandleError(e: RequestError): (h: Handled)
    ensures h.rejected == e
    ensures h.logout <==> e.response.Some? && e.response.value.status == 401
    ensures e.response.Some? ==> h.shown == ResponseText(e.response.value)
    ensures e.response.None? && e.requestSent ==> h.shown == NetworkText
    ensures e.response.None? && !e.requestSent ==>
      h.shown == if Truthy(e.message) then e.message.value else UnknownText
  {
    match e.response
    case Some(r) => Handled(ResponseText(r), r.status == 401, e)
    case None =>
      if e.requestSent then Handled(NetworkText, false, e)
      else Handled(if Truthy(e.message) then e.message.value else UnknownText, false, e)
  }

  /** The user is always shown a non-empty message. */
  lemma ShownMessageNonEmpty(e: RequestError)
    ensures HandleError(e).shown != ""
  {
  }

  /** For 401, 403, 404 and 500 what happens does not depend on the body;
      for any status, whether the user is logged out does not either. */
  lemma FixedStatusesIgnoreBody(status: int, m1: Option<string>, m2: Option<string>, sent: bool, msg: Option<string>)
    ensures status in {401, 403, 404, 500} ==>
      HandleError(RequestError(Some(ErrorResponse(status, m1)), sent, msg)).shown ==
      HandleError(RequestError(Some(ErrorResponse(status, m2)), sent, msg)).shown
    ensures HandleError(RequestError(Some(ErrorResponse(status, m1)), sent, msg)).logout ==
            HandleError(RequestError(Some(ErrorResponse(status, m2)), sent, msg)).logout
  {
  }

  /** Without a body message, two unlisted statuses are told apart by the
      message: the status is written into it. */
  lemma StatusTextDistinguishes(s1: int, s2: int)
    ensures StatusText(s1) == StatusText(s2) ==> s1 == s2
  {
    if StatusText(s1) == StatusText(s2) {
      var a := IntToDecimal(s1);
      var b := IntToDecimal(s2);
      var pre := "请求失败 (";
      assert StatusText(s1) == pre + a + ")";
      assert a == StatusText(s1)[|pre|..|StatusText(s1)| - 1];
      assert b == StatusText(s2)[|pre|..|StatusText(s2)| - 1];
      IntRoundTrip(s1);
      IntRoundTrip(s2);
    }
  }

  /** A server answer never reads as a network failure, and an answer that
      is not 401 never logs out. */
  lemma AnswerIsNotNetworkFailure(e: RequestError)
    requires e.response.Some? && e.response.value.status != 401
    ensures !HandleError(e).logout
    ensures HandleError(e).shown == ResponseText(e.response.value)
  {
  }
}
