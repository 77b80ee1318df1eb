/** Outgoing request configurations and the bearer-token rule that every
    request interceptor of the application applies. */
module Http {
  import opened Wrappers
  import opened JsValues

  type Headers = map<string, string>

  const AuthorizationHeader := "Authorization"

  /** The parts of an axios request configuration the interceptors see. */
  datatype RequestConfig = RequestConfig(verb: string, url: string, params: map<string, string>, headers: Headers)

  /** A response as the response interceptor sees it. */
  datatype Response = Response(status: nat, data: JsObject)

  /** `if (token) headers.Authorization = "Bearer " + token`: the header is set
      exactly when the token is truthy, and no other header changes. */
  function WithBearer(headers: Headers, token: Option<string>): (r: Headers)
    ensures Truthy(token) ==> AuthorizationHeader in r && r[AuthorizationHeader] == "Bearer " + token.value
    ensures !Truthy(token) ==> r == headers
    ensures forall k :: k in headers && k != AuthorizationHeader ==> k in r && r[k] == headers[k]
    ensures r.Keys == headers.Keys + (if Truthy(token) then {AuthorizationHeader} else {})
  {
    if Truthy(token) then headers[AuthorizationHeader := "Bearer " + token.value] else headers
  }

  /** A request interceptor that adds the bearer header: it changes the headers
      only, as `WithBearer` says. */
  function AuthorizeRequest(cfg: RequestConfig, token: Option<string>): (r: RequestConfig)
    ensures r.verb == cfg.verb && r.url == cfg.url && r.params == cfg.params
    ensures r.headers == WithBearer(cfg.headers, token)
    ensures !Truthy(token) ==> r == cfg
  {
    cfg.(headers := WithBearer(cfg.headers, token))
  }

  /** Without a prior Authorization header, the header is present after the
      interceptor exactly when the token is truthy. */
  lemma BearerAddedIffTruthy(cfg: RequestConfig, token: Option<string>)
    requires AuthorizationHeader !in cfg.headers
    ensures AuthorizationHeader in AuthorizeRequest(cfg, token).headers <==> Truthy(token)
  {
  }
}
