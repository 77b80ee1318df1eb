/** The shared REST client: a replaceable token getter, a request interceptor
    that adds the bearer header, and a pass-through response interceptor. */
module ApiClient {
  import opened Wrappers
  import opened JsValues
  import opened Http

  /** The exported `api` instance together with the module-level `getToken`
      it consults. */
  class Api {
    /** The module-level `getToken`. */
    var getToken: () -> Option<string>

    /** Before registration the getter returns `null`. */
    constructor ()
      ensures getToken() == None
    {
      getToken := () => None;
    }

    method RegisterTokenGetter(fn: () -> Option<string>)
      modifies this
      ensures getToken() == fn()
    {
      getToken := fn;
    }

    /** The request interceptor consults the getter on every request: a
        truthy token becomes the bearer header, a falsy one leaves the
        request as it was, and nothing else about the request changes. */
    function InterceptRequest(cfg: RequestConfig): (r: RequestConfig)
      reads this
      ensures Truthy(getToken()) ==> AuthorizationHeader in r.headers
                                     && r.headers[AuthorizationHeader] == "Bearer " + getToken().value
      ensures !Truthy(getToken()) ==> r == cfg
      ensures r.verb == cfg.verb && r.url == cfg.url && r.params == cfg.params
      ensures forall k :: k in cfg.headers && k != AuthorizationHeader ==> k in r.headers && r.headers[k] == cfg.headers[k]
      ensures r.headers.Keys <= cfg.headers.Keys + {AuthorizationHeader}
    {
      AuthorizeRequest(cfg, getToken())
    }
  }

  /** The response interceptor: `res => res`, `err => Promise.reject(err)`. */
  function InterceptResponse(outcome: Result<Response, JsError>): (r: Result<Response, JsError>)
    ensures r.Ok? <==> outcome.Ok?
    ensures r.Ok? ==> r.value == outcome.value
    ensures r.Err? ==> r.error == outcome.error
  {
    match outcome
    case Ok(res) => Ok(res)
    case Err(err) => Err(err)
  }

  /** A request made before any getter is registered goes out unchanged. */
  method RequestBeforeRegistration(cfg: RequestConfig) returns (sent: RequestConfig)
    ensures sent == cfg
    ensures AuthorizationHeader !in cfg.headers ==> AuthorizationHeader !in sent.headers
  {
    var client := new Api();
    sent := client.InterceptRequest(cfg);
  }

  /** After registration, requests carry the bearer header for whatever
      token the registered getter returns. */
  method RequestAfterRegistration(cfg: RequestConfig, fn: () -> Option<string>) returns (sent: RequestConfig)
    ensures Truthy(fn()) ==> AuthorizationHeader in sent.headers && sent.headers[AuthorizationHeader] == "Bearer " + fn().value
    ensures !Truthy(fn()) ==> sent == cfg
    ensures sent.verb == cfg.verb && sent.url == cfg.url && sent.params == cfg.params
    ensures forall k :: k in cfg.headers && k != AuthorizationHeader ==> k in sent.headers && sent.headers[k] == cfg.headers[k]
    ensures sent.headers == WithBearer(cfg.headers, fn())
  {
    var client := new Api();
    client.RegisterTokenGetter(fn);
    sent := client.InterceptRequest(cfg);
  }
}
