/** The authentication provider: it restores the JWT from the secure store at
    start-up, signs in and out, attaches the bearer header to its requests,
    and withholds its children until the restore has finished. */
module AuthContext {
  import opened Wrappers
  import opened JsValues
  import opened Http
  import opened Storage

  const JwtKey := "jwt"
  const UseAuthOutsideProvider := "useAuth must be used within AuthProvider"

  /** The context value handed to children. */
  datatype AuthState = AuthState(token: Option<string>)

  /** The token a restore picks up from the secure store: the stored `"jwt"`
      value when it is truthy. */
  function StoredToken(secure: map<string, string>): (t: Option<string>)
    ensures t.Some? <==> JwtKey in secure && secure[JwtKey] != ""
    ensures t.Some? ==> t.value == secure[JwtKey]
  {
    var stored := Lookup(secure, JwtKey);
    if Truthy(stored) then stored else None
  }

  /** `String(res.data.accessToken)`. */
  function AccessToken(data: JsObject): string
  {
    ToJsString(Field(data, "accessToken"))
  }

  /** A restore after signing in with a non-empty token yields that token. */
  lemma SignInThenRestore(secure: map<string, string>, t: string)
    requires t != ""
    ensures StoredToken(secure[JwtKey := t]) == Some(t)
  {
  }

  /** A restore after signing out yields no token. */
  lemma SignOutThenRestore(secure: map<string, string>)
    ensures StoredToken(secure - {JwtKey}) == None
  {
  }

  /** An access token that converts to the empty string is stored but not
      restored: the restore tests truthiness. */
  lemma EmptyTokenNotRestored(secure: map<string, string>, data: JsObject)
    requires Field(data, "accessToken") == Str("")
    ensures StoredToken(secure[JwtKey := AccessToken(data)]) == None
  {
  }

  /** A login response without `accessToken` signs in with the string
      `"undefined"`. */
  lemma MissingAccessToken(data: JsObject)
    requires "accessToken" !in data
    ensures AccessToken(data) == "undefined"
  {
  }

  class AuthProvider {
    var token: Option<string>
    var loading: bool
    const secureStore: Store<string>

    constructor (secureStore: Store<string>)
      ensures this.secureStore == secureStore
      ensures token == None && loading
    {
      this.secureStore := secureStore;
      token, loading := None, true;
    }

    /** The start-up effect: adopt a truthy stored token, keep the current
        one otherwise, then stop loading. */
    method RestoreToken()
      modifies this`token, this`loading
      ensures !loading
      ensures token == if StoredToken(secureStore.entries).Some? then StoredToken(secureStore.entries) else old(token)
    {
      var stored := secureStore.GetItem(JwtKey);
      if Truthy(stored) {
        token := stored;
      }
      loading := false;
    }

    /** `signIn`, given the outcome of the login request. On success the
        access token is stored under `"jwt"` and becomes the token; on
        failure the rejection propagates and nothing changes. */
    method SignIn(login: Result<JsObject, JsError>) returns (failure: Option<JsError>)
      modifies this`token, secureStore
      ensures login.Err? ==> && failure == Some(login.error)
                             && token == old(token) && secureStore.entries == old(secureStore.entries)
      ensures login.Ok? ==> && failure == None
                            && token == Some(AccessToken(login.value))
                            && secureStore.entries == old(secureStore.entries)[JwtKey := AccessToken(login.value)]
    {
      if login.Err? {
        return Some(login.error);
      }
      var accessToken := AccessToken(login.value);
      secureStore.SetItem(JwtKey, accessToken);
      token := Some(accessToken);
      failure := None;
    }

    /** `signOut`: the stored token is deleted and the token cleared. */
    method SignOut()
      modifies this`token, secureStore
      ensures token == None
      ensures secureStore.entries == old(secureStore.entries) - {JwtKey}
    {
      secureStore.RemoveItem(JwtKey);
      token := None;
    }

    /** The request interceptor installed for the current token: a truthy
        token becomes the bearer header, a falsy one leaves the request as
        it was, and nothing else about the request changes. */
    function InterceptRequest(cfg: RequestConfig): (r: RequestConfig)
      reads this
      ensures Truthy(token) ==> AuthorizationHeader in r.headers
                                && r.headers[AuthorizationHeader] == "Bearer " + token.value
      ensures !Truthy(token) ==> r == cfg
      ensures r.verb == cfg.verb && r.url == cfg.url && r.params == cfg.params
      ensures forall k :: k in cfg.headers && k != AuthorizationHeader ==> k in r.headers && r.headers[k] == cfg.headers[k]
      ensures r.headers.Keys <= cfg.headers.Keys + {AuthorizationHeader}
    {
      AuthorizeRequest(cfg, token)
    }

    /** What the provider renders: while loading, a placeholder and no
        context; afterwards, the context with the current token. */
    function ProvidedValue(): (v: Option<AuthState>)
      reads this
      ensures v.None? <==> loading
      ensures v.Some? ==> v.value.token == token
    {
      if loading then None else Some(AuthState(token))
    }
  }

  /** `useAuth`: fails outside a provider, otherwise yields the context. */
  function UseAuth(context: Option<AuthState>): (r: Result<AuthState, string>)
    ensures r.Err? <==> context.None?
    ensures r.Err? ==> r.error == UseAuthOutsideProvider
    ensures r.Ok? ==> r.value == context.value
  {
    if context.None? then Err(UseAuthOutsideProvider) else Ok(context.value)
  }
}
