/**
 * The authentication context: the in-memory `authToken` and `user`, kept
 * in step with the stored pair and with the instance's default
 * `Authorization` header by `loginUser`, `logoutUser` and the storage
 * listener.
 */
module AuthContext {
  import opened Wrappers
  import opened Api
  import opened UserSerializers

  /**
   * Everything a session transition touches: the context's two state
   * variables, the stored pair and the instance's default headers.
   */
  datatype Session = Session(
    authToken: Option<TokenPair>,
    user: Option<Claims>,
    stored: Option<TokenPair>,
    defaults: map<string, string>)

  /** The decoded user follows the token: present exactly with it, and decoded from its access token. */
  ghost predicate Coherent(v: Session, decode: string -> Claims) {
    match v.authToken
    case None => v.user.None?
    case Some(t) => v.user == Some(decode(t.access))
  }

  /** The context's initial state, read from storage. */
  function Initial(stored: Option<TokenPair>, defaults: map<string, string>, decode: string -> Claims): (v: Session)
    ensures v.authToken == stored && v.stored == stored && v.defaults == defaults
    ensures Coherent(v, decode)
  {
    Session(stored, if stored.Some? then Some(decode(stored.value.access)) else None, stored, defaults)
  }

  /**
   * `loginUser(tokens)`: the tokens are adopted everywhere, in memory, in
   * storage and in the default header, and no other default header changes.
   */
  function Login(v: Session, tokens: TokenPair, decode: string -> Claims): (w: Session)
    ensures w.authToken == Some(tokens) && w.stored == Some(tokens)
    ensures w.user == Some(decode(tokens.access)) && Coherent(w, decode)
    ensures AuthorizationHeader in w.defaults && w.defaults[AuthorizationHeader] == Bearer(tokens.access)
    ensures forall h :: h != AuthorizationHeader ==>
      (h in w.defaults <==> h in v.defaults) && (h in w.defaults ==> w.defaults[h] == v.defaults[h])
  {
    Session(Some(tokens), Some(decode(tokens.access)), Some(tokens),
            v.defaults[AuthorizationHeader := Bearer(tokens.access)])
  }

  /**
   * `logoutUser()`: memory and storage are cleared and only the default
   * `Authorization` header is removed.
   */
  function Logout(v: Session): (w: Session)
    ensures w.authToken.None? && w.user.None? && w.stored.None?
    ensures AuthorizationHeader !in w.defaults
    ensures forall h :: h != AuthorizationHeader ==>
      (h in w.defaults <==> h in v.defaults) && (h in w.defaults ==> w.defaults[h] == v.defaults[h])
  {
    Session(None, None, None, v.defaults - {AuthorizationHeader})
  }

  lemma LogoutIdempotent(v: Session)
    ensures Logout(Logout(v)) == Logout(v)
  {
  }

  /**
   * The `storage` listener: with no stored entry it changes nothing; with
   * one, it adopts it coherently in memory and in the default header.
   */
  function StorageChanged(v: Session, decode: string -> Claims): (w: Session)
    ensures v.stored.None? ==> w == v
    ensures v.stored.Some? ==>
      && w.authToken == v.stored && w.stored == v.stored && Coherent(w, decode)
      && AuthorizationHeader in w.defaults && w.defaults[AuthorizationHeader] == Bearer(v.stored.value.access)
    ensures forall h :: h != AuthorizationHeader ==>
      (h in w.defaults <==> h in v.defaults) && (h in w.defaults ==> w.defaults[h] == v.defaults[h])
  {
    match v.stored
    case None => v
    case Some(t) =>
      Session(Some(t), Some(decode(t.access)), v.stored, v.defaults[AuthorizationHeader := Bearer(t.access)])
  }

  /** The pair `loginUser` stores, read back by the listener, is the login pair: nothing changes. */
  lemma LoginThenStorageChange(v: Session, tokens: TokenPair, decode: string -> Claims)
    ensures StorageChanged(Login(v, tokens, decode), decode) == Login(v, tokens, decode)
  {
  }

  /** Every transition keeps the user decoded from the current token. */
  lemma TransitionsKeepCoherent(v: Session, tokens: TokenPair, decode: string -> Claims)
    requires Coherent(v, decode)
    ensures Coherent(Login(v, tokens, decode), decode)
    ensures Coherent(Logout(v), decode)
    ensures Coherent(StorageChanged(v, decode), decode)
  {
  }

  /** After logging in with a non-empty access token, every request carries it as a bearer token. */
  lemma RequestAfterLoginCarriesToken(v: Session, tokens: TokenPair, decode: string -> Claims, req: Request)
    requires tokens.access != ""
    ensures var w := Login(v, tokens, decode);
      var out := Outgoing(w.defaults, w.stored, req);
      AuthorizationHeader in out.headers && out.headers[AuthorizationHeader] == Bearer(tokens.access)
  {
  }

  /** After logout a request carries an `Authorization` header only if it set one itself. */
  lemma RequestAfterLogoutCarriesNoToken(v: Session, req: Request)
    ensures var w := Logout(v);
      var out := Outgoing(w.defaults, w.stored, req);
      (AuthorizationHeader in out.headers <==> AuthorizationHeader in req.headers)
  {
  }

  /**
   * A failed refresh removes the stored pair but not the default header the
   * last login set: until the page has left for the login route, a request
   * still carries the login's access token.
   */
  lemma RequestAfterRefreshFailureKeepsLoginHeader(
    v: Session, tokens: TokenPair, decode: string -> Claims, s: ApiState, cause: string, req: Request)
    requires tokens.access != "" && AuthorizationHeader !in req.headers
    requires s.stored == Login(v, tokens, decode).stored && s.lock.Some?
    ensures var w := Login(v, tokens, decode);
      var t := OnRefreshRejected(s, cause);
      var out := Outgoing(w.defaults, t.stored, req);
      t.stored.None? && out.headers[AuthorizationHeader] == Bearer(tokens.access)
  {
  }

  /**
   * A failed refresh that ends the session as `logoutUser` does: with a
   * refresh in flight, the stored pair and the default `Authorization`
   * header both go, along with the in-memory token and user.
   */
  function RefreshRejectedSession(v: Session, s: ApiState, cause: string): (w: Session)
    ensures s.lock.None? ==> w == v
    ensures s.lock.Some? ==> w.stored == OnRefreshRejected(s, cause).stored && w == Logout(v)
  {
    if s.lock.None? then v else Logout(v)
  }

  /**
   * With a failed refresh ending the session this way, a request that
   * follows carries an `Authorization` header only if it set one itself.
   */
  lemma RequestAfterRefreshFailureCarriesNoToken(v: Session, s: ApiState, cause: string, req: Request)
    requires s.lock.Some?
    ensures var w := RefreshRejectedSession(v, s, cause);
      var out := Outgoing(w.defaults, OnRefreshRejected(s, cause).stored, req);
      (AuthorizationHeader in out.headers <==> AuthorizationHeader in req.headers)
      && (AuthorizationHeader in req.headers ==> out.headers[AuthorizationHeader] == req.headers[AuthorizationHeader])
  {
  }

  /** The `AuthProvider` component's state, over the shared browser and axios instance. */
  class AuthProvider {
    const api: ApiClient
    const decode: string -> Claims    // `jwtDecode`, left uninterpreted
    var authToken: Option<TokenPair>
    var user: Option<Claims>

    function View(): Session
      reads this, api, api.browser
    {
      Session(authToken, user, api.browser.storedToken, api.defaultHeaders)
    }

    constructor (api: ApiClient, decode: string -> Claims)
      ensures this.api == api && this.decode == decode
      ensures View() == Initial(api.browser.storedToken, api.defaultHeaders, decode)
    {
      this.api := api;
      this.decode := decode;
      var stored := api.browser.storedToken;
      authToken := stored;
      user := if stored.Some? then Some(decode(stored.value.access)) else None;
    }

    method LoginUser(tokens: TokenPair)
      modifies this, api, api.browser
      ensures View() == Login(old(View()), tokens, decode)
      ensures api.browser.location == old(api.browser.location)
      ensures api.State() == old(api.State()).(stored := Some(tokens))
    {
      authToken := Some(tokens);
      user := Some(decode(tokens.access));
      api.browser.storedToken := Some(tokens);
      api.defaultHeaders := api.defaultHeaders[AuthorizationHeader := Bearer(tokens.access)];
    }

    method LogoutUser()
      modifies this, api, api.browser
      ensures View() == Logout(old(View()))
      ensures api.State() == old(api.State()).(stored := None)
    {
      authToken := None;
      user := None;
      api.browser.storedToken := None;
      api.defaultHeaders := api.defaultHeaders - {AuthorizationHeader};
    }

    method HandleStorageChange()
      modifies this, api
      ensures View() == StorageChanged(old(View()), decode)
      ensures api.State() == old(api.State())
    {
      var tokenItem := api.browser.storedToken;
      if tokenItem.Some? {
        var parsedToken := tokenItem.value;
        authToken := Some(parsedToken);
        user := Some(decode(parsedToken.access));
        api.defaultHeaders := api.defaultHeaders[AuthorizationHeader := Bearer(parsedToken.access)];
      }
    }
  }
}
