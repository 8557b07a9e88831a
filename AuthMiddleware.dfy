/**
  `authMiddleware`: decides, for one request, whether the next handler runs
  and with which user, or which error status the response gets. The token is
  taken from a `Bearer` authorization header, else from the session cookie;
  a three-part token is verified as a JWT, any other token goes to the
  configured session lookup.
 */
module AuthMiddleware {
  import opened Wrappers
  import opened JsValue
  import opened JsString
  import Config

  /** The parts of an Express request the middleware reads. */
  datatype Incoming = Incoming(
    path: string,
    body: Value,
    authorization: Option<string>,
    cookies: Option<map<string, string>>)

  /** A request: what it carries, and `req.user`, which the middleware sets. */
  class Request {
    const incoming: Incoming
    var user: Value

    constructor (incoming: Incoming)
      ensures this.incoming == incoming && user == Undefined
    {
      this.incoming := incoming;
      user := Undefined;
    }
  }

  datatype AuthResult =
    | Next                      // `next()` without authentication
    | NextWithUser(user: Value) // `req.user` set, `next()` run in the user's context
    | Status(code: nat)         // an error response; `next()` is not called
    | Rejected                  // the opaque-token lookup threw: the middleware's promise rejects

  /**
    `getConfigVariable('HOST') != "0.0.0.0"`. Numbers and booleans compare with the
    string converted to a number, which is `NaN`; objects, arrays and functions
    compare by their string conversion.
   */
  predicate HostChanged(host: Value)
  {
    match host
    case Str(s) => s != "0.0.0.0"
    case Obj(_, _) => ToPropertyKey(host) != "0.0.0.0"
    case Arr(_, _) => ToPropertyKey(host) != "0.0.0.0"
    case Fn(_, _) => ToPropertyKey(host) != "0.0.0.0"
    case _ => true
  }

  /** A header starting with `Bearer ` has at least two space-separated fields. */
  lemma BearerSplits(h: string)
    requires StartsWith(h, "Bearer ")
    ensures |Split(h, ' ')| >= 2
  {
    NoCharCount("Bearer", ' ');
    assert h == "Bearer" + [' '] + h[7..];
    SplitPrefix("Bearer", ' ', h[7..]);
  }

  /** `authorization.split(' ')[1]` for a `Bearer ` header, nothing otherwise. */
  function HeaderToken(authorization: Option<string>): Option<string>
  {
    match authorization
    case Some(h) =>
      if h != "" && StartsWith(h, "Bearer ") then BearerSplits(h); Some(Split(h, ' ')[1])
      else None
    case None => None
  }

  /** `req.cookies && req.cookies[name]`, kept only when truthy. */
  function CookieToken(cookies: Option<map<string, string>>, name: string): Option<string>
  {
    match cookies
    case Some(c) => if name in c && c[name] != "" then Some(c[name]) else None
    case None => None
  }

  /** A truthy token: present and not empty. */
  predicate HasToken(token: Option<string>)
  {
    token.Some? && token.value != ""
  }

  /** The token the middleware works with: the header's if truthy, else the cookie's. */
  function ResolveToken(incoming: Incoming, tokenName: string): (r: Option<string>)
    ensures r.Some? ==> r.value != ""
    ensures HasToken(HeaderToken(incoming.authorization)) ==> r == HeaderToken(incoming.authorization)
    ensures !HasToken(HeaderToken(incoming.authorization)) ==> r == CookieToken(incoming.cookies, tokenName)
  {
    var header := HeaderToken(incoming.authorization);
    if HasToken(header) then header else CookieToken(incoming.cookies, tokenName)
  }

  /** `isJWT(token)`: exactly three `.`-separated parts. */
  predicate IsJWT(token: string)
  {
    |Split(token, '.')| == 3
  }

  /** A verified payload that only carries a session id: a single key and a truthy `id`. */
  predicate IsSessionPayload(payload: Value)
  {
    payload.Obj? && |payload.props| == 1 && Truthy(Get(payload, "id"))
  }

  /**
    The decision `authMiddleware` takes. `verify` stands for `jwt.verify` with the
    configured secret and algorithm and `lookup` for awaiting the configured
    `sessionLookup`; `None` means the call threw. A throw inside the `try` around
    verification, the session lookup included, is answered with 401.
   */
  function Decide(incoming: Incoming, config: map<string, Value>,
                  verify: string -> Option<Value>, lookup: Value -> Option<Value>): AuthResult
  {
    if incoming.path == "/login" then Next
    else if HostChanged(Lookup(config, "HOST")) then
      var user := Get(incoming.body, "user");
      if Truthy(incoming.body) && Truthy(user) then NextWithUser(user) else Status(500)
    else
      match ResolveToken(incoming, ToPropertyKey(Lookup(config, "TOKEN_NAME")))
      case None => Status(401)
      case Some(token) =>
        if IsJWT(token) then
          match verify(token)
          case None => Status(401)
          case Some(payload) =>
            if IsSessionPayload(payload) then
              match lookup(Get(payload, "id"))
              case None => Status(401)
              case Some(user) => NextWithUser(user)
            else NextWithUser(payload)
        else
          match lookup(Str(token))
          case None => Rejected
          case Some(user) => NextWithUser(user)
  }

  /** `authMiddleware(req, res, next)`, step by step as the handler runs. */
  method Authenticate(req: Request, config: Config.ConfigStore,
                      verify: string -> Option<Value>, lookup: Value -> Option<Value>)
    returns (r: AuthResult)
    modifies req
    ensures r == Decide(req.incoming, config.current, verify, lookup)
    ensures req.user == (if r.NextWithUser? then r.user else old(req.user))
  {
    var incoming := req.incoming;
    if incoming.path == "/login" {
      return Next;
    }
    if HostChanged(config.GetConfigVariable("HOST")) {
      if Truthy(incoming.body) && Truthy(Get(incoming.body, "user")) {
        req.user := Get(incoming.body, "user");
        return NextWithUser(req.user);
      }
      return Status(500);
    }
    var token: Option<string> := None;
    if incoming.authorization.Some? && incoming.authorization.value != ""
       && StartsWith(incoming.authorization.value, "Bearer ") {
      BearerSplits(incoming.authorization.value);
      token := Some(Split(incoming.authorization.value, ' ')[1]);
    }
    var tokenName := ToPropertyKey(config.GetConfigVariable("TOKEN_NAME"));
    if !HasToken(token) && incoming.cookies.Some? && tokenName in incoming.cookies.value
       && incoming.cookies.value[tokenName] != "" {
      token := Some(incoming.cookies.value[tokenName]);
    }
    if !HasToken(token) {
      return Status(401);
    }
    var t := token.value;
    if IsJWT(t) {
      var decoded := verify(t);
      if decoded.None? {
        return Status(401);
      }
      if IsSessionPayload(decoded.value) {
        var found := lookup(Get(decoded.value, "id"));
        if found.None? {
          return Status(401);
        }
        req.user := found.value;
      } else {
        req.user := decoded.value;
      }
    } else {
      var found := lookup(Str(t));
      if found.None? {
        return Rejected;
      }
      req.user := found.value;
    }
    r := NextWithUser(req.user);
  }

  // ----- properties -----------------------------------------------------------

  /** `next()` is called without authentication exactly on the login route. */
  lemma OnlyLoginSkips(incoming: Incoming, config: map<string, Value>,
                       verify: string -> Option<Value>, lookup: Value -> Option<Value>)
    ensures Decide(incoming, config, verify, lookup) == Next <==> incoming.path == "/login"
  {
  }

  /** With `HOST` changed the body's `user` is the user; without one the response is 500. */
  lemma ChangedHostTrustsBody(incoming: Incoming, config: map<string, Value>,
                              verify: string -> Option<Value>, lookup: Value -> Option<Value>)
    requires incoming.path != "/login" && HostChanged(Lookup(config, "HOST"))
    ensures var user := Get(incoming.body, "user");
      Decide(incoming, config, verify, lookup) ==
        (if Truthy(incoming.body) && Truthy(user) then NextWithUser(user) else Status(500))
  {
  }

  /** The default configuration keeps `HOST` at `0.0.0.0`, so a body `user` is never trusted. */
  lemma DefaultHostChecksTokens(production: bool)
    ensures !HostChanged(Lookup(Config.DefaultConfig(production), "HOST"))
  {
  }

  /** A `Bearer ` header yields its second space-separated field. */
  lemma BearerTokenIsSecondField(rest: string)
    requires Count(rest, ' ') == 0
    ensures HeaderToken(Some("Bearer " + rest)) == Some(rest)
  {
    var h := "Bearer " + rest;
    assert StartsWith(h, "Bearer ");
    NoCharCount("Bearer", ' ');
    assert h == "Bearer" + [' '] + rest;
    SplitPrefix("Bearer", ' ', rest);
    SplitFree(rest, ' ');
  }

  /** A header without the `Bearer ` prefix gives no token. */
  lemma OtherHeadersGiveNoToken(h: string)
    requires !StartsWith(h, "Bearer ")
    ensures HeaderToken(Some(h)) == None
  {
  }

  /** The cookie is read only when the header gave no truthy token. */
  lemma CookieOnlyWithoutHeaderToken(incoming: Incoming, tokenName: string)
    ensures ResolveToken(incoming, tokenName) != CookieToken(incoming.cookies, tokenName) ==>
      HasToken(HeaderToken(incoming.authorization))
  {
  }

  /** No token from either source: 401, and the next handler is not called. */
  lemma NoTokenIs401(incoming: Incoming, config: map<string, Value>,
                     verify: string -> Option<Value>, lookup: Value -> Option<Value>)
    requires incoming.path != "/login" && !HostChanged(Lookup(config, "HOST"))
    requires ResolveToken(incoming, ToPropertyKey(Lookup(config, "TOKEN_NAME"))).None?
    ensures Decide(incoming, config, verify, lookup) == Status(401)
  {
  }

  /** A token is a JWT exactly when it holds two dots. */
  lemma IsJWTIffTwoDots(token: string)
    ensures IsJWT(token) <==> Count(token, '.') == 2
  {
    SplitLength(token, '.');
  }

  /** The token the middleware decides on, under `config`. */
  function TokenUnder(incoming: Incoming, config: map<string, Value>): Option<string>
  {
    ResolveToken(incoming, ToPropertyKey(Lookup(config, "TOKEN_NAME")))
  }

  /**
    A JWT: verification failure gives 401; a session-only payload is looked up by its
    `id` (a failing lookup also gives 401); any other payload is the user itself.
   */
  lemma JwtBranch(incoming: Incoming, config: map<string, Value>,
                  verify: string -> Option<Value>, lookup: Value -> Option<Value>)
    requires incoming.path != "/login" && !HostChanged(Lookup(config, "HOST"))
    requires TokenUnder(incoming, config).Some? && IsJWT(TokenUnder(incoming, config).value)
    ensures var token := TokenUnder(incoming, config).value;
      var d := Decide(incoming, config, verify, lookup);
      (verify(token).None? ==> d == Status(401)) &&
      (verify(token).Some? && IsSessionPayload(verify(token).value) ==>
         d == (match lookup(Get(verify(token).value, "id"))
               case None => Status(401)
               case Some(user) => NextWithUser(user))) &&
      (verify(token).Some? && !IsSessionPayload(verify(token).value) ==> d == NextWithUser(verify(token).value))
  {
  }

  /** A token that is not a JWT goes straight to the session lookup; its throw is not caught. */
  lemma OpaqueBranch(incoming: Incoming, config: map<string, Value>,
                     verify: string -> Option<Value>, lookup: Value -> Option<Value>)
    requires incoming.path != "/login" && !HostChanged(Lookup(config, "HOST"))
    requires TokenUnder(incoming, config).Some? && !IsJWT(TokenUnder(incoming, config).value)
    ensures var token := TokenUnder(incoming, config).value;
      Decide(incoming, config, verify, lookup) ==
        (match lookup(Str(token))
         case None => Rejected
         case Some(user) => NextWithUser(user))
  {
  }

  /** Every authenticated user comes from the body, the verified payload or the lookup. */
  lemma UserProvenance(incoming: Incoming, config: map<string, Value>,
                       verify: string -> Option<Value>, lookup: Value -> Option<Value>)
    requires Decide(incoming, config, verify, lookup).NextWithUser?
    ensures var user := Decide(incoming, config, verify, lookup).user;
      user == Get(incoming.body, "user") ||
      (exists t :: verify(t) == Some(user)) ||
      (exists v :: lookup(v) == Some(user))
  {
    var token := TokenUnder(incoming, config);
    if !HostChanged(Lookup(config, "HOST")) {
      var t := token.value;
      if IsJWT(t) {
        var p := verify(t).value;
        if IsSessionPayload(p) {
          assert lookup(Get(p, "id")) == Some(Decide(incoming, config, verify, lookup).user);
        } else {
          assert verify(t) == Some(Decide(incoming, config, verify, lookup).user);
        }
      } else {
        assert lookup(Str(t)) == Some(Decide(incoming, config, verify, lookup).user);
      }
    }
  }
}
