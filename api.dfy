/**
 * The authenticated request gateway of lib/api.ts: `apiFetch` and the
 * path-building wrappers around it.
 *
 * The network is a transport function from a request to a reply. The
 * browser state the gateway touches (the `accessToken` and `refreshToken`
 * storage entries and `window.location.href`) is a `Session`. `Dispatch`
 * states what one call does to them, and the `Gateway` class performs the
 * same steps one at a time and is proved to agree with it.
 */
module Api {
  import opened Base
  import opened JsText
  import opened JsValue

  /** A response body: the JSON it parses to, or text that `response.json()` rejects. */
  datatype Body = Parsed(value: ParsedJson) | Unparsable

  /** What the transport does with one request: a response, or a rejected `fetch` with its message. */
  datatype Reply = Response(status: int, body: Body) | NetworkError(message: string)

  /** One HTTP request; `path` is the part after the configured API origin. */
  datatype Request = Request(path: string, verb: string, headers: map<string, string>, body: Option<string>)

  type Transport = Request -> Reply

  /**
   * The options of one `apiFetch` call. `headers` are the caller's own,
   * `authToken` is `None` for `undefined` (callers pass a string; the
   * re-issued call passes whatever the refresh reply held), and `retry` is
   * the internal `_retry` flag that only the gateway itself sets.
   */
  datatype Options = Options(
    verb: string,
    body: Option<string>,
    headers: map<string, string>,
    authToken: Option<Json>,
    retry: bool)

  /** How a call settles: the parsed body, or a thrown `Error` with its message. */
  datatype Outcome = Ok(value: Json) | Err(message: string)

  /** The stored tokens and the location the gateway may navigate to. */
  datatype Session = Session(accessToken: Option<string>, refreshToken: Option<string>, location: Option<string>)

  const LoginPage := "/pages/login"
  const RefreshPath := "/auth/refresh/"
  const InvalidCredentials := "Credenciais inválidas"
  const StatusFallback := "Erro na requisição: "

  /** `response.ok`. */
  predicate IsOkStatus(status: int) {
    200 <= status <= 299
  }

  /** A stored or passed string that JavaScript treats as truthy: present and non-empty. */
  predicate IsSet(v: Option<string>) {
    v.Some? && v.value != ""
  }

  /**
   * The headers of a request: the JSON content type, then a bearer
   * `Authorization` header when the token is truthy (section 2.1 of RFC 6750),
   * then the caller's headers, each later one overriding an earlier one.
   */
  function BuildHeaders(token: Option<Json>, caller: map<string, string>): (h: map<string, string>)
    ensures "Content-Type" in h
    ensures h["Content-Type"] == if "Content-Type" in caller then caller["Content-Type"] else "application/json"
    ensures "Authorization" in h <==> Present(token) || "Authorization" in caller
    ensures "Authorization" in h && "Authorization" !in caller ==> h["Authorization"] == "Bearer " + ToJsString(token.value)
    ensures forall k :: k in caller ==> k in h && h[k] == caller[k]
    ensures forall k :: k in h ==> k in caller || k == "Content-Type" || k == "Authorization"
  {
    map["Content-Type" := "application/json"]
      + (if Present(token) then map["Authorization" := "Bearer " + ToJsString(token.value)] else map[])
      + caller
  }

  /** The request `apiFetch(path, opts)` sends first. */
  function RequestOf(path: string, opts: Options): Request {
    Request(path, opts.verb, BuildHeaders(opts.authToken, opts.headers), opts.body)
  }

  /** Paths whose 401 means wrong credentials rather than an expired token. */
  predicate IsAuthPath(path: string) {
    Contains(path, "/auth/login") || Contains(path, "/auth/refresh")
  }

  /** The refresh exchange's request: `POST /auth/refresh/` with `{"refresh_token": token}`. */
  function RefreshRequest(token: string): Request {
    Request(RefreshPath, "POST", map["Content-Type" := "application/json"],
            Some(Stringify(JObj([Member("refresh_token", JStr(token))]))))
  }

  /** How the refresh exchange ends. */
  datatype Exchange =
    | Skipped                                          // no stored refresh token, or a non-ok reply
    | Threw                                            // the fetch rejected, or reading its body threw
    | Renewed(newToken: Option<Json>, session: Session) // new tokens stored; the call is re-issued

  /** What `localStorage.setItem` stores for a value: its text, and "undefined" for `undefined`. */
  function StoredText(v: Option<Json>): string {
    match v
    case Some(j) => ToJsString(j)
    case None => "undefined"
  }

  /** The requests the exchange sends: one, exactly when a refresh token is stored. */
  function ExchangeRequests(s: Session): seq<Request> {
    if IsSet(s.refreshToken) then [RefreshRequest(s.refreshToken.value)] else []
  }

  /** The refresh exchange of lib/api.ts, run against the transport. */
  function RefreshExchange(s: Session, net: Transport): (x: Exchange)
    ensures !IsSet(s.refreshToken) ==> x == Skipped
    ensures IsSet(s.refreshToken) && net(RefreshRequest(s.refreshToken.value)).NetworkError? ==> x == Threw
    ensures IsSet(s.refreshToken) ==>
      var reply := net(RefreshRequest(s.refreshToken.value));
      reply.Response? && !IsOkStatus(reply.status) ==> x == Skipped
    ensures x.Renewed? ==>
      x.session.accessToken == Some(StoredText(x.newToken)) && x.session.refreshToken.Some? && x.session.location == s.location
  {
    if !IsSet(s.refreshToken) then Skipped
    else
      match net(RefreshRequest(s.refreshToken.value))
      case NetworkError(_) => Threw
      case Response(status, body) =>
        if !IsOkStatus(status) then Skipped
        else
          match body
          case Unparsable => Threw
          case Parsed(data) =>
            // reading `access_token` of a `null` body throws a TypeError
            if data == JNull then Threw
            else
              var token := Prop(data, "access_token");
              var rotated := Prop(data, "refresh_token");
              Renewed(token, s.(accessToken := Some(StoredText(token)),
                                refreshToken := if Present(rotated) then Some(ToJsString(rotated.value)) else s.refreshToken))
  }

  /** The `catch` branch: both tokens removed and the page sent to the login entry point. */
  function LoggedOut(s: Session): Session {
    Session(None, None, Some(LoginPage))
  }

  /** The body the gateway works with: `response.json()`, or `null` when that rejects. */
  function BodyValue(b: Body): Json {
    match b
    case Parsed(v) => v
    case Unparsable => JNull
  }

  /**
   * The message of the error thrown for a failed response with body `data`:
   * the first truthy of `detail`, `non_field_errors` and `error`, printed as
   * `String(...)` prints it, or else the whole body as `JSON.stringify` writes it.
   */
  function NormalizeMessage(data: Json, status: int): (m: string)
    ensures Present(Prop(data, "detail")) ==> m == ToJsString(Prop(data, "detail").value)
    ensures !Present(Prop(data, "detail")) && Present(Prop(data, "non_field_errors"))
      ==> m == ToJsString(Prop(data, "non_field_errors").value)
    ensures !Present(Prop(data, "detail")) && !Present(Prop(data, "non_field_errors")) && Present(Prop(data, "error"))
      ==> m == ToJsString(Prop(data, "error").value)
    ensures !Present(Prop(data, "detail")) && !Present(Prop(data, "non_field_errors")) && !Present(Prop(data, "error"))
      ==> m == Stringify(data)
  {
    var picked := if Truthy(data) then Or(Or(Prop(data, "detail"), Prop(data, "non_field_errors")), Prop(data, "error")) else None;
    var detail := if Present(picked) then picked.value else JStr(Stringify(data));
    if Truthy(detail) then ToJsString(detail) else StatusFallback + IntToString(status)
  }

  /** The status-code fallback is dead code: every parsed body yields a message of its own. */
  lemma StatusNeverInMessage(data: Json, status1: int, status2: int)
    ensures NormalizeMessage(data, status1) == NormalizeMessage(data, status2)
  {
  }

  /** A failed response whose body is not JSON fails with the message "null". */
  lemma NullBodyMessage(status: int)
    ensures NormalizeMessage(BodyValue(Unparsable), status) == "null"
  {
  }

  /** The last step of every call: the body on success, the normalised error otherwise. */
  function Finish(status: int, body: Body): (o: Outcome)
    ensures o.Ok? <==> IsOkStatus(status)
    ensures o.Ok? ==> o.value == BodyValue(body)
  {
    var data := BodyValue(body);
    if IsOkStatus(status) then Ok(data) else Err(NormalizeMessage(data, status))
  }

  /** The result of one call: how it settles, the session afterwards, and the requests sent in order. */
  datatype Run = Run(outcome: Outcome, session: Session, sent: seq<Request>)

  /** The re-issued call: same path and options, the new token, and `_retry` set. */
  function RetryOptions(opts: Options, token: Option<Json>): Options {
    opts.(authToken := token, retry := true)
  }

  /** `apiFetch(path, opts)` from `session`, against the transport `net`. */
  function Dispatch(s: Session, net: Transport, path: string, opts: Options): (r: Run)
    ensures |r.sent| >= 1 && r.sent[0] == RequestOf(path, opts)
    ensures opts.retry ==> |r.sent| == 1 && r.session == s
    decreases if opts.retry then 0 else 2
  {
    var req := RequestOf(path, opts);
    match net(req)
    case NetworkError(m) => Run(Err(m), s, [req])
    case Response(status, body) =>
      if status == 401 && !opts.retry then
        if IsAuthPath(path) then Run(Err(InvalidCredentials), s, [req])
        else
          var r := Recovery(s, net, path, opts, body);
          Run(r.outcome, r.session, [req] + r.sent)
      else Run(Finish(status, body), s, [req])
  }

  /**
   * The `try` block after a 401 on an ordinary path: the refresh exchange,
   * then the re-issued call, or the original 401 settled as an error.
   */
  function Recovery(s: Session, net: Transport, path: string, opts: Options, body: Body): (r: Run)
    requires !opts.retry
    ensures |ExchangeRequests(s)| <= |r.sent| <= |ExchangeRequests(s)| + 1
    ensures r.sent[..|ExchangeRequests(s)|] == ExchangeRequests(s)
    ensures RefreshExchange(s, net).Renewed? ==> r.session == RefreshExchange(s, net).session
    ensures RefreshExchange(s, net).Threw? ==> r.session == LoggedOut(s) && r.outcome == Finish(401, body)
    ensures RefreshExchange(s, net).Skipped? ==> r.session == s && r.outcome == Finish(401, body)
    decreases 1
  {
    match RefreshExchange(s, net)
    case Renewed(token, s1) =>
      var r := Dispatch(s1, net, path, RetryOptions(opts, token));
      Run(r.outcome, r.session, ExchangeRequests(s) + r.sent)
    case Threw => Run(Finish(401, body), LoggedOut(s), ExchangeRequests(s))
    case Skipped => Run(Finish(401, body), s, ExchangeRequests(s))
  }

  /** A call already marked `_retry` sends one request, never refreshes, and settles by the ordinary rules. */
  lemma RetriedCallNeverRefreshes(s: Session, net: Transport, path: string, opts: Options)
    requires opts.retry
    ensures var r := Dispatch(s, net, path, opts);
      && r.sent == [RequestOf(path, opts)]
      && r.session == s
      && (net(RequestOf(path, opts)).Response? ==>
            r.outcome == Finish(net(RequestOf(path, opts)).status, net(RequestOf(path, opts)).body))
  {
  }

  /**
   * Whatever the transport does, one call sends its own request first, at most
   * one refresh request second and at most one re-issue third.
   */
  lemma RetryDepthAtMostOne(s: Session, net: Transport, path: string, opts: Options)
    ensures var r := Dispatch(s, net, path, opts);
      && 1 <= |r.sent| <= 3
      && r.sent[0] == RequestOf(path, opts)
      && (|r.sent| >= 2 ==> !opts.retry && !IsAuthPath(path) && IsSet(s.refreshToken)
                            && r.sent[1] == RefreshRequest(s.refreshToken.value))
      && (|r.sent| == 3 ==> RefreshExchange(s, net).Renewed?
                            && r.sent[2] == RequestOf(path, RetryOptions(opts, RefreshExchange(s, net).newToken)))
  {
    var req := RequestOf(path, opts);
    if net(req).Response? && net(req).status == 401 && !opts.retry && !IsAuthPath(path) {
      match RefreshExchange(s, net)
      case Renewed(token, s1) =>
        RetriedCallNeverRefreshes(s1, net, path, RetryOptions(opts, token));
      case Threw =>
      case Skipped =>
    }
  }

  /** A 401 on the login or refresh endpoint fails with "Credenciais inválidas" and sends nothing more. */
  lemma AuthPathNeverRefreshes(s: Session, net: Transport, path: string, opts: Options)
    requires IsAuthPath(path) && !opts.retry
    requires net(RequestOf(path, opts)).Response? && net(RequestOf(path, opts)).status == 401
    ensures Dispatch(s, net, path, opts) == Run(Err(InvalidCredentials), s, [RequestOf(path, opts)])
  {
  }

  /**
   * A 401 elsewhere, with a stored refresh token and an ok, readable refresh
   * reply: the new access token is stored (the refresh token only when the
   * reply carries one), the call is re-issued once with the new token, and its
   * result is the caller's result.
   */
  lemma RefreshThenRetry(s: Session, net: Transport, path: string, opts: Options)
    requires !opts.retry && !IsAuthPath(path)
    requires net(RequestOf(path, opts)).Response? && net(RequestOf(path, opts)).status == 401
    requires IsSet(s.refreshToken)
    requires var rr := net(RefreshRequest(s.refreshToken.value));
      rr.Response? && IsOkStatus(rr.status) && rr.body.Parsed? && rr.body.value != JNull
    ensures var data := net(RefreshRequest(s.refreshToken.value)).body.value;
      var token := Prop(data, "access_token");
      var retry := RequestOf(path, RetryOptions(opts, token));
      var r := Dispatch(s, net, path, opts);
      && r.sent == [RequestOf(path, opts), RefreshRequest(s.refreshToken.value), retry]
      && r.session.accessToken == Some(StoredText(token))
      && r.session.refreshToken == (if Present(Prop(data, "refresh_token"))
                                    then Some(ToJsString(Prop(data, "refresh_token").value)) else s.refreshToken)
      && r.session.location == s.location
      && (Present(token) && "Authorization" !in opts.headers ==>
            retry.headers["Authorization"] == "Bearer " + ToJsString(token.value))
      && r.outcome == match net(retry)
                      case Response(status, body) => Finish(status, body)
                      case NetworkError(message) => Err(message)
  {
    var req := RequestOf(path, opts);
    var data := net(RefreshRequest(s.refreshToken.value)).body.value;
    var token := Prop(data, "access_token");
    var s1 := RefreshExchange(s, net).session;
    assert RefreshExchange(s, net) == Renewed(token, s1);
    RetriedCallNeverRefreshes(s1, net, path, RetryOptions(opts, token));
    var r1 := Dispatch(s1, net, path, RetryOptions(opts, token));
    var rec := Recovery(s, net, path, opts, net(req).body);
    assert rec == Run(r1.outcome, r1.session, [RefreshRequest(s.refreshToken.value)] + r1.sent);
    assert Dispatch(s, net, path, opts) == Run(rec.outcome, rec.session, [req] + rec.sent);
  }

  /**
   * A 401 elsewhere with no stored refresh token, or whose refresh reply is
   * not ok: the session is left exactly as it was, nothing is re-issued, and
   * the original 401 fails through the ordinary error path.
   */
  lemma RefreshDeclinedKeepsSession(s: Session, net: Transport, path: string, opts: Options)
    requires !opts.retry && !IsAuthPath(path)
    requires net(RequestOf(path, opts)).Response? && net(RequestOf(path, opts)).status == 401
    requires !IsSet(s.refreshToken)
      || (net(RefreshRequest(s.refreshToken.value)).Response?
          && !IsOkStatus(net(RefreshRequest(s.refreshToken.value)).status))
    ensures var r := Dispatch(s, net, path, opts);
      && r.session == s
      && r.sent == [RequestOf(path, opts)] + ExchangeRequests(s)
      && r.outcome == Err(NormalizeMessage(BodyValue(net(RequestOf(path, opts)).body), 401))
  {
  }

  /**
   * A 401 elsewhere whose refresh exchange throws: both tokens are removed,
   * the location becomes the login page, and the original 401 still fails
   * through the ordinary error path.
   */
  lemma RefreshThrowsLogsOut(s: Session, net: Transport, path: string, opts: Options)
    requires !opts.retry && !IsAuthPath(path)
    requires net(RequestOf(path, opts)).Response? && net(RequestOf(path, opts)).status == 401
    requires IsSet(s.refreshToken)
    requires var rr := net(RefreshRequest(s.refreshToken.value));
      rr.NetworkError? || (IsOkStatus(rr.status) && (rr.body.Unparsable? || rr.body.value == JNull))
    ensures var r := Dispatch(s, net, path, opts);
      && r.session == Session(None, None, Some(LoginPage))
      && r.sent == [RequestOf(path, opts), RefreshRequest(s.refreshToken.value)]
      && r.outcome == Err(NormalizeMessage(BodyValue(net(RequestOf(path, opts)).body), 401))
  {
  }

  /**
   * The session changes in only three ways: not at all, logged out (and only
   * then does the location change), or renewed by the exchange.
   */
  lemma SessionTransitions(s: Session, net: Transport, path: string, opts: Options)
    ensures var r := Dispatch(s, net, path, opts);
      || r.session == s
      || r.session == LoggedOut(s)
      || (RefreshExchange(s, net).Renewed? && r.session == RefreshExchange(s, net).session)
    ensures var r := Dispatch(s, net, path, opts);
      r.session.location != s.location ==> r.session == LoggedOut(s)
  {
    var req := RequestOf(path, opts);
    if net(req).Response? && net(req).status == 401 && !opts.retry && !IsAuthPath(path) {
      match RefreshExchange(s, net)
      case Renewed(token, s1) =>
        RetriedCallNeverRefreshes(s1, net, path, RetryOptions(opts, token));
      case Threw =>
      case Skipped =>
    }
  }

  /** A call that is not a 401 settles from its own reply alone, touching nothing. */
  lemma OrdinaryCall(s: Session, net: Transport, path: string, opts: Options)
    requires net(RequestOf(path, opts)).Response? && net(RequestOf(path, opts)).status != 401
    ensures var reply := net(RequestOf(path, opts));
      Dispatch(s, net, path, opts) == Run(Finish(reply.status, reply.body), s, [RequestOf(path, opts)])
  {
  }

  /** A successful response whose body is empty or not JSON resolves to `null` instead of throwing. */
  lemma EmptySuccessIsNull(s: Session, net: Transport, path: string, opts: Options)
    requires net(RequestOf(path, opts)) == Response(204, Unparsable)
    ensures Dispatch(s, net, path, opts).outcome == Ok(JNull)
  {
  }

  /**
   * The gateway over the browser's state: the two storage entries, the page
   * location, and (for reasoning only) the requests sent so far.
   */
  class Gateway {
    var accessToken: Option<string>
    var refreshToken: Option<string>
    var location: Option<string>
    ghost var sent: seq<Request>

    function State(): Session
      reads this
    {
      Session(accessToken, refreshToken, location)
    }

    constructor (access: Option<string>, refresh: Option<string>)
      ensures State() == Session(access, refresh, None) && sent == []
    {
      accessToken := access;
      refreshToken := refresh;
      location := None;
      sent := [];
    }

    /** The `catch` block: remove both tokens, then go to the login page. */
    method LogOut()
      modifies this
      ensures State() == LoggedOut(old(State())) && sent == old(sent)
    {
      accessToken := None;
      refreshToken := None;
      location := Some(LoginPage);
    }

    /** The `try` block's refresh exchange, run against the stored refresh token. */
    method Refresh(net: Transport) returns (x: Exchange)
      modifies this
      ensures x == RefreshExchange(old(State()), net)
      ensures x.Skipped? ==> State() == old(State())
      ensures x.Threw? ==> State() == LoggedOut(old(State()))
      ensures x.Renewed? ==> State() == x.session
      ensures sent == old(sent) + ExchangeRequests(old(State()))
    {
      var current := refreshToken;
      if current.None? || current.value == "" {
        return Skipped;
      }
      var request := RefreshRequest(current.value);
      var reply := net(request);
      sent := sent + [request];
      if reply.NetworkError? {
        LogOut();
        return Threw;
      }
      if !IsOkStatus(reply.status) {
        return Skipped;
      }
      if reply.body.Unparsable? || reply.body.value == JNull {
        LogOut();
        return Threw;
      }
      var data := reply.body.value;
      var newToken := Prop(data, "access_token");
      accessToken := Some(StoredText(newToken));
      var rotated := Prop(data, "refresh_token");
      if Present(rotated) {
        refreshToken := Some(ToJsString(rotated.value));
      }
      x := Renewed(newToken, State());
    }

    /** `apiFetch(path, opts)`, step by step as lib/api.ts runs it. */
    method ApiFetch(net: Transport, path: string, opts: Options) returns (outcome: Outcome)
      modifies this
      decreases if opts.retry then 0 else 2
      ensures var r := Dispatch(old(State()), net, path, opts);
        outcome == r.outcome && State() == r.session && sent == old(sent) + r.sent
    {
      var request := RequestOf(path, opts);
      var reply := net(request);
      sent := sent + [request];
      if reply.NetworkError? {
        return Err(reply.message);
      }
      if reply.status == 401 && !opts.retry {
        if IsAuthPath(path) {
          return Err(InvalidCredentials);
        }
        outcome := Recover(net, path, opts, reply.body);
        assert old(sent) + [request] + (sent[|old(sent)| + 1..]) == sent;
        return;
      }
      outcome := Finish(reply.status, reply.body);
    }

    /** The `try` block: refresh, then re-issue the call once, or give up with the original 401. */
    method Recover(net: Transport, path: string, opts: Options, body: Body) returns (outcome: Outcome)
      requires !opts.retry
      modifies this
      decreases 1
      ensures var r := Recovery(old(State()), net, path, opts, body);
        outcome == r.outcome && State() == r.session && sent == old(sent) + r.sent
    {
      ghost var s := State();
      var x := Refresh(net);
      if x.Renewed? {
        ghost var before := sent;
        outcome := ApiFetch(net, path, RetryOptions(opts, x.newToken));
        ghost var r1 := Dispatch(x.session, net, path, RetryOptions(opts, x.newToken));
        assert before + r1.sent == old(sent) + (ExchangeRequests(s) + r1.sent);
      } else {
        outcome := Finish(401, body);
      }
    }
  }

  /** A call through one of the wrappers: the path and options it hands to `apiFetch`. */
  datatype Call = Call(path: string, opts: Options)

  /** An authenticated call with no body. */
  function Authed(path: string, verb: string, token: string): Call {
    Call(path, Options(verb, None, map[], Some(JStr(token)), false))
  }

  /** `login(email, senha)`. */
  function Login(email: string, senha: string): (c: Call)
    ensures IsAuthPath(c.path) && c.opts.authToken == None && !c.opts.retry
  {
    assert IsPrefix("/auth/login", "/auth/login/");
    Call("/auth/login/", Options("POST",
      Some(Stringify(JObj([Member("email", JStr(email)), Member("senha", JStr(senha))]))), map[], None, false))
  }

  /** `refreshAccessToken(refreshToken)`. */
  function RefreshAccessToken(token: string): (c: Call)
    ensures IsAuthPath(c.path) && c.opts.authToken == None && !c.opts.retry
  {
    assert IsPrefix("/auth/refresh", "/auth/refresh/");
    Call(RefreshPath, Options("POST",
      Some(Stringify(JObj([Member("refresh_token", JStr(token))]))), map[], None, false))
  }

  /** A 401 on a login attempt is reported as wrong credentials and never triggers a refresh. */
  lemma LoginNeverRefreshes(s: Session, net: Transport, email: string, senha: string)
    requires var c := Login(email, senha); net(RequestOf(c.path, c.opts)).Response?
    requires var c := Login(email, senha); net(RequestOf(c.path, c.opts)).status == 401
    ensures var c := Login(email, senha);
      Dispatch(s, net, c.path, c.opts) == Run(Err(InvalidCredentials), s, [RequestOf(c.path, c.opts)])
  {
  }

  const MetasPath := "/api/metas-habito/"
  const SessoesPath := "/api/sessoes-atividade/"

  /** `getMetas(token, ativo)`: the flag travels as the query text `ativo=true` or `ativo=false`. */
  function GetMetas(token: string, ativo: bool): (c: Call)
    ensures IsPrefix(MetasPath + "?ativo=", c.path)
    ensures ativo <==> c.path[|MetasPath + "?ativo="|..] == "true"
    ensures !ativo <==> c.path[|MetasPath + "?ativo="|..] == "false"
    ensures c.opts == Options("GET", None, map[], Some(JStr(token)), false)
  {
    var flag := if ativo then "true" else "false";
    var path := MetasPath + "?ativo=" + flag;
    assert path[|MetasPath + "?ativo="|..] == flag;
    Authed(path, "GET", token)
  }

  /** `getSessoesAtividade(token, query)`: `?` and the query are appended only for a non-empty query. */
  function GetSessoesAtividade(token: string, query: string): (c: Call)
    ensures query == "" ==> c.path == SessoesPath
    ensures query != "" ==> IsPrefix(SessoesPath + "?", c.path) && c.path[|SessoesPath| + 1..] == query
    ensures c.opts == Options("GET", None, map[], Some(JStr(token)), false)
  {
    var suffix := if query != "" then "?" + query else "";
    Authed(SessoesPath + suffix, "GET", token)
  }

  /** `updateMetaHabito(token, id, data)`: a PATCH of the serialised fields to the goal's own path. */
  function UpdateMetaHabito(token: string, id: nat, data: seq<Member>): (c: Call)
    ensures IsPrefix(MetasPath, c.path) && ReadNumber(c.path[|MetasPath|..]) == (id, "/")
    ensures c.opts.verb == "PATCH" && c.opts.body == Some(Stringify(JObj(data)))
    ensures c.opts.authToken == Some(JStr(token)) && c.opts.headers == map[] && !c.opts.retry
  {
    ReadPrinted(id, "/");
    assert (MetasPath + NatToString(id) + "/")[|MetasPath|..] == NatToString(id) + "/";
    Call(MetasPath + NatToString(id) + "/", Options("PATCH", Some(Stringify(JObj(data))), map[], Some(JStr(token)), false))
  }

  /** `reativarMetaHabito(token, id)`: the update of the goal's `ativo` field to `true`. */
  function ReativarMetaHabito(token: string, id: nat): (c: Call)
    ensures c == UpdateMetaHabito(token, id, [Member("ativo", JBool(true))])
    ensures c.opts.verb == "PATCH" && c.opts.authToken == Some(JStr(token))
  {
    UpdateMetaHabito(token, id, [Member("ativo", JBool(true))])
  }

  /** The reactivation sends exactly the body `{"ativo":true}`. */
  lemma ReativarBody(token: string, id: nat)
    ensures ReativarMetaHabito(token, id).opts.body == Some("{\"ativo\":true}")
  {
    AtivoText();
  }

  /** The one-member object `{ativo: true}` is written as `{"ativo":true}`. */
  lemma AtivoText()
    ensures Stringify(JObj([Member("ativo", JBool(true))])) == "{\"ativo\":true}"
  {
    EscapePlain("ativo");
    StringifySingleMember("ativo", JBool(true));
    assert Quote("ativo") == "\"ativo\"";
    assert Stringify(JBool(true)) == "true";
    var open := "{" + "\"ativo\"";
    assert open == "{\"ativo\"";
    var keyed := open + ":";
    assert keyed == "{\"ativo\":";
    var valued := keyed + "true";
    assert valued == "{\"ativo\":true";
    assert valued + "}" == "{\"ativo\":true}";
  }

  /** Distinct goals are reactivated at distinct paths. */
  lemma ReativarTargetsOwnGoal(token: string, id1: nat, id2: nat)
    requires ReativarMetaHabito(token, id1).path == ReativarMetaHabito(token, id2).path
    ensures id1 == id2
  {
    var a, b := NatToString(id1), NatToString(id2);
    var p1, p2 := MetasPath + a + "/", MetasPath + b + "/";
    assert p1[|MetasPath|..|p1| - 1] == a;
    assert p2[|MetasPath|..|p2| - 1] == b;
    NatToStringInjective(id1, id2);
  }
}
