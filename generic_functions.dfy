/** The authenticated request layer: the module-level token cache, the
    dispatcher with its single retry after a 401, and the cursor-following
    aggregator.

    The host's request helper is an oracle: a script of replies consumed one
    per request, and a log of every request issued. `Date.now()` is a clock
    `nat -> int` read with the number of requests issued so far. The pure
    functions below give the meaning of each operation over a `State`; the
    `Session` class at the end performs the same steps in place and is proved
    equal to them. */
module GenericFunctions {
  import opened JsValues

  datatype HttpMethod = GET | POST | PUT | PATCH | DELETE | HEAD

  /** What the credential store hands out; any environment other than
      "production" selects the demo deployment. */
  datatype Credentials = Credentials(environment: string, email: string, password: string)

  /** A cached token is trusted for 55 minutes after the clock reading taken
      before its login. */
  const TokenLifetime: int := 55 * 60 * 1000

  // ---------------------------------------------------------------------
  // Base URLs
  // ---------------------------------------------------------------------

  /** The production base URL as the source writes it, with a trailing slash. */
  const ProductionBaseAsWritten := "https://api.elections.kalshi.com/"
  const ProductionBase := "https://api.elections.kalshi.com"
  const DemoBase := "https://demo-api.kalshi.co"

  const LoginPath := "/trade-api/v2/login"

  function BaseUrlAsWritten(environment: string): string {
    if environment == "production" then ProductionBaseAsWritten else DemoBase
  }

  /** The URI the source builds: base URL and endpoint pasted together. */
  function UriAsWritten(environment: string, endpoint: string): string {
    BaseUrlAsWritten(environment) + endpoint
  }

  /** Every endpoint starts with '/', so in production the path of the URI
      as written begins with "//"; the demo URI has a single slash. */
  lemma ProductionUriHasDoubleSlash(endpoint: string)
    requires |endpoint| > 0 && endpoint[0] == '/'
    ensures var u := UriAsWritten("production", endpoint);
      u[|ProductionBase|] == '/' && u[|ProductionBase| + 1] == '/'
  {
    var u := UriAsWritten("production", endpoint);
    assert u == ProductionBaseAsWritten + endpoint;
    assert u[|ProductionBase|] == ProductionBaseAsWritten[|ProductionBase|];
    assert u[|ProductionBase| + 1] == endpoint[0];
  }

  /** The login URIs as written: doubled slash in production, single in demo. */
  lemma LoginUrisAsWritten()
    ensures UriAsWritten("production", LoginPath) == "https://api.elections.kalshi.com//trade-api/v2/login"
    ensures UriAsWritten("demo", LoginPath) == "https://demo-api.kalshi.co/trade-api/v2/login"
  {
  }

  function BaseUrl(environment: string): string {
    if environment == "production" then ProductionBase else DemoBase
  }

  /** The URI of a call: the base URL of the environment followed by the
      endpoint, unchanged. */
  function Uri(environment: string, endpoint: string): string {
    BaseUrl(environment) + endpoint
  }

  /** The production host is chosen exactly for "production"; the URI splits
      back into that base and the endpoint, and the base never ends in '/',
      so an endpoint starting with one '/' is joined with exactly one. */
  lemma UriJoinsBaseAndEndpoint(environment: string, endpoint: string)
    ensures BaseUrl(environment) == ProductionBase <==> environment == "production"
    ensures BaseUrl(environment) == DemoBase <==> environment != "production"
    ensures var b := BaseUrl(environment); var u := Uri(environment, endpoint);
      |u| == |b| + |endpoint| && u[..|b|] == b && u[|b|..] == endpoint && b[|b| - 1] != '/'
  {
    assert ProductionBase[8] != DemoBase[8];
  }

  /** The URI as written differs from the corrected one only in production,
      where it is the corrected URI of the endpoint with one more '/' in
      front. */
  lemma AsWrittenAddsOneSlash(environment: string, endpoint: string)
    ensures UriAsWritten(environment, endpoint)
         == if environment == "production" then Uri(environment, "/" + endpoint) else Uri(environment, endpoint)
  {
    assert ProductionBaseAsWritten == ProductionBase + "/";
  }

  // ---------------------------------------------------------------------
  // Requests, replies and the state they act on
  // ---------------------------------------------------------------------

  /** The arguments of one dispatcher call. */
  datatype Call = Call(httpMethod: HttpMethod, endpoint: string, body: Dict, qs: Dict)

  /** One request handed to the host's request helper (always `json: true`).
      `body` is None when it was deleted from the options; `bearer` holds the
      token `t` of the header `Authorization: Bearer ${t}` (sent together with
      `Content-Type: application/json`), and is None for the login request,
      which carries no headers. */
  datatype Request = Request(httpMethod: HttpMethod, uri: string, qs: Dict, body: Option<Dict>, bearer: Option<JsValue>)

  /** The login exchange: POST of the email and password to the login path. */
  function LoginRequest(cred: Credentials): (r: Request)
    ensures r.httpMethod == POST && r.uri == Uri(cred.environment, LoginPath) && r.qs == map[] && r.bearer.None?
    ensures r.body.Some? && r.body.value.Keys == {"email", "password"}
    ensures r.body.value["email"] == Str(cred.email) && r.body.value["password"] == Str(cred.password)
  {
    Request(POST, Uri(cred.environment, LoginPath), map[],
            Some(map["email" := Str(cred.email), "password" := Str(cred.password)]), None)
  }

  /** The options of an authenticated call. */
  function Options(cred: Credentials, call: Call, token: JsValue): (o: Request)
    ensures o.httpMethod == call.httpMethod && o.uri == Uri(cred.environment, call.endpoint) && o.qs == call.qs
    ensures o.bearer == Some(token)
    ensures o.body.None? <==> OmitsBody(call.httpMethod, call.body)
    ensures o.body.Some? ==> o.body.value == call.body
  {
    Request(call.httpMethod, Uri(cred.environment, call.endpoint), call.qs,
            if OmitsBody(call.httpMethod, call.body) then None else Some(call.body), Some(token))
  }

  /** The body is deleted from the options of a GET or DELETE with no keys. */
  predicate OmitsBody(httpMethod: HttpMethod, body: Dict) {
    (httpMethod == GET || httpMethod == DELETE) && |body| == 0
  }

  /** The body is dropped exactly for a GET or DELETE whose body is `{}`; a
      POST keeps even `{}`, and a kept body is sent unchanged. */
  lemma BodyOmission(cred: Credentials, call: Call, token: JsValue)
    ensures var o := Options(cred, call, token);
      && (o.body.None? <==> (call.httpMethod == GET || call.httpMethod == DELETE) && call.body == map[])
      && (o.body.Some? ==> o.body.value == call.body)
      && (call.httpMethod == POST ==> o.body == Some(call.body))
  {
    if call.body != map[] {
      assert call.body.Keys != {};
    }
  }

  /** What the request helper throws: its status code when there is a
      response, its message, and what `String(error)` gives. */
  datatype HttpFailure = HttpFailure(statusCode: Option<int>, message: string, text: string)

  datatype Reply = Answer(data: JsValue) | Fault(failure: HttpFailure)

  /** The failure a request meets once the script has no reply left. */
  const Unanswered := HttpFailure(None, "socket hang up", "Error: socket hang up")

  /** The message a NodeApiError is given: `error.message || String(error)`. */
  function Describe(f: HttpFailure): string {
    if f.message != "" then f.message else f.text
  }

  /** The module-level cache (`cachedToken`, `tokenExpiry`), the replies the
      transport has yet to give and the requests issued so far. */
  datatype State = State(cachedToken: JsValue, tokenExpiry: int, script: seq<Reply>, sent: seq<Request>)

  /** A result and the state after computing it. */
  datatype Step<+T> = Step(result: T, after: State)

  function NextReply(st: State): Reply {
    if st.script == [] then Fault(Unanswered) else st.script[0]
  }

  /** One call of the request helper. */
  function Transmit(st: State, req: Request): (s: Step<Reply>)
    ensures s.result == NextReply(st)
    ensures s.after.sent == st.sent + [req]
    ensures s.after.cachedToken == st.cachedToken && s.after.tokenExpiry == st.tokenExpiry
    ensures s.after.script == if st.script == [] then [] else st.script[1..]
  {
    Step(NextReply(st), st.(script := if st.script == [] then [] else st.script[1..], sent := st.sent + [req]))
  }

  // ---------------------------------------------------------------------
  // getAccessToken
  // ---------------------------------------------------------------------

  /** The cached token may be served: it is truthy and has not expired. */
  predicate Usable(st: State, now: int) {
    Truthy(st.cachedToken) && now < st.tokenExpiry
  }

  /** getAccessToken at clock reading `now`. */
  function AccessToken(st: State, cred: Credentials, now: int): (s: Step<Result<JsValue>>)
    ensures Usable(st, now) ==> s == Step(Ok(st.cachedToken), st)
    ensures !Usable(st, now) ==> s.after.sent == st.sent + [LoginRequest(cred)]
    ensures !Usable(st, now) ==> s.after.script == Transmit(st, LoginRequest(cred)).after.script
    ensures !Usable(st, now) && s.result.Ok? ==>
      && NextReply(st).Answer?
      && Property(NextReply(st).data, "token") == Ok(s.result.value)
      && s.after.cachedToken == s.result.value
      && s.after.tokenExpiry == now + TokenLifetime
    ensures s.result.Err? ==>
      && s.result.error.ApiError?
      && s.after.cachedToken == st.cachedToken && s.after.tokenExpiry == st.tokenExpiry
  {
    if Usable(st, now) then Step(Ok(st.cachedToken), st)
    else
      var login := Transmit(st, LoginRequest(cred));
      match login.result
      case Fault(f) => Step(Err(ApiError(Describe(f))), login.after)
      case Answer(response) =>
        match Property(response, "token")
        case Err(e) => Step(Err(ApiError(e.message)), login.after)
        case Ok(token) => Step(Ok(token), login.after.(cachedToken := token, tokenExpiry := now + TokenLifetime))
  }

  /** A login that returned a truthy token at clock reading `now` serves that
      token, without any request, to every later call whose clock reading is
      below `now + TokenLifetime`. */
  lemma TokenReusedWithinLifetime(st: State, cred: Credentials, now: int, later: int)
    requires !Usable(st, now)
    requires AccessToken(st, cred, now).result.Ok? && Truthy(AccessToken(st, cred, now).result.value)
    requires later < now + TokenLifetime
    ensures var first := AccessToken(st, cred, now);
      AccessToken(first.after, cred, later) == Step(Ok(first.result.value), first.after)
  {
  }

  /** Once the clock reaches the expiry (or the cached token is falsy), the
      next call logs in again. */
  lemma ExpiredTokenForcesLogin(st: State, cred: Credentials, now: int)
    requires now >= st.tokenExpiry || !Truthy(st.cachedToken)
    ensures AccessToken(st, cred, now).after.sent == st.sent + [LoginRequest(cred)]
  {
  }

  // ---------------------------------------------------------------------
  // kalshiApiRequest
  // ---------------------------------------------------------------------

  /** The same options under another token. */
  function Rebearer(options: Request, token: JsValue): Request {
    options.(bearer := Some(token))
  }

  /** kalshiApiRequest: obtain a token and make the call. */
  function Dispatch(st: State, cred: Credentials, clock: nat -> int, call: Call): (s: Step<Result<JsValue>>)
    ensures |s.after.sent| >= |st.sent| && s.after.sent[..|st.sent|] == st.sent
    ensures |s.after.script| <= |st.script|
    ensures s.result.Ok? ==> |s.after.script| < |st.script|
  {
    var first := AccessToken(st, cred, clock(|st.sent|));
    if first.result.Err? then Step(Err(first.result.error), first.after)
    else Attempt(first.after, cred, clock, Options(cred, call, first.result.value))
  }

  /** Send the options once; a 401 leads to reauthorization, any other
      failure surfaces wrapped. */
  function Attempt(st: State, cred: Credentials, clock: nat -> int, options: Request): (s: Step<Result<JsValue>>)
    ensures s.after.sent == st.sent + [options]
         || s.after.sent == st.sent + [options, LoginRequest(cred)]
         || s.after.sent == st.sent + [options, LoginRequest(cred), Rebearer(options, s.after.cachedToken)]
    ensures |s.after.script| <= |st.script|
    ensures s.result.Ok? ==> |s.after.script| < |st.script|
  {
    var attempt := Transmit(st, options);
    match attempt.result
    case Answer(data) => Step(Ok(data), attempt.after)
    case Fault(f) =>
      if f.statusCode == Some(401) then Reauthorize(attempt.after, cred, clock, options)
      else Step(Err(ApiError(Describe(f))), attempt.after)
  }

  /** After a 401: clear the cache, log in afresh and resend the same options
      once under the new token; whatever the resend meets is final. */
  function Reauthorize(st: State, cred: Credentials, clock: nat -> int, options: Request): (s: Step<Result<JsValue>>)
    ensures s.after.sent == st.sent + [LoginRequest(cred)]
         || s.after.sent == st.sent + [LoginRequest(cred), Rebearer(options, s.after.cachedToken)]
    ensures |s.after.script| <= |st.script|
    ensures s.result.Ok? ==> |s.after.script| < |st.script|
  {
    var cleared := st.(cachedToken := Null, tokenExpiry := 0);
    var renewed := AccessToken(cleared, cred, clock(|cleared.sent|));
    if renewed.result.Err? then Step(Err(renewed.result.error), renewed.after)
    else
      var retry := Transmit(renewed.after, Rebearer(options, renewed.result.value));
      match retry.result
      case Answer(data) => Step(Ok(data), retry.after)
      case Fault(g) => Step(Err(ApiError(Describe(g))), retry.after)
  }

  /** The requests of a log that carry a bearer token, i.e. that are not logins. */
  function ApiCalls(log: seq<Request>): (n: nat)
    ensures n <= |log|
  {
    if log == [] then 0 else (if log[0].bearer.Some? then 1 else 0) + ApiCalls(log[1..])
  }

  lemma {:induction false} ApiCallsAppend(a: seq<Request>, b: seq<Request>)
    ensures ApiCalls(a + b) == ApiCalls(a) + ApiCalls(b)
  {
    if a == [] {
      assert a + b == b;
    } else {
      assert (a + b)[1..] == a[1..] + b;
      ApiCallsAppend(a[1..], b);
    }
  }

  /** The requests a dispatch issued, after those already in `st`. */
  function Issued(st: State, s: Step<Result<JsValue>>): seq<Request>
    requires |s.after.sent| >= |st.sent|
  {
    s.after.sent[|st.sent|..]
  }

  /** The requests an attempt issues: the options, then possibly a login and
      the options again under another token. */
  lemma AttemptIssues(st: State, cred: Credentials, clock: nat -> int, options: Request)
    requires options.bearer.Some?
    ensures var a := Attempt(st, cred, clock, options);
      var tail := a.after.sent[|st.sent|..];
      && |a.after.sent| >= |st.sent| && a.after.sent == st.sent + tail
      && 1 <= |tail| <= 3 && ApiCalls(tail) <= 2
      && forall r :: r in tail ==> r == LoginRequest(cred) || (r.bearer.Some? && r == Rebearer(options, r.bearer.value))
  {
    var a := Attempt(st, cred, clock, options);
    var login := LoginRequest(cred);
    var again := Rebearer(options, a.after.cachedToken);
    var tail := a.after.sent[|st.sent|..];
    assert tail == [options] || tail == [options, login] || tail == [options, login, again];
    assert [options][1..] == [] && [options, login][1..] == [login] && [login][1..] == [];
    assert [options, login, again][1..] == [login, again] && [login, again][1..] == [again] && [again][1..] == [];
  }

  /** Whatever the replies, a dispatch issues at most four requests, of which
      at most two are the call itself; every request it issues is either the
      login or the call's own options under some bearer token. */
  lemma DispatchIssuesAtMostTwoCalls(st: State, cred: Credentials, clock: nat -> int, call: Call)
    ensures var s := Dispatch(st, cred, clock, call); var log := Issued(st, s);
      && |log| <= 4
      && ApiCalls(log) <= 2
      && forall r :: r in log ==> r == LoginRequest(cred) || (r.bearer.Some? && r == Options(cred, call, r.bearer.value))
  {
    var first := AccessToken(st, cred, clock(|st.sent|));
    var pre := first.after.sent[|st.sent|..];
    assert first.after.sent == st.sent + pre;
    LoginLog(pre, cred);
    if first.result.Ok? {
      var o := Options(cred, call, first.result.value);
      AttemptIssues(first.after, cred, clock, o);
      var a := Attempt(first.after, cred, clock, o);
      var tail := a.after.sent[|first.after.sent|..];
      DispatchIsAttempt(st, cred, clock, call);
      SliceAfterJoin(st.sent, pre, tail, a.after.sent);
      JoinedLog(pre, tail, cred, call, o);
    }
  }

  lemma DispatchIsAttempt(st: State, cred: Credentials, clock: nat -> int, call: Call)
    requires AccessToken(st, cred, clock(|st.sent|)).result.Ok?
    ensures var first := AccessToken(st, cred, clock(|st.sent|));
      Dispatch(st, cred, clock, call) == Attempt(first.after, cred, clock, Options(cred, call, first.result.value))
  {
  }

  lemma SliceAfterJoin(base: seq<Request>, pre: seq<Request>, tail: seq<Request>, full: seq<Request>)
    requires |full| >= |base + pre| && full == (base + pre) + tail
    ensures full[|base|..] == pre + tail
  {
  }

  /** What the token step adds to the log: nothing or one login. */
  lemma LoginLog(pre: seq<Request>, cred: Credentials)
    requires pre == [] || pre == [LoginRequest(cred)]
    ensures ApiCalls(pre) == 0 && |pre| <= 1
    ensures forall r :: r in pre ==> r == LoginRequest(cred)
  {
    if pre != [] {
      assert pre[1..] == [];
    }
  }

  lemma JoinedLog(pre: seq<Request>, tail: seq<Request>, cred: Credentials, call: Call, o: Request)
    requires o.bearer.Some? && o == Options(cred, call, o.bearer.value)
    requires |pre| <= 1 && ApiCalls(pre) == 0 && forall r :: r in pre ==> r == LoginRequest(cred)
    requires |tail| <= 3 && ApiCalls(tail) <= 2
    requires forall r :: r in tail ==> r == LoginRequest(cred) || (r.bearer.Some? && r == Rebearer(o, r.bearer.value))
    ensures |pre + tail| <= 4 && ApiCalls(pre + tail) <= 2
    ensures forall r :: r in pre + tail ==> r == LoginRequest(cred) || (r.bearer.Some? && r == Options(cred, call, r.bearer.value))
  {
    ApiCallsAppend(pre, tail);
    forall r | r in pre + tail
      ensures r == LoginRequest(cred) || (r.bearer.Some? && r == Options(cred, call, r.bearer.value))
    {
      if r in tail && r != LoginRequest(cred) {
        assert Rebearer(o, r.bearer.value) == Options(cred, call, r.bearer.value);
      }
    }
  }

  /** A failed login makes no call at all; the error surfaces and the cache
      is left as it was. */
  lemma LoginFailureStopsDispatch(st: State, cred: Credentials, clock: nat -> int, call: Call)
    requires AccessToken(st, cred, clock(|st.sent|)).result.Err?
    ensures var s := Dispatch(st, cred, clock, call);
      && s == AccessToken(st, cred, clock(|st.sent|))
      && Issued(st, s) == [LoginRequest(cred)]
      && s.after.cachedToken == st.cachedToken && s.after.tokenExpiry == st.tokenExpiry
  {
  }

  /** When the first attempt is not rejected with a 401, exactly one call is
      made, the cache is whatever the token step left, and the outcome is the
      reply's data or that failure, wrapped. */
  lemma NoRetryWithoutUnauthorized(st: State, cred: Credentials, clock: nat -> int, call: Call)
    requires var first := AccessToken(st, cred, clock(|st.sent|));
      first.result.Ok? && !(NextReply(first.after).Fault? && NextReply(first.after).failure.statusCode == Some(401))
    ensures var first := AccessToken(st, cred, clock(|st.sent|));
      var s := Dispatch(st, cred, clock, call);
      var reply := NextReply(first.after);
      && s.after.sent == first.after.sent + [Options(cred, call, first.result.value)]
      && s.after.cachedToken == first.after.cachedToken && s.after.tokenExpiry == first.after.tokenExpiry
      && (reply.Answer? ==> s.result == Ok(reply.data))
      && (reply.Fault? ==> s.result == Err(ApiError(Describe(reply.failure))))
  {
  }

  /** After a 401 on the first attempt the cache is cleared and one fresh
      login follows. If it fails, its error surfaces with the cache empty.
      Otherwise the same options are resent once under the new token, which
      the cache now holds for its lifetime; the retry's reply is the outcome
      and a failure of the retry, even another 401, surfaces with no third
      attempt. */
  lemma UnauthorizedRetriedOnce(st: State, cred: Credentials, clock: nat -> int, call: Call)
    requires var first := AccessToken(st, cred, clock(|st.sent|));
      first.result.Ok? && NextReply(first.after).Fault? && NextReply(first.after).failure.statusCode == Some(401)
    ensures var first := AccessToken(st, cred, clock(|st.sent|));
      var options := Options(cred, call, first.result.value);
      var m := |first.after.sent|;
      var cleared := Transmit(first.after, options).after.(cachedToken := Null, tokenExpiry := 0);
      var renewed := AccessToken(cleared, cred, clock(m + 1));
      var s := Dispatch(st, cred, clock, call);
      && (renewed.result.Err? ==>
            && s.result == renewed.result
            && s.after.sent == first.after.sent + [options, LoginRequest(cred)]
            && s.after.cachedToken == Null && s.after.tokenExpiry == 0)
      && (renewed.result.Ok? ==>
            && s.after.sent == first.after.sent + [options, LoginRequest(cred), Rebearer(options, renewed.result.value)]
            && s.after.cachedToken == renewed.result.value
            && s.after.tokenExpiry == clock(m + 1) + TokenLifetime
            && var reply := NextReply(renewed.after);
               && (reply.Answer? ==> s.result == Ok(reply.data))
               && (reply.Fault? ==> s.result == Err(ApiError(Describe(reply.failure)))))
  {
  }

  // ---------------------------------------------------------------------
  // kalshiApiRequestAllItems
  // ---------------------------------------------------------------------

  /** The fields a page may carry its list in, in the order they are tried. */
  const ListFields := ["markets", "events", "orders", "positions", "fills"]

  lemma PrependPrepend(a: seq<JsValue>, b: seq<JsValue>, r: Result<seq<JsValue>>)
    ensures Prepend(a, Prepend(b, r)) == Prepend(a + b, r)
  {
    if r.Ok? {
      assert a + (b + r.value) == (a + b) + r.value;
    }
  }

  /** The property read `page[name]` where it does not throw: on a page that
      is neither null nor undefined it is exactly Property's value. */
  function Field(page: JsValue, name: string): (v: JsValue)
    ensures !page.Null? && !page.Undefined? ==> Property(page, name) == Ok(v)
  {
    if page.Obj? && name in page.props then page.props[name] else Undefined
  }

  /** The index of the first of `names` whose field in `page` is truthy. */
  function FirstTruthy(page: JsValue, names: seq<string>): (r: Option<nat>)
    ensures r.Some? ==> r.value < |names| && Truthy(Field(page, names[r.value]))
    ensures forall j :: 0 <= j < |names| && (r.None? || j < r.value) ==> !Truthy(Field(page, names[j]))
    decreases |names|
  {
    if names == [] then None
    else if Truthy(Field(page, names[0])) then Some(0)
    else match FirstTruthy(page, names[1..])
      case None => None
      case Some(i) => Some(i + 1)
  }

  /** What one page adds to the aggregate: the elements of the first truthy
      list field, or the page itself when it has none. Reading a field of a
      null or undefined page, or spreading a field that is not iterable,
      throws. */
  function Contribution(page: JsValue): (r: Result<seq<JsValue>>)
    ensures r.Err? ==> r.error.TypeError?
    ensures r.Err? <==> (|| page.Null? || page.Undefined?
                         || (FirstTruthy(page, ListFields).Some?
                             && Spread(Field(page, ListFields[FirstTruthy(page, ListFields).value])).Err?))
  {
    if page.Null? || page.Undefined? then Err(TypeError(Property(page, "markets").error.message))
    else match FirstTruthy(page, ListFields)
      case None => Ok([page])
      case Some(i) => Spread(Field(page, ListFields[i]))
  }

  /** The first truthy list field, in the order markets, events, orders,
      positions, fills, is the one whose elements are taken, and an empty
      array is truthy: it is selected and contributes nothing. */
  lemma ContributionTakesFirstListField(page: JsValue, i: nat)
    requires page.Obj? && i < |ListFields| && Truthy(Field(page, ListFields[i]))
    requires forall j :: 0 <= j < i ==> !Truthy(Field(page, ListFields[j]))
    ensures Contribution(page) == Spread(Field(page, ListFields[i]))
    ensures Field(page, ListFields[i]) == Arr([]) ==> Contribution(page) == Ok([])
  {
    var r := FirstTruthy(page, ListFields);
    assert r.Some? && r.value == i;
  }

  /** A page that is neither null nor undefined and has no truthy list field
      is one item of the aggregate, and a null or undefined page throws. */
  lemma ContributionFallsBackToPage(page: JsValue)
    ensures (page.Null? || page.Undefined?) ==> Contribution(page).Err? && Contribution(page).error.TypeError?
    ensures !page.Null? && !page.Undefined? && (forall j :: 0 <= j < |ListFields| ==> !Truthy(Field(page, ListFields[j]))) ==>
      Contribution(page) == Ok([page])
  {
  }

  /** The cursor a page hands back. */
  function CursorOf(page: JsValue): (c: JsValue)
    ensures !page.Null? && !page.Undefined? ==> Property(page, "cursor") == Ok(c)
    ensures !page.Obj? ==> c == Undefined
  {
    Field(page, "cursor")
  }

  /** The outcome of aggregation: the result, the state afterwards, the
      caller's query object as it is left, and (for the lemmas) the pages
      received and the query each dispatch was made with. */
  datatype Pages = Pages(result: Result<seq<JsValue>>, after: State, qs: Dict, pages: seq<JsValue>, queries: seq<Dict>)

  /** kalshiApiRequest with the credentials and the clock fixed: the
      aggregator only needs a dispatcher that consumes a scripted reply
      whenever it succeeds. */
  type Dispatcher = (State, Call) -> Step<Result<JsValue>>

  function DispatcherFor(cred: Credentials, clock: nat -> int): Dispatcher {
    (st: State, call: Call) => Dispatch(st, cred, clock, call)
  }

  ghost predicate Consumes(dispatch: Dispatcher) {
    forall st: State, call: Call :: dispatch(st, call).result.Ok? ==> |dispatch(st, call).after.script| < |st.script|
  }

  lemma DispatcherConsumes(cred: Credentials, clock: nat -> int)
    ensures Consumes(DispatcherFor(cred, clock))
  {
  }

  /** The do-while loop of kalshiApiRequestAllItems from the point where it
      holds `cursor`: a truthy cursor is written into the query, then the
      page is fetched. */
  function Paginate(st: State, dispatch: Dispatcher, contribute: JsValue -> Result<seq<JsValue>>, call: Call, cursor: JsValue): (p: Pages)
    requires Consumes(dispatch)
    ensures var q := if Truthy(cursor) then call.qs["cursor" := cursor] else call.qs;
      var d := dispatch(st, call.(qs := q));
      && |p.queries| >= 1 && p.queries[0] == q
      && (d.result.Err? ==> p.result == Err(d.result.error) && p.pages == [])
      && (d.result.Ok? ==> |p.pages| >= 1 && p.pages[0] == d.result.value)
    decreases |st.script|, 1
  {
    var qs := if Truthy(cursor) then call.qs["cursor" := cursor] else call.qs;
    PaginateAfter(st, dispatch, contribute, call.(qs := qs), dispatch(st, call.(qs := qs)))
  }

  /** The rest of one iteration, once dispatch `d` made from `st` answered:
      take the page's contribution and go on while its cursor is truthy. */
  function PaginateAfter(st: State, dispatch: Dispatcher, contribute: JsValue -> Result<seq<JsValue>>, call: Call, d: Step<Result<JsValue>>): (p: Pages)
    requires Consumes(dispatch)
    requires d.result.Ok? ==> |d.after.script| < |st.script|
    ensures |p.queries| >= 1 && p.queries[0] == call.qs
    ensures d.result.Err? ==> p.result == Err(d.result.error) && p.pages == []
    ensures d.result.Ok? ==> |p.pages| >= 1 && p.pages[0] == d.result.value
    ensures d.result.Ok? && contribute(d.result.value).Err? ==> p.result == contribute(d.result.value)
    decreases |st.script|, 0
  {
    match d.result
    case Err(e) => Pages(Err(e), d.after, call.qs, [], [call.qs])
    case Ok(page) =>
      match contribute(page)
      case Err(e) => Pages(Err(e), d.after, call.qs, [page], [call.qs])
      case Ok(items) =>
        var next := CursorOf(page);
        if !Truthy(next) then Pages(Ok(items), d.after, call.qs, [page], [call.qs])
        else
          var rest := Paginate(d.after, dispatch, contribute, call, next);
          Pages(Prepend(items, rest.result), rest.after, rest.qs, [page] + rest.pages, [call.qs] + rest.queries)
  }

  /** The contributions of `pages` concatenated in order, or the first
      contribution that throws. */
  function Gathered(contribute: JsValue -> Result<seq<JsValue>>, pages: seq<JsValue>): Result<seq<JsValue>> {
    if pages == [] then Ok([])
    else match contribute(pages[0])
      case Err(e) => Err(e)
      case Ok(items) => Prepend(items, Gathered(contribute, pages[1..]))
  }

  /** One iteration of the do-while loop: a failed dispatch or a throwing
      contribution ends it with the error, a falsy cursor ends it with the
      page's contribution, and otherwise the page's contribution comes first,
      followed by what the next dispatch, made with the page's cursor,
      gathers. */
  lemma PaginateStep(st: State, dispatch: Dispatcher, contribute: JsValue -> Result<seq<JsValue>>, call: Call, cursor: JsValue)
    requires Consumes(dispatch)
    ensures var q := if Truthy(cursor) then call.qs["cursor" := cursor] else call.qs;
      var d := dispatch(st, call.(qs := q));
      var p := Paginate(st, dispatch, contribute, call, cursor);
      && (d.result.Err? ==> p == Pages(Err(d.result.error), d.after, q, [], [q]))
      && (d.result.Ok? && contribute(d.result.value).Err? ==>
            p == Pages(Err(contribute(d.result.value).error), d.after, q, [d.result.value], [q]))
      && (d.result.Ok? && contribute(d.result.value).Ok? && !Truthy(CursorOf(d.result.value)) ==>
            p == Pages(contribute(d.result.value), d.after, q, [d.result.value], [q]))
      && (d.result.Ok? && contribute(d.result.value).Ok? && Truthy(CursorOf(d.result.value)) ==>
            var rest := Paginate(d.after, dispatch, contribute, call.(qs := q), CursorOf(d.result.value));
            p == Pages(Prepend(contribute(d.result.value).value, rest.result), rest.after, rest.qs,
                       [d.result.value] + rest.pages, [q] + rest.queries))
  {
  }

  /** A successful aggregation made one dispatch per page it received, and
      its result is the page-order concatenation of the pages'
      contributions; every page but the last handed back a truthy cursor and
      the last a falsy one. A failed dispatch yields an error, never the
      items gathered before it. */
  lemma {:induction false} PaginateConcatenatesPages(st: State, dispatch: Dispatcher, contribute: JsValue -> Result<seq<JsValue>>, call: Call, cursor: JsValue)
    requires Consumes(dispatch)
    ensures var p := Paginate(st, dispatch, contribute, call, cursor);
      && 1 <= |p.queries| && |p.pages| <= |p.queries| <= |p.pages| + 1
      && (forall k :: 0 <= k < |p.pages| - 1 ==> Truthy(CursorOf(p.pages[k])))
      && (|p.pages| < |p.queries| ==> p.result.Err?)
      && (p.result.Ok? ==>
            && |p.pages| == |p.queries|
            && p.result == Gathered(contribute, p.pages)
            && !Truthy(CursorOf(p.pages[|p.pages| - 1])))
    decreases |st.script|
  {
    var p := Paginate(st, dispatch, contribute, call, cursor);
    var qs := if Truthy(cursor) then call.qs["cursor" := cursor] else call.qs;
    var d := dispatch(st, call.(qs := qs));
    PaginateStep(st, dispatch, contribute, call, cursor);
    if d.result.Ok? {
      var page := d.result.value;
      if contribute(page).Ok? && Truthy(CursorOf(page)) {
        var items := contribute(page).value;
        var rest := Paginate(d.after, dispatch, contribute, call.(qs := qs), CursorOf(page));
        PaginateConcatenatesPages(d.after, dispatch, contribute, call.(qs := qs), CursorOf(page));
        assert p.pages[1..] == rest.pages;
        forall k | 0 <= k < |p.pages| - 1
          ensures Truthy(CursorOf(p.pages[k]))
        {
          if k > 0 {
            assert p.pages[k] == rest.pages[k - 1];
          }
        }
        if p.result.Ok? {
          assert Gathered(contribute, p.pages) == Prepend(items, Gathered(contribute, rest.pages));
        }
      } else if contribute(page).Ok? {
        assert p.pages == [page] && p.pages[1..] == [];
        assert contribute(page).value + [] == contribute(page).value;
      }
    }
  }

  /** The first dispatch uses the caller's query object as given; every later
      dispatch uses it with `cursor` set to the cursor of the page before,
      and that is how the caller's object is left. */
  lemma PaginateThreadsCursor(st: State, dispatch: Dispatcher, contribute: JsValue -> Result<seq<JsValue>>, call: Call)
    requires Consumes(dispatch)
    ensures var p := Paginate(st, dispatch, contribute, call, Undefined);
      && |p.queries| >= 1 && p.queries[0] == call.qs && |p.queries| <= |p.pages| + 1
      && (forall k :: 1 <= k < |p.queries| ==> p.queries[k] == call.qs["cursor" := CursorOf(p.pages[k - 1])])
      && p.qs == p.queries[|p.queries| - 1]
  {
    CursorThreaded(st, dispatch, contribute, call, Undefined);
  }

  lemma UpdateTwice(m: Dict, key: string, a: JsValue, b: JsValue)
    ensures m[key := a][key := b] == m[key := b]
  {
  }

  lemma {:induction false} CursorThreaded(st: State, dispatch: Dispatcher, contribute: JsValue -> Result<seq<JsValue>>, call: Call, cursor: JsValue)
    requires Consumes(dispatch)
    ensures var p := Paginate(st, dispatch, contribute, call, cursor);
      && |p.queries| >= 1
      && p.queries[0] == (if Truthy(cursor) then call.qs["cursor" := cursor] else call.qs)
      && |p.queries| <= |p.pages| + 1
      && (forall k :: 1 <= k < |p.queries| ==> p.queries[k] == p.queries[0]["cursor" := CursorOf(p.pages[k - 1])])
      && p.qs == p.queries[|p.queries| - 1]
    decreases |st.script|
  {
    var p := Paginate(st, dispatch, contribute, call, cursor);
    var q := if Truthy(cursor) then call.qs["cursor" := cursor] else call.qs;
    var d := dispatch(st, call.(qs := q));
    PaginateStep(st, dispatch, contribute, call, cursor);
    if d.result.Ok? && contribute(d.result.value).Ok? && Truthy(CursorOf(d.result.value)) {
      var page := d.result.value;
      var rest := Paginate(d.after, dispatch, contribute, call.(qs := q), CursorOf(page));
      CursorThreaded(d.after, dispatch, contribute, call.(qs := q), CursorOf(page));
      ThreadStep(p, rest, q, page);
    }
  }

  /** One more page in front of a threaded run keeps it threaded. */
  lemma ThreadStep(p: Pages, rest: Pages, q: Dict, page: JsValue)
    requires p.queries == [q] + rest.queries && p.pages == [page] + rest.pages && p.qs == rest.qs
    requires |rest.queries| >= 1 && rest.queries[0] == q["cursor" := CursorOf(page)]
    requires |rest.queries| <= |rest.pages| + 1
    requires forall k :: 1 <= k < |rest.queries| ==> rest.queries[k] == rest.queries[0]["cursor" := CursorOf(rest.pages[k - 1])]
    requires rest.qs == rest.queries[|rest.queries| - 1]
    ensures |p.queries| >= 1 && p.queries[0] == q && |p.queries| <= |p.pages| + 1
    ensures forall k :: 1 <= k < |p.queries| ==> p.queries[k] == p.queries[0]["cursor" := CursorOf(p.pages[k - 1])]
    ensures p.qs == p.queries[|p.queries| - 1]
  {
    forall k | 1 <= k < |p.queries|
      ensures p.queries[k] == p.queries[0]["cursor" := CursorOf(p.pages[k - 1])]
    {
      assert p.queries[k] == rest.queries[k - 1];
      if k > 1 {
        assert p.pages[k - 1] == rest.pages[k - 2];
        UpdateTwice(q, "cursor", CursorOf(page), CursorOf(rest.pages[k - 2]));
      }
    }
  }

  // ---------------------------------------------------------------------
  // The module state and the request helper, updated in place
  // ---------------------------------------------------------------------

  /** The module-level token cache together with the host's request helper:
      `script` holds the replies still to come and `sent` every request
      issued, in order (its length is the call counter). */
  class Session {
    const credentials: Credentials
    var cachedToken: JsValue
    var tokenExpiry: int
    var script: seq<Reply>
    var sent: seq<Request>

    function Snapshot(): State
      reads this
    {
      State(cachedToken, tokenExpiry, script, sent)
    }

    /** A fresh process: no token cached, expiry 0. */
    constructor (credentials: Credentials, script: seq<Reply>)
      ensures this.credentials == credentials
      ensures Snapshot() == State(Null, 0, script, [])
    {
      this.credentials := credentials;
      cachedToken := Null;
      tokenExpiry := 0;
      this.script := script;
      sent := [];
    }

    /** The host's request helper: consumes the next scripted reply. */
    method Send(req: Request) returns (reply: Reply)
      modifies this
      ensures Step(reply, Snapshot()) == Transmit(old(Snapshot()), req)
    {
      if script == [] {
        reply := Fault(Unanswered);
      } else {
        reply := script[0];
        script := script[1..];
      }
      sent := sent + [req];
    }

    /** getAccessToken: serve the cached token while it is usable, otherwise
        log in and cache the returned token until `now + TokenLifetime`. */
    method GetAccessToken(now: int) returns (token: Result<JsValue>)
      modifies this
      ensures Step(token, Snapshot()) == AccessToken(old(Snapshot()), credentials, now)
      ensures token.Err? ==> cachedToken == old(cachedToken) && tokenExpiry == old(tokenExpiry)
    {
      if Truthy(cachedToken) && now < tokenExpiry {
        return Ok(cachedToken);
      }
      var response := Send(LoginRequest(credentials));
      match response
      case Fault(f) =>
        token := Err(ApiError(Describe(f)));
      case Answer(data) =>
        var t := Property(data, "token");
        if t.Err? {
          token := Err(ApiError(t.error.message));
        } else {
          cachedToken := t.value;
          tokenExpiry := now + TokenLifetime;
          token := Ok(cachedToken);
        }
    }

    /** kalshiApiRequest. */
    method ApiRequest(clock: nat -> int, call: Call) returns (r: Result<JsValue>)
      modifies this
      ensures Step(r, Snapshot()) == Dispatch(old(Snapshot()), credentials, clock, call)
    {
      var token := GetAccessToken(clock(|sent|));
      if token.Err? {
        return Err(token.error);
      }
      var options := Request(call.httpMethod, Uri(credentials.environment, call.endpoint), call.qs,
                             Some(call.body), Some(token.value));
      if (call.httpMethod == GET || call.httpMethod == DELETE) && |call.body| == 0 {
        options := options.(body := None);
      }
      var reply := Send(options);
      match reply
      case Answer(data) =>
        r := Ok(data);
      case Fault(f) =>
        if f.statusCode == Some(401) {
          cachedToken := Null;
          tokenExpiry := 0;
          var newToken := GetAccessToken(clock(|sent|));
          if newToken.Err? {
            return Err(newToken.error);
          }
          options := options.(bearer := Some(newToken.value));
          var retry := Send(options);
          match retry
          case Answer(data) =>
            r := Ok(data);
          case Fault(g) =>
            r := Err(ApiError(Describe(g)));
        } else {
          r := Err(ApiError(Describe(f)));
        }
    }

    /** kalshiApiRequestAllItems: follows the cursor until a page hands back a
        falsy one. `qs` is the caller's query object as the loop leaves it. */
    method ApiRequestAllItems(clock: nat -> int, call: Call) returns (r: Result<seq<JsValue>>, qs: Dict)
      modifies this
      ensures var p := Paginate(old(Snapshot()), DispatcherFor(credentials, clock), Contribution, call, Undefined);
        r == p.result && qs == p.qs && Snapshot() == p.after
    {
      DispatcherConsumes(credentials, clock);
      ghost var whole := Paginate(Snapshot(), DispatcherFor(credentials, clock), Contribution, call, Undefined);
      assert call.(qs := call.qs) == call;
      var returnData: seq<JsValue> := [];
      var cursor := Undefined;
      qs := call.qs;
      while true
        invariant var rest := Paginate(Snapshot(), DispatcherFor(credentials, clock), Contribution, call.(qs := qs), cursor);
          whole.result == Prepend(returnData, rest.result) && whole.after == rest.after && whole.qs == rest.qs
        decreases |script|
      {
        ghost var before := Snapshot();
        ghost var gathered := returnData;
        ghost var rest := Paginate(before, DispatcherFor(credentials, clock), Contribution, call.(qs := qs), cursor);
        if Truthy(cursor) {
          qs := qs["cursor" := cursor];
        }
        assert rest == PaginateAfter(before, DispatcherFor(credentials, clock), Contribution, call.(qs := qs),
                                     DispatcherFor(credentials, clock)(before, call.(qs := qs)));
        var response := ApiRequest(clock, call.(qs := qs));
        if response.Err? {
          return Err(response.error), qs;
        }
        var items := Contribution(response.value);
        if items.Err? {
          return Err(items.error), qs;
        }
        returnData := returnData + items.value;
        cursor := CursorOf(response.value);
        if !Truthy(cursor) {
          return Ok(returnData), qs;
        }
        PrependPrepend(gathered, items.value, Paginate(Snapshot(), DispatcherFor(credentials, clock), Contribution, call.(qs := qs), cursor).result);
      }
    }
  }
}
