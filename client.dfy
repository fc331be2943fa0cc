/**
 * The older client wrapper (client/client.go): the client is its own
 * round-tripper. A request is sent unchanged; on a 401 it refreshes the
 * token when credentials are set and retries once with whatever the default
 * Authorization header then holds.
 *
 * The SDK client that sends the token request has this same client as its
 * transport (`New` installs it on `http.DefaultClient`), so a token request
 * goes through `RoundTrip` and may itself trigger a refresh. The nesting of
 * refreshes is bounded by a `depth` that stands for the goroutine stack;
 * `Overflow` is what running out of it ends in.
 */
module LegacyClient {
  import opened Wrappers
  import opened Http
  import opened TokenGrant

  datatype Credentials = Credentials(username: string, password: string)

  /** `client.Config`. */
  datatype Config = Config(url: string, insecureTLS: bool)

  /**
   * `base` answers the n-th request sent on the TLS transport; `decode` is
   * what the SDK makes of the reply to the n-th request, with that status,
   * when that request was a token request: a token or an error.
   */
  datatype Env = Env(base: (nat, Header) -> Outcome, decode: (nat, int) -> TokenReply)

  datatype View = View(credentials: Option<Credentials>, accessToken: Option<string>,
                       defaults: Header, sent: seq<Header>, grants: seq<Grant>)

  /** How a round trip ends: with a reply or error, or by exhausting the stack. */
  datatype Reply = Done(out: Outcome) | Overflow

  /** How `GetTokenWithCredentials` ends. */
  datatype Fetch = Fetched | FetchFailed(err: string) | FetchOverflow

  datatype Step = Step(view: View, header: Header, reply: Reply)
  datatype TokenStep = TokenStep(view: View, result: Fetch)

  /**
   * `Client.RoundTrip`, as written. The token request is sent through this
   * same function, carrying the configuration's default headers.
   */
  function RoundTripStep(env: Env, v: View, h: Header, depth: nat): (r: Step)
    decreases depth, 0
    ensures r.view.credentials == v.credentials && r.view.accessToken == v.accessToken
    ensures v.sent <= r.view.sent && v.grants <= r.view.grants
    ensures depth == 0 ==> r == Step(v, h, Overflow)
    // with stack left, the request itself is the first thing sent
    ensures depth > 0 ==> |v.sent| < |r.view.sent| && r.view.sent[|v.sent|] == h
    // a transport error or a non-401 reply is returned as is, after one base call
    ensures var first := env.base(|v.sent|, h);
      depth > 0 && !IsUnauthorized(first) ==> r == Step(v.(sent := v.sent + [h]), h, Done(first))
    // 401 without credentials: no fetch, one retry with the current default header
    ensures depth > 0 && IsUnauthorized(env.base(|v.sent|, h)) && v.credentials.None? ==>
      var retry := h[Authorization := Get(v.defaults, Authorization)];
      r == Step(v.(sent := v.sent + [h, retry]), retry, Done(env.base(|v.sent| + 1, retry)))
    // 401 with credentials: exactly one grant is built before anything else is sent
    ensures depth > 0 && IsUnauthorized(env.base(|v.sent|, h)) && v.credentials.Some? ==>
      |r.view.grants| > |v.grants|
      && r.view.grants[|v.grants|] == PasswordGrant(v.credentials.value.username, v.credentials.value.password)
    ensures r.reply.Done? ==> |v.sent| < |r.view.sent|
  {
    if depth == 0 then Step(v, h, Overflow)
    else
      var first := env.base(|v.sent|, h);
      var v1 := v.(sent := v.sent + [h]);
      if !IsUnauthorized(first) then Step(v1, h, Done(first))
      else
        var f := if v.credentials.Some? then GetTokenStep(env, v1, depth - 1) else TokenStep(v1, Fetched);
        Resume(env, f, h)
  }

  /**
   * What follows the refresh after a 401: a failed fetch returns its error
   * and nothing is retried; after a fetch that did not fail the request is
   * sent once more with the default Authorization header the fetch left.
   */
  function Resume(env: Env, f: TokenStep, h: Header): (r: Step)
    ensures f.result.FetchFailed? ==> r == Step(f.view, h, Done(Failure(f.result.err)))
    ensures f.result.FetchOverflow? ==> r == Step(f.view, h, Overflow)
    ensures f.result.Fetched? ==>
      r.header == h[Authorization := Get(f.view.defaults, Authorization)]
      && r.view == f.view.(sent := f.view.sent + [r.header])
      && r.reply == Done(env.base(|f.view.sent|, r.header))
  {
    match f.result
    case FetchOverflow => Step(f.view, h, Overflow)
    case FetchFailed(e) => Step(f.view, h, Done(Failure(e)))
    case Fetched =>
      var retry := h[Authorization := Get(f.view.defaults, Authorization)];
      Step(f.view.(sent := f.view.sent + [retry]), retry, Done(env.base(|f.view.sent|, retry)))
  }

  /**
   * `GetTokenWithCredentials`, as written: one grant with the stored
   * credentials, sent as a request through `RoundTripStep`.
   */
  function GetTokenStep(env: Env, v: View, depth: nat): (r: TokenStep)
    requires v.credentials.Some?
    decreases depth, 1
    ensures r.view.credentials == v.credentials && r.view.accessToken == v.accessToken
    ensures v.sent <= r.view.sent
    ensures |r.view.grants| > |v.grants| && r.view.grants[..|v.grants|] == v.grants
    ensures r.view.grants[|v.grants|] == PasswordGrant(v.credentials.value.username, v.credentials.value.password)
    ensures r.result.FetchFailed? ==> AuthFailureFrom(r.result.err, v.credentials.value.username)
    // the token request carries the configuration's default headers
    ensures depth > 0 ==> |v.sent| < |r.view.sent| && r.view.sent[|v.sent|] == v.defaults
    // a successful fetch leaves a bearer token as the default Authorization header
    ensures r.result.Fetched? ==> exists t :: Get(r.view.defaults, Authorization) == Bearer(t)
    ensures depth == 0 ==> r.result == FetchOverflow
  {
    var c := v.credentials.value;
    var v' := v.(grants := v.grants + [PasswordGrant(c.username, c.password)]);
    var s := RoundTripStep(env, v', v.defaults, depth);
    match s.reply
    case Overflow => TokenStep(s.view, FetchOverflow)
    case Done(Failure(e)) => TokenStep(s.view, FetchFailed(AuthFailure(c.username, e)))
    case Done(Response(status)) =>
      match env.decode(|s.view.sent| - 1, status)
      case Granted(t) => TokenStep(s.view.(defaults := s.view.defaults[Authorization := Bearer(t)]), Fetched)
      case Refused(e) => TokenStep(s.view, FetchFailed(AuthFailure(c.username, e)))
  }

  /**
   * A 401 with credentials set: the fetch runs one level deeper, and what
   * follows is Resume's. In particular a failed fetch returns its error and
   * the request is not retried.
   */
  lemma RefreshOutcome(env: Env, v: View, h: Header, depth: nat)
    requires depth > 0 && IsUnauthorized(env.base(|v.sent|, h)) && v.credentials.Some?
    ensures var f := GetTokenStep(env, v.(sent := v.sent + [h]), depth - 1);
      RoundTripStep(env, v, h, depth) == Resume(env, f, h)
      && (f.result.FetchFailed? ==> RoundTripStep(env, v, h, depth) == Step(f.view, h, Done(Failure(f.result.err))))
  {
  }

  /** `msg` is the refused-grant error for `username`, whatever the cause. */
  ghost predicate AuthFailureFrom(msg: string, username: string)
  {
    exists e :: msg == AuthFailure(username, e)
  }

  /**
   * An ordinary refresh: the request is refused with 401, the token request
   * is answered and yields a token, and the request is repeated with it.
   * That costs three sends on the TLS transport and one grant.
   */
  lemma RefreshTakesThreeSends(env: Env, v: View, h: Header, depth: nat)
    requires depth >= 2 && v.credentials.Some?
    requires IsUnauthorized(env.base(|v.sent|, h))
    requires !IsUnauthorized(env.base(|v.sent| + 1, v.defaults))
    requires env.base(|v.sent| + 1, v.defaults).Response?
    requires env.decode(|v.sent| + 1, env.base(|v.sent| + 1, v.defaults).status).Granted?
    ensures var t := env.decode(|v.sent| + 1, env.base(|v.sent| + 1, v.defaults).status).accessToken;
      var retry := h[Authorization := Bearer(t)];
      var r := RoundTripStep(env, v, h, depth);
      r.view.sent == v.sent + [h, v.defaults, retry]
      && r.view.grants == v.grants + [PasswordGrant(v.credentials.value.username, v.credentials.value.password)]
      && r.view.defaults == v.defaults[Authorization := Bearer(t)]
      && r.header == retry && r.reply == Done(env.base(|v.sent| + 2, retry))
  {
    var c := v.credentials.value;
    var v1 := v.(sent := v.sent + [h]);
    var v' := v1.(grants := v1.grants + [PasswordGrant(c.username, c.password)]);
    var s := RoundTripStep(env, v', v1.defaults, depth - 1);
    assert s.view == v'.(sent := v'.sent + [v.defaults]);
    assert |s.view.sent| - 1 == |v.sent| + 1;
  }

  /** Every request sent on the TLS transport is answered 401. */
  ghost predicate AlwaysUnauthorized(env: Env)
  {
    forall n: nat, h: Header :: IsUnauthorized(env.base(n, h))
  }

  /**
   * As written, with credentials set and a server that answers every request
   * with 401, the token request is itself refused with 401 and refreshes
   * again, without end: whatever the stack, the round trip exhausts it.
   */
  lemma {:induction false} UnauthorizedRefreshNeverEnds(env: Env, v: View, h: Header, depth: nat)
    requires AlwaysUnauthorized(env) && v.credentials.Some?
    ensures RoundTripStep(env, v, h, depth).reply == Overflow
    decreases depth, 0
  {
    if depth > 0 {
      assert IsUnauthorized(env.base(|v.sent|, h));
      UnauthorizedFetchNeverEnds(env, v.(sent := v.sent + [h]), depth - 1);
    }
  }

  /** The same for `SetCredentials`' fetch against such a server. */
  lemma {:induction false} UnauthorizedFetchNeverEnds(env: Env, v: View, depth: nat)
    requires AlwaysUnauthorized(env) && v.credentials.Some?
    ensures GetTokenStep(env, v, depth).result == FetchOverflow
    decreases depth, 1
  {
    var c := v.credentials.value;
    UnauthorizedRefreshNeverEnds(env, v.(grants := v.grants + [PasswordGrant(c.username, c.password)]), v.defaults, depth);
  }

  /**
   * The token request sent straight on the TLS transport, as the newer
   * credential round-tripper does: one send, no nested refresh.
   */
  function GetTokenStepDirect(env: Env, v: View): (r: TokenStep)
    requires v.credentials.Some?
    ensures r.view.credentials == v.credentials && r.view.accessToken == v.accessToken
    ensures r.view.sent == v.sent + [v.defaults]
    ensures r.view.grants == v.grants + [PasswordGrant(v.credentials.value.username, v.credentials.value.password)]
    ensures !r.result.FetchOverflow?
    ensures r.result.Fetched? <==>
      env.base(|v.sent|, v.defaults).Response? && env.decode(|v.sent|, env.base(|v.sent|, v.defaults).status).Granted?
    ensures r.result.Fetched? ==>
      r.view.defaults == v.defaults[Authorization := Bearer(env.decode(|v.sent|, env.base(|v.sent|, v.defaults).status).accessToken)]
    ensures r.result.FetchFailed? ==> r.view.defaults == v.defaults && AuthFailureFrom(r.result.err, v.credentials.value.username)
  {
    var c := v.credentials.value;
    var v' := v.(grants := v.grants + [PasswordGrant(c.username, c.password)], sent := v.sent + [v.defaults]);
    match env.base(|v.sent|, v.defaults)
    case Failure(e) => TokenStep(v', FetchFailed(AuthFailure(c.username, e)))
    case Response(status) =>
      match env.decode(|v.sent|, status)
      case Granted(t) => TokenStep(v'.(defaults := v.defaults[Authorization := Bearer(t)]), Fetched)
      case Refused(e) => TokenStep(v', FetchFailed(AuthFailure(c.username, e)))
  }

  /**
   * `Client.RoundTrip` with the token request sent directly: every round
   * trip ends, after at most three sends and at most one grant, whatever the
   * server answers.
   */
  function RoundTripStepCorrected(env: Env, v: View, h: Header): (r: Step)
    ensures r.reply.Done?
    ensures r.view.credentials == v.credentials && r.view.accessToken == v.accessToken
    ensures v.sent <= r.view.sent && |v.sent| < |r.view.sent| <= |v.sent| + 3
    ensures v.grants <= r.view.grants && |r.view.grants| <= |v.grants| + (if v.credentials.Some? then 1 else 0)
    ensures var first := env.base(|v.sent|, h);
      !IsUnauthorized(first) ==> r == Step(v.(sent := v.sent + [h]), h, Done(first))
    // a refused grant ends the round trip with the authentication error, and no retry
    ensures IsUnauthorized(env.base(|v.sent|, h)) && v.credentials.Some? ==>
      var f := GetTokenStepDirect(env, v.(sent := v.sent + [h]));
      f.result.FetchFailed? ==>
        r == Step(f.view, h, Done(Failure(f.result.err)))
        && AuthFailureFrom(f.result.err, v.credentials.value.username)
    // a granted token: the request is repeated once, carrying it
    ensures IsUnauthorized(env.base(|v.sent|, h)) && v.credentials.Some? ==>
      var f := GetTokenStepDirect(env, v.(sent := v.sent + [h]));
      f.result.Fetched? ==>
        r.header == h[Authorization := Get(f.view.defaults, Authorization)]
        && Get(f.view.defaults, Authorization) == Bearer(env.decode(|v.sent| + 1, env.base(|v.sent| + 1, v.defaults).status).accessToken)
        && |r.view.sent| == |v.sent| + 3
        && r.reply == Done(env.base(|v.sent| + 2, r.header))
  {
    var first := env.base(|v.sent|, h);
    var v1 := v.(sent := v.sent + [h]);
    if !IsUnauthorized(first) then Step(v1, h, Done(first))
    else
      var f := if v.credentials.Some? then GetTokenStepDirect(env, v1) else TokenStep(v1, Fetched);
      Resume(env, f, h)
  }

  /** Go's process-wide `http.DefaultClient`, whose transport `New` overwrites. */
  class DefaultHttpClient {
    var transport: object?

    constructor ()
      ensures transport == null
    {
      transport := null;
    }
  }

  class Client {
    var URL: string
    var credentials: Option<Credentials>
    var accessToken: Option<string>
    /** The grants built so far, in order. */
    var grants: seq<Grant>
    const defaultTransport: BaseTransport
    /** The SDK client's configuration (`Morpheus.GetConfig()`). */
    const config: ApiConfig
    /** The SDK client's HTTP client: the shared default client. */
    const httpClient: DefaultHttpClient
    const decode: (nat, int) -> TokenReply

    /**
     * `New`: the URL goes both on the client and on the API server
     * configuration, and the client becomes the transport of the shared
     * default HTTP client, which the SDK then uses.
     */
    constructor New(cfg: Config, base: (nat, Header) -> Outcome, decode: (nat, int) -> TokenReply,
                    shared: DefaultHttpClient)
      modifies shared
      ensures URL == cfg.url && config.serverURL == cfg.url
      ensures defaultTransport.skipVerify == cfg.insecureTLS && defaultTransport.answer == base && this.decode == decode
      ensures credentials.None? && accessToken.None? && grants == []
      ensures config.defaultHeader == map[] && defaultTransport.sent == []
      ensures httpClient == shared && shared.transport == this
      ensures fresh(config) && fresh(defaultTransport)
    {
      config := new ApiConfig(cfg.url);
      URL := cfg.url;
      defaultTransport := new BaseTransport(cfg.insecureTLS, base);
      this.decode := decode;
      httpClient := shared;
      credentials := None;
      accessToken := None;
      grants := [];
      new;
      shared.transport := this;
    }

    ghost function Environment(): Env
    {
      Env(defaultTransport.answer, decode)
    }

    ghost function State(): View
      reads this, config, defaultTransport
    {
      View(credentials, accessToken, config.defaultHeader, defaultTransport.sent, grants)
    }

    method RoundTrip(req: Request, depth: nat) returns (r: Reply)
      modifies this, config, defaultTransport, req
      decreases depth, 0
      ensures URL == old(URL)
      ensures var s := RoundTripStep(Environment(), old(State()), old(req.header), depth);
        State() == s.view && req.header == s.header && r == s.reply
    {
      if depth == 0 {
        return Overflow;
      }
      var first := defaultTransport.RoundTrip(req);
      if !IsUnauthorized(first) {
        return Done(first);
      }
      if credentials.Some? {
        var f := GetTokenWithCredentials(depth - 1);
        if f.FetchOverflow? {
          return Overflow;
        }
        if f.FetchFailed? {
          return Done(Failure(f.err));
        }
      }
      req.Set(Authorization, Get(config.defaultHeader, Authorization));
      var second := defaultTransport.RoundTrip(req);
      r := Done(second);
    }

    method GetTokenWithCredentials(depth: nat) returns (f: Fetch)
      requires credentials.Some?
      modifies this, config, defaultTransport
      decreases depth, 1
      ensures URL == old(URL)
      ensures var t := GetTokenStep(Environment(), old(State()), depth);
        State() == t.view && f == t.result
    {
      var c := credentials.value;
      grants := grants + [PasswordGrant(c.username, c.password)];
      var tokenRequest := new Request(config.defaultHeader);
      var reply := RoundTrip(tokenRequest, depth);
      match reply
      case Overflow =>
        f := FetchOverflow;
      case Done(Failure(e)) =>
        f := FetchFailed(AuthFailure(c.username, e));
      case Done(Response(status)) =>
        match decode(|defaultTransport.sent| - 1, status)
        case Granted(t) =>
          config.AddDefaultHeader(Authorization, Bearer(t));
          f := Fetched;
        case Refused(e) =>
          f := FetchFailed(AuthFailure(c.username, e));
    }

    /** `SetAccessToken`: store the token and make it the default bearer header; never fails. */
    method SetAccessToken(token: string) returns (err: Option<string>)
      modifies this, config
      ensures err == None
      ensures accessToken == Some(token) && credentials == old(credentials) && URL == old(URL)
      ensures grants == old(grants)
      ensures config.defaultHeader == old(config.defaultHeader)[Authorization := Bearer(token)]
      ensures config.serverURL == old(config.serverURL)
    {
      accessToken := Some(token);
      config.AddDefaultHeader(Authorization, Bearer(accessToken.value));
      err := None;
    }

    /** `SetCredentials`: store the credentials, then fetch exactly once and report that fetch's result. */
    method SetCredentials(username: string, password: string, depth: nat) returns (f: Fetch)
      modifies this, config, defaultTransport
      ensures credentials == Some(Credentials(username, password))
      ensures accessToken == old(accessToken) && URL == old(URL)
      ensures var t := GetTokenStep(Environment(), old(State()).(credentials := Some(Credentials(username, password))), depth);
        State() == t.view && f == t.result
    {
      credentials := Some(Credentials(username, password));
      f := GetTokenWithCredentials(depth);
    }
  }

  /**
   * Two clients created one after the other: both SDK clients now send
   * through the second, since they share the default HTTP client.
   */
  method NewTwice(a: Config, b: Config, base: (nat, Header) -> Outcome, decode: (nat, int) -> TokenReply,
                  shared: DefaultHttpClient)
    returns (first: Client, second: Client)
    modifies shared
    ensures first != second && first.httpClient == shared && second.httpClient == shared
    ensures shared.transport == second
  {
    first := new Client.New(a, base, decode, shared);
    second := new Client.New(b, base, decode, shared);
  }
}
