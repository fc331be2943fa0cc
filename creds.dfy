/**
 * The username/password round-tripper (auth/creds.go). A first request
 * fetches a token once, guarded by the `initToken` flag; a 401 reply makes
 * it fetch a new token and retry the request once.
 *
 * The mutex around the first-time initialisation is modelled by treating
 * each method as one atomic step.
 */
module CredsAuth {
  import opened Wrappers
  import opened Http
  import opened TokenGrant

  /** The oracles and credentials a round-tripper is built with. */
  datatype Env = Env(base: (nat, Header) -> Outcome, token: nat -> TokenReply, username: string, password: string)

  /**
   * Everything a call can change: the flag, the API client's default
   * headers, and the logs of the base transport and the token endpoint.
   */
  datatype View = View(initToken: bool, defaults: Header, sent: seq<Header>, grants: seq<Grant>)

  datatype Fetched = Fetched(view: View, err: Option<string>)
  datatype Prepared = Prepared(view: View, header: Header, err: Option<string>)
  datatype Step = Step(view: View, header: Header, out: Outcome)

  /** `GetToken`: one grant request; on success the default Authorization header holds the new bearer token. */
  function GetTokenStep(env: Env, v: View): (r: Fetched)
    ensures r.view.grants == v.grants + [PasswordGrant(env.username, env.password)]
    ensures r.view.sent == v.sent && r.view.initToken == v.initToken
    ensures r.err.None? <==> env.token(|v.grants|).Granted?
    ensures r.err.None? ==> r.view.defaults == v.defaults[Authorization := Bearer(env.token(|v.grants|).accessToken)]
    ensures r.err.Some? ==> r.err.value == AuthFailure(env.username, env.token(|v.grants|).err) && r.view.defaults == v.defaults
  {
    var v' := v.(grants := v.grants + [PasswordGrant(env.username, env.password)]);
    match env.token(|v.grants|)
    case Granted(t) => Fetched(v'.(defaults := v.defaults[Authorization := Bearer(t)]), None)
    case Refused(e) => Fetched(v', Some(AuthFailure(env.username, e)))
  }

  /**
   * `InitAuthHeader`: only the first call fetches; it raises the flag before
   * fetching, so a failed fetch is remembered and never repeated here.
   */
  function InitStep(env: Env, v: View, h: Header): (r: Prepared)
    ensures r.view.initToken && r.view.sent == v.sent
    ensures v.initToken ==> r == Prepared(v, h, None)
    ensures !v.initToken ==> r.view.grants == v.grants + [PasswordGrant(env.username, env.password)]
    ensures !v.initToken ==> (r.err.None? <==> env.token(|v.grants|).Granted?)
    ensures !v.initToken && r.err.None? ==> r.header == h[Authorization := Bearer(env.token(|v.grants|).accessToken)]
    ensures r.err.Some? ==> r.header == h && r.err.value == AuthFailure(env.username, env.token(|v.grants|).err)
  {
    if v.initToken then Prepared(v, h, None)
    else
      var f := GetTokenStep(env, v.(initToken := true));
      if f.err.None? then Prepared(f.view, h[Authorization := Get(f.view.defaults, Authorization)], None)
      else Prepared(f.view, h, f.err)
  }

  /** `RoundTrip`: initialise, send, and on a 401 refresh once and resend once. */
  function RoundTripStep(env: Env, v: View, h: Header): (r: Step)
    ensures r.view.initToken
    ensures v.sent <= r.view.sent && |r.view.sent| <= |v.sent| + 2
    ensures v.grants <= r.view.grants && |r.view.grants| <= |v.grants| + (if v.initToken then 1 else 2)
    // a failed initialisation returns its error and never reaches the base transport
    ensures var p := InitStep(env, v, h);
      p.err.Some? ==> r.out == Failure(p.err.value) && r.view.sent == v.sent
    // a transport error or a non-401 reply is returned unchanged, after one base call and no refresh
    ensures var p := InitStep(env, v, h); var first := env.base(|v.sent|, p.header);
      p.err.None? && !IsUnauthorized(first) ==>
        r.out == first && r.view.sent == v.sent + [p.header] && r.view.grants == p.view.grants
    // a 401 triggers exactly one refresh; the retry's reply is returned whatever it is
    ensures var p := InitStep(env, v, h); var first := env.base(|v.sent|, p.header);
      var reply := env.token(|p.view.grants|);
      p.err.None? && IsUnauthorized(first) ==>
        && r.view.grants == p.view.grants + [PasswordGrant(env.username, env.password)]
        && (reply.Refused? ==> r.out == Failure(AuthFailure(env.username, reply.err)) && r.view.sent == v.sent + [p.header])
        && (reply.Granted? ==>
              var retry := p.header[Authorization := Bearer(reply.accessToken)];
              r.view.sent == v.sent + [p.header, retry] && r.out == env.base(|v.sent| + 1, retry))
  {
    var p := InitStep(env, v, h);
    if p.err.Some? then Step(p.view, p.header, Failure(p.err.value))
    else
      var first := env.base(|p.view.sent|, p.header);
      var v1 := p.view.(sent := p.view.sent + [p.header]);
      if !IsUnauthorized(first) then Step(v1, p.header, first)
      else
        var f := GetTokenStep(env, v1);
        if f.err.Some? then Step(f.view, p.header, Failure(f.err.value))
        else
          var retry := p.header[Authorization := Get(f.view.defaults, Authorization)];
          Step(f.view.(sent := f.view.sent + [retry]), retry, env.base(|f.view.sent|, retry))
  }

  /** A sequence of requests through one round-tripper, each starting from the previous one's state. */
  function Run(env: Env, v: View, hs: seq<Header>): (steps: seq<Step>)
    ensures |steps| == |hs|
    decreases |hs|
  {
    if hs == [] then [] else
      var s := RoundTripStep(env, v, hs[0]);
      [s] + Run(env, s.view, hs[1..])
  }

  /** The state before the k-th request of a run. */
  function Before(v: View, steps: seq<Step>, k: nat): View
    requires k <= |steps|
  {
    if k == 0 then v else steps[k - 1].view
  }

  /** Every request after the first finds the flag raised, so its initialisation fetches nothing and leaves it untouched. */
  lemma {:induction false} LaterRequestsSkipInit(env: Env, v: View, hs: seq<Header>, k: nat)
    requires 1 <= k < |hs|
    decreases |hs|
    ensures var steps := Run(env, v, hs);
      Before(v, steps, k).initToken
      && InitStep(env, Before(v, steps, k), hs[k]) == Prepared(Before(v, steps, k), hs[k], None)
  {
    var s := RoundTripStep(env, v, hs[0]);
    var steps := Run(env, v, hs);
    assert steps == [s] + Run(env, s.view, hs[1..]);
    if k > 1 {
      LaterRequestsSkipInit(env, s.view, hs[1..], k - 1);
      assert Before(v, steps, k) == Before(s.view, Run(env, s.view, hs[1..]), k - 1);
    }
  }

  /** Over any run: at most two base calls per request, and at most one fetch per request plus the single first-time fetch. */
  lemma {:induction false} RunBounds(env: Env, v: View, hs: seq<Header>)
    decreases |hs|
    ensures var last := Before(v, Run(env, v, hs), |hs|);
      && |last.sent| <= |v.sent| + 2 * |hs|
      && |last.grants| <= |v.grants| + |hs| + (if v.initToken || hs == [] then 0 else 1)
  {
    if hs != [] {
      var s := RoundTripStep(env, v, hs[0]);
      var steps := Run(env, v, hs);
      assert steps == [s] + Run(env, s.view, hs[1..]);
      RunBounds(env, s.view, hs[1..]);
      assert Before(v, steps, |hs|) == Before(s.view, Run(env, s.view, hs[1..]), |hs| - 1);
    }
  }

  class CredsRoundTripper {
    const base: BaseTransport
    /** The configuration of the API client used for token requests. */
    const config: ApiConfig
    const endpoint: TokenEndpoint
    const username: string
    const password: string
    var initToken: bool

    /** `NewCredsRoundTripper`, with the base transport passed in as the call site in clientfactory.go does. */
    constructor (base: BaseTransport, config: ApiConfig, endpoint: TokenEndpoint, username: string, password: string)
      ensures this.base == base && this.config == config && this.endpoint == endpoint
      ensures this.username == username && this.password == password && !initToken
    {
      this.base := base;
      this.config := config;
      this.endpoint := endpoint;
      this.username := username;
      this.password := password;
      initToken := false;
    }

    ghost function Environment(): Env
    {
      Env(base.answer, endpoint.answer, username, password)
    }

    ghost function State(): View
      reads this, config, base, endpoint
    {
      View(initToken, config.defaultHeader, base.sent, endpoint.grants)
    }

    method GetToken() returns (err: Option<string>)
      modifies config, endpoint
      ensures State() == GetTokenStep(Environment(), old(State())).view
      ensures err == GetTokenStep(Environment(), old(State())).err
    {
      var reply := endpoint.GetAccessToken(PasswordGrant(username, password));
      match reply
      case Refused(e) =>
        err := Some(AuthFailure(username, e));
      case Granted(t) =>
        config.AddDefaultHeader(Authorization, Bearer(t));
        err := None;
    }

    method InitAuthHeader(req: Request) returns (err: Option<string>)
      modifies this, config, endpoint, req
      ensures var r := InitStep(Environment(), old(State()), old(req.header));
        State() == r.view && req.header == r.header && err == r.err
    {
      if initToken {
        return None;
      }
      initToken := true;
      err := GetToken();
      if err.None? {
        req.Set(Authorization, Get(config.defaultHeader, Authorization));
      }
    }

    method RoundTrip(req: Request) returns (r: Outcome)
      modifies this, config, endpoint, base, req
      ensures var s := RoundTripStep(Environment(), old(State()), old(req.header));
        State() == s.view && req.header == s.header && r == s.out
    {
      var err := InitAuthHeader(req);
      if err.Some? {
        return Failure(err.value);
      }
      r := base.RoundTrip(req);
      if !IsUnauthorized(r) {
        return r;
      }
      err := GetToken();
      if err.Some? {
        return Failure(err.value);
      }
      req.Set(Authorization, Get(config.defaultHeader, Authorization));
      r := base.RoundTrip(req);
    }
  }
}
