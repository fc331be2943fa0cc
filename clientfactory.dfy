/**
 * The client factory (clientfactory/clientfactory.go): it captures a
 * sub-provider block and builds a fresh API client on demand, choosing the
 * transport layering from the options and the shape of the credentials.
 */
module ClientFactory {
  import opened Wrappers
  import opened Framework

  /**
   * The `morpheus` block (`model.SubModel`). clientfactory.go and its test
   * also read an `insecure` flag, which is kept here.
   */
  datatype SubModel = SubModel(url: Value<string>, username: Value<string>, password: Value<string>,
                               accessToken: Value<string>, insecure: Value<bool>)

  /** A caller-supplied `*http.Client`, known only by identity. */
  datatype CustomClient = CustomClient(id: nat)

  datatype FactoryOption = WithFactoryHTTPClient(client: CustomClient)

  datatype ClientOption = WithHTTPClient(client: CustomClient) | WithInsecureTLS

  /** The `clientOpts` that the client options fill in. */
  datatype ClientOpts = ClientOpts(httpclient: Option<CustomClient>, insecure: bool)

  /** A composed transport, described by its layers. */
  datatype Transport =
    | TlsBase(skipVerify: bool)
    | Trace(inner: Transport)
    | TokenAuth(inner: Transport, token: string)
    | CredsAuth(inner: Transport, url: string, username: string, password: string)

  /** The HTTP client an API client ends up with. */
  datatype HttpClient =
    | SdkDefault
    | Custom(client: CustomClient)
    | Composed(transport: Transport, timeoutSeconds: nat)

  /** What the model says about an `*sdk.APIClient`. */
  datatype APIClient = APIClient(serverURL: string, http: HttpClient)

  const ClientTimeoutSeconds: nat := 15

  /** The innermost layer of a transport. */
  function Base(t: Transport): Transport
  {
    match t
    case TlsBase(_) => t
    case Trace(inner) => Base(inner)
    case TokenAuth(inner, _) => Base(inner)
    case CredsAuth(inner, _, _, _) => Base(inner)
  }

  /** One client option applied to `clientOpts`. */
  function ApplyOption(o: ClientOpts, opt: ClientOption): ClientOpts
  {
    match opt
    case WithHTTPClient(c) => o.(httpclient := Some(c))
    case WithInsecureTLS => o.(insecure := true)
  }

  /** The `clientOpts` after applying `opts` in order to the zero value. */
  function Resolve(opts: seq<ClientOption>): (o: ClientOpts)
    ensures o.insecure <==> WithInsecureTLS in opts
    ensures o.httpclient.None? <==> forall i :: 0 <= i < |opts| ==> !opts[i].WithHTTPClient?
    ensures o.httpclient.Some? ==>
      exists i :: 0 <= i < |opts| && opts[i] == WithHTTPClient(o.httpclient.value)
        && forall j :: i < j < |opts| ==> !opts[j].WithHTTPClient?
    decreases |opts|
  {
    if opts == [] then ClientOpts(None, false)
    else
      var prefix := opts[..|opts| - 1];
      assert opts == prefix + [opts[|opts| - 1]];
      ApplyOption(Resolve(prefix), opts[|opts| - 1])
  }

  /**
   * The layering NewAPIClient composes when no custom client is given: a
   * TLS transport that skips verification iff `insecure`, wrapped in the
   * trace transport iff tracing is enabled, wrapped in the token
   * round-tripper when a token is given and in the credentials one otherwise.
   */
  function Layering(url: string, username: string, password: string, token: string,
                    insecure: bool, trace: bool): (t: Transport)
    ensures !t.TlsBase? && !t.Trace? && (t.inner.Trace? <==> trace)
    ensures Base(t) == TlsBase(insecure)
    ensures token != "" ==> t.TokenAuth? && t.token == token
    ensures token == "" ==> t == CredsAuth(t.inner, url, username, password)
    ensures t.inner == if trace then Trace(TlsBase(insecure)) else TlsBase(insecure)
  {
    var tls := TlsBase(insecure);
    var inner := if trace then Trace(tls) else tls;
    assert Base(inner) == tls;
    if token != "" then TokenAuth(inner, token) else CredsAuth(inner, url, username, password)
  }

  /**
   * The HTTP client NewAPIClient installs, as written: only the composed
   * one. A custom client is dropped and the SDK's default client is kept.
   */
  function InstalledClientAsWritten(o: ClientOpts, composed: Transport): (h: HttpClient)
    ensures o.httpclient.Some? ==> h == SdkDefault
    ensures o.httpclient.None? ==> h == Composed(composed, ClientTimeoutSeconds)
  {
    if o.httpclient.None? then Composed(composed, ClientTimeoutSeconds) else SdkDefault
  }

  /** The HTTP client NewAPIClient is meant to install: the custom one when given, the composed one otherwise. */
  function InstalledClient(o: ClientOpts, composed: Transport): (h: HttpClient)
    ensures o.httpclient.Some? ==> h == Custom(o.httpclient.value)
    ensures o.httpclient.None? ==> h == Composed(composed, ClientTimeoutSeconds)
  {
    if o.httpclient.None? then Composed(composed, ClientTimeoutSeconds) else Custom(o.httpclient.value)
  }

  /** A custom client passed with WithHTTPClient never reaches the API client as written. */
  lemma CustomClientDroppedAsWritten(c: CustomClient, url: string, username: string, password: string, token: string, trace: bool)
    ensures var o := Resolve([WithHTTPClient(c)]);
      InstalledClientAsWritten(o, Layering(url, username, password, token, o.insecure, trace)) == SdkDefault
  {
  }

  /** The option loop of `NewAPIClient`: each option is applied in order to the zero options. */
  method ApplyOptions(opts: seq<ClientOption>) returns (options: ClientOpts)
    ensures options == Resolve(opts)
  {
    options := ClientOpts(None, false);
    var i := 0;
    while i < |opts|
      invariant 0 <= i <= |opts|
      invariant options == Resolve(opts[..i])
    {
      assert opts[..i + 1][..i] == opts[..i];
      options := ApplyOption(options, opts[i]);
      i := i + 1;
    }
    assert opts[..i] == opts;
  }

  /**
   * `NewAPIClient`, as written: the composed client is installed only when
   * no custom client was given; a custom client leaves the SDK default.
   */
  method NewAPIClientAsWritten(url: string, username: string, password: string, token: string,
                               opts: seq<ClientOption>, trace: bool) returns (c: APIClient)
    ensures c.serverURL == url
    ensures Resolve(opts).httpclient.Some? ==> c.http == SdkDefault
    ensures Resolve(opts).httpclient.None? ==>
      c.http == Composed(Layering(url, username, password, token, Resolve(opts).insecure, trace), ClientTimeoutSeconds)
  {
    var options := ApplyOptions(opts);
    var composed := Layering(url, username, password, token, options.insecure, trace);
    c := APIClient(url, InstalledClientAsWritten(options, composed));
  }

  /**
   * `NewAPIClient`, corrected: a custom client given with WithHTTPClient is
   * installed as is; otherwise the composed client, as written.
   */
  method NewAPIClient(url: string, username: string, password: string, token: string,
                      opts: seq<ClientOption>, trace: bool) returns (c: APIClient)
    ensures c.serverURL == url
    ensures Resolve(opts).httpclient.Some? ==> c.http == Custom(Resolve(opts).httpclient.value)
    ensures Resolve(opts).httpclient.None? ==>
      c.http == Composed(Layering(url, username, password, token, Resolve(opts).insecure, trace), ClientTimeoutSeconds)
  {
    var options := ApplyOptions(opts);
    var composed := Layering(url, username, password, token, options.insecure, trace);
    c := APIClient(url, InstalledClient(options, composed));
  }

  /** The options a factory's client closure is built with. */
  function CapturedOptions(httpclient: Option<CustomClient>, m: SubModel): seq<ClientOption>
  {
    (if httpclient.Some? then [WithHTTPClient(httpclient.value)] else [])
      + (if ValueBool(m.insecure) then [WithInsecureTLS] else [])
  }

  /** The client of the last factory option, if any. */
  function LastFactoryClient(opts: seq<FactoryOption>): Option<CustomClient>
  {
    if opts == [] then None else Some(opts[|opts| - 1].client)
  }

  /** The factory `New(m, opts...)` builds. */
  function FactoryFor(m: SubModel, opts: seq<FactoryOption>): (cf: ClientFactory)
    ensures cf.model == m
    ensures cf.httpclient == LastFactoryClient(opts)
    ensures Resolve(cf.options) == ClientOpts(cf.httpclient, ValueBool(m.insecure))
  {
    var h := LastFactoryClient(opts);
    ClientFactory(h, m, CapturedOptions(h, m))
  }

  /**
   * `c` is a client for the factory's block (with the corrected
   * NewAPIClient): it targets the block's URL and
   * uses the factory's custom client if there is one, and otherwise the
   * layering chosen from the block's credentials and the insecure option.
   */
  predicate BuiltFrom(c: APIClient, cf: ClientFactory, trace: bool)
  {
    var o := Resolve(cf.options);
    var m := cf.model;
    && c.serverURL == ValueString(m.url)
    && (o.httpclient.Some? ==> c.http == Custom(o.httpclient.value))
    && (o.httpclient.None? ==>
          c.http == Composed(Layering(ValueString(m.url), ValueString(m.username), ValueString(m.password),
                                      ValueString(m.accessToken), o.insecure, trace), ClientTimeoutSeconds))
  }

  /**
   * `ClientFactory`: the block it was built from and the client options its
   * `newClient` closure passes on to NewAPIClient.
   */
  datatype ClientFactory = ClientFactory(httpclient: Option<CustomClient>, model: SubModel, options: seq<ClientOption>)
  {
    /** `NewClient`: never fails; a fresh client for the captured block, through the corrected NewAPIClient. */
    method NewClient(trace: bool) returns (c: APIClient, err: Option<string>)
      ensures err == None
      ensures BuiltFrom(c, this, trace)
    {
      c := NewAPIClient(ValueString(model.url), ValueString(model.username), ValueString(model.password),
                        ValueString(model.accessToken), options, trace);
      err := None;
    }
  }

  /** `New`: apply the factory options in order, then capture the client options. */
  method New(m: SubModel, opts: seq<FactoryOption>) returns (cf: ClientFactory)
    ensures cf == FactoryFor(m, opts)
  {
    cf := ClientFactory(None, m, []);
    var i := 0;
    while i < |opts|
      invariant 0 <= i <= |opts|
      invariant cf.model == m && cf.options == []
      invariant cf.httpclient == LastFactoryClient(opts[..i])
    {
      cf := cf.(httpclient := Some(opts[i].client));
      i := i + 1;
    }
    assert opts[..i] == opts;
    var options: seq<ClientOption> := [];
    if cf.httpclient.Some? {
      options := options + [WithHTTPClient(cf.httpclient.value)];
    }
    if ValueBool(cf.model.insecure) {
      options := options + [WithInsecureTLS];
    }
    cf := cf.(options := options);
  }

  /**
   * End to end, with the corrected NewAPIClient: a client from a factory built by New uses the last
   * factory-supplied client if any; otherwise token authentication whenever
   * the block has a non-empty access token, certificate checks off exactly
   * when `insecure` is true.
   */
  lemma FactoryClientShape(m: SubModel, opts: seq<FactoryOption>, c: APIClient, trace: bool)
    requires BuiltFrom(c, FactoryFor(m, opts), trace)
    ensures c.serverURL == ValueString(m.url)
    ensures opts != [] ==> c.http == Custom(opts[|opts| - 1].client)
    ensures opts == [] ==> c.http.Composed? && c.http.timeoutSeconds == ClientTimeoutSeconds
    ensures opts == [] ==> Base(c.http.transport) == TlsBase(ValueBool(m.insecure))
    ensures opts == [] && ValueString(m.accessToken) != "" ==>
      c.http.transport.TokenAuth? && c.http.transport.token == ValueString(m.accessToken)
    ensures opts == [] && ValueString(m.accessToken) == "" ==>
      c.http.transport.CredsAuth? && c.http.transport.username == ValueString(m.username)
      && c.http.transport.password == ValueString(m.password)
  {
  }
}
