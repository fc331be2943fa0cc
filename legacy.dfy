/**
 * The legacy provider configuration (morpheus/config.go): it builds one
 * Morpheus client on first use, caches it, and warns on every call while
 * certificate checks are on.
 */
module LegacyConfig {
  import opened Framework

  const SslCertErrorMsg := "\n\nIf you understand the potential security risks of accepting an untrusted server\n"
    + "certificate, you can bypass this error by setting \"insecure = true\" in your\n"
    + "provider configuration or by setting environment variable morpheus_insecure to true. Use this option with caution.\n\n"
    + "\tmorpheus {\n\t\turl = \"https://...\"\n\t\t.\n\t\t.\n\t\t.\n"
    + "\t\tinsecure = true <-- set to true to ignore SSL certificate errors\n}\n"

  /** Seconds the access token is declared to last. */
  const TokenExpiresIn := 86400

  /** How a gomorpheus client authenticates. */
  datatype Auth =
    | UsernameAndPassword(username: string, password: string)
    | AccessToken(token: string, refreshToken: string, expiresIn: int, scope: string)

  /** A gomorpheus client as configured by `Client`. */
  datatype MorpheusClient = MorpheusClient(url: string, debug: bool, insecure: bool, auth: Auth)

  /**
   * The client `Client` builds: username/password authentication when a
   * username is given (prefixed by the tenant subdomain and two backslashes,
   * the raw Go format string `%s\\%s`), access-token authentication with
   * scope "write" otherwise.
   */
  function NewMorpheusClient(url: string, accessToken: string, refreshToken: string, username: string,
                             password: string, tenantSubdomain: string, insecure: bool, debug: bool): (c: MorpheusClient)
    ensures c.url == url && c.debug == debug && c.insecure == insecure
    ensures username != "" <==> c.auth.UsernameAndPassword?
    ensures username != "" && tenantSubdomain == "" ==> c.auth == UsernameAndPassword(username, password)
    ensures username != "" && tenantSubdomain != "" ==>
      c.auth == UsernameAndPassword(tenantSubdomain + "\\\\" + username, password)
      && |c.auth.username| == |tenantSubdomain| + 2 + |username|
    ensures username == "" ==> c.auth == AccessToken(accessToken, refreshToken, TokenExpiresIn, "write")
  {
    var auth :=
      if username != "" then
        if tenantSubdomain != "" then UsernameAndPassword(tenantSubdomain + "\\\\" + username, password)
        else UsernameAndPassword(username, password)
      else AccessToken(accessToken, refreshToken, TokenExpiresIn, "write");
    MorpheusClient(url, debug, insecure, auth)
  }

  /** The warning `Client` returns: one exactly while certificate checks are on. */
  function Warnings(insecure: bool): (ds: seq<Diagnostic>)
    ensures |ds| == (if insecure then 0 else 1)
    ensures !HasError(ds)
    ensures !insecure ==> ds[0] == Diagnostic(Warning, SslCertErrorMsg, "")
  {
    if insecure then [] else [Diagnostic(Warning, SslCertErrorMsg, "")]
  }

  class Config {
    const url: string
    const accessToken: string
    const refreshToken: string
    const username: string
    const password: string
    const clientId: string
    const tenantSubdomain: string
    const insecure: bool
    var client: MorpheusClientCache

    constructor (url: string, accessToken: string, refreshToken: string, username: string, password: string,
                 clientId: string, tenantSubdomain: string, insecure: bool)
      ensures this.url == url && this.accessToken == accessToken && this.refreshToken == refreshToken
      ensures this.username == username && this.password == password && this.clientId == clientId
      ensures this.tenantSubdomain == tenantSubdomain && this.insecure == insecure
      ensures client == NoClient
    {
      this.url, this.accessToken, this.refreshToken := url, accessToken, refreshToken;
      this.username, this.password, this.clientId := username, password, clientId;
      this.tenantSubdomain, this.insecure := tenantSubdomain, insecure;
      client := NoClient;
    }

    /**
     * `Client`: build and cache the client on the first call, return the
     * cached one afterwards. `debug` is the log level and environment check
     * the source makes on every call.
     */
    method Client(debug: bool) returns (c: MorpheusClient, diags: seq<Diagnostic>)
      modifies this
      ensures diags == Warnings(insecure)
      ensures old(client).Cached? ==> client == old(client) && c == old(client).client
      ensures old(client).NoClient? ==>
        c == NewMorpheusClient(url, accessToken, refreshToken, username, password, tenantSubdomain, insecure, debug)
        && client == Cached(c)
    {
      diags := [];
      if !insecure {
        diags := diags + [Diagnostic(Warning, SslCertErrorMsg, "")];
      }
      if client.NoClient? {
        var built := NewMorpheusClient(url, accessToken, refreshToken, username, password, tenantSubdomain, insecure, debug);
        client := Cached(built);
      }
      c := client.client;
    }
  }

  datatype MorpheusClientCache = NoClient | Cached(client: MorpheusClient)

  /** Two calls in a row hand out the same client, even with different debug settings. */
  method ClientTwice(cfg: Config, debug1: bool, debug2: bool) returns (c1: MorpheusClient, c2: MorpheusClient)
    modifies cfg
    ensures c1 == c2
    ensures cfg.client == Cached(c1)
  {
    var d1, d2;
    c1, d1 := cfg.Client(debug1);
    c2, d2 := cfg.Client(debug2);
  }
}
