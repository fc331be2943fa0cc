/**
 * Abstract HTTP collaborators of the auth round-trippers. The base transport
 * and the token endpoint are oracles: each answers its n-th call with a fixed
 * but arbitrary reply, and logs what it was sent, so that properties proved
 * here hold for every possible server behaviour.
 */
module Http {

  /** Request headers, and the API client's default headers. */
  type Header = map<string, string>

  const Authorization: string := "Authorization"
  const StatusOK: int := 200
  const StatusUnauthorized: int := 401

  /** A Go map read: a missing key reads as "". */
  function Get(h: Header, k: string): string
  {
    if k in h then h[k] else ""
  }

  function Bearer(token: string): string
  {
    "Bearer " + token
  }

  /** What `RoundTrip` returns: a response with a status, or `(nil, err)`. */
  datatype Outcome = Response(status: int) | Failure(err: string)

  /** A reply with status 401 Unauthorized. */
  predicate IsUnauthorized(o: Outcome)
  {
    o.Response? && o.status == StatusUnauthorized
  }

  /** An outgoing `*http.Request`; its header map is changed in place. */
  class Request {
    var header: Header

    constructor (h: Header)
      ensures header == h
    {
      header := h;
    }

    /** `req.Header.Set(k, v)`. */
    method Set(k: string, v: string)
      modifies this
      ensures header == old(header)[k := v]
    {
      header := header[k := v];
    }
  }

  /** The wrapped `http.RoundTripper` (TLS transport, possibly traced). */
  class BaseTransport {
    /** `InsecureSkipVerify` of the TLS configuration. */
    const skipVerify: bool
    /** The reply to the n-th request, given the headers it carries. */
    const answer: (nat, Header) -> Outcome
    /** Headers of every request sent so far, in order. */
    var sent: seq<Header>

    constructor (skipVerify: bool, answer: (nat, Header) -> Outcome)
      ensures this.skipVerify == skipVerify && this.answer == answer && sent == []
    {
      this.skipVerify := skipVerify;
      this.answer := answer;
      sent := [];
    }

    method RoundTrip(req: Request) returns (r: Outcome)
      modifies this
      ensures sent == old(sent) + [req.header]
      ensures r == answer(|old(sent)|, req.header)
    {
      r := answer(|sent|, req.header);
      sent := sent + [req.header];
    }
  }

  /** The parameters of an `AuthenticationAPI.GetAccessToken` request. */
  datatype Grant = Grant(username: string, password: string, clientId: string, grantType: string, scope: string)

  datatype TokenReply = Granted(accessToken: string) | Refused(err: string)

  /** The API's token endpoint. */
  class TokenEndpoint {
    /** The reply to the n-th grant request. */
    const answer: nat -> TokenReply
    /** Every grant requested so far, in order. */
    var grants: seq<Grant>

    constructor (answer: nat -> TokenReply)
      ensures this.answer == answer && grants == []
    {
      this.answer := answer;
      grants := [];
    }

    method GetAccessToken(g: Grant) returns (r: TokenReply)
      modifies this
      ensures grants == old(grants) + [g]
      ensures r == answer(|old(grants)|)
    {
      r := answer(|grants|);
      grants := grants + [g];
    }
  }

  /** The API client's configuration (`client.GetConfig()`). */
  class ApiConfig {
    var serverURL: string
    var defaultHeader: Header

    constructor (url: string)
      ensures serverURL == url && defaultHeader == map[]
    {
      serverURL := url;
      defaultHeader := map[];
    }

    method AddDefaultHeader(k: string, v: string)
      modifies this
      ensures defaultHeader == old(defaultHeader)[k := v] && serverURL == old(serverURL)
    {
      defaultHeader := defaultHeader[k := v];
    }
  }
}
