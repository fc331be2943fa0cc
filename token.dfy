/**
 * The static-token round-tripper (auth/token.go): the first request gets
 * `Authorization: Bearer <token>`, later requests are sent untouched, and a
 * 401 is returned like any other reply since there is no way to mint a new
 * token.
 */
module TokenAuth {
  import opened Wrappers
  import opened Http

  datatype View = View(initToken: bool, sent: seq<Header>)

  datatype Prepared = Prepared(view: View, header: Header)
  datatype Step = Step(view: View, header: Header, out: Outcome)

  /** `InitAuthHeader` (which always returns nil): set the header on the first call only. */
  function InitStep(token: string, v: View, h: Header): (r: Prepared)
    ensures r.view == v.(initToken := true)
    ensures v.initToken ==> r.header == h
    ensures !v.initToken ==> r.header == h[Authorization := Bearer(token)]
  {
    if v.initToken then Prepared(v, h) else Prepared(v.(initToken := true), h[Authorization := Bearer(token)])
  }

  /** `RoundTrip`: exactly one base call, whose reply is returned unchanged, 401 included. */
  function RoundTripStep(base: (nat, Header) -> Outcome, token: string, v: View, h: Header): (r: Step)
    ensures r.view.initToken
    ensures r.header == InitStep(token, v, h).header
    ensures r.view.sent == v.sent + [r.header]
    ensures r.out == base(|v.sent|, r.header)
  {
    var p := InitStep(token, v, h);
    Step(p.view.(sent := p.view.sent + [p.header]), p.header, base(|p.view.sent|, p.header))
  }

  function Run(base: (nat, Header) -> Outcome, token: string, v: View, hs: seq<Header>): (steps: seq<Step>)
    ensures |steps| == |hs|
    decreases |hs|
  {
    if hs == [] then [] else
      var s := RoundTripStep(base, token, v, hs[0]);
      [s] + Run(base, token, s.view, hs[1..])
  }

  /**
   * Through a fresh round-tripper, request k is sent exactly once, as its
   * `sent` entry k: the first with the bearer header set, every later one
   * exactly as given.
   */
  lemma {:induction false} RunSendsEachOnce(base: (nat, Header) -> Outcome, token: string, v: View, hs: seq<Header>)
    decreases |hs|
    ensures var steps := Run(base, token, v, hs);
      && (hs != [] ==> steps[|hs| - 1].view.sent == v.sent + seq(|hs|, k requires 0 <= k < |hs| => steps[k].header))
      && (forall k :: 0 < k < |hs| ==> steps[k].header == hs[k])
      && (hs != [] ==> steps[0].header == if v.initToken then hs[0] else hs[0][Authorization := Bearer(token)])
  {
    if hs != [] {
      var s := RoundTripStep(base, token, v, hs[0]);
      var rest := Run(base, token, s.view, hs[1..]);
      var steps := Run(base, token, v, hs);
      assert steps == [s] + rest;
      RunSendsEachOnce(base, token, s.view, hs[1..]);
      if |hs| > 1 {
        assert steps[|hs| - 1].view.sent == s.view.sent + seq(|hs| - 1, k requires 0 <= k < |hs| - 1 => rest[k].header);
        assert seq(|hs|, k requires 0 <= k < |hs| => steps[k].header)
            == [s.header] + seq(|hs| - 1, k requires 0 <= k < |hs| - 1 => rest[k].header);
      } else {
        assert seq(|hs|, k requires 0 <= k < |hs| => steps[k].header) == [s.header];
      }
      forall k | 0 < k < |hs| ensures steps[k].header == hs[k] {
        assert steps[k] == rest[k - 1];
        if k == 1 {
          assert s.view.initToken;
        }
      }
    }
  }

  class TokenRoundTripper {
    const base: BaseTransport
    /** The static token, fixed at construction. */
    const token: string
    var initToken: bool

    /** `NewTokenRoundTripper`, with the base transport passed in as the call site in clientfactory.go does. */
    constructor (base: BaseTransport, token: string)
      ensures this.base == base && this.token == token && !initToken
    {
      this.base := base;
      this.token := token;
      initToken := false;
    }

    ghost function State(): View
      reads this, base
    {
      View(initToken, base.sent)
    }

    method InitAuthHeader(req: Request) returns (err: Option<string>)
      modifies this, req
      ensures err == None
      ensures var r := InitStep(token, old(State()), old(req.header));
        State() == r.view && req.header == r.header
    {
      if initToken {
        return None;
      }
      initToken := true;
      req.Set(Authorization, Bearer(token));
      err := None;
    }

    method RoundTrip(req: Request) returns (r: Outcome)
      modifies this, base, req
      ensures var s := RoundTripStep(base.answer, token, old(State()), old(req.header));
        State() == s.view && req.header == s.header && r == s.out
    {
      var _ := InitAuthHeader(req);
      r := base.RoundTrip(req);
    }
  }
}
