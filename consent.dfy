/**
 * The `/api/consent` handler: a fail-fast pipeline of three provider calls
 * (CheckSession, GetConsent, AcceptConsent) whose outcome is mapped to an
 * HTTP status and, on success, the accepted decision's redirect target.
 *
 * The providers are an abstract service whose three responses are inputs;
 * the service records every call it receives with its arguments, and the
 * logger counts its `Errorf` calls, so that the order of the calls, their
 * arguments and the calls that never happen can all be stated.
 */
module Consent {
  import opened Wrappers
  import opened Logging

  const StatusOK: int := 200
  const StatusForbidden: int := 403

  /** An HTTP cookie attached to the inbound request. */
  datatype Cookie = Cookie(name: string, value: string)

  /** The identity-provider identity a session resolves to. */
  datatype Identity = Identity(id: string, schemaId: string, schemaUrl: string, traits: map<string, string>)

  /** A session as returned by the identity provider. */
  datatype Session = Session(id: string, identity: Identity)

  /** The consent request the consent provider holds for one challenge. */
  datatype ConsentRequest = ConsentRequest(challenge: string)

  /** The consent provider's accept decision. */
  datatype RedirectTo = RedirectTo(redirectTo: string)

  /**
   * The inbound request, reduced to what the handler reads: its cookies
   * and the value of its `consent_challenge` query parameter.
   */
  datatype Request = Request(cookies: seq<Cookie>, consentChallenge: string)

  /** The HTTP outcome: the status and, on success, the body's `redirect_to`. */
  datatype Response = Response(status: int, redirectTo: Option<string>)

  /** One call received by the service, with its arguments. */
  datatype Call =
    | CheckSessionCall(cookies: seq<Cookie>)
    | GetConsentCall(challenge: string)
    | AcceptConsentCall(identity: Identity, consent: ConsentRequest)

  /**
   * The responses the service gives to each of its three operations: the
   * payload, or None when the call fails.
   */
  datatype Responses = Responses(
    session: Option<Session>,
    consent: Option<ConsentRequest>,
    accept: Option<RedirectTo>)

  /** What one run of the handler produces: the response, the service's call log, the error count. */
  datatype Outcome = Outcome(response: Response, calls: seq<Call>, errors: nat)

  /** The uniform failure outcome: 403, no redirect, the calls made so far, one error logged. */
  function Forbidden(calls: seq<Call>): Outcome
  {
    Outcome(Response(StatusForbidden, None), calls, 1)
  }

  /**
   * The handler's specification: the three calls in order, stopping with a
   * 403 and one logged error at the first failure, and a 200 with the
   * decision's redirect target when all three succeed.
   */
  function Run(req: Request, resp: Responses): (o: Outcome)
    ensures o.response.status == StatusOK || o.response.status == StatusForbidden
    ensures o.response.status == StatusOK <==> resp.session.Some? && resp.consent.Some? && resp.accept.Some?
    ensures o.response.redirectTo.Some? <==> o.response.status == StatusOK
    ensures o.errors == if o.response.status == StatusOK then 0 else 1
    ensures 1 <= |o.calls| <= 3
    ensures o.calls[0] == CheckSessionCall(req.cookies)
    ensures |o.calls| >= 2 <==> resp.session.Some?
    ensures |o.calls| == 3 <==> resp.session.Some? && resp.consent.Some?
    ensures |o.calls| >= 2 ==> o.calls[1] == GetConsentCall(req.consentChallenge)
    ensures |o.calls| == 3 ==>
              o.calls[2] == AcceptConsentCall(resp.session.value.identity, resp.consent.value)
    ensures o.response.status == StatusOK ==> o.response.redirectTo == Some(resp.accept.value.redirectTo)
  {
    var log1 := [CheckSessionCall(req.cookies)];
    match resp.session
    case None => Forbidden(log1)
    case Some(session) =>
      var log2 := log1 + [GetConsentCall(req.consentChallenge)];
      match resp.consent
      case None => Forbidden(log2)
      case Some(consent) =>
        var log3 := log2 + [AcceptConsentCall(session.identity, consent)];
        match resp.accept
        case None => Forbidden(log3)
        case Some(accept) => Outcome(Response(StatusOK, Some(accept.redirectTo)), log3, 0)
  }

  /**
   * The service the handler depends on, as the tests' mock configures it:
   * each operation returns its fixed response and records the call.
   */
  class Service {
    const sessionResponse: Option<Session>
    const consentResponse: Option<ConsentRequest>
    const acceptResponse: Option<RedirectTo>
    var calls: seq<Call>

    constructor (session: Option<Session>, consent: Option<ConsentRequest>, accept: Option<RedirectTo>)
      ensures Configured() == Responses(session, consent, accept)
      ensures calls == []
    {
      sessionResponse, consentResponse, acceptResponse := session, consent, accept;
      calls := [];
    }

    /** The responses this service was configured with. */
    function Configured(): Responses
    {
      Responses(sessionResponse, consentResponse, acceptResponse)
    }

    method CheckSession(cookies: seq<Cookie>) returns (r: Option<Session>)
      modifies this
      ensures calls == old(calls) + [CheckSessionCall(cookies)]
      ensures r == sessionResponse
    {
      calls := calls + [CheckSessionCall(cookies)];
      r := sessionResponse;
    }

    method GetConsent(challenge: string) returns (r: Option<ConsentRequest>)
      modifies this
      ensures calls == old(calls) + [GetConsentCall(challenge)]
      ensures r == consentResponse
    {
      calls := calls + [GetConsentCall(challenge)];
      r := consentResponse;
    }

    method AcceptConsent(identity: Identity, consent: ConsentRequest) returns (r: Option<RedirectTo>)
      modifies this
      ensures calls == old(calls) + [AcceptConsentCall(identity, consent)]
      ensures r == acceptResponse
    {
      calls := calls + [AcceptConsentCall(identity, consent)];
      r := acceptResponse;
    }
  }

  /** The API object built by `NewAPI(service, logger)`. */
  class Api {
    const service: Service
    const logger: Logger

    constructor (service: Service, logger: Logger)
      ensures this.service == service && this.logger == logger
    {
      this.service, this.logger := service, logger;
    }

    /**
     * Serves one `/api/consent` request: appends the calls it makes to the
     * service's log and its errors to the logger's count exactly as `Run`
     * says, and returns `Run`'s response.
     */
    method HandleConsent(req: Request) returns (res: Response)
      modifies service, logger
      ensures var o := Run(req, service.Configured());
              res == o.response &&
              service.calls == old(service.calls) + o.calls &&
              logger.errorfCalls == old(logger.errorfCalls) + o.errors
    {
      var session := service.CheckSession(req.cookies);
      if session.None? {
        logger.Errorf();
        return Response(StatusForbidden, None);
      }
      var consent := service.GetConsent(req.consentChallenge);
      if consent.None? {
        logger.Errorf();
        return Response(StatusForbidden, None);
      }
      var accept := service.AcceptConsent(session.value.identity, consent.value);
      if accept.None? {
        logger.Errorf();
        return Response(StatusForbidden, None);
      }
      res := Response(StatusOK, Some(accept.value.redirectTo));
    }
  }

  /**
   * The success scenario driven through the objects with the test's own
   * values: the mock's responses, one request carrying the challenge, and
   * the response, error count and call log the handler's contract yields.
   */
  method SuccessScenario() returns (res: Response, errors: nat, calls: seq<Call>)
    ensures res == Response(StatusOK, Some("test"))
    ensures errors == 0
    ensures calls == [CheckSessionCall([]),
                      GetConsentCall("7bb518c4eec2454dbb289f5fdb4c0ee2"),
                      AcceptConsentCall(Identity("test", "test.json", "https://test.com/test.json", map["name" := "name"]),
                                        ConsentRequest("challenge"))]
  {
    var identity := Identity("test", "test.json", "https://test.com/test.json", map["name" := "name"]);
    var session := Session("test", identity);
    var consent := ConsentRequest("challenge");
    var service := new Service(Some(session), Some(consent), Some(RedirectTo("test")));
    var logger := new Logger();
    var api := new Api(service, logger);
    var req := Request([], "7bb518c4eec2454dbb289f5fdb4c0ee2");
    res := api.HandleConsent(req);
    errors, calls := logger.errorfCalls, service.calls;
  }

  /** All three calls succeed: 200 with the decision's redirect, no error, the three calls in order. */
  lemma HandleConsentSuccess(req: Request, session: Session, consent: ConsentRequest, accept: RedirectTo)
    ensures var o := Run(req, Responses(Some(session), Some(consent), Some(accept)));
            o.response == Response(StatusOK, Some(accept.redirectTo)) &&
            o.errors == 0 &&
            o.calls == [CheckSessionCall(req.cookies),
                        GetConsentCall(req.consentChallenge),
                        AcceptConsentCall(session.identity, consent)]
  {
  }

  /** AcceptConsent fails after two good steps: 403, one error, all three calls made. */
  lemma HandleConsentFailOnAcceptConsent(req: Request, session: Session, consent: ConsentRequest)
    ensures var o := Run(req, Responses(Some(session), Some(consent), None));
            o.response.status == StatusForbidden &&
            o.errors == 1 &&
            o.calls == [CheckSessionCall(req.cookies),
                        GetConsentCall(req.consentChallenge),
                        AcceptConsentCall(session.identity, consent)]
  {
  }

  /**
   * GetConsent fails after a good session: 403, one error, AcceptConsent
   * never called. The last conjunct follows from the exact call log and
   * spells out the test's "never called".
   */
  lemma HandleConsentFailOnGetConsent(req: Request, session: Session, accept: Option<RedirectTo>)
    ensures var o := Run(req, Responses(Some(session), None, accept));
            o.response.status == StatusForbidden &&
            o.errors == 1 &&
            o.calls == [CheckSessionCall(req.cookies), GetConsentCall(req.consentChallenge)] &&
            forall c | c in o.calls :: !c.AcceptConsentCall?
  {
  }

  /**
   * CheckSession fails: 403, one error, neither GetConsent nor
   * AcceptConsent called. The last conjunct follows from the exact call log
   * and spells out the test's "never called".
   */
  lemma HandleConsentFailOnCheckSession(req: Request, consent: Option<ConsentRequest>, accept: Option<RedirectTo>)
    ensures var o := Run(req, Responses(None, consent, accept));
            o.response.status == StatusForbidden &&
            o.errors == 1 &&
            o.calls == [CheckSessionCall(req.cookies)] &&
            forall c | c in o.calls :: !c.GetConsentCall? && !c.AcceptConsentCall?
  {
  }

  /**
   * A decision is never produced without a resolved session and consent
   * request of the same run: a 200 implies both succeeded, and the accept
   * call carried exactly their payloads.
   */
  lemma DecisionNeedsResolvedSteps(req: Request, resp: Responses)
    ensures var o := Run(req, resp);
            o.response.status == StatusOK ==>
              resp.session.Some? && resp.consent.Some? &&
              AcceptConsentCall(resp.session.value.identity, resp.consent.value) in o.calls
  {
  }
}
