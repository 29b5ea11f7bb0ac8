/**
 * `verifyJwt` (src/middlewares/auth.middleware.ts): take the access token from the cookie or the
 * `Authorization` header, verify it, resolve the role, load the user, attach it and call `next`.
 */
module Middleware {
  import opened Wrappers
  import opened Text
  import opened Envelope
  import opened Roles
  import opened Users
  import opened Tokens

  const MISSING_TOKEN: Thrown := ApiFailure(NewApiError(Some("Missing Acess Token"), Some(401), None))
  const INVALID_TOKEN: Thrown := ApiFailure(NewApiError(Some("Invalid Token"), Some(401), None))

  /** `req.headers.authorization?.split(' ')[1]`: the second space-separated word, if there is one. */
  function SecondWord(authorization: Option<string>): (r: Option<string>)
    ensures r.Some? ==> ' ' !in r.value
  {
    if authorization.None? then None
    else
      var parts := Split(authorization.value, ' ');
      if |parts| >= 2 then Some(parts[1]) else None
  }

  /** `req.cookies?.accessToken || <second word>`: the cookie wins whenever it is a non-empty string. */
  function ExtractToken(cookie: Option<string>, authorization: Option<string>): (r: Option<string>)
    ensures Truthy(cookie) ==> r == cookie
    ensures !Truthy(cookie) ==> r == SecondWord(authorization)
  {
    if Truthy(cookie) then cookie else SecondWord(authorization)
  }

  /** A header `<scheme> <token>` yields the token, whatever the scheme word is. */
  lemma {:induction false} HeaderToken(scheme: string, token: string)
    requires ' ' !in scheme && ' ' !in token
    ensures SecondWord(Some(scheme + " " + token)) == Some(token)
  {
    var parts := [scheme, token];
    JoinThenSplit(parts, ' ');
    assert Join(parts, " ") == scheme + " " + token by {
      assert Join(parts[1..], " ") == token;
    }
  }

  /** A header of one word carries no token. */
  lemma {:induction false} OneWordHeader(word: string)
    requires ' ' !in word
    ensures SecondWord(Some(word)) == None
  {
    JoinThenSplit([word], ' ');
    assert Join([word], [' ']) == word;
  }

  /**
   * What `verifyJwt` ends with: the user it attaches to `req.user` before calling `next`, or what it
   * throws. The device comparison `isSameDevice` is computed by the source and then not used.
   */
  function SessionOutcome(
    agents: seq<Agent>, signer: Signer, config: Config,
    cookie: Option<string>, authorization: Option<string>, userAgent: Option<string>)
    : Result<Agent, Thrown>
  {
    var token := ExtractToken(cookie, authorization);
    if !Truthy(token) then Err(MISSING_TOKEN)
    else match signer.verify(token.value, config.accessSecret)
      case Err(e) => Err(Raised(e))
      case Ok(decoded) =>
        match GetModelByRole(decoded.role)
        case Err(t) => Err(t)
        case Ok(_) =>
          match FindById(agents, decoded.id)
          case Err(t) => Err(t)
          case Ok(None) => Err(INVALID_TOKEN)
          case Ok(Some(i)) => Ok(agents[i])
  }

  /** No token in the cookie or the header: 'Missing Acess Token', answered 500 by the handler. */
  lemma NoTokenRejected(
    agents: seq<Agent>, signer: Signer, config: Config,
    cookie: Option<string>, authorization: Option<string>, userAgent: Option<string>)
    requires !Truthy(cookie) && !Truthy(SecondWord(authorization))
    ensures SessionOutcome(agents, signer, config, cookie, authorization, userAgent) == Err(MISSING_TOKEN)
    ensures HandleError(MISSING_TOKEN) == ErrorReply(500, "Missing Acess Token", false)
  {
  }

  /** A token that fails verification is rethrown as it is: nothing is looked up. */
  lemma BadTokenRejected(
    agents: seq<Agent>, signer: Signer, config: Config,
    cookie: Option<string>, authorization: Option<string>, userAgent: Option<string>)
    requires Truthy(ExtractToken(cookie, authorization))
    requires signer.verify(ExtractToken(cookie, authorization).value, config.accessSecret).Err?
    ensures SessionOutcome(agents, signer, config, cookie, authorization, userAgent) ==
      Err(Raised(signer.verify(ExtractToken(cookie, authorization).value, config.accessSecret).error))
  {
  }

  /** The user agent never changes the outcome: the device match is not enforced. */
  lemma DeviceNotEnforced(
    agents: seq<Agent>, signer: Signer, config: Config,
    cookie: Option<string>, authorization: Option<string>, ua1: Option<string>, ua2: Option<string>)
    ensures SessionOutcome(agents, signer, config, cookie, authorization, ua1) ==
            SessionOutcome(agents, signer, config, cookie, authorization, ua2)
  {
  }

  /**
   * A verified token whose role is not the agent role is rejected with the resolver's error: the
   * `|| Agent` fallback is never reached, because the resolver throws instead of returning a falsy value.
   */
  lemma UnknownRoleRejected(
    agents: seq<Agent>, signer: Signer, config: Config,
    cookie: Option<string>, authorization: Option<string>, userAgent: Option<string>)
    requires Truthy(ExtractToken(cookie, authorization))
    requires signer.verify(ExtractToken(cookie, authorization).value, config.accessSecret).Ok?
    requires Normalize(signer.verify(ExtractToken(cookie, authorization).value, config.accessSecret).value.role) != Lower(AGENT)
    ensures var role := signer.verify(ExtractToken(cookie, authorization).value, config.accessSecret).value.role;
      SessionOutcome(agents, signer, config, cookie, authorization, userAgent) == Err(GetModelByRole(role).error) &&
      (Normalize(role) == Lower(CUSTOMER) ==> GetModelByRole(role).error == CUSTOMER_NOT_IMPLEMENTED) &&
      (Normalize(role) != Lower(CUSTOMER) ==> GetModelByRole(role).error == INVALID_ROLE)
  {
  }

  /** A success attaches a stored agent whose id text is the token's id, under a role that resolves to Agent. */
  lemma SessionSuccess(
    agents: seq<Agent>, signer: Signer, config: Config,
    cookie: Option<string>, authorization: Option<string>, userAgent: Option<string>)
    requires SessionOutcome(agents, signer, config, cookie, authorization, userAgent).Ok?
    ensures var token := ExtractToken(cookie, authorization);
      Truthy(token) && signer.verify(token.value, config.accessSecret).Ok? &&
      GetModelByRole(signer.verify(token.value, config.accessSecret).value.role).Ok? &&
      exists i :: 0 <= i < |agents| &&
        SessionOutcome(agents, signer, config, cookie, authorization, userAgent) == Ok(agents[i]) &&
        ObjectIdText(agents[i].id) == signer.verify(token.value, config.accessSecret).value.id
  {
    var token := ExtractToken(cookie, authorization);
    var decoded := signer.verify(token.value, config.accessSecret).value;
    var found := FindById(agents, decoded.id);
    assert found.Ok? && found.value.Some?;
    var i := found.value.value;
    assert SessionOutcome(agents, signer, config, cookie, authorization, userAgent) == Ok(agents[i]);
  }

  /**
   * Round trip: an access token issued for a stored agent, under a role that resolves to Agent, brings
   * that same agent back, whether it comes in the cookie or as `Bearer <token>`.
   */
  lemma IssuedTokenAuthenticates(
    agents: seq<Agent>, nextId: nat, signer: Signer, config: Config, k: nat,
    input: TokenInput, authorization: Option<string>, userAgent: Option<string>)
    requires WellFormed(agents, nextId) && k < |agents|
    requires IdText(input.id) == ObjectIdText(agents[k].id)
    requires Normalize(input.role) == Lower(AGENT)
    requires RoundTrips(signer, config.accessSecret, config.accessExpiry)
    requires GenerateAccessToken(signer, config, input).Ok?
    requires GenerateAccessToken(signer, config, input).value != ""
    ensures var token := GenerateAccessToken(signer, config, input).value;
      SessionOutcome(agents, signer, config, Some(token), authorization, userAgent) == Ok(agents[k]) &&
      (' ' !in token ==> SessionOutcome(agents, signer, config, None, Some("Bearer " + token), userAgent) == Ok(agents[k]))
  {
    var token := GenerateAccessToken(signer, config, input).value;
    AccessTokenRoundTrip(signer, config, input);
    VerifiedTokenAuthenticates(agents, nextId, signer, config, k, token, ClaimsOf(input), Some(token), authorization, userAgent);
    if ' ' !in token {
      HeaderToken("Bearer", token);
      assert "Bearer" + " " + token == "Bearer " + token;
      VerifiedTokenAuthenticates(agents, nextId, signer, config, k, token, ClaimsOf(input), None, Some("Bearer " + token), userAgent);
    }
  }

  /** A request carrying a token that verifies to a stored agent's id, with the agent role, authenticates that agent. */
  lemma VerifiedTokenAuthenticates(
    agents: seq<Agent>, nextId: nat, signer: Signer, config: Config, k: nat, token: string, claims: Claims,
    cookie: Option<string>, authorization: Option<string>, userAgent: Option<string>)
    requires WellFormed(agents, nextId) && k < |agents|
    requires token != "" && ExtractToken(cookie, authorization) == Some(token)
    requires signer.verify(token, config.accessSecret) == Ok(claims)
    requires claims.id == ObjectIdText(agents[k].id) && Normalize(claims.role) == Lower(AGENT)
    ensures SessionOutcome(agents, signer, config, cookie, authorization, userAgent) == Ok(agents[k])
  {
    FindByIdOfStored(agents, nextId, k);
  }

  /** The Express request as the middleware sees it, and what it does to it. */
  class Request {
    /** `req.user` */
    var user: Option<Agent>
    /** How many times `next()` has been called for this request. */
    var nextCalls: nat

    constructor ()
      ensures user == None && nextCalls == 0
    {
      user := None;
      nextCalls := 0;
    }
  }

  /**
   * `verifyJwt(req, res, next)` wrapped in `asyncHandler`: on success `req.user` is set and `next` is called
   * once; otherwise the error response is written and `req` is left as it was.
   */
  method VerifyJwt(
    req: Request, agentStore: AgentStore, signer: Signer, config: Config,
    cookie: Option<string>, authorization: Option<string>, userAgent: Option<string>)
    returns (answered: Option<ErrorReply>)
    modifies req
    ensures match SessionOutcome(agentStore.agents, signer, config, cookie, authorization, userAgent)
      case Ok(u) => answered == None && req.user == Some(u) && req.nextCalls == old(req.nextCalls) + 1
      case Err(t) => answered == Some(HandleError(t)) && req.user == old(req.user) && req.nextCalls == old(req.nextCalls)
  {
    ghost var outcome := SessionOutcome(agentStore.agents, signer, config, cookie, authorization, userAgent);
    var token := ExtractToken(cookie, authorization);
    if !Truthy(token) {
      assert outcome == Err(MISSING_TOKEN);
      return Some(HandleError(MISSING_TOKEN));
    }
    var decoded := signer.verify(token.value, config.accessSecret);
    if decoded.Err? {
      assert outcome == Err(Raised(decoded.error));
      return Some(HandleError(Raised(decoded.error)));
    }
    var isSameDevice := userAgent == decoded.value.deviceInfo;
    var model := GetModelByRole(decoded.value.role);
    if model.Err? {
      assert outcome == Err(model.error);
      return Some(HandleError(model.error));
    }
    var found := FindById(agentStore.agents, decoded.value.id);
    if found.Err? {
      assert outcome == Err(found.error);
      return Some(HandleError(found.error));
    }
    if found.value.None? {
      assert outcome == Err(INVALID_TOKEN);
      return Some(HandleError(INVALID_TOKEN));
    }
    assert outcome == Ok(agentStore.agents[found.value.value]);
    req.user := Some(agentStore.agents[found.value.value]);
    req.nextCalls := req.nextCalls + 1;
    answered := None;
  }
}
