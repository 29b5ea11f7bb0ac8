/**
 * The authentication controllers: `loginUser` (src/controllers/auth/login_user.ts),
 * `loginAgent` (src/controllers/auth/login_agent.ts), `logoutUser` (src/controllers/auth/logout_user.ts)
 * and `registerAgent` with its rules (src/controllers/auth/register_agent.ts).
 * Each controller is a method over the stores, proved equal to an outcome function; the lemmas are
 * about the outcome functions.
 */
module Auth {
  import opened Wrappers
  import opened Text
  import opened Seqs
  import opened Envelope
  import opened Roles
  import opened Otp
  import opened Users
  import opened Tokens

  const ROLE_REQUIRED: Thrown := ApiFailure(NewApiError(Some("Role is required"), Some(400), None))
  const PHONE_OR_EMAIL_REQUIRED: Thrown := ApiFailure(NewApiError(Some("Phone or email is required"), Some(400), None))
  const USER_NOT_FOUND: Thrown := ApiFailure(NewApiError(Some("User does not exist"), Some(303), None))
  const LOGGED_IN: string := "User logged in successfully"

  /** The login request body. */
  datatype LoginBody = LoginBody(phone: Option<string>, email: Option<string>, otp: Option<string>)

  /** `{accessToken, refreshToken, user, role}` */
  datatype UserSession = UserSession(accessToken: string, refreshToken: string, user: Agent, role: string)

  /** `{accessToken, refreshToken, user}` */
  datatype AgentSession = AgentSession(accessToken: string, refreshToken: string, user: Agent)

  /** `{}` */
  datatype Empty = Empty

  /** Both cookies, refresh first, `httpOnly`, `secure` unless NODE_ENV is 'development'. */
  function SessionCookies(config: Config, access: string, refresh: string): (cs: seq<Cookie>)
    ensures |cs| == 2 && cs[0].SetCookie? && cs[1].SetCookie?
    ensures cs[0].name == "refreshToken" && cs[0].value == refresh
    ensures cs[1].name == "accessToken" && cs[1].value == access
    ensures forall i :: 0 <= i < 2 ==> cs[i].httpOnly && (cs[i].secure <==> config.nodeEnv != Some("development"))
  {
    var secure := config.nodeEnv != Some("development");
    [SetCookie("refreshToken", refresh, true, secure), SetCookie("accessToken", access, true, secure)]
  }

  // -------------------------------------------------------------- loginUser

  /** What `loginUser` answers and what it leaves in the Otp and RefreshToken collections. */
  function LoginUserOutcome(
    otps: seq<OtpRecord>, agents: seq<Agent>, refreshes: seq<RefreshRecord>, signer: Signer, config: Config,
    role: Option<string>, body: LoginBody, userAgent: Option<string>, now: int)
    : (Result<Reply<UserSession>, Thrown>, seq<OtpRecord>, seq<RefreshRecord>)
  {
    if !Truthy(role) then (Err(ROLE_REQUIRED), otps, refreshes)
    else if !Truthy(body.phone) && !Truthy(body.email) then (Err(PHONE_OR_EMAIL_REQUIRED), otps, refreshes)
    else
      var (verified, otps') := ConsumeOtp(otps, body.phone, body.otp, now);
      if verified.Err? then (Err(verified.error), otps', refreshes)
      else
        var (r, refreshes') := UserSessionOutcome(agents, refreshes, signer, config, role.value, body, userAgent, now);
        (r, otps', refreshes')
  }

  /** What `loginUser` does once the OTP has been accepted: resolve the role, find the user, issue the tokens. */
  function UserSessionOutcome(
    agents: seq<Agent>, refreshes: seq<RefreshRecord>, signer: Signer, config: Config,
    role: string, body: LoginBody, userAgent: Option<string>, now: int)
    : (Result<Reply<UserSession>, Thrown>, seq<RefreshRecord>)
  {
    if GetModelByRole(role).Err? then (Err(GetModelByRole(role).error), refreshes)
    else match FindByEmailOrPhone(agents, body.email, body.phone)
      case None => (Err(USER_NOT_FOUND), refreshes)
      case Some(i) =>
        var input := TokenInput(Oid(agents[i].id), role, userAgent);
        var (tokens, refreshes') := IssueSessionTokens(signer, config, refreshes, input, now);
        match tokens
        case Err(e) => (Err(e), refreshes')
        case Ok((access, refresh)) =>
          (Ok(Reply(200, SessionCookies(config, access, refresh),
             NewApiResponse(UserSession(access, refresh, agents[i], role), LOGGED_IN, Some(200)))),
           refreshes')
  }

  /** A missing role is the first check: nothing changes. */
  lemma LoginUserNeedsRole(
    otps: seq<OtpRecord>, agents: seq<Agent>, refreshes: seq<RefreshRecord>, signer: Signer, config: Config,
    role: Option<string>, body: LoginBody, userAgent: Option<string>, now: int)
    requires !Truthy(role)
    ensures LoginUserOutcome(otps, agents, refreshes, signer, config, role, body, userAgent, now) ==
      (Err(ROLE_REQUIRED), otps, refreshes)
  {
  }

  /** With neither phone nor email nothing is looked up and nothing changes. */
  lemma LoginUserNeedsPhoneOrEmail(
    otps: seq<OtpRecord>, agents: seq<Agent>, refreshes: seq<RefreshRecord>, signer: Signer, config: Config,
    role: Option<string>, body: LoginBody, userAgent: Option<string>, now: int)
    requires Truthy(role) && !Truthy(body.phone) && !Truthy(body.email)
    ensures LoginUserOutcome(otps, agents, refreshes, signer, config, role, body, userAgent, now) ==
      (Err(PHONE_OR_EMAIL_REQUIRED), otps, refreshes)
  {
  }

  /** The OTP is checked against the phone; a failed check propagates and changes nothing. */
  lemma LoginUserOtpFailure(
    otps: seq<OtpRecord>, agents: seq<Agent>, refreshes: seq<RefreshRecord>, signer: Signer, config: Config,
    role: Option<string>, body: LoginBody, userAgent: Option<string>, now: int)
    requires Truthy(role) && (Truthy(body.phone) || Truthy(body.email))
    requires ConsumeOtp(otps, body.phone, body.otp, now).0.Err?
    ensures LoginUserOutcome(otps, agents, refreshes, signer, config, role, body, userAgent, now) ==
      (Err(INVALID_OTP), otps, refreshes)
  {
    ConsumeOutcomes(otps, body.phone, body.otp, now);
  }

  /** An email-only login always fails the OTP check, whatever the stores hold. */
  lemma LoginUserEmailOnlyFails(
    otps: seq<OtpRecord>, agents: seq<Agent>, refreshes: seq<RefreshRecord>, signer: Signer, config: Config,
    role: Option<string>, email: string, otp: Option<string>, userAgent: Option<string>, now: int)
    requires Truthy(role) && email != ""
    ensures LoginUserOutcome(otps, agents, refreshes, signer, config, role, LoginBody(None, Some(email), otp), userAgent, now) ==
      (Err(INVALID_OTP), otps, refreshes)
  {
  }

  /** An invalid role or a missing user is only found after the OTP record has been deleted. */
  lemma LoginUserBurnsOtp(
    otps: seq<OtpRecord>, agents: seq<Agent>, refreshes: seq<RefreshRecord>, signer: Signer, config: Config,
    role: Option<string>, body: LoginBody, userAgent: Option<string>, now: int)
    requires Truthy(role) && (Truthy(body.phone) || Truthy(body.email))
    requires ConsumeOtp(otps, body.phone, body.otp, now).0.Ok?
    requires GetModelByRole(role.value).Err? || FindByEmailOrPhone(agents, body.email, body.phone).None?
    ensures var out := LoginUserOutcome(otps, agents, refreshes, signer, config, role, body, userAgent, now);
      out.0.Err? && out.2 == refreshes && |out.1| == |otps| - 1 &&
      out.0.error == (if GetModelByRole(role.value).Err? then GetModelByRole(role.value).error else USER_NOT_FOUND)
  {
  }

  /**
   * A successful login found a user by email or phone after consuming the OTP, added exactly one refresh
   * record for (user id, role, user agent), set both cookies and answered 200 with the session.
   */
  lemma LoginUserSuccess(
    otps: seq<OtpRecord>, agents: seq<Agent>, refreshes: seq<RefreshRecord>, signer: Signer, config: Config,
    role: Option<string>, body: LoginBody, userAgent: Option<string>, now: int)
    requires LoginUserOutcome(otps, agents, refreshes, signer, config, role, body, userAgent, now).0.Ok?
    ensures var (r, otps', refreshes') := LoginUserOutcome(otps, agents, refreshes, signer, config, role, body, userAgent, now);
      var s := r.value.body.data;
      Truthy(role) && GetModelByRole(role.value).Ok? && Truthy(userAgent) &&
      otps' == ConsumeOtp(otps, body.phone, body.otp, now).1 && |otps'| == |otps| - 1 &&
      FindByEmailOrPhone(agents, body.email, body.phone).Some? &&
      s.user == agents[FindByEmailOrPhone(agents, body.email, body.phone).value] &&
      refreshes' == refreshes + [RefreshRecord(role.value, Oid(s.user.id), userAgent.value, s.refreshToken, now, now)] &&
      r.value == Reply(200, SessionCookies(config, s.accessToken, s.refreshToken),
                       ApiResponse(200, UserSession(s.accessToken, s.refreshToken, s.user, role.value), LOGGED_IN, true))
  {
    var consumed := ConsumeOtp(otps, body.phone, body.otp, now);
    assert consumed.0.Ok?;
    ConsumeOutcomes(otps, body.phone, body.otp, now);
    var session := UserSessionOutcome(agents, refreshes, signer, config, role.value, body, userAgent, now);
    assert LoginUserOutcome(otps, agents, refreshes, signer, config, role, body, userAgent, now) ==
      (session.0, consumed.1, session.1);
    UserSessionSuccess(agents, refreshes, signer, config, role.value, body, userAgent, now);
  }

  /** After the OTP check, a success resolved the role, found the user and stored exactly one refresh record. */
  lemma UserSessionSuccess(
    agents: seq<Agent>, refreshes: seq<RefreshRecord>, signer: Signer, config: Config,
    role: string, body: LoginBody, userAgent: Option<string>, now: int)
    requires UserSessionOutcome(agents, refreshes, signer, config, role, body, userAgent, now).0.Ok?
    ensures var (r, refreshes') := UserSessionOutcome(agents, refreshes, signer, config, role, body, userAgent, now);
      var s := r.value.body.data;
      GetModelByRole(role).Ok? && Truthy(userAgent) && FindByEmailOrPhone(agents, body.email, body.phone).Some? &&
      s.user == agents[FindByEmailOrPhone(agents, body.email, body.phone).value] &&
      refreshes' == refreshes + [RefreshRecord(role, Oid(s.user.id), userAgent.value, s.refreshToken, now, now)] &&
      r.value == Reply(200, SessionCookies(config, s.accessToken, s.refreshToken),
                       ApiResponse(200, UserSession(s.accessToken, s.refreshToken, s.user, role), LOGGED_IN, true))
  {
    var i := FindByEmailOrPhone(agents, body.email, body.phone).value;
    var input := TokenInput(Oid(agents[i].id), role, userAgent);
    var tokens := IssueSessionTokens(signer, config, refreshes, input, now);
    assert tokens.0.Ok?;
    var (access, refresh) := tokens.0.value;
    assert UserSessionOutcome(agents, refreshes, signer, config, role, body, userAgent, now) ==
      (Ok(Reply(200, SessionCookies(config, access, refresh),
         NewApiResponse(UserSession(access, refresh, agents[i], role), LOGGED_IN, Some(200)))),
       tokens.1);
  }

  /** `loginUser` on the stores. */
  method LoginUser(
    otpStore: OtpStore, agentStore: AgentStore, refreshStore: RefreshStore, signer: Signer, config: Config,
    role: Option<string>, body: LoginBody, userAgent: Option<string>, now: int)
    returns (r: Result<Reply<UserSession>, Thrown>)
    modifies otpStore, refreshStore
    ensures (r, otpStore.records, refreshStore.records) ==
      LoginUserOutcome(old(otpStore.records), agentStore.agents, old(refreshStore.records), signer, config, role, body, userAgent, now)
  {
    if !Truthy(role) {
      return Err(ROLE_REQUIRED);
    }
    if !Truthy(body.phone) && !Truthy(body.email) {
      return Err(PHONE_OR_EMAIL_REQUIRED);
    }
    var verified := VerifyOtp(otpStore, body.phone, body.otp, now);
    if verified.Err? {
      return Err(verified.error);
    }
    r := StartUserSession(agentStore, refreshStore, signer, config, role.value, body, userAgent, now);
  }

  /** `loginUser` after the OTP check: resolve the role, find the user and issue the tokens. */
  method StartUserSession(
    agentStore: AgentStore, refreshStore: RefreshStore, signer: Signer, config: Config,
    role: string, body: LoginBody, userAgent: Option<string>, now: int)
    returns (r: Result<Reply<UserSession>, Thrown>)
    modifies refreshStore
    ensures (r, refreshStore.records) ==
      UserSessionOutcome(agentStore.agents, old(refreshStore.records), signer, config, role, body, userAgent, now)
  {
    var model := GetModelByRole(role);
    if model.Err? {
      return Err(model.error);
    }
    var found := FindByEmailOrPhone(agentStore.agents, body.email, body.phone);
    if found.None? {
      return Err(USER_NOT_FOUND);
    }
    var user := agentStore.agents[found.value];
    var input := TokenInput(Oid(user.id), role, userAgent);
    var tokens := IssueSession(signer, config, refreshStore, input, now);
    if tokens.Err? {
      return Err(tokens.error);
    }
    var (access, refresh) := tokens.value;
    r := Ok(Reply(200, SessionCookies(config, access, refresh),
      NewApiResponse(UserSession(access, refresh, user, role), LOGGED_IN, Some(200))));
  }

  // ------------------------------------------------------------- loginAgent

  /** What `loginAgent` answers and what it leaves in the Otp and RefreshToken collections. */
  function LoginAgentOutcome(
    otps: seq<OtpRecord>, agents: seq<Agent>, refreshes: seq<RefreshRecord>, signer: Signer, config: Config,
    body: LoginBody, userAgent: Option<string>, now: int)
    : (Result<Reply<AgentSession>, Thrown>, seq<OtpRecord>, seq<RefreshRecord>)
  {
    if !Truthy(body.phone) then (Err(PHONE_OR_EMAIL_REQUIRED), otps, refreshes)
    else
      var (verified, otps') := ConsumeOtp(otps, body.phone, body.otp, now);
      if verified.Err? then (Err(verified.error), otps', refreshes)
      else
        var (r, refreshes') := AgentSessionOutcome(agents, refreshes, signer, config, body.phone.value, userAgent, now);
        (r, otps', refreshes')
  }

  /** What `loginAgent` does once the OTP has been accepted: find the agent by phone, issue the tokens. */
  function AgentSessionOutcome(
    agents: seq<Agent>, refreshes: seq<RefreshRecord>, signer: Signer, config: Config,
    phone: string, userAgent: Option<string>, now: int)
    : (Result<Reply<AgentSession>, Thrown>, seq<RefreshRecord>)
  {
    match FindByPhone(agents, phone)
    case None => (Err(USER_NOT_FOUND), refreshes)
    case Some(i) =>
      var user := Projected(agents[i]);
      var input := TokenInput(Text(ObjectIdText(user.id)), AGENT, userAgent);
      var (tokens, refreshes') := IssueSessionTokens(signer, config, refreshes, input, now);
      match tokens
      case Err(e) => (Err(e), refreshes')
      case Ok((access, refresh)) =>
        (Ok(Reply(200, SessionCookies(config, access, refresh),
           NewApiResponse(AgentSession(access, refresh, user), LOGGED_IN, Some(200)))),
         refreshes')
  }

  /** A missing phone changes nothing. */
  lemma LoginAgentNeedsPhone(
    otps: seq<OtpRecord>, agents: seq<Agent>, refreshes: seq<RefreshRecord>, signer: Signer, config: Config,
    body: LoginBody, userAgent: Option<string>, now: int)
    requires !Truthy(body.phone)
    ensures LoginAgentOutcome(otps, agents, refreshes, signer, config, body, userAgent, now) ==
      (Err(PHONE_OR_EMAIL_REQUIRED), otps, refreshes)
  {
  }

  /** A failed OTP check propagates: no lookup, no token, nothing changes. */
  lemma LoginAgentOtpFailure(
    otps: seq<OtpRecord>, agents: seq<Agent>, refreshes: seq<RefreshRecord>, signer: Signer, config: Config,
    body: LoginBody, userAgent: Option<string>, now: int)
    requires Truthy(body.phone) && ConsumeOtp(otps, body.phone, body.otp, now).0.Err?
    ensures LoginAgentOutcome(otps, agents, refreshes, signer, config, body, userAgent, now) ==
      (Err(INVALID_OTP), otps, refreshes)
  {
    ConsumeOutcomes(otps, body.phone, body.otp, now);
  }

  /** An unknown phone is answered 303 only after the OTP record has been deleted. */
  lemma LoginAgentBurnsOtp(
    otps: seq<OtpRecord>, agents: seq<Agent>, refreshes: seq<RefreshRecord>, signer: Signer, config: Config,
    body: LoginBody, userAgent: Option<string>, now: int)
    requires Truthy(body.phone) && ConsumeOtp(otps, body.phone, body.otp, now).0.Ok?
    requires forall j :: 0 <= j < |agents| ==> agents[j].phone != body.phone.value
    ensures var out := LoginAgentOutcome(otps, agents, refreshes, signer, config, body, userAgent, now);
      out.0 == Err(USER_NOT_FOUND) && out.2 == refreshes && |out.1| == |otps| - 1
  {
  }

  /**
   * A successful agent login answers the projected agent with that phone, keyed in the payload by the text
   * of its id with the agent role, and adds exactly one refresh record holding that text id.
   */
  lemma LoginAgentSuccess(
    otps: seq<OtpRecord>, agents: seq<Agent>, refreshes: seq<RefreshRecord>, signer: Signer, config: Config,
    body: LoginBody, userAgent: Option<string>, now: int)
    requires LoginAgentOutcome(otps, agents, refreshes, signer, config, body, userAgent, now).0.Ok?
    ensures var (r, otps', refreshes') := LoginAgentOutcome(otps, agents, refreshes, signer, config, body, userAgent, now);
      var s := r.value.body.data;
      Truthy(body.phone) && |otps'| == |otps| - 1 &&
      FindByPhone(agents, body.phone.value).Some? &&
      agents[FindByPhone(agents, body.phone.value).value].phone == body.phone.value &&
      s.user == Projected(agents[FindByPhone(agents, body.phone.value).value]) &&
      s.user.createdAt.None? && s.user.updatedAt.None? &&
      refreshes' == refreshes + [RefreshRecord(AGENT, Text(ObjectIdText(s.user.id)), userAgent.value, s.refreshToken, now, now)] &&
      r.value == Reply(200, SessionCookies(config, s.accessToken, s.refreshToken),
                       ApiResponse(200, AgentSession(s.accessToken, s.refreshToken, s.user), LOGGED_IN, true))
  {
  }

  /** `loginAgent` on the stores. */
  method LoginAgent(
    otpStore: OtpStore, agentStore: AgentStore, refreshStore: RefreshStore, signer: Signer, config: Config,
    body: LoginBody, userAgent: Option<string>, now: int)
    returns (r: Result<Reply<AgentSession>, Thrown>)
    modifies otpStore, refreshStore
    ensures (r, otpStore.records, refreshStore.records) ==
      LoginAgentOutcome(old(otpStore.records), agentStore.agents, old(refreshStore.records), signer, config, body, userAgent, now)
  {
    if !Truthy(body.phone) {
      return Err(PHONE_OR_EMAIL_REQUIRED);
    }
    var verified := VerifyOtp(otpStore, body.phone, body.otp, now);
    if verified.Err? {
      return Err(verified.error);
    }
    r := StartAgentSession(agentStore, refreshStore, signer, config, body.phone.value, userAgent, now);
  }

  /** `loginAgent` after the OTP check: find the agent by phone and issue the tokens. */
  method StartAgentSession(
    agentStore: AgentStore, refreshStore: RefreshStore, signer: Signer, config: Config,
    phone: string, userAgent: Option<string>, now: int)
    returns (r: Result<Reply<AgentSession>, Thrown>)
    modifies refreshStore
    ensures (r, refreshStore.records) ==
      AgentSessionOutcome(agentStore.agents, old(refreshStore.records), signer, config, phone, userAgent, now)
  {
    var found := FindByPhone(agentStore.agents, phone);
    if found.None? {
      return Err(USER_NOT_FOUND);
    }
    var user := Projected(agentStore.agents[found.value]);
    var input := TokenInput(Text(ObjectIdText(user.id)), AGENT, userAgent);
    var tokens := IssueSession(signer, config, refreshStore, input, now);
    if tokens.Err? {
      return Err(tokens.error);
    }
    var (access, refresh) := tokens.value;
    r := Ok(Reply(200, SessionCookies(config, access, refresh),
      NewApiResponse(AgentSession(access, refresh, user), LOGGED_IN, Some(200))));
  }

  // ------------------------------------------------------------- logoutUser

  const LOGGED_OUT: Reply<Empty> :=
    Reply(200, [ClearCookie("refreshToken"), ClearCookie("accessToken")],
          NewApiResponse(Empty, "User logged out successfully", Some(200)))

  /** The RefreshToken collection after `deleteOne({userId: user._id})`. */
  function LogoutOutcome(refreshes: seq<RefreshRecord>, user: Agent): seq<RefreshRecord>
  {
    RemoveFirst(refreshes, UserFilter(Oid(user.id)))
  }

  /** Records of anyone else, or stored under another form of the id. */
  function OtherHolder(userId: Id): RefreshRecord -> bool
  {
    (r: RefreshRecord) => r.userId != userId
  }

  /**
   * Of the k records holding the user's id exactly min(k, 1) is deleted, the collection shrinks by that much,
   * and the records of every other holder stay, in order.
   */
  lemma LogoutDeletesAtMostOne(refreshes: seq<RefreshRecord>, user: Agent)
    ensures var after := LogoutOutcome(refreshes, user);
      var k := Count(refreshes, UserFilter(Oid(user.id)));
      Count(after, UserFilter(Oid(user.id))) == k - (if k > 0 then 1 else 0) &&
      |after| == |refreshes| - (if k > 0 then 1 else 0) &&
      Filter(after, OtherHolder(Oid(user.id))) == Filter(refreshes, OtherHolder(Oid(user.id)))
  {
    RemoveFirstCount(refreshes, UserFilter(Oid(user.id)));
    RemoveFirstKeepsOthers(refreshes, UserFilter(Oid(user.id)), OtherHolder(Oid(user.id)));
  }

  /** With no record for the user, logout changes nothing. */
  lemma LogoutWithoutRecord(refreshes: seq<RefreshRecord>, user: Agent)
    requires forall j :: 0 <= j < |refreshes| ==> refreshes[j].userId != Oid(user.id)
    ensures LogoutOutcome(refreshes, user) == refreshes
  {
    RemoveFirstNoMatch(refreshes, UserFilter(Oid(user.id)));
  }

  /**
   * The record `loginAgent` stores holds the id as text, and `logoutUser` deletes by the ObjectId, so
   * logging an agent out never deletes a record that `loginAgent` stored.
   */
  lemma LogoutKeepsAgentLoginRecord(
    otps: seq<OtpRecord>, agents: seq<Agent>, refreshes: seq<RefreshRecord>, signer: Signer, config: Config,
    body: LoginBody, userAgent: Option<string>, now: int)
    requires LoginAgentOutcome(otps, agents, refreshes, signer, config, body, userAgent, now).0.Ok?
    ensures var (r, _, refreshes') := LoginAgentOutcome(otps, agents, refreshes, signer, config, body, userAgent, now);
      var rec := refreshes'[|refreshes'| - 1];
      multiset(LogoutOutcome(refreshes', r.value.body.data.user))[rec] == multiset(refreshes')[rec]
  {
    var (r, _, refreshes') := LoginAgentOutcome(otps, agents, refreshes, signer, config, body, userAgent, now);
    LoginAgentSuccess(otps, agents, refreshes, signer, config, body, userAgent, now);
    var rec := refreshes'[|refreshes'| - 1];
    assert rec.userId.Text?;
    RemoveFirstKeepsRejected(refreshes', UserFilter(Oid(r.value.body.data.user.id)), rec);
  }

  /** `logoutUser` on the store, for the user `verifyJwt` attached. */
  method LogoutUser(refreshStore: RefreshStore, user: Agent) returns (r: Reply<Empty>)
    modifies refreshStore
    ensures refreshStore.records == LogoutOutcome(old(refreshStore.records), user)
    ensures r == LOGGED_OUT
    ensures r.status == 200 && r.body.success && r.body.message == "User logged out successfully"
  {
    refreshStore.DeleteOne(Oid(user.id));
    r := LOGGED_OUT;
  }

  // ---------------------------------------------------------- registerAgent

  /** The register request body. */
  datatype RegisterForm = RegisterForm(name: Option<string>, email: Option<string>, phone: Option<string>, otp: Option<string>)

  /**
   * `registerAgentValidation`, with `isEmail` and `isMobilePhone('en-IN')` as given predicates.
   * Every validator of a chain runs, so an empty email also fails `isEmail` when the predicate rejects "".
   */
  function RegisterIssues(form: RegisterForm, isEmail: string -> bool, isMobileIN: string -> bool): (r: seq<ValidationIssue>)
    ensures r == [] <==>
      Truthy(form.name) && Truthy(form.email) && isEmail(ValidatorString(FieldOf(form.email))) &&
      Truthy(form.phone) && isMobileIN(ValidatorString(FieldOf(form.phone))) && Truthy(form.otp)
  {
    var name := FieldOf(form.name);
    var email := FieldOf(form.email);
    var phone := FieldOf(form.phone);
    var otp := FieldOf(form.otp);
    NotEmptyRule("name", name, "Name is required") +
    NotEmptyRule("email", email, "Email is required") +
    Check("email", email, isEmail(ValidatorString(email)), "Invalid email") +
    NotEmptyRule("phone", phone, "Phone is required") +
    Check("phone", phone, isMobileIN(ValidatorString(phone)), "Invalid phone number") +
    NotEmptyRule("otp", otp, "OTP is required")
  }

  /** `throw new ApiResponse(400, 'Agent already exists')` */
  const AGENT_EXISTS: Thrown := ResponseThrown(NewApiResponse(Num(400), "Agent already exists", None))

  const REGISTERED: Reply<Empty> := Reply(201, [], NewApiResponse(Empty, "Agent registered", None))

  /** What `registerAgent` answers and what it leaves in the Agent collection (with the next id). */
  function RegisterOutcome(agents: seq<Agent>, nextId: nat, form: RegisterForm, isEmail: string -> bool, isMobileIN: string -> bool, now: int)
    : (Result<Reply<Empty>, Thrown>, seq<Agent>, nat)
  {
    match ValidateRequest(RegisterIssues(form, isEmail, isMobileIN))
    case Err(e) => (Err(e), agents, nextId)
    case Ok(_) =>
      if FindByEmailOrPhone(agents, form.email, form.phone).Some? then (Err(AGENT_EXISTS), agents, nextId)
      else
        var (saved, agents', nextId') := SaveAgent(agents, nextId, form.name, form.email, form.phone, now);
        if saved.Err? then (Err(saved.error), agents', nextId') else (Ok(REGISTERED), agents', nextId')
  }

  /** A form that breaks a rule is refused with the 400 'Validation failed' error before any lookup. */
  lemma RegisterInvalidForm(agents: seq<Agent>, nextId: nat, form: RegisterForm, isEmail: string -> bool, isMobileIN: string -> bool, now: int)
    requires RegisterIssues(form, isEmail, isMobileIN) != []
    ensures RegisterOutcome(agents, nextId, form, isEmail, isMobileIN, now) ==
      (Err(ValidationFailure(RegisterIssues(form, isEmail, isMobileIN))), agents, nextId)
  {
  }

  /** An agent already holding the email or the phone makes the request fail, and nothing is inserted. */
  lemma RegisterExisting(agents: seq<Agent>, nextId: nat, form: RegisterForm, isEmail: string -> bool, isMobileIN: string -> bool, now: int, j: nat)
    requires RegisterIssues(form, isEmail, isMobileIN) == []
    requires j < |agents| && (agents[j].email == form.email.value || agents[j].phone == form.phone.value)
    ensures RegisterOutcome(agents, nextId, form, isEmail, isMobileIN, now) == (Err(AGENT_EXISTS), agents, nextId)
  {
    assert EmailOrPhoneFilter(form.email, form.phone)(agents[j]);
  }

  /** The refusal is a thrown response with data 400 and status 200, which the handler answers with 500. */
  lemma AgentExistsAnswered500()
    ensures AGENT_EXISTS.r.data == Num(400) && AGENT_EXISTS.r.status == 200 && AGENT_EXISTS.r.success
    ensures HandleError(AGENT_EXISTS) == ErrorReply(500, "Agent already exists", false)
  {
  }

  /** A valid form for a new email and phone inserts exactly one agent and answers HTTP 201 with body status 200. */
  lemma RegisterNew(agents: seq<Agent>, nextId: nat, form: RegisterForm, isEmail: string -> bool, isMobileIN: string -> bool, now: int)
    requires WellFormed(agents, nextId)
    requires RegisterIssues(form, isEmail, isMobileIN) == []
    requires forall j :: 0 <= j < |agents| ==> agents[j].email != form.email.value && agents[j].phone != form.phone.value
    ensures RegisterOutcome(agents, nextId, form, isEmail, isMobileIN, now) ==
      (Ok(Reply(201, [], ApiResponse(200, Empty, "Agent registered", true))),
       agents + [Agent(nextId, form.name.value, form.email.value, form.phone.value, false, None, Active, None, Some(now), Some(now))],
       nextId + 1)
  {
    assert FindByEmailOrPhone(agents, form.email, form.phone).None?;
    assert FindByEmailOrPhone(agents, form.email, None).None? by {
      forall j | 0 <= j < |agents| ensures !EmailOrPhoneFilter(form.email, None)(agents[j]) {}
    }
    SaveAgentSpec(agents, nextId, form.name, form.email, form.phone, now);
  }

  /** Registration keeps the Agent collection well formed. */
  lemma RegisterKeepsWellFormed(agents: seq<Agent>, nextId: nat, form: RegisterForm, isEmail: string -> bool, isMobileIN: string -> bool, now: int)
    requires WellFormed(agents, nextId)
    ensures var out := RegisterOutcome(agents, nextId, form, isEmail, isMobileIN, now); WellFormed(out.1, out.2)
  {
    SaveAgentSpec(agents, nextId, form.name, form.email, form.phone, now);
  }

  /** The OTP is required but never checked: any two non-empty codes give the same outcome. */
  lemma RegisterIgnoresOtp(agents: seq<Agent>, nextId: nat, form: RegisterForm, otp: string, isEmail: string -> bool, isMobileIN: string -> bool, now: int)
    requires Truthy(form.otp) && otp != ""
    ensures RegisterOutcome(agents, nextId, form, isEmail, isMobileIN, now) ==
            RegisterOutcome(agents, nextId, form.(otp := Some(otp)), isEmail, isMobileIN, now)
  {
    var f2 := form.(otp := Some(otp));
    assert RegisterIssues(form, isEmail, isMobileIN) == [] <==> RegisterIssues(f2, isEmail, isMobileIN) == [];
    if RegisterIssues(form, isEmail, isMobileIN) != [] {
      assert NotEmptyRule("otp", FieldOf(form.otp), "OTP is required") == [];
      assert NotEmptyRule("otp", FieldOf(f2.otp), "OTP is required") == [];
      assert RegisterIssues(form, isEmail, isMobileIN) == RegisterIssues(f2, isEmail, isMobileIN);
    }
  }

  /** `registerAgent` on the Agent store. */
  method RegisterAgent(agentStore: AgentStore, form: RegisterForm, isEmail: string -> bool, isMobileIN: string -> bool, now: int)
    returns (r: Result<Reply<Empty>, Thrown>)
    requires agentStore.Valid()
    modifies agentStore
    ensures (r, agentStore.agents, agentStore.nextId) ==
      RegisterOutcome(old(agentStore.agents), old(agentStore.nextId), form, isEmail, isMobileIN, now)
    ensures agentStore.Valid()
  {
    var validated := ValidateRequest(RegisterIssues(form, isEmail, isMobileIN));
    if validated.Err? {
      return Err(validated.error);
    }
    if FindByEmailOrPhone(agentStore.agents, form.email, form.phone).Some? {
      return Err(AGENT_EXISTS);
    }
    var saved := agentStore.Save(form.name, form.email, form.phone, now);
    if saved.Err? {
      return Err(saved.error);
    }
    r := Ok(REGISTERED);
  }
}
