/**
 * `generateAccessToken` and `generateRefreshToken` (src/controllers/auth/utils/generate_tokens.ts)
 * and the RefreshToken collection (src/models/tokens/refresh_token.model.ts).
 * `jsonwebtoken` is a parameter: a signer whose `sign` and `verify` are any functions.
 */
module Tokens {
  import opened Wrappers
  import opened Text
  import opened Seqs
  import opened Envelope
  import opened Users

  /** The environment variables the core reads. */
  datatype Config = Config(
    accessSecret: Option<string>,   // ACCESS_TOKEN_SECRET
    accessExpiry: Option<string>,   // ACCESS_TOKEN_EXPIRY
    refreshSecret: Option<string>,  // REFRESH_TOKEN_SECRET
    refreshExpiry: Option<string>,  // REFRESH_TOKEN_SECRET_EXPIRY
    nodeEnv: Option<string>)        // NODE_ENV

  /** `IToken`, as a controller builds it: the id is still an ObjectId or already a string. */
  datatype TokenInput = TokenInput(id: Id, role: string, deviceInfo: Option<string>)

  /** The JWT payload `{id, role, deviceInfo}`, with the id as JSON writes it. */
  datatype Claims = Claims(id: string, role: string, deviceInfo: Option<string>)

  function ClaimsOf(input: TokenInput): (c: Claims)
    ensures c.id == IdText(input.id) && c.role == input.role && c.deviceInfo == input.deviceInfo
  {
    Claims(IdText(input.id), input.role, input.deviceInfo)
  }

  /** `jwt.sign(payload, secret, {expiresIn})` and `jwt.verify(token, secret)`. */
  datatype Signer = Signer(
    sign: (Claims, Option<string>, Option<string>) -> Result<string, JsError>,
    verify: (string, Option<string>) -> Result<Claims, JsError>)

  /** A token signed with `secret` verifies with `secret` to the claims it was signed with. */
  ghost predicate RoundTrips(signer: Signer, secret: Option<string>, expiry: Option<string>)
  {
    forall c: Claims, t: string {:trigger signer.sign(c, secret, expiry), signer.verify(t, secret)} ::
      signer.sign(c, secret, expiry) == Ok(t) ==> signer.verify(t, secret) == Ok(c)
  }

  const ACCESS_PREFIX: string := "Something Went Wrong While Generating Access Token: "
  const REFRESH_PREFIX: string := "Something went wrong while generating the refresh token: "
  const REFRESH_CONFIG_MISSING: string := "Refresh token secret or expiry time not defined"

  /** `generateAccessToken(payload)` */
  function GenerateAccessToken(signer: Signer, config: Config, input: TokenInput): (r: Result<string, Thrown>)
    ensures r.Ok? <==> signer.sign(ClaimsOf(input), config.accessSecret, config.accessExpiry).Ok?
    ensures r.Ok? ==> signer.sign(ClaimsOf(input), config.accessSecret, config.accessExpiry) == Ok(r.value)
    ensures r.Err? ==> (r.error.ApiFailure? && r.error.e.statusCode == 500 &&
      r.error.e.message == ACCESS_PREFIX + ErrorString(signer.sign(ClaimsOf(input), config.accessSecret, config.accessExpiry).error))
  {
    match signer.sign(ClaimsOf(input), config.accessSecret, config.accessExpiry)
    case Ok(token) => Ok(token)
    case Err(e) => Err(ApiFailure(NewApiError(Some(ACCESS_PREFIX + ErrorString(e)), Some(500), None)))
  }

  /** An access token verifies, with the access secret, to the payload it was made from. */
  lemma AccessTokenRoundTrip(signer: Signer, config: Config, input: TokenInput)
    requires RoundTrips(signer, config.accessSecret, config.accessExpiry)
    requires GenerateAccessToken(signer, config, input).Ok?
    ensures signer.verify(GenerateAccessToken(signer, config, input).value, config.accessSecret) == Ok(ClaimsOf(input))
  {
    var t := GenerateAccessToken(signer, config, input).value;
    assert signer.sign(ClaimsOf(input), config.accessSecret, config.accessExpiry) == Ok(t);
  }

  /** A RefreshToken document. */
  datatype RefreshRecord = RefreshRecord(role: string, userId: Id, deviceInfo: string, token: string, createdAt: int, updatedAt: int)

  /** `RefreshToken.create({token, userId, role, deviceInfo})` at time `now`: every path is required. */
  /** The required-path failures of a RefreshToken document, in schema order. */
  function RecordFailures(token: string, role: string, deviceInfo: Option<string>): seq<(string, string)>
  {
    (if role != "" then [] else [("role", RequiredMessage("role"))]) +
    (if Truthy(deviceInfo) then [] else [("deviceInfo", RequiredMessage("deviceInfo"))]) +
    (if token != "" then [] else [("token", RequiredMessage("token"))])
  }

  function CreateRefreshRecord(token: string, userId: Id, role: string, deviceInfo: Option<string>, now: int): (r: Result<RefreshRecord, Thrown>)
    ensures r.Ok? <==> role != "" && Truthy(deviceInfo) && token != ""
    ensures r.Ok? ==> r.value == RefreshRecord(role, userId, deviceInfo.value, token, now, now)
    ensures r.Err? ==> (r.error.SchemaInvalid? &&
      r.error.paths == (if role != "" then [] else ["role"]) + (if Truthy(deviceInfo) then [] else ["deviceInfo"]) +
                       (if token != "" then [] else ["token"]))
  {
    var failures := RecordFailures(token, role, deviceInfo);
    if failures != [] then
      var t := SchemaFailure("RefreshToken", failures);
      assert t.paths == (if role != "" then [] else ["role"]) + (if Truthy(deviceInfo) then [] else ["deviceInfo"]) +
                        (if token != "" then [] else ["token"]);
      Err(t)
    else
      Ok(RefreshRecord(role, userId, deviceInfo.value, token, now, now))
  }

  /** The ApiError the refresh-token `catch` rethrows. */
  function RefreshFailure(message: string): (t: Thrown)
    ensures t.ApiFailure? && t.e.statusCode == 500 && t.e.message == REFRESH_PREFIX + message
  {
    ApiFailure(NewApiError(Some(REFRESH_PREFIX + message), Some(500), None))
  }

  /** What `generateRefreshToken(payload)` returns or throws and what it leaves in the RefreshToken collection. */
  function IssueRefreshToken(signer: Signer, config: Config, records: seq<RefreshRecord>, input: TokenInput, now: int): (Result<string, Thrown>, seq<RefreshRecord>)
  {
    if !Truthy(config.refreshSecret) || !Truthy(config.refreshExpiry) then
      (Err(RefreshFailure(REFRESH_CONFIG_MISSING)), records)
    else match signer.sign(ClaimsOf(input), config.refreshSecret, config.refreshExpiry)
      case Err(e) => (Err(RefreshFailure(e.message)), records)
      case Ok(token) =>
        match CreateRefreshRecord(token, input.id, input.role, input.deviceInfo, now)
        case Err(t) => (Err(RefreshFailure(MessageOf(t))), records)
        case Ok(rec) => (Ok(token), records + [rec])
  }

  /** Every failure is a 500 ApiError with the refresh prefix, and it leaves the collection unchanged. */
  lemma RefreshFailureShape(signer: Signer, config: Config, records: seq<RefreshRecord>, input: TokenInput, now: int)
    ensures var out := IssueRefreshToken(signer, config, records, input, now);
      out.0.Err? ==> (out.1 == records && out.0.error.ApiFailure? && out.0.error.e.statusCode == 500 &&
        REFRESH_PREFIX <= out.0.error.e.message)
  {
  }

  /** Without a secret or an expiry nothing is signed or stored. */
  lemma RefreshNeedsConfig(signer: Signer, config: Config, records: seq<RefreshRecord>, input: TokenInput, now: int)
    requires !Truthy(config.refreshSecret) || !Truthy(config.refreshExpiry)
    ensures IssueRefreshToken(signer, config, records, input, now) ==
      (Err(RefreshFailure(REFRESH_CONFIG_MISSING)), records)
  {
  }

  /** Without a User-Agent the signed token cannot be stored, so the call fails with the validation message. */
  lemma RefreshNeedsDevice(signer: Signer, config: Config, records: seq<RefreshRecord>, input: TokenInput, now: int)
    requires Truthy(config.refreshSecret) && Truthy(config.refreshExpiry)
    requires input.role != "" && !Truthy(input.deviceInfo)
    requires signer.sign(ClaimsOf(input), config.refreshSecret, config.refreshExpiry).Ok?
    requires signer.sign(ClaimsOf(input), config.refreshSecret, config.refreshExpiry).value != ""
    ensures IssueRefreshToken(signer, config, records, input, now) ==
      (Err(RefreshFailure("RefreshToken" + " validation failed: " + "deviceInfo" + ": " + RequiredMessage("deviceInfo"))), records)
  {
    var token := signer.sign(ClaimsOf(input), config.refreshSecret, config.refreshExpiry).value;
    MissingDeviceMessage(token, input.id, input.role, input.deviceInfo, now);
  }

  /** A record without a device fails validation on the `deviceInfo` path alone. */
  lemma MissingDeviceMessage(token: string, userId: Id, role: string, deviceInfo: Option<string>, now: int)
    requires role != "" && !Truthy(deviceInfo) && token != ""
    ensures CreateRefreshRecord(token, userId, role, deviceInfo, now).Err?
    ensures MessageOf(CreateRefreshRecord(token, userId, role, deviceInfo, now).error) ==
      "RefreshToken" + " validation failed: " + "deviceInfo" + ": " + RequiredMessage("deviceInfo")
  {
    var failures := [("deviceInfo", RequiredMessage("deviceInfo"))];
    assert RecordFailures(token, role, deviceInfo) == failures;
    assert CreateRefreshRecord(token, userId, role, deviceInfo, now) == Err(SchemaFailure("RefreshToken", failures));
  }

  /** A successful call appends exactly one record, holding the returned token, the raw id, the role and the device. */
  lemma RefreshSuccessAppends(signer: Signer, config: Config, records: seq<RefreshRecord>, input: TokenInput, now: int)
    requires IssueRefreshToken(signer, config, records, input, now).0.Ok?
    ensures var (r, after) := IssueRefreshToken(signer, config, records, input, now);
      Truthy(input.deviceInfo) && after == records + [RefreshRecord(input.role, input.id, input.deviceInfo.value, r.value, now, now)]
  {
  }

  /**
   * A successful call stores exactly one record holding the token, the raw id, the role and the device,
   * and the token verifies with the refresh secret to the payload.
   */
  lemma RefreshStoresToken(signer: Signer, config: Config, records: seq<RefreshRecord>, input: TokenInput, now: int)
    requires RoundTrips(signer, config.refreshSecret, config.refreshExpiry)
    requires IssueRefreshToken(signer, config, records, input, now).0.Ok?
    ensures var (r, after) := IssueRefreshToken(signer, config, records, input, now);
      after == records + [RefreshRecord(input.role, input.id, input.deviceInfo.value, r.value, now, now)] &&
      signer.verify(r.value, config.refreshSecret) == Ok(ClaimsOf(input))
  {
    var t := IssueRefreshToken(signer, config, records, input, now).0.value;
    assert signer.sign(ClaimsOf(input), config.refreshSecret, config.refreshExpiry) == Ok(t);
  }

  /**
   * The tail both login controllers share: the access token, then the refresh token and its record.
   * A failure of either leaves the collection as it was; a success stores exactly one record.
   */
  function IssueSessionTokens(signer: Signer, config: Config, records: seq<RefreshRecord>, input: TokenInput, now: int)
    : (r: (Result<(string, string), Thrown>, seq<RefreshRecord>))
    ensures r.0.Err? ==> r.1 == records
    ensures r.0.Ok? ==> (Truthy(input.deviceInfo) &&
      GenerateAccessToken(signer, config, input) == Ok(r.0.value.0) &&
      IssueRefreshToken(signer, config, records, input, now).0 == Ok(r.0.value.1) &&
      r.1 == records + [RefreshRecord(input.role, input.id, input.deviceInfo.value, r.0.value.1, now, now)])
  {
    match GenerateAccessToken(signer, config, input)
    case Err(e) => (Err(e), records)
    case Ok(access) =>
      var (issued, records') := IssueRefreshToken(signer, config, records, input, now);
      match issued
      case Err(e) => (Err(e), records')
      case Ok(refresh) =>
        RefreshSuccessAppends(signer, config, records, input, now);
        (Ok((access, refresh)), records')
  }

  function UserFilter(userId: Id): RefreshRecord -> bool
  {
    (r: RefreshRecord) => r.userId == userId
  }

  /** The RefreshToken collection. */
  class RefreshStore {
    var records: seq<RefreshRecord>

    constructor ()
      ensures records == []
    {
      records := [];
    }

    /** `RefreshToken.create` of a validated record. */
    method Insert(rec: RefreshRecord)
      modifies this
      ensures records == old(records) + [rec]
    {
      records := records + [rec];
    }

    /** `RefreshToken.deleteOne({userId})`: the first record with exactly that id, if any. */
    method DeleteOne(userId: Id)
      modifies this
      ensures records == RemoveFirst(old(records), UserFilter(userId))
    {
      var i := FirstWhere(records, UserFilter(userId));
      if i.Some? {
        RemoveFirstIsRemoveAt(records, UserFilter(userId));
        records := RemoveAt(records, i.value);
      } else {
        RemoveFirstNoMatch(records, UserFilter(userId));
      }
    }
  }

  /** `generateRefreshToken(payload)` on the store at time `now`. */
  method GenerateRefreshToken(signer: Signer, config: Config, store: RefreshStore, input: TokenInput, now: int)
    returns (r: Result<string, Thrown>)
    modifies store
    ensures (r, store.records) == IssueRefreshToken(signer, config, old(store.records), input, now)
  {
    if !Truthy(config.refreshSecret) || !Truthy(config.refreshExpiry) {
      return Err(RefreshFailure(REFRESH_CONFIG_MISSING));
    }
    var signed := signer.sign(ClaimsOf(input), config.refreshSecret, config.refreshExpiry);
    if signed.Err? {
      return Err(RefreshFailure(signed.error.message));
    }
    var created := CreateRefreshRecord(signed.value, input.id, input.role, input.deviceInfo, now);
    if created.Err? {
      return Err(RefreshFailure(MessageOf(created.error)));
    }
    store.Insert(created.value);
    r := Ok(signed.value);
  }

  /** The access token, then the refresh token stored in the collection: the tail of both login controllers. */
  method IssueSession(signer: Signer, config: Config, store: RefreshStore, input: TokenInput, now: int)
    returns (r: Result<(string, string), Thrown>)
    modifies store
    ensures (r, store.records) == IssueSessionTokens(signer, config, old(store.records), input, now)
  {
    var access := GenerateAccessToken(signer, config, input);
    if access.Err? {
      return Err(access.error);
    }
    var refresh := GenerateRefreshToken(signer, config, store, input, now);
    if refresh.Err? {
      return Err(refresh.error);
    }
    r := Ok((access.value, refresh.value));
  }
}
