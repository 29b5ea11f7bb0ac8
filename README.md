# Authentication core of the cropnest backend, modelled in Dafny

This project models the core of an Express/Mongoose backend.

- **Phone/OTP login.** Issuing and verifying one-time codes over the Otp collection.
- **Role resolver.** Maps a role name to the Agent collection.
- **Token service.** Signs access and refresh tokens and records refresh tokens in the RefreshToken collection.
- **Login, logout and agent registration flows.** Run over those collections and the Agent collection.
- **Session middleware `verifyJwt`.** Attaches the authenticated user to the request.
- **Referral-code retry loop.**
- **Policy schema and `createPolicy`.**
- **Response and error envelope.** Every handler answers through it.

Design:

- Each collection is a class with a `seq` field, and the queries are functions over that sequence.
- Each controller is a method over the store objects. Its `ensures` ties what it returns and the new store contents to an outcome function.
- Lemmas about the outcome functions state the ordering of guards, the store effects and the invariants.
- The clock is an integer parameter `now`, in milliseconds.
- JWT signing and verification are a `Signer` value holding two arbitrary functions. Where a property needs it, the round trip (a token signed with a secret verifies with that secret to its payload) is a hypothesis, `Tokens.RoundTrips`.
- Thrown errors are the `Thrown` datatype. `Envelope.HandleError` maps each one to the HTTP answer that `asyncHandler` writes.

Three routes go through `verifyJwt` first: logout and `/me` (src/routes/auth/auth.routes.ts:19 and :27), and everything under `/policy` (src/app.ts:55). `createPolicy` runs after the `validateCreatePolicy` rules (src/routes/policy/policy.routes.ts:6).

Behaviour of the code that the model keeps, where the code differs from what its names, status arguments and comments suggest:

- `asyncHandler` takes the status from `error.code`, but `ApiError` stores it in `statusCode`. Every `ApiError` is therefore answered with 500. This includes 'Missing Acess Token' (401), 'Invalid Token' (401), the OTP errors (400) and 'User does not exist' (303).
- A `jwt.verify` failure propagates as a `JsonWebTokenError`/`TokenExpiredError`, which is answered with 500, not 401.
- `registerAgent` throws `new ApiResponse(400, 'Agent already exists')`. That object has `data = 400`, `status = 200` and no `code`, so a duplicate registration is answered with 500.
- Logout uses `deleteOne`. It deletes at most one refresh record of the user, not all of them.
- `loginAgent` stores the user id as a string. `logoutUser` deletes by the raw ObjectId. So logout never removes a record that `loginAgent` stored.
- The role resolver throws on an unknown role. The `|| Agent` fallback in `verifyJwt` is never taken, and an unknown role is rejected.
- The OTP sent with a registration is required by the request rules but never checked.
- A `document` requirement sent without `exampleUrl` passes the request rules and is saved, provided no stored policy already holds one of its requirement keys. The schema validator does not run on an absent (`undefined`) path.
- The requirement `key` is unique across the whole Policy collection, not only within a policy. A policy reusing a key that another stored policy holds is refused with 400 'Duplicate value for unique field(s): requirements.key'. Keys repeated inside one new policy are not refused, because a unique index compares different documents only.

## Model

| member | source | states |
|---|---|---|
| Envelope.NewApiError | src/utils/api_error.ts:6-15 | an omitted message is 'Something went wrong', an omitted status 500, an omitted error list empty; given arguments are kept; `success` is false |
| Envelope.NewApiResponse | src/utils/api_success.ts:6-10 | data and message are stored unchanged, the status defaults to 200, `success` holds iff 200 ≤ status < 300 |
| Envelope.HandleError | src/utils/asynchandler.ts:12-33 | every error body has success false; code 11000 gives 400; a ValidationError gives 400; otherwise the status is the code when truthy, else 500 |
| Envelope.HandleOutcome | src/utils/asynchandler.ts:9-11 | a handler that does not throw gets no error response; one that throws gets a failure body |
| Envelope.ApiErrorAnswered500 | src/utils/asynchandler.ts:28-33 | an `ApiError` is answered with 500 whatever its `statusCode`, with its message or 'Internal Server Error' |
| Envelope.ThrownResponseAnswered500 | src/utils/asynchandler.ts:28-33 | a thrown `ApiResponse` has no code and is answered with 500 and its message |
| Envelope.DuplicateKeyMessage | src/utils/asynchandler.ts:15-21 | the duplicate-key answer lists the `keyValue` keys joined by ', ', and takes priority over the ValidationError branch |
| Envelope.SchemaInvalidMessage | src/utils/asynchandler.ts:22-27 | a ValidationError is answered 400 listing the failing paths joined by ', ' |
| Envelope.Check | src/controllers/auth/register_agent.ts:15-16 | a `withMessage` check yields no issue iff it passes |
| Envelope.ValidateRequest | src/utils/validate_request.ts:5-19 | returns normally iff there are no issues; otherwise throws a 400 ApiError whose message is 'Validation failed: ' followed by the spaced messages joined by ', ' |
| Envelope.SpacedMessages | src/utils/validate_request.ts:16 | one piece per issue, in issue order, each ' ' + msg |
| Envelope.ValidateRequestSingle | src/utils/validate_request.ts:16-17 | one issue gives 'Validation failed:  <msg>' |
| Envelope.HandleMissingValues | src/utils/handle_missing_values.ts:1-10 | the result is no longer than the required list, and a field is in it iff it is required and its value is undefined, null or '' |
| Envelope.MissingIsSubsequence | src/utils/handle_missing_values.ts:5-10 | the result is a subsequence of the required fields, in their order |
| Envelope.MissingMultiplicity | src/utils/handle_missing_values.ts:5-10 | a missing field appears exactly as often as it is required (duplicates kept); a present one never |
| Envelope.ZeroAndFalsePresent | src/utils/handle_missing_values.ts:6-9 | 0 and false count as present |
| Text.Lower | src/controllers/auth/utils/get_model_by_role.ts:7 | each character is lower-cased on its own through the ASCII table, so the length is kept and the result is lower case |
| Text.Trim | src/controllers/auth/utils/get_model_by_role.ts:7 | trimming never lengthens and leaves no whitespace at either end |
| Text.TrimIsPiece | src/controllers/auth/utils/get_model_by_role.ts:7 | the trimmed text is a prefix of what `TrimStart` keeps (the input less its leading whitespace), and everything after that prefix is whitespace |
| Text.TrimKeepsLower | src/controllers/auth/utils/get_model_by_role.ts:7 | trimming a lower-case string leaves it lower case |
| Text.SplitThenJoin | src/middlewares/auth.middleware.ts:29 | splitting on a character and joining back gives the original string |
| Roles.GetModelByRole | src/controllers/auth/utils/get_model_by_role.ts:6-19 | succeeds iff the normalised role is lower(AGENT); lower(CUSTOMER) throws 'Customer model not implemented'; anything else throws 'Invalid role in req' |
| Roles.NormalizeIdempotent | src/controllers/auth/utils/get_model_by_role.ts:7 | normalising twice is normalising once |
| Roles.ResolveNormalized | src/controllers/auth/utils/get_model_by_role.ts:7-19 | resolving the normalised role gives the same outcome as resolving the role |
| Roles.ResolveDependsOnNormalForm | src/controllers/auth/utils/get_model_by_role.ts:7-19 | roles with the same normal form resolve alike |
| Roles.RoleKeys | src/controllers/auth/utils/get_model_by_role.ts:12-16 | both role names are already lower case, so each `case` compares with the name itself |
| Roles.AgentRoleResolves | src/controllers/auth/utils/get_model_by_role.ts:15-16 | the AGENT role is its own normal form and resolves to the Agent collection |
| Roles.UpperCaseAgent | src/controllers/auth/utils/get_model_by_role.ts:7-16 | "AGENT" resolves to the Agent collection |
| Roles.CapitalizedAgent | src/controllers/auth/utils/get_model_by_role.ts:7-16 | "Agent" resolves to the Agent collection |
| Roles.PaddedAgent | src/controllers/auth/utils/get_model_by_role.ts:7-16 | " agent " resolves to the Agent collection |
| Roles.UserRoleInvalid | src/controllers/auth/utils/get_model_by_role.ts:17-18 | the role "user" throws 'Invalid role in req' |
| Roles.InvalidRoleStatus | src/controllers/auth/utils/get_model_by_role.ts:17-18 | the invalid-role error carries the default status 500 |
| Otp.CreateOtpRecord | src/models/otp/otp.model.ts:11-29 | creation succeeds iff phone and otp are given; the expiry defaults to now + 180000; the timestamps are now; a failure names the missing paths |
| Otp.FindActive | src/controllers/otp/send_otp.ts:90-93 | finds the first record of the phone with expires > now, or reports that there is none |
| Otp.GenerateOtp | src/controllers/otp/send_otp.ts:4-10 | the code has exactly `length` characters (none for a negative length), each the decimal digit of the corresponding draw |
| Otp.FixedOtpIsSixDigits | src/controllers/otp/send_otp.ts:105-106 | the code issued is six decimal digits |
| Otp.CeilDiv | src/controllers/otp/send_otp.ts:95-97 | the integer ceiling of a quotient: the least r with r·b ≥ a |
| Otp.RemainingMinutesRange | src/controllers/otp/send_otp.ts:95-97 | for a record issued here with createdAt ≤ now < expires, the remaining minutes are 1 to 3 |
| Otp.IssueWithoutPhone | src/controllers/otp/send_otp.ts:86-88 | a missing phone fails with 'Phone number is required' and leaves the store unchanged |
| Otp.IssueWhileActive | src/controllers/otp/send_otp.ts:90-102 | while an unexpired record for the phone exists, the request is refused with the remaining minutes and the store is unchanged |
| Otp.IssueWhenFree | src/controllers/otp/send_otp.ts:104-117 | otherwise exactly one record {phone, "123456", now + 180000} is appended, even next to expired records, and the answer is 200 {phone} |
| Otp.IssuePreservesAtMostOne | src/controllers/otp/send_otp.ts:90-113 | with a clock that does not go back, issuing keeps at most one unexpired record per phone |
| Otp.IssueKeepsIssuedBy | src/controllers/otp/send_otp.ts:112-113 | every record keeps expires = createdAt + 180000 with createdAt ≤ now |
| Otp.IssueWaitIsAtMostThree | src/controllers/otp/send_otp.ts:94-101 | on a store this service built, a refusal names a wait of 1, 2 or 3 minutes |
| Otp.ConsumeOutcomes | src/controllers/otp/verify_otp.ts:13-26 | a failure is 'Invalid or expired OTP' with the store unchanged; a success returns true and deletes one unexpired record of the phone holding exactly the code |
| Otp.ConsumeSucceedsIff | src/controllers/otp/verify_otp.ts:13-22 | under the one-unexpired-per-phone invariant, verification succeeds iff an unexpired record of the phone holds exactly the code |
| Otp.ConsumePreservesAtMostOne | src/controllers/otp/verify_otp.ts:24 | verification keeps the one-unexpired-per-phone invariant |
| Otp.ConsumeIsSingleUse | src/controllers/otp/verify_otp.ts:13-24 | after a successful verification, a second one for the phone fails, now or later |
| Otp.OtpStore.Insert | src/controllers/otp/send_otp.ts:113 | appends the record and nothing else |
| Otp.OtpStore.DeleteAt | src/controllers/otp/verify_otp.ts:24 | removes exactly the record at the position given |
| Otp.SendOtp | src/controllers/otp/send_otp.ts:82-118 | the answer and the new store are those of the issue outcome |
| Otp.VerifyOtp | src/controllers/otp/verify_otp.ts:12-27 | the result and the new store are those of the consume outcome |
| Users.ParseStatus | src/models/user/farmer.model.ts:13-17 | only the three status names parse, each to the status that prints as it |
| Users.StatusNameRoundTrip | src/models/user/farmer.model.ts:42-46 | every status name parses back to its status |
| Users.NewAgent | src/models/user/farmer.model.ts:19-54 | creation succeeds iff name, email and phone are given; isVerified is false, status active, lastSignedIn and metadata absent, timestamps now; a failure names the missing paths |
| Users.Projected | src/controllers/auth/login_agent.ts:130 | the projection drops createdAt and updatedAt and keeps every other field |
| Users.FindByPhone | src/controllers/auth/login_agent.ts:128-130 | finds an agent with exactly that phone, or reports that there is none |
| Users.FindByEmailOrPhone | src/controllers/auth/login_user.ts:158-160 | finds the first agent matching the email or the phone, or reports that none matches |
| Users.FindById | src/middlewares/auth.middleware.ts:56 | a text that is not an id is a CastError; otherwise finds the agent whose id has that text, or reports that there is none |
| Users.FindByIdOfStored | src/middlewares/auth.middleware.ts:56 | in a well-formed collection, the text of a stored agent's id finds that agent |
| Users.ObjectIdTextInjective | src/controllers/auth/login_agent.ts:138 | distinct ids have distinct texts |
| Users.SaveAgentSpec | src/models/user/farmer.model.ts:25-34 | saving keeps emails and phones unique; a failed save changes nothing; a successful one appends exactly the new agent |
| Users.DuplicateKey | src/models/user/farmer.model.ts:28-33 | a unique-index violation is a code-11000 error naming the path |
| Users.SaveAgentDuplicate | src/models/user/farmer.model.ts:28-33 | an email or phone already taken makes the save fail with a duplicate-key error, store unchanged |
| Users.AgentStore.Save | src/controllers/auth/register_agent.ts:108-114 | the result and new collection are those of the save outcome, and uniqueness is kept |
| Tokens.ClaimsOf | src/controllers/auth/utils/generate_tokens.ts:35-36 | the payload is exactly {id, role, deviceInfo} of the input |
| Tokens.GenerateAccessToken | src/controllers/auth/utils/generate_tokens.ts:26-50 | signs the payload with the access secret and expiry; a signing failure becomes a 500 ApiError prefixed 'Something Went Wrong While Generating Access Token: ' |
| Tokens.AccessTokenRoundTrip | src/controllers/auth/utils/generate_tokens.ts:35-43 | an access token verifies with the access secret to its payload |
| Tokens.CreateRefreshRecord | src/models/tokens/refresh_token.model.ts:4-11 | creation succeeds iff role, deviceInfo and token are all given; the id is stored uncast; a failure names the missing paths |
| Tokens.RefreshFailure | src/controllers/auth/utils/generate_tokens.ts:99-102 | the rethrown error is a 500 ApiError whose message embeds the inner message |
| Tokens.RefreshFailureShape | src/controllers/auth/utils/generate_tokens.ts:96-102 | every failure is a 500 ApiError with the refresh prefix and leaves the store unchanged |
| Tokens.RefreshNeedsConfig | src/controllers/auth/utils/generate_tokens.ts:68-76 | a missing secret or expiry fails before signing and nothing is stored |
| Tokens.MissingDeviceMessage | src/models/tokens/refresh_token.model.ts:4-11 | a record with role and token but no deviceInfo fails on the deviceInfo path alone, with the required-path message |
| Tokens.RefreshNeedsDevice | src/controllers/auth/utils/generate_tokens.ts:88-102 | without a user agent the record cannot be created and the call fails with the deviceInfo validation message |
| Tokens.RefreshSuccessAppends | src/controllers/auth/utils/generate_tokens.ts:84-95 | a success appends exactly one record {role, id, deviceInfo, token}, and the returned token is the stored one |
| Tokens.RefreshStoresToken | src/controllers/auth/utils/generate_tokens.ts:84-95 | the stored refresh token verifies with the refresh secret to its payload |
| Tokens.RefreshStore.Insert | src/controllers/auth/utils/generate_tokens.ts:88-93 | appends the record and nothing else |
| Tokens.RefreshStore.DeleteOne | src/controllers/auth/logout_user.ts:38 | removes the first record with exactly that user id, if any |
| Tokens.GenerateRefreshToken | src/controllers/auth/utils/generate_tokens.ts:62-104 | the result and the new store are those of the refresh-token outcome |
| Tokens.IssueSessionTokens | src/controllers/auth/login_user.ts:172-173 | the access token is signed first, then the refresh token; any failure leaves the collection as it was; a success stores exactly one record {role, id, deviceInfo, refresh token} |
| Tokens.IssueSession | src/controllers/auth/login_user.ts:172-173 | the two tokens and the new store are those of the session-token outcome |
| Auth.SessionCookies | src/controllers/auth/login_user.ts:175-183 | sets refreshToken then accessToken, both httpOnly, secure iff NODE_ENV is not 'development' |
| Auth.LoginUserNeedsRole | src/controllers/auth/login_user.ts:140-143 | a missing role fails first with 'Role is required' and nothing changes |
| Auth.LoginUserNeedsPhoneOrEmail | src/controllers/auth/login_user.ts:145-149 | without phone and email the call fails before any OTP lookup and nothing changes |
| Auth.LoginUserOtpFailure | src/controllers/auth/login_user.ts:151-154 | an OTP failure propagates: no lookup, no refresh record, nothing changes |
| Auth.LoginUserEmailOnlyFails | src/controllers/auth/login_user.ts:151 | the OTP is always checked against the phone, so an email-only login fails |
| Auth.LoginUserBurnsOtp | src/controllers/auth/login_user.ts:151-164 | an invalid role or a missing user ('User does not exist', 303) is found only after the OTP record was deleted; no refresh record is added |
| Auth.LoginUserSuccess | src/controllers/auth/login_user.ts:166-190 | a success consumed the OTP, found the user by email or phone, added exactly one refresh record for (user id, role, user agent), set both cookies and answered 200 {accessToken, refreshToken, user, role} |
| Auth.UserSessionSuccess | src/controllers/auth/login_user.ts:156-190 | after the OTP check, a success resolved the role, took the first user matching email or phone, stored exactly one refresh record for it and answered 200 with both cookies |
| Auth.StartUserSession | src/controllers/auth/login_user.ts:156-190 | the answer and the new store are those of the post-OTP part of the login outcome |
| Auth.LoginUser | src/controllers/auth/login_user.ts:139-191 | the answer and the new stores are those of the login outcome |
| Auth.LoginAgentNeedsPhone | src/controllers/auth/login_agent.ts:118-121 | a missing phone fails with 'Phone or email is required' and nothing changes |
| Auth.LoginAgentOtpFailure | src/controllers/auth/login_agent.ts:123-126 | an OTP failure prevents the lookup and the tokens |
| Auth.LoginAgentBurnsOtp | src/controllers/auth/login_agent.ts:123-134 | an unknown phone fails with 'User does not exist' after the OTP was consumed |
| Auth.LoginAgentSuccess | src/controllers/auth/login_agent.ts:128-160 | a success answers the agent with that phone without its timestamps, with the AGENT role and the id as text in the one refresh record added, and no role field in the body |
| Auth.StartAgentSession | src/controllers/auth/login_agent.ts:128-160 | the answer and the new store are those of the post-OTP part of the agent-login outcome |
| Auth.LoginAgent | src/controllers/auth/login_agent.ts:117-161 | the answer and the new stores are those of the agent-login outcome |
| Auth.LogoutDeletesAtMostOne | src/controllers/auth/logout_user.ts:38 | of k records holding the user's id, exactly min(k, 1) is removed; records of other holders stay, in order |
| Auth.LogoutWithoutRecord | src/controllers/auth/logout_user.ts:38-43 | with no record for the user the store is unchanged |
| Auth.LogoutKeepsAgentLoginRecord | src/controllers/auth/logout_user.ts:38 | logout by the raw id never removes the record an agent login stored under the id text |
| Auth.LogoutUser | src/controllers/auth/logout_user.ts:34-45 | deletes at most one record, clears both cookies and answers 200 'User logged out successfully' |
| Auth.RegisterIssues | src/controllers/auth/register_agent.ts:10-23 | no issue iff name is non-empty, email non-empty and an email, phone non-empty and an en-IN mobile, and otp non-empty |
| Auth.RegisterInvalidForm | src/controllers/auth/register_agent.ts:96 | a rule failure throws 'Validation failed' before any lookup and the store is unchanged |
| Auth.RegisterExisting | src/controllers/auth/register_agent.ts:100-106 | an agent with the same email or phone makes it throw 'Agent already exists' with no insertion |
| Auth.AgentExistsAnswered500 | src/controllers/auth/register_agent.ts:105 | that thrown response has data 400, status 200 and success true, and is answered 500 |
| Auth.RegisterNew | src/controllers/auth/register_agent.ts:108-116 | a valid form for a new email and phone inserts exactly one agent {name, phone, email} and answers HTTP 201 'Agent registered' with body status 200 |
| Auth.RegisterKeepsWellFormed | src/controllers/auth/register_agent.ts:100-114 | registration keeps emails and phones unique |
| Auth.RegisterIgnoresOtp | src/controllers/auth/register_agent.ts:94-117 | the OTP is never checked: any two non-empty codes give the same outcome |
| Auth.RegisterAgent | src/controllers/auth/register_agent.ts:94-118 | the answer and the new collection are those of the register outcome, and uniqueness is kept |
| Middleware.SecondWord | src/middlewares/auth.middleware.ts:29 | the header token is a space-free word |
| Middleware.ExtractToken | src/middlewares/auth.middleware.ts:27-29 | a non-empty cookie wins; otherwise the second word of the header |
| Middleware.HeaderToken | src/middlewares/auth.middleware.ts:29 | a header '<scheme> <token>' yields the token whatever the scheme word |
| Middleware.OneWordHeader | src/middlewares/auth.middleware.ts:29 | a one-word header yields no token |
| Middleware.NoTokenRejected | src/middlewares/auth.middleware.ts:31-33 | no token fails with 'Missing Acess Token', which is answered 500 |
| Middleware.BadTokenRejected | src/middlewares/auth.middleware.ts:35-38 | a verification failure propagates and nothing is looked up |
| Middleware.DeviceNotEnforced | src/middlewares/auth.middleware.ts:49-53 | the outcome does not depend on the user agent |
| Middleware.UnknownRoleRejected | src/middlewares/auth.middleware.ts:55 | a token role that is not the agent role is rejected with the resolver's error; the Agent fallback is never taken |
| Middleware.SessionSuccess | src/middlewares/auth.middleware.ts:55-63 | a success attaches a stored agent whose id text is the token's id, under a role that resolves |
| Middleware.VerifiedTokenAuthenticates | src/middlewares/auth.middleware.ts:35-62 | a token verifying to a stored agent's id and the agent role authenticates that agent |
| Middleware.IssuedTokenAuthenticates | src/middlewares/auth.middleware.ts:27-63 | an access token issued for a stored agent, in the cookie or as 'Bearer <token>', authenticates that agent |
| Middleware.VerifyJwt | src/middlewares/auth.middleware.ts:25-65 | on success sets req.user and calls next exactly once; otherwise writes the error answer and leaves req unchanged |
| Referral.UpperHexRoundTrip | src/controllers/auth/utils/generate_referral_code.ts:14-15 | the code is upper-case hex, two characters per byte, and reads back to the bytes |
| Referral.CodeShape | src/controllers/auth/utils/generate_referral_code.ts:14-15 | every code tried has 2·ceil(length/2) upper-case hex characters |
| Referral.ReferralLookupBound | src/controllers/auth/utils/generate_referral_code.ts:13-28 | at most maxRetries lookups are made |
| Referral.ReferralReturnsFreeCode | src/controllers/auth/utils/generate_referral_code.ts:20-28 | a code is returned only when the role resolved and no user holds it; it is the code of the last attempt made, and every earlier attempt collided |
| Referral.ReferralExhausted | src/controllers/auth/utils/generate_referral_code.ts:13-34 | after maxRetries collisions it throws, having made exactly maxRetries lookups |
| Referral.NoRetries | src/controllers/auth/utils/generate_referral_code.ts:13 | with maxRetries ≤ 0 it throws without any lookup |
| Referral.InvalidRoleFailsFirst | src/controllers/auth/utils/generate_referral_code.ts:20 | a role that does not resolve, the default "user" among them, throws on the first attempt before any lookup |
| Referral.TryReferralCodes | src/controllers/auth/utils/generate_referral_code.ts:13-34 | the loop, with the resolver and the code of each attempt given, returns what the retry outcome does and makes as many lookups |
| Referral.GenerateReferralCode | src/controllers/auth/utils/generate_referral_code.ts:4-35 | the code or error and the lookup count are those of the retry outcome; the user store is only read |
| Policy.ParseType | src/models/policy/policy.model.ts:3-11 | a name parses iff it is one of the seven listed, to the member that prints as it |
| Policy.FieldTypesMatchEnum | src/models/policy/policy.model.ts:49-61 | the seven names of the schema enum are exactly the names of `PolicyFieldType`, each once |
| Policy.ExampleUrlValidator | src/models/policy/policy.model.ts:63-73 | passes iff the type is not document or exampleUrl is a non-empty text; a null exampleUrl fails |
| Policy.OptionsValidator | src/models/policy/policy.model.ts:76-89 | passes iff the type is neither select nor multiselect or options are given and non-empty; null options fail |
| Policy.FieldFailures | src/models/policy/policy.model.ts:46-93 | a requirement validates iff key, name, type and required are given, the type is in the enum, and each conditional validator whose path is not undefined (given or null) passes |
| Policy.AsString | src/models/policy/policy.model.ts:47-62 | on a String path checked only by `required`, the value is absent iff it is undefined or null, which fail `required` alike |
| Policy.AsStringSlot | src/models/policy/policy.model.ts:63-74 | `exampleUrl` is missing iff undefined and null iff null, so its validator still runs on null; otherwise it holds the text |
| Policy.AsStringsSlot | src/models/policy/policy.model.ts:76-89 | `options` is missing iff undefined and null iff null, so its validator still runs on null; otherwise it holds the cast array |
| Policy.NullPathFailure | src/models/policy/policy.model.ts:63-89 | a null exampleUrl on a document requirement, or null options on a select or multiselect one, is reported under that path |
| Policy.RequirementFailuresInclude | src/models/policy/policy.model.ts:100 | every failure of one requirement is among the failures of the requirements list |
| Policy.SaveRefused | src/controllers/policy/create_policy.ts:68 | a save whose requirements report a failure is refused with a ValidationError naming its path, answered 400, and nothing is saved |
| Policy.NullValidatedPathRefused | src/models/policy/policy.model.ts:63-89 | a valid request with a null exampleUrl on a document requirement, or null options on a select or multiselect one, is refused with 400 naming `requirements.<i>.<path>`, and nothing is saved |
| Policy.NewPolicy | src/controllers/policy/create_policy.ts:57-66 | the document has one requirement per request element, created_by the acting user's id, and timestamps now |
| Policy.RequirementFailures | src/models/policy/policy.model.ts:100 | the requirements report nothing iff each one validates |
| Policy.PolicyFailures | src/models/policy/policy.model.ts:95-115 | a policy validates iff title, description, targetAudience and created_by are given and every requirement validates |
| Policy.EachRequirement | src/controllers/policy/create_policy.ts:13-32 | a wildcard rule yields no issue iff every element passes it |
| Policy.PolicyIssues | src/controllers/policy/create_policy.ts:7-36 | no issue iff title, description and targetAudience are non-empty, requirements is an array of at least one element, and every element has non-empty key and name, a listed type and a boolean required |
| Policy.NumTextIsBoolean | src/controllers/policy/create_policy.ts:30-32 | a number passes `isBoolean` only when it is 0 or 1 |
| Policy.ValidItemCasts | src/controllers/policy/create_policy.ts:13-32 | an element passing the wildcard rules casts to a field with key, name and a known type |
| Policy.ValidRequestFields | src/controllers/policy/create_policy.ts:7-36 | a request passing the rules builds at least one requirement, each with key, name and a type from the enum |
| Policy.PolicyValidationFailure | src/controllers/policy/create_policy.ts:52-55 | the failure is a 400 ApiError 'Validation failed' carrying the issue list |
| Policy.CreatePolicyRejectsInvalid | src/controllers/policy/create_policy.ts:52-55 | a rule failure throws 'Validation failed' with the issues, nothing is persisted, and the answer is 500 |
| Policy.CreatePolicySuccess | src/controllers/policy/create_policy.ts:57-72 | a success persists exactly one policy built from the listed fields, with created_by the user's id and none of its requirement keys held by a stored policy, and answers 201 with it |
| Policy.OnlyListedFields | src/controllers/policy/create_policy.ts:39-66 | body keys other than the seven listed never change the outcome |
| Policy.DocumentWithoutExampleUrlSaved | src/models/policy/policy.model.ts:63-73 | a valid request by a known user whose requirements carry no `exampleUrl` and no `options` key at all (undefined, so the validators do not run), and whose requirement keys no stored policy holds, is created |
| Policy.PolicyStore.Insert | src/controllers/policy/create_policy.ts:68 | appends the policy and nothing else |
| Policy.CreatePolicy | src/controllers/policy/create_policy.ts:38-73 | the answer and the new collection are those of the create outcome |
| Policy.KeysOf | src/models/policy/policy.model.ts:47 | every requirement key a policy holds is one of its entries in the `requirements.key` index |
| Policy.SaveSuccess | src/controllers/policy/create_policy.ts:68-72 | a successful save had a valid policy, owned by a user, whose requirement keys no stored policy holds; it appends that policy and answers 201 |
| Policy.SaveKeyTaken | src/models/policy/policy.model.ts:47 | a save reusing a stored requirement key is refused with 400 and writes nothing; past schema validation the error is the 11000 index violation |
| Policy.KeyTakenAnswer | src/utils/asynchandler.ts:15-21 | the index violation is answered 400 'Duplicate value for unique field(s): requirements.key. Please use a different value.' |
| Policy.KeyInNewPolicy | src/controllers/policy/create_policy.ts:57-66 | a requirement key sent as text is a key of the policy the request builds |
| Policy.TakenKeyRefused | src/models/policy/policy.model.ts:47 | a rule-passing request sending a requirement key that a stored policy holds is answered 400 and nothing is saved; past schema validation it is the duplicate-key error |
| Policy.AppendKeepsKeysDisjoint | src/models/policy/policy.model.ts:47 | appending a policy none of whose keys is stored keeps the keys of different policies apart |
| Policy.SaveKeepsKeysDisjoint | src/models/policy/policy.model.ts:47 | every save keeps the keys of different stored policies apart |
| Policy.CreateKeepsKeysDisjoint | src/models/policy/policy.model.ts:47 | `createPolicy` keeps the requirement keys of different stored policies apart |

## Left out

- JWT cryptography is not modelled. `sign` and `verify` are arbitrary functions. Token expiry is whatever `verify` reports.
- Randomness is an input. `generateOtp` takes its digits as `draws`, and `generateReferralCode` takes its bytes as a function of (attempt, position).
- The values of `UserRoles` are assumed to be "agent" and "customer", because src/core/constants/enums/user_roles.ts is not part of this model.
- express-validator's `isEmail` and `isMobilePhone('en-IN')` are predicate parameters.
- How express-validator handles arrays is simplified:
  - A standard validator on an array value reads the items joined with ','.
  - A wildcard over a `requirements` value that is not an array visits no element. The `isArray` rule fails in that case anyway.
- `findOne` returns the first matching document in store order.
- A query on an absent (`undefined`) value is taken to match nothing. Mongoose may instead drop such a key from the filter.
- Documents are stored in arrival order.
- ObjectIds are numbers, and their text is the decimal form of the number.
- Mongoose casting is simplified:
  - A String path keeps the text express-validator sees, including for arrays and objects (Mongoose would raise a CastError).
  - `expiryDate` and `validityPeriod` are stored as sent, with no Date cast.
  - `min` and `max` are kept only when sent as numbers.
  - An uncastable `required` value becomes a missing path.
  - A CastError on `expiryDate`, `validityPeriod`, `min` or `max` is not modelled. In the source, a value such as "not-a-date" for a Date path or "abc" for a Number path makes `save()` fail and the request is answered 400; the model saves the policy.
  - A `null` description, fileType or rules is stored as absent. The source stores `null`. No validator reads these paths, so the answer status is the same.
- Numbers are integers (`Num(n: int)`). A fraction such as 1.5 cannot be expressed, so a request carrying one (for example as `min`, or as a `required` that `isBoolean` reads as "1.5") is not modelled.
- Text.Lower: lower-casing maps ASCII letters only. JavaScript's `toLowerCase` is full Unicode and can change the length (for example "İ" becomes two code units); the role text is compared against ASCII role names, and Unicode case tables are not modelled.
- The TTL index (declared on `expireAt`) is not modelled. Records are never removed automatically.
- The unique indexes (on the agent's email and phone and on `requirements.key`) are taken to exist when a request arrives. Mongoose builds them in the background at start-up; a write racing that build is not modelled.
- Each request reads the clock once (`now`). `sendOtp` reads it twice.
- `updatedAt` is never advanced, because no flow in the core updates a document.
- Logging, the SMS dispatch placeholder and the cookie transport itself are not modelled. The model keeps only the cookie names, values and flags.
- Concurrency is not modelled. The model is sequential, so the read-then-write race of OTP issuance is not represented.
- `loginUser` takes the role as a parameter. No code in this model sets `req.role`.
- File upload and object storage (src/utils/upload_file.ts, src/core/cloudianry/config.ts, src/routes/files/file.routes.ts) are not part of this model.
- Multer (src/middlewares/multer.middleware.ts) is not part of this model.
- Email (src/utils/send_email.ts) is not part of this model.
- The database connection (src/db/index.ts) is not part of this model.
- Server start-up and socket.io (src/index.ts) are not part of this model.
- Express wiring and Swagger are not part of this model.
- `getUser`, which only echoes `req.user`, is not part of this model.
- The PolicyApplication schema, which no operation reads or writes, is not part of this model.
- Auth.LoginBody, Auth.RegisterForm, Otp.IssueOtp, Otp.ConsumeOtp: the request fields `phone`, `email` and `otp` are modelled as strings, or absent. In the source they come from untyped JSON, and three kinds of request are not representable:
  - An `otp` sent as a JSON number (123456) never equals the stored string under `!==`, so a correct code is refused with 'Invalid or expired OTP'.
  - A `phone` of `0` or `false` is falsy and is refused like a missing one.
  - An object such as `{"$gt": ""}` as `phone` reaches `Otp.findOne` and `Agent.findOne` as a query operator, not as a value, and can match records of other phones.
- Referral.GenerateReferralCode: the `RangeError` that `randomBytes` raises for a size outside 0..2^31-1 carries an abbreviated message.
- Middleware.VerifyJwt: a token payload without a `role` makes the source throw a TypeError inside the resolver. The model's decoded payload always has a role.
