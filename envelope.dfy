/**
 * The response and error envelope: `ApiError`, `ApiResponse`, the error-to-response
 * mapping of `asyncHandler`, `validateRequest` and `handleMissingValues`.
 */
module Envelope {
  import opened Wrappers
  import opened Text

  /** A JavaScript value as it arrives in a request body (numbers are integers here). */
  datatype JsValue =
    | Undefined
    | Null
    | Bool(b: bool)
    | Num(n: int)
    | Str(s: string)
    | Arr(items: seq<JsValue>)
    | Obj(props: map<string, JsValue>)

  /** `String(n)` for an integer. */
  function IntToString(n: int): string
  {
    if n < 0 then "-" + NatToString(-n) else NatToString(n)
  }

  /** The text of a number: one digit below ten, otherwise at least two characters led by '-' or a digit. */
  lemma IntTextShape(n: int)
    ensures 0 <= n < 10 ==> |IntToString(n)| == 1 && IntToString(n)[0] as int - '0' as int == n
    ensures (n < 0 || n >= 10) ==> |IntToString(n)| >= 2 && IntToString(n)[0] !in "tf"
  {
    if 0 <= n < 10 {
      assert IntToString(n) == [DigitChar(n)];
    } else if n >= 10 {
      assert IsDigit(IntToString(n)[0]);
    }
  }

  /** The string express-validator hands to a standard validator for a value. */
  function ValidatorString(v: JsValue): string
  {
    match v
    case Undefined => ""
    case Null => ""
    case Bool(b) => if b then "true" else "false"
    case Num(n) => IntToString(n)
    case Str(s) => s
    case Arr(items) => Join(seq(|items|, i requires 0 <= i < |items| => ValidatorString(items[i])), ",")
    case Obj(_) => "[object Object]"
  }

  /** One entry of express-validator's `validationResult(req).array()`. */
  datatype ValidationIssue = ValidationIssue(path: string, value: JsValue, msg: string)

  /** The issue list of one `notEmpty().withMessage(msg)` rule. */
  function NotEmptyRule(path: string, value: JsValue, msg: string): (r: seq<ValidationIssue>)
    ensures r == [] <==> ValidatorString(value) != ""
    ensures r != [] ==> r == [ValidationIssue(path, value, msg)]
  {
    if ValidatorString(value) != "" then [] else [ValidationIssue(path, value, msg)]
  }

  /** One `.withMessage(msg)` check whose outcome is `ok`. */
  function Check(path: string, value: JsValue, ok: bool, msg: string): (r: seq<ValidationIssue>)
    ensures r == [] <==> ok
  {
    if ok then [] else [ValidationIssue(path, value, msg)]
  }

  /** The body field `v` as a `JsValue` (an absent field is `undefined`). */
  function FieldOf(v: Option<string>): (r: JsValue)
    ensures ValidatorString(r) != "" <==> Truthy(v)
  {
    if v.Some? then Str(v.value) else Undefined
  }

  // ---------------------------------------------------------------- ApiError

  const DEFAULT_ERROR_MESSAGE: string := "Something went wrong"
  const DEFAULT_ERROR_STATUS: int := 500

  /** An `ApiError` instance (src/utils/api_error.ts). */
  datatype ApiError = ApiError(message: string, statusCode: int, errors: seq<ValidationIssue>, success: bool)

  /** `new ApiError(message, statusCode, error)`; an omitted argument is `None`. */
  function NewApiError(message: Option<string>, statusCode: Option<int>, errors: Option<seq<ValidationIssue>>): (e: ApiError)
    ensures !e.success
    ensures message.Some? ==> e.message == message.value
    ensures message.None? ==> e.message == DEFAULT_ERROR_MESSAGE
    ensures statusCode.Some? ==> e.statusCode == statusCode.value
    ensures statusCode.None? ==> e.statusCode == DEFAULT_ERROR_STATUS
    ensures errors.Some? ==> e.errors == errors.value
    ensures errors.None? ==> e.errors == []
  {
    ApiError(
      if message.Some? then message.value else DEFAULT_ERROR_MESSAGE,
      if statusCode.Some? then statusCode.value else DEFAULT_ERROR_STATUS,
      if errors.Some? then errors.value else [],
      false)
  }

  // ------------------------------------------------------------- ApiResponse

  /** An `ApiResponse` instance (src/utils/api_success.ts). */
  datatype ApiResponse<D> = ApiResponse(status: int, data: D, message: string, success: bool)

  /** `new ApiResponse(data, message, status)`; an omitted status is `None`. */
  function NewApiResponse<D>(data: D, message: string, status: Option<int>): (r: ApiResponse<D>)
    ensures r.data == data && r.message == message
    ensures r.status == (if status.Some? then status.value else 200)
    ensures r.success <==> 200 <= r.status < 300
  {
    var s := if status.Some? then status.value else 200;
    ApiResponse(s, data, message, 200 <= s && s < 300)
  }

  // ---------------------------------------------------------------- replies

  /** The cookie operations a handler chains onto `res`. */
  datatype Cookie =
    | SetCookie(name: string, value: string, httpOnly: bool, secure: bool)
    | ClearCookie(name: string)

  /** What a handler writes on the normal path: `res.status(status)`, cookies, `.json(body)`. */
  datatype Reply<D> = Reply(status: int, cookies: seq<Cookie>, body: ApiResponse<D>)

  // ---------------------------------------------------------- thrown values

  /** The built-in or library error classes thrown inside the core. */
  datatype ErrorKind = Error | RangeError | CastError | JsonWebTokenError | TokenExpiredError

  function KindName(k: ErrorKind): string
  {
    match k
    case Error => "Error"
    case RangeError => "RangeError"
    case CastError => "CastError"
    case JsonWebTokenError => "JsonWebTokenError"
    case TokenExpiredError => "TokenExpiredError"
  }

  /** A JavaScript `Error` object of one of those classes. */
  datatype JsError = JsError(kind: ErrorKind, message: string)

  /** `${error}`, that is `Error.prototype.toString`. */
  function ErrorString(e: JsError): (s: string)
    ensures e.message != "" ==> s == KindName(e.kind) + ": " + e.message
  {
    if e.message == "" then KindName(e.kind) else KindName(e.kind) + ": " + e.message
  }

  /** Everything the core throws. */
  datatype Thrown =
    | ApiFailure(e: ApiError)                              // throw new ApiError(...)
    | Raised(err: JsError)                                 // throw new Error(...), library errors
    | ResponseThrown(r: ApiResponse<JsValue>)              // throw new ApiResponse(...)
    | DbFailure(code: int, keyValue: seq<string>, message: string) // MongoServerError; 11000 is a duplicate key
    | SchemaInvalid(paths: seq<string>, message: string)   // Mongoose ValidationError

  /** The message Mongoose gives a ValidationError: model name, then `path: message` pairs. */
  function SchemaFailure(model: string, failures: seq<(string, string)>): (t: Thrown)
    ensures t.SchemaInvalid? && |t.paths| == |failures|
    ensures forall i :: 0 <= i < |failures| ==> t.paths[i] == failures[i].0
    ensures |failures| == 1 ==> t.message == model + " validation failed: " + failures[0].0 + ": " + failures[0].1
  {
    var labelled := seq(|failures|, i requires 0 <= i < |failures| => failures[i].0 + ": " + failures[i].1);
    SchemaInvalid(
      seq(|failures|, i requires 0 <= i < |failures| => failures[i].0),
      model + " validation failed: " + Join(labelled, ", "))
  }

  /** Mongoose's default message for a missing required path. */
  function RequiredMessage(path: string): string
  {
    "Path `" + path + "` is required."
  }

  /** `error.code` */
  function CodeOf(t: Thrown): Option<int>
  {
    if t.DbFailure? then Some(t.code) else None
  }

  /** `error.name` */
  function NameOf(t: Thrown): Option<string>
  {
    match t
    case ApiFailure(_) => Some("Error")
    case Raised(e) => Some(KindName(e.kind))
    case ResponseThrown(_) => None
    case DbFailure(_, _, _) => Some("MongoServerError")
    case SchemaInvalid(_, _) => Some("ValidationError")
  }

  /** `error.message` */
  function MessageOf(t: Thrown): string
  {
    match t
    case ApiFailure(e) => e.message
    case Raised(e) => e.message
    case ResponseThrown(r) => r.message
    case DbFailure(_, _, m) => m
    case SchemaInvalid(_, m) => m
  }

  // ---------------------------------------------------------- asyncHandler

  /** The error response `asyncHandler` writes: HTTP status and `{message, success}`. */
  datatype ErrorReply = ErrorReply(status: int, message: string, success: bool)

  /** The catch block of `asyncHandler` (src/utils/asynchandler.ts). */
  function HandleError(t: Thrown): (r: ErrorReply)
    ensures !r.success
    ensures CodeOf(t) == Some(11000) ==> r.status == 400
    ensures NameOf(t) == Some("ValidationError") ==> r.status == 400
    ensures CodeOf(t) != Some(11000) && NameOf(t) != Some("ValidationError") ==>
      r.status == (if CodeOf(t).Some? && CodeOf(t).value != 0 then CodeOf(t).value else 500)
  {
    var code := CodeOf(t);
    if code == Some(11000) then
      ErrorReply(400, "Duplicate value for unique field(s): " + Join(t.keyValue, ", ") + ". Please use a different value.", false)
    else if NameOf(t) == Some("ValidationError") then
      ErrorReply(400, "Missing or invalid fields: " + Join(t.paths, ", "), false)
    else
      ErrorReply(
        if code.Some? && code.value != 0 then code.value else 500,
        if MessageOf(t) != "" then MessageOf(t) else "Internal Server Error",
        false)
  }

  /** `asyncHandler(fn)`: a normal return writes nothing more, a throw is answered by `HandleError`. */
  function HandleOutcome<T>(outcome: Result<T, Thrown>): (r: Result<T, ErrorReply>)
    ensures outcome.Ok? ==> r == Ok(outcome.value)
    ensures outcome.Err? ==> r.Err? && !r.error.success
  {
    match outcome
    case Ok(v) => Ok(v)
    case Err(t) => Err(HandleError(t))
  }

  /** The handler never reads `statusCode`: every `ApiError` is answered with 500. */
  lemma ApiErrorAnswered500(e: ApiError)
    ensures HandleError(ApiFailure(e)).status == 500
    ensures HandleError(ApiFailure(e)).message == (if e.message != "" then e.message else "Internal Server Error")
  {
  }

  /** A thrown `ApiResponse` has no `code` either, so it is answered with 500 and its message. */
  lemma ThrownResponseAnswered500(r: ApiResponse<JsValue>)
    ensures HandleError(ResponseThrown(r)).status == 500
    ensures r.message != "" ==> HandleError(ResponseThrown(r)).message == r.message
  {
  }

  /** The duplicate-key branch lists the keys of `keyValue`, joined with ", ". */
  lemma DuplicateKeyMessage(keys: seq<string>, message: string)
    ensures HandleError(DbFailure(11000, keys, message)) ==
      ErrorReply(400, "Duplicate value for unique field(s): " + Join(keys, ", ") + ". Please use a different value.", false)
  {
  }

  /** The validation branch lists the paths of `errors`, joined with ", ". */
  lemma SchemaInvalidMessage(paths: seq<string>, message: string)
    ensures HandleError(SchemaInvalid(paths, message)) ==
      ErrorReply(400, "Missing or invalid fields: " + Join(paths, ", "), false)
  {
  }

  // ---------------------------------------------------------- validateRequest

  /** The pieces `errors.map((error) => \` ${error.msg}\`)`: one per issue, in order. */
  function SpacedMessages(issues: seq<ValidationIssue>): (r: seq<string>)
    ensures |r| == |issues|
    ensures forall i :: 0 <= i < |issues| ==> r[i] == " " + issues[i].msg
  {
    seq(|issues|, i requires 0 <= i < |issues| => " " + issues[i].msg)
  }

  function ValidationFailure(issues: seq<ValidationIssue>): Thrown
  {
    ApiFailure(NewApiError(Some("Validation failed: " + Join(SpacedMessages(issues), ", ")), Some(400), None))
  }

  /** `validateRequest(req)` for the issue list `validationResult(req).array()`. */
  function ValidateRequest(issues: seq<ValidationIssue>): (r: Result<(), Thrown>)
    ensures r.Ok? <==> issues == []
    ensures r.Err? ==> r.error.ApiFailure? && r.error.e.statusCode == 400 && r.error.e.errors == []
    ensures r.Err? ==> r.error.e.message == "Validation failed: " + Join(SpacedMessages(issues), ", ")
  {
    if issues == [] then Ok(()) else Err(ValidationFailure(issues))
  }

  /** A single issue gives "Validation failed:  <msg>" (two spaces). */
  lemma ValidateRequestSingle(issue: ValidationIssue)
    ensures ValidateRequest([issue]).Err?
    ensures ValidateRequest([issue]).error.e.message == "Validation failed:  " + issue.msg
  {
    assert SpacedMessages([issue]) == [" " + issue.msg];
  }

  // ------------------------------------------------------- handleMissingValues

  /** `fields[field] === undefined || fields[field] === null || fields[field] === ''` */
  predicate IsMissing(v: JsValue)
  {
    v == Undefined || v == Null || v == Str("")
  }

  /** `fields[field]`: a key that is not present reads as `undefined`. */
  function FieldValue(fields: map<string, JsValue>, f: string): JsValue
  {
    if f in fields then fields[f] else Undefined
  }

  /** `handleMissingValues(fields, requiredFields)` (src/utils/handle_missing_values.ts). */
  function HandleMissingValues(fields: map<string, JsValue>, required: seq<string>): (r: seq<string>)
    ensures |r| <= |required|
    ensures forall f :: f in r <==> f in required && IsMissing(FieldValue(fields, f))
  {
    if |required| == 0 then []
    else
      (if IsMissing(FieldValue(fields, required[0])) then [required[0]] else [])
      + HandleMissingValues(fields, required[1..])
  }

  /** `a` is `b` with some elements left out, order kept. */
  predicate IsSubsequence<T(==)>(a: seq<T>, b: seq<T>)
  {
    if |a| == 0 then true
    else if |b| == 0 then false
    else if a[0] == b[0] then IsSubsequence(a[1..], b[1..])
    else IsSubsequence(a, b[1..])
  }

  /** An element in front keeps a subsequence a subsequence. */
  lemma {:induction false} SubsequenceCons<T>(a: seq<T>, x: T, b: seq<T>)
    requires IsSubsequence(a, b)
    ensures IsSubsequence(a, [x] + b)
    decreases |a| + |b| + 1
  {
    assert ([x] + b)[1..] == b;
    if |a| > 0 && a[0] == x {
      SubsequenceDropHead(a, b);
    }
  }

  /** Leaving out the first element of a subsequence keeps it a subsequence. */
  lemma {:induction false} SubsequenceDropHead<T>(a: seq<T>, b: seq<T>)
    requires IsSubsequence(a, b) && |a| > 0
    ensures IsSubsequence(a[1..], b)
    decreases |a| + |b|
  {
    if a[0] == b[0] {
      SubsequenceCons(a[1..], b[0], b[1..]);
    } else {
      SubsequenceDropHead(a, b[1..]);
      SubsequenceCons(a[1..], b[0], b[1..]);
    }
    assert [b[0]] + b[1..] == b;
  }

  /** The missing fields are the required fields in their order, some left out. */
  lemma {:induction false} MissingIsSubsequence(fields: map<string, JsValue>, required: seq<string>)
    ensures IsSubsequence(HandleMissingValues(fields, required), required)
  {
    if |required| > 0 {
      var rest := HandleMissingValues(fields, required[1..]);
      MissingIsSubsequence(fields, required[1..]);
      if IsMissing(FieldValue(fields, required[0])) {
        assert ([required[0]] + rest)[1..] == rest;
      } else {
        assert [] + rest == rest;
        SubsequenceCons(rest, required[0], required[1..]);
        assert [required[0]] + required[1..] == required;
      }
    }
  }

  /** A missing field appears as often as it is required (duplicates kept); a present one never. */
  lemma {:induction false} MissingMultiplicity(fields: map<string, JsValue>, required: seq<string>, f: string)
    ensures multiset(HandleMissingValues(fields, required))[f] ==
      (if IsMissing(FieldValue(fields, f)) then multiset(required)[f] else 0)
  {
    if |required| > 0 {
      MissingMultiplicity(fields, required[1..], f);
      assert required == [required[0]] + required[1..];
    }
  }

  /** `0` and `false` count as present. */
  lemma ZeroAndFalsePresent(fields: map<string, JsValue>, f: string)
    requires FieldValue(fields, f) == Num(0) || FieldValue(fields, f) == Bool(false)
    ensures forall required: seq<string> :: f !in HandleMissingValues(fields, required)
  {
  }
}
