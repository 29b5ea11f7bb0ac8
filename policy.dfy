/**
 * The Policy collection (src/models/policy/policy.model.ts) and its creation
 * (src/controllers/policy/create_policy.ts): the request rules `validateCreatePolicy`, the document
 * `new Policy({...})` builds, the schema validation `save()` runs, and `createPolicy`.
 */
module Policy {
  import opened Wrappers
  import opened Text
  import opened Envelope
  import opened Users

  // ------------------------------------------------------------ field types

  /** `PolicyFieldType` */
  datatype FieldType = TextType | DateType | NumberType | DocumentType | BooleanType | SelectType | MultiselectType

  function TypeName(t: FieldType): string
  {
    match t
    case TextType => "text"
    case DateType => "date"
    case NumberType => "number"
    case DocumentType => "document"
    case BooleanType => "boolean"
    case SelectType => "select"
    case MultiselectType => "multiselect"
  }

  /** The type names the schema's `enum` and the request rule's `isIn` both list. */
  const FIELD_TYPES: seq<string> := ["text", "date", "number", "document", "boolean", "select", "multiselect"]

  /** A type name back to the enum member. */
  function ParseType(s: string): (r: Option<FieldType>)
    ensures r.Some? <==> s in FIELD_TYPES
    ensures r.Some? ==> TypeName(r.value) == s
  {
    if s == "text" then Some(TextType)
    else if s == "date" then Some(DateType)
    else if s == "number" then Some(NumberType)
    else if s == "document" then Some(DocumentType)
    else if s == "boolean" then Some(BooleanType)
    else if s == "select" then Some(SelectType)
    else if s == "multiselect" then Some(MultiselectType)
    else None
  }

  /** The seven listed names are exactly the names of the enum members, each once. */
  lemma FieldTypesMatchEnum()
    ensures forall t: FieldType :: TypeName(t) in FIELD_TYPES && ParseType(TypeName(t)) == Some(t)
    ensures forall s :: s in FIELD_TYPES ==> exists t: FieldType :: TypeName(t) == s
    ensures forall i, j :: 0 <= i < j < |FIELD_TYPES| ==> FIELD_TYPES[i] != FIELD_TYPES[j]
  {
    forall s | s in FIELD_TYPES
      ensures exists t: FieldType :: TypeName(t) == s
    {
      assert TypeName(ParseType(s).value) == s;
    }
  }

  // ------------------------------------------------------------ field schema

  /**
   * A path whose validator runs unless the value is `undefined`: `null` is kept apart from absence
   * and fails a validator that wants the path truthy.
   */
  datatype Slot<T> = Missing | Nulled | Given(value: T)

  /**
   * A requirement subdocument, as `policyFieldSchema` casts it. On the paths whose validators fail
   * already at `required` an absent or null value is `None`; `exampleUrl` and `options`, whose custom
   * validators also see `null`, keep it as `Nulled`.
   */
  datatype PolicyField = PolicyField(
    key: Option<string>,
    name: Option<string>,
    fieldType: Option<string>,
    description: Option<string>,
    exampleUrl: Slot<string>,
    required: Option<bool>,
    options: Slot<seq<string>>,
    fileType: Option<string>,
    min: Option<int>,
    max: Option<int>)

  /** The validator of `exampleUrl`: a `null` or empty URL is falsy. */
  function ExampleUrlValidator(f: PolicyField): (ok: bool)
    ensures ok <==>
      !(f.fieldType.Some? && ParseType(f.fieldType.value) == Some(DocumentType)) ||
      (f.exampleUrl.Given? && f.exampleUrl.value != "")
  {
    f.fieldType != Some("document") ||
    (f.fieldType == Some("document") && f.exampleUrl.Given? && |f.exampleUrl.value| > 0)
  }

  /** The validator of `options`: `null` options are falsy. */
  function OptionsValidator(f: PolicyField): (ok: bool)
    ensures ok <==>
      !(f.fieldType.Some? && ParseType(f.fieldType.value) in {Some(SelectType), Some(MultiselectType)}) ||
      (f.options.Given? && f.options.value != [])
  {
    !(f.fieldType == Some("select") || f.fieldType == Some("multiselect")) ||
    (f.options.Given? && |f.options.value| > 0)
  }

  const EXAMPLE_URL_MESSAGE: string := "exampleUrl is required when type is 'document'."
  const OPTIONS_MESSAGE: string := "options must be provided when type is 'select' or 'multiselect'."

  /** Mongoose's message for a value outside an `enum`. */
  function EnumMessage(value: string, path: string): string
  {
    "`" + value + "` is not a valid enum value for path `" + path + "`."
  }

  /** `v` given, and not the empty string: what `required` demands of a String path. */
  predicate Present(v: Option<string>)
  {
    Truthy(v)
  }

  /**
   * What validating one requirement at `prefix` reports, path by path. Custom validators are not run
   * on a path that is `undefined`, so the two conditional validators speak when their path is given
   * or `null`.
   */
  function FieldFailures(prefix: string, f: PolicyField): (r: seq<(string, string)>)
    ensures r == [] <==>
      Present(f.key) && Present(f.name) && Present(f.fieldType) && ParseType(f.fieldType.value).Some? &&
      f.required.Some? &&
      (!f.exampleUrl.Missing? ==> ExampleUrlValidator(f)) && (!f.options.Missing? ==> OptionsValidator(f))
  {
    (if Present(f.key) then [] else [(prefix + "key", RequiredMessage("key"))]) +
    (if Present(f.name) then [] else [(prefix + "name", RequiredMessage("name"))]) +
    (if !Present(f.fieldType) then [(prefix + "type", RequiredMessage("type"))]
     else if f.fieldType.value !in FIELD_TYPES then [(prefix + "type", EnumMessage(f.fieldType.value, "type"))]
     else []) +
    (if f.required.Some? then [] else [(prefix + "required", RequiredMessage("required"))]) +
    (if !f.exampleUrl.Missing? && !ExampleUrlValidator(f) then [(prefix + "exampleUrl", EXAMPLE_URL_MESSAGE)] else []) +
    (if !f.options.Missing? && !OptionsValidator(f) then [(prefix + "options", OPTIONS_MESSAGE)] else [])
  }

  // ------------------------------------------------------------ casting

  /** `obj[k]` of a request value: anything but an object holding `k` gives `undefined`. */
  function PropOf(v: JsValue, k: string): JsValue
  {
    if v.Obj? && k in v.props then v.props[k] else Undefined
  }

  /**
   * A String path whose only checks are `required` (or none): `undefined` and `null` both fail
   * `required` alike, so both stay absent; anything else is kept as its text.
   */
  function AsString(v: JsValue): (r: Option<string>)
    ensures r.None? <==> v == Undefined || v == Null
  {
    if v == Undefined || v == Null then None else Some(ValidatorString(v))
  }

  /** A Boolean path: the values Mongoose casts to true or false; anything else is not a boolean. */
  function AsBool(v: JsValue): Option<bool>
  {
    match v
    case Bool(b) => Some(b)
    case Num(n) => if n == 1 then Some(true) else if n == 0 then Some(false) else None
    case Str(s) =>
      if s in ["true", "1", "yes"] then Some(true)
      else if s in ["false", "0", "no"] then Some(false)
      else None
    case _ => None
  }

  /** A Number path given as a number. */
  function AsInt(v: JsValue): Option<int>
  {
    if v.Num? then Some(v.n) else None
  }

  /** A String path with a custom validator: `null` is kept apart from `undefined`. */
  function AsStringSlot(v: JsValue): (r: Slot<string>)
    ensures r.Missing? <==> v == Undefined
    ensures r.Nulled? <==> v == Null
    ensures r.Given? ==> r.value == ValidatorString(v)
  {
    if v == Undefined then Missing else if v == Null then Nulled else Given(ValidatorString(v))
  }

  /** The `[String]` path `options`: as `AsStrings`, with `null` kept apart from `undefined`. */
  function AsStringsSlot(v: JsValue): (r: Slot<seq<string>>)
    ensures r.Missing? <==> v == Undefined
    ensures r.Nulled? <==> v == Null
    ensures r.Given? ==> Some(r.value) == AsStrings(v)
  {
    match v
    case Undefined => Missing
    case Null => Nulled
    case _ => Given(AsStrings(v).value)
  }

  /** A `[String]` path: an array keeps its items' texts, a single value becomes a one-element array. */
  function AsStrings(v: JsValue): (r: Option<seq<string>>)
    ensures r.None? <==> v == Undefined || v == Null
  {
    match v
    case Undefined => None
    case Null => None
    case Arr(items) => Some(seq(|items|, i requires 0 <= i < |items| => ValidatorString(items[i])))
    case _ => Some([ValidatorString(v)])
  }

  /** One element of the request's `requirements`, cast by `policyFieldSchema`. */
  function CastField(item: JsValue): PolicyField
  {
    PolicyField(
      AsString(PropOf(item, "key")),
      AsString(PropOf(item, "name")),
      AsString(PropOf(item, "type")),
      AsString(PropOf(item, "description")),
      AsStringSlot(PropOf(item, "exampleUrl")),
      AsBool(PropOf(item, "required")),
      AsStringsSlot(PropOf(item, "options")),
      AsString(PropOf(item, "fileType")),
      AsInt(PropOf(item, "min")),
      AsInt(PropOf(item, "max")))
  }

  /** The elements a wildcard `requirements.*` visits. */
  function Items(v: JsValue): seq<JsValue>
  {
    if v.Arr? then v.items else []
  }

  // ------------------------------------------------------------ policy document

  /** A Policy document, as `new Policy({...})` builds it. */
  datatype PolicyDoc = PolicyDoc(
    id: nat,
    title: Option<string>,
    description: Option<string>,
    requirements: seq<PolicyField>,
    targetAudience: Option<string>,
    expiryDate: JsValue,
    validityPeriod: JsValue,
    rules: Option<seq<string>>,
    createdBy: Option<Id>,
    createdAt: int,
    updatedAt: int)

  /** `new Policy({title, description, requirements, targetAudience, expiryDate, validityPeriod, rules, created_by})` */
  function NewPolicy(id: nat, body: map<string, JsValue>, user: Option<Agent>, now: int): (p: PolicyDoc)
    ensures p.id == id && p.createdAt == now && p.updatedAt == now
    ensures p.createdBy == (if user.Some? then Some(Oid(user.value.id)) else None)
    ensures |p.requirements| == |Items(FieldValue(body, "requirements"))|
  {
    var items := Items(FieldValue(body, "requirements"));
    PolicyDoc(
      id,
      AsString(FieldValue(body, "title")),
      AsString(FieldValue(body, "description")),
      seq(|items|, i requires 0 <= i < |items| => CastField(items[i])),
      AsString(FieldValue(body, "targetAudience")),
      FieldValue(body, "expiryDate"),
      FieldValue(body, "validityPeriod"),
      AsStrings(FieldValue(body, "rules")),
      if user.Some? then Some(Oid(user.value.id)) else None,
      now,
      now)
  }

  /** The failures of every requirement from position `from` on, each under its `requirements.<i>.` path. */
  function RequirementFailures(fields: seq<PolicyField>, from: nat): (r: seq<(string, string)>)
    requires from <= |fields|
    ensures r == [] <==> forall i :: from <= i < |fields| ==> FieldFailures("", fields[i]) == []
    decreases |fields| - from
  {
    if from == |fields| then []
    else
      var prefix := "requirements." + IntToString(from) + ".";
      var here := FieldFailures(prefix, fields[from]);
      assert here == [] <==> FieldFailures("", fields[from]) == [];
      here + RequirementFailures(fields, from + 1)
  }

  /** What `policy.validate()` reports: the required paths of the policy, then each requirement's. */
  function PolicyFailures(p: PolicyDoc): (r: seq<(string, string)>)
    ensures r == [] <==>
      Present(p.title) && Present(p.description) && Present(p.targetAudience) && p.createdBy.Some? &&
      forall i :: 0 <= i < |p.requirements| ==> FieldFailures("", p.requirements[i]) == []
  {
    (if Present(p.title) then [] else [("title", RequiredMessage("title"))]) +
    (if Present(p.description) then [] else [("description", RequiredMessage("description"))]) +
    RequirementFailures(p.requirements, 0) +
    (if Present(p.targetAudience) then [] else [("targetAudience", RequiredMessage("targetAudience"))]) +
    (if p.createdBy.Some? then [] else [("created_by", RequiredMessage("created_by"))])
  }

  // ------------------------------------------------------------ request rules

  /** One wildcard chain `requirements.*.<prop>`: an issue for each element, from position `from` on, that fails `ok`. */
  function EachRequirement(items: seq<JsValue>, from: nat, prop: string, ok: JsValue -> bool, msg: string): (r: seq<ValidationIssue>)
    requires from <= |items|
    ensures r == [] <==> forall i :: from <= i < |items| ==> ok(PropOf(items[i], prop))
    ensures |r| <= |items| - from
    decreases |items| - from
  {
    if from == |items| then []
    else
      var v := PropOf(items[from], prop);
      Check("requirements[" + IntToString(from) + "]." + prop, v, ok(v), msg) +
      EachRequirement(items, from + 1, prop, ok, msg)
  }

  /** `isIn([...])` */
  predicate IsFieldType(v: JsValue)
  {
    ValidatorString(v) in FIELD_TYPES
  }

  /** `isBoolean()`: the texts express-validator accepts in its default strict mode. */
  predicate IsBooleanText(v: JsValue)
  {
    ValidatorString(v) in ["true", "false", "1", "0"]
  }

  /** `notEmpty()` */
  predicate NotEmpty(v: JsValue)
  {
    ValidatorString(v) != ""
  }

  /** `isArray({min: 1})` */
  predicate IsNonEmptyArray(v: JsValue)
  {
    v.Arr? && |v.items| >= 1
  }

  /** What a request must satisfy to pass `validateCreatePolicy`, stated rule by rule. */
  predicate RequestValid(body: map<string, JsValue>)
  {
    var reqs := FieldValue(body, "requirements");
    NotEmpty(FieldValue(body, "title")) &&
    NotEmpty(FieldValue(body, "description")) &&
    IsNonEmptyArray(reqs) &&
    (forall i :: 0 <= i < |reqs.items| ==>
       NotEmpty(PropOf(reqs.items[i], "key")) && NotEmpty(PropOf(reqs.items[i], "name")) &&
       IsFieldType(PropOf(reqs.items[i], "type")) && IsBooleanText(PropOf(reqs.items[i], "required"))) &&
    NotEmpty(FieldValue(body, "targetAudience"))
  }

  /** The issues `validationResult(req).array()` holds after `validateCreatePolicy`, chain by chain. */
  function PolicyIssues(body: map<string, JsValue>): (r: seq<ValidationIssue>)
    ensures r == [] <==> RequestValid(body)
  {
    var reqs := FieldValue(body, "requirements");
    var items := Items(reqs);
    NotEmptyRule("title", FieldValue(body, "title"), "Title is required") +
    NotEmptyRule("description", FieldValue(body, "description"), "Description is required") +
    Check("requirements", reqs, IsNonEmptyArray(reqs), "At least one requirement is required") +
    EachRequirement(items, 0, "key", NotEmpty, "Requirement key is required") +
    EachRequirement(items, 0, "name", NotEmpty, "Requirement name is required") +
    EachRequirement(items, 0, "type", IsFieldType, "Invalid requirement type") +
    EachRequirement(items, 0, "required", IsBooleanText, "Requirement required field must be a boolean") +
    NotEmptyRule("targetAudience", FieldValue(body, "targetAudience"), "Target audience is required")
  }

  /** An element that passes the four wildcard rules casts to a field with a key, a name and a known type. */
  lemma ValidItemCasts(item: JsValue)
    requires NotEmpty(PropOf(item, "key")) && NotEmpty(PropOf(item, "name"))
    requires IsFieldType(PropOf(item, "type")) && IsBooleanText(PropOf(item, "required"))
    ensures var f := CastField(item);
      Present(f.key) && Present(f.name) && f.fieldType.Some? && ParseType(f.fieldType.value).Some? &&
      (!PropOf(item, "required").Arr? ==> f.required.Some?)
  {
    var t := PropOf(item, "type");
    assert t != Undefined && t != Null;
    var b := PropOf(item, "required");
    if b.Num? {
      NumTextIsBoolean(b.n);
    }
  }

  /**
   * A request that passes the rules builds at least one requirement, each with a key, a name and a known
   * type, and with a boolean `required` unless that was sent as an array (which the rule reads by its text).
   */
  lemma ValidRequestFields(body: map<string, JsValue>, id: nat, user: Option<Agent>, now: int)
    requires PolicyIssues(body) == []
    ensures var p := NewPolicy(id, body, user, now);
      var items := Items(FieldValue(body, "requirements"));
      Present(p.title) && Present(p.description) && Present(p.targetAudience) && |p.requirements| >= 1 &&
      forall i :: 0 <= i < |p.requirements| ==>
        Present(p.requirements[i].key) && Present(p.requirements[i].name) &&
        p.requirements[i].fieldType.Some? && ParseType(p.requirements[i].fieldType.value).Some? &&
        (!PropOf(items[i], "required").Arr? ==> p.requirements[i].required.Some?)
  {
    var p := NewPolicy(id, body, user, now);
    var items := Items(FieldValue(body, "requirements"));
    forall i | 0 <= i < |p.requirements|
      ensures Present(p.requirements[i].key) && Present(p.requirements[i].name)
      ensures p.requirements[i].fieldType.Some? && ParseType(p.requirements[i].fieldType.value).Some?
      ensures !PropOf(items[i], "required").Arr? ==> p.requirements[i].required.Some?
    {
      assert p.requirements[i] == CastField(items[i]);
      ValidItemCasts(items[i]);
    }
  }

  /** A number whose text is "1" or "0" is 1 or 0. */
  lemma NumTextIsBoolean(n: int)
    requires IntToString(n) in ["true", "false", "1", "0"]
    ensures n == 0 || n == 1
  {
    IntTextShape(n);
  }

  // ------------------------------------------------------------ createPolicy

  const POLICY_CREATED: string := "Policy created successfully"

  /** `throw new ApiError('Validation failed', 400, errors.array())` */
  function PolicyValidationFailure(issues: seq<ValidationIssue>): (t: Thrown)
    ensures t.ApiFailure? && t.e.statusCode == 400 && t.e.message == "Validation failed" && t.e.errors == issues
  {
    ApiFailure(NewApiError(Some("Validation failed"), Some(400), Some(issues)))
  }

  // ------------------------------------------------------------ the unique index on requirements.key

  /** The entries a policy puts in the multikey index on `requirements.key`. */
  function KeysOf(p: PolicyDoc): (keys: set<string>)
    ensures forall i :: 0 <= i < |p.requirements| && p.requirements[i].key.Some? ==> p.requirements[i].key.value in keys
  {
    set i | 0 <= i < |p.requirements| && p.requirements[i].key.Some? :: p.requirements[i].key.value
  }

  /**
   * Some stored policy already holds one of the requirement keys of `p`. A unique index compares
   * entries of different documents only, so keys repeated inside `p` itself are not a violation.
   */
  predicate KeyTaken(policies: seq<PolicyDoc>, p: PolicyDoc)
  {
    exists j :: 0 <= j < |policies| && KeysOf(policies[j]) * KeysOf(p) != {}
  }

  /** No two stored policies share a requirement key: what the unique index keeps true. */
  predicate KeysDisjoint(policies: seq<PolicyDoc>)
  {
    forall j, m :: 0 <= j < m < |policies| ==> KeysOf(policies[j]) * KeysOf(policies[m]) == {}
  }

  /** The MongoServerError an insert violating the `requirements.key` index raises. */
  const KEY_TAKEN: Thrown := DbFailure(11000, ["requirements.key"], "E11000 duplicate key error collection: policies index: requirements.key_1")

  /** `policy.save()` and the 201 reply: schema validation, then the unique index, then insertion under the next id. */
  function SavePolicy(policies: seq<PolicyDoc>, nextId: nat, policy: PolicyDoc)
    : (Result<Reply<PolicyDoc>, Thrown>, seq<PolicyDoc>, nat)
  {
    var failures := PolicyFailures(policy);
    if failures != [] then (Err(SchemaFailure("Policy", failures)), policies, nextId)
    else if KeyTaken(policies, policy) then (Err(KEY_TAKEN), policies, nextId)
    else (Ok(Reply(201, [], NewApiResponse(policy, POLICY_CREATED, Some(201)))), policies + [policy], nextId + 1)
  }

  /** What `createPolicy` answers and what it leaves in the Policy collection (with the next id). */
  function CreatePolicyOutcome(policies: seq<PolicyDoc>, nextId: nat, body: map<string, JsValue>, user: Option<Agent>, now: int)
    : (Result<Reply<PolicyDoc>, Thrown>, seq<PolicyDoc>, nat)
  {
    var issues := PolicyIssues(body);
    if issues != [] then (Err(PolicyValidationFailure(issues)), policies, nextId)
    else SavePolicy(policies, nextId, NewPolicy(nextId, body, user, now))
  }

  /** A request breaking a rule is refused with 'Validation failed' and the issue list, and nothing is saved. */
  lemma CreatePolicyRejectsInvalid(policies: seq<PolicyDoc>, nextId: nat, body: map<string, JsValue>, user: Option<Agent>, now: int)
    requires !RequestValid(body)
    ensures CreatePolicyOutcome(policies, nextId, body, user, now) ==
      (Err(ApiFailure(ApiError("Validation failed", 400, PolicyIssues(body), false))), policies, nextId)
    ensures HandleError(PolicyValidationFailure(PolicyIssues(body))) == ErrorReply(500, "Validation failed", false)
  {
  }

  /**
   * A success saves exactly one policy, built from the listed body fields and owned by the acting user,
   * and answers 201 with that policy.
   */
  lemma CreatePolicySuccess(policies: seq<PolicyDoc>, nextId: nat, body: map<string, JsValue>, user: Option<Agent>, now: int)
    requires CreatePolicyOutcome(policies, nextId, body, user, now).0.Ok?
    ensures var (r, policies', nextId') := CreatePolicyOutcome(policies, nextId, body, user, now);
      var p := NewPolicy(nextId, body, user, now);
      RequestValid(body) && user.Some? && p.createdBy == Some(Oid(user.value.id)) &&
      (forall j :: 0 <= j < |policies| ==> KeysOf(policies[j]) * KeysOf(p) == {}) &&
      policies' == policies + [p] && nextId' == nextId + 1 &&
      r.value == Reply(201, [], ApiResponse(201, p, POLICY_CREATED, true))
  {
    assert PolicyIssues(body) == [];
    var p := NewPolicy(nextId, body, user, now);
    assert CreatePolicyOutcome(policies, nextId, body, user, now) == SavePolicy(policies, nextId, p);
    SaveSuccess(policies, nextId, p);
    assert p.createdBy.Some?;
  }

  /** A save that succeeds had a valid policy whose requirement keys no stored policy holds, and appended it. */
  lemma SaveSuccess(policies: seq<PolicyDoc>, nextId: nat, p: PolicyDoc)
    requires SavePolicy(policies, nextId, p).0.Ok?
    ensures PolicyFailures(p) == [] && p.createdBy.Some?
    ensures forall j :: 0 <= j < |policies| ==> KeysOf(policies[j]) * KeysOf(p) == {}
    ensures SavePolicy(policies, nextId, p) ==
      (Ok(Reply(201, [], ApiResponse(201, p, POLICY_CREATED, true))), policies + [p], nextId + 1)
  {
    assert !KeyTaken(policies, p);
  }

  /** A save whose policy reuses a stored requirement key is refused with 400 and writes nothing. */
  lemma SaveKeyTaken(policies: seq<PolicyDoc>, nextId: nat, p: PolicyDoc)
    requires KeyTaken(policies, p)
    ensures var (r, policies', nextId') := SavePolicy(policies, nextId, p);
      r.Err? && HandleError(r.error).status == 400 && policies' == policies && nextId' == nextId &&
      (PolicyFailures(p) == [] ==> r.error == KEY_TAKEN)
  {
  }

  /** The index violation is answered 400, naming the `requirements.key` path. */
  lemma KeyTakenAnswer()
    ensures HandleError(KEY_TAKEN) ==
      ErrorReply(400, "Duplicate value for unique field(s): " + "requirements.key" + ". Please use a different value.", false)
  {
    DuplicateKeyMessage(["requirements.key"], KEY_TAKEN.message);
    assert Join(["requirements.key"], ", ") == "requirements.key";
  }

  /**
   * A requirement whose `exampleUrl` is `null` while its type is `document`, or whose `options` are
   * `null` while its type is `select` or `multiselect`, passes the request rules but fails `save()`:
   * the ValidationError names `requirements.<i>.<path>`, is answered 400, and nothing is saved.
   */
  lemma NullValidatedPathRefused(policies: seq<PolicyDoc>, nextId: nat, body: map<string, JsValue>, user: Option<Agent>, now: int,
                                 i: nat, path: string)
    requires RequestValid(body)
    requires i < |Items(FieldValue(body, "requirements"))|
    requires PropOf(Items(FieldValue(body, "requirements"))[i], path) == Null
    requires (path == "exampleUrl" && PropOf(Items(FieldValue(body, "requirements"))[i], "type") == Str("document")) ||
      (path == "options" && PropOf(Items(FieldValue(body, "requirements"))[i], "type") in {Str("select"), Str("multiselect")})
    ensures var (r, policies', nextId') := CreatePolicyOutcome(policies, nextId, body, user, now);
      r.Err? && r.error.SchemaInvalid? && "requirements." + IntToString(i) + "." + path in r.error.paths &&
      HandleError(r.error).status == 400 && policies' == policies && nextId' == nextId
  {
    var items := Items(FieldValue(body, "requirements"));
    var p := NewPolicy(nextId, body, user, now);
    var prefix := "requirements." + IntToString(i) + ".";
    var failure := NullPathFailure(prefix, CastField(items[i]), path);
    assert p.requirements[i] == CastField(items[i]);
    RequirementFailuresInclude(p.requirements, 0, i, failure);
    SaveRefused(policies, nextId, p, failure);
    assert PolicyIssues(body) == [];
    assert CreatePolicyOutcome(policies, nextId, body, user, now) == SavePolicy(policies, nextId, p);
  }

  /** The failure a `null` validated path of a `document` or `select`/`multiselect` requirement reports. */
  function NullPathFailure(prefix: string, f: PolicyField, path: string): (failure: (string, string))
    requires (path == "exampleUrl" && f.exampleUrl.Nulled? && f.fieldType == Some("document")) ||
      (path == "options" && f.options.Nulled? && f.fieldType in {Some("select"), Some("multiselect")})
    ensures failure in FieldFailures(prefix, f) && failure.0 == prefix + path
  {
    if path == "exampleUrl" then (prefix + "exampleUrl", EXAMPLE_URL_MESSAGE) else (prefix + "options", OPTIONS_MESSAGE)
  }

  /** A save whose policy reports `failure` is refused with a 400 naming its path, and nothing is saved. */
  lemma SaveRefused(policies: seq<PolicyDoc>, nextId: nat, p: PolicyDoc, failure: (string, string))
    requires failure in RequirementFailures(p.requirements, 0)
    ensures var (r, policies', nextId') := SavePolicy(policies, nextId, p);
      r.Err? && r.error.SchemaInvalid? && failure.0 in r.error.paths &&
      HandleError(r.error).status == 400 && policies' == policies && nextId' == nextId
  {
    var failures := PolicyFailures(p);
    assert failure in failures;
    var k :| 0 <= k < |failures| && failures[k] == failure;
    assert SchemaFailure("Policy", failures).paths[k] == failure.0;
  }

  /** Every failure of requirement `i` appears among the failures of the requirements from `from` on. */
  lemma {:induction false} RequirementFailuresInclude(fields: seq<PolicyField>, from: nat, i: nat, failure: (string, string))
    requires from <= i < |fields|
    requires failure in FieldFailures("requirements." + IntToString(i) + ".", fields[i])
    ensures failure in RequirementFailures(fields, from)
    decreases i - from
  {
    var here := FieldFailures("requirements." + IntToString(from) + ".", fields[from]);
    assert RequirementFailures(fields, from) == here + RequirementFailures(fields, from + 1);
    if from < i {
      RequirementFailuresInclude(fields, from + 1, i, failure);
    }
  }

  /**
   * A request that passes the rules but sends a requirement key a stored policy already holds is
   * refused with 400 and nothing is saved: by the schema validation when that also fails, and
   * otherwise by the unique index (`KEY_TAKEN`, answered as `KeyTakenAnswer` states).
   */
  lemma TakenKeyRefused(policies: seq<PolicyDoc>, nextId: nat, body: map<string, JsValue>, user: Option<Agent>, now: int,
                        i: nat, j: nat, l: nat, k: string)
    requires RequestValid(body)
    requires i < |Items(FieldValue(body, "requirements"))| && PropOf(Items(FieldValue(body, "requirements"))[i], "key") == Str(k)
    requires j < |policies| && l < |policies[j].requirements| && policies[j].requirements[l].key == Some(k)
    ensures var (r, policies', nextId') := CreatePolicyOutcome(policies, nextId, body, user, now);
      r.Err? && HandleError(r.error).status == 400 && policies' == policies && nextId' == nextId &&
      (PolicyFailures(NewPolicy(nextId, body, user, now)) == [] ==> r.error == KEY_TAKEN)
  {
    var p := NewPolicy(nextId, body, user, now);
    KeyInNewPolicy(nextId, body, user, now, i, k);
    assert k in KeysOf(policies[j]) * KeysOf(p);
    SaveKeyTaken(policies, nextId, p);
    assert PolicyIssues(body) == [];
    assert CreatePolicyOutcome(policies, nextId, body, user, now) == SavePolicy(policies, nextId, p);
  }

  /** A requirement key sent as text is among the keys of the policy built from the request. */
  lemma KeyInNewPolicy(id: nat, body: map<string, JsValue>, user: Option<Agent>, now: int, i: nat, k: string)
    requires i < |Items(FieldValue(body, "requirements"))| && PropOf(Items(FieldValue(body, "requirements"))[i], "key") == Str(k)
    ensures k in KeysOf(NewPolicy(id, body, user, now))
  {
    var p := NewPolicy(id, body, user, now);
    assert p.requirements[i] == CastField(Items(FieldValue(body, "requirements"))[i]);
    assert p.requirements[i].key == Some(k);
  }

  /** Creating a policy keeps the requirement keys of different stored policies apart. */
  lemma CreateKeepsKeysDisjoint(policies: seq<PolicyDoc>, nextId: nat, body: map<string, JsValue>, user: Option<Agent>, now: int)
    requires KeysDisjoint(policies)
    ensures KeysDisjoint(CreatePolicyOutcome(policies, nextId, body, user, now).1)
  {
    var out := CreatePolicyOutcome(policies, nextId, body, user, now);
    if PolicyIssues(body) != [] {
      assert out.1 == policies;
    } else {
      var p := NewPolicy(nextId, body, user, now);
      assert out == SavePolicy(policies, nextId, p);
      SaveKeepsKeysDisjoint(policies, nextId, p);
    }
  }

  /** A save keeps the requirement keys of different stored policies apart. */
  lemma SaveKeepsKeysDisjoint(policies: seq<PolicyDoc>, nextId: nat, p: PolicyDoc)
    requires KeysDisjoint(policies)
    ensures KeysDisjoint(SavePolicy(policies, nextId, p).1)
  {
    var out := SavePolicy(policies, nextId, p);
    if out.0.Ok? {
      SaveSuccess(policies, nextId, p);
      AppendKeepsKeysDisjoint(policies, p);
    } else {
      assert out.1 == policies;
    }
  }

  /** Appending a policy none of whose keys is stored keeps the stored keys disjoint. */
  lemma AppendKeepsKeysDisjoint(policies: seq<PolicyDoc>, p: PolicyDoc)
    requires KeysDisjoint(policies)
    requires forall j :: 0 <= j < |policies| ==> KeysOf(policies[j]) * KeysOf(p) == {}
    ensures KeysDisjoint(policies + [p])
  {
    var out := policies + [p];
    forall j, m | 0 <= j < m < |out|
      ensures KeysOf(out[j]) * KeysOf(out[m]) == {}
    {
      if m == |policies| {
        assert out[m] == p;
      }
    }
  }

  /** Body keys other than the seven listed ones never change the outcome. */
  lemma OnlyListedFields(policies: seq<PolicyDoc>, nextId: nat, b1: map<string, JsValue>, b2: map<string, JsValue>, user: Option<Agent>, now: int)
    requires FieldValue(b1, "title") == FieldValue(b2, "title")
    requires FieldValue(b1, "description") == FieldValue(b2, "description")
    requires FieldValue(b1, "requirements") == FieldValue(b2, "requirements")
    requires FieldValue(b1, "targetAudience") == FieldValue(b2, "targetAudience")
    requires FieldValue(b1, "expiryDate") == FieldValue(b2, "expiryDate")
    requires FieldValue(b1, "validityPeriod") == FieldValue(b2, "validityPeriod")
    requires FieldValue(b1, "rules") == FieldValue(b2, "rules")
    ensures CreatePolicyOutcome(policies, nextId, b1, user, now) == CreatePolicyOutcome(policies, nextId, b2, user, now)
  {
    assert PolicyIssues(b1) == PolicyIssues(b2);
    assert NewPolicy(nextId, b1, user, now) == NewPolicy(nextId, b2, user, now);
  }

  /**
   * A `document` requirement sent without `exampleUrl` passes the request rules and, since the schema
   * validator is not run on an `undefined` path, is saved: a valid request by a known user, whose
   * requirement keys no stored policy holds, is created.
   */
  lemma DocumentWithoutExampleUrlSaved(policies: seq<PolicyDoc>, nextId: nat, body: map<string, JsValue>, user: Agent, now: int)
    requires RequestValid(body)
    requires !KeyTaken(policies, NewPolicy(nextId, body, Some(user), now))
    requires forall i :: 0 <= i < |Items(FieldValue(body, "requirements"))| ==>
      !PropOf(Items(FieldValue(body, "requirements"))[i], "required").Arr? &&
      PropOf(Items(FieldValue(body, "requirements"))[i], "exampleUrl") == Undefined &&
      PropOf(Items(FieldValue(body, "requirements"))[i], "options") == Undefined
    ensures CreatePolicyOutcome(policies, nextId, body, Some(user), now).0.Ok?
  {
    var p := NewPolicy(nextId, body, Some(user), now);
    BareItemsValid(Items(FieldValue(body, "requirements")), p.requirements);
    assert Present(p.title) && Present(p.description) && Present(p.targetAudience);
    assert PolicyFailures(p) == [];
    assert CreatePolicyOutcome(policies, nextId, body, Some(user), now) == SavePolicy(policies, nextId, p);
  }

  /** Requirements that pass the rules and carry neither `exampleUrl` nor `options` all validate. */
  lemma BareItemsValid(items: seq<JsValue>, fields: seq<PolicyField>)
    requires |fields| == |items|
    requires forall i :: 0 <= i < |items| ==> fields[i] == CastField(items[i])
    requires forall i :: 0 <= i < |items| ==>
       NotEmpty(PropOf(items[i], "key")) && NotEmpty(PropOf(items[i], "name")) &&
       IsFieldType(PropOf(items[i], "type")) && IsBooleanText(PropOf(items[i], "required"))
    requires forall i :: 0 <= i < |items| ==>
      !PropOf(items[i], "required").Arr? && PropOf(items[i], "exampleUrl") == Undefined && PropOf(items[i], "options") == Undefined
    ensures forall i :: 0 <= i < |fields| ==> FieldFailures("", fields[i]) == []
  {
    forall i | 0 <= i < |fields|
      ensures FieldFailures("", fields[i]) == []
    {
      ValidItemCasts(items[i]);
      BareFieldValid(fields[i]);
    }
  }

  /** A field with key, name, a known type and `required`, and neither `exampleUrl` nor `options`, validates. */
  lemma BareFieldValid(f: PolicyField)
    requires Present(f.key) && Present(f.name) && f.fieldType.Some? && ParseType(f.fieldType.value).Some?
    requires f.required.Some? && f.exampleUrl.Missing? && f.options.Missing?
    ensures FieldFailures("", f) == []
  {
  }

  /** The Policy collection. */
  class PolicyStore {
    var policies: seq<PolicyDoc>
    var nextId: nat

    constructor ()
      ensures policies == [] && nextId == 0
    {
      policies := [];
      nextId := 0;
    }

    /** `policy.save()` of a document that validated. */
    method Insert(p: PolicyDoc)
      modifies this
      ensures policies == old(policies) + [p] && nextId == old(nextId) + 1
    {
      policies := policies + [p];
      nextId := nextId + 1;
    }
  }

  /** `createPolicy` for the request body and the user `verifyJwt` attached. */
  method CreatePolicy(store: PolicyStore, body: map<string, JsValue>, user: Option<Agent>, now: int)
    returns (r: Result<Reply<PolicyDoc>, Thrown>)
    modifies store
    ensures (r, store.policies, store.nextId) == CreatePolicyOutcome(old(store.policies), old(store.nextId), body, user, now)
  {
    var issues := PolicyIssues(body);
    if issues != [] {
      return Err(PolicyValidationFailure(issues));
    }
    var policy := NewPolicy(store.nextId, body, user, now);
    var failures := PolicyFailures(policy);
    if failures != [] {
      return Err(SchemaFailure("Policy", failures));
    }
    if KeyTaken(store.policies, policy) {
      return Err(KEY_TAKEN);
    }
    store.Insert(policy);
    r := Ok(Reply(201, [], NewApiResponse(policy, POLICY_CREATED, Some(201))));
  }
}
