/** The Agent collection: the schema of src/models/user/farmer.model.ts and the queries the core makes on it. */
module Users {
  import opened Wrappers
  import opened Text
  import opened Seqs
  import opened Envelope

  /** `AgentStatus` */
  datatype AgentStatus = Active | Inactive | Suspended

  function StatusName(s: AgentStatus): string
  {
    match s
    case Active => "active"
    case Inactive => "inactive"
    case Suspended => "suspended"
  }

  /** The `enum` of the `status` path, parsed back. */
  function ParseStatus(name: string): (r: Option<AgentStatus>)
    ensures r.Some? ==> StatusName(r.value) == name
  {
    if name == "active" then Some(Active)
    else if name == "inactive" then Some(Inactive)
    else if name == "suspended" then Some(Suspended)
    else None
  }

  lemma StatusNameRoundTrip(s: AgentStatus)
    ensures ParseStatus(StatusName(s)) == Some(s)
  {
  }

  /**
   * A document id. An ObjectId is modelled by a number and its `toString()` by the
   * decimal text of that number; `Text` is an id already turned into a string.
   */
  datatype Id = Oid(n: nat) | Text(s: string)

  /** `user._id.toString()` */
  function ObjectIdText(n: nat): (s: string)
    ensures s != []
  {
    NatToString(n)
  }

  /** The string a JSON payload holds for an id (`ObjectId.prototype.toJSON`). */
  function IdText(id: Id): string
  {
    match id
    case Oid(n) => ObjectIdText(n)
    case Text(s) => s
  }

  /** Distinct ObjectIds have distinct texts. */
  lemma ObjectIdTextInjective(a: nat, b: nat)
    requires ObjectIdText(a) == ObjectIdText(b)
    ensures a == b
  {
    NatToStringInjective(a, b);
  }

  /** An Agent document; `createdAt`/`updatedAt` are `None` once projected away. */
  datatype Agent = Agent(
    id: nat,
    name: string,
    email: string,
    phone: string,
    isVerified: bool,
    lastSignedIn: Option<int>,
    status: AgentStatus,
    metadata: Option<map<string, string>>,
    createdAt: Option<int>,
    updatedAt: Option<int>)

  /** `.select('-createdAt -updatedAt -__v ')` */
  function Projected(a: Agent): (p: Agent)
    ensures p.createdAt.None? && p.updatedAt.None?
    ensures p.id == a.id && p.name == a.name && p.email == a.email && p.phone == a.phone
    ensures p.isVerified == a.isVerified && p.status == a.status && p.lastSignedIn == a.lastSignedIn
    ensures p.metadata == a.metadata
  {
    a.(createdAt := None, updatedAt := None)
  }

  /** `new Agent({name, phone, email})` validated for `save()`: required paths, defaults, timestamps. */
  function NewAgent(id: nat, name: Option<string>, email: Option<string>, phone: Option<string>, now: int): (r: Result<Agent, Thrown>)
    ensures r.Ok? <==> Truthy(name) && Truthy(email) && Truthy(phone)
    ensures r.Ok? ==> r.value == Agent(id, name.value, email.value, phone.value, false, None, Active, None, Some(now), Some(now))
    ensures r.Err? ==> (r.error.SchemaInvalid? &&
      r.error.paths == (if Truthy(name) then [] else ["name"]) + (if Truthy(email) then [] else ["email"]) +
                       (if Truthy(phone) then [] else ["phone"]))
  {
    var failures :=
      (if Truthy(name) then [] else [("name", RequiredMessage("name"))]) +
      (if Truthy(email) then [] else [("email", RequiredMessage("email"))]) +
      (if Truthy(phone) then [] else [("phone", RequiredMessage("phone"))]);
    if failures != [] then
      var t := SchemaFailure("Agent", failures);
      assert t.paths == (if Truthy(name) then [] else ["name"]) + (if Truthy(email) then [] else ["email"]) +
                        (if Truthy(phone) then [] else ["phone"]);
      Err(t)
    else
      Ok(Agent(id, name.value, email.value, phone.value, false, None, Active, None, Some(now), Some(now)))
  }

  /** The unique indexes on `email` and `phone`, and distinct ids below the next one to hand out. */
  ghost predicate WellFormed(agents: seq<Agent>, nextId: nat)
  {
    (forall i, j :: 0 <= i < j < |agents| ==>
       agents[i].email != agents[j].email && agents[i].phone != agents[j].phone && agents[i].id != agents[j].id) &&
    (forall i :: 0 <= i < |agents| ==> agents[i].id < nextId)
  }

  function EmailFilter(email: string): Agent -> bool
  {
    (a: Agent) => a.email == email
  }

  function PhoneFilter(phone: string): Agent -> bool
  {
    (a: Agent) => a.phone == phone
  }

  function EmailOrPhoneFilter(email: Option<string>, phone: Option<string>): Agent -> bool
  {
    (a: Agent) => (email.Some? && a.email == email.value) || (phone.Some? && a.phone == phone.value)
  }

  function IdFilter(id: nat): Agent -> bool
  {
    (a: Agent) => a.id == id
  }

  /** `Agent.findOne({phone})` */
  function FindByPhone(agents: seq<Agent>, phone: string): (r: Option<nat>)
    ensures r.Some? ==> r.value < |agents| && agents[r.value].phone == phone
    ensures r.None? <==> forall j :: 0 <= j < |agents| ==> agents[j].phone != phone
  {
    var k := FirstWhere(agents, PhoneFilter(phone));
    assert forall j :: 0 <= j < |agents| ==> PhoneFilter(phone)(agents[j]) == (agents[j].phone == phone);
    k
  }

  /** `findOne({$or: [{email}, {phone}]})`; an absent value matches no document. */
  function FindByEmailOrPhone(agents: seq<Agent>, email: Option<string>, phone: Option<string>): (r: Option<nat>)
    ensures r.Some? ==> r.value < |agents| && EmailOrPhoneFilter(email, phone)(agents[r.value])
    ensures r.Some? ==> forall j :: 0 <= j < r.value ==> !EmailOrPhoneFilter(email, phone)(agents[j])
    ensures r.None? <==> forall j :: 0 <= j < |agents| ==> !EmailOrPhoneFilter(email, phone)(agents[j])
  {
    FirstWhere(agents, EmailOrPhoneFilter(email, phone))
  }

  /** The address Mongoose must be able to cast to an ObjectId: here the canonical text of a number. */
  predicate IsObjectIdText(s: string)
  {
    s != [] && (forall i :: 0 <= i < |s| ==> IsDigit(s[i])) && NatToString(DigitsValue(s)) == s
  }

  /** `Agent.findById(id)`: a text that is not an ObjectId is a CastError. */
  function FindById(agents: seq<Agent>, id: string): (r: Result<Option<nat>, Thrown>)
    ensures r.Err? <==> !IsObjectIdText(id)
    ensures r.Ok? && r.value.Some? ==> r.value.value < |agents| && ObjectIdText(agents[r.value.value].id) == id
    ensures r.Ok? && r.value.None? ==> forall j :: 0 <= j < |agents| ==> ObjectIdText(agents[j].id) != id
  {
    if !IsObjectIdText(id) then
      Err(Raised(JsError(CastError, "Cast to ObjectId failed for value \"" + id + "\" (type string) at path \"_id\" for model \"Agent\"")))
    else
      var n := DigitsValue(id);
      var k := FirstWhere(agents, IdFilter(n));
      forall j | 0 <= j < |agents|
        ensures IdFilter(n)(agents[j]) <==> ObjectIdText(agents[j].id) == id
      {
        if ObjectIdText(agents[j].id) == id {
          NatToStringRoundTrip(agents[j].id);
        }
      }
      Ok(k)
  }

  /** The text of an agent's id finds that agent again, in a well-formed collection. */
  lemma FindByIdOfStored(agents: seq<Agent>, nextId: nat, i: nat)
    requires WellFormed(agents, nextId) && i < |agents|
    ensures FindById(agents, ObjectIdText(agents[i].id)) == Ok(Some(i))
  {
    var s := ObjectIdText(agents[i].id);
    NatToStringRoundTrip(agents[i].id);
    var r := FindById(agents, s);
    var k := r.value.value;
    ObjectIdTextInjective(agents[k].id, agents[i].id);
    forall j | 0 <= j < |agents| && j != i
      ensures agents[j].id != agents[i].id
    {
      if j < i {} else {}
    }
  }

  /** The duplicate-key error the unique index on `path` raises. */
  function DuplicateKey(path: string): (t: Thrown)
    ensures t.DbFailure? && t.code == 11000 && t.keyValue == [path]
  {
    DbFailure(11000, [path], "E11000 duplicate key error collection: agents index: " + path + "_1")
  }

  /** `agent.save()` of a new agent: validation, then the unique indexes, then the insert. */
  function SaveAgent(agents: seq<Agent>, nextId: nat, name: Option<string>, email: Option<string>, phone: Option<string>, now: int): (Result<Agent, Thrown>, seq<Agent>, nat)
  {
    match NewAgent(nextId, name, email, phone, now)
    case Err(t) => (Err(t), agents, nextId)
    case Ok(a) =>
      if FindByEmailOrPhone(agents, Some(a.email), None).Some? then (Err(DuplicateKey("email")), agents, nextId)
      else if FindByPhone(agents, a.phone).Some? then (Err(DuplicateKey("phone")), agents, nextId)
      else (Ok(a), agents + [a], nextId + 1)
  }

  /** Saving keeps the collection well formed; a failed save changes nothing; a successful one appends the new agent. */
  lemma SaveAgentSpec(agents: seq<Agent>, nextId: nat, name: Option<string>, email: Option<string>, phone: Option<string>, now: int)
    requires WellFormed(agents, nextId)
    ensures var out := SaveAgent(agents, nextId, name, email, phone, now);
      WellFormed(out.1, out.2) &&
      (out.0.Err? ==> out.1 == agents && out.2 == nextId) &&
      (out.0.Ok? ==> (out.1 == agents + [out.0.value] && out.2 == nextId + 1 &&
         out.0.value == Agent(nextId, name.value, email.value, phone.value, false, None, Active, None, Some(now), Some(now))))
  {
    var out := SaveAgent(agents, nextId, name, email, phone, now);
    if out.0.Ok? {
      var a := out.0.value;
      assert FindByEmailOrPhone(agents, Some(a.email), None).None?;
      assert forall j :: 0 <= j < |agents| ==> agents[j].email != a.email by {
        forall j | 0 <= j < |agents| ensures agents[j].email != a.email {
          assert !EmailOrPhoneFilter(Some(a.email), None)(agents[j]);
        }
      }
    }
  }

  /** Saving an agent whose email or phone is taken fails with a duplicate-key error. */
  lemma SaveAgentDuplicate(agents: seq<Agent>, nextId: nat, name: string, email: string, phone: string, now: int, j: nat)
    requires name != "" && email != "" && phone != ""
    requires j < |agents| && (agents[j].email == email || agents[j].phone == phone)
    ensures var out := SaveAgent(agents, nextId, Some(name), Some(email), Some(phone), now);
      out.0.Err? && out.0.error.DbFailure? && out.0.error.code == 11000 && out.1 == agents
  {
    if agents[j].email == email {
      assert EmailOrPhoneFilter(Some(email), None)(agents[j]);
    }
  }

  /** The Agent collection. */
  class AgentStore {
    var agents: seq<Agent>
    var nextId: nat

    ghost predicate Valid()
      reads this
    {
      WellFormed(agents, nextId)
    }

    constructor ()
      ensures agents == [] && nextId == 0 && Valid()
    {
      agents := [];
      nextId := 0;
    }

    /** `new Agent({name, phone, email}).save()` */
    method Save(name: Option<string>, email: Option<string>, phone: Option<string>, now: int) returns (r: Result<Agent, Thrown>)
      requires Valid()
      modifies this
      ensures (r, agents, nextId) == SaveAgent(old(agents), old(nextId), name, email, phone, now)
      ensures Valid()
    {
      SaveAgentSpec(agents, nextId, name, email, phone, now);
      var created := NewAgent(nextId, name, email, phone, now);
      if created.Err? {
        return Err(created.error);
      }
      var a := created.value;
      if FindByEmailOrPhone(agents, Some(a.email), None).Some? {
        return Err(DuplicateKey("email"));
      }
      if FindByPhone(agents, a.phone).Some? {
        return Err(DuplicateKey("phone"));
      }
      agents := agents + [a];
      nextId := nextId + 1;
      r := Ok(a);
    }
  }
}
