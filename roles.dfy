/** `getModelByRole` (src/controllers/auth/utils/get_model_by_role.ts). */
module Roles {
  import opened Wrappers
  import opened Text
  import opened Envelope

  /**
   * The role names. src/core/constants/enums/user_roles.ts is not part of this model;
   * the two values used here are assumed, and only their lower-case forms matter.
   */
  const AGENT: string := "agent"
  const CUSTOMER: string := "customer"

  /** The user collections a role can resolve to; only the Agent collection exists. */
  datatype Collection = AgentCollection

  /** `role.toLowerCase().trim()` */
  function Normalize(role: string): string
  {
    Trim(Lower(role))
  }

  /** Normalizing twice is normalizing once. */
  lemma NormalizeIdempotent(role: string)
    ensures Normalize(Normalize(role)) == Normalize(role)
  {
    var t := Normalize(role);
    TrimKeepsLower(Lower(role));
    LowerFixed(t);
    TrimFixed(t);
  }

  const CUSTOMER_NOT_IMPLEMENTED: Thrown := Raised(JsError(Error, "Customer model not implemented"))
  const INVALID_ROLE: Thrown := ApiFailure(NewApiError(Some("Invalid role in req"), None, None))

  /** `getModelByRole(role)`: the collection for the role, or what the `switch` throws. */
  function GetModelByRole(role: string): (r: Result<Collection, Thrown>)
    ensures r.Ok? <==> Normalize(role) == Lower(AGENT)
    ensures Normalize(role) == Lower(CUSTOMER) ==> r == Err(CUSTOMER_NOT_IMPLEMENTED)
    ensures Normalize(role) != Lower(CUSTOMER) && Normalize(role) != Lower(AGENT) ==> r == Err(INVALID_ROLE)
  {
    var normalized := Normalize(role);
    if normalized == Lower(CUSTOMER) then Err(CUSTOMER_NOT_IMPLEMENTED)
    else if normalized == Lower(AGENT) then Ok(AgentCollection)
    else Err(INVALID_ROLE)
  }

  /** Resolving the normalized role gives the same outcome as resolving the role itself. */
  lemma ResolveNormalized(role: string)
    ensures GetModelByRole(Normalize(role)) == GetModelByRole(role)
  {
    NormalizeIdempotent(role);
  }

  /** Roles that normalize alike resolve alike. */
  lemma ResolveDependsOnNormalForm(a: string, b: string)
    requires Normalize(a) == Normalize(b)
    ensures GetModelByRole(a) == GetModelByRole(b)
  {
  }

  /** Both role names are already lower case, so the `switch` compares against the names themselves. */
  lemma RoleKeys()
    ensures Lower(AGENT) == AGENT && Lower(CUSTOMER) == CUSTOMER
  {
    assert IsLower(AGENT) by {
      forall i | 0 <= i < |AGENT| ensures LowerChar(AGENT[i]) == AGENT[i] {
      }
    }
    assert IsLower(CUSTOMER) by {
      forall i | 0 <= i < |CUSTOMER| ensures LowerChar(CUSTOMER[i]) == CUSTOMER[i] {
      }
    }
    LowerFixed(AGENT);
    LowerFixed(CUSTOMER);
  }

  /** The agent role is its own normal form and resolves to the Agent collection. */
  lemma AgentRoleResolves()
    ensures Normalize(AGENT) == AGENT
    ensures GetModelByRole(AGENT) == Ok(AgentCollection)
  {
    AgentNormalForm();
    RoleKeys();
    assert AGENT != CUSTOMER by { assert |AGENT| != |CUSTOMER|; }
  }

  /** Lower-casing and trimming leave the agent role as it is. */
  lemma AgentNormalForm()
    ensures Normalize(AGENT) == AGENT
  {
    RoleKeys();
    TrimFixed(AGENT);
  }

  /** "AGENT" resolves to the Agent collection. */
  lemma UpperCaseAgent()
    ensures GetModelByRole("AGENT") == Ok(AgentCollection)
  {
    UpperCaseNormalForm();
    AgentRoleResolves();
    ResolveDependsOnNormalForm("AGENT", AGENT);
  }

  /** "AGENT" lower-cases to the agent role. */
  lemma UpperCaseNormalForm()
    ensures Normalize("AGENT") == AGENT
  {
    var l := Lower("AGENT");
    assert l[0] == 'a' && l[1] == 'g' && l[2] == 'e' && l[3] == 'n' && l[4] == 't';
    assert l == AGENT;
    TrimFixed(l);
  }

  /** "Agent" resolves to the Agent collection. */
  lemma CapitalizedAgent()
    ensures GetModelByRole("Agent") == Ok(AgentCollection)
  {
    CapitalizedNormalForm();
    AgentRoleResolves();
    ResolveDependsOnNormalForm("Agent", AGENT);
  }

  /** "Agent" lower-cases to the agent role. */
  lemma CapitalizedNormalForm()
    ensures Normalize("Agent") == AGENT
  {
    var l := Lower("Agent");
    assert l[0] == 'a' && l[1] == 'g' && l[2] == 'e' && l[3] == 'n' && l[4] == 't';
    assert l == AGENT;
    TrimFixed(l);
  }

  /** " agent " resolves to the Agent collection. */
  lemma PaddedAgent()
    ensures GetModelByRole(" agent ") == Ok(AgentCollection)
  {
    PaddedNormalForm();
    AgentRoleResolves();
    ResolveDependsOnNormalForm(" agent ", AGENT);
  }

  /** The surrounding spaces of " agent " are trimmed away. */
  lemma PaddedNormalForm()
    ensures Normalize(" agent ") == AGENT
  {
    var padded := " agent ";
    assert Lower(padded) == padded by {
      forall i | 0 <= i < |padded| ensures Lower(padded)[i] == padded[i] {
        assert !('A' <= padded[i] <= 'Z');
      }
    }
    assert padded == " " + AGENT + " ";
    TrimOneSpace(AGENT);
  }

  /** "user", the default role of `generateReferralCode`, is an invalid role. */
  lemma UserRoleInvalid()
    ensures GetModelByRole("user") == Err(INVALID_ROLE)
  {
    UserNormalForm();
    RoleKeys();
    assert "user" != CUSTOMER by { assert |"user"| != |CUSTOMER|; }
    assert "user" != AGENT by { assert |"user"| != |AGENT|; }
  }

  /** "user" is its own normal form. */
  lemma UserNormalForm()
    ensures Normalize("user") == "user"
  {
    LowerFixed("user");
    TrimFixed("user");
  }

  /** The thrown errors: 'Invalid role in req' carries the default status 500. */
  lemma InvalidRoleStatus()
    ensures INVALID_ROLE.e.statusCode == 500 && INVALID_ROLE.e.message == "Invalid role in req"
  {
  }
}
