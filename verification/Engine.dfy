// The policy engine: one place where evaluation errors outrank the verdict.
module Engine {
  import opened Common
  import opened Cedar
  import opened Policies
  import opened EntitySlices

  datatype AuthzContext = AuthzContext(
    authMethod: string, passwordVerified: bool, apiKeyScopes: set<string>, apiKeyOrg: Option<Id>)
  {
    function ToCedar(action: Option<Action>): map<Attr, Value> {
      map[AuthMethod := Str(authMethod), PasswordVerified := Bool(passwordVerified),
          ApiKeyScopes := StrSet(apiKeyScopes)]
      + (if action.Some? then map[RequiredScope := Str(RequiredScopeOf(action.value))] else map[])
      + (if apiKeyOrg.Some? then map[ApiKeyOrg := Ref(OrgUid(apiKeyOrg.value))] else map[])
    }
  }

  datatype Decision = Allow(policyId: Option<string>) | Deny(policyId: Option<string>) | EngineError(errors: set<nat>)

  // The name of the first policy among the reasons.
  function FirstReason(ps: seq<Policy>, reasons: set<nat>, from: nat): Option<string>
    requires from <= |ps|
    decreases |ps| - from
  {
    if from == |ps| then None
    else if from in reasons then Some(ps[from].name)
    else FirstReason(ps, reasons, from + 1)
  }

  function Enforce(ps: seq<Policy>, r: Response): Decision {
    if r.errors != {} then EngineError(r.errors)
    else if r.allowed then Allow(FirstReason(ps, r.reasons, 0))
    else Deny(FirstReason(ps, r.reasons, 0))
  }

  function AuthorizeRaw(principal: Uid, action: Uid, resource: Uid, entities: Entities, context: AuthzContext,
                        cedarAction: Option<Action>): Decision {
    var policies := LoadPolicies();
    var request := Request(principal, action, resource, context.ToCedar(cedarAction));
    Enforce(policies, IsAuthorized(policies, request, ACTION_ENTITIES + entities))
  }

  function Authorize(principal: Uid, action: Action, resource: Uid, slice: EntitySlice, context: AuthzContext): Decision
    requires slice.Coherent()
  {
    AuthorizeRaw(principal, ActionUid(action), resource, slice.ToEntities(), context, Some(action))
  }

  // One slice, many resources.
  function AuthorizeBatch(principal: Uid, action: Action, resources: seq<Uid>, slice: EntitySlice,
                          context: AuthzContext): (decisions: seq<Decision>)
    requires slice.Coherent()
    ensures |decisions| == |resources|
    ensures forall i :: 0 <= i < |resources| ==>
              decisions[i] == Authorize(principal, action, resources[i], slice, context)
  {
    seq(|resources|, i requires 0 <= i < |resources| =>
      AuthorizeRaw(principal, ActionUid(action), resources[i], slice.ToEntities(), context, Some(action)))
  }

  // ---- no fail-open -------------------------------------------------------------------------------

  // The verdict when a forbid that cannot be evaluated denies, instead of being skipped,
  // and a permit that cannot be evaluated does not count.
  predicate StrictlyAllowed(ps: seq<Policy>, q: Request, es: Entities) {
    && (forall i :: 0 <= i < |ps| && ps[i].effect == Forbid ==> EvalPolicy(ps[i], q, es) == Unsatisfied)
    && exists i :: 0 <= i < |ps| && ps[i].effect == Permit && EvalPolicy(ps[i], q, es) == Satisfied
  }

  // Whatever the entities, even malformed ones: an Allow of the engine is an Allow under
  // the strict reading, and the other way round unless some permit cannot be evaluated.
  lemma NoFailOpen(ps: seq<Policy>, q: Request, es: Entities)
    ensures Enforce(ps, IsAuthorized(ps, q, es)).Allow? <==>
            StrictlyAllowed(ps, q, es) && Select(ps, q, es, Permit, Errored) == {}
  {
    var forbids, permits := Select(ps, q, es, Forbid, Satisfied), Select(ps, q, es, Permit, Satisfied);
    var errors := Select(ps, q, es, Forbid, Errored) + Select(ps, q, es, Permit, Errored);
    if StrictlyAllowed(ps, q, es) && Select(ps, q, es, Permit, Errored) == {} {
      var i :| 0 <= i < |ps| && ps[i].effect == Permit && EvalPolicy(ps[i], q, es) == Satisfied;
      assert i in permits;
      assert errors == {} && forbids == {};
    }
    if Enforce(ps, IsAuthorized(ps, q, es)).Allow? {
      forall i | 0 <= i < |ps| && ps[i].effect == Forbid ensures EvalPolicy(ps[i], q, es) == Unsatisfied {
        assert i !in forbids && i !in errors;
      }
      var i :| i in permits;
    }
  }
}
