// The action vocabulary and the policy set, as data.
module Policies {
  import opened Common
  import opened Cedar

  // ---- action groups and scopes --------------------------------------------------------------

  // Forbidden to API keys.
  predicate IsGovernance(a: Action) {
    match a
    case OrgAddUser | OrgRemoveUser | OrgChangeRole | TeamCreate | TeamDelete | TeamAddMember | TeamRemoveMember
       | TeamChangeRole | RoleCreate | RoleDelete | ApiKeyCreate | ApiKeyRevoke => true
    case _ => false
  }

  // What an organization's administrator may do in it, enumerated: an action added later
  // is not included until it is listed here.
  predicate IsAdministrable(a: Action) {
    match a
    case OrgView | OrgAddUser | OrgRemoveUser | OrgChangeRole | TeamView | TeamCreate | TeamDelete | TeamAddMember
       | TeamRemoveMember | TeamChangeRole | WorkflowList | WorkflowView | WorkflowCreate | WorkflowUpdate
       | WorkflowDelete | WorkflowRun | WorkflowExport | WorkflowProtectExport | RoleCreate | RoleDelete
       | ApiKeyCreate | ApiKeyRevoke => true
    case _ => false
  }

  // Scopes of API keys. Only the first two are seeded; no key can carry the others.
  datatype Scope = ReadScope | RunScope | WriteScope | GovernanceScope

  function ScopeText(scope: Scope): string {
    match scope
    case ReadScope => "workflow:read"
    case RunScope => "workflow:run"
    case WriteScope => "workflow:write"
    case GovernanceScope => "governance:denied"
  }

  function ScopeOf(a: Action): Scope {
    match a
    case OrgView => ReadScope
    case TeamView => ReadScope
    case WorkflowList => ReadScope
    case WorkflowView => ReadScope
    case WorkflowRun => RunScope
    case WorkflowRunExported => RunScope
    case WorkflowCreate => WriteScope
    case WorkflowUpdate => WriteScope
    case WorkflowDelete => WriteScope
    case WorkflowExport => WriteScope
    case WorkflowProtectExport => WriteScope
    case _ => GovernanceScope
  }

  // Every action is mapped to the scope a key needs for it.
  function RequiredScopeOf(a: Action): string {
    ScopeText(ScopeOf(a))
  }

  datatype ResourceType = WorkflowType | TeamType | OrgType

  // The resource type each action applies to; Workflow unless listed.
  function ResourceTypeOf(a: Action): ResourceType {
    match a
    case OrgView => OrgType
    case OrgAddUser => OrgType
    case OrgRemoveUser => OrgType
    case OrgChangeRole => OrgType
    case TeamCreate => OrgType
    case RoleCreate => OrgType
    case RoleDelete => OrgType
    case ApiKeyCreate => OrgType
    case ApiKeyRevoke => OrgType
    case TeamView => TeamType
    case TeamDelete => TeamType
    case TeamAddMember => TeamType
    case TeamRemoveMember => TeamType
    case TeamChangeRole => TeamType
    case WorkflowList => TeamType
    case WorkflowCreate => TeamType
    case _ => WorkflowType
  }

  function GroupsOf(a: Action): set<Uid> {
    (if IsGovernance(a) then {GroupUid(Governance)} else {}) +
    (if IsAdministrable(a) then {GroupUid(OrgAdministrable)} else {})
  }

  // ---- the policies ----------------------------------------------------------------------------

  function ResourceAttr(attr: Attr): Expr {
    Get(Var(TheResource), attr)
  }

  function ContextAttr(attr: Attr): Expr {
    Get(Var(TheContext), attr)
  }

  function PrincipalInAttr(attr: Attr): Expr {
    In(Var(ThePrincipal), ResourceAttr(attr))
  }

  function Text(s: string): Expr {
    Lit(Str(s))
  }

  function Only(a: Action): ActionScope {
    Is(ActionUid(a))
  }

  function Either(a: Action, b: Action): ActionScope {
    InAny({ActionUid(a), ActionUid(b)})
  }

  const API_KEY := "api_key"
  const ORG_ONLY := "org_only"

  const VIA_API_KEY := Eq(ContextAttr(AuthMethod), Text(API_KEY))

  // The policy texts are joined extras first, because load_policies sorts them by content,
  // and the evaluator names the policies policy0 to policy19 in that order. The engine
  // reports the first reason in the string order of those names, which is the order here:
  // policy0, policy1, policy10 ... policy19, policy2 ... policy9.
  function PolicyAt(i: nat): Policy {
    match i
    case 0 => Policy("public-run-exported", Permit, Only(WorkflowRunExported), Always)
    case 1 => Policy("must-be-exported", Forbid, Only(WorkflowRunExported), Unless(ResourceAttr(Exported)))
    case 2 => Policy("cap-run", Permit, Only(WorkflowRun), When(PrincipalInAttr(Can(Run))))
    case 3 => Policy("cap-edit", Permit, Either(WorkflowCreate, WorkflowUpdate), When(PrincipalInAttr(Can(Edit))))
    case 4 => Policy("cap-export", Permit, Only(WorkflowExport), When(PrincipalInAttr(Can(Export))))
    case 5 =>
      Policy("cap-protect-export", Permit, Only(WorkflowProtectExport), When(PrincipalInAttr(Can(ProtectExport))))
    case 6 => Policy("cap-delete", Permit, Either(WorkflowDelete, TeamDelete), When(PrincipalInAttr(Can(Delete))))
    case 7 =>
      Policy("cap-manage-members", Permit,
             InAny({ActionUid(TeamAddMember), ActionUid(TeamRemoveMember), ActionUid(TeamChangeRole)}),
             When(PrincipalInAttr(Can(ManageMembers))))
    case 8 =>
      Policy("cap-create-team", Permit, Only(TeamCreate), When(PrincipalInAttr(Can(CreateTeam))))
    case 9 => Policy("cap-manage-roles", Permit, Either(RoleCreate, RoleDelete), When(PrincipalInAttr(Can(ManageRoles))))
    case 10 =>
      Policy("cap-manage-api-keys", Permit, Either(ApiKeyCreate, ApiKeyRevoke), When(PrincipalInAttr(Can(ManageApiKeys))))
    case 11 =>
      Policy("org-super-admin-full", Permit, InAny({GroupUid(OrgAdministrable)}), When(PrincipalInAttr(OrgAdmins)))
    case 12 =>
      Policy("exported-requires-password", Forbid, Only(WorkflowRunExported),
             When(And(ResourceAttr(PasswordProtected), Not(ContextAttr(PasswordVerified)))))
    case 13 =>
      Policy("exported-org-members-only", Forbid, Only(WorkflowRunExported),
             When(And(Eq(ResourceAttr(Visibility), Text(ORG_ONLY)), Not(PrincipalInAttr(Org)))))
    case 14 => Policy("api-key-no-governance", Forbid, InAny({GroupUid(Governance)}), When(VIA_API_KEY))
    case 15 =>
      Policy("api-key-single-org", Forbid, AnyAction,
             When(And(VIA_API_KEY,
                      Not(And(Has(Var(TheContext), ApiKeyOrg), Eq(ResourceAttr(Org), ContextAttr(ApiKeyOrg)))))))
    case 16 =>
      Policy("api-key-scope-check", Forbid, AnyAction,
             When(And(VIA_API_KEY,
                      Not(And(Has(Var(TheContext), RequiredScope),
                              Contains(ContextAttr(ApiKeyScopes), ContextAttr(RequiredScope)))))))
    case 17 => Policy("org-view", Permit, Only(OrgView), When(PrincipalInAttr(Org)))
    case 18 => Policy("team-view", Permit, Only(TeamView), When(PrincipalInAttr(Can(View))))
    case _ => Policy("cap-view", Permit, Either(WorkflowView, WorkflowList), When(PrincipalInAttr(Can(View))))
  }

  const POLICY_COUNT := 20

  function LoadPolicies(): (policies: seq<Policy>)
    ensures |policies| == POLICY_COUNT && forall i :: 0 <= i < POLICY_COUNT ==> policies[i] == PolicyAt(i)
  {
    seq(POLICY_COUNT, i requires 0 <= i < POLICY_COUNT => PolicyAt(i))
  }
}
