// What the engine decides over the slices the provider builds: totality, a closed form,
// tenant locality, monotonicity, session refinement and slice extension.
module Decisions {
  import opened Common
  import opened Cedar
  import opened CapRefs
  import opened Policies
  import opened EntitySlices
  import opened Engine
  import opened EntityProvider
  import opened Meaning

  // A row of the table behind the reference exists; an organization is never looked up.
  predicate Present(store: Store, r: Uid) {
    match r
    case WorkflowUid(id) => id in store.workflows
    case TeamUid(id) => id in store.db.teams
    case OrgUid(_) => true
    case _ => false
  }

  function EntityAt(store: Store, r: Uid): ResourceEntity
    requires Present(store, r)
  {
    match r
    case WorkflowUid(id) => BuildWorkflowEntity(id, store.workflows[id])
    case TeamUid(id) => BuildTeamEntity(id, store.db.teams[id].org)
    case OrgUid(id) => BuildOrgEntity(id)
  }

  // The decision on r over the slice built for refs.
  function Ask(store: Store, caps: CapabilitySlice, subject: Subject, refs: set<Uid>, a: Action, r: Uid,
               ctx: AuthzContext): Decision {
    SliceIsCoherent(store, caps, subject, refs);
    Authorize(UserUid(subject), a, r, SliceOf(store, caps, subject, refs), ctx)
  }

  function StandingAt(store: Store, caps: CapabilitySlice, r: Uid): Standing
    requires Present(store, r)
  {
    StandingOf(caps, EntityAt(store, r))
  }

  lemma PresentIsInSlice(store: Store, caps: CapabilitySlice, subject: Subject, refs: set<Uid>, r: Uid)
    requires r in refs && Present(store, r)
    ensures EntityAt(store, r) in SliceOf(store, caps, subject, refs).resources && EntityAt(store, r).Uid() == r
  {
    var e := EntityAt(store, r);
    match r
    case WorkflowUid(id) => assert e in WorkflowEntities(store, refs);
    case TeamUid(id) => assert e in TeamEntities(store, refs);
    case OrgUid(id) => assert e in OrgEntities(refs);
  }

  // Over a slice of the provider the engine's decision on a declared pair is the one
  // computed from the principal's standing at that resource. In particular no policy
  // fails to evaluate.
  lemma AskDecides(store: Store, caps: CapabilitySlice, subject: Subject, refs: set<Uid>, a: Action, r: Uid,
                   ctx: AuthzContext)
    requires r in refs && Present(store, r) && Declared(a, EntityAt(store, r))
    ensures Ask(store, caps, subject, refs, a, r, ctx) == Decide(a, EntityAt(store, r), StandingAt(store, caps, r), ctx)
  {
    SliceIsCoherent(store, caps, subject, refs);
    PresentIsInSlice(store, caps, subject, refs, r);
    EntitiesAreBuilt(store, refs, EntityAt(store, r));
    SliceDecides(SliceOf(store, caps, subject, refs), caps, a, EntityAt(store, r), ctx);
  }

  // ---- closed form --------------------------------------------------------------------------------

  predicate Grants(a: Action, st: Standing) {
    || (RequiredCap(a).Some? && RequiredCap(a).value in st.local)
    || (a == OrgView && st.member)
    || (IsAdministrable(a) && st.superAdmin)
    || a == WorkflowRunExported
  }

  predicate ExportBlocks(a: Action, e: ResourceEntity, st: Standing, ctx: AuthzContext) {
    a == WorkflowRunExported && e.WorkflowEntity? &&
    (!e.exported || (e.passwordProtected && !ctx.passwordVerified) || (e.visibility == ORG_ONLY && !st.member))
  }

  predicate SessionBlocks(a: Action, org: Id, ctx: AuthzContext) {
    ctx.authMethod == API_KEY &&
    (IsGovernance(a) || ctx.apiKeyOrg != Some(org) || RequiredScopeOf(a) !in ctx.apiKeyScopes)
  }

  predicate MayDo(a: Action, e: ResourceEntity, st: Standing, ctx: AuthzContext) {
    Grants(a, st) && !ExportBlocks(a, e, st, ctx) && !SessionBlocks(a, e.OrgId(), ctx)
  }

  // The permit that speaks for each action.
  function PermitFor(a: Action): nat {
    match a
    case WorkflowRun => 2
    case WorkflowCreate => 3
    case WorkflowUpdate => 3
    case WorkflowExport => 4
    case WorkflowProtectExport => 5
    case WorkflowDelete => 6
    case TeamDelete => 6
    case TeamAddMember => 7
    case TeamRemoveMember => 7
    case TeamChangeRole => 7
    case TeamCreate => 8
    case RoleCreate => 9
    case RoleDelete => 9
    case ApiKeyCreate => 10
    case ApiKeyRevoke => 10
    case OrgView => 17
    case TeamView => 18
    case WorkflowView => 19
    case WorkflowList => 19
    case WorkflowRunExported => 0
    case _ => 11
  }

  lemma PermitGrants(i: nat, a: Action, e: ResourceEntity, st: Standing, ctx: AuthzContext)
    requires i < 20 && EffectOf(i) == Permit && PolicyHolds(i, a, e, st, ctx)
    ensures Grants(a, st)
  {
    hide RequiredScopeOf, IsGovernance, IsAdministrable;
  }

  lemma GrantPermits(a: Action, e: ResourceEntity, st: Standing, ctx: AuthzContext) returns (i: nat)
    requires Grants(a, st)
    ensures i < 20 && EffectOf(i) == Permit && PolicyHolds(i, a, e, st, ctx)
  {
    i := if IsAdministrable(a) && st.superAdmin then 11 else PermitFor(a);
  }

  lemma PermitsGrant(a: Action, e: ResourceEntity, st: Standing, ctx: AuthzContext)
    ensures Holding(Permit, a, e, st, ctx) != {} <==> Grants(a, st)
  {
    var held := Holding(Permit, a, e, st, ctx);
    if held != {} {
      var i :| i in held;
      PermitGrants(i, a, e, st, ctx);
    }
    if Grants(a, st) {
      var i := GrantPermits(a, e, st, ctx);
      assert i in held;
    }
  }

  lemma ForbidBlocks(i: nat, a: Action, e: ResourceEntity, st: Standing, ctx: AuthzContext)
    requires i < 20 && EffectOf(i) == Forbid && PolicyHolds(i, a, e, st, ctx)
    ensures ExportBlocks(a, e, st, ctx) || SessionBlocks(a, e.OrgId(), ctx)
  {
    assert i == 1 || i == 12 || i == 13 || i == 14 || i == 15 || i == 16;
  }

  lemma BlockForbids(a: Action, e: ResourceEntity, st: Standing, ctx: AuthzContext) returns (i: nat)
    requires ExportBlocks(a, e, st, ctx) || SessionBlocks(a, e.OrgId(), ctx)
    ensures i < 20 && EffectOf(i) == Forbid && PolicyHolds(i, a, e, st, ctx)
  {
    if ExportBlocks(a, e, st, ctx) {
      i := if !e.exported then 1 else if e.visibility == ORG_ONLY && !st.member then 13 else 12;
    } else {
      i := if IsGovernance(a) then 14 else if ctx.apiKeyOrg != Some(e.OrgId()) then 15 else 16;
    }
  }

  lemma ForbidsBlock(a: Action, e: ResourceEntity, st: Standing, ctx: AuthzContext)
    ensures Holding(Forbid, a, e, st, ctx) != {} <==> ExportBlocks(a, e, st, ctx) || SessionBlocks(a, e.OrgId(), ctx)
  {
    var held := Holding(Forbid, a, e, st, ctx);
    if held != {} {
      var i :| i in held;
      ForbidBlocks(i, a, e, st, ctx);
    }
    if ExportBlocks(a, e, st, ctx) || SessionBlocks(a, e.OrgId(), ctx) {
      var i := BlockForbids(a, e, st, ctx);
      assert i in held;
    }
  }

  // Totality, and the closed form of every decision on a declared pair.
  lemma AskAllows(store: Store, caps: CapabilitySlice, subject: Subject, refs: set<Uid>, a: Action, r: Uid,
                  ctx: AuthzContext)
    requires r in refs && Present(store, r) && Declared(a, EntityAt(store, r))
    ensures !Ask(store, caps, subject, refs, a, r, ctx).EngineError?
    ensures Ask(store, caps, subject, refs, a, r, ctx).Allow? <==>
            MayDo(a, EntityAt(store, r), StandingAt(store, caps, r), ctx)
  {
    AskDecides(store, caps, subject, refs, a, r, ctx);
    PermitsGrant(a, EntityAt(store, r), StandingAt(store, caps, r), ctx);
    ForbidsBlock(a, EntityAt(store, r), StandingAt(store, caps, r), ctx);
  }

  // ---- the policy named --------------------------------------------------------------------------

  lemma {:induction false} FirstReasonIs(ps: seq<Policy>, reasons: set<nat>, from: nat, i: nat)
    requires from <= i < |ps| && i in reasons && forall j :: from <= j < i ==> j !in reasons
    ensures FirstReason(ps, reasons, from) == Some(ps[i].name)
    decreases i - from
  {
    if from < i {
      FirstReasonIs(ps, reasons, from + 1, i);
    }
  }

  lemma {:induction false} NoReason(ps: seq<Policy>, reasons: set<nat>, from: nat)
    requires from <= |ps| && reasons == {}
    ensures FirstReason(ps, reasons, from) == None
    decreases |ps| - from
  {
    if from < |ps| {
      NoReason(ps, reasons, from + 1);
    }
  }

  // i is the first policy of the effect that applies.
  ghost predicate First(effect: Effect, i: nat, a: Action, e: ResourceEntity, st: Standing, ctx: AuthzContext) {
    && i < 20 && EffectOf(i) == effect && PolicyHolds(i, a, e, st, ctx)
    && forall j: nat :: j < i && EffectOf(j) == effect ==> !PolicyHolds(j, a, e, st, ctx)
  }

  lemma FirstIsNamed(effect: Effect, i: nat, a: Action, e: ResourceEntity, st: Standing, ctx: AuthzContext)
    requires First(effect, i, a, e, st, ctx)
    ensures Holding(effect, a, e, st, ctx) != {}
    ensures FirstReason(LoadPolicies(), Holding(effect, a, e, st, ctx), 0) == Some(PolicyAt(i).name)
  {
    hide PolicyHolds, EffectOf, PolicyAt;
    var held := Holding(effect, a, e, st, ctx);
    assert i in held;
    FirstReasonIs(LoadPolicies(), held, 0, i);
  }

  // The forbid that is named when several apply.
  function DecidingForbid(a: Action, e: ResourceEntity, st: Standing, ctx: AuthzContext): nat {
    if a == WorkflowRunExported && e.WorkflowEntity? && !e.exported then 1
    else if a == WorkflowRunExported && e.WorkflowEntity? && e.passwordProtected && !ctx.passwordVerified then 12
    else if a == WorkflowRunExported && e.WorkflowEntity? && e.visibility == ORG_ONLY && !st.member then 13
    else if IsGovernance(a) then 14
    else if ctx.apiKeyOrg != Some(e.OrgId()) then 15
    else 16
  }

  lemma ForbidIsFirst(a: Action, e: ResourceEntity, st: Standing, ctx: AuthzContext)
    requires ExportBlocks(a, e, st, ctx) || SessionBlocks(a, e.OrgId(), ctx)
    ensures First(Forbid, DecidingForbid(a, e, st, ctx), a, e, st, ctx)
  {
    hide RequiredScopeOf, IsGovernance, IsAdministrable;
  }

  // The permit that is named: the action's own before the administrator's, except for views.
  function DecidingPermit(a: Action, st: Standing): nat {
    var own := RequiredCap(a).Some? && RequiredCap(a).value in st.local && PermitFor(a) < 11;
    if IsAdministrable(a) && st.superAdmin && !own then 11 else PermitFor(a)
  }

  // The permits that can apply to an action are its own and the administrator's.
  lemma TwoPermits(j: nat, a: Action, e: ResourceEntity, st: Standing, ctx: AuthzContext)
    requires j < 20 && EffectOf(j) == Permit && PolicyHolds(j, a, e, st, ctx) && j != 11
    ensures j == PermitFor(a)
  {
    hide RequiredScopeOf, IsGovernance, IsAdministrable;
  }

  lemma OwnPermitHolds(a: Action, e: ResourceEntity, st: Standing, ctx: AuthzContext)
    requires PermitFor(a) != 11
    ensures EffectOf(PermitFor(a)) == Permit && PermitFor(a) < 20
    ensures PolicyHolds(PermitFor(a), a, e, st, ctx) <==>
            || (RequiredCap(a).Some? && RequiredCap(a).value in st.local)
            || (a == OrgView && st.member) || a == WorkflowRunExported
  {
  }

  lemma AdministratorsPermit(a: Action, e: ResourceEntity, st: Standing, ctx: AuthzContext)
    ensures PolicyHolds(11, a, e, st, ctx) <==> IsAdministrable(a) && st.superAdmin
    ensures PermitFor(a) == 11 ==> RequiredCap(a).None? && a != OrgView && a != WorkflowRunExported
    ensures IsAdministrable(a) ==> a != WorkflowRunExported && (a == OrgView ==> PermitFor(a) > 11)
  {
  }

  lemma PermitIsFirst(a: Action, e: ResourceEntity, st: Standing, ctx: AuthzContext)
    requires Grants(a, st)
    ensures First(Permit, DecidingPermit(a, st), a, e, st, ctx)
  {
    var i := DecidingPermit(a, st);
    AdministratorsPermit(a, e, st, ctx);
    hide PolicyHolds, PermitFor, RequiredCap, IsAdministrable;
    if PermitFor(a) != 11 {
      OwnPermitHolds(a, e, st, ctx);
    }
    forall j: nat | j < i && EffectOf(j) == Permit ensures !PolicyHolds(j, a, e, st, ctx) {
      if PolicyHolds(j, a, e, st, ctx) && j != 11 {
        TwoPermits(j, a, e, st, ctx);
      }
    }
  }

  lemma ForbidIsNamed(a: Action, e: ResourceEntity, st: Standing, ctx: AuthzContext)
    requires ExportBlocks(a, e, st, ctx) || SessionBlocks(a, e.OrgId(), ctx)
    ensures Holding(Forbid, a, e, st, ctx) != {}
    ensures FirstReason(LoadPolicies(), Holding(Forbid, a, e, st, ctx), 0) ==
            Some(match DecidingForbid(a, e, st, ctx)
                 case 1 => "must-be-exported"
                 case 12 => "exported-requires-password"
                 case 13 => "exported-org-members-only"
                 case 14 => "api-key-no-governance"
                 case 15 => "api-key-single-org"
                 case _ => "api-key-scope-check")
  {
    ForbidIsFirst(a, e, st, ctx);
    hide Holding, First;
    FirstIsNamed(Forbid, DecidingForbid(a, e, st, ctx), a, e, st, ctx);
  }

  lemma PermitIsNamed(a: Action, e: ResourceEntity, st: Standing, ctx: AuthzContext)
    requires Grants(a, st)
    ensures Holding(Permit, a, e, st, ctx) != {}
    ensures FirstReason(LoadPolicies(), Holding(Permit, a, e, st, ctx), 0) == Some(PolicyAt(DecidingPermit(a, st)).name)
  {
    hide Holding, First, DecidingPermit, PolicyAt;
    PermitIsFirst(a, e, st, ctx);
    FirstIsNamed(Permit, DecidingPermit(a, st), a, e, st, ctx);
  }

  // Every decision with the policy it names, by the names the policies carry. A denial without
  // an applicable forbid names none.
  lemma DecisionNames(store: Store, caps: CapabilitySlice, subject: Subject, refs: set<Uid>, a: Action, r: Uid,
                      ctx: AuthzContext)
    requires r in refs && Present(store, r) && Declared(a, EntityAt(store, r))
    ensures var e, st := EntityAt(store, r), StandingAt(store, caps, r);
            Ask(store, caps, subject, refs, a, r, ctx) ==
            if ExportBlocks(a, e, st, ctx) || SessionBlocks(a, e.OrgId(), ctx)
            then Deny(Some(match DecidingForbid(a, e, st, ctx)
                           case 1 => "must-be-exported"
                           case 12 => "exported-requires-password"
                           case 13 => "exported-org-members-only"
                           case 14 => "api-key-no-governance"
                           case 15 => "api-key-single-org"
                           case _ => "api-key-scope-check"))
            else if Grants(a, st) then Allow(Some(PolicyAt(DecidingPermit(a, st)).name))
            else Deny(None)
  {
    hide Ask, PolicyAt, PolicyHolds, EffectOf, Holding, FirstReason, LoadPolicies, DecidingForbid, DecidingPermit,
      ExportBlocks, SessionBlocks, Grants;
    var e, st := EntityAt(store, r), StandingAt(store, caps, r);
    AskDecides(store, caps, subject, refs, a, r, ctx);
    PermitsGrant(a, e, st, ctx);
    ForbidsBlock(a, e, st, ctx);
    if ExportBlocks(a, e, st, ctx) || SessionBlocks(a, e.OrgId(), ctx) {
      ForbidIsNamed(a, e, st, ctx);
    } else if Grants(a, st) {
      PermitIsNamed(a, e, st, ctx);
    } else {
      NoReason(LoadPolicies(), Holding(Permit, a, e, st, ctx), 0);
    }
  }

  // Running a published workflow from outside asks the same of everyone, administrators of
  // its organization included: its export row says that it is published, the password has
  // been given if there is one, and the caller is a member if it is restricted to members.
  lemma RunExportedAllows(store: Store, caps: CapabilitySlice, subject: Subject, refs: set<Uid>, id: Id,
                          ctx: AuthzContext)
    requires WorkflowUid(id) in refs && id in store.workflows && ctx.authMethod != API_KEY
    ensures var row := store.workflows[id];
            Ask(store, caps, subject, refs, WorkflowRunExported, WorkflowUid(id), ctx).Allow? <==>
            && row.exportRow.Some? && row.exportRow.value.isExported
            && (row.exportRow.value.passwordHash.Some? ==> ctx.passwordVerified)
            && (row.exportRow.value.visibility == "org_only" ==> row.org in caps.orgCaps)
  {
    AskAllows(store, caps, subject, refs, WorkflowRunExported, WorkflowUid(id), ctx);
  }

  // It is also the only action an anonymous caller is ever allowed.
  lemma AnonymousOnlyRunsExported(store: Store, refs: set<Uid>, a: Action, r: Uid, ctx: AuthzContext)
    requires r in refs && Present(store, r) && Declared(a, EntityAt(store, r))
    ensures Ask(store, CapsOf(store.db, Anonymous), Anonymous, refs, a, r, ctx).Allow? ==> a == WorkflowRunExported
  {
    AskAllows(store, CapsOf(store.db, Anonymous), Anonymous, refs, a, r, ctx);
  }

  // ---- absent resources ------------------------------------------------------------------------------

  // A workflow or team without a row is never allowed nor denied: whatever the action, the
  // engine reports an error.
  lemma AbsentIsError(store: Store, caps: CapabilitySlice, subject: Subject, refs: set<Uid>, a: Action, r: Uid,
                      ctx: AuthzContext)
    requires (r.WorkflowUid? || r.TeamUid?) && !Present(store, r)
    ensures Ask(store, caps, subject, refs, a, r, ctx).EngineError?
  {
    SliceIsCoherent(store, caps, subject, refs);
    var slice := SliceOf(store, caps, subject, refs);
    var q := Request(UserUid(subject), ActionUid(a), r, ctx.ToCedar(Some(a)));
    if r in slice.ResourceUids() {
      var e :| e in slice.resources && e.Uid() == r;
      EntitiesAreBuilt(store, refs, e);
    }
    NotInStore(slice, r);
    forall u ensures IsIn(FullStore(slice), ActionUid(a), u) <==> u == ActionUid(a) || u in GroupsOf(a) {
      ActionIsIn(slice, a, u);
    }
    MissingResourceFaults(q, FullStore(slice), a);
  }

  // ---- tenant locality --------------------------------------------------------------------------------

  // The two slices agree about the resource's own team and organization. The one thing that
  // may differ there is manage_org on a team role.
  predicate AgreeAt(caps: CapabilitySlice, caps': CapabilitySlice, e: ResourceEntity) {
    && caps.At(e.LevelOf(), e.PlaceOf()) - {ManageOrg} == caps'.At(e.LevelOf(), e.PlaceOf()) - {ManageOrg}
    && (ManageOrg in caps.At(OrgLevel, e.OrgId()) <==> ManageOrg in caps'.At(OrgLevel, e.OrgId()))
    && (e.OrgId() in caps.orgCaps <==> e.OrgId() in caps'.orgCaps)
  }

  predicate AgreeBarManageOrg(st: Standing, st': Standing) {
    st.local - {ManageOrg} == st'.local - {ManageOrg} && st.superAdmin == st'.superAdmin && st.member == st'.member
  }

  lemma PolicyIgnoresLocalManageOrg(i: nat, a: Action, e: ResourceEntity, st: Standing, st': Standing,
                                    ctx: AuthzContext)
    requires AgreeBarManageOrg(st, st')
    ensures PolicyHolds(i, a, e, st, ctx) == PolicyHolds(i, a, e, st', ctx)
  {
    assert forall c: Capability :: c != ManageOrg ==>
      (c in st.local <==> c in st.local - {ManageOrg}) && (c in st'.local <==> c in st'.local - {ManageOrg});
  }

  lemma SameHolding(effect: Effect, a: Action, e: ResourceEntity, st: Standing, st': Standing, ctx: AuthzContext)
    requires AgreeBarManageOrg(st, st')
    ensures Holding(effect, a, e, st, ctx) == Holding(effect, a, e, st', ctx)
  {
    var here, there := Holding(effect, a, e, st, ctx), Holding(effect, a, e, st', ctx);
    forall i: nat ensures i in here <==> i in there {
      PolicyIgnoresLocalManageOrg(i, a, e, st, st', ctx);
    }
  }

  lemma LocalManageOrgIsInert(a: Action, e: ResourceEntity, st: Standing, st': Standing, ctx: AuthzContext)
    requires AgreeBarManageOrg(st, st')
    ensures Decide(a, e, st, ctx) == Decide(a, e, st', ctx)
  {
    SameHolding(Permit, a, e, st, st', ctx);
    SameHolding(Forbid, a, e, st, st', ctx);
  }

  // Whatever else a principal holds, anywhere, and whatever the tables hold elsewhere, the
  // decision is the same, down to the policy named. Even the principal does not matter.
  lemma TenantLocality(store: Store, store': Store, caps: CapabilitySlice, caps': CapabilitySlice, subject: Subject,
                       subject': Subject, refs: set<Uid>, refs': set<Uid>, a: Action, r: Uid, ctx: AuthzContext)
    requires r in refs && r in refs' && Present(store, r) && Present(store', r)
    requires EntityAt(store, r) == EntityAt(store', r) && Declared(a, EntityAt(store, r))
    requires AgreeAt(caps, caps', EntityAt(store, r))
    ensures Ask(store, caps, subject, refs, a, r, ctx) == Ask(store', caps', subject', refs', a, r, ctx)
  {
    AskDecides(store, caps, subject, refs, a, r, ctx);
    AskDecides(store', caps', subject', refs', a, r, ctx);
    LocalManageOrgIsInert(a, EntityAt(store, r), StandingAt(store, caps, r), StandingAt(store, caps', r), ctx);
  }

  // ---- monotonicity -------------------------------------------------------------------------------------

  predicate Extends(caps: CapabilitySlice, more: CapabilitySlice) {
    && caps.teamCaps.Keys <= more.teamCaps.Keys && caps.orgCaps.Keys <= more.orgCaps.Keys
    && (forall t :: t in caps.teamCaps ==> caps.teamCaps[t] <= more.teamCaps[t])
    && (forall o :: o in caps.orgCaps ==> caps.orgCaps[o] <= more.orgCaps[o])
  }

  lemma StandingGrows(caps: CapabilitySlice, more: CapabilitySlice, e: ResourceEntity)
    requires Extends(caps, more)
    ensures var st, st' := StandingOf(caps, e), StandingOf(more, e);
            st.local <= st'.local && (st.superAdmin ==> st'.superAdmin) && (st.member ==> st'.member)
  {
  }

  // More capabilities or memberships never turn an Allow into anything else.
  lemma Monotone(store: Store, caps: CapabilitySlice, more: CapabilitySlice, subject: Subject, refs: set<Uid>,
                 a: Action, r: Uid, ctx: AuthzContext)
    requires r in refs && Present(store, r) && Declared(a, EntityAt(store, r))
    requires Extends(caps, more)
    ensures Ask(store, caps, subject, refs, a, r, ctx).Allow? ==> Ask(store, more, subject, refs, a, r, ctx).Allow?
  {
    AskAllows(store, caps, subject, refs, a, r, ctx);
    AskAllows(store, more, subject, refs, a, r, ctx);
    StandingGrows(caps, more, EntityAt(store, r));
  }

  // ---- sessions -------------------------------------------------------------------------------------------

  // An API key may do exactly what the same person may do in person, outside governance,
  // in the key's own organization, within its scopes.
  lemma SessionRefinement(store: Store, caps: CapabilitySlice, subject: Subject, refs: set<Uid>, a: Action, r: Uid,
                          ctx: AuthzContext, inPerson: AuthzContext)
    requires r in refs && Present(store, r) && Declared(a, EntityAt(store, r))
    requires ctx.authMethod == API_KEY && inPerson.authMethod != API_KEY
    requires ctx.passwordVerified == inPerson.passwordVerified
    ensures Ask(store, caps, subject, refs, a, r, ctx).Allow? <==>
            && Ask(store, caps, subject, refs, a, r, inPerson).Allow?
            && !IsGovernance(a)
            && ctx.apiKeyOrg == Some(EntityAt(store, r).OrgId())
            && RequiredScopeOf(a) in ctx.apiKeyScopes
  {
    AskAllows(store, caps, subject, refs, a, r, ctx);
    AskAllows(store, caps, subject, refs, a, r, inPerson);
  }

  // A session of a key, and the same person without it.
  predicate KeyAndPerson(ctx: AuthzContext, inPerson: AuthzContext) {
    ctx.authMethod == "api_key" && inPerson.authMethod != "api_key" && ctx.passwordVerified == inPerson.passwordVerified
  }

  // Which scope opens which action, in the texts that are stored with the key.
  lemma KeysReadWithRead(store: Store, caps: CapabilitySlice, subject: Subject, refs: set<Uid>, a: Action, r: Uid,
                         ctx: AuthzContext, inPerson: AuthzContext)
    requires r in refs && Present(store, r) && Declared(a, EntityAt(store, r)) && KeyAndPerson(ctx, inPerson)
    requires a == OrgView || a == TeamView || a == WorkflowList || a == WorkflowView
    ensures Ask(store, caps, subject, refs, a, r, ctx).Allow? <==>
            && Ask(store, caps, subject, refs, a, r, inPerson).Allow?
            && ctx.apiKeyOrg == Some(EntityAt(store, r).OrgId()) && "workflow:read" in ctx.apiKeyScopes
  {
    hide Ask;
    SessionRefinement(store, caps, subject, refs, a, r, ctx, inPerson);
  }

  lemma KeysRunWithRun(store: Store, caps: CapabilitySlice, subject: Subject, refs: set<Uid>, a: Action, r: Uid,
                       ctx: AuthzContext, inPerson: AuthzContext)
    requires r in refs && Present(store, r) && Declared(a, EntityAt(store, r)) && KeyAndPerson(ctx, inPerson)
    requires a == WorkflowRun || a == WorkflowRunExported
    ensures Ask(store, caps, subject, refs, a, r, ctx).Allow? <==>
            && Ask(store, caps, subject, refs, a, r, inPerson).Allow?
            && ctx.apiKeyOrg == Some(EntityAt(store, r).OrgId()) && "workflow:run" in ctx.apiKeyScopes
  {
    hide Ask;
    SessionRefinement(store, caps, subject, refs, a, r, ctx, inPerson);
  }

  lemma KeysWriteWithWrite(store: Store, caps: CapabilitySlice, subject: Subject, refs: set<Uid>, a: Action, r: Uid,
                           ctx: AuthzContext, inPerson: AuthzContext)
    requires r in refs && Present(store, r) && Declared(a, EntityAt(store, r)) && KeyAndPerson(ctx, inPerson)
    requires a == WorkflowCreate || a == WorkflowUpdate || a == WorkflowDelete || a == WorkflowExport
             || a == WorkflowProtectExport
    ensures Ask(store, caps, subject, refs, a, r, ctx).Allow? <==>
            && Ask(store, caps, subject, refs, a, r, inPerson).Allow?
            && ctx.apiKeyOrg == Some(EntityAt(store, r).OrgId()) && "workflow:write" in ctx.apiKeyScopes
  {
    hide Ask;
    SessionRefinement(store, caps, subject, refs, a, r, ctx, inPerson);
  }

  // Whatever its scopes, a key never governs.
  lemma KeysNeverGovern(store: Store, caps: CapabilitySlice, subject: Subject, refs: set<Uid>, a: Action, r: Uid,
                        ctx: AuthzContext)
    requires r in refs && Present(store, r) && Declared(a, EntityAt(store, r)) && ctx.authMethod == "api_key"
    requires a == OrgAddUser || a == OrgRemoveUser || a == OrgChangeRole || a == TeamCreate || a == TeamDelete
             || a == TeamAddMember || a == TeamRemoveMember || a == TeamChangeRole || a == RoleCreate
             || a == RoleDelete || a == ApiKeyCreate || a == ApiKeyRevoke
    ensures Ask(store, caps, subject, refs, a, r, ctx).Deny?
  {
    hide Ask;
    AskAllows(store, caps, subject, refs, a, r, ctx);
  }

  const SEEDED_SCOPES := {ScopeText(ReadScope), ScopeText(RunScope)}

  const READ_OR_RUN_ACTIONS := {OrgView, TeamView, WorkflowList, WorkflowView, WorkflowRun, WorkflowRunExported}

  lemma SeededScopeOf(a: Action)
    requires RequiredScopeOf(a) in SEEDED_SCOPES
    ensures a in READ_OR_RUN_ACTIONS
  {
    assert |RequiredScopeOf(a)| <= 13;
  }

  // With the scopes that can be granted, a key only ever reads or runs.
  lemma SeededKeysReadOrRun(store: Store, caps: CapabilitySlice, subject: Subject, refs: set<Uid>, a: Action, r: Uid,
                            ctx: AuthzContext)
    requires r in refs && Present(store, r) && Declared(a, EntityAt(store, r))
    requires ctx.authMethod == API_KEY && ctx.apiKeyScopes <= SEEDED_SCOPES
    ensures Ask(store, caps, subject, refs, a, r, ctx).Allow? ==> a in READ_OR_RUN_ACTIONS
  {
    AskAllows(store, caps, subject, refs, a, r, ctx);
    if RequiredScopeOf(a) in ctx.apiKeyScopes {
      SeededScopeOf(a);
    }
  }

  // ---- slice extension ----------------------------------------------------------------------------------------

  // One slice for many resources decides on each of them as the slice built for it alone.
  lemma SliceExtension(store: Store, caps: CapabilitySlice, subject: Subject, refs: seq<Uid>, a: Action, i: nat,
                       ctx: AuthzContext)
    requires i < |refs| && Present(store, refs[i]) && Declared(a, EntityAt(store, refs[i]))
    ensures var all := set r | r in refs;
            SliceOf(store, caps, subject, all).Coherent() &&
            AuthorizeBatch(UserUid(subject), a, refs, SliceOf(store, caps, subject, all), ctx)[i]
            == Ask(store, caps, subject, {refs[i]}, a, refs[i], ctx)
  {
    var all := set r | r in refs;
    SliceIsCoherent(store, caps, subject, all);
    assert refs[i] in refs;
    AskDecides(store, caps, subject, all, a, refs[i], ctx);
    AskDecides(store, caps, subject, {refs[i]}, a, refs[i], ctx);
  }
}
