// What the twenty policies mean over the entities the provider builds: the decision as a
// function of a few facts about the principal and the resource.
module Meaning {
  import opened Common
  import opened Cedar
  import opened CapRefs
  import opened Policies
  import opened EntitySlices
  import opened Engine
  import opened EntityProvider

  // What a principal is to a resource: the capabilities it holds at the resource's own
  // team or organization, whether it holds manage_org in the resource's organization, and
  // whether it belongs to that organization.
  datatype Standing = Standing(local: set<Capability>, superAdmin: bool, member: bool)

  function StandingOf(caps: CapabilitySlice, e: ResourceEntity): Standing {
    Standing(caps.At(e.LevelOf(), e.PlaceOf()), ManageOrg in caps.At(OrgLevel, e.OrgId()), e.OrgId() in caps.orgCaps)
  }

  // The pairs the schema declares.
  predicate Declared(a: Action, e: ResourceEntity) {
    ResourceTypeOf(a) == e.Type()
  }

  // When each policy applies, in the order of PolicyAt.
  predicate PolicyHolds(i: nat, a: Action, e: ResourceEntity, st: Standing, ctx: AuthzContext) {
    match i
    case 0 => a == WorkflowRunExported
    case 1 => a == WorkflowRunExported && e.WorkflowEntity? && !e.exported
    case 2 => a == WorkflowRun && Run in st.local
    case 3 => (a == WorkflowCreate || a == WorkflowUpdate) && Edit in st.local
    case 4 => a == WorkflowExport && Export in st.local
    case 5 => a == WorkflowProtectExport && ProtectExport in st.local
    case 6 => (a == WorkflowDelete || a == TeamDelete) && Delete in st.local
    case 7 => (a == TeamAddMember || a == TeamRemoveMember || a == TeamChangeRole) && ManageMembers in st.local
    case 8 => a == TeamCreate && CreateTeam in st.local
    case 9 => (a == RoleCreate || a == RoleDelete) && ManageRoles in st.local
    case 10 => (a == ApiKeyCreate || a == ApiKeyRevoke) && ManageApiKeys in st.local
    case 11 => IsAdministrable(a) && st.superAdmin
    case 12 => a == WorkflowRunExported && e.WorkflowEntity? && e.passwordProtected && !ctx.passwordVerified
    case 13 => a == WorkflowRunExported && e.WorkflowEntity? && e.visibility == ORG_ONLY && !st.member
    case 14 => IsGovernance(a) && ctx.authMethod == API_KEY
    case 15 => ctx.authMethod == API_KEY && ctx.apiKeyOrg != Some(e.OrgId())
    case 16 => ctx.authMethod == API_KEY && RequiredScopeOf(a) !in ctx.apiKeyScopes
    case 17 => a == OrgView && st.member
    case 18 => a == TeamView && View in st.local
    case _ => (a == WorkflowView || a == WorkflowList) && View in st.local
  }

  function EffectOf(i: nat): Effect {
    if i == 1 || 12 <= i <= 16 then Forbid else Permit
  }

  function Holding(effect: Effect, a: Action, e: ResourceEntity, st: Standing, ctx: AuthzContext): set<nat> {
    set i: nat | i < 20 && EffectOf(i) == effect && PolicyHolds(i, a, e, st, ctx)
  }

  // The decision, computed from the standing alone.
  function Decide(a: Action, e: ResourceEntity, st: Standing, ctx: AuthzContext): Decision {
    var forbids, permits := Holding(Forbid, a, e, st, ctx), Holding(Permit, a, e, st, ctx);
    Enforce(LoadPolicies(), Response(forbids == {} && permits != {}, if forbids != {} then forbids else permits, {}))
  }

  // ---- the entities of a slice show the standing ---------------------------------------------------

  ghost predicate ActionShown(q: Request, es: Entities, a: Action) {
    q.action == ActionUid(a) && forall u :: IsIn(es, q.action, u) <==> u == q.action || u in GroupsOf(a)
  }

  // The attribute holds an entity, and the principal is in it exactly when told so.
  predicate InShown(q: Request, es: Entities, attrs: map<Attr, Value>, attr: Attr, held: bool) {
    attr in attrs && attrs[attr].Ref? && (IsIn(es, q.principal, attrs[attr].uid) <==> held)
  }

  predicate AttrIs(attrs: map<Attr, Value>, attr: Attr, v: Value) {
    attr in attrs && attrs[attr] == v
  }

  ghost predicate AttrsShow(q: Request, es: Entities, attrs: map<Attr, Value>, e: ResourceEntity, st: Standing) {
    && (forall c :: e.Wants(c) ==> InShown(q, es, attrs, Can(c), c in st.local))
    && InShown(q, es, attrs, OrgAdmins, st.superAdmin)
    && InShown(q, es, attrs, Org, st.member) && AttrIs(attrs, Org, Ref(OrgUid(e.OrgId())))
    && (e.WorkflowEntity? ==>
          && AttrIs(attrs, Exported, Bool(e.exported)) && AttrIs(attrs, Visibility, Str(e.visibility))
          && AttrIs(attrs, PasswordProtected, Bool(e.passwordProtected)))
  }

  // The store holds the given attributes for the requested resource.
  predicate ResourceShown(q: Request, es: Entities, attrs: map<Attr, Value>) {
    q.resource in es && es[q.resource].attrs == attrs
  }

  ghost predicate Shows(q: Request, es: Entities, attrs: map<Attr, Value>, a: Action, e: ResourceEntity,
                        st: Standing, ctx: AuthzContext) {
    ActionShown(q, es, a) && ResourceShown(q, es, attrs) && AttrsShow(q, es, attrs, e, st)
    && q.context == ctx.ToCedar(Some(a))
  }

  lemma HeldMeans(caps: CapabilitySlice, c: Capability, level: Level, id: Id)
    ensures CapRef(c, level, id) in caps.Refs() <==> c in caps.At(level, id)
  {
    var u := CapRef(c, level, id);
    if u in caps.TeamRefs() {
      var t, d :| t in caps.teamCaps && d in caps.teamCaps[t] && u == CapRef(d, TeamLevel, t);
      CapRefInjective(c, level, id, d, TeamLevel, t);
    }
    if u in caps.OrgRefs() {
      var o, d :| o in caps.orgCaps && d in caps.orgCaps[o] && u == CapRef(d, OrgLevel, o);
      CapRefInjective(c, level, id, d, OrgLevel, o);
    }
  }

  function FullStore(slice: EntitySlice): Entities
    requires slice.Coherent()
  {
    ACTION_ENTITIES + slice.ToEntities()
  }

  lemma ActionsAt(u: Uid)
    ensures u in ACTION_ENTITIES <==> u.ActionUid? || u.GroupUid?
    ensures u in ACTION_ENTITIES ==>
              ACTION_ENTITIES[u] == EntityData(map[], if u.ActionUid? then GroupsOf(u.action) else {})
  {
    if u.GroupUid? {
      assert u.group.Governance? || u.group.OrgAdministrable?;
    }
  }

  lemma StoreKeys(slice: EntitySlice, u: Uid)
    requires slice.Coherent()
    ensures u in slice.ToEntities() <==>
              u in slice.principal.orgs || u in slice.caps || u == slice.principal.uid || u in slice.ResourceUids()
  {
  }

  lemma KindsOf(slice: EntitySlice, u: Uid)
    requires slice.Coherent()
    ensures u in slice.principal.orgs ==> u.OrgUid?
    ensures u in slice.caps ==> u.CapUid?
    ensures u == slice.principal.uid ==> u.UserUid?
    ensures u in slice.ResourceUids() ==> u.WorkflowUid? || u.TeamUid? || u.OrgUid?
  {
  }

  // What the full store says of each kind of uid.
  lemma FullStoreAt(slice: EntitySlice, u: Uid)
    requires slice.Coherent()
    ensures u == slice.principal.uid ==> u in FullStore(slice) && FullStore(slice)[u] == slice.PrincipalData()
    ensures u in slice.ResourceUids() ==> u in FullStore(slice) && FullStore(slice)[u] == slice.ResourceWith(u).ToCedar()
    ensures u.ActionUid? || u.GroupUid? ==>
              u in FullStore(slice) &&
              FullStore(slice)[u] == EntityData(map[], if u.ActionUid? then GroupsOf(u.action) else {})
    ensures (u.CapUid? || u.OrgUid?) && u in FullStore(slice) ==> FullStore(slice)[u].parents == {}
  {
    hide IsAdministrable, IsGovernance;
    ActionsAt(u);
    StoreKeys(slice, u);
    KindsOf(slice, u);
    if u in slice.ResourceUids() {
      assert u == slice.ResourceWith(u).Uid() && u in slice.ResourceEntities();
    }
  }

  // A workflow or team that is not among the resources of a slice is not in the store.
  lemma NotInStore(slice: EntitySlice, u: Uid)
    requires slice.Coherent() && (u.WorkflowUid? || u.TeamUid?) && u !in slice.ResourceUids()
    ensures u !in FullStore(slice)
  {
    ActionsAt(u);
    StoreKeys(slice, u);
    KindsOf(slice, u);
  }

  lemma PrincipalIsIn(slice: EntitySlice, v: Uid)
    requires slice.Coherent() && !v.UserUid?
    ensures IsIn(FullStore(slice), slice.principal.uid, v) <==>
            v in slice.principal.capabilities || v in slice.principal.orgs
  {
    hide FullStore;
    var es, p := FullStore(slice), slice.principal.uid;
    FullStoreAt(slice, p);
    forall u | u in es[p].parents && u in es ensures es[u].parents == {} {
      FullStoreAt(slice, u);
    }
    InOneEdgeUp(es, p, v);
  }

  lemma ActionIsIn(slice: EntitySlice, a: Action, v: Uid)
    requires slice.Coherent()
    ensures IsIn(FullStore(slice), ActionUid(a), v) <==> v == ActionUid(a) || v in GroupsOf(a)
  {
    hide FullStore;
    var es := FullStore(slice);
    FullStoreAt(slice, ActionUid(a));
    forall u | u in GroupsOf(a) ensures u in es && es[u].parents == {} {
      FullStoreAt(slice, u);
    }
    InOneEdgeUp(es, ActionUid(a), v);
  }

  // A team is in its organization; a workflow is in nothing but itself, and names its team.
  lemma ResourceIsIn(slice: EntitySlice, e: ResourceEntity, v: Uid)
    requires slice.Coherent() && e in slice.resources
    ensures IsIn(FullStore(slice), e.Uid(), v) <==> v == e.Uid() || (e.TeamEntity? && v == OrgUid(e.org))
    ensures e.WorkflowEntity? ==> AttrIs(FullStore(slice)[e.Uid()].attrs, TeamOf, Ref(TeamUid(e.team)))
  {
    hide FullStore;
    var es := FullStore(slice);
    assert slice.ResourceWith(e.Uid()) == e;
    FullStoreAt(slice, e.Uid());
    FullStoreAt(slice, OrgUid(e.OrgId()));
    InOneEdgeUp(es, e.Uid(), v);
  }

  // The principal entity of a slice carries the capability slice.
  predicate Carried(slice: EntitySlice, caps: CapabilitySlice) {
    && slice.Coherent() && slice.principal.capabilities == caps.Refs()
    && slice.principal.orgs == set o | o in caps.orgCaps :: OrgUid(o)
  }

  lemma CapShown(slice: EntitySlice, caps: CapabilitySlice, q: Request, attrs: map<Attr, Value>, attr: Attr,
                 c: Capability, level: Level, id: Id)
    requires Carried(slice, caps) && q.principal == slice.principal.uid
    requires AttrIs(attrs, attr, Ref(CapRef(c, level, id)))
    ensures InShown(q, FullStore(slice), attrs, attr, c in caps.At(level, id))
  {
    PrincipalIsIn(slice, CapRef(c, level, id));
    HeldMeans(caps, c, level, id);
  }

  lemma OrgShown(slice: EntitySlice, caps: CapabilitySlice, q: Request, attrs: map<Attr, Value>, org: Id)
    requires Carried(slice, caps) && q.principal == slice.principal.uid
    requires AttrIs(attrs, Org, Ref(OrgUid(org)))
    ensures InShown(q, FullStore(slice), attrs, Org, org in caps.orgCaps)
  {
    PrincipalIsIn(slice, OrgUid(org));
    assert OrgUid(org) !in caps.Refs();
  }

  lemma AttrsAre(e: ResourceEntity)
    requires e.Complete() && Built(e)
    ensures AttrIs(e.Attrs(), OrgAdmins, Ref(CapRef(ManageOrg, OrgLevel, e.OrgId())))
    ensures AttrIs(e.Attrs(), Org, Ref(OrgUid(e.OrgId())))
    ensures forall c :: e.Wants(c) ==> AttrIs(e.Attrs(), Can(c), Ref(CapRef(c, e.LevelOf(), e.PlaceOf())))
  {
    forall c | e.Wants(c) ensures AttrIs(e.Attrs(), Can(c), Ref(CapRef(c, e.LevelOf(), e.PlaceOf()))) {
      assert Can(c) in RESOURCE_ATTRS && e.Emits(Can(c));
    }
  }

  lemma CapAttrShown(slice: EntitySlice, caps: CapabilitySlice, q: Request, e: ResourceEntity, c: Capability)
    requires Carried(slice, caps) && e.Complete() && Built(e) && q.principal == slice.principal.uid
    requires e.Wants(c)
    ensures InShown(q, FullStore(slice), e.Attrs(), Can(c), c in StandingOf(caps, e).local)
  {
    AttrsAre(e);
    CapShown(slice, caps, q, e.Attrs(), Can(c), c, e.LevelOf(), e.PlaceOf());
  }

  lemma OrgAttrsShown(slice: EntitySlice, caps: CapabilitySlice, q: Request, e: ResourceEntity)
    requires Carried(slice, caps) && e.Complete() && Built(e) && q.principal == slice.principal.uid
    ensures InShown(q, FullStore(slice), e.Attrs(), OrgAdmins, StandingOf(caps, e).superAdmin)
    ensures InShown(q, FullStore(slice), e.Attrs(), Org, StandingOf(caps, e).member)
    ensures AttrIs(e.Attrs(), Org, Ref(OrgUid(e.OrgId())))
  {
    AttrsAre(e);
    CapShown(slice, caps, q, e.Attrs(), OrgAdmins, ManageOrg, OrgLevel, e.OrgId());
    OrgShown(slice, caps, q, e.Attrs(), e.OrgId());
  }

  lemma WorkflowAttrsAre(e: ResourceEntity)
    requires e.Complete() && e.WorkflowEntity?
    ensures AttrIs(e.Attrs(), Exported, Bool(e.exported)) && AttrIs(e.Attrs(), Visibility, Str(e.visibility))
    ensures AttrIs(e.Attrs(), PasswordProtected, Bool(e.passwordProtected))
  {
  }

  lemma SliceShowsAttrs(slice: EntitySlice, caps: CapabilitySlice, q: Request, e: ResourceEntity)
    requires Carried(slice, caps) && e.Complete() && Built(e) && q.principal == slice.principal.uid
    ensures AttrsShow(q, FullStore(slice), e.Attrs(), e, StandingOf(caps, e))
  {
    OrgAttrsShown(slice, caps, q, e);
    if e.WorkflowEntity? {
      WorkflowAttrsAre(e);
    }
    forall c | e.Wants(c) ensures InShown(q, FullStore(slice), e.Attrs(), Can(c), c in StandingOf(caps, e).local) {
      CapAttrShown(slice, caps, q, e, c);
    }
  }

  lemma SliceShows(slice: EntitySlice, caps: CapabilitySlice, a: Action, e: ResourceEntity, ctx: AuthzContext)
    requires Carried(slice, caps) && e in slice.resources && Built(e)
    ensures Shows(Request(slice.principal.uid, ActionUid(a), e.Uid(), ctx.ToCedar(Some(a))), FullStore(slice),
                  e.Attrs(), a, e, StandingOf(caps, e), ctx)
  {
    var q := Request(slice.principal.uid, ActionUid(a), e.Uid(), ctx.ToCedar(Some(a)));
    assert e.Uid() in slice.ResourceUids() && slice.ResourceWith(e.Uid()) == e;
    FullStoreAt(slice, e.Uid());
    SliceShowsAttrs(slice, caps, q, e);
    forall u ensures IsIn(FullStore(slice), ActionUid(a), u) <==> u == ActionUid(a) || u in GroupsOf(a) {
      ActionIsIn(slice, a, u);
    }
  }

  // ---- each policy evaluates to its meaning -----------------------------------------------------------

  lemma ResourceAttrIs(q: Request, es: Entities, attrs: map<Attr, Value>, attr: Attr)
    requires ResourceShown(q, es, attrs) && attr in attrs
    ensures Eval(ResourceAttr(attr), q, es) == Ok(attrs[attr])
  {
    assert Eval(Var(TheResource), q, es) == Ok(Ref(q.resource));
  }

  lemma ContextAttrIs(q: Request, es: Entities, attr: Attr)
    ensures attr in q.context ==> Eval(ContextAttr(attr), q, es) == Ok(q.context[attr])
    ensures Eval(Has(Var(TheContext), attr), q, es) == Ok(Bool(attr in q.context))
  {
    assert Eval(Var(TheContext), q, es) == Ok(Record(q.context));
  }

  lemma PrincipalInIs(q: Request, es: Entities, attrs: map<Attr, Value>, attr: Attr, held: bool)
    requires ResourceShown(q, es, attrs) && InShown(q, es, attrs, attr, held)
    ensures Eval(PrincipalInAttr(attr), q, es) == Ok(Bool(held))
  {
    ResourceAttrIs(q, es, attrs, attr);
    assert Eval(Var(ThePrincipal), q, es) == Ok(Ref(q.principal));
  }

  lemma AndMeans(l: Expr, r: Expr, x: bool, y: bool, q: Request, es: Entities)
    requires Eval(l, q, es) == Ok(Bool(x)) && (x ==> Eval(r, q, es) == Ok(Bool(y)))
    ensures Eval(And(l, r), q, es) == Ok(Bool(x && y))
  {
  }

  lemma NotMeans(o: Expr, x: bool, q: Request, es: Entities)
    requires Eval(o, q, es) == Ok(Bool(x))
    ensures Eval(Not(o), q, es) == Ok(Bool(!x))
  {
  }

  lemma EqMeans(l: Expr, r: Expr, x: Value, y: Value, q: Request, es: Entities)
    requires Eval(l, q, es) == Ok(x) && Eval(r, q, es) == Ok(y)
    ensures Eval(Eq(l, r), q, es) == Ok(Bool(x == y))
  {
  }

  lemma OnlyMeans(q: Request, es: Entities, a: Action, b: Action)
    requires q.action == ActionUid(a)
    ensures InScope(Only(b), q, es) <==> a == b
  {
  }

  lemma GroupMeans(q: Request, es: Entities, a: Action, g: ActionGroup)
    requires ActionShown(q, es, a)
    ensures InScope(InAny({GroupUid(g)}), q, es) <==>
            if g.Governance? then IsGovernance(a) else IsAdministrable(a)
  {
    assert GroupUid(g) in {GroupUid(g)};
    assert IsIn(es, q.action, GroupUid(g)) <==> GroupUid(g) in GroupsOf(a);
  }

  lemma AmongMeans(q: Request, es: Entities, a: Action, uids: set<Uid>)
    requires ActionShown(q, es, a) && forall u :: u in uids ==> u.ActionUid?
    ensures InScope(InAny(uids), q, es) <==> ActionUid(a) in uids
  {
    forall u | u in uids ensures IsIn(es, q.action, u) <==> u == ActionUid(a) {
    }
  }

  predicate Means(p: Policy, q: Request, es: Entities, holds: bool) {
    EvalPolicy(p, q, es) == if holds then Satisfied else Unsatisfied
  }

  // The capability a permit of the first kind asks for, by action.
  function RequiredCap(a: Action): Option<Capability> {
    match a
    case TeamView => Some(View)
    case WorkflowView => Some(View)
    case WorkflowList => Some(View)
    case WorkflowRun => Some(Run)
    case WorkflowCreate => Some(Edit)
    case WorkflowUpdate => Some(Edit)
    case WorkflowExport => Some(Export)
    case WorkflowProtectExport => Some(ProtectExport)
    case WorkflowDelete => Some(Delete)
    case TeamDelete => Some(Delete)
    case TeamAddMember => Some(ManageMembers)
    case TeamRemoveMember => Some(ManageMembers)
    case TeamChangeRole => Some(ManageMembers)
    case TeamCreate => Some(CreateTeam)
    case RoleCreate => Some(ManageRoles)
    case RoleDelete => Some(ManageRoles)
    case ApiKeyCreate => Some(ManageApiKeys)
    case ApiKeyRevoke => Some(ManageApiKeys)
    case _ => None
  }

  // A declared resource has the attribute its action's permit reads.
  lemma DeclaredWants(a: Action, e: ResourceEntity)
    requires Declared(a, e) && RequiredCap(a).Some?
    ensures e.Wants(RequiredCap(a).value)
  {
  }

  // The principal is shown to hold, or not, the capability the action asks for.
  ghost predicate RequiredShown(q: Request, es: Entities, attrs: map<Attr, Value>, a: Action, st: Standing) {
    RequiredCap(a).Some? ==> InShown(q, es, attrs, Can(RequiredCap(a).value), RequiredCap(a).value in st.local)
  }

  // A policy with a condition, from where it applies and what the condition comes out as.
  lemma WhenMeans(p: Policy, applies: bool, x: bool, q: Request, es: Entities)
    requires InScope(p.scope, q, es) == applies && p.condition.When?
    requires applies ==> Eval(p.condition.expr, q, es) == Ok(Bool(x))
    ensures Means(p, q, es, applies && x)
  {
    hide Eval, InScope;
  }

  // A permit for one action, and one for two, on one capability attribute.
  lemma OnlyCapMeans(p: Policy, c: Capability, b: Action, q: Request, es: Entities, attrs: map<Attr, Value>,
                     a: Action, st: Standing)
    requires ActionShown(q, es, a) && ResourceShown(q, es, attrs) && RequiredShown(q, es, attrs, a, st)
    requires p.scope == Only(b) && p.condition == When(PrincipalInAttr(Can(c))) && RequiredCap(b) == Some(c)
    ensures Means(p, q, es, a == b && c in st.local)
  {
    OnlyMeans(q, es, a, b);
    if a == b {
      PrincipalInIs(q, es, attrs, Can(c), c in st.local);
    }
  }

  lemma EitherCapMeans(p: Policy, c: Capability, b: Action, b': Action, q: Request, es: Entities,
                       attrs: map<Attr, Value>, a: Action, st: Standing)
    requires ActionShown(q, es, a) && ResourceShown(q, es, attrs) && RequiredShown(q, es, attrs, a, st)
    requires p.scope == Either(b, b') && p.condition == When(PrincipalInAttr(Can(c)))
    requires RequiredCap(b) == RequiredCap(b') == Some(c)
    ensures Means(p, q, es, (a == b || a == b') && c in st.local)
  {
    hide ResourceShown, InShown, IsIn;
    AmongMeans(q, es, a, {ActionUid(b), ActionUid(b')});
    if a == b || a == b' {
      PrincipalInIs(q, es, attrs, Can(c), c in st.local);
    }
  }

  lemma OrgViewMeans(q: Request, es: Entities, attrs: map<Attr, Value>, a: Action, member: bool)
    requires ActionShown(q, es, a) && ResourceShown(q, es, attrs) && InShown(q, es, attrs, Org, member)
    ensures Means(PolicyAt(17), q, es, a == OrgView && member)
  {
    OnlyMeans(q, es, a, OrgView);
    PrincipalInIs(q, es, attrs, Org, member);
  }

  lemma SuperAdminMeans(q: Request, es: Entities, attrs: map<Attr, Value>, a: Action, superAdmin: bool)
    requires ActionShown(q, es, a) && ResourceShown(q, es, attrs) && InShown(q, es, attrs, OrgAdmins, superAdmin)
    ensures Means(PolicyAt(11), q, es, IsAdministrable(a) && superAdmin)
  {
    GroupMeans(q, es, a, OrgAdministrable);
    PrincipalInIs(q, es, attrs, OrgAdmins, superAdmin);
  }

  lemma MustBeExportedMeans(q: Request, es: Entities, attrs: map<Attr, Value>, a: Action, exported: bool)
    requires ActionShown(q, es, a) && ResourceShown(q, es, attrs)
    requires a == WorkflowRunExported ==> AttrIs(attrs, Exported, Bool(exported))
    ensures Means(PolicyAt(1), q, es, a == WorkflowRunExported && !exported)
  {
    OnlyMeans(q, es, a, WorkflowRunExported);
    if a == WorkflowRunExported {
      ResourceAttrIs(q, es, attrs, Exported);
    }
  }

  lemma RequiresPasswordMeans(q: Request, es: Entities, attrs: map<Attr, Value>, a: Action, needed: bool,
                              ctx: AuthzContext)
    requires ActionShown(q, es, a) && ResourceShown(q, es, attrs) && q.context == ctx.ToCedar(Some(a))
    requires a == WorkflowRunExported ==> AttrIs(attrs, PasswordProtected, Bool(needed))
    ensures Means(PolicyAt(12), q, es, a == WorkflowRunExported && needed && !ctx.passwordVerified)
  {
    OnlyMeans(q, es, a, WorkflowRunExported);
    if a == WorkflowRunExported {
      ResourceAttrIs(q, es, attrs, PasswordProtected);
      ContextAttrIs(q, es, PasswordVerified);
      NotMeans(ContextAttr(PasswordVerified), ctx.passwordVerified, q, es);
      AndMeans(ResourceAttr(PasswordProtected), Not(ContextAttr(PasswordVerified)), needed, !ctx.passwordVerified, q, es);
    }
  }

  lemma OrgMembersOnlyMeans(q: Request, es: Entities, attrs: map<Attr, Value>, a: Action, visibility: string,
                            member: bool)
    requires ActionShown(q, es, a) && ResourceShown(q, es, attrs) && InShown(q, es, attrs, Org, member)
    requires a == WorkflowRunExported ==> AttrIs(attrs, Visibility, Str(visibility))
    ensures Means(PolicyAt(13), q, es, a == WorkflowRunExported && visibility == ORG_ONLY && !member)
  {
    OnlyMeans(q, es, a, WorkflowRunExported);
    if a == WorkflowRunExported {
      ResourceAttrIs(q, es, attrs, Visibility);
      EqMeans(ResourceAttr(Visibility), Text(ORG_ONLY), Str(visibility), Str(ORG_ONLY), q, es);
      PrincipalInIs(q, es, attrs, Org, member);
      NotMeans(PrincipalInAttr(Org), member, q, es);
      AndMeans(Eq(ResourceAttr(Visibility), Text(ORG_ONLY)), Not(PrincipalInAttr(Org)),
               visibility == ORG_ONLY, !member, q, es);
    }
  }

  lemma ViaApiKeyMeans(q: Request, es: Entities, a: Action, ctx: AuthzContext)
    requires q.context == ctx.ToCedar(Some(a))
    ensures Eval(VIA_API_KEY, q, es) == Ok(Bool(ctx.authMethod == API_KEY))
  {
    ContextAttrIs(q, es, AuthMethod);
    EqMeans(ContextAttr(AuthMethod), Text(API_KEY), Str(ctx.authMethod), Str(API_KEY), q, es);
  }

  lemma NoGovernanceMeans(q: Request, es: Entities, a: Action, ctx: AuthzContext)
    requires ActionShown(q, es, a) && q.context == ctx.ToCedar(Some(a))
    ensures Means(PolicyAt(14), q, es, IsGovernance(a) && ctx.authMethod == API_KEY)
  {
    GroupMeans(q, es, a, Governance);
    ViaApiKeyMeans(q, es, a, ctx);
  }

  lemma ContainsMeans(l: Expr, r: Expr, strs: set<string>, s: string, q: Request, es: Entities)
    requires Eval(l, q, es) == Ok(StrSet(strs)) && Eval(r, q, es) == Ok(Str(s))
    ensures Eval(Contains(l, r), q, es) == Ok(Bool(s in strs))
  {
  }

  lemma SingleOrgMeans(q: Request, es: Entities, attrs: map<Attr, Value>, a: Action, org: Id, ctx: AuthzContext)
    requires ResourceShown(q, es, attrs) && AttrIs(attrs, Org, Ref(OrgUid(org))) && q.context == ctx.ToCedar(Some(a))
    ensures Means(PolicyAt(15), q, es, ctx.authMethod == API_KEY && ctx.apiKeyOrg != Some(org))
  {
    hide Eval, Means;
    ViaApiKeyMeans(q, es, a, ctx);
    ResourceAttrIs(q, es, attrs, Org);
    ContextAttrIs(q, es, ApiKeyOrg);
    var sameOrg := Eq(ResourceAttr(Org), ContextAttr(ApiKeyOrg));
    var same := ctx.apiKeyOrg == Some(org);
    if ctx.apiKeyOrg.Some? {
      EqMeans(ResourceAttr(Org), ContextAttr(ApiKeyOrg), Ref(OrgUid(org)), Ref(OrgUid(ctx.apiKeyOrg.value)), q, es);
    }
    AndMeans(Has(Var(TheContext), ApiKeyOrg), sameOrg, ctx.apiKeyOrg.Some?, same, q, es);
    NotMeans(And(Has(Var(TheContext), ApiKeyOrg), sameOrg), same, q, es);
    AndMeans(VIA_API_KEY, Not(And(Has(Var(TheContext), ApiKeyOrg), sameOrg)), ctx.authMethod == API_KEY, !same, q, es);
    WhenMeans(PolicyAt(15), true, ctx.authMethod == API_KEY && !same, q, es);
  }

  lemma ScopeCheckMeans(q: Request, es: Entities, a: Action, ctx: AuthzContext)
    requires q.context == ctx.ToCedar(Some(a))
    ensures Means(PolicyAt(16), q, es, ctx.authMethod == API_KEY && RequiredScopeOf(a) !in ctx.apiKeyScopes)
  {
    hide Eval, Means;
    ViaApiKeyMeans(q, es, a, ctx);
    ContextAttrIs(q, es, ApiKeyScopes);
    ContextAttrIs(q, es, RequiredScope);
    var holds := Contains(ContextAttr(ApiKeyScopes), ContextAttr(RequiredScope));
    var held := RequiredScopeOf(a) in ctx.apiKeyScopes;
    ContainsMeans(ContextAttr(ApiKeyScopes), ContextAttr(RequiredScope), ctx.apiKeyScopes, RequiredScopeOf(a), q, es);
    AndMeans(Has(Var(TheContext), RequiredScope), holds, true, held, q, es);
    NotMeans(And(Has(Var(TheContext), RequiredScope), holds), held, q, es);
    AndMeans(VIA_API_KEY, Not(And(Has(Var(TheContext), RequiredScope), holds)), ctx.authMethod == API_KEY, !held, q, es);
    WhenMeans(PolicyAt(16), true, ctx.authMethod == API_KEY && !held, q, es);
  }

  lemma RunPoliciesMean(i: nat, q: Request, es: Entities, attrs: map<Attr, Value>, a: Action, e: ResourceEntity,
                        st: Standing, ctx: AuthzContext)
    requires ActionShown(q, es, a) && ResourceShown(q, es, attrs) && RequiredShown(q, es, attrs, a, st)
    requires i == 2 || i == 4 || i == 5
    ensures Means(PolicyAt(i), q, es, PolicyHolds(i, a, e, st, ctx))
  {
    hide ActionShown, ResourceShown, RequiredShown, EvalPolicy;
    match i
    case 2 => OnlyCapMeans(PolicyAt(2), Run, WorkflowRun, q, es, attrs, a, st);
    case 4 => OnlyCapMeans(PolicyAt(4), Export, WorkflowExport, q, es, attrs, a, st);
    case _ =>
      OnlyCapMeans(PolicyAt(5), ProtectExport, WorkflowProtectExport, q, es, attrs, a, st);
  }

  lemma TeamPoliciesMean(i: nat, q: Request, es: Entities, attrs: map<Attr, Value>, a: Action, e: ResourceEntity,
                         st: Standing, ctx: AuthzContext)
    requires ActionShown(q, es, a) && ResourceShown(q, es, attrs) && RequiredShown(q, es, attrs, a, st)
    requires i == 8 || i == 18 || i == 19
    ensures Means(PolicyAt(i), q, es, PolicyHolds(i, a, e, st, ctx))
  {
    hide ActionShown, ResourceShown, RequiredShown, EvalPolicy;
    match i
    case 8 =>
      OnlyCapMeans(PolicyAt(8), CreateTeam, TeamCreate, q, es, attrs, a, st);
    case 18 => OnlyCapMeans(PolicyAt(18), View, TeamView, q, es, attrs, a, st);
    case _ => EitherCapMeans(PolicyAt(19), View, WorkflowView, WorkflowList, q, es, attrs, a, st);
  }

  lemma EditPoliciesMean(i: nat, q: Request, es: Entities, attrs: map<Attr, Value>, a: Action, e: ResourceEntity,
                         st: Standing, ctx: AuthzContext)
    requires ActionShown(q, es, a) && ResourceShown(q, es, attrs) && RequiredShown(q, es, attrs, a, st)
    requires i == 3 || i == 6
    ensures Means(PolicyAt(i), q, es, PolicyHolds(i, a, e, st, ctx))
  {
    hide ActionShown, ResourceShown, RequiredShown, EvalPolicy;
    match i
    case 3 => EitherCapMeans(PolicyAt(3), Edit, WorkflowCreate, WorkflowUpdate, q, es, attrs, a, st);
    case _ => EitherCapMeans(PolicyAt(6), Delete, WorkflowDelete, TeamDelete, q, es, attrs, a, st);
  }

  lemma OrgPoliciesMean(i: nat, q: Request, es: Entities, attrs: map<Attr, Value>, a: Action, e: ResourceEntity,
                        st: Standing, ctx: AuthzContext)
    requires ActionShown(q, es, a) && ResourceShown(q, es, attrs) && RequiredShown(q, es, attrs, a, st)
    requires i == 9 || i == 10
    ensures Means(PolicyAt(i), q, es, PolicyHolds(i, a, e, st, ctx))
  {
    hide ActionShown, ResourceShown, RequiredShown, EvalPolicy;
    match i
    case 9 => EitherCapMeans(PolicyAt(9), ManageRoles, RoleCreate, RoleDelete, q, es, attrs, a, st);
    case _ =>
      EitherCapMeans(PolicyAt(10), ManageApiKeys, ApiKeyCreate, ApiKeyRevoke, q, es, attrs, a, st);
  }

  lemma ManageMembersMeans(q: Request, es: Entities, attrs: map<Attr, Value>, a: Action, st: Standing)
    requires ActionShown(q, es, a) && ResourceShown(q, es, attrs) && RequiredShown(q, es, attrs, a, st)
    ensures Means(PolicyAt(7), q, es,
                  (a == TeamAddMember || a == TeamRemoveMember || a == TeamChangeRole) && ManageMembers in st.local)
  {
    hide ResourceShown, InShown, InScope, Eval, Means;
    var applies := a == TeamAddMember || a == TeamRemoveMember || a == TeamChangeRole;
    AmongMeans(q, es, a, PolicyAt(7).scope.actions);
    if applies {
      PrincipalInIs(q, es, attrs, Can(ManageMembers), ManageMembers in st.local);
    }
    WhenMeans(PolicyAt(7), applies, ManageMembers in st.local, q, es);
  }

  lemma ExportPoliciesMean(i: nat, q: Request, es: Entities, attrs: map<Attr, Value>, a: Action, e: ResourceEntity,
                           st: Standing, ctx: AuthzContext)
    requires Shows(q, es, attrs, a, e, st, ctx) && Declared(a, e)
    requires i == 0 || i == 1 || i == 12 || i == 13
    ensures Means(PolicyAt(i), q, es, PolicyHolds(i, a, e, st, ctx))
  {
    hide ResourceShown, InShown;
    match i
    case 0 => OnlyMeans(q, es, a, WorkflowRunExported);
    case 1 => MustBeExportedMeans(q, es, attrs, a, e.WorkflowEntity? && e.exported);
    case 12 => RequiresPasswordMeans(q, es, attrs, a, e.WorkflowEntity? && e.passwordProtected, ctx);
    case _ => OrgMembersOnlyMeans(q, es, attrs, a, if e.WorkflowEntity? then e.visibility else "", st.member);
  }

  lemma OtherPoliciesMean(i: nat, q: Request, es: Entities, attrs: map<Attr, Value>, a: Action, e: ResourceEntity,
                          st: Standing, ctx: AuthzContext)
    requires Shows(q, es, attrs, a, e, st, ctx)
    requires i == 11 || 14 <= i <= 17
    ensures Means(PolicyAt(i), q, es, PolicyHolds(i, a, e, st, ctx))
  {
    hide ActionShown, ResourceShown, InShown, EvalPolicy;
    match i
    case 11 => SuperAdminMeans(q, es, attrs, a, st.superAdmin);
    case 14 => NoGovernanceMeans(q, es, a, ctx);
    case 15 => SingleOrgMeans(q, es, attrs, a, e.OrgId(), ctx);
    case 16 => ScopeCheckMeans(q, es, a, ctx);
    case _ => OrgViewMeans(q, es, attrs, a, st.member);
  }

  // For every declared pair of action and resource type, none of the twenty policies
  // fails to evaluate, and each applies exactly when its meaning says.
  lemma PolicyMeans(i: nat, q: Request, es: Entities, attrs: map<Attr, Value>, a: Action, e: ResourceEntity,
                    st: Standing, ctx: AuthzContext)
    requires Shows(q, es, attrs, a, e, st, ctx) && Declared(a, e) && i < |LoadPolicies()|
    ensures Means(LoadPolicies()[i], q, es, PolicyHolds(i, a, e, st, ctx))
  {
    if RequiredCap(a).Some? {
      DeclaredWants(a, e);
    }
    if i == 0 || i == 1 || i == 12 || i == 13 {
      ExportPoliciesMean(i, q, es, attrs, a, e, st, ctx);
    } else if i == 11 || 14 <= i <= 17 {
      OtherPoliciesMean(i, q, es, attrs, a, e, st, ctx);
    } else if i == 7 {
      ManageMembersMeans(q, es, attrs, a, st);
    } else if i == 2 || i == 4 || i == 5 {
      RunPoliciesMean(i, q, es, attrs, a, e, st, ctx);
    } else if i == 3 || i == 6 {
      EditPoliciesMean(i, q, es, attrs, a, e, st, ctx);
    } else if i == 9 || i == 10 {
      OrgPoliciesMean(i, q, es, attrs, a, e, st, ctx);
    } else {
      TeamPoliciesMean(i, q, es, attrs, a, e, st, ctx);
    }
  }

  lemma EffectNumbered(i: nat)
    requires i < POLICY_COUNT
    ensures PolicyAt(i).effect == EffectOf(i)
  {
  }

  lemma SelectsHolding(q: Request, es: Entities, attrs: map<Attr, Value>, a: Action, e: ResourceEntity,
                       st: Standing, ctx: AuthzContext, effect: Effect)
    requires Shows(q, es, attrs, a, e, st, ctx) && Declared(a, e)
    ensures Select(LoadPolicies(), q, es, effect, Satisfied) == Holding(effect, a, e, st, ctx)
    ensures Select(LoadPolicies(), q, es, effect, Errored) == {}
  {
    forall i: nat | i < |LoadPolicies()|
      ensures Means(LoadPolicies()[i], q, es, PolicyHolds(i, a, e, st, ctx)) && LoadPolicies()[i].effect == EffectOf(i) {
      PolicyMeans(i, q, es, attrs, a, e, st, ctx);
    }
  }

  // The verdict over a store that shows the standing is the one computed from it.
  lemma EngineDecides(q: Request, es: Entities, attrs: map<Attr, Value>, a: Action, e: ResourceEntity,
                      st: Standing, ctx: AuthzContext)
    requires Shows(q, es, attrs, a, e, st, ctx) && Declared(a, e)
    ensures Enforce(LoadPolicies(), IsAuthorized(LoadPolicies(), q, es)) == Decide(a, e, st, ctx)
  {
    SelectsHolding(q, es, attrs, a, e, st, ctx, Permit);
    SelectsHolding(q, es, attrs, a, e, st, ctx, Forbid);
  }

  lemma SliceDecides(slice: EntitySlice, caps: CapabilitySlice, a: Action, e: ResourceEntity, ctx: AuthzContext)
    requires Carried(slice, caps) && e in slice.resources && Built(e) && Declared(a, e)
    ensures Authorize(slice.principal.uid, a, e.Uid(), slice, ctx) == Decide(a, e, StandingOf(caps, e), ctx)
  {
    SliceShows(slice, caps, a, e, ctx);
    EngineDecides(Request(slice.principal.uid, ActionUid(a), e.Uid(), ctx.ToCedar(Some(a))), FullStore(slice),
                  e.Attrs(), a, e, StandingOf(caps, e), ctx);
  }

  // ---- absent resources -------------------------------------------------------------------------------

  lemma MissingFaults(q: Request, es: Entities, attr: Attr)
    requires q.resource !in es
    ensures Eval(ResourceAttr(attr), q, es) == Fault && Eval(PrincipalInAttr(attr), q, es) == Fault
  {
    assert Eval(Var(TheResource), q, es) == Ok(Ref(q.resource));
  }

  lemma ErroredIsError(q: Request, es: Entities, i: nat)
    requires i < |LoadPolicies()| && EvalPolicy(PolicyAt(i), q, es) == Errored
    ensures Enforce(LoadPolicies(), IsAuthorized(LoadPolicies(), q, es)).EngineError?
  {
    assert i in Select(LoadPolicies(), q, es, Forbid, Errored) + Select(LoadPolicies(), q, es, Permit, Errored);
  }

  // Over a store without the resource, whatever the action, an applicable policy cannot
  // be evaluated.
  lemma MissingResourceFaults(q: Request, es: Entities, a: Action)
    requires ActionShown(q, es, a) && q.resource !in es
    ensures Enforce(LoadPolicies(), IsAuthorized(LoadPolicies(), q, es)).EngineError?
  {
    if a == WorkflowRunExported {
      MissingFaults(q, es, Exported);
      OnlyMeans(q, es, a, WorkflowRunExported);
      assert EvalPolicy(PolicyAt(1), q, es) == Errored;
      ErroredIsError(q, es, 1);
    } else {
      MissingFaults(q, es, OrgAdmins);
      GroupMeans(q, es, a, OrgAdministrable);
      assert EvalPolicy(PolicyAt(11), q, es) == Errored;
      ErroredIsError(q, es, 11);
    }
  }

  // A policy whose condition comes out otherwise than it asks, or not at all, is not satisfied.
  lemma UnmetIsNotSatisfied(p: Policy, q: Request, es: Entities)
    requires p.condition.When? && Eval(p.condition.expr, q, es) != Ok(Bool(true))
    ensures EvalPolicy(p, q, es) != Satisfied
  {
    hide Eval, InScope;
  }

  lemma MissingIsNotProvenUnpublished(q: Request, es: Entities)
    requires q.resource !in es
    ensures EvalPolicy(PolicyAt(1), q, es) != Satisfied
  {
    hide InScope;
    MissingFaults(q, es, Exported);
  }

  lemma MissingIsNotProvenProtected(q: Request, es: Entities)
    requires q.resource !in es
    ensures EvalPolicy(PolicyAt(12), q, es) != Satisfied
  {
    hide EvalPolicy;
    MissingFaults(q, es, PasswordProtected);
    UnmetIsNotSatisfied(PolicyAt(12), q, es);
  }

  lemma MissingIsNotProvenRestricted(q: Request, es: Entities)
    requires q.resource !in es
    ensures EvalPolicy(PolicyAt(13), q, es) != Satisfied
  {
    hide EvalPolicy, IsIn;
    MissingFaults(q, es, Visibility);
    assert Eval(Eq(ResourceAttr(Visibility), Text(ORG_ONLY)), q, es) == Fault;
    UnmetIsNotSatisfied(PolicyAt(13), q, es);
  }

  lemma KeyForbidsSpareOthers(i: nat, q: Request, es: Entities, a: Action, ctx: AuthzContext)
    requires q.context == ctx.ToCedar(Some(a)) && ctx.authMethod != API_KEY && 14 <= i <= 16
    ensures EvalPolicy(PolicyAt(i), q, es) != Satisfied
  {
    hide EvalPolicy, IsIn;
    ViaApiKeyMeans(q, es, a, ctx);
    if i != 14 {
      AndMeans(VIA_API_KEY, PolicyAt(i).condition.expr.right, false, false, q, es);
    }
    UnmetIsNotSatisfied(PolicyAt(i), q, es);
  }

  lemma MissingForbidsNothing(q: Request, es: Entities, a: Action, ctx: AuthzContext, i: nat)
    requires q.resource !in es && q.context == ctx.ToCedar(Some(a))
    requires ctx.authMethod != API_KEY && i < POLICY_COUNT && EffectOf(i) == Forbid
    ensures EvalPolicy(PolicyAt(i), q, es) != Satisfied
  {
    hide EvalPolicy, PolicyAt;
    match i
    case 1 => MissingIsNotProvenUnpublished(q, es);
    case 12 => MissingIsNotProvenProtected(q, es);
    case 13 => MissingIsNotProvenRestricted(q, es);
    case _ => KeyForbidsSpareOthers(i, q, es, a, ctx);
  }

  // The hazard the engine removes: of a workflow that is not there, the plain verdict lets
  // every session without an API key run the export, because each forbid that would object
  // cannot be evaluated.
  lemma PlainVerdictFailsOpen(q: Request, es: Entities, ctx: AuthzContext)
    requires ActionShown(q, es, WorkflowRunExported) && q.resource !in es
    requires q.context == ctx.ToCedar(Some(WorkflowRunExported)) && ctx.authMethod != API_KEY
    ensures IsAuthorized(LoadPolicies(), q, es).allowed && !StrictlyAllowed(LoadPolicies(), q, es)
  {
    var policies := LoadPolicies();
    forall i: nat | i < POLICY_COUNT && policies[i].effect == Forbid
      ensures EvalPolicy(policies[i], q, es) != Satisfied {
      EffectNumbered(i);
      MissingForbidsNothing(q, es, WorkflowRunExported, ctx, i);
    }
    assert EvalPolicy(policies[0], q, es) == Satisfied;
    assert 0 in Select(policies, q, es, Permit, Satisfied);
    MissingFaults(q, es, Exported);
    assert EvalPolicy(policies[1], q, es) == Errored;
  }
}
