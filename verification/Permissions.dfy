// Who may do what, in terms of the rows alone: the permission matrix of signed-in users, the
// policy each decision names, what the gate answers, and what the calls change for the
// people they are about.
module Permissions {
  import opened Common
  import opened Tables
  import opened Cedar
  import opened CapRefs
  import opened Policies
  import opened EntitySlices
  import opened Engine
  import opened EntityProvider
  import opened Meaning
  import opened Decisions
  import opened Administration
  import Consistency
  import Effects
  import Gate

  // The user's role in the place, by its membership row, carries the capability.
  predicate Holds(db: Db, members: map<Seat, Id>, place: Id, user: Id, c: Capability) {
    && Seat(place, user) in members && members[Seat(place, user)] in db.roles
    && c in db.roles[members[Seat(place, user)]].caps
  }

  // ---- the matrix -----------------------------------------------------------------------------

  // The three ways a decision in person ends: the action's own policy, the administrator's
  // policy, or no policy at all.
  function Verdict(own: bool, admin: bool, name: string, ownFirst: bool): Decision {
    if own && (ownFirst || !admin) then Allow(Some(name))
    else if admin then Allow(Some("org-super-admin-full"))
    else Deny(None)
  }

  lemma OwnNames(a: Action)
    ensures PolicyAt(11).name == "org-super-admin-full"
    ensures IsAdministrable(a) ==>
              PolicyAt(PermitFor(a)).name ==
              match a
              case WorkflowRun => "cap-run"
              case WorkflowCreate | WorkflowUpdate => "cap-edit"
              case WorkflowExport => "cap-export"
              case WorkflowProtectExport => "cap-protect-export"
              case WorkflowDelete | TeamDelete => "cap-delete"
              case TeamAddMember | TeamRemoveMember | TeamChangeRole => "cap-manage-members"
              case TeamCreate => "cap-create-team"
              case RoleCreate | RoleDelete => "cap-manage-roles"
              case ApiKeyCreate | ApiKeyRevoke => "cap-manage-api-keys"
              case OrgView => "org-view"
              case TeamView => "team-view"
              case WorkflowView | WorkflowList => "cap-view"
              case _ => "org-super-admin-full"
  {
  }

  lemma InPersonDecides(store: Store, user: Id, a: Action, r: Uid)
    requires Present(store, r) && Declared(a, EntityAt(store, r)) && IsAdministrable(a)
    ensures var st := StandingAt(store, CapsOf(store.db, Account(user)), r);
            var own := (RequiredCap(a).Some? && RequiredCap(a).value in st.local) || (a == OrgView && st.member);
            AskInPerson(store, user, a, r) ==
            Verdict(own, st.superAdmin, PolicyAt(PermitFor(a)).name, PermitFor(a) < 11)
  {
    OwnNames(a);
    hide Ask, PolicyAt, DecidingForbid;
    DecisionNames(store, CapsOf(store.db, Account(user)), Account(user), {r}, a, r, IN_PERSON);
    InPersonIsNotBlocked(a, EntityAt(store, r).OrgId());
  }

  // The rows of the matrix: each action with the capability it takes and the policy that
  // grants it.
  predicate WorkflowCap(a: Action, c: Capability, name: string) {
    || (a == WorkflowView && c == View && name == "cap-view")
    || (a == WorkflowRun && c == Run && name == "cap-run")
    || (a == WorkflowUpdate && c == Edit && name == "cap-edit")
    || (a == WorkflowDelete && c == Delete && name == "cap-delete")
    || (a == WorkflowExport && c == Export && name == "cap-export")
    || (a == WorkflowProtectExport && c == ProtectExport && name == "cap-protect-export")
  }

  predicate TeamCap(a: Action, c: Capability, name: string) {
    || (a == TeamView && c == View && name == "team-view")
    || (a == WorkflowList && c == View && name == "cap-view")
    || (a == WorkflowCreate && c == Edit && name == "cap-edit")
    || (a == TeamDelete && c == Delete && name == "cap-delete")
    || ((a == TeamAddMember || a == TeamRemoveMember || a == TeamChangeRole) && c == ManageMembers
        && name == "cap-manage-members")
  }

  predicate OrgCap(a: Action, c: Capability, name: string) {
    || (a == TeamCreate && c == Capability.CreateTeam && name == "cap-create-team")
    || ((a == RoleCreate || a == RoleDelete) && c == ManageRoles && name == "cap-manage-roles")
    || ((a == ApiKeyCreate || a == ApiKeyRevoke) && c == ManageApiKeys && name == "cap-manage-api-keys")
  }

  // What a row says of the action, in the terms of the decision.
  predicate RowMeans(a: Action, c: Capability, name: string) {
    IsAdministrable(a) && RequiredCap(a) == Some(c) && PolicyAt(PermitFor(a)).name == name && a != OrgView
  }

  lemma WorkflowRowMeans(a: Action, c: Capability, name: string)
    requires WorkflowCap(a, c, name)
    ensures RowMeans(a, c, name) && ResourceTypeOf(a) == WorkflowType
    ensures PermitFor(a) < 11 <==> a != WorkflowView
  {
  }

  lemma TeamRowMeans(a: Action, c: Capability, name: string)
    requires TeamCap(a, c, name)
    ensures RowMeans(a, c, name) && ResourceTypeOf(a) == TeamType
    ensures PermitFor(a) < 11 <==> a != TeamView && a != WorkflowList
  {
  }

  lemma OrgRowMeans(a: Action, c: Capability, name: string)
    requires OrgCap(a, c, name)
    ensures RowMeans(a, c, name) && ResourceTypeOf(a) == OrgType && PermitFor(a) < 11
  {
  }

  // The standing of a user, by its membership rows.
  lemma StandingMeans(db: Db, user: Id, e: ResourceEntity, c: Capability)
    ensures var st := StandingOf(CapsOf(db, Account(user)), e);
            && (c in st.local <==>
                Holds(db, if e.LevelOf() == TeamLevel then db.teamMembers else db.orgMembers, e.PlaceOf(), user, c))
            && (st.superAdmin <==> Holds(db, db.orgMembers, e.OrgId(), user, ManageOrg))
            && (st.member <==> Seat(e.OrgId(), user) in db.orgMembers)
  {
    HeldInTeam(db, user, e.PlaceOf(), c);
    HeldInOrg(db, user, e.PlaceOf(), c);
    HeldInOrg(db, user, e.OrgId(), ManageOrg);
    hide CapsOf;
  }

  // Workflows: the capability in the workflow's own team, or manage_org in its organization.
  lemma WorkflowMatrix(store: Store, user: Id, id: Id, a: Action, c: Capability, name: string)
    requires id in store.workflows && WorkflowCap(a, c, name)
    ensures var row := store.workflows[id];
            AskInPerson(store, user, a, WorkflowUid(id)) ==
            Verdict(Holds(store.db, store.db.teamMembers, row.team, user, c),
                    Holds(store.db, store.db.orgMembers, row.org, user, ManageOrg), name, a != WorkflowView)
  {
    WorkflowRowMeans(a, c, name);
    hide AskInPerson, PolicyAt, PermitFor, RequiredCap, IsAdministrable, ResourceTypeOf, WorkflowCap, StandingOf, Holds;
    InPersonDecides(store, user, a, WorkflowUid(id));
    StandingMeans(store.db, user, EntityAt(store, WorkflowUid(id)), c);
  }

  lemma TeamMatrix(store: Store, user: Id, team: Id, a: Action, c: Capability, name: string)
    requires team in store.db.teams && TeamCap(a, c, name)
    ensures AskInPerson(store, user, a, TeamUid(team)) ==
            Verdict(Holds(store.db, store.db.teamMembers, team, user, c),
                    Holds(store.db, store.db.orgMembers, store.db.teams[team].org, user, ManageOrg), name,
                    a != TeamView && a != WorkflowList)
  {
    TeamRowMeans(a, c, name);
    hide AskInPerson, PolicyAt, PermitFor, RequiredCap, IsAdministrable, ResourceTypeOf, TeamCap, StandingOf, Holds;
    InPersonDecides(store, user, a, TeamUid(team));
    StandingMeans(store.db, user, EntityAt(store, TeamUid(team)), c);
  }

  lemma OrgMatrix(store: Store, user: Id, org: Id, a: Action, c: Capability, name: string)
    requires OrgCap(a, c, name)
    ensures AskInPerson(store, user, a, OrgUid(org)) ==
            Verdict(Holds(store.db, store.db.orgMembers, org, user, c),
                    Holds(store.db, store.db.orgMembers, org, user, ManageOrg), name, true)
  {
    OrgRowMeans(a, c, name);
    hide AskInPerson, PolicyAt, PermitFor, RequiredCap, IsAdministrable, ResourceTypeOf, OrgCap, StandingOf, Holds;
    InPersonDecides(store, user, a, OrgUid(org));
    StandingMeans(store.db, user, EntityAt(store, OrgUid(org)), c);
  }

  // The organization's own members are administered by its administrators alone, and any
  // member sees it.
  lemma MembershipMatrix(store: Store, user: Id, org: Id, a: Action)
    requires a == OrgAddUser || a == OrgRemoveUser || a == OrgChangeRole || a == OrgView
    ensures AskInPerson(store, user, a, OrgUid(org)) ==
            Verdict(a == OrgView && Seat(org, user) in store.db.orgMembers,
                    Holds(store.db, store.db.orgMembers, org, user, ManageOrg), "org-view", false)
  {
    OwnNames(a);
    hide AskInPerson, PolicyAt, StandingOf, Holds;
    InPersonDecides(store, user, a, OrgUid(org));
    StandingMeans(store.db, user, EntityAt(store, OrgUid(org)), ManageOrg);
  }

  // Without a seat in the organization and in the team, everything is denied.
  lemma StrangersMayNothing(store: Store, user: Id, a: Action, r: Uid)
    requires Present(store, r) && Declared(a, EntityAt(store, r)) && IsAdministrable(a)
    requires Seat(EntityAt(store, r).OrgId(), user) !in store.db.orgMembers
    requires EntityAt(store, r).LevelOf() == TeamLevel ==>
               Seat(EntityAt(store, r).PlaceOf(), user) !in store.db.teamMembers
    ensures AskInPerson(store, user, a, r) == Deny(None)
  {
    hide AskInPerson, PolicyAt, PermitFor, RequiredCap, IsAdministrable, EntityAt, StandingOf;
    InPersonDecides(store, user, a, r);
    StandingMeans(store.db, user, EntityAt(store, r), if RequiredCap(a).Some? then RequiredCap(a).value else ManageOrg);
  }

  // ---- at the gate ------------------------------------------------------------------------------

  lemma PermittedInPerson(q: Gate.Question, user: Id, a: Action)
    requires q.principal.subject == Account(user) && q.principal.authMethod.Jwt?
    requires q.caps == CapsOf(q.store.db, Account(user)) && IsAdministrable(a)
    requires Present(q.store, q.resource) && Declared(a, EntityAt(q.store, q.resource))
    ensures Gate.Permitted(q, a) <==> AskInPerson(q.store, user, a, q.resource).Allow?
  {
    hide AskInPerson, Grants;
    Gate.KeySessions(q.principal, q.passwordVerified);
    InPersonAllows(q.store, user, a, q.resource);
  }

  // The gate answers a signed-in user as the matrix says: 404 for what is absent or may not be
  // seen, 403 for what may be seen but not done.
  lemma SignedInGate(q: Gate.Question, user: Id, a: Action, cid: Id)
    requires q.principal.subject == Account(user) && q.principal.authMethod.Jwt?
    requires q.caps == CapsOf(q.store.db, Account(user)) && IsAdministrable(a)
    requires Present(q.store, q.resource) ==> Declared(a, EntityAt(q.store, q.resource))
    ensures var seeing := if q.resource.WorkflowUid? then WorkflowView
                          else if q.resource.TeamUid? then TeamView else OrgView;
            Gate.StatusOf(Gate.Requires(q, a, cid).exit) ==
            if !Present(q.store, q.resource) || !AskInPerson(q.store, user, seeing, q.resource).Allow? then 404
            else if !AskInPerson(q.store, user, a, q.resource).Allow? then 403
            else 200
  {
    hide AskInPerson, Gate.Requires, Gate.Permitted;
    Gate.GateKeepsPromises(q, a, cid);
    if Present(q.store, q.resource) {
      Gate.SeeingIsDeclared(q);
      PermittedInPerson(q, user, q.Seeing());
      PermittedInPerson(q, user, a);
    }
  }

  // ---- what the calls change for people --------------------------------------------------------

  ghost function StoreAfter(db: Db, call: Call, newId: Id, workflows: map<Id, WorkflowRow>): Store {
    Store(Atomic(db, call, newId).db, workflows)
  }

  lemma SameStanding(db: Db, db': Db, user: Id, e: ResourceEntity)
    requires db.roles == db'.roles && Effects.SameSeat(db.orgMembers, db'.orgMembers, Seat(e.OrgId(), user))
    requires e.LevelOf() == TeamLevel ==> Effects.SameSeat(db.teamMembers, db'.teamMembers, Seat(e.PlaceOf(), user))
    ensures AgreeAt(CapsOf(db, Account(user)), CapsOf(db', Account(user)), e)
  {
    var caps, caps' := CapsOf(db, Account(user)), CapsOf(db', Account(user));
    hide CapsOf;
    forall c: Capability ensures c in caps.At(e.LevelOf(), e.PlaceOf()) <==> c in caps'.At(e.LevelOf(), e.PlaceOf()) {
      StandingMeans(db, user, e, c);
      StandingMeans(db', user, e, c);
    }
    StandingMeans(db, user, e, ManageOrg);
    StandingMeans(db', user, e, ManageOrg);
  }

  lemma SameDecision(store: Store, db': Db, user: Id, a: Action, r: Uid)
    requires Present(store, r) && Declared(a, EntityAt(store, r)) && Effects.SameButMembers(store.db, db')
    requires Effects.SameSeat(store.db.orgMembers, db'.orgMembers, Seat(EntityAt(store, r).OrgId(), user))
    requires Effects.SameSeat(store.db.teamMembers, db'.teamMembers, Seat(EntityAt(store, r).PlaceOf(), user))
    ensures AskInPerson(Store(db', store.workflows), user, a, r) == AskInPerson(store, user, a, r)
  {
    var store' := Store(db', store.workflows);
    assert Present(store', r) && EntityAt(store', r) == EntityAt(store, r);
    SameStanding(store.db, db', user, EntityAt(store, r));
    hide Ask, CapsOf, AgreeAt, Present, EntityAt, Declared;
    TenantLocality(store, store', CapsOf(store.db, Account(user)), CapsOf(db', Account(user)), Account(user),
                   Account(user), {r}, {r}, a, r, IN_PERSON);
  }

  // A change of somebody's membership, refused or not, changes no decision about anybody else,
  // whatever the action and the resource.
  lemma OthersKeepTheirPower(db: Db, call: Call, newId: Id, workflows: map<Id, WorkflowRow>, user: Id, a: Action,
                             r: Uid)
    requires Effects.IsMembershipChange(call) && user != call.user
    requires Present(Store(db, workflows), r) && Declared(a, EntityAt(Store(db, workflows), r))
    ensures AskInPerson(StoreAfter(db, call, newId, workflows), user, a, r) ==
            AskInPerson(Store(db, workflows), user, a, r)
  {
    hide Atomic, AskInPerson, Effects.SameSeat, Declared;
    var store := Store(db, workflows);
    Effects.OnesOwnSeatsOnly(db, call, newId, Seat(EntityAt(store, r).OrgId(), user));
    Effects.OnesOwnSeatsOnly(db, call, newId, Seat(EntityAt(store, r).PlaceOf(), user));
    SameDecision(store, Atomic(db, call, newId).db, user, a, r);
  }

  // From the moment a role change commits, the member governs the organization exactly when
  // the new role carries manage_org.
  lemma OrgRoleTakesEffect(db: Db, org: Id, user: Id, role: Id, newId: Id, workflows: map<Id, WorkflowRow>, a: Action)
    requires Atomic(db, ChangeOrgRole(org, user, role), newId).outcome.Committed? && Seat(org, user) in db.orgMembers
    requires a == OrgAddUser || a == OrgRemoveUser || a == OrgChangeRole
    ensures AskInPerson(StoreAfter(db, ChangeOrgRole(org, user, role), newId, workflows), user, a, OrgUid(org)).Allow?
            <==> role in db.roles && ManageOrg in db.roles[role].caps
  {
    Effects.ChangeOrgRoleDoes(db, org, user, role, newId);
    hide AskInPerson, Atomic;
    MembershipMatrix(StoreAfter(db, ChangeOrgRole(org, user, role), newId, workflows), user, org, a);
  }

  // Who has left an organization may do nothing to it or to its teams.
  lemma RemovalRevokes(db: Db, org: Id, user: Id, newId: Id, workflows: map<Id, WorkflowRow>, a: Action, r: Uid)
    requires Atomic(db, RemoveOrgMember(org, user), newId).outcome.Committed? && IsAdministrable(a)
    requires r == OrgUid(org) || (r.TeamUid? && r.id in db.teams && db.teams[r.id].org == org)
    requires Declared(a, EntityAt(Store(db, workflows), r))
    ensures AskInPerson(StoreAfter(db, RemoveOrgMember(org, user), newId, workflows), user, a, r) == Deny(None)
  {
    Effects.RemoveOrgMemberDoes(db, org, user, newId);
    hide AskInPerson, Atomic, IsAdministrable;
    StrangersMayNothing(StoreAfter(db, RemoveOrgMember(org, user), newId, workflows), user, a, r);
  }

  // Nor to its workflows: only to one filed under a team of another organization, which no
  // constraint of the tables rules out, and there by the role it has in that team.
  lemma RemovalRevokesWorkflows(db: Db, org: Id, user: Id, newId: Id, workflows: map<Id, WorkflowRow>, id: Id,
                                a: Action, c: Capability, name: string)
    requires Atomic(db, RemoveOrgMember(org, user), newId).outcome.Committed?
    requires id in workflows && workflows[id].org == org && WorkflowCap(a, c, name)
    ensures var team := workflows[id].team;
            AskInPerson(StoreAfter(db, RemoveOrgMember(org, user), newId, workflows), user, a,
                        WorkflowUid(id)).Allow? <==>
            Holds(db, db.teamMembers, team, user, c) && !(team in db.teams && db.teams[team].org == org)
  {
    Effects.RemoveOrgMemberDoes(db, org, user, newId);
    hide AskInPerson, Atomic;
    WorkflowMatrix(StoreAfter(db, RemoveOrgMember(org, user), newId, workflows), user, id, a, c, name);
  }

  // From the moment a team role change commits, the member may do to the team's workflows what
  // the new role carries, besides what its organization role gives.
  lemma TeamRoleTakesEffect(db: Db, team: Id, user: Id, role: Id, superAdmin: bool, newId: Id,
                            workflows: map<Id, WorkflowRow>, id: Id, a: Action, c: Capability, name: string)
    requires Atomic(db, ChangeTeamRole(team, user, role, superAdmin), newId).outcome.Committed?
    requires Seat(team, user) in db.teamMembers && team in db.teams
    requires id in workflows && workflows[id].team == team && WorkflowCap(a, c, name)
    ensures AskInPerson(StoreAfter(db, ChangeTeamRole(team, user, role, superAdmin), newId, workflows), user, a,
                        WorkflowUid(id)) ==
            Verdict(role in db.roles && c in db.roles[role].caps,
                    Holds(db, db.orgMembers, workflows[id].org, user, ManageOrg), name, a != WorkflowView)
  {
    Effects.ChangeTeamRoleDoes(db, team, user, role, superAdmin, newId);
    hide AskInPerson, Atomic;
    WorkflowMatrix(StoreAfter(db, ChangeTeamRole(team, user, role, superAdmin), newId, workflows), user, id, a, c,
                   name);
  }

  // Who is removed from a team keeps there only what being an administrator of its
  // organization gives.
  lemma TeamRemovalRevokes(db: Db, team: Id, user: Id, superAdmin: bool, newId: Id, workflows: map<Id, WorkflowRow>,
                           a: Action, c: Capability, name: string)
    requires Atomic(db, RemoveTeamMember(team, user, superAdmin), newId).outcome.Committed?
    requires team in db.teams && TeamCap(a, c, name)
    ensures AskInPerson(StoreAfter(db, RemoveTeamMember(team, user, superAdmin), newId, workflows), user, a,
                        TeamUid(team)) ==
            if Holds(db, db.orgMembers, db.teams[team].org, user, ManageOrg) then Allow(Some("org-super-admin-full"))
            else Deny(None)
  {
    Effects.RemoveTeamMemberDoes(db, team, user, superAdmin, newId);
    hide AskInPerson, Atomic;
    TeamMatrix(StoreAfter(db, RemoveTeamMember(team, user, superAdmin), newId, workflows), user, team, a, c, name);
  }

  lemma NewMemberHolds(db: Db, org: Id, user: Id, role: Id, newId: Id, general: Id, c: Capability)
    requires Consistency.Consistent(db) && IsDefaultTeam(db, org, general) && Seat(general, user) !in db.teamMembers
    requires Atomic(db, AddOrgMember(org, user, role), newId).outcome.Committed?
    ensures var after := Atomic(db, AddOrgMember(org, user, role), newId).db;
            && after.teams == db.teams
            && (Holds(after, after.teamMembers, general, user, c) <==> VIEWER in db.roles && c in db.roles[VIEWER].caps)
            && (Holds(after, after.orgMembers, org, user, c) <==> role in db.roles && c in db.roles[role].caps)
  {
    Effects.AddOrgMemberDoes(db, org, user, role, newId, general);
    hide Atomic, Consistency.Consistent;
  }

  // A new member may do in the default team what a viewer may, and no more, unless it was in
  // that team before or administers the organization.
  lemma NewMembersView(db: Db, org: Id, user: Id, role: Id, newId: Id, general: Id, workflows: map<Id, WorkflowRow>,
                       a: Action, c: Capability, name: string)
    requires Consistency.Consistent(db) && IsDefaultTeam(db, org, general) && Seat(general, user) !in db.teamMembers
    requires Atomic(db, AddOrgMember(org, user, role), newId).outcome.Committed? && TeamCap(a, c, name)
    ensures AskInPerson(StoreAfter(db, AddOrgMember(org, user, role), newId, workflows), user, a,
                        TeamUid(general)) ==
            Verdict(VIEWER in db.roles && c in db.roles[VIEWER].caps,
                    role in db.roles && ManageOrg in db.roles[role].caps, name, a != TeamView && a != WorkflowList)
  {
    hide AskInPerson, Atomic, Consistency.Consistent, Holds;
    NewMemberHolds(db, org, user, role, newId, general, c);
    NewMemberHolds(db, org, user, role, newId, general, ManageOrg);
    TeamMatrix(StoreAfter(db, AddOrgMember(org, user, role), newId, workflows), user, general, a, c, name);
  }

  // Whoever creates a team may manage its members at once.
  lemma CreatorsManage(db: Db, org: Id, team: string, creator: Id, newId: Id, workflows: map<Id, WorkflowRow>)
    requires Consistency.Consistent(db) && newId !in db.teams
    requires Atomic(db, Call.CreateTeam(org, team, creator), newId).outcome.Committed?
    ensures AskInPerson(StoreAfter(db, Call.CreateTeam(org, team, creator), newId, workflows), creator,
                        TeamAddMember, TeamUid(newId)).Allow?
  {
    Effects.CreateTeamDoes(db, org, team, creator, newId);
    hide AskInPerson, Atomic;
    TeamMatrix(StoreAfter(db, Call.CreateTeam(org, team, creator), newId, workflows), creator, newId, TeamAddMember,
               ManageMembers, "cap-manage-members");
  }
}
