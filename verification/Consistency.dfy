// What every reachable state of the tables satisfies, and what every call keeps when it
// runs alone.
module Consistency {
  import opened Common
  import opened Tables

  // The role is of the right scope, and built in or owned by the organization.
  predicate FitsOrg(db: Db, org: Id, role: Id) {
    && role in db.roles && db.roles[role].scope == OrgScope
    && (db.roles[role].owner.None? || db.roles[role].owner == Some(org))
  }

  predicate FitsTeam(db: Db, team: Id, role: Id) {
    && role in db.roles && db.roles[role].scope == TeamScope && team in db.teams
    && (db.roles[role].owner.None? || db.roles[role].owner == Some(db.teams[team].org))
  }

  ghost predicate OrgSeatsOk(db: Db) {
    forall s :: s in db.orgMembers ==>
      s.place in db.orgs && s.user in db.users && FitsOrg(db, s.place, db.orgMembers[s])
  }

  ghost predicate TeamSeatsOk(db: Db) {
    forall s :: s in db.teamMembers ==>
      s.place in db.teams && s.user in db.users && FitsTeam(db, s.place, db.teamMembers[s])
  }

  ghost predicate TeamsOk(db: Db) {
    forall t :: t in db.teams ==> db.teams[t].org in db.orgs
  }

  // Exactly one default team in each organization.
  ghost predicate DefaultsOk(db: Db) {
    && (forall o :: o in db.orgs ==> exists t :: IsDefaultTeam(db, o, t))
    && (forall o, t, t' :: IsDefaultTeam(db, o, t) && IsDefaultTeam(db, o, t') ==> t == t')
  }

  ghost predicate MembersInDefault(db: Db) {
    forall s, t :: s in db.orgMembers && IsDefaultTeam(db, s.place, t) ==> Seat(t, s.user) in db.teamMembers
  }

  predicate BuiltIn(db: Db, role: Id, scope: RoleScope) {
    role in db.roles && db.roles[role].owner.None? && db.roles[role].scope == scope
  }

  predicate BuiltInsOk(db: Db) {
    && BuiltIn(db, MEMBER, OrgScope) && BuiltIn(db, SUPER_ADMIN, OrgScope)
    && BuiltIn(db, VIEWER, TeamScope) && BuiltIn(db, EDITOR, TeamScope) && BuiltIn(db, ADMIN, TeamScope)
    && Carries(db, SUPER_ADMIN, ManageOrg) && Carries(db, ADMIN, ManageMembers)
  }

  ghost predicate Consistent(db: Db) {
    OrgSeatsOk(db) && TeamSeatsOk(db) && TeamsOk(db) && DefaultsOk(db) && MembersInDefault(db) && BuiltInsOk(db)
  }

  lemma DefaultTeamIs(db: Db, org: Id, team: Id)
    requires DefaultsOk(db) && IsDefaultTeam(db, org, team)
    ensures DefaultTeam(db, org) == Some(team)
  {
    assert forall t :: IsDefaultTeam(db, org, t) ==> t == team;
  }

  // The role check on organization memberships, with the foreign key, lets through exactly
  // the roles that keep every membership in order.
  lemma OrgRoleCheckIsExact(db: Db, org: Id, user: Id, role: Id)
    requires OrgSeatsOk(db) && org in db.orgs && user in db.users
    ensures OrgRoleObjection(db, org, role).None? <==>
            OrgSeatsOk(db.(orgMembers := db.orgMembers[Seat(org, user) := role]))
  {
    var seated := db.(orgMembers := db.orgMembers[Seat(org, user) := role]);
    assert Seat(org, user) in seated.orgMembers;
  }

  // So does the one on team memberships.
  lemma TeamRoleCheckIsExact(db: Db, team: Id, user: Id, role: Id)
    requires TeamSeatsOk(db) && team in db.teams && user in db.users
    ensures TeamRoleObjection(db, team, role).None? <==>
            TeamSeatsOk(db.(teamMembers := db.teamMembers[Seat(team, user) := role]))
  {
    var seated := db.(teamMembers := db.teamMembers[Seat(team, user) := role]);
    assert Seat(team, user) in seated.teamMembers;
  }

  // ---- one lemma per call ---------------------------------------------------------

  lemma RemoveOrgMemberKeeps(db: Db, o: Id, u: Id, newId: Id)
    requires Consistent(db)
    ensures Consistent(Write(db, RemoveOrgMember(o, u), newId).db)
  {
    var db' := Write(db, RemoveOrgMember(o, u), newId).db;
    assert forall o', t :: IsDefaultTeam(db', o', t) == IsDefaultTeam(db, o', t);
    forall s, t | s in db'.orgMembers && IsDefaultTeam(db', s.place, t)
      ensures Seat(t, s.user) in db'.teamMembers
    {
      assert Seat(t, s.user) in db.teamMembers;
      assert s != Seat(o, u);
    }
  }

  lemma OrgSeatKeeps(db: Db, db': Db, o: Id, u: Id, r: Id)
    requires Consistent(db) && Seat(o, u) in db.orgMembers && OrgRoleObjection(db, o, r).None?
    requires db' == db.(orgMembers := db.orgMembers[Seat(o, u) := r])
    ensures Consistent(db')
  {
    assert forall o', t :: IsDefaultTeam(db', o', t) == IsDefaultTeam(db, o', t);
    assert TeamSeatsOk(db') && DefaultsOk(db');
  }

  lemma ChangeOrgRoleKeeps(db: Db, o: Id, u: Id, r: Id, newId: Id)
    requires Consistent(db)
    ensures Consistent(Write(db, ChangeOrgRole(o, u, r), newId).db)
  {
    if Seat(o, u) in db.orgMembers && OrgRoleObjection(db, o, r).None? {
      OrgSeatKeeps(db, db.(orgMembers := db.orgMembers[Seat(o, u) := r]), o, u, r);
    }
  }

  lemma RemoveTeamMemberKeeps(db: Db, call: Call, newId: Id)
    requires Consistent(db) && call.RemoveTeamMember? && Guard(db, call).None?
    ensures Consistent(Write(db, call, newId).db)
  {
    var db' := Write(db, call, newId).db;
    assert forall o', t :: IsDefaultTeam(db', o', t) == IsDefaultTeam(db, o', t);
  }

  lemma TeamSeatKeeps(db: Db, db': Db, t: Id, u: Id, r: Id)
    requires Consistent(db) && t in db.teams && u in db.users && TeamRoleObjection(db, t, r).None?
    requires db' == db.(teamMembers := db.teamMembers[Seat(t, u) := r])
    ensures Consistent(db')
  {
    assert forall o', t' :: IsDefaultTeam(db', o', t') == IsDefaultTeam(db, o', t');
    assert OrgSeatsOk(db') && DefaultsOk(db');
  }

  lemma ChangeTeamRoleKeeps(db: Db, call: Call, newId: Id)
    requires Consistent(db) && call.ChangeTeamRole?
    ensures Consistent(Write(db, call, newId).db)
  {
    var ChangeTeamRole(t, u, r, _) := call;
    if Seat(t, u) in db.teamMembers && TeamRoleObjection(db, t, r).None? {
      assert Seat(t, u).place in db.teams && Seat(t, u).user in db.users;
      TeamSeatKeeps(db, db.(teamMembers := db.teamMembers[Seat(t, u) := r]), t, u, r);
    }
  }

  lemma DeleteTeamKeeps(db: Db, t: Id, newId: Id)
    requires Consistent(db) && Guard(db, DeleteTeam(t)).None?
    ensures Consistent(Write(db, DeleteTeam(t), newId).db)
  {
    var db' := Write(db, DeleteTeam(t), newId).db;
    assert forall o', t' :: IsDefaultTeam(db', o', t') == IsDefaultTeam(db, o', t');
  }

  // A role table in which every role in use is as it was, up to more capabilities.
  lemma RolesKeep(db: Db, db': Db)
    requires Consistent(db) && db' == db.(roles := db'.roles)
    requires forall r :: r in db.roles && (InUse(db, r) || db.roles[r].owner.None?) ==>
               r in db'.roles && db'.roles[r].owner == db.roles[r].owner && db'.roles[r].scope == db.roles[r].scope
               && db.roles[r].caps <= db'.roles[r].caps
    ensures Consistent(db')
  {
    assert forall o', t :: IsDefaultTeam(db', o', t) == IsDefaultTeam(db, o', t);
    assert DefaultsOk(db') && MembersInDefault(db');
    forall s | s in db.orgMembers ensures FitsOrg(db', s.place, db.orgMembers[s]) {
      assert db.orgMembers[s] in db.orgMembers.Values;
    }
    forall s | s in db.teamMembers ensures FitsTeam(db', s.place, db.teamMembers[s]) {
      assert db.teamMembers[s] in db.teamMembers.Values;
    }
  }

  lemma DeleteRoleKeeps(db: Db, r: Id, newId: Id)
    requires Consistent(db) && Guard(db, DeleteRole(r)).None?
    ensures Consistent(Write(db, DeleteRole(r), newId).db)
  {
    if !InUse(db, r) {
      RolesKeep(db, db.(roles := db.roles - {r}));
    }
  }

  lemma NewOrgSeatKeeps(db: Db, db': Db, o: Id, u: Id, r: Id, t: Id)
    requires Consistent(db) && IsDefaultTeam(db, o, t) && Seat(t, u) in db.teamMembers
    requires o in db.orgs && OrgRoleObjection(db, o, r).None?
    requires db' == db.(orgMembers := db.orgMembers[Seat(o, u) := r])
    ensures Consistent(db')
  {
    assert Seat(t, u).user in db.users;
    assert forall o', t' :: IsDefaultTeam(db', o', t') == IsDefaultTeam(db, o', t');
    assert TeamSeatsOk(db') && DefaultsOk(db');
  }

  lemma AddOrgMemberKeeps(db: Db, o: Id, u: Id, r: Id, newId: Id)
    requires Consistent(db)
    ensures Consistent(Write(db, AddOrgMember(o, u, r), newId).db)
  {
    var result := Write(db, AddOrgMember(o, u, r), newId);
    if result.outcome.Committed? {
      var t :| IsDefaultTeam(db, o, t);
      var seated := db.(orgMembers := db.orgMembers[Seat(o, u) := r]);
      assert DefaultsOk(seated) && IsDefaultTeam(seated, o, t) by {
        assert forall o', t :: IsDefaultTeam(seated, o', t) == IsDefaultTeam(db, o', t);
      }
      DefaultTeamIs(seated, o, t);
      var joined := db;
      if Seat(t, u) !in db.teamMembers {
        joined := db.(teamMembers := db.teamMembers[Seat(t, u) := VIEWER]);
        TeamSeatKeeps(db, joined, t, u, VIEWER);
      }
      NewOrgSeatKeeps(joined, result.db, o, u, r, t);
    }
  }

  lemma AddTeamMemberKeeps(db: Db, t: Id, u: Id, r: Id, newId: Id)
    requires Consistent(db)
    ensures Consistent(Write(db, AddTeamMember(t, u, r), newId).db)
  {
    if t in db.teams && u in db.users && TeamRoleObjection(db, t, r).None? {
      TeamSeatKeeps(db, db.(teamMembers := db.teamMembers[Seat(t, u) := r]), t, u, r);
    }
  }

  lemma NewTeamKeeps(db: Db, db': Db, t: Id, team: Team)
    requires Consistent(db) && t !in db.teams && team.org in db.orgs && !team.isDefault
    requires db' == db.(teams := db.teams[t := team])
    ensures Consistent(db')
  {
    assert forall o', t' :: IsDefaultTeam(db', o', t') == IsDefaultTeam(db, o', t');
    assert OrgSeatsOk(db') && DefaultsOk(db');
  }

  lemma CreateTeamKeeps(db: Db, o: Id, name: string, creator: Id, newId: Id)
    requires Consistent(db)
    ensures Consistent(Write(db, Call.CreateTeam(o, name, creator), newId).db)
  {
    var result := Write(db, Call.CreateTeam(o, name, creator), newId);
    if result.outcome.Committed? {
      var named := db.(teams := db.teams[newId := Team(o, name, false)]);
      NewTeamKeeps(db, named, newId, Team(o, name, false));
      TeamSeatKeeps(named, result.db, newId, creator, ADMIN);
    }
  }

  lemma RoleTableKeeps(db: Db, call: Call, newId: Id)
    requires Consistent(db) && (call.CreateRole? || call.GrantCapabilities?)
    ensures Consistent(Write(db, call, newId).db)
  {
    RolesKeep(db, Write(db, call, newId).db);
  }

  lemma CreateOrgKeeps(db: Db, o: Id, newId: Id)
    requires Consistent(db)
    ensures Consistent(Write(db, CreateOrg(o), newId).db)
  {
    var result := Write(db, CreateOrg(o), newId);
    var db' := result.db;
    if result.outcome.Committed? {
      assert IsDefaultTeam(db', o, newId);
      forall o', t ensures IsDefaultTeam(db', o', t) == (IsDefaultTeam(db, o', t) || (o' == o && t == newId)) {
        if t in db.teams {
          assert db.teams[t].org in db.orgs;
        }
      }
      forall o' | o' in db'.orgs ensures exists t :: IsDefaultTeam(db', o', t) {
        if o' in db.orgs {
          var t :| IsDefaultTeam(db, o', t);
          assert IsDefaultTeam(db', o', t);
        }
      }
    }
  }

  // Every call keeps the tables consistent: one default team per organization, every
  // organization member seated in it, built-in roles in place, and every membership with
  // a role of the right scope that is built in or owned by the same organization.
  lemma AtomicKeepsConsistent(db: Db, call: Call, newId: Id)
    requires Consistent(db)
    ensures Consistent(Atomic(db, call, newId).db)
  {
    if Guard(db, call).None? {
      match call
      case RemoveOrgMember(o, u) => RemoveOrgMemberKeeps(db, o, u, newId);
      case ChangeOrgRole(o, u, r) => ChangeOrgRoleKeeps(db, o, u, r, newId);
      case RemoveTeamMember(_, _, _) => RemoveTeamMemberKeeps(db, call, newId);
      case ChangeTeamRole(_, _, _, _) => ChangeTeamRoleKeeps(db, call, newId);
      case DeleteTeam(t) => DeleteTeamKeeps(db, t, newId);
      case DeleteRole(r) => DeleteRoleKeeps(db, r, newId);
      case AddOrgMember(o, u, r) => AddOrgMemberKeeps(db, o, u, r, newId);
      case AddTeamMember(t, u, r) => AddTeamMemberKeeps(db, t, u, r, newId);
      case CreateTeam(o, name, creator) => CreateTeamKeeps(db, o, name, creator, newId);
      case CreateRole(_, _, _) => RoleTableKeeps(db, call, newId);
      case GrantCapabilities(_, _) => RoleTableKeeps(db, call, newId);
      case CreateOrg(o) => CreateOrgKeeps(db, o, newId);
    }
  }
}
