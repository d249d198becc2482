// The PL/pgSQL functions and triggers in their own form: statements over mutable
// tables. Every method does exactly what the atomic version of its call does.
module Database {
  import opened Common
  import opened Tables
  import opened Consistency

  lemma CountsOrgAdmins(db: Db, org: Id, user: Id, others: set<Seat>)
    requires others == set m | m in db.orgMembers && m.place == org && m.user != user &&
                               Carries(db, db.orgMembers[m], ManageOrg)
    ensures |others| == 0 <==> !OtherOrgAdmin(db, org, user)
  {
    if m :| m in others {
      assert m == Seat(org, m.user);
      assert IsOrgAdmin(db, org, m.user);
    }
    if u :| u != user && IsOrgAdmin(db, org, u) {
      assert Seat(org, u) in others;
    }
  }

  lemma CountsTeamAdmins(db: Db, team: Id, user: Id, others: set<Seat>)
    requires others == set m | m in db.teamMembers && m.place == team && m.user != user &&
                               Carries(db, db.teamMembers[m], ManageMembers)
    ensures |others| == 0 <==> !OtherTeamAdmin(db, team, user)
  {
    if m :| m in others {
      assert m == Seat(team, m.user);
      assert IsTeamAdmin(db, team, m.user);
    }
    if u :| u != user && IsTeamAdmin(db, team, u) {
      assert Seat(team, u) in others;
    }
  }

  lemma CountsUses(db: Db, role: Id, orgUses: set<Seat>, teamUses: set<Seat>)
    requires orgUses == set m | m in db.orgMembers && db.orgMembers[m] == role
    requires teamUses == set m | m in db.teamMembers && db.teamMembers[m] == role
    ensures |orgUses| + |teamUses| > 0 <==> InUse(db, role)
  {
    if role in db.orgMembers.Values {
      var m :| m in db.orgMembers && db.orgMembers[m] == role;
      assert m in orgUses;
    }
    if role in db.teamMembers.Values {
      var m :| m in db.teamMembers && db.teamMembers[m] == role;
      assert m in teamUses;
    }
  }

  class Database {
    var users: set<Id>
    var orgs: set<Id>
    var roles: map<Id, Role>
    var orgMembers: map<Seat, Id>
    var teams: map<Id, Team>
    var teamMembers: map<Seat, Id>

    function Tables(): Db
      reads this
    {
      Db(users, orgs, roles, orgMembers, teams, teamMembers)
    }

    ghost predicate Valid()
      reads this
    {
      Consistent(Tables())
    }

    // select count(*): members of the organization other than the user whose role
    // carries manage_org.
    method CountOtherOrgAdmins(org: Id, user: Id) returns (remaining: nat)
      ensures remaining == 0 <==> !OtherOrgAdmin(Tables(), org, user)
    {
      var others := set m | m in orgMembers && m.place == org && m.user != user &&
                            Carries(Tables(), orgMembers[m], ManageOrg);
      CountsOrgAdmins(Tables(), org, user, others);
      remaining := |others|;
    }

    // The same of a team and manage_members.
    method CountOtherTeamAdmins(team: Id, user: Id) returns (remaining: nat)
      ensures remaining == 0 <==> !OtherTeamAdmin(Tables(), team, user)
    {
      var others := set m | m in teamMembers && m.place == team && m.user != user &&
                            Carries(Tables(), teamMembers[m], ManageMembers);
      CountsTeamAdmins(Tables(), team, user, others);
      remaining := |others|;
    }

    method RemoveOrgMember(org: Id, user: Id) returns (out: Outcome)
      requires Valid()
      modifies this
      ensures Valid() && Result(Tables(), out) == Atomic(old(Tables()), Call.RemoveOrgMember(org, user), 0)
    {
      hide Consistent;
      AtomicKeepsConsistent(Tables(), Call.RemoveOrgMember(org, user), 0);
      var remaining := CountOtherOrgAdmins(org, user);
      if remaining == 0 {
        return Raised(ZA001);
      }
      teamMembers := teamMembers - CascadeSeats(Tables(), org, user);
      orgMembers := orgMembers - {Seat(org, user)};
      out := Committed;
    }

    method ChangeOrgRole(org: Id, user: Id, role: Id) returns (out: Outcome)
      requires Valid()
      modifies this
      ensures Valid() && Result(Tables(), out) == Atomic(old(Tables()), Call.ChangeOrgRole(org, user, role), 0)
    {
      hide Consistent;
      AtomicKeepsConsistent(Tables(), Call.ChangeOrgRole(org, user, role), 0);
      var keepsManageOrg := role in roles && ManageOrg in roles[role].caps;
      if !keepsManageOrg {
        var remaining := CountOtherOrgAdmins(org, user);
        if remaining == 0 {
          return Raised(ZA001);
        }
      }
      if Seat(org, user) in orgMembers {
        var objection := CheckOrgMembershipRole(org, role);
        if objection.Some? {
          return Raised(objection.value);
        }
        orgMembers := orgMembers[Seat(org, user) := role];
      }
      out := Committed;
    }

    method RemoveTeamMember(team: Id, user: Id, actorIsSuperAdmin: bool) returns (out: Outcome)
      requires Valid()
      modifies this
      ensures Valid()
      ensures Result(Tables(), out) ==
              Atomic(old(Tables()), Call.RemoveTeamMember(team, user, actorIsSuperAdmin), 0)
    {
      hide Consistent;
      AtomicKeepsConsistent(Tables(), Call.RemoveTeamMember(team, user, actorIsSuperAdmin), 0);
      var isDefaultTeam := team in teams && teams[team].isDefault;
      if isDefaultTeam {
        return Raised(ZA003);
      }
      if !actorIsSuperAdmin {
        var remaining := CountOtherTeamAdmins(team, user);
        if remaining == 0 {
          return Raised(ZA002);
        }
      }
      teamMembers := teamMembers - {Seat(team, user)};
      out := Committed;
    }

    method ChangeTeamRole(team: Id, user: Id, role: Id, actorIsSuperAdmin: bool) returns (out: Outcome)
      requires Valid()
      modifies this
      ensures Valid()
      ensures Result(Tables(), out) ==
              Atomic(old(Tables()), Call.ChangeTeamRole(team, user, role, actorIsSuperAdmin), 0)
    {
      hide Consistent;
      AtomicKeepsConsistent(Tables(), Call.ChangeTeamRole(team, user, role, actorIsSuperAdmin), 0);
      var keepsManageMembers := role in roles && ManageMembers in roles[role].caps;
      if !keepsManageMembers && !actorIsSuperAdmin {
        var remaining := CountOtherTeamAdmins(team, user);
        if remaining == 0 {
          return Raised(ZA002);
        }
      }
      if Seat(team, user) in teamMembers {
        var objection := CheckTeamMembershipRole(team, role);
        if objection.Some? {
          return Raised(objection.value);
        }
        teamMembers := teamMembers[Seat(team, user) := role];
      }
      out := Committed;
    }

    method DeleteTeam(team: Id) returns (out: Outcome)
      requires Valid()
      modifies this
      ensures Valid() && Result(Tables(), out) == Atomic(old(Tables()), Call.DeleteTeam(team), 0)
    {
      hide Consistent;
      AtomicKeepsConsistent(Tables(), Call.DeleteTeam(team), 0);
      var isDefaultTeam := team in teams && teams[team].isDefault;
      if isDefaultTeam {
        return Raised(ZA003);
      }
      teamMembers := teamMembers - TeamSeats(Tables(), team);
      teams := teams - {team};
      out := Committed;
    }

    method DeleteRole(role: Id) returns (out: Outcome)
      requires Valid()
      modifies this
      ensures Valid() && Result(Tables(), out) == Atomic(old(Tables()), Call.DeleteRole(role), 0)
    {
      hide Consistent;
      AtomicKeepsConsistent(Tables(), Call.DeleteRole(role), 0);
      var orgUses := set m | m in orgMembers && orgMembers[m] == role;
      var teamUses := set m | m in teamMembers && teamMembers[m] == role;
      CountsUses(Tables(), role, orgUses, teamUses);
      var inUse := |orgUses| + |teamUses|;
      if inUse > 0 {
        return Raised(ZA004);
      }
      if !(role in roles && roles[role].owner.Some?) {
        return Raised(ZA004);
      }
      roles := roles - {role};
      out := Committed;
    }

    // Trigger org_membership_role_check and the foreign key on role_id.
    method CheckOrgMembershipRole(org: Id, role: Id) returns (objection: Option<Code>)
      ensures objection.None? <==> FitsOrg(Tables(), org, role)
      ensures objection == Some(ForeignKeyViolation) <==> role !in roles
      ensures objection in {None, Some(ForeignKeyViolation), Some(P0001)}
    {
      if role !in roles {
        return Some(ForeignKeyViolation);
      }
      var r := roles[role];
      if r.scope != OrgScope {
        return Some(P0001);
      }
      if r.owner.Some? && r.owner.value != org {
        return Some(P0001);
      }
      objection := None;
    }

    // Trigger team_membership_role_check and the foreign key on role_id.
    method CheckTeamMembershipRole(team: Id, role: Id) returns (objection: Option<Code>)
      ensures team in teams ==> (objection.None? <==> FitsTeam(Tables(), team, role))
      ensures team !in teams ==> (objection.None? <==> role in roles && roles[role].scope == TeamScope)
      ensures objection == Some(ForeignKeyViolation) <==> role !in roles
      ensures objection in {None, Some(ForeignKeyViolation), Some(P0001)}
    {
      if role !in roles {
        return Some(ForeignKeyViolation);
      }
      var r := roles[role];
      var teamOrg := if team in teams then Some(teams[team].org) else None;
      if r.scope != TeamScope {
        return Some(P0001);
      }
      if r.owner.Some? && teamOrg.Some? && r.owner.value != teamOrg.value {
        return Some(P0001);
      }
      objection := None;
    }

    // Trigger org_member_joins_default_team.
    method JoinDefaultTeam(org: Id, user: Id) returns (out: Outcome)
      requires DefaultsOk(Tables())
      modifies this
      ensures Result(Tables(), out) == JoinDefault(old(Tables()), org, user)
    {
      var defaults := set t | t in teams && teams[t].org == org && teams[t].isDefault;
      if defaults == {} {
        assert forall t :: IsDefaultTeam(Tables(), org, t) ==> t in defaults;
        return Committed;
      }
      var dt :| dt in defaults;
      DefaultTeamIs(Tables(), org, dt);
      if VIEWER !in roles {
        return Raised(NotNullViolation);
      }
      if Seat(dt, user) !in teamMembers {
        teamMembers := teamMembers[Seat(dt, user) := VIEWER];
      }
      out := Committed;
    }

    method InsertOrgMembership(org: Id, user: Id, role: Id) returns (out: Outcome)
      requires Valid()
      modifies this
      ensures Valid() && Result(Tables(), out) == Atomic(old(Tables()), AddOrgMember(org, user, role), 0)
    {
      AtomicKeepsConsistent(Tables(), AddOrgMember(org, user, role), 0);
      ghost var before := Tables();
      var objection := CheckOrgMembershipRole(org, role);
      if objection == Some(P0001) {
        return Raised(P0001);
      }
      if Seat(org, user) in orgMembers {
        return Raised(UniqueViolation);
      }
      if role !in roles || org !in orgs || user !in users {
        return Raised(ForeignKeyViolation);
      }
      orgMembers := orgMembers[Seat(org, user) := role];
      assert DefaultsOk(Tables()) by {
        assert forall o, t :: IsDefaultTeam(Tables(), o, t) == IsDefaultTeam(before, o, t);
      }
      out := JoinDefaultTeam(org, user);
    }

    method InsertTeamMembership(team: Id, user: Id, role: Id) returns (out: Outcome)
      requires Valid()
      modifies this
      ensures Valid() && Result(Tables(), out) == Atomic(old(Tables()), AddTeamMember(team, user, role), 0)
    {
      hide Consistent;
      AtomicKeepsConsistent(Tables(), AddTeamMember(team, user, role), 0);
      var objection := CheckTeamMembershipRole(team, role);
      if objection == Some(P0001) {
        return Raised(P0001);
      }
      if Seat(team, user) in teamMembers {
        return Raised(UniqueViolation);
      }
      if role !in roles || team !in teams || user !in users {
        return Raised(ForeignKeyViolation);
      }
      teamMembers := teamMembers[Seat(team, user) := role];
      out := Committed;
    }

    // The insert of create_team with trigger team_creator_is_admin.
    method InsertTeam(org: Id, name: string, creator: Id, newId: Id) returns (out: Outcome)
      requires Valid()
      modifies this
      ensures Valid() && Result(Tables(), out) == Atomic(old(Tables()), Call.CreateTeam(org, name, creator), newId)
    {
      AtomicKeepsConsistent(Tables(), Call.CreateTeam(org, name, creator), newId);
      if newId in teams || TeamNameTaken(Tables(), org, name) {
        return Raised(UniqueViolation);
      }
      if org !in orgs || creator !in users {
        return Raised(ForeignKeyViolation);
      }
      teams := teams[newId := Team(org, name, false)];
      teamMembers := teamMembers[Seat(newId, creator) := ADMIN];
      out := Committed;
    }

    // The insert of an organization with trigger org_gets_default_team.
    method InsertOrganization(org: Id, newId: Id) returns (out: Outcome)
      requires Valid()
      modifies this
      ensures Valid() && Result(Tables(), out) == Atomic(old(Tables()), CreateOrg(org), newId)
    {
      hide Consistent;
      AtomicKeepsConsistent(Tables(), CreateOrg(org), newId);
      if org in orgs || newId in teams {
        return Raised(UniqueViolation);
      }
      orgs := orgs + {org};
      teams := teams[newId := Team(org, "General", true)];
      out := Committed;
    }
  }
}
