// What each call does, row by row: when it commits, what it is refused with otherwise, and
// which rows are there afterwards. Refusals are in the order in which they are raised.
module Effects {
  import opened Common
  import opened Tables
  import opened Consistency

  // `after` is `before` without the given seats.
  ghost predicate Without(before: map<Seat, Id>, after: map<Seat, Id>, gone: set<Seat>) {
    && (forall s :: s in after <==> s in before && s !in gone)
    && (forall s :: s in after ==> after[s] == before[s])
  }

  // `after` is `before` with one seat having the role.
  ghost predicate Seated(before: map<Seat, Id>, after: map<Seat, Id>, seat: Seat, role: Id) {
    && (forall s :: s in after <==> s in before || s == seat)
    && (forall s :: s in after ==> after[s] == if s == seat then role else before[s])
  }

  predicate SameButMembers(db: Db, db': Db) {
    db'.users == db.users && db'.orgs == db.orgs && db'.roles == db.roles && db'.teams == db.teams
  }

  predicate Refused(r: Result, db: Db, code: Code) {
    r == Result(db, Raised(code))
  }

  lemma RefusalChangesNothing(db: Db, call: Call, newId: Id)
    ensures Atomic(db, call, newId).outcome.Raised? ==> Atomic(db, call, newId).db == db
  {
  }

  // The user leaves the organization and every team of it, whatever roles it had there; all
  // other seats stay.
  lemma RemoveOrgMemberDoes(db: Db, org: Id, user: Id, newId: Id)
    ensures var r := Atomic(db, RemoveOrgMember(org, user), newId);
            if !exists u :: u != user && IsOrgAdmin(db, org, u) then Refused(r, db, ZA001)
            else
              && r.outcome.Committed? && SameButMembers(db, r.db)
              && Without(db.orgMembers, r.db.orgMembers, {Seat(org, user)})
              && (forall s :: s in r.db.teamMembers <==>
                              (s in db.teamMembers
                               && !(s.user == user && s.place in db.teams && db.teams[s.place].org == org)))
              && (forall s :: s in r.db.teamMembers ==> r.db.teamMembers[s] == db.teamMembers[s])
  {
  }

  lemma ChangeOrgRoleDoes(db: Db, org: Id, user: Id, role: Id, newId: Id)
    ensures var r := Atomic(db, ChangeOrgRole(org, user, role), newId);
            var keeps := role in db.roles && ManageOrg in db.roles[role].caps;
            if !keeps && !exists u :: u != user && IsOrgAdmin(db, org, u) then Refused(r, db, ZA001)
            else if Seat(org, user) !in db.orgMembers then r == Result(db, Committed)
            else if role !in db.roles then Refused(r, db, ForeignKeyViolation)
            else if !FitsOrg(db, org, role) then Refused(r, db, P0001)
            else
              && r.outcome.Committed? && SameButMembers(db, r.db) && r.db.teamMembers == db.teamMembers
              && Seated(db.orgMembers, r.db.orgMembers, Seat(org, user), role)
  {
  }

  lemma RemoveTeamMemberDoes(db: Db, team: Id, user: Id, superAdmin: bool, newId: Id)
    ensures var r := Atomic(db, RemoveTeamMember(team, user, superAdmin), newId);
            if team in db.teams && db.teams[team].isDefault then Refused(r, db, ZA003)
            else if !superAdmin && !exists u :: u != user && IsTeamAdmin(db, team, u) then Refused(r, db, ZA002)
            else
              && r.outcome.Committed? && SameButMembers(db, r.db) && r.db.orgMembers == db.orgMembers
              && Without(db.teamMembers, r.db.teamMembers, {Seat(team, user)})
  {
  }

  lemma ChangeTeamRoleDoes(db: Db, team: Id, user: Id, role: Id, superAdmin: bool, newId: Id)
    requires Seat(team, user) in db.teamMembers ==> team in db.teams
    ensures var r := Atomic(db, ChangeTeamRole(team, user, role, superAdmin), newId);
            var keeps := role in db.roles && ManageMembers in db.roles[role].caps;
            if !keeps && !superAdmin && !exists u :: u != user && IsTeamAdmin(db, team, u) then Refused(r, db, ZA002)
            else if Seat(team, user) !in db.teamMembers then r == Result(db, Committed)
            else if role !in db.roles then Refused(r, db, ForeignKeyViolation)
            else if !FitsTeam(db, team, role) then Refused(r, db, P0001)
            else
              && r.outcome.Committed? && SameButMembers(db, r.db) && r.db.orgMembers == db.orgMembers
              && Seated(db.teamMembers, r.db.teamMembers, Seat(team, user), role)
  {
  }

  predicate IsMembershipChange(call: Call) {
    call.RemoveOrgMember? || call.ChangeOrgRole? || call.RemoveTeamMember? || call.ChangeTeamRole?
  }

  // The same seat, or none, with the same role.
  predicate SameSeat(before: map<Seat, Id>, after: map<Seat, Id>, seat: Seat) {
    (seat in before <==> seat in after) && (seat in before ==> before[seat] == after[seat])
  }

  // Refused or not, these calls leave the seats of everybody else as they were.
  lemma OnesOwnSeatsOnly(db: Db, call: Call, newId: Id, seat: Seat)
    requires IsMembershipChange(call) && seat.user != call.user
    ensures var db' := Atomic(db, call, newId).db;
            && SameButMembers(db, db')
            && SameSeat(db.orgMembers, db'.orgMembers, seat) && SameSeat(db.teamMembers, db'.teamMembers, seat)
  {
    hide Guard, OrgRoleObjection, TeamRoleObjection;
  }

  // The team goes, with the seats of everyone in it.
  lemma DeleteTeamDoes(db: Db, team: Id, newId: Id)
    ensures var r := Atomic(db, DeleteTeam(team), newId);
            if team in db.teams && db.teams[team].isDefault then Refused(r, db, ZA003)
            else
              && r.outcome.Committed? && r.db.users == db.users && r.db.orgs == db.orgs && r.db.roles == db.roles
              && r.db.orgMembers == db.orgMembers
              && (forall t :: t in r.db.teams <==> t in db.teams && t != team)
              && (forall t :: t in r.db.teams ==> r.db.teams[t] == db.teams[t])
              && (forall s :: s in r.db.teamMembers <==> s in db.teamMembers && s.place != team)
              && (forall s :: s in r.db.teamMembers ==> r.db.teamMembers[s] == db.teamMembers[s])
  {
  }

  // The role has an assignment somewhere.
  ghost predicate Assigned(db: Db, role: Id) {
    || (exists s :: s in db.orgMembers && db.orgMembers[s] == role)
    || (exists s :: s in db.teamMembers && db.teamMembers[s] == role)
  }

  lemma AssignedIsInUse(db: Db, role: Id)
    ensures Assigned(db, role) <==> InUse(db, role)
  {
    if InUse(db, role) {
      if role in db.orgMembers.Values {
        var s :| s in db.orgMembers && db.orgMembers[s] == role;
      } else {
        var s :| s in db.teamMembers && db.teamMembers[s] == role;
      }
    }
  }

  lemma DeleteRoleDoes(db: Db, role: Id, newId: Id)
    ensures var r := Atomic(db, DeleteRole(role), newId);
            if Assigned(db, role) || role !in db.roles || db.roles[role].owner.None? then Refused(r, db, ZA004)
            else
              && r.outcome.Committed? && r.db.users == db.users && r.db.orgs == db.orgs && r.db.teams == db.teams
              && r.db.orgMembers == db.orgMembers && r.db.teamMembers == db.teamMembers
              && (forall x :: x in r.db.roles <==> x in db.roles && x != role)
              && (forall x :: x in r.db.roles ==> r.db.roles[x] == db.roles[x])
  {
    AssignedIsInUse(db, role);
  }

  // The member takes its seat in the organization, and in the default team as viewer unless
  // it already has a seat there.
  lemma AddOrgMemberDoes(db: Db, org: Id, user: Id, role: Id, newId: Id, general: Id)
    requires Consistent(db) && (org in db.orgs ==> IsDefaultTeam(db, org, general))
    ensures var r := Atomic(db, AddOrgMember(org, user, role), newId);
            if role in db.roles && !FitsOrg(db, org, role) then Refused(r, db, P0001)
            else if Seat(org, user) in db.orgMembers then Refused(r, db, UniqueViolation)
            else if role !in db.roles || org !in db.orgs || user !in db.users then Refused(r, db, ForeignKeyViolation)
            else
              && r.outcome.Committed? && SameButMembers(db, r.db)
              && Seated(db.orgMembers, r.db.orgMembers, Seat(org, user), role)
              && if Seat(general, user) in db.teamMembers then r.db.teamMembers == db.teamMembers
                 else Seated(db.teamMembers, r.db.teamMembers, Seat(general, user), VIEWER)
  {
    if org in db.orgs {
      var seated := db.(orgMembers := db.orgMembers[Seat(org, user) := role]);
      assert DefaultsOk(seated) && IsDefaultTeam(seated, org, general) by {
        assert forall o, t :: IsDefaultTeam(seated, o, t) == IsDefaultTeam(db, o, t);
      }
      DefaultTeamIs(seated, org, general);
    }
  }

  lemma AddTeamMemberDoes(db: Db, team: Id, user: Id, role: Id, newId: Id)
    requires TeamSeatsOk(db)
    ensures var r := Atomic(db, AddTeamMember(team, user, role), newId);
            if role in db.roles && db.roles[role].scope == OrgScope then Refused(r, db, P0001)
            else if role in db.roles && team in db.teams && !FitsTeam(db, team, role) then Refused(r, db, P0001)
            else if Seat(team, user) in db.teamMembers then Refused(r, db, UniqueViolation)
            else if role !in db.roles || team !in db.teams || user !in db.users then Refused(r, db, ForeignKeyViolation)
            else
              && r.outcome.Committed? && SameButMembers(db, r.db) && r.db.orgMembers == db.orgMembers
              && Seated(db.teamMembers, r.db.teamMembers, Seat(team, user), role)
  {
  }

  // The team appears, not default, with its creator as its administrator.
  lemma CreateTeamDoes(db: Db, org: Id, name: string, creator: Id, newId: Id)
    requires newId !in db.teams && ADMIN in db.roles
    ensures var r := Atomic(db, Call.CreateTeam(org, name, creator), newId);
            if exists t :: t in db.teams && db.teams[t].org == org && db.teams[t].name == name
            then Refused(r, db, UniqueViolation)
            else if org !in db.orgs || creator !in db.users then Refused(r, db, ForeignKeyViolation)
            else
              && r.outcome.Committed? && r.db.users == db.users && r.db.orgs == db.orgs && r.db.roles == db.roles
              && r.db.orgMembers == db.orgMembers
              && (forall t :: t in r.db.teams <==> t in db.teams || t == newId)
              && (forall t :: t in db.teams ==> r.db.teams[t] == db.teams[t])
              && r.db.teams[newId] == Team(org, name, false)
              && Seated(db.teamMembers, r.db.teamMembers, Seat(newId, creator), ADMIN)
  {
  }

  lemma CreateRoleDoes(db: Db, org: Id, name: string, scope: RoleScope, newId: Id)
    requires newId !in db.roles
    ensures var r := Atomic(db, CreateRole(org, name, scope), newId);
            if exists x :: x in db.roles && db.roles[x].owner == Some(org) && db.roles[x].name == name &&
                           db.roles[x].scope == scope
            then Refused(r, db, UniqueViolation)
            else if org !in db.orgs then Refused(r, db, ForeignKeyViolation)
            else
              && r.outcome.Committed? && r.db.users == db.users && r.db.orgs == db.orgs && r.db.teams == db.teams
              && r.db.orgMembers == db.orgMembers && r.db.teamMembers == db.teamMembers
              && (forall x :: x in r.db.roles <==> x in db.roles || x == newId)
              && (forall x :: x in db.roles ==> r.db.roles[x] == db.roles[x])
              && r.db.roles[newId] == Role(Some(org), name, scope, {})
  {
  }

  // A role gains the listed capabilities; nothing happens for an empty list, and all or
  // nothing when one is listed twice or already there.
  lemma GrantCapabilitiesDoes(db: Db, role: Id, caps: seq<Capability>, newId: Id)
    ensures var r := Atomic(db, GrantCapabilities(role, caps), newId);
            if (exists i, j :: 0 <= i < j < |caps| && caps[i] == caps[j])
               || (role in db.roles && exists c :: c in caps && c in db.roles[role].caps)
            then Refused(r, db, UniqueViolation)
            else if caps != [] && role !in db.roles then Refused(r, db, ForeignKeyViolation)
            else
              && r.outcome.Committed? && r.db.users == db.users && r.db.orgs == db.orgs && r.db.teams == db.teams
              && r.db.orgMembers == db.orgMembers && r.db.teamMembers == db.teamMembers
              && r.db.roles.Keys == db.roles.Keys
              && (forall x :: x in db.roles && x != role ==> r.db.roles[x] == db.roles[x])
              && (role in db.roles ==>
                    && r.db.roles[role].(caps := {}) == db.roles[role].(caps := {})
                    && forall c :: c in r.db.roles[role].caps <==> c in db.roles[role].caps || c in caps)
  {
  }

  // The organization appears with one team, which is its default team.
  lemma CreateOrgDoes(db: Db, org: Id, newId: Id)
    requires newId !in db.teams
    ensures var r := Atomic(db, CreateOrg(org), newId);
            if org in db.orgs then Refused(r, db, UniqueViolation)
            else
              && r.outcome.Committed? && r.db.users == db.users && r.db.roles == db.roles
              && r.db.orgMembers == db.orgMembers && r.db.teamMembers == db.teamMembers
              && (forall o :: o in r.db.orgs <==> o in db.orgs || o == org)
              && (forall t :: t in r.db.teams <==> t in db.teams || t == newId)
              && (forall t :: t in db.teams ==> r.db.teams[t] == db.teams[t])
              && r.db.teams[newId] == Team(org, "General", true)
  {
  }
}
