// The committed tables, the calls that change them, and what each call does when it
// runs alone: the atomic versions that the interleaved protocol is compared with.
module Tables {
  import opened Common

  datatype RoleScope = OrgScope | TeamScope

  // A row of `roles` with its `role_capabilities` rows. Built-in roles have no owner.
  datatype Role = Role(owner: Option<Id>, name: string, scope: RoleScope, caps: set<Capability>)

  datatype Team = Team(org: Id, name: string, isDefault: bool)

  // The primary key of both membership tables.
  datatype Seat = Seat(place: Id, user: Id)

  datatype Db = Db(
    users: set<Id>,
    orgs: set<Id>,
    roles: map<Id, Role>,
    orgMembers: map<Seat, Id>,
    teams: map<Id, Team>,
    teamMembers: map<Seat, Id>
  )

  // Seeded built-in roles.
  const MEMBER: Id := 0x01
  const SUPER_ADMIN: Id := 0x02
  const VIEWER: Id := 0x11
  const EDITOR: Id := 0x12
  const ADMIN: Id := 0x13

  datatype Call =
    | RemoveOrgMember(org: Id, user: Id)
    | ChangeOrgRole(org: Id, user: Id, role: Id)
    | RemoveTeamMember(team: Id, user: Id, superAdmin: bool)
    | ChangeTeamRole(team: Id, user: Id, role: Id, superAdmin: bool)
    | DeleteTeam(team: Id)
    | DeleteRole(role: Id)
    | AddOrgMember(org: Id, user: Id, role: Id)
    | AddTeamMember(team: Id, user: Id, role: Id)
    | CreateTeam(org: Id, name: string, creator: Id)
    | CreateRole(org: Id, name: string, scope: RoleScope)
    | GrantCapabilities(role: Id, caps: seq<Capability>)
    | CreateOrg(org: Id)

  // SQLSTATEs: the four counting invariants, then what triggers and constraints raise.
  datatype Code = ZA001 | ZA002 | ZA003 | ZA004 | P0001 | NotNullViolation | ForeignKeyViolation | UniqueViolation

  datatype Outcome = Committed | Raised(code: Code)

  datatype Result = Result(db: Db, outcome: Outcome)

  // ---- what the guards look at ------------------------------------------------

  predicate Carries(db: Db, role: Id, cap: Capability) {
    role in db.roles && cap in db.roles[role].caps
  }

  predicate IsOrgAdmin(db: Db, org: Id, user: Id) {
    Seat(org, user) in db.orgMembers && Carries(db, db.orgMembers[Seat(org, user)], ManageOrg)
  }

  predicate IsTeamAdmin(db: Db, team: Id, user: Id) {
    Seat(team, user) in db.teamMembers && Carries(db, db.teamMembers[Seat(team, user)], ManageMembers)
  }

  ghost predicate HasOrgAdmin(db: Db, org: Id) {
    exists u :: IsOrgAdmin(db, org, u)
  }

  ghost predicate OtherOrgAdmin(db: Db, org: Id, user: Id) {
    exists u :: u != user && IsOrgAdmin(db, org, u)
  }

  ghost predicate OtherTeamAdmin(db: Db, team: Id, user: Id) {
    exists u :: u != user && IsTeamAdmin(db, team, u)
  }

  predicate InUse(db: Db, role: Id) {
    role in db.orgMembers.Values || role in db.teamMembers.Values
  }

  function TeamRow(db: Db, team: Id): Option<Team> {
    if team in db.teams then Some(db.teams[team]) else None
  }

  predicate IsTeamCall(call: Call) {
    call.RemoveTeamMember? || call.ChangeTeamRole? || call.DeleteTeam?
  }

  // The guard of a call, given the team row and the `keeps_...` flag it works with.
  // The flag says whether the new role still carries the guarded capability.
  ghost function GuardWith(db: Db, call: Call, team: Option<Team>, keeps: bool): Option<Code> {
    match call
    case RemoveOrgMember(o, u) =>
      if OtherOrgAdmin(db, o, u) then None else Some(ZA001)
    case ChangeOrgRole(o, u, r) =>
      if keeps || OtherOrgAdmin(db, o, u) then None else Some(ZA001)
    case RemoveTeamMember(t, u, superAdmin) =>
      if team.Some? && team.value.isDefault then Some(ZA003)
      else if superAdmin || OtherTeamAdmin(db, t, u) then None else Some(ZA002)
    case ChangeTeamRole(t, u, r, superAdmin) =>
      if keeps || superAdmin || OtherTeamAdmin(db, t, u) then None else Some(ZA002)
    case DeleteTeam(t) =>
      if team.Some? && team.value.isDefault then Some(ZA003) else None
    case DeleteRole(r) =>
      if InUse(db, r) then Some(ZA004)
      else if r in db.roles && db.roles[r].owner.Some? then None else Some(ZA004)
    case _ => None
  }

  predicate Keeps(db: Db, call: Call) {
    match call
    case ChangeOrgRole(_, _, r) => Carries(db, r, ManageOrg)
    case ChangeTeamRole(_, _, r, _) => Carries(db, r, ManageMembers)
    case _ => false
  }

  function TeamOf(db: Db, call: Call): Option<Team> {
    if IsTeamCall(call) then TeamRow(db, call.team) else None
  }

  ghost function Guard(db: Db, call: Call): Option<Code> {
    GuardWith(db, call, TeamOf(db, call), Keeps(db, call))
  }

  // ---- what the writes do, with their triggers and constraints ---------------------

  // check_org_membership_role, then the foreign key on role_id. An absent role makes
  // every comparison of the trigger null, so only the foreign key objects.
  function OrgRoleObjection(db: Db, org: Id, role: Id): Option<Code> {
    if role !in db.roles then Some(ForeignKeyViolation)
    else if db.roles[role].scope != OrgScope then Some(P0001)
    else if db.roles[role].owner.Some? && db.roles[role].owner.value != org then Some(P0001)
    else None
  }

  // check_team_membership_role. The owner comparison is null when the team is absent.
  function TeamRoleObjection(db: Db, team: Id, role: Id): Option<Code> {
    if role !in db.roles then Some(ForeignKeyViolation)
    else if db.roles[role].scope != TeamScope then Some(P0001)
    else if db.roles[role].owner.Some? && team in db.teams && db.roles[role].owner.value != db.teams[team].org
    then Some(P0001)
    else None
  }

  predicate IsDefaultTeam(db: Db, org: Id, team: Id) {
    team in db.teams && db.teams[team].org == org && db.teams[team].isDefault
  }

  // The team the join_default_team trigger selects.
  ghost function DefaultTeam(db: Db, org: Id): Option<Id> {
    if t :| IsDefaultTeam(db, org, t) then Some(t) else None
  }

  predicate TeamNameTaken(db: Db, org: Id, name: string) {
    exists t | t in db.teams :: db.teams[t].org == org && db.teams[t].name == name
  }

  predicate RoleNameTaken(db: Db, org: Id, name: string, scope: RoleScope) {
    exists r | r in db.roles ::
      db.roles[r].owner == Some(org) && db.roles[r].name == name && db.roles[r].scope == scope
  }

  predicate Repeats(caps: seq<Capability>) {
    exists i, j :: 0 <= i < j < |caps| && caps[i] == caps[j]
  }

  // Seats of a user in the teams of one organization: what the cascade deletes.
  function CascadeSeats(db: Db, org: Id, user: Id): set<Seat> {
    set s | s in db.teamMembers && s.user == user && s.place in db.teams && db.teams[s.place].org == org
  }

  function TeamSeats(db: Db, team: Id): set<Seat> {
    set s | s in db.teamMembers && s.place == team
  }

  // The after-insert trigger org_member_joins_default_team.
  ghost function JoinDefault(db: Db, org: Id, user: Id): Result {
    match DefaultTeam(db, org)
    case None => Result(db, Committed)
    case Some(t) =>
      if VIEWER !in db.roles then Result(db, Raised(NotNullViolation))
      else if Seat(t, user) in db.teamMembers then Result(db, Committed)
      else Result(db.(teamMembers := db.teamMembers[Seat(t, user) := VIEWER]), Committed)
  }

  ghost function Write(db: Db, call: Call, newId: Id): Result {
    match call
    case RemoveOrgMember(o, u) =>
      Result(db.(teamMembers := db.teamMembers - CascadeSeats(db, o, u),
                 orgMembers := db.orgMembers - {Seat(o, u)}), Committed)
    case ChangeOrgRole(o, u, r) =>
      if Seat(o, u) !in db.orgMembers then Result(db, Committed)
      else if OrgRoleObjection(db, o, r).Some? then Result(db, Raised(OrgRoleObjection(db, o, r).value))
      else Result(db.(orgMembers := db.orgMembers[Seat(o, u) := r]), Committed)
    case RemoveTeamMember(t, u, _) =>
      Result(db.(teamMembers := db.teamMembers - {Seat(t, u)}), Committed)
    case ChangeTeamRole(t, u, r, _) =>
      if Seat(t, u) !in db.teamMembers then Result(db, Committed)
      else if TeamRoleObjection(db, t, r).Some? then Result(db, Raised(TeamRoleObjection(db, t, r).value))
      else Result(db.(teamMembers := db.teamMembers[Seat(t, u) := r]), Committed)
    case DeleteTeam(t) =>
      Result(db.(teams := db.teams - {t}, teamMembers := db.teamMembers - TeamSeats(db, t)), Committed)
    case DeleteRole(r) =>
      if InUse(db, r) then Result(db, Raised(ForeignKeyViolation))
      else Result(db.(roles := db.roles - {r}), Committed)
    case AddOrgMember(o, u, r) =>
      if OrgRoleObjection(db, o, r) == Some(P0001) then Result(db, Raised(P0001))
      else if Seat(o, u) in db.orgMembers then Result(db, Raised(UniqueViolation))
      else if r !in db.roles || o !in db.orgs || u !in db.users then Result(db, Raised(ForeignKeyViolation))
      else
        var joined := JoinDefault(db.(orgMembers := db.orgMembers[Seat(o, u) := r]), o, u);
        if joined.outcome.Raised? then Result(db, joined.outcome) else joined
    case AddTeamMember(t, u, r) =>
      if TeamRoleObjection(db, t, r) == Some(P0001) then Result(db, Raised(P0001))
      else if Seat(t, u) in db.teamMembers then Result(db, Raised(UniqueViolation))
      else if r !in db.roles || t !in db.teams || u !in db.users then Result(db, Raised(ForeignKeyViolation))
      else Result(db.(teamMembers := db.teamMembers[Seat(t, u) := r]), Committed)
    case CreateTeam(o, name, creator) =>
      // the row, then team_creator_is_admin
      if newId in db.teams || TeamNameTaken(db, o, name) then Result(db, Raised(UniqueViolation))
      else if o !in db.orgs || creator !in db.users then Result(db, Raised(ForeignKeyViolation))
      else if ADMIN !in db.roles then Result(db, Raised(NotNullViolation))
      else Result(db.(teams := db.teams[newId := Team(o, name, false)],
                      teamMembers := db.teamMembers[Seat(newId, creator) := ADMIN]), Committed)
    case CreateRole(o, name, scope) =>
      if newId in db.roles || RoleNameTaken(db, o, name, scope) then Result(db, Raised(UniqueViolation))
      else if o !in db.orgs then Result(db, Raised(ForeignKeyViolation))
      else Result(db.(roles := db.roles[newId := Role(Some(o), name, scope, {})]), Committed)
    case GrantCapabilities(r, caps) =>
      // one insert of several rows: the primary key first, then the foreign key
      if Repeats(caps) || (r in db.roles && exists c :: c in caps && c in db.roles[r].caps)
      then Result(db, Raised(UniqueViolation))
      else if caps == [] then Result(db, Committed)
      else if r !in db.roles then Result(db, Raised(ForeignKeyViolation))
      else Result(db.(roles := db.roles[r := db.roles[r].(caps := db.roles[r].caps + set c | c in caps)]), Committed)
    case CreateOrg(o) =>
      // the row, then create_default_team; a generated id is never one in use
      if o in db.orgs || newId in db.teams then Result(db, Raised(UniqueViolation))
      else Result(db.(orgs := db.orgs + {o}, teams := db.teams[newId := Team(o, "General", true)]), Committed)
  }

  // A call that runs alone: guard, then write.
  ghost function Atomic(db: Db, call: Call, newId: Id): Result {
    var guard := Guard(db, call);
    if guard.Some? then Result(db, Raised(guard.value)) else Write(db, call, newId)
  }
}
