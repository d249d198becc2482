// What holds in every interleaving: no organization loses its last administrator, guarded
// team changes leave a team administrator, and what exactly can strand a team.
module Safety {
  import opened Common
  import opened Tables
  import opened Consistency
  import opened Locking
  import opened Serial

  lemma AtomicKeepsOrgAdmin(db: Db, call: Call, newId: Id, org: Id)
    requires HasOrgAdmin(db, org)
    ensures HasOrgAdmin(Atomic(db, call, newId).db, org)
  {
    var db' := Atomic(db, call, newId).db;
    var u :| IsOrgAdmin(db, org, u);
    if Guard(db, call).None? {
      if call.RemoveOrgMember? || (call.ChangeOrgRole? && !Keeps(db, call)) {
        var v :| if call.org == org then v != call.user && IsOrgAdmin(db, org, v) else v == u;
        assert IsOrgAdmin(db', org, v);
      } else {
        WriteSparesOrgAdmins(db, call, newId, {});
        assert IsOrgAdmin(db', org, u);
      }
    }
  }

  // In every interleaving, whatever happens to roles meanwhile, an organization that has a
  // member with manage_org never again has none.
  lemma {:induction false} OrgNeverLosesItsAdmins(s: Sys, picks: seq<Pick>, org: Id)
    requires Inv(s) && RunOf(s, picks).Some? && HasOrgAdmin(s.db, org)
    ensures HasOrgAdmin(RunOf(s, picks).value.db, org)
    decreases picks
  {
    if picks != [] {
      var i, s' := picks[0].tx, Next(s, picks[0].tx, picks[0].newId).value;
      NextKeepsInv(s, i, picks[0].newId, s');
      StepIsAtomic(s, i, picks[0].newId, s');
      AtomicKeepsOrgAdmin(s.db, s.txs[i].call, picks[0].newId, org);
      OrgNeverLosesItsAdmins(s', picks[1..], org);
    }
  }

  // Reachable tables are consistent: one default team per organization, all members in it,
  // built-in roles in place, every membership with a role of the right scope and owner.
  lemma ReachableIsConsistent(s: Sys, picks: seq<Pick>)
    requires Initial(s) && RunOf(s, picks).Some?
    ensures Consistent(RunOf(s, picks).value.db)
  {
    InitialInv(s);
    RunKeepsInv(s, picks);
  }

  lemma CommitsByWriting(s: Sys, i: TxId, newId: Id, s': Sys)
    requires Next(s, i, newId) == Some(s') && s'.txs[i].pc == Done(Committed)
    ensures s.txs[i].pc.WriteRows? && Write(s.db, s.txs[i].call, newId) == Result(s'.db, Committed)
  {
  }

  lemma TeamWriteSparesOthers(db: Db, call: Call, newId: Id, user: Id)
    requires call.RemoveTeamMember? || call.ChangeTeamRole?
    requires user != call.user && IsTeamAdmin(db, call.team, user)
    ensures IsTeamAdmin(Write(db, call, newId).db, call.team, user)
  {
  }

  // The call removes or demotes a member of its team without the super-admin flag.
  predicate Guarded(db: Db, call: Call) {
    || (call.RemoveTeamMember? && !call.superAdmin)
    || (call.ChangeTeamRole? && !call.superAdmin && !Keeps(db, call) && Seat(call.team, call.user) in db.teamMembers)
  }

  lemma GuardedHasOther(s: Sys, tx: Tx, newId: Id)
    requires TxInv(s, tx) && tx.pc.WriteRows? && Guarded(s.db, tx.call)
    requires Write(s.db, tx.call, newId).outcome.Committed?
    ensures OtherTeamAdmin(s.db, tx.call.team, tx.call.user)
  {
  }

  // A guarded removal or demotion that commits leaves another administrator in the team,
  // at the moment it commits and whatever ran alongside.
  lemma GuardedChangeLeavesTeamAdmin(s: Sys, i: TxId, newId: Id, s': Sys)
    requires Inv(s) && Next(s, i, newId) == Some(s') && s'.txs[i].pc == Done(Committed)
    requires Guarded(s.db, s.txs[i].call)
    ensures OtherTeamAdmin(s'.db, s.txs[i].call.team, s.txs[i].call.user)
  {
    var call := s.txs[i].call;
    CommitsByWriting(s, i, newId, s');
    GuardedHasOther(s, s.txs[i], newId);
    var u :| u != call.user && IsTeamAdmin(s.db, call.team, u);
    TeamWriteSparesOthers(s.db, call, newId, u);
  }

  // ---- which calls can strand a team ------------------------------------------------------

  ghost predicate HasTeamAdmin(db: Db, team: Id) {
    exists u :: IsTeamAdmin(db, team, u)
  }

  // The user is the only administrator of the team.
  ghost predicate SoleTeamAdmin(db: Db, team: Id, user: Id) {
    IsTeamAdmin(db, team, user) && !OtherTeamAdmin(db, team, user)
  }

  // The calls that take a team's last administrator away: the cascade of a removal from
  // the organization, a super-admin overriding the guard, or deleting the team itself.
  ghost predicate Strands(db: Db, call: Call, team: Id) {
    match call
    case RemoveOrgMember(o, u) => team in db.teams && db.teams[team].org == o && SoleTeamAdmin(db, team, u)
    case RemoveTeamMember(t, u, superAdmin) => t == team && superAdmin && SoleTeamAdmin(db, team, u)
    case ChangeTeamRole(t, u, r, superAdmin) =>
      t == team && superAdmin && SoleTeamAdmin(db, team, u) && !Keeps(db, call)
    case DeleteTeam(t) => t == team
    case _ => false
  }

  // The calls that reach into the team.
  predicate Touches(db: Db, call: Call, team: Id) {
    || (IsTeamCall(call) && call.team == team)
    || (call.RemoveOrgMember? && team in db.teams && db.teams[team].org == call.org)
  }

  lemma OutOfReach(db: Db, call: Call, newId: Id, team: Id, user: Id)
    requires IsTeamAdmin(db, team, user) && team in db.teams && !Touches(db, call, team)
    ensures IsTeamAdmin(Write(db, call, newId).db, team, user)
  {
    var held := match call
      case RemoveOrgMember(o, _) => {OrgKey(o)}
      case RemoveTeamMember(t, _, _) => {TeamKey(t)}
      case ChangeTeamRole(t, _, _, _) => {TeamKey(t)}
      case DeleteTeam(t) => {TeamKey(t)}
      case _ => {};
    WriteSparesTeamAdmins(db, call, newId, held);
  }

  lemma OtherSurvives(db: Db, call: Call, newId: Id, team: Id, user: Id)
    requires IsTeamAdmin(db, team, user) && Touches(db, call, team) && !call.DeleteTeam?
    requires user != call.user || (call.ChangeTeamRole? && Keeps(db, call))
    ensures IsTeamAdmin(Write(db, call, newId).db, team, user)
  {
  }

  lemma UnstrandedKeeps(db: Db, call: Call, newId: Id, team: Id)
    requires TeamSeatsOk(db) && HasTeamAdmin(db, team) && Atomic(db, call, newId).outcome.Committed?
    requires !Strands(db, call, team)
    ensures HasTeamAdmin(Atomic(db, call, newId).db, team)
  {
    var u :| IsTeamAdmin(db, team, u);
    assert Seat(team, u).place in db.teams;
    if !Touches(db, call, team) {
      OutOfReach(db, call, newId, team, u);
    } else {
      var v: Id := u;
      if u == call.user && !(call.ChangeTeamRole? && Keeps(db, call)) {
        assert OtherTeamAdmin(db, team, call.user);
        v :| v != call.user && IsTeamAdmin(db, team, v);
      }
      OtherSurvives(db, call, newId, team, v);
    }
  }

  lemma StrandingStrands(db: Db, call: Call, newId: Id, team: Id)
    requires Atomic(db, call, newId).outcome.Committed? && Strands(db, call, team)
    ensures !HasTeamAdmin(Atomic(db, call, newId).db, team)
  {
    var db' := Atomic(db, call, newId).db;
    forall v ensures !IsTeamAdmin(db', team, v) {
      if IsTeamAdmin(db', team, v) && !call.DeleteTeam? {
        assert v != call.user ==> IsTeamAdmin(db, team, v);
      }
    }
  }

  // A team does not keep its last administrator in general. It loses it in a step exactly
  // when the step is the write of a call that strands it.
  lemma StrandsExactly(s: Sys, i: TxId, newId: Id, s': Sys, team: Id)
    requires Inv(s) && Next(s, i, newId) == Some(s') && HasTeamAdmin(s.db, team)
    ensures !HasTeamAdmin(s'.db, team) <==> s'.db != s.db && Strands(s.db, s.txs[i].call, team)
  {
    StepIsAtomic(s, i, newId, s');
    if s'.db != s.db {
      if Strands(s.db, s.txs[i].call, team) {
        StrandingStrands(s.db, s.txs[i].call, newId, team);
      } else {
        UnstrandedKeeps(s.db, s.txs[i].call, newId, team);
      }
    }
  }

  // ---- and it can be repaired -----------------------------------------------------------------

  lemma TeamRowSpared(s: Sys, i: TxId, newId: Id, s': Sys)
    requires Inv(s) && Next(s, i, newId) == Some(s')
    ensures SparesTeams(s.db, s'.db, s.used) && s.used <= s'.used
  {
    NextMoves(s, i, newId);
    NextTables(s, i, newId, s');
    if s'.db != s.db {
      assert TxInv(s, s.txs[i]);
      WriteSpares(s, s.txs[i], newId);
    }
  }

  lemma SparedRow(db: Db, db': Db, used: set<Id>, team: Id)
    requires SparesTeams(db, db', used) && team in used && team in db'.teams
    ensures team in db.teams && db'.teams[team] == db.teams[team]
  {
  }

  // A team that is there at the end of a run was there, with the same row, whenever its id
  // had been in use.
  lemma {:induction false} TeamRowStays(s: Sys, picks: seq<Pick>, team: Id)
    requires Inv(s) && RunOf(s, picks).Some? && team in s.used
    ensures var final := RunOf(s, picks).value;
            team in final.db.teams ==> team in s.db.teams && final.db.teams[team] == s.db.teams[team]
    decreases picks
  {
    hide Inv, SparesTeams;
    if picks != [] {
      var i, s' := picks[0].tx, Next(s, picks[0].tx, picks[0].newId).value;
      NextKeepsInv(s, i, picks[0].newId, s');
      TeamRowSpared(s, i, picks[0].newId, s');
      TeamRowStays(s', picks[1..], team);
      if team in s'.db.teams {
        SparedRow(s.db, s'.db, s.used, team);
      }
    }
  }

  // The route of a team call reads the override flag in a request of its own, before the
  // call begins: it says whether the actor administers the team's organization at that time.
  predicate FlagRead(s: Sys, i: TxId, actor: Id) {
    && i in s.txs && s.txs[i].pc.Begin?
    && (s.txs[i].call.RemoveTeamMember? || s.txs[i].call.ChangeTeamRole? ==>
          && s.txs[i].call.team in s.db.teams
          && s.txs[i].call.superAdmin == IsOrgAdmin(s.db, s.db.teams[s.txs[i].call.team].org, actor))
  }

  lemma StrandingKeepsTeams(db: Db, call: Call, newId: Id, team: Id)
    requires Strands(db, call, team) && team in Write(db, call, newId).db.teams
    ensures !call.DeleteTeam? && Write(db, call, newId).db.teams == db.teams
  {
  }

  lemma StepsAsWritten(s: Sys, i: TxId, newId: Id, s': Sys)
    requires Inv(s) && Next(s, i, newId) == Some(s') && s'.db != s.db
    ensures var call := s.txs[i].call;
            && Atomic(s.db, call, newId).db == Write(s.db, call, newId).db == s'.db
            && (call.RemoveOrgMember? ==> OtherOrgAdmin(s.db, call.org, call.user))
  {
    assert TxInv(s, s.txs[i]);
    StepIsAtomic(s, i, newId, s');
  }

  lemma OthersAreSome(db: Db, org: Id, user: Id)
    requires OtherOrgAdmin(db, org, user)
    ensures HasOrgAdmin(db, org)
  {
  }

  lemma SomeIsOne(db: Db, org: Id, user: Id)
    requires IsOrgAdmin(db, org, user)
    ensures HasOrgAdmin(db, org)
  {
  }

  lemma InUseFromStart(s: Sys, team: Id)
    requires Inv(s) && team in s.db.teams
    ensures team in s.used
  {
  }

  // However stale the flag is when it is used, and whatever ran in between: a step that takes
  // a team's last administrator while the team stays leaves its organization with an
  // administrator; and if it was a team call, its actor was one when the flag was read.
  lemma StrandedTeamHasOrgAdmin(s: Sys, picks: seq<Pick>, s1: Sys, i: TxId, newId: Id, s2: Sys, actor: Id, team: Id)
    requires Inv(s) && FlagRead(s, i, actor)
    requires RunOf(s, picks) == Some(s1) && Next(s1, i, newId) == Some(s2)
    requires HasTeamAdmin(s1.db, team) && !HasTeamAdmin(s2.db, team) && team in s2.db.teams
    ensures HasOrgAdmin(s2.db, s2.db.teams[team].org)
    ensures !s.txs[i].call.RemoveOrgMember? ==> IsOrgAdmin(s.db, s2.db.teams[team].org, actor)
  {
    hide Inv, Next, HasTeamAdmin, SoleTeamAdmin, IsOrgAdmin;
    var call := s.txs[i].call;
    RunKeepsInv(s, picks);
    DoneStays(s, picks, i);
    StrandsExactly(s1, i, newId, s2, team);
    StepsAsWritten(s1, i, newId, s2);
    StrandingKeepsTeams(s1.db, call, newId, team);
    var org := s2.db.teams[team].org;
    if call.RemoveOrgMember? {
      OthersAreSome(s1.db, org, call.user);
    } else {
      InUseFromStart(s, team);
      TeamRowStays(s, picks, team);
      SomeIsOne(s.db, org, actor);
      OrgNeverLosesItsAdmins(s, picks, org);
    }
    AtomicKeepsOrgAdmin(s1.db, call, newId, org);
  }

  // ---- it happens ---------------------------------------------------------------------------

  // A batch of one removal from an organization, not begun.
  function Removal(db: Db, org: Id, user: Id): Sys {
    Sys(db, map[], db.teams.Keys + db.roles.Keys, map[0 := Tx(RemoveOrgMember(org, user), Begin)])
  }

  // Its four statements: read, lock, count, delete.
  const FOUR_STEPS := [Pick(0, 0), Pick(0, 0), Pick(0, 0), Pick(0, 0)]

  lemma FourSteps(s0: Sys, s1: Sys, s2: Sys, s3: Sys, s4: Sys)
    requires Next(s0, 0, 0) == Some(s1) && Next(s1, 0, 0) == Some(s2)
    requires Next(s2, 0, 0) == Some(s3) && Next(s3, 0, 0) == Some(s4)
    ensures RunOf(s0, FOUR_STEPS) == Some(s4)
  {
    hide Next;
    var p := Pick(0, 0);
    assert RunOf(s4, []) == Some(s4);
    assert RunOf(s3, [p]) == Some(s4) by { assert [p][1..] == []; }
    assert RunOf(s2, [p, p]) == Some(s4) by { assert [p, p][1..] == [p]; }
    assert RunOf(s1, [p, p, p]) == Some(s4) by { assert [p, p, p][1..] == [p, p]; }
    assert [p, p, p, p][1..] == [p, p, p];
  }

  lemma RemovalRuns(db: Db, org: Id, user: Id)
    requires OtherOrgAdmin(db, org, user)
    ensures var final := RunOf(Removal(db, org, user), FOUR_STEPS);
            final.Some? && final.value.db == Atomic(db, RemoveOrgMember(org, user), 0).db
  {
    hide Atomic, RunOf, CascadeSeats, IsOrgAdmin;
    var call := RemoveOrgMember(org, user);
    var s0 := Removal(db, org, user);
    var s1 := Next(s0, 0, 0).value;
    assert s1.txs[0] == Tx(call, AwaitOrg(None)) && s1.db == db && s1.locks == map[];
    var s2 := Next(s1, 0, 0).value;
    assert s2.txs[0] == Tx(call, Count(None, false)) && s2.db == db;
    var s3 := Next(s2, 0, 0).value;
    assert s3.txs[0] == Tx(call, WriteRows(None, false)) && s3.db == db;
    var s4 := Next(s3, 0, 0).value;
    assert s4.db == Write(db, call, 0).db;
    FourSteps(s0, s1, s2, s3, s4);
    GuardedIsWrite(db, org, user);
  }

  lemma GuardedIsWrite(db: Db, org: Id, user: Id)
    requires OtherOrgAdmin(db, org, user)
    ensures Atomic(db, RemoveOrgMember(org, user), 0) == Write(db, RemoveOrgMember(org, user), 0)
  {
  }

  // Wherever a member who is the only administrator of a team can be removed from the
  // organization at all, the four steps of the removal leave the team without one.
  lemma RemovalStrands(db: Db, org: Id, user: Id, team: Id)
    requires Consistent(db) && team in db.teams && db.teams[team].org == org
    requires SoleTeamAdmin(db, team, user) && OtherOrgAdmin(db, org, user)
    ensures Initial(Removal(db, org, user)) && RunOf(Removal(db, org, user), FOUR_STEPS).Some?
    ensures HasTeamAdmin(db, team) && !HasTeamAdmin(RunOf(Removal(db, org, user), FOUR_STEPS).value.db, team)
    ensures team in RunOf(Removal(db, org, user), FOUR_STEPS).value.db.teams
  {
    hide RunOf, Consistent;
    RemovalRuns(db, org, user);
    GuardedIsWrite(db, org, user);
    StrandingStrands(db, RemoveOrgMember(org, user), 0, team);
  }

  // There are such tables, here with roles that carry only what matters: organization 100
  // with an administrator, user 1, and a plain member, user 2, who is the only
  // administrator of team 201.
  function SmallOrg(): Db {
    Db({1, 2}, {100},
       map[MEMBER := Role(None, "member", OrgScope, {}), SUPER_ADMIN := Role(None, "super_admin", OrgScope, {ManageOrg}),
           VIEWER := Role(None, "viewer", TeamScope, {}), EDITOR := Role(None, "editor", TeamScope, {}),
           ADMIN := Role(None, "admin", TeamScope, {ManageMembers})],
       map[Seat(100, 1) := SUPER_ADMIN, Seat(100, 2) := MEMBER],
       map[200 := Team(100, "General", true), 201 := Team(100, "Field", false)],
       map[Seat(200, 1) := VIEWER, Seat(200, 2) := VIEWER, Seat(201, 2) := ADMIN])
  }

  lemma SmallOrgHasDefaults()
    ensures DefaultsOk(SmallOrg()) && MembersInDefault(SmallOrg())
  {
    var db := SmallOrg();
    assert IsDefaultTeam(db, 100, 200);
    assert forall o, t :: IsDefaultTeam(db, o, t) ==> o == 100 && t == 200;
  }

  lemma SmallOrgIsConsistent()
    ensures Consistent(SmallOrg())
  {
    hide DefaultsOk, MembersInDefault;
    SmallOrgHasDefaults();
  }

  // So the run exists: from consistent tables, with one call and no override, a team that
  // is still there afterwards loses its last administrator.
  lemma TeamLosesItsLastAdmin() returns (s: Sys, picks: seq<Pick>, team: Id)
    ensures Initial(s) && RunOf(s, picks).Some?
    ensures HasTeamAdmin(s.db, team) && !HasTeamAdmin(RunOf(s, picks).value.db, team)
    ensures team in RunOf(s, picks).value.db.teams
  {
    hide Consistent, RunOf, HasTeamAdmin, Initial;
    var db := SmallOrg();
    SmallOrgIsConsistent();
    assert IsTeamAdmin(db, 201, 2);
    assert IsOrgAdmin(db, 100, 1);
    RemovalStrands(db, 100, 2, 201);
    s, picks, team := Removal(db, 100, 2), FOUR_STEPS, 201;
  }
}
