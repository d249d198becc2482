// Where the two halves meet: the administrators the counting guards count in the tables are
// the people the policy engine lets govern, so the guarantees about one hold of the other.
module Administration {
  import opened Common
  import opened Tables
  import Locking
  import Serial
  import Safety
  import opened Cedar
  import opened CapRefs
  import opened Policies
  import opened EntitySlices
  import opened Engine
  import opened EntityProvider
  import opened Meaning
  import opened Decisions

  const IN_PERSON := AuthzContext("jwt", false, {}, None)

  // The decision for a signed-in user over the slice for one resource.
  function AskInPerson(store: Store, user: Id, a: Action, r: Uid): Decision {
    Ask(store, CapsOf(store.db, Account(user)), Account(user), {r}, a, r, IN_PERSON)
  }

  lemma HeldInOrg(db: Db, user: Id, org: Id, c: Capability)
    ensures c in CapsOf(db, Account(user)).At(OrgLevel, org) <==>
            Seat(org, user) in db.orgMembers && Carries(db, db.orgMembers[Seat(org, user)], c)
    ensures org in CapsOf(db, Account(user)).orgCaps <==> Seat(org, user) in db.orgMembers
  {
    assert Seat(org, user) in db.orgMembers ==> Seat(org, user) in SeatsOf(db.orgMembers, user);
  }

  lemma HeldInTeam(db: Db, user: Id, team: Id, c: Capability)
    ensures c in CapsOf(db, Account(user)).At(TeamLevel, team) <==>
            Seat(team, user) in db.teamMembers && Carries(db, db.teamMembers[Seat(team, user)], c)
  {
    assert Seat(team, user) in db.teamMembers ==> Seat(team, user) in SeatsOf(db.teamMembers, user);
  }

  lemma InPersonIsNotBlocked(a: Action, org: Id)
    ensures !SessionBlocks(a, org, IN_PERSON)
  {
    assert |IN_PERSON.authMethod| != |API_KEY|;
  }

  lemma InPersonAllows(store: Store, user: Id, a: Action, r: Uid)
    requires Present(store, r) && Declared(a, EntityAt(store, r)) && IsAdministrable(a)
    ensures AskInPerson(store, user, a, r).Allow? <==>
            Grants(a, StandingAt(store, CapsOf(store.db, Account(user)), r))
  {
    AskAllows(store, CapsOf(store.db, Account(user)), Account(user), {r}, a, r, IN_PERSON);
    InPersonIsNotBlocked(a, EntityAt(store, r).OrgId());
  }

  // The guards of remove_org_member and change_org_role count exactly the users the engine
  // lets perform those operations.
  lemma OrgGuardsCountGovernors(store: Store, user: Id, org: Id, a: Action)
    requires a == OrgAddUser || a == OrgRemoveUser || a == OrgChangeRole
    ensures AskInPerson(store, user, a, OrgUid(org)).Allow? <==> IsOrgAdmin(store.db, org, user)
  {
    hide AskInPerson;
    InPersonAllows(store, user, a, OrgUid(org));
    HeldInOrg(store.db, user, org, ManageOrg);
  }

  lemma TeamGovernanceGrants(caps: CapabilitySlice, team: Id, org: Id, a: Action)
    requires a == TeamAddMember || a == TeamRemoveMember || a == TeamChangeRole
    ensures Grants(a, StandingOf(caps, BuildTeamEntity(team, org))) <==>
            ManageMembers in caps.At(TeamLevel, team) || ManageOrg in caps.At(OrgLevel, org)
  {
  }

  // So do those of the team calls, up to the organization's administrators: the flag with
  // which a route waives the guard is true of everyone allowed who does not count.
  lemma TeamGuardsCountGovernors(store: Store, user: Id, team: Id, a: Action)
    requires team in store.db.teams
    requires a == TeamAddMember || a == TeamRemoveMember || a == TeamChangeRole
    ensures AskInPerson(store, user, a, TeamUid(team)).Allow? <==>
            IsTeamAdmin(store.db, team, user) || IsOrgAdmin(store.db, store.db.teams[team].org, user)
  {
    hide AskInPerson;
    InPersonAllows(store, user, a, TeamUid(team));
    TeamGovernanceGrants(CapsOf(store.db, Account(user)), team, store.db.teams[team].org, a);
    HeldInTeam(store.db, user, team, ManageMembers);
    HeldInOrg(store.db, user, store.db.teams[team].org, ManageOrg);
  }

  // May perform every administrable action on every resource of the organization.
  ghost predicate Governs(store: Store, org: Id, user: Id) {
    forall a, r :: IsAdministrable(a) && Present(store, r) && Declared(a, EntityAt(store, r)) &&
                   EntityAt(store, r).OrgId() == org
                   ==> AskInPerson(store, user, a, r).Allow?
  }

  lemma OrgAdminMay(store: Store, user: Id, a: Action, r: Uid)
    requires IsAdministrable(a) && Present(store, r) && Declared(a, EntityAt(store, r))
    requires IsOrgAdmin(store.db, EntityAt(store, r).OrgId(), user)
    ensures AskInPerson(store, user, a, r).Allow?
  {
    hide AskInPerson;
    InPersonAllows(store, user, a, r);
    HeldInOrg(store.db, user, EntityAt(store, r).OrgId(), ManageOrg);
  }

  lemma OrgAdminGoverns(store: Store, org: Id, user: Id)
    ensures IsOrgAdmin(store.db, org, user) <==> Governs(store, org, user)
  {
    hide AskInPerson, IsOrgAdmin;
    if IsOrgAdmin(store.db, org, user) {
      forall a, r | IsAdministrable(a) && Present(store, r) && Declared(a, EntityAt(store, r)) &&
                    EntityAt(store, r).OrgId() == org
        ensures AskInPerson(store, user, a, r).Allow? {
        OrgAdminMay(store, user, a, r);
      }
    }
    if Governs(store, org, user) {
      assert Present(store, OrgUid(org)) && Declared(OrgAddUser, EntityAt(store, OrgUid(org)));
      OrgGuardsCountGovernors(store, user, org, OrgAddUser);
    }
  }

  // Through every interleaving of the calls, an organization somebody governs, in the
  // engine's eyes, stays governed by somebody.
  lemma OrgStaysGoverned(s: Locking.Sys, picks: seq<Serial.Pick>, org: Id, user: Id, before: map<Id, WorkflowRow>,
                         after: map<Id, WorkflowRow>)
    requires Locking.Inv(s) && Serial.RunOf(s, picks).Some? && Governs(Store(s.db, before), org, user)
    ensures exists u :: Governs(Store(Serial.RunOf(s, picks).value.db, after), org, u)
  {
    OrgAdminGoverns(Store(s.db, before), org, user);
    Safety.OrgNeverLosesItsAdmins(s, picks, org);
    var db' := Serial.RunOf(s, picks).value.db;
    var u :| IsOrgAdmin(db', org, u);
    OrgAdminGoverns(Store(db', after), org, u);
  }

  // Assumption 20 of the repository's README: when a step leaves a team without an
  // administrator, through the organization cascade or an override, however stale, somebody
  // may at once appoint a new one.
  lemma StrandedTeamIsRepairable(s: Locking.Sys, picks: seq<Serial.Pick>, s1: Locking.Sys, i: Locking.TxId, newId: Id,
                                 s2: Locking.Sys, actor: Id, team: Id, workflows: map<Id, WorkflowRow>)
    requires Locking.Inv(s) && Safety.FlagRead(s, i, actor)
    requires Serial.RunOf(s, picks) == Some(s1) && Locking.Next(s1, i, newId) == Some(s2)
    requires Safety.HasTeamAdmin(s1.db, team) && !Safety.HasTeamAdmin(s2.db, team) && team in s2.db.teams
    ensures var store := Store(s2.db, workflows);
            exists u :: AskInPerson(store, u, TeamAddMember, TeamUid(team)).Allow? &&
                        AskInPerson(store, u, TeamChangeRole, TeamUid(team)).Allow?
  {
    hide Locking.Inv, Locking.Next, Safety.HasTeamAdmin, AskInPerson;
    Safety.StrandedTeamHasOrgAdmin(s, picks, s1, i, newId, s2, actor, team);
    var u :| IsOrgAdmin(s2.db, s2.db.teams[team].org, u);
    TeamGuardsCountGovernors(Store(s2.db, workflows), u, team, TeamAddMember);
    TeamGuardsCountGovernors(Store(s2.db, workflows), u, team, TeamChangeRole);
  }
}
