// Builds the capability slice of a principal and the entity slice of a request from the
// tables.
module EntityProvider {
  import opened Common
  import opened Tables
  import opened Cedar
  import opened CapRefs
  import opened EntitySlices

  // What a principal can do, and where.
  datatype CapabilitySlice = CapabilitySlice(teamCaps: map<Id, set<Capability>>, orgCaps: map<Id, set<Capability>>)
  {
    function TeamsWith(c: Capability): set<Id> {
      set t | t in teamCaps && c in teamCaps[t]
    }

    function OrgsWith(c: Capability): set<Id> {
      set o | o in orgCaps && c in orgCaps[o]
    }

    function TeamRefs(): set<Uid> {
      set t, c | t in teamCaps && c in teamCaps[t] :: CapRef(c, TeamLevel, t)
    }

    function OrgRefs(): set<Uid> {
      set o, c | o in orgCaps && c in orgCaps[o] :: CapRef(c, OrgLevel, o)
    }

    function Refs(): set<Uid> {
      TeamRefs() + OrgRefs()
    }

    function At(level: Level, id: Id): set<Capability> {
      if level.TeamLevel? then (if id in teamCaps then teamCaps[id] else {})
      else (if id in orgCaps then orgCaps[id] else {})
    }
  }

  const NO_CAPABILITIES := CapabilitySlice(map[], map[])

  // What the provider reads: the membership tables and the workflows.
  datatype Store = Store(db: Db, workflows: map<Id, WorkflowRow>)

  function RoleCaps(db: Db, role: Id): set<Capability> {
    if role in db.roles then db.roles[role].caps else {}
  }

  function SeatsOf(members: map<Seat, Id>, user: Id): set<Seat> {
    set s | s in members && s.user == user
  }

  function PlacesOf(seats: set<Seat>): set<Id> {
    set s | s in seats :: s.place
  }

  // The capabilities a user has in each place it has a seat in.
  function Granted(db: Db, members: map<Seat, Id>, user: Id): map<Id, set<Capability>> {
    map p | p in PlacesOf(SeatsOf(members, user)) && Seat(p, user) in members :: RoleCaps(db, members[Seat(p, user)])
  }

  // The anonymous principal has no memberships.
  function CapsOf(db: Db, subject: Subject): CapabilitySlice {
    match subject
    case Anonymous => NO_CAPABILITIES
    case Account(user) => CapabilitySlice(Granted(db, db.teamMembers, user), Granted(db, db.orgMembers, user))
  }

  function WorkflowEntities(store: Store, refs: set<Uid>): set<ResourceEntity> {
    set r | r in refs && r.WorkflowUid? && r.id in store.workflows :: BuildWorkflowEntity(r.id, store.workflows[r.id])
  }

  function TeamEntities(store: Store, refs: set<Uid>): set<ResourceEntity> {
    set r | r in refs && r.TeamUid? && r.id in store.db.teams :: BuildTeamEntity(r.id, store.db.teams[r.id].org)
  }

  // An organization is built without looking it up.
  function OrgEntities(refs: set<Uid>): set<ResourceEntity> {
    set r | r in refs && r.OrgUid? :: BuildOrgEntity(r.id)
  }

  function ResourceEntitiesOf(store: Store, refs: set<Uid>): set<ResourceEntity> {
    WorkflowEntities(store, refs) + TeamEntities(store, refs) + OrgEntities(refs)
  }

  function OrgsOf(entities: set<ResourceEntity>): set<Id> {
    set e | e in entities :: e.OrgId()
  }

  function TeamCapRefs(entities: set<ResourceEntity>): set<Uid> {
    set e, c: Capability | e in entities && !e.OrgEntity? :: CapRef(c, TeamLevel, e.PlaceOf())
  }

  function OrgAdminRefs(orgs: set<Id>): set<Uid> {
    set o | o in orgs :: CapRef(ManageOrg, OrgLevel, o)
  }

  // The slice of a principal for the requested resources that exist.
  function SliceOf(store: Store, caps: CapabilitySlice, subject: Subject, refs: set<Uid>): EntitySlice {
    var entities := ResourceEntitiesOf(store, refs);
    var orgs := caps.orgCaps.Keys + OrgsOf(entities);
    EntitySlice(
      PrincipalEntity(UserUid(subject), caps.Refs(), set o | o in caps.orgCaps :: OrgUid(o)),
      entities,
      caps.Refs() + TeamCapRefs(entities) + OrgAdminRefs(orgs))
  }

  lemma EntitiesAreBuilt(store: Store, refs: set<Uid>, e: ResourceEntity)
    requires e in ResourceEntitiesOf(store, refs)
    ensures e.Complete() && Built(e) && e.Uid() in refs
    ensures e.WorkflowEntity? ==> e.id in store.workflows && e == BuildWorkflowEntity(e.id, store.workflows[e.id])
    ensures e.TeamEntity? ==> e.id in store.db.teams && e == BuildTeamEntity(e.id, store.db.teams[e.id].org)
    ensures e.OrgEntity? ==> e == BuildOrgEntity(e.id)
  {
  }

  lemma SliceIsCoherent(store: Store, caps: CapabilitySlice, subject: Subject, refs: set<Uid>)
    ensures SliceOf(store, caps, subject, refs).Coherent()
  {
    var slice := SliceOf(store, caps, subject, refs);
    forall e | e in slice.resources ensures e.Complete() {
      EntitiesAreBuilt(store, refs, e);
    }
    forall e, e' | e in slice.resources && e' in slice.resources && e.Uid() == e'.Uid() ensures e == e' {
      EntitiesAreBuilt(store, refs, e);
      EntitiesAreBuilt(store, refs, e');
    }
  }

  // The groups a slice defines: the principal's own; for a workflow or a team all those of its
  // team; and the administrators of every organization met. Of an organization's other groups
  // there are only those the principal is in, so the rest stay undefined and empty.
  lemma SliceDefines(store: Store, caps: CapabilitySlice, subject: Subject, refs: set<Uid>, e: ResourceEntity,
                     c: Capability)
    requires e in ResourceEntitiesOf(store, refs)
    ensures var slice := SliceOf(store, caps, subject, refs);
            && slice.principal.capabilities <= slice.caps
            && CapRef(ManageOrg, OrgLevel, e.OrgId()) in slice.caps
            && (!e.OrgEntity? ==> CapRef(c, TeamLevel, e.PlaceOf()) in slice.caps)
            && (e.OrgEntity? ==>
                  (CapRef(c, OrgLevel, e.id) in slice.caps <==> c == ManageOrg || c in caps.At(OrgLevel, e.id)))
  {
    var entities, orgs := ResourceEntitiesOf(store, refs), caps.orgCaps.Keys + OrgsOf(ResourceEntitiesOf(store, refs));
    hide CapRef, ResourceEntitiesOf;
    assert e.OrgId() in orgs;
    if e.OrgEntity? {
      var u := CapRef(c, OrgLevel, e.id);
      if u in caps.TeamRefs() {
        var t, c' :| t in caps.teamCaps && c' in caps.teamCaps[t] && CapRef(c', TeamLevel, t) == u;
        CapRefInjective(c', TeamLevel, t, c, OrgLevel, e.id);
      } else if u in caps.OrgRefs() {
        var o, c' :| o in caps.orgCaps && c' in caps.orgCaps[o] && CapRef(c', OrgLevel, o) == u;
        CapRefInjective(c', OrgLevel, o, c, OrgLevel, e.id);
      } else if u in TeamCapRefs(entities) {
        var e', c' :| e' in entities && CapRef(c', TeamLevel, e'.PlaceOf()) == u;
        CapRefInjective(c', TeamLevel, e'.PlaceOf(), c, OrgLevel, e.id);
      } else if u in OrgAdminRefs(orgs) {
        var o :| o in orgs && CapRef(ManageOrg, OrgLevel, o) == u;
        CapRefInjective(ManageOrg, OrgLevel, o, c, OrgLevel, e.id);
      }
    }
  }

  // ---- the provider object ------------------------------------------------------------------------

  // One provider serves one request: it remembers the capability slices it has built.
  class Provider {
    var memo: map<Subject, CapabilitySlice>

    constructor ()
      ensures memo == map[]
    {
      memo := map[];
    }

    // The slice a request works with: the remembered one, else a fresh one.
    function Current(db: Db, subject: Subject): CapabilitySlice
      reads this
    {
      if subject in memo then memo[subject] else CapsOf(db, subject)
    }

    method CapabilitySliceOf(db: Db, subject: Subject) returns (caps: CapabilitySlice)
      modifies this
      ensures subject in old(memo) ==> caps == old(memo)[subject]
      ensures subject !in old(memo) ==> caps == CapsOf(db, subject)
      ensures memo == old(memo)[subject := caps]
    {
      if subject in memo {
        caps := memo[subject];
        assert memo == memo[subject := caps];
        return;
      }
      if subject.Anonymous? {
        caps := NO_CAPABILITIES;
        memo := memo[subject := caps];
        return;
      }
      var teamCaps := FoldRows(db, db.teamMembers, subject.id);
      var orgCaps := FoldRows(db, db.orgMembers, subject.id);
      caps := CapabilitySlice(teamCaps, orgCaps);
      memo := memo[subject := caps];
    }

    // Folds the membership rows of a user, one after the other.
    static method FoldRows(db: Db, members: map<Seat, Id>, user: Id) returns (caps: map<Id, set<Capability>>)
      ensures caps == Granted(db, members, user)
    {
      caps := map[];
      var rows := SeatsOf(members, user);
      ghost var done: set<Seat> := {};
      while rows != {}
        invariant rows !! done && rows + done == SeatsOf(members, user)
        invariant caps.Keys == PlacesOf(done)
        invariant forall p :: p in caps ==> Seat(p, user) in done && caps[p] == RoleCaps(db, members[Seat(p, user)])
        decreases rows
      {
        var row :| row in rows;
        assert row == Seat(row.place, user);
        // a place occurs in one row only, so its set of capabilities starts empty
        caps := caps[row.place := RoleCaps(db, members[row])];
        rows, done := rows - {row}, done + {row};
      }
      assert done == SeatsOf(members, user);
    }

    // The rows of the wanted workflows, turned into entities one by one.
    static method FetchWorkflows(store: Store, wanted: set<Uid>) returns (entities: set<ResourceEntity>, orgs: set<Id>)
      ensures entities == WorkflowEntities(store, wanted) && orgs == OrgsOf(entities)
    {
      var rows := set r | r in wanted && r.WorkflowUid? && r.id in store.workflows;
      ghost var fetched := rows;
      entities, orgs := {}, {};
      while rows != {}
        invariant rows <= fetched && entities == WorkflowEntities(store, fetched - rows) && orgs == OrgsOf(entities)
        decreases rows
      {
        var r :| r in rows;
        entities := entities + {BuildWorkflowEntity(r.id, store.workflows[r.id])};
        orgs := orgs + {store.workflows[r.id].org};
        rows := rows - {r};
      }
    }

    static method FetchTeams(store: Store, wanted: set<Uid>) returns (entities: set<ResourceEntity>, orgs: set<Id>)
      ensures entities == TeamEntities(store, wanted) && orgs == OrgsOf(entities)
    {
      var rows := set r | r in wanted && r.TeamUid? && r.id in store.db.teams;
      ghost var fetched := rows;
      entities, orgs := {}, {};
      while rows != {}
        invariant rows <= fetched && entities == TeamEntities(store, fetched - rows) && orgs == OrgsOf(entities)
        decreases rows
      {
        var r :| r in rows;
        entities := entities + {BuildTeamEntity(r.id, store.db.teams[r.id].org)};
        orgs := orgs + {store.db.teams[r.id].org};
        rows := rows - {r};
      }
    }

    method SliceFor(store: Store, subject: Subject, refs: seq<Uid>) returns (slice: EntitySlice)
      modifies this
      ensures slice == SliceOf(store, old(Current(store.db, subject)), subject, set r | r in refs)
      ensures memo == old(memo)[subject := old(Current(store.db, subject))]
    {
      hide CapsOf, WorkflowEntities, TeamEntities, CapRef;
      var caps := CapabilitySliceOf(store.db, subject);
      var wanted := set r | r in refs;
      var orgIds := caps.orgCaps.Keys;
      var entities: set<ResourceEntity> := {};

      var workflows, workflowOrgs := FetchWorkflows(store, wanted);
      var teams, teamOrgs := FetchTeams(store, wanted);
      entities := workflows + teams;
      orgIds := orgIds + workflowOrgs + teamOrgs;
      for i := 0 to |refs|
        invariant entities == workflows + teams + OrgEntities(set r | r in refs[..i])
        invariant orgIds == caps.orgCaps.Keys + OrgsOf(entities)
      {
        assert refs[..i + 1] == refs[..i] + [refs[i]];
        if refs[i].OrgUid? {
          entities := entities + {BuildOrgEntity(refs[i].id)};
          orgIds := orgIds + {refs[i].id};
        }
      }
      assert refs[..|refs|] == refs;

      var allCaps := caps.Refs() + TeamCapRefs(entities);
      allCaps := allCaps + OrgAdminRefs(orgIds);
      slice := EntitySlice(
        PrincipalEntity(UserUid(subject), caps.Refs(), set o | o in caps.orgCaps :: OrgUid(o)), entities, allCaps);
    }
  }
}
