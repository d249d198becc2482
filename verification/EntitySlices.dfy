// The entities a decision is made over, and their marshalling for the evaluator.
module EntitySlices {
  import opened Common
  import opened Cedar
  import opened CapRefs
  import opened Policies

  datatype ExportRow = ExportRow(isExported: bool, visibility: string, passwordHash: Option<string>)

  // A row of `workflows` with its embedded export row; its id is the key it is stored under.
  datatype WorkflowRow = WorkflowRow(org: Id, team: Id, exportRow: Option<ExportRow>)

  const RESOURCE_ATTRS: set<Attr> :=
    (set c: Capability | true :: Can(c)) + {Org, OrgAdmins, TeamOf, Exported, Visibility, PasswordProtected}

  datatype ResourceEntity =
    | WorkflowEntity(id: Id, org: Id, team: Id, capabilities: map<Capability, Uid>,
                     exported: bool, visibility: string, passwordProtected: bool)
    | TeamEntity(id: Id, org: Id, capabilities: map<Capability, Uid>)
    | OrgEntity(id: Id, capabilities: map<Capability, Uid>)
  {
    function Uid(): Uid {
      match this
      case WorkflowEntity(_, _, _, _, _, _, _) => WorkflowUid(id)
      case TeamEntity(_, _, _) => TeamUid(id)
      case OrgEntity(_, _) => OrgUid(id)
    }

    function OrgId(): Id {
      if OrgEntity? then id else org
    }

    function Type(): ResourceType {
      if WorkflowEntity? then WorkflowType else if TeamEntity? then TeamType else OrgType
    }

    // The capabilities this kind of resource has an attribute for.
    predicate Wants(c: Capability) {
      match c
      case View => !OrgEntity?
      case Edit => !OrgEntity?
      case Delete => !OrgEntity?
      case Run => WorkflowEntity?
      case Export => WorkflowEntity?
      case ProtectExport => WorkflowEntity?
      case ManageMembers => TeamEntity?
      case CreateTeam => OrgEntity?
      case ManageRoles => OrgEntity?
      case ManageApiKeys => OrgEntity?
      case ManageOrg => false
    }

    // Where the capabilities of this resource are held.
    function LevelOf(): Level {
      if OrgEntity? then OrgLevel else TeamLevel
    }

    function PlaceOf(): Id {
      if WorkflowEntity? then team else id
    }

    predicate Complete() {
      forall c :: Wants(c) ==> c in capabilities
    }

    predicate Emits(attr: Attr) {
      match attr
      case Org => true
      case OrgAdmins => true
      case Can(c) => Wants(c)
      case TeamOf => WorkflowEntity?
      case Exported => WorkflowEntity?
      case Visibility => WorkflowEntity?
      case PasswordProtected => WorkflowEntity?
      case _ => false
    }

    function ValueOf(attr: Attr): Value
      requires Complete() && Emits(attr)
    {
      match attr
      case Org => Ref(OrgUid(OrgId()))
      case OrgAdmins => Ref(CapRef(ManageOrg, OrgLevel, OrgId()))
      case Can(c) => Ref(capabilities[c])
      case TeamOf => Ref(TeamUid(team))
      case Exported => Bool(exported)
      case Visibility => Str(visibility)
      case PasswordProtected => Bool(passwordProtected)
    }

    function Attrs(): map<Attr, Value>
      requires Complete()
    {
      map attr | attr in RESOURCE_ATTRS && Emits(attr) :: ValueOf(attr)
    }

    function ToCedar(): EntityData
      requires Complete()
    {
      EntityData(Attrs(), if TeamEntity? then {OrgUid(org)} else {})
    }
  }

  // The attributes the schema declares for each resource type.
  function SchemaAttrs(t: ResourceType): set<Attr> {
    match t
    case WorkflowType =>
      {Org, TeamOf, OrgAdmins, Can(View), Can(Run), Can(Edit), Can(Export), Can(ProtectExport), Can(Delete),
       Exported, Visibility, PasswordProtected}
    case TeamType => {Org, OrgAdmins, Can(View), Can(Edit), Can(ManageMembers), Can(Delete)}
    case OrgType => {Org, OrgAdmins, Can(CreateTeam), Can(ManageRoles), Can(ManageApiKeys)}
  }

  // Every entity carries exactly the attributes declared for its type, so a declared
  // attribute access never fails.
  lemma AttrsConform(e: ResourceEntity)
    requires e.Complete()
    ensures e.Attrs().Keys == SchemaAttrs(e.Type())
  {
    forall attr: Attr ensures attr in e.Attrs() <==> attr in SchemaAttrs(e.Type()) {
      assert e.Emits(attr) ==> attr in RESOURCE_ATTRS;
    }
  }

  // ---- builders -------------------------------------------------------------------------------

  function CapsAt(level: Level, id: Id): map<Capability, Uid> {
    map c: Capability | true :: CapRef(c, level, id)
  }

  // A workflow without an export row is not exported, public and unprotected.
  function BuildWorkflowEntity(id: Id, row: WorkflowRow): ResourceEntity {
    WorkflowEntity(
      id, row.org, row.team, CapsAt(TeamLevel, row.team),
      row.exportRow.Some? && row.exportRow.value.isExported,
      if row.exportRow.Some? then row.exportRow.value.visibility else "public",
      row.exportRow.Some? && row.exportRow.value.passwordHash.Some?)
  }

  function BuildTeamEntity(id: Id, org: Id): ResourceEntity {
    TeamEntity(id, org, CapsAt(TeamLevel, id))
  }

  function BuildOrgEntity(id: Id): ResourceEntity {
    OrgEntity(id, CapsAt(OrgLevel, id))
  }

  // What the builders produce: every capability reference is the one of the entity's place.
  predicate Built(e: ResourceEntity) {
    e.capabilities == CapsAt(e.LevelOf(), e.PlaceOf())
  }

  // ---- slices -----------------------------------------------------------------------------------

  datatype PrincipalEntity = PrincipalEntity(uid: Uid, capabilities: set<Uid>, orgs: set<Uid>)

  datatype EntitySlice = EntitySlice(principal: PrincipalEntity, resources: set<ResourceEntity>, caps: set<Uid>)
  {
    predicate Coherent() {
      && principal.uid.UserUid?
      && (forall c :: c in caps ==> c.CapUid?)
      && (forall c :: c in principal.capabilities ==> c.CapUid?)
      && (forall o :: o in principal.orgs ==> o.OrgUid?)
      && (forall e :: e in resources ==> e.Complete())
      && (forall e, e' :: e in resources && e' in resources && e.Uid() == e'.Uid() ==> e == e')
    }

    function ResourceUids(): set<Uid> {
      set e | e in resources :: e.Uid()
    }

    function ResourceWith(u: Uid): ResourceEntity
      requires Coherent() && u in ResourceUids()
    {
      var e :| e in resources && e.Uid() == u;
      e
    }

    function ResourceEntities(): Entities
      requires Coherent()
    {
      map u | u in ResourceUids() :: ResourceWith(u).ToCedar()
    }

    function PrincipalData(): EntityData {
      EntityData(map[], principal.capabilities + principal.orgs)
    }

    // A capability is a bare entity, and so is an organization of the principal unless it
    // is itself a requested resource.
    function ToEntities(): Entities
      requires Coherent()
    {
      Bare(principal.orgs) + (Bare(caps) + map[principal.uid := PrincipalData()] + ResourceEntities())
    }
  }

  const NO_DATA := EntityData(map[], {})

  function Bare(us: set<Uid>): Entities {
    map u | u in us :: NO_DATA
  }

  datatype CedarEntity = CedarEntity(uid: Uid, data: EntityData)

  function AsMap(list: seq<CedarEntity>): Entities {
    if list == [] then map[] else AsMap(list[..|list| - 1])[list[|list| - 1].uid := list[|list| - 1].data]
  }

  // The list has exactly one entry for each entity, with its data.
  predicate Lists(list: seq<CedarEntity>, es: Entities) {
    AsMap(list) == es && |list| == |es|
  }

  lemma ListsOneMore(list: seq<CedarEntity>, es: Entities, e: CedarEntity)
    requires Lists(list, es) && e.uid !in es
    ensures Lists(list + [e], es[e.uid := e.data])
  {
    assert (list + [e])[..|list|] == list;
    assert es[e.uid := e.data].Keys == es.Keys + {e.uid};
  }

  lemma MoveOne(listed: Entities, rest: Entities, u: Uid)
    requires u in rest && listed.Keys !! rest.Keys
    ensures var listed', rest' := listed[u := rest[u]], rest - {u};
            listed'.Keys !! rest'.Keys && listed' + rest' == listed + rest && |rest'| < |rest|
  {
    assert (rest - {u}).Keys == rest.Keys - {u};
  }

  // Appends the given entities, in no particular order.
  method Extend(start: seq<CedarEntity>, ghost es: Entities, extra: Entities) returns (list: seq<CedarEntity>)
    requires Lists(start, es) && es.Keys !! extra.Keys
    ensures Lists(list, es + extra)
  {
    list := start;
    var rest := extra;
    ghost var listed, goal := es, es + extra;
    while rest.Keys != {}
      invariant listed.Keys !! rest.Keys && listed + rest == goal
      invariant Lists(list, listed)
      decreases |rest|
    {
      var u :| u in rest.Keys;
      ghost var listed' := listed[u := rest[u]];
      MoveOne(listed, rest, u);
      ListsOneMore(list, listed, CedarEntity(u, rest[u]));
      list, rest, listed := list + [CedarEntity(u, rest[u])], rest - {u}, listed';
    }
    assert listed == goal;
  }

  lemma {:induction false} ListedUids(list: seq<CedarEntity>)
    ensures (set e | e in list :: e.uid) == AsMap(list).Keys
  {
    if list != [] {
      var rest, last := list[..|list| - 1], list[|list| - 1];
      ListedUids(rest);
      assert forall e :: e in list <==> e in rest || e == last;
    }
  }

  lemma NewKinds(slice: EntitySlice)
    requires slice.Coherent()
    ensures slice.principal.uid !in slice.caps
    ensures (Bare(slice.caps) + map[slice.principal.uid := slice.PrincipalData()]).Keys !! slice.ResourceEntities().Keys
  {
    forall u | u in slice.ResourceEntities() ensures u !in slice.caps && u != slice.principal.uid {
      var e :| e in slice.resources && e.Uid() == u;
    }
  }

  lemma UnseenOrgs(orgs: set<Uid>, es: Entities)
    ensures es + Bare(orgs - es.Keys) == Bare(orgs) + es
  {
  }

  // Marshals a slice: capabilities, the principal, the resources, then the organizations
  // of the principal that have not been seen yet.
  method SliceToCedar(slice: EntitySlice) returns (list: seq<CedarEntity>)
    requires slice.Coherent()
    ensures Lists(list, slice.ToEntities())
  {
    NewKinds(slice);
    var principal := map[slice.principal.uid := slice.PrincipalData()];
    list := Extend([], map[], Bare(slice.caps));
    assert map[] + Bare(slice.caps) == Bare(slice.caps);
    list := Extend(list, Bare(slice.caps), principal);
    list := Extend(list, Bare(slice.caps) + principal, slice.ResourceEntities());
    ghost var es := Bare(slice.caps) + principal + slice.ResourceEntities();
    var seen := set e | e in list :: e.uid;
    ListedUids(list);
    UnseenOrgs(slice.principal.orgs, es);
    list := Extend(list, es, Bare(slice.principal.orgs - seen));
  }

  // ---- action entities ----------------------------------------------------------------------------

  const ACTION_UIDS: set<Uid> := set a: Action | true :: ActionUid(a)

  const GROUP_UIDS: set<Uid> := {GroupUid(Governance), GroupUid(OrgAdministrable)}

  // The two groups, and every action with the groups it belongs to.
  const ACTION_ENTITIES: Entities :=
    map u | u in ACTION_UIDS + GROUP_UIDS :: EntityData(map[], if u.ActionUid? then GroupsOf(u.action) else {})
}
