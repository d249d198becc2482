// The request gate in front of the routes, and the endpoint that explains its decisions.
module Gate {
  import opened Common
  import opened Cedar
  import opened CapRefs
  import opened Policies
  import opened EntitySlices
  import opened Engine
  import opened EntityProvider
  import opened Meaning
  import opened Decisions

  // ---- principals ---------------------------------------------------------------------------------

  datatype AuthMethod = Jwt | ApiKey | NoCredentials
  {
    function Value(): string {
      match this
      case Jwt => "jwt"
      case ApiKey => API_KEY
      case NoCredentials => "anonymous"
    }
  }

  datatype Principal = Principal(
    subject: Subject, authMethod: AuthMethod, apiKeyScopes: set<string>, apiKeyOrg: Option<Id>)
  {
    predicate IsAnonymous() {
      authMethod.NoCredentials?
    }
  }

  function BuildContext(principal: Principal, passwordVerified: bool): AuthzContext {
    AuthzContext(principal.authMethod.Value(), passwordVerified, principal.apiKeyScopes, principal.apiKeyOrg)
  }

  // The action that asks whether a resource can be seen at all.
  function VisibilityAction(r: Uid): Action {
    if r.WorkflowUid? then WorkflowView else if r.TeamUid? then TeamView else OrgView
  }

  // ---- audit ----------------------------------------------------------------------------------------

  datatype AuditTask = AuditTask(orgId: Option<Id>, subject: Subject, authMethod: AuthMethod, action: Action,
                                 resource: Uid, decision: Decision, correlationId: Id)

  const READ_ACTIONS := {WorkflowView, WorkflowList}

  // Denials and errors always, permissions only for actions that change something.
  predicate ShouldRecord(action: Action, decision: Decision) {
    !decision.Allow? || action !in READ_ACTIONS
  }

  function OrgIdFor(slice: EntitySlice, r: Uid): Option<Id>
    requires slice.Coherent()
  {
    if r in slice.ResourceUids() then Some(slice.ResourceWith(r).OrgId()) else None
  }

  // ---- the gate as a function ---------------------------------------------------------------------------

  datatype Failure = AuthenticationFailed | ResourceNotVisible(resource: Uid) | AuthzDenied(policyId: Option<string>)
                   | AuthzEngineError

  datatype Exit = Authorized(policyId: Option<string>) | Rejected(failure: Failure)

  function StatusOf(exit: Exit): nat {
    match exit
    case Authorized(_) => 200
    case Rejected(AuthenticationFailed) => 401
    case Rejected(ResourceNotVisible(_)) => 404
    case Rejected(AuthzDenied(_)) => 403
    case Rejected(AuthzEngineError) => 500
  }

  // The outcome, from whether the caller is anonymous, whether the resource is in the
  // slice, and the two decisions: may it be seen, may the action be done.
  function NotVisible(r: Uid, visibility: Decision): Option<Failure> {
    match visibility
    case EngineError(_) => Some(AuthzEngineError)
    case Deny(_) => Some(ResourceNotVisible(r))
    case Allow(_) => None
  }

  function ExitOf(decision: Decision): Exit {
    match decision
    case EngineError(_) => Rejected(AuthzEngineError)
    case Deny(policyId) => Rejected(AuthzDenied(policyId))
    case Allow(policyId) => Authorized(policyId)
  }

  function Settle(r: Uid, anonymous: bool, inSlice: bool, visibility: Decision, decision: Decision): Exit {
    if anonymous then Rejected(AuthenticationFailed)
    else if !inSlice then Rejected(ResourceNotVisible(r))
    else if NotVisible(r, visibility).Some? then Rejected(NotVisible(r, visibility).value)
    else ExitOf(decision)
  }

  function AuditOf(orgId: Option<Id>, principal: Principal, a: Action, r: Uid, decision: Decision, cid: Id)
    : seq<AuditTask>
  {
    if ShouldRecord(a, decision)
    then [AuditTask(orgId, principal.subject, principal.authMethod, a, r, decision, cid)]
    else []
  }

  // Only the decision that settles the request is audited.
  function SettleAudit(orgId: Option<Id>, principal: Principal, inSlice: bool, visibility: Decision, decision: Decision,
                       seeing: Action, a: Action, r: Uid, cid: Id): seq<AuditTask> {
    if principal.IsAnonymous() || !inSlice then []
    else if visibility.Allow? then AuditOf(orgId, principal, a, r, decision, cid)
    else AuditOf(orgId, principal, seeing, r, visibility, cid)
  }

  // What one request asks, and what it works with.
  datatype Question = Question(
    store: Store, caps: CapabilitySlice, principal: Principal, passwordVerified: bool, resource: Uid)
  {
    function Context(): AuthzContext {
      BuildContext(principal, passwordVerified)
    }

    function On(a: Action): Decision {
      Ask(store, caps, principal.subject, {resource}, a, resource, Context())
    }

    function Seeing(): Action {
      VisibilityAction(resource)
    }

    predicate InSlice() {
      resource in SliceOf(store, caps, principal.subject, {resource}).ResourceUids()
    }

    function OrgId(): Option<Id> {
      SliceIsCoherent(store, caps, principal.subject, {resource});
      OrgIdFor(SliceOf(store, caps, principal.subject, {resource}), resource)
    }
  }

  datatype Ruling = Ruling(exit: Exit, audits: seq<AuditTask>)
  {
    function After(queued: seq<AuditTask>): Ruling {
      Ruling(exit, queued + audits)
    }
  }

  function Requires(q: Question, a: Action, cid: Id): Ruling {
    var anonymous, inSlice := q.principal.IsAnonymous(), q.InSlice();
    var visibility, decision := q.On(q.Seeing()), q.On(a);
    Ruling(Settle(q.resource, anonymous, inSlice, visibility, decision),
           SettleAudit(q.OrgId(), q.principal, inSlice, visibility, decision, q.Seeing(), a, q.resource, cid))
  }

  // The same over the slice in hand.
  lemma RequiresOverSlice(q: Question, a: Action, cid: Id, slice: EntitySlice)
    requires slice == SliceOf(q.store, q.caps, q.principal.subject, {q.resource}) && slice.Coherent()
    ensures var visibility := Authorize(UserUid(q.principal.subject), q.Seeing(), q.resource, slice, q.Context());
            var decision := Authorize(UserUid(q.principal.subject), a, q.resource, slice, q.Context());
            && q.InSlice() == (q.resource in slice.ResourceUids())
            && Requires(q, a, cid) ==
                 Ruling(Settle(q.resource, q.principal.IsAnonymous(), q.InSlice(), visibility, decision),
                        SettleAudit(OrgIdFor(slice, q.resource), q.principal, q.InSlice(), visibility, decision,
                                    q.Seeing(), a, q.resource, cid))
  {
  }

  lemma AnonymousIsRefused(q: Question, a: Action, cid: Id)
    requires q.principal.IsAnonymous()
    ensures Requires(q, a, cid) == Ruling(Rejected(AuthenticationFailed), [])
  {
  }

  datatype Explanation = Answer(allowed: bool, policyId: Option<string>) | Refused(failure: Failure)

  function ExplainWith(r: Uid, anonymous: bool, inSlice: bool, visibility: Decision, decision: Decision): Explanation {
    if anonymous then Refused(AuthenticationFailed)
    else if !inSlice then Refused(ResourceNotVisible(r))
    else if visibility.EngineError? then Refused(AuthzEngineError)
    else if visibility.Deny? then Refused(ResourceNotVisible(r))
    else if decision.EngineError? then Refused(AuthzEngineError)
    else Answer(decision.Allow?, decision.policyId)
  }

  function Explain(q: Question, a: Action): Explanation {
    ExplainWith(q.resource, q.principal.IsAnonymous(), q.InSlice(), q.On(q.Seeing()), q.On(a))
  }

  // ---- the dependency as it runs ------------------------------------------------------------------------

  lemma JustOne(r: Uid)
    ensures (set u | u in [r]) == {r}
  {
  }

  // The mutable part of one request: its state and the background tasks queued for it.
  class RequestState {
    const passwordVerified: bool
    var correlationId: Option<Id>
    var auditTasks: seq<AuditTask>
    var tasksStashed: bool
    var policyId: Option<string>
    var action: Option<Action>

    constructor (passwordVerified: bool)
      ensures this.passwordVerified == passwordVerified && auditTasks == [] && correlationId == None
      ensures !tasksStashed && policyId == None && action == None
    {
      this.passwordVerified := passwordVerified;
      correlationId, auditTasks, tasksStashed, policyId, action := None, [], false, None, None;
    }

    method MaybeAudit(a: Action, r: Uid, slice: EntitySlice, principal: Principal, decision: Decision, cid: Id)
      requires slice.Coherent()
      modifies this`auditTasks
      ensures auditTasks == old(auditTasks) + AuditOf(OrgIdFor(slice, r), principal, a, r, decision, cid)
    {
      if ShouldRecord(a, decision) {
        auditTasks := auditTasks +
          [AuditTask(OrgIdFor(slice, r), principal.subject, principal.authMethod, a, r, decision, cid)];
      }
    }

    method CheckVisible(slice: EntitySlice, principal: Principal, seeing: Action, r: Uid, cid: Id)
      returns (failure: Option<Failure>)
      requires slice.Coherent()
      modifies this`auditTasks
      ensures var visibility :=
                Authorize(UserUid(principal.subject), seeing, r, slice, BuildContext(principal, passwordVerified));
              && failure == NotVisible(r, visibility)
              && auditTasks == old(auditTasks) +
                   if failure.None? then [] else AuditOf(OrgIdFor(slice, r), principal, seeing, r, visibility, cid)
    {
      var visibility :=
        Authorize(UserUid(principal.subject), seeing, r, slice, BuildContext(principal, passwordVerified));
      if visibility.EngineError? {
        MaybeAudit(seeing, r, slice, principal, visibility, cid);
        return Some(AuthzEngineError);
      }
      if !visibility.Allow? {
        MaybeAudit(seeing, r, slice, principal, visibility, cid);
        return Some(ResourceNotVisible(r));
      }
      return None;
    }

    method CheckAction(slice: EntitySlice, principal: Principal, a: Action, r: Uid, cid: Id) returns (exit: Exit)
      requires slice.Coherent()
      modifies this`auditTasks, this`policyId, this`action
      ensures var decision :=
                Authorize(UserUid(principal.subject), a, r, slice, BuildContext(principal, passwordVerified));
              && exit == ExitOf(decision)
              && auditTasks == old(auditTasks) + AuditOf(OrgIdFor(slice, r), principal, a, r, decision, cid)
      ensures if exit.Authorized? then policyId == exit.policyId && action == Some(a)
              else policyId == old(policyId) && action == old(action)
    {
      var decision := Authorize(UserUid(principal.subject), a, r, slice, BuildContext(principal, passwordVerified));
      if decision.EngineError? {
        MaybeAudit(a, r, slice, principal, decision, cid);
        return Rejected(AuthzEngineError);
      }
      MaybeAudit(a, r, slice, principal, decision, cid);
      if !decision.Allow? {
        return Rejected(AuthzDenied(decision.policyId));
      }
      policyId, action := decision.policyId, Some(a);
      return Authorized(policyId);
    }

    // The checks of an identified principal over the slice built for it.
    method CheckSlice(slice: EntitySlice, principal: Principal, seeing: Action, a: Action, r: Uid, cid: Id)
      returns (exit: Exit)
      requires slice.Coherent() && !principal.IsAnonymous()
      modifies this`auditTasks, this`policyId, this`action
      ensures var ctx := BuildContext(principal, passwordVerified);
              var inSlice := r in slice.ResourceUids();
              var visibility := Authorize(UserUid(principal.subject), seeing, r, slice, ctx);
              var decision := Authorize(UserUid(principal.subject), a, r, slice, ctx);
              && exit == Settle(r, false, inSlice, visibility, decision)
              && auditTasks == old(auditTasks) +
                   SettleAudit(OrgIdFor(slice, r), principal, inSlice, visibility, decision, seeing, a, r, cid)
      ensures if exit.Authorized? then policyId == exit.policyId && action == Some(a)
              else policyId == old(policyId) && action == old(action)
    {
      hide Authorize;
      if r !in slice.ResourceUids() {
        return Rejected(ResourceNotVisible(r));
      }
      var failure := CheckVisible(slice, principal, seeing, r, cid);
      if failure.Some? {
        return Rejected(failure.value);
      }
      exit := CheckAction(slice, principal, a, r, cid);
    }

    // The gate for an identified principal. cid is the uuid minted for the request.
    method CheckIdentified(provider: Provider, store: Store, principal: Principal, a: Action, r: Uid, cid: Id)
      returns (exit: Exit)
      requires !principal.IsAnonymous()
      modifies this, provider
      ensures var caps := old(provider.Current(store.db, principal.subject));
              var q := Question(store, caps, principal, passwordVerified, r);
              Ruling(exit, auditTasks) == Requires(q, a, cid).After(old(auditTasks))
      ensures if exit.Authorized? then policyId == exit.policyId && action == Some(a)
              else policyId == old(policyId) && action == old(action)
      ensures correlationId == Some(cid) && tasksStashed
    {
      hide Authorize, Requires, SliceOf;
      ghost var q := Question(store, provider.Current(store.db, principal.subject), principal, passwordVerified, r);
      correlationId, tasksStashed := Some(cid), true;
      var slice := provider.SliceFor(store, principal.subject, [r]);
      JustOne(r);
      SliceIsCoherent(store, q.caps, principal.subject, {r});
      RequiresOverSlice(q, a, cid, slice);
      exit := CheckSlice(slice, principal, VisibilityAction(r), a, r, cid);
    }

    method CheckRequires(provider: Provider, store: Store, principal: Principal, a: Action, r: Uid, cid: Id)
      returns (exit: Exit)
      modifies this, provider
      ensures var caps := old(provider.Current(store.db, principal.subject));
              var q := Question(store, caps, principal, passwordVerified, r);
              Ruling(exit, auditTasks) == Requires(q, a, cid).After(old(auditTasks))
      ensures if exit.Authorized? then policyId == exit.policyId && action == Some(a)
              else policyId == old(policyId) && action == old(action)
      ensures if principal.IsAnonymous() then correlationId == old(correlationId) && tasksStashed == old(tasksStashed)
              else correlationId == Some(cid) && tasksStashed
    {
      hide Requires;
      if principal.IsAnonymous() {
        AnonymousIsRefused(
          Question(store, provider.Current(store.db, principal.subject), principal, passwordVerified, r), a, cid);
        return Rejected(AuthenticationFailed);
      }
      exit := CheckIdentified(provider, store, principal, a, r, cid);
    }
  }

  // Only an API key is treated as one.
  lemma KeySessions(principal: Principal, passwordVerified: bool)
    ensures BuildContext(principal, passwordVerified).authMethod == "api_key" <==> principal.authMethod.ApiKey?
  {
    assert |"jwt"| == 3 && |"anonymous"| == 9 && |"api_key"| == 7;
  }

  // ---- outcomes ----------------------------------------------------------------------------------------------

  predicate Permitted(q: Question, a: Action)
    requires Present(q.store, q.resource)
  {
    MayDo(a, EntityAt(q.store, q.resource), StandingAt(q.store, q.caps, q.resource), q.Context())
  }

  // The answer the routes promise for each situation.
  function Promised(q: Question, a: Action): nat {
    if q.principal.IsAnonymous() then 401
    else if !Present(q.store, q.resource) || !Permitted(q, q.Seeing()) then 404
    else if !Permitted(q, a) then 403
    else 200
  }

  lemma PresentIffInSlice(q: Question)
    ensures q.InSlice() <==> Present(q.store, q.resource)
    ensures Present(q.store, q.resource) ==> q.OrgId() == Some(EntityAt(q.store, q.resource).OrgId())
  {
    var slice := SliceOf(q.store, q.caps, q.principal.subject, {q.resource});
    SliceIsCoherent(q.store, q.caps, q.principal.subject, {q.resource});
    if Present(q.store, q.resource) {
      PresentIsInSlice(q.store, q.caps, q.principal.subject, {q.resource}, q.resource);
    }
    if q.InSlice() {
      var e :| e in slice.resources && e.Uid() == q.resource;
      EntitiesAreBuilt(q.store, {q.resource}, e);
    }
  }

  lemma DecisionOn(q: Question, a: Action)
    requires Present(q.store, q.resource) && Declared(a, EntityAt(q.store, q.resource))
    ensures !q.On(a).EngineError? && (q.On(a).Allow? <==> Permitted(q, a))
  {
    AskAllows(q.store, q.caps, q.principal.subject, {q.resource}, a, q.resource, q.Context());
  }

  lemma SeeingIsDeclared(q: Question)
    requires Present(q.store, q.resource)
    ensures Declared(q.Seeing(), EntityAt(q.store, q.resource))
  {
  }

  lemma SettleMeans(r: Uid, anonymous: bool, inSlice: bool, visibility: Decision, decision: Decision,
                    canSee: bool, can: bool)
    requires inSlice ==> !visibility.EngineError? && (visibility.Allow? <==> canSee)
    requires inSlice ==> !decision.EngineError? && (decision.Allow? <==> can)
    ensures StatusOf(Settle(r, anonymous, inSlice, visibility, decision)) ==
            if anonymous then 401 else if !inSlice || !canSee then 404 else if !can then 403 else 200
  {
  }

  lemma SettleHides(r: Uid, inSlice: bool, visibility: Decision, decision: Decision, canSee: bool)
    requires inSlice ==> !visibility.EngineError? && (visibility.Allow? <==> canSee)
    ensures Settle(r, false, inSlice, visibility, decision) == Rejected(ResourceNotVisible(r)) <==> !inSlice || !canSee
  {
  }

  lemma ExplainMirrorsSettle(r: Uid, anonymous: bool, inSlice: bool, visibility: Decision, decision: Decision)
    ensures ExplainWith(r, anonymous, inSlice, visibility, decision) ==
            match Settle(r, anonymous, inSlice, visibility, decision)
            case Authorized(policyId) => Answer(true, policyId)
            case Rejected(AuthzDenied(policyId)) => Answer(false, policyId)
            case Rejected(failure) => Refused(failure)
  {
  }

  // Every route asks a declared action: then the gate never fails with 500, and answers
  // with the promised status.
  lemma GateKeepsPromises(q: Question, a: Action, cid: Id)
    requires Present(q.store, q.resource) ==> Declared(a, EntityAt(q.store, q.resource))
    ensures StatusOf(Requires(q, a, cid).exit) == Promised(q, a)
  {
    PresentIffInSlice(q);
    hide Ask, MayDo;
    var canSee, can := false, false;
    if Present(q.store, q.resource) {
      SeeingIsDeclared(q);
      DecisionOn(q, q.Seeing());
      DecisionOn(q, a);
      canSee, can := Permitted(q, q.Seeing()), Permitted(q, a);
    }
    SettleMeans(q.resource, q.principal.IsAnonymous(), q.InSlice(), q.On(q.Seeing()), q.On(a), canSee, can);
  }

  // Where seeing is all that is asked, the gate asks the engine one question.
  lemma SeeingIsEnough(q: Question, cid: Id)
    requires !q.principal.IsAnonymous()
    ensures Requires(q, q.Seeing(), cid).exit.Authorized? <==>
            Present(q.store, q.resource) && q.On(q.Seeing()).Allow?
  {
    PresentIffInSlice(q);
  }

  // The explain endpoint agrees with the gate, whatever is asked: it answers Allow exactly
  // where the gate lets through, Deny where it gives 403, with the same policy, and
  // refuses with the same failure elsewhere.
  lemma ExplainAgreesWithGate(q: Question, a: Action, cid: Id)
    ensures Explain(q, a) == match Requires(q, a, cid).exit
                             case Authorized(policyId) => Answer(true, policyId)
                             case Rejected(AuthzDenied(policyId)) => Answer(false, policyId)
                             case Rejected(failure) => Refused(failure)
  {
    ExplainMirrorsSettle(q.resource, q.principal.IsAnonymous(), q.InSlice(), q.On(q.Seeing()), q.On(a));
  }

  lemma SettledOnce(orgId: Option<Id>, principal: Principal, inSlice: bool, visibility: Decision, decision: Decision,
                     seeing: Action, a: Action, r: Uid, cid: Id)
    requires seeing in {WorkflowView, TeamView, OrgView}
    ensures var audits := SettleAudit(orgId, principal, inSlice, visibility, decision, seeing, a, r, cid);
            var exit := Settle(r, principal.IsAnonymous(), inSlice, visibility, decision);
            audits == if !principal.IsAnonymous() && inSlice && !(exit.Authorized? && a in READ_ACTIONS)
                      then [AuditTask(orgId, principal.subject, principal.authMethod,
                                      if visibility.Allow? then a else seeing, r,
                                      if visibility.Allow? then decision else visibility, cid)]
                      else []
  {
  }

  // A request that reaches a decision queues exactly one audit task, describing the
  // decision that settled it, except for a permitted read; any other request queues none.
  lemma AuditedOnce(q: Question, a: Action, cid: Id)
    ensures var Ruling(exit, audits) := Requires(q, a, cid);
            var reached := !q.principal.IsAnonymous() && Present(q.store, q.resource);
            var seeing := if q.resource.WorkflowUid? then WorkflowView
                          else if q.resource.TeamUid? then TeamView else OrgView;
            var settledBy := if q.On(seeing).Allow? then a else seeing;
            audits == if reached && !(exit.Authorized? && (a == WorkflowView || a == WorkflowList))
                      then [AuditTask(Some(EntityAt(q.store, q.resource).OrgId()), q.principal.subject,
                                      q.principal.authMethod, settledBy, q.resource, q.On(settledBy), cid)]
                      else []
  {
    hide Ask, Settle, SettleAudit;
    PresentIffInSlice(q);
    SettledOnce(q.OrgId(), q.principal, q.InSlice(), q.On(q.Seeing()), q.On(a), q.Seeing(), a, q.resource, cid);
  }

  lemma SettledAuditMatches(orgId: Option<Id>, principal: Principal, inSlice: bool, visibility: Decision,
                            decision: Decision, seeing: Action, a: Action, r: Uid, cid: Id)
    requires seeing in {WorkflowView, TeamView, OrgView}
    ensures var audits := SettleAudit(orgId, principal, inSlice, visibility, decision, seeing, a, r, cid);
            match Settle(r, principal.IsAnonymous(), inSlice, visibility, decision)
            case Authorized(policyId) => audits == [] || Tells(audits, a, Allow(policyId))
            case Rejected(AuthzDenied(policyId)) => Tells(audits, a, Deny(policyId))
            case Rejected(ResourceNotVisible(_)) => !inSlice || (Tells(audits, seeing, visibility) && visibility.Deny?)
            case Rejected(AuthzEngineError) => |audits| == 1 && audits[0].decision.EngineError?
            case Rejected(AuthenticationFailed) => audits == []
  {
  }

  predicate Tells(audits: seq<AuditTask>, a: Action, decision: Decision) {
    |audits| == 1 && audits[0].action == a && audits[0].decision == decision
  }

  // The trail tells what the client was told and what it was not: behind a 403 there is the
  // denial of the action with its policy, behind a 404 of a resource that exists the denial
  // of seeing it, and behind a 500 the engine's error.
  lemma TrailMatchesAnswer(q: Question, a: Action, cid: Id)
    ensures var Ruling(exit, audits) := Requires(q, a, cid);
            match exit
            case Authorized(policyId) => audits == [] || Tells(audits, a, Allow(policyId))
            case Rejected(AuthzDenied(policyId)) => Tells(audits, a, Deny(policyId))
            case Rejected(ResourceNotVisible(_)) =>
              Present(q.store, q.resource) ==>
                |audits| == 1 && audits[0].decision.Deny? && audits[0].action == q.Seeing()
            case Rejected(AuthzEngineError) => |audits| == 1 && audits[0].decision.EngineError?
            case Rejected(AuthenticationFailed) => audits == []
  {
    hide Ask, Settle, SettleAudit;
    PresentIffInSlice(q);
    SettledAuditMatches(q.OrgId(), q.principal, q.InSlice(), q.On(q.Seeing()), q.On(a), q.Seeing(), a, q.resource, cid);
  }

  // Neither a member of the organization (where that is all it takes to see it), nor holding
  // view on the team or manage_org above it.
  predicate Outsider(caps: CapabilitySlice, e: ResourceEntity) {
    && ManageOrg !in caps.At(OrgLevel, e.OrgId())
    && if e.OrgEntity? then e.OrgId() !in caps.orgCaps else View !in caps.At(TeamLevel, e.PlaceOf())
  }

  lemma SeeingMeans(q: Question)
    requires Present(q.store, q.resource)
    ensures Permitted(q, q.Seeing()) <==>
            && !Outsider(q.caps, EntityAt(q.store, q.resource))
            && !SessionBlocks(q.Seeing(), EntityAt(q.store, q.resource).OrgId(), q.Context())
  {
  }

  // To an outsider, whatever the action, a resource looks exactly as if it did not exist;
  // and it does only to an outsider, or to an API key barred from viewing it.
  lemma HiddenFromOutsiders(q: Question, a: Action, cid: Id)
    requires !q.principal.IsAnonymous()
    ensures Requires(q, a, cid).exit == Rejected(ResourceNotVisible(q.resource)) <==>
            || !Present(q.store, q.resource)
            || Outsider(q.caps, EntityAt(q.store, q.resource))
            || SessionBlocks(q.Seeing(), EntityAt(q.store, q.resource).OrgId(), q.Context())
  {
    PresentIffInSlice(q);
    hide Ask, MayDo;
    var canSee := false;
    if Present(q.store, q.resource) {
      SeeingIsDeclared(q);
      SeeingMeans(q);
      DecisionOn(q, q.Seeing());
      canSee := Permitted(q, q.Seeing());
    }
    SettleHides(q.resource, q.InSlice(), q.On(q.Seeing()), q.On(a), canSee);
  }

  lemma SeeingNeedsRead(r: Uid)
    ensures RequiredScopeOf(VisibilityAction(r)) == ScopeText(ReadScope)
  {
  }

  lemma ScopeNeeded(q: Question, a: Action)
    requires Present(q.store, q.resource) && q.principal.authMethod.ApiKey?
    requires IsGovernance(a) || RequiredScopeOf(a) !in q.principal.apiKeyScopes
    ensures !Permitted(q, a) && SessionBlocks(a, EntityAt(q.store, q.resource).OrgId(), q.Context())
  {
  }

  // An API key without workflow:read sees nothing: every gate answers as if the resource
  // did not exist. So a key with workflow:run alone passes no gate.
  lemma KeysNeedReadScope(q: Question, a: Action, cid: Id)
    requires q.principal.authMethod.ApiKey? && "workflow:read" !in q.principal.apiKeyScopes
    ensures Requires(q, a, cid).exit == Rejected(ResourceNotVisible(q.resource))
  {
    HiddenFromOutsiders(q, a, cid);
    if Present(q.store, q.resource) {
      SeeingNeedsRead(q.resource);
      ScopeNeeded(q, q.Seeing());
    }
  }

  lemma ScopesByText(a: Action)
    ensures IsGovernance(a) ||
            RequiredScopeOf(a) == match a
                                  case OrgView | TeamView | WorkflowList | WorkflowView => "workflow:read"
                                  case WorkflowRun | WorkflowRunExported => "workflow:run"
                                  case _ => "workflow:write"
  {
  }

  // Past a gate, a key has the scope to see and the scope of the action, in the texts stored
  // with it: a key that only reads runs nothing, and no key governs.
  lemma KeysNeedActionScope(q: Question, a: Action, cid: Id)
    requires q.principal.authMethod.ApiKey?
    requires Present(q.store, q.resource) ==> Declared(a, EntityAt(q.store, q.resource))
    ensures Requires(q, a, cid).exit.Authorized? ==>
              && "workflow:read" in q.principal.apiKeyScopes
              && match a
                 case OrgView | TeamView | WorkflowList | WorkflowView => true
                 case WorkflowRun | WorkflowRunExported => "workflow:run" in q.principal.apiKeyScopes
                 case WorkflowCreate | WorkflowUpdate | WorkflowDelete | WorkflowExport | WorkflowProtectExport =>
                   "workflow:write" in q.principal.apiKeyScopes
                 case _ => false
  {
    hide Requires, Permitted;
    if "workflow:read" !in q.principal.apiKeyScopes {
      KeysNeedReadScope(q, a, cid);
    }
    GateKeepsPromises(q, a, cid);
    if Present(q.store, q.resource) && (IsGovernance(a) || RequiredScopeOf(a) !in q.principal.apiKeyScopes) {
      ScopeNeeded(q, a);
    }
    ScopesByText(a);
  }

  // ---- the public route ----------------------------------------------------------------------------------

  // POST /v1/public/workflows/{id}/executions asks the engine without a visibility check:
  // what counts is the state of the workflow, not who is asking.
  function RunPublished(q: Question): Exit {
    if !q.InSlice() then Rejected(ResourceNotVisible(q.resource)) else ExitOf(q.On(WorkflowRunExported))
  }

  // The export row of the workflow says that it is published, its password has been given if
  // it has one, and the caller is a member if it is restricted to members; an API key also
  // has its organization and the scope to run.
  predicate Published(q: Question)
    requires q.resource.WorkflowUid? && q.resource.id in q.store.workflows
  {
    var row := q.store.workflows[q.resource.id];
    && row.exportRow.Some? && row.exportRow.value.isExported
    && (row.exportRow.value.passwordHash.Some? ==> q.passwordVerified)
    && (row.exportRow.value.visibility == "org_only" ==> row.org in q.caps.orgCaps)
    && (q.principal.authMethod.ApiKey? ==>
          q.principal.apiKeyOrg == Some(row.org) && "workflow:run" in q.principal.apiKeyScopes)
  }

  lemma MayRunPublished(q: Question)
    requires q.resource.WorkflowUid? && q.resource.id in q.store.workflows
    ensures Permitted(q, WorkflowRunExported) <==> Published(q)
  {
    KeySessions(q.principal, q.passwordVerified);
  }

  // Absent workflows are 404. Others run for anyone exactly when they are published to the
  // caller, and are 403 otherwise; nothing is 500.
  lemma PublishedRuns(q: Question)
    requires q.resource.WorkflowUid?
    ensures StatusOf(RunPublished(q)) ==
            if q.resource.id !in q.store.workflows then 404 else if Published(q) then 200 else 403
  {
    hide Ask, Permitted, Published, SliceOf;
    PresentIffInSlice(q);
    if Present(q.store, q.resource) {
      DecisionOn(q, WorkflowRunExported);
      MayRunPublished(q);
    }
  }
}
