// GET /v1/workflows: the capability slice, the filter, the engine and the refill loop put
// together, and what a client that follows the cursors gets to see.
module WorkflowsRoute {
  import opened Common
  import opened Tables
  import opened Cedar
  import opened Engine
  import opened EntityProvider
  import opened Decisions
  import opened Prefilter
  import opened Gate
  import opened Listing
  import opened Walks

  // The tables when the query of a round runs, and when the entities of its rows are read.
  datatype Moment = Moment(found: Store, judged: Store)

  // One request: the membership tables its capability slice is built from, and the moments
  // its rounds would meet.
  datatype ListRequest = ListRequest(atStart: Db, moments: seq<Moment>, limit: int)

  datatype Caller = Caller(principal: Principal, passwordVerified: bool)
  {
    function Context(): AuthzContext {
      BuildContext(principal, passwordVerified)
    }

    function Caps(db: Db): CapabilitySlice {
      CapsOf(db, principal.subject)
    }
  }

  // The engine lets the caller view the workflow, asked over a slice for it alone.
  predicate Viewable(store: Store, caps: CapabilitySlice, caller: Caller, id: Id) {
    && id in store.workflows
    && Ask(store, caps, caller.principal.subject, {WorkflowUid(id)}, WorkflowView, WorkflowUid(id),
           caller.Context()).Allow?
  }

  function ViewableIds(store: Store, caps: CapabilitySlice, caller: Caller): set<Id> {
    set id | id in store.workflows && Viewable(store, caps, caller, id)
  }

  function MatchingIds(store: Store, spec: PrefilterSpec): set<Id> {
    set id | id in store.workflows && spec.Matches(store.workflows[id])
  }

  function RoundAt(m: Moment, caps: CapabilitySlice, caller: Caller): Round {
    var matching := MatchingIds(m.found, BuildWorkflowPrefilter(caps));
    Round(matching, ViewableIds(m.judged, caps, caller), matching - m.judged.workflows.Keys)
  }

  function RoundsOf(moments: seq<Moment>, caps: CapabilitySlice, caller: Caller): (rounds: seq<Round>)
    ensures |rounds| == |moments|
    ensures forall k :: 0 <= k < |moments| ==> rounds[k] == RoundAt(moments[k], caps, caller)
  {
    if moments == [] then [] else [RoundAt(moments[0], caps, caller)] + RoundsOf(moments[1..], caps, caller)
  }

  // An empty filter answers without querying.
  function RoutePage(moments: seq<Moment>, caps: CapabilitySlice, caller: Caller, limit: int, cursor: Option<Id>): Page {
    if BuildWorkflowPrefilter(caps).IsEmpty() then Page([], None)
    else ListPage(RoundsOf(moments, caps, caller), limit, cursor)
  }

  // A limit below one, which the route does not reject: with an empty filter, or at zero, the
  // answer is an empty last page; a negative limit otherwise indexes into an empty page.
  lemma LimitBelowOne(moments: seq<Moment>, caps: CapabilitySlice, caller: Caller, limit: int, cursor: Option<Id>)
    requires limit < 1
    ensures RoutePage(moments, caps, caller, limit, cursor) ==
            if BuildWorkflowPrefilter(caps).IsEmpty() || limit == 0 then Page([], None) else IndexFault
  {
  }

  // ---- the handler as it runs -----------------------------------------------------------------------

  function RefsOf(rows: seq<Id>): (refs: seq<Uid>)
    ensures |refs| == |rows| && forall k :: 0 <= k < |rows| ==> refs[k] == WorkflowUid(rows[k])
  {
    if rows == [] then [] else [WorkflowUid(rows[0])] + RefsOf(rows[1..])
  }

  // A decision as the handler uses it: an error, or whether the row stays.
  ghost predicate Judges(decisions: seq<Decision>, rows: seq<Id>, store: Store, caps: CapabilitySlice, caller: Caller) {
    && |decisions| == |rows|
    && forall k :: 0 <= k < |rows| ==>
         && (decisions[k].EngineError? <==> rows[k] !in store.workflows)
         && (decisions[k].Allow? <==> rows[k] in ViewableIds(store, caps, caller))
  }

  lemma DecisionJudges(store: Store, caps: CapabilitySlice, caller: Caller, refs: set<Uid>, id: Id)
    requires WorkflowUid(id) in refs
    ensures var d := Ask(store, caps, caller.principal.subject, refs, WorkflowView, WorkflowUid(id), caller.Context());
            && (d.EngineError? <==> id !in store.workflows)
            && (d.Allow? <==> id in ViewableIds(store, caps, caller))
  {
    var subject, ctx := caller.principal.subject, caller.Context();
    if id in store.workflows {
      AskAllows(store, caps, subject, refs, WorkflowView, WorkflowUid(id), ctx);
      AskAllows(store, caps, subject, {WorkflowUid(id)}, WorkflowView, WorkflowUid(id), ctx);
    } else {
      AbsentIsError(store, caps, subject, refs, WorkflowView, WorkflowUid(id), ctx);
    }
  }

  // Whether a row stays, decision by decision.
  function Survivors(rows: seq<Id>, decisions: seq<Decision>): seq<Id>
    requires |rows| == |decisions|
  {
    if rows == [] then []
    else (if decisions[0].Allow? then [rows[0]] else []) + Survivors(rows[1..], decisions[1..])
  }

  lemma {:induction false} SurvivorsAreKept(rows: seq<Id>, decisions: seq<Decision>, allowed: set<Id>)
    requires |rows| == |decisions| && forall k :: 0 <= k < |rows| ==> (decisions[k].Allow? <==> rows[k] in allowed)
    ensures Survivors(rows, decisions) == Kept(rows, allowed)
  {
    if rows != [] {
      SurvivorsAreKept(rows[1..], decisions[1..], allowed);
    }
  }

  // Entities and decisions for one batch.
  method Decide(provider: Provider, store: Store, caller: Caller, rows: seq<Id>) returns (decisions: seq<Decision>)
    modifies provider
    ensures Judges(decisions, rows, store, old(provider.Current(store.db, caller.principal.subject)), caller)
    ensures provider.memo == old(provider.memo[caller.principal.subject :=
                                   provider.Current(store.db, caller.principal.subject)])
  {
    ghost var caps := provider.Current(store.db, caller.principal.subject);
    var refs := RefsOf(rows);
    var slice := provider.SliceFor(store, caller.principal.subject, refs);
    ghost var all := set r | r in refs;
    SliceIsCoherent(store, caps, caller.principal.subject, all);
    decisions := AuthorizeBatch(UserUid(caller.principal.subject), WorkflowView, refs, slice, caller.Context());
    forall k | 0 <= k < |rows|
      ensures && (decisions[k].EngineError? <==> rows[k] !in store.workflows)
              && (decisions[k].Allow? <==> rows[k] in ViewableIds(store, caps, caller)) {
      assert refs[k] in refs;
      DecisionJudges(store, caps, caller, all, rows[k]);
    }
  }

  predicate AnyError(decisions: seq<Decision>) {
    exists k | 0 <= k < |decisions| :: decisions[k].EngineError?
  }

  // A round in which the engine fails on a row is one that breaks; otherwise the rows that
  // stay are those the round keeps.
  lemma BatchFollowsRound(m: Moment, caps: CapabilitySlice, caller: Caller, cursor: Option<Id>, n: nat, rows: seq<Id>,
                          decisions: seq<Decision>)
    requires rows == Query(MatchingIds(m.found, BuildWorkflowPrefilter(caps)), cursor, n)
    requires Judges(decisions, rows, m.judged, caps, caller)
    ensures AnyError(decisions) <==> Breaks(rows, RoundAt(m, caps, caller).failing)
    ensures Survivors(rows, decisions) == Kept(rows, RoundAt(m, caps, caller).allowed)
  {
    QueryWithin(MatchingIds(m.found, BuildWorkflowPrefilter(caps)), cursor, n);
    SurvivorsAreKept(rows, decisions, RoundAt(m, caps, caller).allowed);
    if AnyError(decisions) {
      var k :| 0 <= k < |decisions| && decisions[k].EngineError?;
      assert rows[k] in rows && rows[k] in RoundAt(m, caps, caller).failing;
    }
    if Breaks(rows, RoundAt(m, caps, caller).failing) {
      var i :| i in rows && i in RoundAt(m, caps, caller).failing;
      var k :| 0 <= k < |rows| && rows[k] == i;
      assert decisions[k].EngineError?;
    }
  }

  // One round of the loop: the batch, whether the engine failed on a row of it, and the
  // rows that stay.
  method FetchBatch(provider: Provider, m: Moment, caller: Caller, caps: CapabilitySlice, cursor: Option<Id>, n: nat,
                    ghost round: Round)
    returns (rows: seq<Id>, failed: bool, kept: seq<Id>)
    requires caller.principal.subject in provider.memo && provider.memo[caller.principal.subject] == caps
    requires round == RoundAt(m, caps, caller)
    modifies provider
    ensures caller.principal.subject in provider.memo && provider.memo[caller.principal.subject] == caps
    ensures rows == Query(round.matching, cursor, n)
    ensures failed == Breaks(rows, round.failing) && (!failed ==> kept == Kept(rows, round.allowed))
  {
    rows, failed, kept := Query(MatchingIds(m.found, BuildWorkflowPrefilter(caps)), cursor, n), false, [];
    if rows == [] {
      return;
    }
    var decisions := Decide(provider, m.judged, caller, rows);
    BatchFollowsRound(m, caps, caller, cursor, n, rows, decisions);
    if AnyError(decisions) {
      failed := true;
    } else {
      kept := Survivors(rows, decisions);
    }
  }

  // The loop; failed when the engine failed on a row.
  method RefillLoop(provider: Provider, moments: seq<Moment>, caller: Caller, caps: CapabilitySlice, limit: int,
                    cursor: Option<Id>, ghost all: seq<Round>)
    returns (failed: bool, survivors: seq<Id>, lastFetched: Option<Id>, exhausted: bool)
    requires |moments| == |all| == MAX_REFILL_ROUNDS
    requires forall k :: 0 <= k < |all| ==> all[k] == RoundAt(moments[k], caps, caller)
    requires caller.principal.subject in provider.memo && provider.memo[caller.principal.subject] == caps
    modifies provider
    ensures var done := Refill(all, limit, Start(cursor));
            && failed == done.Broken?
            && (!failed ==> survivors == done.scan.survivors && lastFetched == done.scan.lastFetched
                            && exhausted == done.scan.exhausted)
  {
    var fetchCursor, rounds := cursor, 0;
    failed, survivors, lastFetched, exhausted := false, [], None, false;
    ghost var scan := Start(cursor);
    while |survivors| < limit && !exhausted && rounds < MAX_REFILL_ROUNDS
      invariant 0 <= rounds <= MAX_REFILL_ROUNDS
      invariant caller.principal.subject in provider.memo && provider.memo[caller.principal.subject] == caps
      invariant Refill(all, limit, Start(cursor)) == Refill(all[rounds..], limit, scan)
      invariant scan.survivors == survivors && scan.fetchCursor == fetchCursor
      invariant scan.lastFetched == lastFetched && scan.exhausted == exhausted
    {
      assert all[rounds..][0] == all[rounds] && all[rounds..][1..] == all[rounds + 1..];
      var rows, broken, kept :=
        FetchBatch(provider, moments[rounds], caller, caps, fetchCursor, limit * OVERFETCH_FACTOR, all[rounds]);
      if rows == [] {
        exhausted, scan := true, scan.(exhausted := true, queries := scan.queries + 1);
        break;
      }
      if broken {
        failed := true;
        return;
      }
      scan := Took(scan, rows, all[rounds].allowed, limit);
      survivors := survivors + kept;
      lastFetched := Some(rows[|rows| - 1]);
      fetchCursor := lastFetched;
      exhausted := |rows| < limit * OVERFETCH_FACTOR;
      rounds := rounds + 1;
    }
  }

  // Not reached by anonymous callers, whom requires_authenticated turns away.
  method ListWorkflows(provider: Provider, request: ListRequest, caller: Caller, cursor: Option<Id>) returns (page: Page)
    requires |request.moments| == MAX_REFILL_ROUNDS
    modifies provider
    ensures page == RoutePage(request.moments, old(provider.Current(request.atStart, caller.principal.subject)), caller,
                              request.limit, cursor)
  {
    hide Refill, RoundsOf, RoundAt;
    var caps := provider.CapabilitySliceOf(request.atStart, caller.principal.subject);
    if BuildWorkflowPrefilter(caps).IsEmpty() {
      return Page([], None);
    }
    var limit := request.limit;
    var failed, survivors, lastFetched, exhausted :=
      RefillLoop(provider, request.moments, caller, caps, limit, cursor, RoundsOf(request.moments, caps, caller));
    if failed {
      return EngineFailure;
    }
    var items := Take(survivors, limit);
    if |survivors| > limit {
      if items == [] {
        return IndexFault;
      }
      return Page(items, Some(items[|items| - 1]));
    } else if exhausted {
      return Page(items, None);
    } else {
      return Page(items, lastFetched);
    }
  }

  // ---- what a client sees ---------------------------------------------------------------------------

  predicate ProperRequests(requests: seq<ListRequest>) {
    forall q | q in requests :: 1 <= q.limit <= MAX_LIMIT && |q.moments| == MAX_REFILL_ROUNDS
  }

  // The answer to one request, served by a provider of its own.
  function Serve(q: ListRequest, caller: Caller, cursor: Option<Id>): Page {
    RoutePage(q.moments, caller.Caps(q.atStart), caller, q.limit, cursor)
  }

  // A client that follows next_cursor.
  function Browse(requests: seq<ListRequest>, caller: Caller, cursor: Option<Id>): Walk {
    if requests == [] then Walked([], cursor, false)
    else
      var page := Serve(requests[0], caller, cursor);
      if !page.Page? then Halted
      else if page.next.None? then Walked(page.items, None, true)
      else
        var rest := Browse(requests[1..], caller, page.next);
        if rest.Halted? then Halted else Walked(page.items + rest.ids, rest.cursor, rest.ended)
  }

  // The same request as a visit of an abstract walk.
  function VisitOf(q: ListRequest, caller: Caller): Visit
    requires q.limit >= 1
  {
    Visit(RoundsOf(q.moments, caller.Caps(q.atStart), caller), q.limit)
  }

  function VisitsOf(requests: seq<ListRequest>, caller: Caller): (visits: seq<Visit>)
    requires ProperRequests(requests)
    ensures |visits| == |requests| && Proper(visits)
    ensures forall k :: 0 <= k < |visits| ==> requests[k].limit >= 1 && visits[k] == VisitOf(requests[k], caller)
  {
    if requests == [] then []
    else
      TailIsProper(requests);
      [VisitOf(requests[0], caller)] + VisitsOf(requests[1..], caller)
  }

  lemma TailIsProper(requests: seq<ListRequest>)
    requires ProperRequests(requests) && requests != []
    ensures 1 <= requests[0].limit <= MAX_LIMIT && |requests[0].moments| == MAX_REFILL_ROUNDS
    ensures ProperRequests(requests[1..])
  {
    assert requests[0] in requests;
    assert forall q :: q in requests[1..] ==> q in requests;
  }

  // The shortcut for an empty filter changes no answer.
  lemma EmptyFilterFindsNothing(q: ListRequest, caller: Caller, cursor: Option<Id>)
    requires 1 <= q.limit <= MAX_LIMIT && |q.moments| == MAX_REFILL_ROUNDS
    ensures Serve(q, caller, cursor) == ListPage(VisitOf(q, caller).rounds, VisitOf(q, caller).limit, cursor)
  {
    var caps := caller.Caps(q.atStart);
    var spec := BuildWorkflowPrefilter(caps);
    if spec.IsEmpty() {
      var rounds := RoundsOf(q.moments, caps, caller);
      assert rounds[0].matching == {};
      var rows := Query({}, cursor, q.limit * OVERFETCH_FACTOR);
      QueryWithin({}, cursor, q.limit * OVERFETCH_FACTOR);
      if rows != [] {
        HeadIsIn(rows);
        assert false;
      }
    }
  }

  lemma {:induction false} BrowseFollows(requests: seq<ListRequest>, caller: Caller, cursor: Option<Id>)
    requires ProperRequests(requests)
    ensures Browse(requests, caller, cursor) == Follow(VisitsOf(requests, caller), cursor)
  {
    hide ListPage, RoutePage, RoundsOf;
    if requests != [] {
      TailIsProper(requests);
      EmptyFilterFindsNothing(requests[0], caller, cursor);
      assert VisitsOf(requests, caller)[1..] == VisitsOf(requests[1..], caller);
      var page := Serve(requests[0], caller, cursor);
      if page.Page? && page.next.Some? {
        BrowseFollows(requests[1..], caller, page.next);
      }
    }
  }

  // ---- on a fixed database ------------------------------------------------------------------------------

  // Nothing changes between and during the requests.
  predicate Frozen(requests: seq<ListRequest>, store: Store) {
    forall q | q in requests :: q.atStart == store.db && forall m | m in q.moments :: m == Moment(store, store)
  }

  lemma MatchingContainsViewable(store: Store, caps: CapabilitySlice, caller: Caller)
    ensures ViewableIds(store, caps, caller) <= MatchingIds(store, BuildWorkflowPrefilter(caps))
  {
    forall id | id in ViewableIds(store, caps, caller) ensures id in MatchingIds(store, BuildWorkflowPrefilter(caps)) {
      PrefilterExact(store, caps, caller.principal.subject, {WorkflowUid(id)}, id, caller.Context());
    }
  }

  lemma FrozenIsFixed(requests: seq<ListRequest>, store: Store, caller: Caller)
    requires ProperRequests(requests) && Frozen(requests, store)
    ensures Fixed(VisitsOf(requests, caller), RoundAt(Moment(store, store), caller.Caps(store.db), caller))
  {
    var visits, r := VisitsOf(requests, caller), RoundAt(Moment(store, store), caller.Caps(store.db), caller);
    forall v, x | v in visits && x in v.rounds ensures x == r {
      var k :| 0 <= k < |visits| && visits[k] == v;
      assert requests[k] in requests;
      var j :| 0 <= j < |v.rounds| && v.rounds[j] == x;
      assert requests[k].moments[j] in requests[k].moments;
    }
  }

  lemma FrozenRounds(q: ListRequest, store: Store, caller: Caller)
    requires ProperRequests([q]) && Frozen([q], store)
    ensures 1 <= q.limit <= MAX_LIMIT && q.atStart == store.db && |q.moments| == MAX_REFILL_ROUNDS
    ensures var r := RoundAt(Moment(store, store), caller.Caps(store.db), caller);
            r.failing !! r.matching && forall x :: x in VisitOf(q, caller).rounds ==> x == r
  {
    assert q in [q] && VisitsOf([q], caller)[0] in VisitsOf([q], caller);
    FrozenIsFixed([q], store, caller);
  }

  // One page of a fixed database: the first `limit` viewable workflows among the first fifteen
  // times `limit` that pass the filter. If those fall short of `limit`, the page is the last
  // when nothing else passes the filter, and resumes after what was read otherwise.
  lemma PageOnFixed(q: ListRequest, store: Store, caller: Caller, cursor: Option<Id>)
    requires ProperRequests([q]) && Frozen([q], store)
    ensures var caps, page := caller.Caps(store.db), Serve(q, caller, cursor);
            var all := Ascending(AboveIn(MatchingIds(store, BuildWorkflowPrefilter(caps)), cursor));
            q.limit >= 1 &&
            var found := Kept(all[..Min(15 * q.limit, |all|)], ViewableIds(store, caps, caller));
            && page.Page? && page.items == found[..Min(q.limit, |found|)]
            && (|found| < q.limit ==> page.next == if |all| < 15 * q.limit then None else Some(all[15 * q.limit - 1]))
  {
    hide Serve, RoundsOf, Ascending, ListPage, Viewable;
    FrozenRounds(q, store, caller);
    EmptyFilterFindsNothing(q, caller, cursor);
    FixedPage(RoundAt(Moment(store, store), caller.Caps(store.db), caller), VisitOf(q, caller).rounds, q.limit, cursor);
  }

  lemma InPersonSeesMatching(store: Store, caller: Caller)
    requires !caller.principal.authMethod.ApiKey?
    ensures ViewableIds(store, caller.Caps(store.db), caller) ==
            MatchingIds(store, BuildWorkflowPrefilter(caller.Caps(store.db)))
  {
    var caps := caller.Caps(store.db);
    KeySessions(caller.principal, caller.passwordVerified);
    hide Ask;
    forall id | id in store.workflows
      ensures Viewable(store, caps, caller, id) <==> BuildWorkflowPrefilter(caps).Matches(store.workflows[id]) {
      PrefilterExact(store, caps, caller.principal.subject, {WorkflowUid(id)}, id, caller.Context());
    }
  }

  // In person a page is the next `limit` viewable workflows, or all that are left, and there
  // is a cursor exactly when more are.
  lemma PageInPerson(q: ListRequest, store: Store, caller: Caller, cursor: Option<Id>)
    requires ProperRequests([q]) && Frozen([q], store) && !caller.principal.authMethod.ApiKey?
    ensures var all := Ascending(AboveIn(ViewableIds(store, caller.Caps(store.db), caller), cursor));
            q.limit >= 1 &&
            Serve(q, caller, cursor) ==
            Page(all[..Min(q.limit, |all|)], if |all| > q.limit then Some(all[q.limit - 1]) else None)
  {
    hide Serve, RoundsOf, Ascending, ListPage, Viewable, MatchingIds;
    FrozenRounds(q, store, caller);
    EmptyFilterFindsNothing(q, caller, cursor);
    InPersonSeesMatching(store, caller);
    var rounds := VisitOf(q, caller).rounds;
    assert rounds[0] in rounds;
    ExactPage(RoundAt(Moment(store, store), caller.Caps(store.db), caller), rounds, q.limit, cursor);
  }

  // On a fixed database, following next_cursor from the start until it is null returns
  // exactly the workflows of the whole table that the engine lets the caller view, in id
  // order and each once. Holds of sessions in person and of API keys.
  lemma BrowseIsExact(requests: seq<ListRequest>, store: Store, caller: Caller)
    requires ProperRequests(requests) && requests != [] && Frozen(requests, store)
    requires Browse(requests, caller, None).Walked? && Browse(requests, caller, None).ended
    ensures Browse(requests, caller, None).ids == Ascending(ViewableIds(store, caller.Caps(store.db), caller))
  {
    var visits, caps := VisitsOf(requests, caller), caller.Caps(store.db);
    var r := RoundAt(Moment(store, store), caps, caller);
    BrowseFollows(requests, caller, None);
    FrozenIsFixed(requests, store, caller);
    FixedWalk(visits, r, None);
    MatchingContainsViewable(store, caps, caller);
    assert AboveIn(r.matching * r.allowed, None) == ViewableIds(store, caps, caller);
  }

  // And it becomes null within one page more than there are workflows.
  lemma BrowseEnds(requests: seq<ListRequest>, store: Store, caller: Caller)
    requires ProperRequests(requests) && Frozen(requests, store) && |requests| > |store.workflows|
    ensures Browse(requests, caller, None).Walked? && Browse(requests, caller, None).ended
  {
    var r := RoundAt(Moment(store, store), caller.Caps(store.db), caller);
    BrowseFollows(requests, caller, None);
    FrozenIsFixed(requests, store, caller);
    assert AboveIn(r.matching, None) <= store.workflows.Keys;
    SubsetIsNoLarger(AboveIn(r.matching, None), store.workflows.Keys);
    WalkEnds(VisitsOf(requests, caller), r, None);
  }

  lemma {:induction false} SubsetIsNoLarger(a: set<Id>, b: set<Id>)
    requires a <= b
    ensures |a| <= |b|
    decreases |a|
  {
    if a != {} {
      var x :| x in a;
      SubsetIsNoLarger(a - {x}, b - {x});
    }
  }

  // The condition on the limit is needed: a walk that starts with limit zero is over at once,
  // and has returned everything viewable exactly when nothing is.
  lemma ZeroLimitShowsNothing(requests: seq<ListRequest>, store: Store, caller: Caller)
    requires requests != [] && requests[0].limit == 0
    ensures Browse(requests, caller, None) == Walked([], None, true)
    ensures Browse(requests, caller, None).ids == Ascending(ViewableIds(store, caller.Caps(store.db), caller)) <==>
            ViewableIds(store, caller.Caps(store.db), caller) == {}
  {
    hide Viewable;
    LimitBelowOne(requests[0].moments, caller.Caps(requests[0].atStart), caller, 0, None);
    AscendingSorts(ViewableIds(store, caller.Caps(store.db), caller));
  }

  // What the list shows is what the gate of GET /v1/workflows/{id} lets the caller open.
  lemma ListAgreesWithGate(store: Store, caller: Caller, id: Id, cid: Id)
    requires !caller.principal.IsAnonymous()
    ensures id in ViewableIds(store, caller.Caps(store.db), caller) <==>
            Requires(Question(store, caller.Caps(store.db), caller.principal, caller.passwordVerified, WorkflowUid(id)),
                     WorkflowView, cid).exit.Authorized?
  {
    hide Ask, Requires;
    var q := Question(store, caller.Caps(store.db), caller.principal, caller.passwordVerified, WorkflowUid(id));
    SeeingIsEnough(q, cid);
  }

  // ---- under change ----------------------------------------------------------------------------------------

  // Viewable at every moment of every request, with the capabilities that request works with.
  predicate ViewableThroughout(requests: seq<ListRequest>, caller: Caller, id: Id) {
    forall q | q in requests :: forall m | m in q.moments ::
      Viewable(m.found, caller.Caps(q.atStart), caller, id) && Viewable(m.judged, caller.Caps(q.atStart), caller, id)
  }

  predicate ViewableSometime(requests: seq<ListRequest>, caller: Caller, id: Id) {
    exists q | q in requests :: exists m | m in q.moments :: Viewable(m.judged, caller.Caps(q.atStart), caller, id)
  }

  lemma ThroughoutIsSteady(requests: seq<ListRequest>, caller: Caller, id: Id)
    requires ProperRequests(requests) && ViewableThroughout(requests, caller, id)
    ensures SteadyOn(VisitsOf(requests, caller), id)
  {
    var visits := VisitsOf(requests, caller);
    forall v, r | v in visits && r in v.rounds ensures id in r.matching && id in r.allowed {
      var k :| 0 <= k < |visits| && visits[k] == v;
      assert requests[k] in requests;
      var j :| 0 <= j < |v.rounds| && v.rounds[j] == r;
      var m, caps := requests[k].moments[j], caller.Caps(requests[k].atStart);
      assert m in requests[k].moments;
      assert Viewable(m.found, caps, caller, id) && Viewable(m.judged, caps, caller, id);
      MatchingContainsViewable(m.found, caps, caller);
      assert id in ViewableIds(m.found, caps, caller);
    }
  }

  lemma SeenIsJudged(moments: seq<Moment>, caps: CapabilitySlice, caller: Caller, id: Id) returns (m: Moment)
    requires Seen(RoundsOf(moments, caps, caller), id)
    ensures m in moments && id in RoundAt(m, caps, caller).allowed
  {
    hide RoundAt;
    var rounds := RoundsOf(moments, caps, caller);
    var r :| r in rounds && id in r.matching && id in r.allowed;
    var j :| 0 <= j < |rounds| && rounds[j] == r;
    m := moments[j];
  }

  lemma SeenIsSometime(requests: seq<ListRequest>, caller: Caller, id: Id)
    requires ProperRequests(requests) && SeenOn(VisitsOf(requests, caller), id)
    ensures ViewableSometime(requests, caller, id)
  {
    var visits := VisitsOf(requests, caller);
    var v :| v in visits && Seen(v.rounds, id);
    var k :| 0 <= k < |visits| && visits[k] == v;
    var m := SeenIsJudged(requests[k].moments, caller.Caps(requests[k].atStart), caller, id);
    assert requests[k] in requests;
  }

  // Whatever is inserted, deleted, moved or granted meanwhile: the ids of a walk are
  // strictly increasing, each was viewable when it was judged, and a walk that has met a
  // null cursor has returned every workflow viewable throughout.
  lemma BrowseUnderChange(requests: seq<ListRequest>, caller: Caller)
    requires ProperRequests(requests)
    ensures var walk := Browse(requests, caller, None);
            walk.Walked? ==>
              && Increasing(walk.ids)
              && (forall id :: id in walk.ids ==> ViewableSometime(requests, caller, id))
              && (walk.ended ==> forall id :: ViewableThroughout(requests, caller, id) ==> id in walk.ids)
  {
    var visits, walk := VisitsOf(requests, caller), Browse(requests, caller, None);
    BrowseFollows(requests, caller, None);
    WalkIsSound(visits, None);
    if walk.Halted? {
      return;
    }
    forall id | id in walk.ids ensures ViewableSometime(requests, caller, id) {
      SeenIsSometime(requests, caller, id);
    }
    if walk.ended {
      forall id | ViewableThroughout(requests, caller, id) ensures id in walk.ids {
        ThroughoutIsSteady(requests, caller, id);
        WalkIsComplete(visits, None, id);
      }
    }
  }
}
