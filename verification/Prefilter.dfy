// The filter pushed into the listing query, and how close it is to the policies.
module Prefilter {
  import opened Common
  import opened Cedar
  import Policies
  import opened EntitySlices
  import Engine
  import opened EntityProvider
  import opened Meaning
  import opened Decisions

  datatype PrefilterSpec = PrefilterSpec(teamIds: set<Id>, orgIds: set<Id>)
  {
    predicate IsEmpty() {
      teamIds == {} && orgIds == {}
    }

    predicate Matches(row: WorkflowRow) {
      row.team in teamIds || row.org in orgIds
    }
  }

  function BuildWorkflowPrefilter(caps: CapabilitySlice): PrefilterSpec {
    PrefilterSpec(caps.TeamsWith(View), caps.OrgsWith(ManageOrg))
  }

  lemma MatchesGrants(caps: CapabilitySlice, id: Id, row: WorkflowRow)
    ensures BuildWorkflowPrefilter(caps).Matches(row) <==>
            Grants(WorkflowView, StandingOf(caps, BuildWorkflowEntity(id, row)))
  {
  }

  // The filter passes exactly the rows the engine lets the principal view, less those the
  // session itself is barred from. For a session in person it is exact; for an API key it
  // passes every row the key may view.
  lemma PrefilterExact(store: Store, caps: CapabilitySlice, subject: Subject, refs: set<Uid>, id: Id,
                       ctx: Engine.AuthzContext)
    requires id in store.workflows && WorkflowUid(id) in refs
    ensures Ask(store, caps, subject, refs, WorkflowView, WorkflowUid(id), ctx).Allow? <==>
            && BuildWorkflowPrefilter(caps).Matches(store.workflows[id])
            && !SessionBlocks(WorkflowView, store.workflows[id].org, ctx)
    ensures ctx.authMethod != Policies.API_KEY ==>
              (Ask(store, caps, subject, refs, WorkflowView, WorkflowUid(id), ctx).Allow? <==>
               BuildWorkflowPrefilter(caps).Matches(store.workflows[id]))
  {
    AskAllows(store, caps, subject, refs, WorkflowView, WorkflowUid(id), ctx);
    MatchesGrants(caps, id, store.workflows[id]);
  }

  // An empty filter means there is nothing to show, in any store and any session.
  lemma EmptyMeansNothing(store: Store, caps: CapabilitySlice, subject: Subject, refs: set<Uid>, id: Id,
                          ctx: Engine.AuthzContext)
    requires id in store.workflows && WorkflowUid(id) in refs
    requires BuildWorkflowPrefilter(caps).IsEmpty()
    ensures !Ask(store, caps, subject, refs, WorkflowView, WorkflowUid(id), ctx).Allow?
  {
    PrefilterExact(store, caps, subject, refs, id, ctx);
  }
}
