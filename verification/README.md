# Entity Workflows: authorization, invariants and listing, verified

A Dafny model of the parts of the service whose correctness does not fit in one function:

- **The advisory-lock protocol** that keeps organizations and teams manageable
  (`Tables`, `Consistency`, `Effects`, `Database`, `Locking`, `Serial`, `Safety`, `Progress`). The six
  PL/pgSQL functions, the direct inserts and their triggers are written twice: as methods over
  mutable tables (`Database`), and as concurrent transactions that take one statement at a time
  under Read Committed with transaction-level advisory locks (`Locking`; PostgreSQL 17, sections
  13.2.1 and 13.3.5). Both are related to the atomic versions in `Tables`, and `Effects` says of each of
  those, row by row, what it is refused with and which rows are there afterwards. The invariant says that a
  guard which passed still passes when its transaction writes; it is proved by showing what each write
  spares (`Spares`) and that this is all another transaction relies on.
- **The authorization core** (`Cedar`, `CapRefs`, `Policies`, `EntitySlices`, `Engine`,
  `EntityProvider`, `Meaning`, `Decisions`). A Cedar evaluator with failing attribute access, the
  twenty policies as data, entities built and marshalled as the provider does. `Meaning` proves
  what each policy says over such entities; `Decisions` draws the consequences.
- **Where the two meet** (`Administration`, `Permissions`): the administrators the SQL guards count are the
  people the engine lets govern, so every interleaving of the calls leaves an organization with someone whom
  the engine allows every administrative action. The permission matrix gives the exact decision on each
  action, policy named included, from the membership rows alone; from it follows what a committed call
  changes for the person it is about, and that it changes nothing for anybody else.
- **The request gate** and the explain endpoint (`Gate`), **API keys** (`ApiKeys`), the
  **listing pre-filter** (`Prefilter`).
- **Keyset pagination after authorization** (`Listing`, `Walks`, `WorkflowsRoute`): the refill loop,
  and whole walks along `next_cursor`, on a fixed database and while everything changes.
- **The backoff limiter** of the password exchange (`RateLimiter`).

`dafny verify dfyconfig.toml` checks the project.

What did not turn out as the documentation suggests:

- Row 12 of the assumption table in the repository's README says removing the last team admin is
  blocked; row 20 admits one exception. `Safety.StrandsExactly` gives all of them: the calls that take a
  team's last administrator away are exactly the cascade of an organization removal, a super-admin's
  override, and deleting the team. `Safety.TeamLosesItsLastAdmin` is a run that does it, and
  `Administration.StrandedTeamIsRepairable` says that somebody can always repair it.
- A key scoped to `workflow:run` alone passes no gate: the gate first asks whether the key may *see* the
  resource, which takes `workflow:read` (`Gate.KeysNeedReadScope`). It can only run what is published, through
  the public route.
- A user who leaves an organization is cut off from its workflows because the route files each one under a team
  of its own organization (src/app/api/routers/workflows.py:94-101); no constraint of the tables says so, and
  `Permissions.RemovalRevokesWorkflows` gives the exact exception.
- The listing route bounds `limit` only from above. A limit of zero ends a walk at once with nothing, and a
  negative limit fails unless the filter is empty (`WorkflowsRoute.LimitBelowOne`). The walk theorems are for
  limits of at least one; at zero they hold only when nothing is viewable
  (`WorkflowsRoute.ZeroLimitShowsNothing`).

## Model

| member | source | states |
|---|---|---|
| Database.Database.RemoveOrgMember | supabase/migrations/20260820000400_invariants.sql:6-40 | the counted guard, the cascade out of the organization's teams and the removal have together the atomic effect and error code, and keep the tables consistent |
| Database.Database.ChangeOrgRole | supabase/migrations/20260820000400_invariants.sql:42-69 | guarded only when the new role drops manage_org; atomic effect and code, trigger objections included; what that effect is says Effects.ChangeOrgRoleDoes |
| Database.Database.RemoveTeamMember | supabase/migrations/20260820000400_invariants.sql:71-109 | default team refused first, then the last administrator unless overridden; atomic effect and code |
| Database.Database.ChangeTeamRole | supabase/migrations/20260820000400_invariants.sql:111-144 | guarded only for demotions without the override; atomic effect and code |
| Database.Database.DeleteTeam | supabase/migrations/20260820000400_invariants.sql:146-164 | default team refused; the team goes with its memberships |
| Database.Database.DeleteRole | supabase/migrations/20260820000400_invariants.sql:166-193 | a role in use, a built-in or a missing role is refused with ZA004 |
| Consistency.OrgRoleCheckIsExact | supabase/migrations/20260820000200_triggers.sql:16-32 | the trigger and the foreign key let through exactly the roles that keep every organization membership in order: right scope, built in or owned by the organization |
| Consistency.TeamRoleCheckIsExact | supabase/migrations/20260820000200_triggers.sql:34-51 | so do those of the team memberships, with the owner of the team |
| Database.Database.JoinDefaultTeam | supabase/migrations/20260820000200_triggers.sql:55-71 | the new member sits in the organization's one default team, with the role it already had there or as viewer |
| Database.Database.InsertOrgMembership | src/app/api/routers/orgs.py:59-72 | the direct insert with its triggers and constraints, in the order PostgreSQL raises them |
| Database.Database.InsertTeamMembership | src/app/api/routers/teams.py:171-184 | the direct insert with its trigger and constraints |
| Database.Database.InsertTeam | supabase/migrations/20260820000200_triggers.sql:77-95 | a team appears together with its creator as administrator |
| Database.Database.InsertOrganization | supabase/migrations/20260820000600_default_team.sql:13-24 | an organization appears together with its default team |
| Database.CountsOrgAdmins | supabase/migrations/20260820000400_invariants.sql:17-24 | the count is zero exactly when nobody else in the organization carries manage_org |
| Database.CountsUses | supabase/migrations/20260820000400_invariants.sql:175-179 | the sum of the two counts is positive exactly when some membership has the role |
| Consistency.AtomicKeepsConsistent | supabase/migrations/20260820000200_triggers.sql:15-71 | every call keeps: one default team per organization with all members in it, built-in roles in place, each membership's role of the right scope and built in or owned by the organization |
| Effects.RemoveOrgMemberDoes | supabase/migrations/20260820000400_invariants.sql:6-40 | ZA001 exactly when nobody else carries manage_org; otherwise the user's seat in the organization and all its seats in the organization's teams are gone, whatever the roles, and every other row is as before |
| Effects.ChangeOrgRoleDoes | supabase/migrations/20260820000400_invariants.sql:42-69 | the refusals in their order; otherwise the seat, if there is one, has exactly the new role and every other row is as before |
| Effects.RemoveTeamMemberDoes | supabase/migrations/20260820000400_invariants.sql:71-109 | ZA003 for the default team, then ZA002 for the last administrator without the override; otherwise that seat is gone and no other |
| Effects.ChangeTeamRoleDoes | supabase/migrations/20260820000400_invariants.sql:111-144 | the refusals in their order; otherwise the seat, if there is one, has exactly the new role and every other row is as before |
| Effects.OnesOwnSeatsOnly | supabase/migrations/20260820000400_invariants.sql:30-39 | refused or not, a removal or a role change leaves the seats of everybody else as they were |
| Effects.DeleteTeamDoes | supabase/migrations/20260820000400_invariants.sql:146-164 | ZA003 for the default team; otherwise the team and all seats in it are gone and nothing else |
| Effects.DeleteRoleDoes | supabase/migrations/20260820000400_invariants.sql:166-193 | ZA004 exactly for a role that is assigned somewhere, missing or built in; otherwise the role is gone and nothing else |
| Effects.AddOrgMemberDoes | supabase/migrations/20260820000200_triggers.sql:55-71 | the refusals in their order; otherwise the member has the role in the organization and, unless it was there already, sits in the default team as viewer; nothing else changes |
| Effects.AddTeamMemberDoes | supabase/migrations/20260820000200_triggers.sql:34-51 | the refusals in their order; otherwise the member has the role in the team and nothing else changes |
| Effects.CreateTeamDoes | supabase/migrations/20260820000200_triggers.sql:77-95 | the team is there, not default, with its creator seated as administrator; nothing else changes |
| Effects.CreateRoleDoes | src/app/api/routers/roles.py:54-74 | the role is there, owned by the organization, of the given scope and without capabilities; nothing else changes |
| Effects.GrantCapabilitiesDoes | src/app/api/routers/roles.py:73-75 | the role gains exactly the listed capabilities, all or nothing; nothing else changes |
| Effects.CreateOrgDoes | supabase/migrations/20260820000600_default_team.sql:13-24 | the organization is there with one team, General, which is its default team; nothing else changes |
| Locking.GuardSurvives | supabase/migrations/20260820000400_invariants.sql:10-15 | a guard that passed under its locks still passes after any write that does not hold them, unlocked promotions, inserts and growing roles included |
| Locking.WriteSpares | supabase/migrations/20260820000400_invariants.sql:79-86 | what the write of each call, made with the locks it holds, leaves alone for all others |
| Locking.NextLocks | supabase/migrations/20260820000400_invariants.sql:79-86 | after every step the lock table agrees with the positions of the transactions, so no key has two holders |
| Serial.NextKeepsInv | supabase/migrations/20260820000400_invariants.sql:1-193 | every step of every transaction keeps the invariant |
| Serial.StepIsAtomic | supabase/migrations/20260820000400_invariants.sql:1-4 | the tables only ever change by the committed atomic effect of the call that steps |
| Serial.StepOutcome | supabase/migrations/20260820000400_invariants.sql:1-4 | with the role tables fixed a call ends exactly as it would have alone at that point: successes at their write, failed guards at their count |
| Serial.Serializable | supabase/migrations/20260820000400_invariants.sql:1-4 | every interleaving that leaves the role tables alone equals a serial run: same tables, same error codes |
| Serial.EffectsSerializable | supabase/migrations/20260820000400_invariants.sql:166-193 | with roles created, extended and deleted alongside, the tables are still those of a serial run of the calls that changed them |
| Serial.LogIsHistory | supabase/migrations/20260820000400_invariants.sql:1-4 | the serial run lists each transaction that ended once, with its own call and outcome |
| Safety.OrgNeverLosesItsAdmins | supabase/migrations/20260820000400_invariants.sql:17-68 | in every interleaving an organization with a manage_org member never again has none |
| Safety.ReachableIsConsistent | supabase/migrations/20260820000200_triggers.sql:53-71 | the consistency of the tables holds in every reachable state |
| Safety.GuardedChangeLeavesTeamAdmin | supabase/migrations/20260820000400_invariants.sql:94-143 | a removal or demotion without the override leaves another manage_members holder in the team at the moment it commits |
| Safety.StrandsExactly | README.md:120-128 | a step takes a team's last administrator away if and only if it is the write of a stranding call: the organization cascade, an override, or deleting the team |
| Safety.RemovalStrands | supabase/migrations/20260820000400_invariants.sql:15-39 | wherever the only administrator of a team can be removed from the organization at all, the four statements of that removal leave the team without one |
| Safety.TeamLosesItsLastAdmin | README.md:120 | such a run exists: consistent tables, one call, no override, and a team that stays loses its last administrator |
| Safety.StrandedTeamHasOrgAdmin | src/app/api/routers/teams.py:220-241 | when a step strands a team that stays, however stale the override flag, its organization has an administrator at that moment, and the actor of an override was one when the flag was read |
| Progress.NoDeadlock | supabase/migrations/20260820000400_invariants.sql:83-86 | in every reachable state with a transaction still running some transaction can step |
| Progress.RunsAreShort | supabase/migrations/20260820000400_invariants.sql:83-86 | a run is never longer than the phases its transactions have left |
| Progress.EveryBatchEnds | supabase/migrations/20260820000400_invariants.sql:83-86 | a batch takes at most seven steps per transaction, and a run that cannot be extended has ended them all |
| CapRefs.CapRefInjective | packages/authz-core/src/authz_core/entities.py:35-36 | the text capability:level:id names each capability group once |
| Cedar.InIsReachability | packages/authz-core/src/authz_core/engine.py:39-54 | `in` over the entity hierarchy is exactly reachability along parent edges |
| Meaning.ActionIsIn | packages/authz-core/src/authz_core/engine.py:39-54 | over the store of any slice an action is in itself and in exactly the groups that list it |
| Meaning.ResourceIsIn | packages/authz-core/src/authz_core/entities.py:39-165 | over the store of any slice a team is in its organization and in nothing else, a workflow in nothing, and the workflow names its team |
| EntitySlices.AttrsConform | packages/authz-core/src/authz_core/schema.py:30-57 | every entity carries exactly the attributes the schema declares for its type |
| EntitySlices.SliceToCedar | packages/authz-core/src/authz_core/entities.py:154-165 | the marshalled list has exactly one entry per entity of the slice, capabilities and unseen organizations included, each with its attributes and parents |
| EntityProvider.Provider.CapabilitySliceOf | src/app/infra/entity_provider.py:75-128 | answers with the remembered slice or the one the membership rows grant, remembers it, and forgets no other |
| EntityProvider.Provider.FoldRows | src/app/infra/entity_provider.py:110-124 | folding the rows one by one grants in each place exactly the capabilities of the role held there |
| EntityProvider.Provider.SliceFor | src/app/infra/entity_provider.py:162-234 | the slice is the one of the requested resources that exist, the principal's capabilities and organizations, and the groups of SliceDefines |
| EntityProvider.SliceDefines | src/app/infra/entity_provider.py:216-228 | a slice defines the principal's own groups, every group of the team of a workflow or team in it, and the administrators of each organization met; of an organization's other groups exactly those the principal is in |
| Engine.AuthorizeBatch | packages/authz-core/src/authz_core/engine.py:121-142 | each position of the batch is the single decision on that resource |
| Engine.NoFailOpen | packages/authz-core/src/authz_core/engine.py:87-101 | over arbitrary policies and entities an Allow of the engine is an Allow under the reading in which a forbid that cannot be evaluated denies, and the converse fails only for a failing permit |
| Meaning.HeldMeans | src/app/infra/entity_provider.py:44-47 | a capability group is among the principal's references exactly when the slice grants it there |
| Meaning.PolicyMeans | packages/authz-core/src/authz_core/policies/core.cedar:5-58 | over an entity store that shows the principal's standing none of the twenty policies fails to evaluate, and each applies exactly when its meaning says |
| Meaning.SingleOrgMeans | packages/authz-core/src/authz_core/policies/extras.cedar:30-33 | the forbid applies to keys of another organization and to keys without one |
| Meaning.ScopeCheckMeans | packages/authz-core/src/authz_core/policies/extras.cedar:37-41 | the forbid applies to keys without the scope of the action |
| Meaning.OrgMembersOnlyMeans | packages/authz-core/src/authz_core/policies/extras.cedar:18-20 | the forbid applies to non-members of a restricted workflow's organization |
| Meaning.SliceDecides | packages/authz-core/src/authz_core/engine.py:103-119 | over a slice the engine's decision, policy named included, is the one computed from the principal's standing at the resource |
| Meaning.PlainVerdictFailsOpen | packages/authz-core/src/authz_core/engine.py:87-89 | were evaluation errors not checked first, running the export of a missing workflow would be allowed to every session without an API key, against the forbids that cannot be evaluated |
| Decisions.AskDecides | src/app/infra/entity_provider.py:162-234 | the same of the slices the provider builds, whatever else they were built for |
| Decisions.AskAllows | packages/authz-core/src/authz_core/policies/core.cedar:5-58 | totality on every declared pair of action and resource type, and the closed form of when it is allowed |
| Decisions.DecisionNames | packages/authz-core/src/authz_core/engine.py:91-101 | every decision on a declared pair with the policy it names: which forbid when several apply, the action's own permit before the administrator's except for views, and none when nothing applies |
| Decisions.RunExportedAllows | packages/authz-core/src/authz_core/policies/extras.cedar:7-20 | without a key, running a published workflow is allowed exactly when its export row says is_exported, its password hash, if any, has been met, and org_only implies membership; administrators included |
| Decisions.AnonymousOnlyRunsExported | README.md:116 | an anonymous caller is never allowed anything but to run a published workflow from outside |
| Decisions.AbsentIsError | packages/authz-core/src/authz_core/engine.py:87-89 | a workflow or team without a row is an engine error for every action, never an Allow nor a Deny |
| Decisions.TenantLocality | packages/authz-core/src/authz_core/entities.py:35-36 | the decision depends on what is held at the resource's own team and organization only; manage_org elsewhere or on a team role, other rows and even the principal's identity change nothing |
| Decisions.Monotone | packages/authz-core/src/authz_core/policies/core.cedar:5-58 | more capabilities or memberships never turn an Allow into anything else |
| Decisions.SessionRefinement | packages/authz-core/src/authz_core/policies/extras.cedar:22-41 | an API key may do exactly what its owner may do in person, outside governance, in the key's organization and within its scopes |
| Decisions.KeysReadWithRead | packages/authz-core/src/authz_core/actions.py:99-103 | a key views an organization, team or workflow exactly when its owner may, in its organization, and it has "workflow:read" |
| Decisions.KeysRunWithRun | packages/authz-core/src/authz_core/actions.py:104-105 | a key runs a workflow, its own or a published one, exactly when its owner may, in its organization, and it has "workflow:run"; one that only reads never does |
| Decisions.KeysWriteWithWrite | packages/authz-core/src/authz_core/actions.py:107-111 | a key changes workflows exactly when its owner may, in its organization, and it has "workflow:write" |
| Decisions.KeysNeverGovern | packages/authz-core/src/authz_core/actions.py:38-53 | none of the twelve governance actions is ever allowed to a key, whatever its scopes |
| Decisions.SeededKeysReadOrRun | packages/authz-core/src/authz_core/actions.py:92-112 | with the scopes that can be granted a key is only ever allowed the six read and run actions |
| Decisions.SliceExtension | packages/authz-core/src/authz_core/engine.py:121-142 | a batch over one slice for many resources decides on each as the slice built for it alone |
| Administration.OrgGuardsCountGovernors | supabase/migrations/20260820000400_invariants.sql:17-22 | the organization guards count exactly the users the engine lets add, remove and re-role members |
| Administration.TeamGuardsCountGovernors | src/app/api/routers/teams.py:56-71 | those of the teams do too, up to the organization's administrators, for whom the override flag is set |
| Administration.OrgAdminGoverns | packages/authz-core/src/authz_core/policies/core.cedar:54-58 | a manage_org member is allowed every administrable action on every resource of the organization, and nobody else is |
| Administration.OrgStaysGoverned | README.md:109 | through every interleaving an organization that somebody governs in the engine's eyes stays governed |
| Administration.StrandedTeamIsRepairable | README.md:128 | whenever a step strands a team that stays, the engine lets somebody appoint a new administrator at once |
| Permissions.WorkflowMatrix | packages/authz-core/src/authz_core/policies/core.cedar:13-36 | the exact decision in person on each action on a workflow, from the roles of two rows: the seat in the workflow's team and the one in its organization |
| Permissions.TeamMatrix | packages/authz-core/src/authz_core/policies/core.cedar:9-41 | the same for each action on a team |
| Permissions.OrgMatrix | packages/authz-core/src/authz_core/policies/core.cedar:43-58 | the same for creating teams, roles and keys in an organization |
| Permissions.MembershipMatrix | packages/authz-core/src/authz_core/policies/core.cedar:5-7 | any member sees the organization; only its manage_org members add, remove and re-role members |
| Permissions.StrangersMayNothing | README.md:113 | who has no seat in the organization nor in the team is denied everything, and no policy is named |
| Permissions.SignedInGate | src/app/api/deps.py:230-352 | the gate answers a signed-in user 404 for what is absent or may not be seen, 403 for what may be seen but not done, and lets through the rest, as the matrix says |
| Permissions.OthersKeepTheirPower | supabase/migrations/20260820000400_invariants.sql:1-144 | a removal or role change, refused or not, changes no decision about anybody else, whatever the action and the resource |
| Permissions.OrgRoleTakesEffect | supabase/migrations/20260820000400_invariants.sql:42-69 | after a committed change to a role the engine lets the member govern the organization exactly when that role carries manage_org |
| Permissions.RemovalRevokes | README.md:110 | after a committed removal from an organization the engine denies the user every administrable action on it and on its teams |
| Permissions.RemovalRevokesWorkflows | README.md:110 | and on its workflows, except exactly on those filed under a team of another organization in which the user holds the capability |
| Permissions.TeamRoleTakesEffect | supabase/migrations/20260820000400_invariants.sql:111-144 | after a committed change of a team role the engine lets the member do to the team's workflows what the role carries, besides what its organization role gives |
| Permissions.TeamRemovalRevokes | supabase/migrations/20260820000400_invariants.sql:71-109 | after a committed removal from a team the user keeps there exactly what administering the organization gives |
| Permissions.NewMembersView | supabase/migrations/20260820000200_triggers.sql:53-71 | a new member may do in the default team exactly what a viewer may, unless it administers the organization |
| Permissions.CreatorsManage | README.md:123 | whoever creates a team may manage its members at once |
| Prefilter.PrefilterExact | src/app/infra/prefilter.py:20-45 | the filter passes exactly the workflows the engine lets be viewed in person, and for an API key those plus the ones its session is barred from |
| Prefilter.EmptyMeansNothing | src/app/infra/prefilter.py:20-21 | an empty filter means nothing is allowed |
| Gate.RequestState.CheckRequires | src/app/api/deps.py:222-352 | the dependency ends, audits and records on the request as the ruling says |
| Gate.TrailMatchesAnswer | src/app/api/deps.py:190-348 | the trail tells what the client was told and what it was not: behind a 403 the denial of the action with its policy, behind the 404 of something that exists the denial of seeing it, behind a 500 the engine's error |
| Gate.GateKeepsPromises | src/app/api/deps.py:230-352 | 401 for anonymous callers, 404 when the resource is missing or cannot be seen, 403 when the action is not allowed, success otherwise; never 500 for a route's action |
| Gate.KeySessions | src/app/auth/principal.py:7-10 | a session counts as a key's, for the policies that restrict keys, exactly when its principal was authenticated with one |
| Gate.ExplainAgreesWithGate | src/app/api/routers/authz.py:51-102 | explain answers Allow, Deny or a refusal exactly where the gate lets through, gives 403 or fails, with the same policy |
| Gate.AuditedOnce | src/app/infra/audit.py:44-52 | a request that reaches a decision queues exactly one audit task, for the decision that settled it, except for a permitted workflow.view or workflow.list; any other queues none |
| Gate.HiddenFromOutsiders | README.md:113 | every action on a resource looks as if it did not exist exactly to outsiders and to keys barred from viewing it |
| Gate.KeysNeedReadScope | src/app/api/deps.py:273-309 | a key without workflow:read gets 404 from every gate |
| Gate.KeysNeedActionScope | packages/authz-core/src/authz_core/actions.py:92-112 | a key let through has "workflow:read" and the scope of the action by its literal text; none is let through to a governance action |
| Gate.PublishedRuns | src/app/api/routers/public.py:176-221 | the public route answers 404 for absent workflows, runs one whose export row says is_exported for anyone who meets its password and membership terms (and, with a key, its organization and "workflow:run"), and gives 403 otherwise, without an export row too; never 500 |
| ApiKeys.SplitUndoesMint | src/app/auth/api_key.py:23-35 | splitting undoes minting exactly for prefixes without an underscore, whatever the secret holds |
| ApiKeys.KeyStandsForOwner | src/app/auth/api_key.py:62-85 | whatever the header, it is accepted exactly when it is the minted text of a key whose row is live and whose secret matches, and then stands for its owner with the row's organization and scopes |
| Listing.QueryFinds | supabase/config.toml:18 | a batch skips no row up to its last one, and a short batch is the end of the table, as long as the batch size is within the server's cap |
| Listing.PageIsSound | src/app/api/routers/workflows.py:144-210 | a page has at most limit rows in id order above the cursor, each allowed while it was built, and its cursor advances |
| Listing.PageCovers | src/app/api/routers/workflows.py:189-205 | a page misses nothing up to its cursor, or nothing at all when it has none |
| Listing.PageCost | src/app/api/routers/workflows.py:64-69 | at most five queries and fifteen times limit rows a request, also when the engine fails on one of them |
| Listing.PageFills | src/app/api/routers/workflows.py:144-205 | a page with a live cursor has exactly limit rows, unless five queries and fifteen times limit rows were spent; then it has every row that survived |
| Listing.FixedPage | src/app/api/routers/workflows.py:144-205 | on a fixed table a page has exactly the first limit allowed rows among the first fifteen times limit matching ones, and its cursor is given where those fall short |
| Listing.ExactPage | src/app/api/routers/workflows.py:144-205 | where every matching row is allowed the page is the first limit rows, with a cursor exactly when there are more |
| WorkflowsRoute.LimitBelowOne | src/app/api/routers/workflows.py:128-205 | what the route answers to the limits it fails to reject, empty filter included |
| WorkflowsRoute.ZeroLimitShowsNothing | src/app/api/routers/workflows.py:128-196 | a walk that starts with limit zero ends at once, and is exact exactly when nothing is viewable |
| Walks.WalkIsSound | src/app/api/routers/workflows.py:153-205 | the ids of a walk are strictly increasing whatever changes meanwhile, and each was allowed when its page was built |
| Walks.WalkIsComplete | src/app/api/routers/workflows.py:189-205 | a walk that met a null cursor has returned every row allowed throughout |
| Walks.WalkEnds | src/app/api/routers/workflows.py:189-205 | on a fixed table a walk meets a null cursor within one page more than there are matching rows |
| Walks.FixedWalk | src/app/api/routers/workflows.py:153-205 | on a fixed table it returns exactly the matching allowed rows, in order and each once |
| WorkflowsRoute.ListWorkflows | src/app/api/routers/workflows.py:122-210 | the handler with its provider, filter, engine and loop answers with the page of the abstract loop over the rounds it meets |
| WorkflowsRoute.RefillLoop | src/app/api/routers/workflows.py:144-187 | the loop computes the abstract scan, stopping on an engine failure |
| WorkflowsRoute.EmptyFilterFindsNothing | src/app/api/routers/workflows.py:136-138 | the shortcut for an empty filter changes no answer |
| WorkflowsRoute.PageOnFixed | src/app/api/routers/workflows.py:135-210 | one page of a fixed database, for any caller: the first limit viewable workflows among the first fifteen times limit that pass the filter |
| WorkflowsRoute.PageInPerson | src/app/api/routers/workflows.py:135-210 | in person it is the next limit viewable workflows or all that are left, with a cursor exactly when more are |
| WorkflowsRoute.BrowseIsExact | src/app/api/routers/workflows.py:135-210 | on a fixed database following next_cursor to null returns exactly the workflows of the whole table the engine lets the caller view, in id order and each once, in person and with a key |
| WorkflowsRoute.BrowseEnds | src/app/api/routers/workflows.py:135-210 | and gets there within one page more than there are workflows |
| WorkflowsRoute.BrowseUnderChange | src/app/api/routers/workflows.py:153-205 | with anything changing between and during requests, ids stay strictly increasing, each was viewable when judged, and a completed walk has every workflow viewable throughout |
| WorkflowsRoute.ListAgreesWithGate | src/app/api/routers/workflows.py:171-184 | the list shows exactly what the gate of the single workflow lets the caller open |
| RateLimiter.Limiter.Check | src/app/api/routers/public.py:70-73 | lets through exactly from the end of the pause on, else says how long is left |
| RateLimiter.Limiter.RecordFailure | src/app/api/routers/public.py:75-79 | one failure more and the pause that goes with it from now; no other key changes |
| RateLimiter.Limiter.RecordSuccess | src/app/api/routers/public.py:81-83 | the key is as if never used; no other key changes |
| RateLimiter.Limiter.Exchange | src/app/api/routers/public.py:123-154 | limited exactly before the pause is over, and then nothing changes; else granted exactly with a matching password and a hash, which clears the key, and otherwise denied, which counts one failure more; no other key changes |
| RateLimiter.AnswersAreRight | src/app/api/routers/public.py:123-148 | the same of every exchange of every run |
| RateLimiter.PausesDouble | src/app/api/routers/public.py:75-79 | each further failure doubles the pause up to the maximum |
| RateLimiter.ShippedPauses | src/app/api/routers/public.py:64-79 | with base 1 and maximum 60 the pauses are 1, 2, 4, 8, 16, 32 and then 60 seconds |
| RateLimiter.BackoffBound | src/app/api/routers/public.py:64-83 | in any run a key reaches its (n+1)-st comparison without an earlier success, itself successful or not, no earlier than the first n pauses after its first failure |
| RateLimiter.ShippedBound | src/app/api/routers/public.py:64-68 | with base 1 and maximum 60, more than six comparisons up to the first success take at least 63 seconds and a minute for each further one |
| RateLimiter.KeysAreIndependent | src/app/api/routers/public.py:67-68 | what the limiter holds for a key does not depend on other keys |
| RateLimiter.SuccessResets | src/app/api/routers/public.py:81-83 | after a success the curve starts anew |
| RateLimiter.WaitIsCapped | src/app/api/routers/public.py:70-79 | nobody is told to wait longer than the maximum |
| RateLimiter.PatienceIsServed | src/app/api/routers/public.py:70-79 | once the maximum has passed since the last use, the exchange is served |

## Left out

- Row locks and the finer interleaving of the two deletes inside `remove_org_member`: the write and the
  commit of a transaction are one step. An unlocked insert into one of the organization's teams could land
  between the deletes; the guarantees about team administrators are for the order in which writes commit.
- Two different ids are taken to hash to different advisory keys, and an organization, team and role id never
  to share one.
- Deleting users or organizations and manual SQL: not steps of this application.
- The error codes of `Serial.Serializable` are claimed for batches that leave the role tables alone; for the
  tables themselves `Serial.EffectsSerializable` needs no such condition.
- Workflow and API-key rows that go when their team or role goes: workflows are a table of their own here, and
  change freely between the moments of a listing request.
- How cedarpy parses policies and why its errors carry the text they do; the evaluation rules the policies
  use are modelled, and policies are numbered in the order `load_policies` joins their files.
- Pairs of action and resource type the schema does not declare: no claim beyond `Engine.NoFailOpen`.
- `_build_action_entities` fills a list in a loop; here it is the map it fills.
- `EntityProvider.Provider.SliceFor` holds resources in a set; a reference to the same organization twice in
  one call, which no route makes, would put two entries on the original's list.
- EntityProvider.Provider.FoldRows: the server's cap of 1000 rows, which the listing model has, also cuts the two
  membership queries of the original; the contract is for users with at most 1000 seats of a kind.
- Gate.GateKeepsPromises, Gate.ExplainAgreesWithGate, Gate.HiddenFromOutsiders: ids are ids, not texts. `requires`
  takes the path text as it is (src/app/api/deps.py:62) and compares it with the text of the row
  (src/app/api/deps.py:270), so a spelling that is not the canonical lower-case one of a visible resource is
  404 at the gate; `explain` canonicalizes. The results are for canonical spellings.
- Subjects that are neither a uuid nor "anonymous". Uuids are numbers, ordered as PostgreSQL orders them;
  in capability texts they are written in hexadecimal without dashes.
- Argon2, JWT signing and verification, JWKS: whether a password or a secret matches is an input.
- Floating point in the limiter: times are reals, and the conversion of very large powers of two to a float is
  outside the model. The limiter is per process, as in the original.
- `_client_ip`: the client part of a limiter key is an input.
- The contents of rows other than what authorization reads: a listed row is its id.
- The body of an explanation beyond the decision and the policy.
- Rendering the filter for PostgREST, FastAPI wiring, settings, seeds, the command line, error envelopes,
  lookups of roles by name.
