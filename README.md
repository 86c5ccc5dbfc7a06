# Workflow planning, execution and platform services, in Dafny

This project models the core of an ontology-driven low-code platform. The core has four backend parts and one frontend part:

- **The workflow engine.** It has six step functions over a workflow state, a router, and two graphs: the general workflow and the CRUD workflow. Each run starts at `start`, validates its input, runs one action node and accumulates outputs and an execution trace.
- **The agents service.**
  - The execution lifecycle of a workflow run: PENDING, RUNNING, COMPLETED or FAILED.
  - The session context and history updates.
  - The autonomous planner. From the entities, their relations and rules, it generates five CRUD workflows per entity, one relationship workflow per relation, one rule workflow per rule, and one cross-entity workflow per related pair of entities.
- **The error monitor.** It keeps a buffer of at most 1000 reports and per-key occurrence counters in a five-minute window. It fires named threshold alerts and answers two queries: the recent errors and a summary. It purges reports by age.
- **The request guards.** The permission guard admits a user who holds one of a route's required permissions. The rate limiter skips some paths and charges every other request to a client-address-and-user key.
- **The frontend application store.** It holds lists of entities, properties, relations, actions, rules, workflows, sessions and conversations, plus the selected or active element of some of them. It has one action per update.

Each module follows one source file. `GraphEngine`, `Planner`, `Store`, `PermissionGuard` and `RateLimit` are pure functions and lemmas.

- **`AgentsService.Service`** is a class. Its repositories are fields: workflows by id, sessions by session id, and the sequence of execution records saved.
- **`ErrorMonitoring.ErrorMonitor`** is a class. Its fields are the report buffer, the alert configs in insertion order, the counters, and the alerts fired.
- **The planner's loops** are methods proved equal to specification functions.

Clocks, generated ids and tool failures are parameters:

- `now`, `id`
- `StepEnv.fault`: the message a tool throws, or none.

The general workflow as the service calls it: `executeWorkflow(workflow.definition, inputs)` (`agents.service.ts:67`) passes the stored definition as the engine's `operation`. A definition object is never one of the router's operation names. So the router falls back to `validate-input`, which is not a key of the conditional-edge map, and every run of a found workflow ends FAILED with the routing error. `AgentsService.ExecutionWithEngine` states this.

Where the code's behaviour may be surprising, the model follows the code:

- A step that throws does not halt the run. Every step function catches its tool's error: it records a `failed` trace entry, sets `error`, and returns normally. The run then goes on to the next node, and the service records COMPLETED for a run whose validation failed (`GraphEngine.ValidationFailureDoesNotHalt`).
- An unknown operation routes to `validate-input`, which is not a branch of the conditional map. The model ends the run with the error `Unknown route target: validate-input`. The graph library's own message is not part of this model.
- The completed execution record copies `result.trace` (`agents.service.ts:71`), but the engine's state has no `trace` property; its trace is `executionTrace`. So the saved record's trace is undefined, and the model leaves it `None` while the engine's own trace has its entries (`AgentsService.ExecutionRunLifecycle`, `AgentsService.ExecutionWithEngine`).
- The planner reads `entityWithRelations.rules`, but the entity definition class declares no `rules` relation, so with the real repository that loop never runs. The model takes each entity's rules as an input; an empty list gives the repository's behaviour.

## Model

| member | source | states |
|---|---|---|
| GraphEngine.Merge | backend/src/modules/agents/workflow/graph-engine.ts:320-329 | a node's partial update replaces exactly the channels it returns (trace, current step, and outputs and error when present); inputs and context are kept |
| GraphEngine.Invoke | backend/src/modules/agents/workflow/graph-engine.ts:25-85 | a tool call succeeds iff no failure is injected; a failure carries the thrown message |
| GraphEngine.RunStep | backend/src/modules/agents/workflow/graph-engine.ts:87-299 | a step appends exactly one trace entry, for its own id with the clock reading, after the unchanged earlier trace; success is `completed` with no error; a thrown error is `failed` with the message, sets `error`, and returns no outputs |
| GraphEngine.RunStepOutputs | backend/src/modules/agents/workflow/graph-engine.ts:87-299 | a successful step's trace entry holds the tool's result and no error; validation leaves the outputs as they were; find, apply and execute each add exactly `foundEntities`, `ruleResults` or `actionResult` with the tool's answer and keep every other output |
| Common.NatToDecimalSpells | backend/src/modules/agents/workflow/graph-engine.ts:39 | the digits written for a number spell that number, so `entity_<now>` names the clock reading |
| GraphEngine.FailedStepKeepsOutputs | backend/src/modules/agents/workflow/graph-engine.ts:101-115 | after a failed step the merged state has the old outputs and the step's error |
| GraphEngine.CreateEntityOutputs | backend/src/modules/agents/workflow/graph-engine.ts:119-154 | a successful create adds exactly `createdEntity` (the input data) and `entityId` (`entity_<now>`) and keeps every other output |
| GraphEngine.UpdateEntityOutputs | backend/src/modules/agents/workflow/graph-engine.ts:156-191 | a successful update adds exactly `updatedEntity` (the input data) and `entityId` (the input id) and keeps every other output |
| GraphEngine.RouteNextStep | backend/src/modules/agents/workflow/graph-engine.ts:302-317 | create, update, search and apply-rules route to their action node; any other operation routes to `validate-input` |
| GraphEngine.RouteResultIsEdgeKey | backend/src/modules/agents/workflow/graph-engine.ts:339-349 | the router's answer is a key of the conditional-edge map iff the operation is recognised, and that key's node has that step id |
| GraphEngine.InitialState | backend/src/modules/agents/workflow/graph-engine.ts:365-378 | a run starts with empty outputs and context, no error, and one completed `start` trace entry |
| GraphEngine.ExecuteWorkflow | backend/src/modules/agents/workflow/graph-engine.ts:360-384 | a run succeeds iff the operation is recognised; then its trace is start, validate-input and the routed node, which is also the current step |
| GraphEngine.UnknownOperationIsRoutingError | backend/src/modules/agents/workflow/graph-engine.ts:313-316 | an unrecognised operation ends in the routing error for `validate-input` |
| GraphEngine.CreateRoutesToCreateEntity | backend/src/modules/agents/workflow/graph-engine.ts:337-350 | `create` runs validate-input then create-entity, and neither the update nor the find node |
| GraphEngine.ExecuteActionNeverRuns | backend/src/modules/agents/workflow/graph-engine.ts:343-354 | the `execute-action` node is in the edge map but no run ever reaches it |
| GraphEngine.ValidationFailureDoesNotHalt | backend/src/modules/agents/workflow/graph-engine.ts:87-117 | a failed validation is recorded but the action still runs, and the final state carries the validation error |
| GraphEngine.CrudOperation | backend/src/modules/agents/workflow/graph-engine.ts:398-426 | the CRUD node dispatches create, read and update to their steps; delete adds `deleted: true` with a completed `crud-operation` entry; any other operation is `Unknown CRUD operation: <op>` |
| GraphEngine.ExecuteCrudOperationOutcome | backend/src/modules/agents/workflow/graph-engine.ts:434-457 | a CRUD run succeeds iff the operation is one of the four, and otherwise fails with the node's message |
| GraphEngine.ExecuteCrudOperationTrace | backend/src/modules/agents/workflow/graph-engine.ts:427-457 | a successful CRUD run records start, validate-input and the operation's step in that order; delete leaves `deleted: true` in the outputs |
| AgentsService.Statuses | backend/src/modules/agents/services/agents.service.ts:44-88 | the statuses of the saved snapshots, one per save, in order |
| AgentsService.ExecutionRunLifecycle | backend/src/modules/agents/services/agents.service.ts:44-88 | a run saves PENDING, then RUNNING if the workflow was found, then COMPLETED with the engine's outputs or FAILED with the error; every snapshot has the run's ids and inputs; no snapshot carries a trace, because `result.trace` is undefined; it completes iff found and the engine succeeded |
| AgentsService.ExecutionEndsCompletedOrFailed | backend/src/modules/agents/services/agents.service.ts:77-87 | a run ends COMPLETED or FAILED; it resolves iff it completed; otherwise it rethrows the not-found or engine error |
| AgentsService.ExecutionWithEngine | backend/src/modules/agents/services/agents.service.ts:66-72 | with the real engine a found workflow completes iff its stored definition is a recognised operation name; a completed record's trace is undefined although the engine's trace has three entries; otherwise it fails with the routing error; an object definition always fails |
| AgentsService.LifecycleAvoidsCancelled | backend/src/modules/agents/services/agents.service.ts:44-88 | no lifecycle passes through CANCELLED or leaves a terminal status |
| AgentsService.MergeContext | backend/src/modules/agents/services/agents.service.ts:114 | the merged context has both key sets; the update wins on shared keys and the other keys are kept |
| AgentsService.MergeContextIdempotent | backend/src/modules/agents/services/agents.service.ts:114 | merging the same update twice equals merging it once; merging an empty update changes nothing |
| AgentsService.Service.constructor | backend/src/modules/agents/services/agents.service.ts:17-26 | the service starts with the given repositories and no executions |
| AgentsService.Service.ExecuteWorkflow | backend/src/modules/agents/services/agents.service.ts:44-88 | the execution repository gains exactly the lifecycle of this run, computed with the stored definition; the workflows and sessions are untouched; the result is the run's outcome |
| AgentsService.Service.UpdateSessionContext | backend/src/modules/agents/services/agents.service.ts:108-118 | a missing or inactive session is an error and changes nothing; otherwise only that session changes, to the merged context and the new time |
| AgentsService.Service.AddMessageToSession | backend/src/modules/agents/services/agents.service.ts:120-130 | a missing or inactive session is an error and changes nothing; otherwise only that session changes: its history gains the message at the end and its time is updated |
| Planner.CreateWorkflow | backend/src/modules/agents/services/agents.service.ts:425-480 | name `create-<lower-case entity name>`, auto-generated, three steps validate-input, create-entity, update-knowledge-graph in a chain |
| Planner.ReadWorkflow | backend/src/modules/agents/services/agents.service.ts:482-525 | name `read-<entity>`, two steps find-entity, format-output in a chain |
| Planner.UpdateWorkflow | backend/src/modules/agents/services/agents.service.ts:527-582 | name `update-<entity>`, steps validate-input, find-existing-entity, update-entity in a chain |
| Planner.DeleteWorkflow | backend/src/modules/agents/services/agents.service.ts:584-638 | name `delete-<entity>`, steps find-entity, check-dependencies, delete-entity in a chain |
| Planner.SearchWorkflow | backend/src/modules/agents/services/agents.service.ts:640-695 | name `search-<entity>`, steps parse-query, search-knowledge-graph, rank-results in a chain |
| Planner.RelationshipWorkflow | backend/src/modules/agents/services/agents.service.ts:209-279 | name `relate-<entity>-<relation>`, entities [entity id, target id], four steps in a fan-out/fan-in diamond |
| Planner.RuleWorkflow | backend/src/modules/agents/services/agents.service.ts:281-327 | name `rule-<entity>-<rule>`, a condition step carrying the rule's condition then the apply step, in a chain |
| Planner.CrossEntityWorkflow | backend/src/modules/agents/services/agents.service.ts:348-417 | name `create-<e1>-with-<e2>`, entities [e1, e2], four steps in a diamond; the main entity's data is the `mainEntityData` input template; the related entity's data is the spread template string plus the `<e1>Id` back-reference; the link step carries the two output-id templates, each with its leading quote, and the first relation's name |
| Planner.GeneratedIsAcyclic | backend/src/modules/agents/services/agents.service.ts:263-276 | every generated graph is acyclic |
| Planner.CreateWorkflowShape | backend/src/modules/agents/services/agents.service.ts:467-477 | the create workflow's graph is a well-formed chain mirroring its steps |
| Planner.ReadWorkflowShape | backend/src/modules/agents/services/agents.service.ts:514-522 | the read workflow's graph is a well-formed chain mirroring its steps |
| Planner.UpdateWorkflowShape | backend/src/modules/agents/services/agents.service.ts:569-579 | the update workflow's graph is a well-formed chain mirroring its steps |
| Planner.DeleteWorkflowShape | backend/src/modules/agents/services/agents.service.ts:625-635 | the delete workflow's graph is a well-formed chain mirroring its steps |
| Planner.SearchWorkflowShape | backend/src/modules/agents/services/agents.service.ts:682-692 | the search workflow's graph is a well-formed chain mirroring its steps |
| Planner.RelationshipWorkflowShape | backend/src/modules/agents/services/agents.service.ts:263-276 | the relationship workflow's graph is a well-formed fan-out/fan-in over its four steps |
| Planner.RuleWorkflowShape | backend/src/modules/agents/services/agents.service.ts:316-324 | the rule workflow's graph is a well-formed chain of its two steps |
| Planner.CrossEntityWorkflowShape | backend/src/modules/agents/services/agents.service.ts:402-415 | the cross-entity workflow's graph is a well-formed fan-out/fan-in over its four steps |
| Planner.CrudWorkflowsGenerated | backend/src/modules/agents/services/agents.service.ts:148-168 | each of an entity's five CRUD workflows is well-formed and acyclic |
| Planner.RelationshipWorkflowsGenerated | backend/src/modules/agents/services/agents.service.ts:178-186 | each relationship workflow of an entity is well-formed and acyclic |
| Planner.RuleWorkflowsGenerated | backend/src/modules/agents/services/agents.service.ts:190-198 | each rule workflow of an entity is well-formed and acyclic |
| Planner.CrossPlanGenerated | backend/src/modules/agents/services/agents.service.ts:329-423 | each cross-entity workflow is well-formed and acyclic |
| Planner.PlanGenerated | backend/src/modules/agents/services/agents.service.ts:132-207 | every workflow of the plan is well-formed and acyclic |
| Planner.RelationsBetweenFirst | backend/src/modules/agents/services/agents.service.ts:341-396 | the relation whose name the link step carries is the earliest relation, in repository order, linking the two entities in either direction |
| Planner.CrossPlanSpec | backend/src/modules/agents/services/agents.service.ts:329-423 | one cross-entity workflow per related pair i < j, each pair once, in row order; a pair is listed iff some relation links the two entities in either direction |
| Planner.CrudPlanLayout | backend/src/modules/agents/services/agents.service.ts:147-168 | five CRUD workflows per entity; entity k's are at positions 5k to 5k+4 in the order create, read, update, delete, search |
| Planner.PlanSize | backend/src/modules/agents/services/agents.service.ts:132-207 | the plan has 5 per entity, plus one per relation and one per rule, plus one per related pair |
| Planner.PlanStartsWithCrud | backend/src/modules/agents/services/agents.service.ts:147-168 | the CRUD workflows come first, entity by entity |
| Planner.GenerateCrossEntityWorkflows | backend/src/modules/agents/services/agents.service.ts:329-423 | the nested pair loop returns exactly the cross-entity plan |
| Planner.PlanCrudWorkflows | backend/src/modules/agents/services/agents.service.ts:147-168 | the first loop returns exactly the CRUD plan |
| Planner.EntityRelationshipWorkflows | backend/src/modules/agents/services/agents.service.ts:177-186 | the relation loop returns one relationship workflow per relation, in order |
| Planner.EntityRuleWorkflows | backend/src/modules/agents/services/agents.service.ts:189-198 | the rule loop returns one rule workflow per rule, in order |
| Planner.PlanRelationRuleWorkflows | backend/src/modules/agents/services/agents.service.ts:170-198 | the second loop returns, entity by entity, the relationship workflows and then the rule workflows |
| Planner.AutonomousPlanning | backend/src/modules/agents/services/agents.service.ts:132-207 | planning returns the CRUD plan, then the relation and rule plan, then the cross-entity plan |
| ErrorMonitoring.Substring | backend/src/common/services/error-monitoring.service.ts:141 | `substring(0, n)` is the prefix of length min(n, length) |
| ErrorMonitoring.ErrorKeyGroups | backend/src/common/services/error-monitoring.service.ts:139-142 | reports agreeing on the first 100 message characters and on the context label share a key |
| ErrorMonitoring.ErrorKeySeparates | backend/src/common/services/error-monitoring.service.ts:139-142 | messages whose first 100 characters (the whole message when shorter) differ, under the same context label, get different keys |
| ErrorMonitoring.Trim | backend/src/common/services/error-monitoring.service.ts:46-49 | the buffer is cut to its last 1000 reports, in order |
| ErrorMonitoring.PushThenTrim | backend/src/common/services/error-monitoring.service.ts:43-49 | after push and trim the buffer holds 1 to 1000 reports, the new one last, the ones before it the newest of the old buffer in order |
| ErrorMonitoring.TickCounts | backend/src/common/services/error-monitoring.service.ts:51-61 | the counter of the report's key goes up within five minutes of its last report and restarts at 1 otherwise; its time becomes now; no other key changes |
| ErrorMonitoring.FiredAlertsMembers | backend/src/common/services/error-monitoring.service.ts:116-124 | one alert at most per config; each alert carries the report and the count read, from a config whose threshold the count meets; every such config fires |
| ErrorMonitoring.SetEntry | backend/src/common/services/error-monitoring.service.ts:106-108 | setting an alert makes its name map to the new config and leaves every other name; an existing name keeps its place and a new one goes last |
| ErrorMonitoring.SetEntryKeepsNamesDistinct | backend/src/common/services/error-monitoring.service.ts:106-108 | alert names stay distinct |
| ErrorMonitoring.ErrorsOnly | backend/src/common/services/error-monitoring.service.ts:150 | the filter keeps exactly the reports of level error |
| ErrorMonitoring.ErrorsAndWarningsBounded | backend/src/common/services/error-monitoring.service.ts:161-162 | the error and warning counts together never exceed the reports; the error count is the filtered length |
| ErrorMonitoring.InsertNoNewerThan | backend/src/common/services/error-monitoring.service.ts:151 | inserting into a list with no report newer than t keeps that bound |
| ErrorMonitoring.InsertKeepsOrder | backend/src/common/services/error-monitoring.service.ts:151 | inserting into a newest-first list keeps it newest first |
| ErrorMonitoring.InsertPermutes | backend/src/common/services/error-monitoring.service.ts:151 | inserting adds exactly the one report |
| ErrorMonitoring.SortNewestFirstCorrect | backend/src/common/services/error-monitoring.service.ts:151 | the sort returns the same reports, newest first |
| ErrorMonitoring.SliceEnd | backend/src/common/services/error-monitoring.service.ts:152 | `slice(0, limit)` never reaches past the end |
| ErrorMonitoring.SortedSplit | backend/src/common/services/error-monitoring.service.ts:151-152 | in a newest-first list everything before a cut is at least as new as everything after it |
| ErrorMonitoring.RecentErrorsOrdered | backend/src/common/services/error-monitoring.service.ts:148-153 | the recent errors are error reports of the buffer, newest first, each at most as often as in the buffer |
| ErrorMonitoring.RecentErrorsAreNewest | backend/src/common/services/error-monitoring.service.ts:148-153 | no error left out is newer than one returned |
| ErrorMonitoring.RecentErrorsLimit | backend/src/common/services/error-monitoring.service.ts:148-153 | for a non-negative limit exactly `min(limit, number of errors)` errors come back, and all of them once the limit covers them |
| ErrorMonitoring.BumpCounts | backend/src/common/services/error-monitoring.service.ts:167-175 | one bump adds one to the total and to the key's count, changes no other count, and keeps keys distinct |
| ErrorMonitoring.SummaryCounts | backend/src/common/services/error-monitoring.service.ts:164-175 | each context label and day appears once; its count is the number of reports with it; the counts add up to the reports |
| ErrorMonitoring.SummaryAddsUp | backend/src/common/services/error-monitoring.service.ts:155-183 | errors plus warnings are at most the reports, and each of the two tallies totals the reports |
| ErrorMonitoring.KeepNewer | backend/src/common/services/error-monitoring.service.ts:187 | exactly the reports strictly newer than the cutoff survive |
| ErrorMonitoring.ErrorMonitor.constructor | backend/src/common/services/error-monitoring.service.ts:26-28 | the monitor starts empty |
| ErrorMonitoring.ErrorMonitor.ReportError | backend/src/common/services/error-monitoring.service.ts:30-75 | the report is built from the thrown value; the buffer is pushed and trimmed; the key's counter is ticked; the alerts check runs on the ticked count; configs are unchanged; the buffer bound and distinct alert names are kept |
| ErrorMonitoring.ErrorMonitor.ReportWarning | backend/src/common/services/error-monitoring.service.ts:77-104 | a warning report is pushed and trimmed; counters, configs and alerts are untouched |
| ErrorMonitoring.ErrorMonitor.SetErrorAlert | backend/src/common/services/error-monitoring.service.ts:106-108 | only the alert configs change, by the map `set` |
| ErrorMonitoring.ErrorMonitor.CheckAlerts | backend/src/common/services/error-monitoring.service.ts:110-125 | without a counter nothing happens; otherwise every config whose threshold the count read meets fires in order, and the counter is reset to 0 iff one fired |
| ErrorMonitoring.ErrorMonitor.GetRecentErrors | backend/src/common/services/error-monitoring.service.ts:148-153 | returns the recent errors of the buffer (ordered, newest, limited by the lemmas above) |
| ErrorMonitoring.ErrorMonitor.GetErrorSummary | backend/src/common/services/error-monitoring.service.ts:155-183 | the one-pass tally loop returns the summary of the buffer |
| ErrorMonitoring.KeepNewerConcat | backend/src/common/services/error-monitoring.service.ts:187 | the filter distributes over concatenation, so the surviving reports keep their buffer order |
| ErrorMonitoring.ErrorMonitor.ClearOldReports | backend/src/common/services/error-monitoring.service.ts:185-188 | the buffer keeps exactly the reports newer than now minus the age, in order; nothing else changes |
| Store.ReplaceByIdPointwise | frontend/src/store/index.ts:108 | `map` by id: every element with the new element's id becomes it, the others stay in place, the length is kept |
| Store.RemoveByIdMembers | frontend/src/store/index.ts:112 | `filter` by id: exactly the elements with another id survive, and the list shrinks by the number with that id |
| Store.AppendToMatchingPointwise | frontend/src/store/index.ts:195-199 | the conversations with the active id get the message; the others and the length are kept |
| Store.ReplaceByIdAbsent | frontend/src/store/index.ts:108 | updating with an id no element has changes nothing |
| Store.ReplaceByIdIdempotent | frontend/src/store/index.ts:108 | updating twice with the same element is updating once |
| Store.ReplaceByIdKeepsIds | frontend/src/store/index.ts:108 | updating keeps the id at every position |
| Store.RemoveByIdConcat | frontend/src/store/index.ts:112 | deleting keeps the survivors' order: it distributes over concatenation |
| Store.RemoveByIdAbsent | frontend/src/store/index.ts:112 | deleting an id no element has changes nothing |
| Store.RemoveAfterAppend | frontend/src/store/index.ts:106-112 | deleting the id of an element just added undoes the add |
| Store.AddAppends | frontend/src/store/index.ts:106-172 | every `add*` appends its element to its list and changes nothing else |
| Store.UpdateReplaces | frontend/src/store/index.ts:107-176 | every `update*` replaces exactly the elements with that id, keeps the length, moves the list's selection only when it has that id, and changes nothing else |
| Store.DeleteRemoves | frontend/src/store/index.ts:111-167 | every `delete*` removes exactly the elements with the id, keeps the rest in order, clears the selection iff it had that id, and changes nothing else |
| Store.SetListOverwrites | frontend/src/store/index.ts:104-170 | every list setter replaces its list wholesale, leaves the selection alone, and the last of two calls counts |
| Store.SetSelectionOverwrites | frontend/src/store/index.ts:105-171 | the selected and active setters replace the selection without consulting the list, and the last of two calls counts |
| Store.ChatAndUiSettersOverwrite | frontend/src/store/index.ts:179-214 | the conversation, active-conversation, loading and error setters overwrite their field, and the last of two calls counts |
| Store.AddConversationActivates | frontend/src/store/index.ts:181-184 | adding a conversation appends it and makes it active, and no item list changes |
| Store.AddMessageAppends | frontend/src/store/index.ts:193-210 | without an active conversation nothing changes; with one, the message is appended to it and to every listed conversation with its id, to no other, and not to the top-level messages |
| Store.AddKeepsConsistent | frontend/src/store/index.ts:106-172 | an add keeps every selected or active element in its list |
| Store.UpdateKeepsConsistent | frontend/src/store/index.ts:107-176 | an update keeps every selected or active element in its list |
| Store.DeleteKeepsConsistent | frontend/src/store/index.ts:111-167 | a delete keeps every selected or active element in its list |
| Store.ConversationActionsKeepConsistent | frontend/src/store/index.ts:181-210 | adding, updating or deleting a conversation and adding a message keep the active conversation in the list |
| Store.InitialConsistent | frontend/src/store/index.ts:87-101 | the initial state has no selections and is consistent, not loading and without error |
| PermissionGuard.CanActivate | backend/src/common/guards/permission.guard.ts:9-28 | no metadata admits everyone; an empty list denies; a non-empty list with no user throws; otherwise the guard's `some` decides |
| PermissionGuard.SomeRoleIncludesIff | backend/src/common/guards/permission.guard.ts:24 | the roles' `some` holds iff some role's list includes the permission |
| PermissionGuard.SomeHeldIff | backend/src/common/guards/permission.guard.ts:22-25 | the outer `some` holds iff some required permission is held |
| PermissionGuard.CanActivateIff | backend/src/common/guards/permission.guard.ts:19-27 | with metadata and a user, access is granted iff some required permission is the user's own or one of a role's |
| PermissionGuard.CanActivateMonotone | backend/src/common/guards/permission.guard.ts:22-27 | giving a user more permissions or roles never turns an admission into a denial |
| RateLimit.ShouldSkipRateLimiting | backend/src/common/middlewares/rate-limit.middleware.ts:80-92 | a path is skipped iff it is one of the two health paths or starts with `/api/internal` |
| RateLimit.FirstTruthyIsFirst | backend/src/common/middlewares/rate-limit.middleware.ts:70-77 | the `||` chain picks the first truthy source and falls back only when none is truthy |
| RateLimit.ClientIpIsFirstPresent | backend/src/common/middlewares/rate-limit.middleware.ts:69-78 | the client address is the first truthy of forwarded-for, real-ip, the connection, the socket and the nested socket, else `unknown` |
| RateLimit.IdentifierSeparatesUsers | backend/src/common/middlewares/rate-limit.middleware.ts:63-67 | two requests from one address share a bucket iff they have the same user key; a request without a user id is charged to `<ip>_anonymous` |
| RateLimit.IdentifierParts | backend/src/common/middlewares/rate-limit.middleware.ts:63-67 | the identifier is the address, `_`, then the user key |
| RateLimit.SkippedPaths | backend/src/common/middlewares/rate-limit.middleware.ts:80-92 | every path under the internal prefix is skipped (including `/api/internals`); paths below the health endpoints are limited |

## Left out

- The graph library's runtime, including its own node `route-step`: the model runs each compiled graph by an explicit driver: start, validate-input, route, one action node, end. The library's error text for an unmapped branch is replaced by `Unknown route target: <key>`.
- Console logging, the logger calls and `triggerAlert`'s printing: a fired alert is recorded in `ErrorMonitor.alerts` instead.
- Clocks, `uuid`, `generateId` and `Math.random`: the clock reading and the ids are parameters. The trace timestamp is that reading, not a `Date`.
- The repositories, Neo4j and Redis: the service's repositories are fields and inputs. The rate limiter's `use`, its Redis store and its points/duration settings are I/O and not modelled; only its pure helpers are.
- `AgentsService.Service.ExecuteWorkflow`: the engine is an injected function parameter; `AgentsService.ExecutionWithEngine` connects it to `GraphEngine.ExecuteWorkflow`. The error's stack is not recorded.
- `createWorkflow`, `getAllWorkflows` and `createSession` are repository writes and reads with generated ids; they are not modelled.
- The planner's prose `description` fields and the workflow `id`s are not modelled.
- `toLowerCase` is modelled on ASCII letters only.
- JavaScript numbers are modelled as integers: `Value.Num` holds an `int`, `clearOldReports`'s `maxAgeHours` cannot be fractional, and an alert `threshold` is always a number (an `undefined` or `NaN` threshold, which never fires in the code, is not representable).
- Each service method runs as one atomic step. `updateSessionContext` reads, merges and saves across `await`s (`agents.service.ts:108-118`), so two concurrent calls can lose an update; interleavings are not modelled.
- `ErrorMonitoring.Substring`: JavaScript's `substring` counts UTF-16 code units; the model counts characters, so a message with characters outside the Basic Multilingual Plane is cut at a different place, and a cut that splits a surrogate pair is not modelled.
- `ErrorMonitoring.ContextTally`: `errorsByContext` is a plain object, whose integer-like keys (a context named `42`) enumerate first in ascending order; the model keeps every key in insertion order. The day keys are ISO dates and are not integer-like.
- `ErrorMonitoring.ContextTally`, `ErrorMonitoring.SummaryCounts`, `ErrorMonitoring.SummaryAddsUp` and `ErrorMonitoring.ErrorMonitor.GetErrorSummary`: `errorsByContext` starts as `{}`, which inherits from `Object.prototype`. For a context label naming an inherited member (`constructor`, `toString`, `valueOf`, `hasOwnProperty` and the others), `errorsByContext[context] || 0` reads the inherited function, so the code stores a string such as `"function Object() { [native code] }1"` rather than a count; for `__proto__` the assignment goes to the prototype setter and the label never appears. The model counts every label as a number, so its per-label counts and its total are what the code gives only for labels that are not `Object.prototype` member names.
- `ErrorMonitoring.DayTally`: a report is tallied by its UTC day number, not by the ISO date string that names that day.
- `ErrorMonitoring.SortNewestFirstCorrect`: order and permutation are proved, but stability among equal timestamps is not stated.
- `ErrorMonitoring.ErrorMonitor.GetRecentErrors` and `ClearOldReports`: the default `limit` (50) and `maxAgeHours` (24) are constants the caller passes.
- The stored items of the frontend store are opaque records with an id; the frontend type declarations are not part of this model. The store has no `deleteSession` action, and none is modelled.
- `PermissionGuard.CanActivate`: a role's permissions are compared by name. As written, `role.permissions` holds permission objects, and `includes` never matches one against a permission-name string; the user entity declares no `permissions` field either. So the code denies every user on a route that lists permissions; the model is the name-based guard the code evidently means. The text of the error thrown for a missing user is a placeholder.
