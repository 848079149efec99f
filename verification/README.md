# Threadmill state machines in Dafny

A model of the three stateful cores of Threadmill, and proofs about every run of them.

- **Coordination** (`Coordination*.dfy`, `MemoryStore.dfy`, `GraphRuntime.dfy`, `Ids.dfy`): the lease, command and
  observation protocol behind a task graph. Store operations are functions on a `Project` value; `MemoryStore` is
  the class whose methods do what they say in place; `GraphRuntime` is the reconcile pass, a program of loops over
  the store.
- **Context graph** (`Context*.dfy`): nodes, subgraphs, edges, task bindings and projections; the bounded search
  over them; subscriptions, deltas and slices; the candidate memory of a task and its review. `ContextStore.MemoryStore`
  is the store itself.
- **Durable steps of the application** (`QuiescenceMonitor.dfy`, `ManagerInputs.dfy`, `TerminalOutbox.dfy`,
  `TreeImport.dfy`): when an execution counts as abandoned, the retry machine of manager inputs, the outbox of phase
  results, and the import of a verified tree.

`Common.dfy` holds the few facts about texts, finite sets and maps they share. Each core is built the same way: a
value for the state, functions for the steps, classes and loops proved against those functions, an invariant that
every step keeps, and results about all runs.

`dafny verify dfyconfig.toml` checks everything.

## What the proofs found

- A "started" report that arrives after its lease was released is accepted, and from then on every fold, and so
  every reconcile pass of the project, fails (`CoordinationFold.LateStartBlocksForever`; a run that gets there is in
  `CoordinationFold.LateStartIsReached`).
- Rejecting a command that is already complete would replace its completion and make an ended generation runnable
  again; the runtime never does, because it delivers only unfinished commands
  (`CoordinationRuns.RejectingAFinishedCommandReopens`; exactly when is `CoordinationRuns.RejectionReopensIff`).
- The ids of a rejected command and of a rejected endpoint are the same text exactly when a task is named after a
  command prefix (`Ids.RejectionTextsCollideIff`).
- `CreateNodes` takes ids from its caller, and the generated ids of later operations do not look whether they are
  taken: a node of one project can end up joined to a node of another
  (`ContextGraphRuns.ChosenIdCrossesProjects`; exactly when is `ContextIsolation.StepKeepsApartIff`). Nothing else of the graph's invariant can break
  (`ContextGraphRuns.EveryReachableGraphIsSound`), but the node that had the id is replaced, at a revision that starts
  over, and leaves its subgraphs without being counted in them (`ContextRevisions.MemberIsLostUnseen`; exactly when
  this shows is in `ReplacementShowsIff`, `DecisionShowsIff` and `ReplacedMemberShowsIff`).
- A review's "create" decision may name the id its own node will get: the node is born outdated at revision two
  (`ContextRevisions.NamesItself`).
- A review's "create" decision may name a target, which is never checked but is marked outdated, so a review can
  change a task's node (`ContextTasks.ReviewLeavesTasksIff`, `ContextTasks.CreateDecisionMarksTaskNode`).
- A source reference that looks like a projection revision and sorts before the real one hides it
  (`ContextProjection.RevisionReadBackIff`), and an older projection can then replace a newer one
  (`ContextProjectionRuns.OlderReplacesNewer`; exactly when is `ContextProjection.OnlyNewerReplacesIff`). A first
  revision that is no number is accepted, and that projection can never be replaced
  (`ContextProjectionRuns.UnreadableIsNeverReplaced`).
- A node's revision does not count its memberships, so an edit can undo one unseen
  (`ContextRevisions.MembershipDoesNotShow`; exactly when is `ContextRevisions.MovedUnseenIff`), and the id of a
  deleted subgraph is used again at the same revision (`ContextRevisions.SubgraphIdIsReused`; exactly when is
  `ContextRevisions.DeletedIdIsNextIff`).
- A review tells nobody of the nodes it marks, only of those it creates (`ContextNews.ReviewTellsNobody`; exactly when
  a change is left untold is `ContextNews.ReviewIsToldIff`).
- Nobody is told that a subgraph was deleted: it is gone before its subscribers are looked up
  (`ContextStore.MemoryStore.DeleteSubgraph`).
- The parts of an invocation id are hashed with a NUL between them, so a kind or request that holds one can give two
  inputs the same id (`ManagerInputs.FirstAttemptsCollideIff`).
- The transaction that accepts a decision does not look whether its attempt was given up, so two attempts at one manager
  input can be decided differently (`ManagerInputs.OneInputDecidedTwice`; exactly when is
  `ManagerInputs.RunKeepsAgreedIff`).
- A carrier that remembers a finish from before an execution started, and no work since, keeps that execution from ever
  being declared abandoned (`QuiescenceMonitor.OldFinishKeepsWaiting`).
- The visibility test on the target of a review decision changes nothing: a node that no task has is seen by everybody
  of its project (`ContextRules.DecisionIff`).
- Completing an attempt of a manager input that was already given up marks its binding but leaves the input open
  (`ManagerInputs.CompletionCounts`).
- Marking an outbox row delivered does not look at its status; that an abandoned intent is never delivered rests on
  nobody ever being told that it is final (`TerminalOutbox.AbandonedIsRefused`).

## Model

| member | source | states |
|---|---|---|
| `CoordinationRuns.ClaimedAtMostOnce` | internal/coordination/command_store.go:220-264 | in every run, each endpoint generation is claimed by at most one step |
| `CoordinationRuns.LeaseLifecycle` | internal/coordination/command_store.go:220-264 | between any two points of a run a lease only moves absent, active, released; it exists exactly when its run command does, with the same endpoint, generation and binding, and neither identity changes |
| `CoordinationRuns.StepKeepsInv` | internal/coordination/command_store.go:93-449 | every store step and every graph write keeps the invariant that ties leases, commands and observations together, and takes nothing back |
| `CoordinationRuns.RunKeepsInv` | internal/coordination/command_store.go:93-449 | so does every run of them |
| `CoordinationRuns.EndedNeverRunnable` | internal/coordination/recovery.go:166-187 | once an end of a generation has been folded, no later state of a single-runtime run finds it runnable, whatever graph, rejections, quarantines and observations follow |
| `CoordinationRuns.FoldedNeverRunnable` | internal/coordination/recovery.go:267-286 | the same from the moment the output, failure or stop is folded |
| `CoordinationRuns.RejectingAFinishedCommandReopens` | internal/coordination/command_store.go:333-373 | a concrete run from the initial state after which rejecting the completed command makes its generation runnable again |
| `CoordinationRuns.RejectionReopensIff` | internal/coordination/command_store.go:333-373 | a rejection takes the end of a generation away exactly when it is new and every end the generation has is the completion of that command |
| `CoordinationReady.RunnableIff` | internal/coordination/recovery.go:166-286 | an endpoint is runnable exactly when its task is active, it is pending, enabled, bound and specified, the phase before it is satisfied, every start edge is signalled and no start blocker is active or denied, and its generation was never claimed or its lease, its run and its stop command no longer occupy it |
| `CoordinationReady.ClaimTakesIff` | internal/coordination/command_store.go:220-264 | a claim takes a generation exactly once, at the latest revision, for the stored generation of an endpoint the graph lets start |
| `CoordinationReady.ClaimWrites` | internal/coordination/command_store.go:246-264 | it writes an unanswered run command and beside it an active lease of the same identity that expires in an hour |
| `CoordinationReady.RunsOnlyWhatIsReady` | internal/coordination/recovery.go:166-230 | in every run, whichever step stores the run command of a generation, the graph just before it let that endpoint start |
| `CoordinationReady.PhasesStartInOrder` | internal/coordination/recovery.go:189-200 | so in every run no verification starts before its execution is satisfied and no execution before its plan |
| `CoordinationReady.RepairOfLease` | internal/coordination/runtime.go:156-171 | what the repair does with an active lease, by whether its run or stop command can be used and whether anything was heard of it: nothing, release it, or give it a stop |
| `CoordinationReady.RepairOfCommand` | internal/coordination/runtime.go:172-181 | it quarantines exactly the unfinished runs in service whose lease is released |
| `CoordinationReady.IssuesStopIff` | internal/coordination/runtime.go:191-205 | a stop is made exactly for the active leases whose task is not active, whose endpoint is gone, held, or at another generation or binding, or whose time is up |
| `CoordinationReady.StartedNeverAwaits` | internal/coordination/recovery.go:98-110 | once a reported start is folded, no later state of the run has that command waiting for delivery |
| `CoordinationReady.EndpointIsNoted` | internal/coordination/command_store.go:375-399 | that an endpoint could not be dispatched is noted once for each code, in the words of the endpoint |
| `CoordinationHistory.RevisionIdentifiesGraph` | internal/coordination/memory_store.go:55-68 | in every run each graph that was ever current is read back unchanged under its revision, and the same latest revision means the same graph |
| `CoordinationHistory.WriteAcceptedIff` | internal/coordination/memory_store.go:165-170 | a write is accepted exactly at the latest revision and makes the next one, and loses no binding |
| `CoordinationFold.FoldSucceedsIff` | internal/coordination/runtime.go:133-154 | a fold gets through exactly when every queued observation fits its command and every start comes while its lease is active and before its end |
| `CoordinationFold.InterruptedFoldResumes` | internal/coordination/runtime.go:133-154 | a fold stopped after any prefix and run again reaches the state and outcome of the uninterrupted one |
| `CoordinationFold.ReportedEndAlwaysFolds` | internal/coordination/command_store.go:121-167 | an end reported for a stored command folds without error in every later state in which it is still unfolded |
| `CoordinationFold.ReportFitsIff` | internal/coordination/phase_observation.go:92-125 | a report fits the stored command exactly when it is honest about whether that is a stop |
| `CoordinationFold.ReportAcceptedIff` | internal/coordination/phase_observation.go:92-125 | a report is accepted exactly when its kind, its evidence and its command go together, it names the stored command as it is, and it repeats what an earlier one said; it is recorded once |
| `CoordinationFold.StuckForever` | internal/coordination/command_store.go:93-119 | an observation that cannot be folded stays so, and no later fold of the run succeeds |
| `CoordinationFold.LateStartBlocksForever` | internal/coordination/command_store.go:401-432 | a start reported after its lease was released is accepted and makes every later fold fail |
| `CoordinationFold.LateStartIsReached` | internal/coordination/command_store.go:401-432 | a concrete run from the initial state that ends that way |
| `CoordinationPass.RepairedCommandsHaveLeases` | internal/coordination/runtime.go:156-189 | after the repair every live run command has a matching active lease |
| `CoordinationPass.RepairedLeasesAreServed` | internal/coordination/runtime.go:156-189 | after it, an active lease without a usable command has an observation and a stop of its own that was already quarantined or rejected |
| `CoordinationPass.RepairedShrinks` | internal/coordination/runtime.go:156-189 | the repair adds no active lease |
| `CoordinationPass.GrewSameRunnable` | internal/coordination/recovery.go:166-187 | the stops and claims a pass adds do not change what else is runnable |
| `CoordinationPass.ClaimDuringPass` | internal/coordination/command_store.go:220-264 | a claim in the middle of a pass succeeds exactly when the endpoint had no run command at its start |
| `CoordinationStore.MemoryStore.LoadRuntimeView` | internal/coordination/command_store.go:71-91 | the view shows the project with every lease's expiry judged at the given time |
| `CoordinationStore.MemoryStore.CheckObservationLease` | internal/coordination/command_store.go:152-167 | accepts exactly an observation whose command, lease, endpoint, generation and binding agree |
| `CoordinationStore.MemoryStore.MarkObservationFolded` | internal/coordination/command_store.go:185-192 | marks the first observation of that id and no other |
| `CoordinationStore.MemoryStore.MarkObserved` | internal/coordination/command_store.go:93-119 | records a start at a lease that is still active, or changes nothing |
| `CoordinationStore.MemoryStore.CompleteCommandAndReleaseLease` | internal/coordination/command_store.go:121-150 | completes the command, releases its lease and folds the observation, or changes nothing |
| `CoordinationStore.MemoryStore.ReleaseOrphanLease` | internal/coordination/command_store.go:169-183 | releases a known lease |
| `CoordinationStore.MemoryStore.GetOrCreateStopCommand` | internal/coordination/command_store.go:194-218 | one stop command per lease, created once |
| `CoordinationStore.MemoryStore.ClaimLeaseAndAppendCommand` | internal/coordination/command_store.go:220-264 | claims a lease and appends its run command together, exactly when the revision, the graph and the lease allow it |
| `CoordinationStore.MemoryStore.ExistingRunCommand` | internal/coordination/command_store.go:274-282 | finds a run command of the generation exactly when there is one |
| `CoordinationStore.MemoryStore.MarkCommandAccepted` | internal/coordination/command_store.go:284-299 | the acceptance mark and nothing else |
| `CoordinationStore.MemoryStore.ScheduleCommandRetry` | internal/coordination/command_store.go:301-315 | the retry flag and nothing else |
| `CoordinationStore.MemoryStore.QuarantineCommand` | internal/coordination/command_store.go:317-331 | the quarantine mark and nothing else |
| `CoordinationStore.MemoryStore.RejectCommand` | internal/coordination/command_store.go:333-373 | rejects a command, releases a run's lease and notes the rejection once |
| `CoordinationStore.MemoryStore.RecordEndpointDispatchRejection` | internal/coordination/command_store.go:375-399 | notes a rejected endpoint once |
| `CoordinationStore.MemoryStore.RecordPhaseReport` | internal/coordination/phase_observation.go:59-125 | validates a report against its command and appends it, or finds the same report already there |
| `CoordinationStore.MemoryStore.CommitGraph` | internal/coordination/memory_store.go:70-170 | accepts a graph under the revision check, keeps the replaced one in the history |
| `CoordinationRuntime.GraphRuntime.Reconcile` | internal/coordination/runtime.go:43-122 | a pass is a run of allowed store steps; it fails exactly when its fold fails; otherwise it delivers each command once, no start or resume of a lease that must stop, that lease's stop while it is unfinished, every other pending command and nothing else but its claims; it claims within capacity, at least one when one can be claimed, none ahead of a claimable endpoint that comes before it, leaves a slot free only behind an endpoint that could not be claimed, and notes the stale ones; every claim is of an endpoint the graph lets start and resumes exactly when its binding has a checkpoint; every command delivered ends with the mark of the controller's own answer to it and every other as it was, and the active leases are those there were, with the claimed ones and without those of rejected runs |
| `CoordinationRuntime.PassKeepsWithinLimit` | internal/coordination/runtime_port.go:92-102 | counted from the start of the pass, active leases end no higher than they were or than desired and healthy allow |
| `CoordinationRuntime.PassStopsIff` | internal/coordination/runtime.go:60-80 | of the generation of a lease that is to be stopped a pass delivers nothing but the stop, in the words of the lease, as long as that is unfinished; for any other active lease it makes no stop |
| `CoordinationRuntime.AnswersSettle` | internal/coordination/runtime.go:117-120 | what the answers to a delivery list leave: marks, active leases, and the notes of rejections in the order of delivery |
| `CoordinationRuntime.PrefixFills` | internal/coordination/runtime.go:82-116 | claiming a batch as long as the free slots leaves a claimable endpoint behind only if one before it could not be claimed |
| `CoordinationRuntime.StaleBeforeClaims` | internal/coordination/runtime.go:99-104 | every endpoint with a binding that cannot be resumed is noted if it comes before a claimed one |
| `CoordinationRuntime.LaterPhasesFirst` | internal/coordination/runtime.go:214-221 | the order of candidates: verification before execution before planning, and within a phase by task |
| `CoordinationRuntime.PlanRight` | internal/coordination/runtime.go:60-120 | the stops issued and the pending commands listed make the delivery list the pass promises |
| `CoordinationRuntime.GraphRuntime.FoldObservations` | internal/coordination/runtime.go:133-154 | folds the queue in order and stops at the first error, as one run |
| `CoordinationRuntime.GraphRuntime.RepairDecisionPairs` | internal/coordination/runtime.go:156-189 | the two repair loops reach the repaired project whatever order the maps are walked in |
| `CoordinationRuntime.GraphRuntime.IssueStopCommands` | internal/coordination/runtime.go:60-80 | a stop for every active lease that must stop, the unfinished ones listed |
| `CoordinationRuntime.GraphRuntime.PendingCommands` | internal/coordination/recovery.go:98-133 | every pending command that is not a run of a lease to stop, once |
| `CoordinationRuntime.GraphRuntime.GraphRunnable` | internal/coordination/runtime.go:207-223 | exactly the endpoints the graph lets start whose generation nothing occupies, once each, later phases first and within a phase by task id |
| `CoordinationRuntime.GraphRuntime.ClaimRun` | internal/coordination/runtime.go:225-238 | resumes exactly when the binding has a checkpoint and starts otherwise, claims with that action at the revision of the view, and refuses a binding that cannot be resumed |
| `CoordinationRuntime.GraphRuntime.SelectAndClaim` | internal/coordination/runtime.go:82-116 | the selection loop ends, claims within capacity, claims something if something could be claimed, and passes over no claimable endpoint for a later one |
| `CoordinationRuntime.PrefixClaimsFirst` | internal/coordination/runtime.go:82-116 | claiming the claimable endpoints of a prefix leaves only later ones |
| `CoordinationRuntime.GraphRuntime.Deliver` | internal/coordination/runtime.go:240-260 | the controller's answer decides the mark: accepted, quarantined on a command conflict, rejected with its lease given back and a note on a stale command, a lease conflict or a stale checkpoint, to be tried again otherwise; no other command is touched |
| `CoordinationRuntime.GraphRuntime.DeliverAll` | internal/coordination/runtime.go:117-120 | after the whole list every command on it has the mark of its own answer |
| `CoordinationRuntime.Capacity.Available` | internal/coordination/runtime_port.go:92-102 | never negative, and active plus available stays within the limit |
| `CoordinationRuntime.SelectRunnable` | internal/coordination/runtime_port.go:120-124 | a prefix of the candidates, all of them or as many as there are free slots |
| `CoordinationRuntime.RemoveSelectedCandidates` | internal/coordination/runtime.go:295-304 | the candidates not selected, in their order |
| `CoordinationRuntime.RemainingIs` | internal/coordination/runtime.go:295-304 | these are exactly the unselected ones, still in order |
| `CoordinationRuntime.UniqueByCommandId` | internal/coordination/runtime.go:306-317 | the first command of each id, in order, and every id among them |
| `Ids.LeaseTextInjective` | internal/coordination/command_store.go:220-264 | lease ids name one endpoint generation, whatever the task is called |
| `Ids.CommandTextInjective` | internal/coordination/command_store.go:194-264 | command ids name one command |
| `Ids.PhaseEventTextInjective` | internal/coordination/phase_observation.go:127-131 | observation ids name one kind of report about one command |
| `Ids.RejectionTextsCollideIff` | internal/coordination/command_store.go:333-399 | exactly when the two kinds of rejection id are the same text |
| `ContextGraph.FirstFree` | internal/contextgraph/store.go:698-704 | the search for a subgraph id ends at the first that is free |
| `ContextGraphRuns.EveryReachableGraphIsSound` | internal/contextgraph/store.go:543-794 | whatever ids callers choose, every graph reached from the empty one has memberships and edge ends that exist, memberships in the node's own project, no node that mixes task and general subgraphs, node revisions from one up, bindings to existing task subgraphs of their own task, projections to existing nodes in task subgraphs only, and distinct sequence numbers |
| `ContextGraphRuns.StepKeepsSound` | internal/contextgraph/store.go:543-794 | every mutation keeps all of that |
| `ContextGraphRuns.EveryReachableGraphIsWellFormed` | internal/contextgraph/store.go:543-794 | such a graph also has both ends of every edge in one project, as long as no caller picks an id still to be generated |
| `ContextGraphRuns.ChosenIdCrossesProjects` | internal/contextgraph/store.go:122-224 | a two-step run in which a chosen id breaks this |
| `ContextRules.EveryReachableNodeIsComplete` | internal/contextgraph/permissions.go:49-65 | in every graph a run reaches, each node is of one of the three kinds, in one of the four statuses, and cites a source |
| `ContextRules.CreatesIff` | internal/contextgraph/store.go:543-581 | a node is created exactly for somebody who writes a statement, a kind and a source into open subgraphs; it is stored as asked, accepted, as theirs |
| `ContextRules.UpdatesIff` | internal/contextgraph/store.go:583-637 | a node is changed exactly by a caller who saw its revision and may edit it; it takes what the request says and keeps creator, project and sequence |
| `ContextRules.DeletesIff` | internal/contextgraph/store.go:639-683 | a node is deleted exactly by such a caller, with every edge at it and nothing else |
| `ContextRules.AddsIff` | internal/contextgraph/store.go:891-919 | a node of a batch is taken exactly when its id is new, it is complete, and its creator is the one the batch names |
| `ContextRules.AddsEdges` | internal/contextgraph/store.go:160-192 | it brings an edge from its creator's previous node while that stands, and one from each subgraph of its context the principal sees |
| `ContextRules.GroupsIff` | internal/contextgraph/store.go:685-718 | a subgraph is made exactly under a name and of nodes no task has, which become its members |
| `ContextRules.RegroupsIff` | internal/contextgraph/store.go:720-755 | one is changed exactly by a caller who saw its revision; name, summary and members become those given |
| `ContextRules.UngroupsIff` | internal/contextgraph/store.go:757-794 | one is deleted exactly by such a caller, with its memberships and the edges from it |
| `ContextRules.RegistersIff` | internal/contextgraph/task_binding.go:11-64 | a known task without a subgraph gets one, once |
| `ContextRules.BoundIff` | internal/contextgraph/projection.go:101-165 | a projection is addressed right exactly when its subgraphs are those bound to its recipients |
| `ContextRules.ProjectionIs` | internal/contextgraph/projection.go:34-99 | what a first and what a newer projection writes |
| `ContextRules.DecisionIff` | internal/contextgraph/review.go:190-224 | a review decision is valid exactly if it rejects, or has a known action and kind and open subgraphs and, unless it creates, a target of the project that no task has |
| `ContextRules.CandidateIff` | internal/contextgraph/memory_buffer.go:36-75 | a candidate is taken exactly while the memory is open, with a kind and a source and for no task's subgraph, and is listed last as it was given |
| `ContextRules.FinalizesIff` | internal/contextgraph/review.go:21-64 | a memory is closed exactly for a task that is done |
| `ContextIsolation.StepKeepsApartIff` | internal/contextgraph/store.go:543-868 | a mutation keeps both ends of every edge in one project exactly when no node it replaces has an edge whose other end is then in another |
| `ContextIsolation.RunKeepsApartIff` | internal/contextgraph/store.go:543-868 | a run does so throughout exactly when each of its steps does |
| `ContextGraphRuns.CreateNodeKeepsIff` | internal/contextgraph/store.go:543-581 | creating a node keeps a graph sound, and projects apart exactly when no edge at the generated id leads into another project |
| `ContextGraphRuns.ProjectKeepsIff` | internal/contextgraph/projection.go:17-99 | the same of a projection; updating one always keeps it |
| `ContextGraphRuns.ApplyDecisionKeepsIff` | internal/contextgraph/review.go:128-168 | the same of one review decision |
| `ContextGraphRuns.CreateNodesKeeps` | internal/contextgraph/store.go:122-224 | a batch of nodes always keeps a graph sound, and a well-formed one well formed |
| `ContextGraphRuns.CreateNodesFreshIff` | internal/contextgraph/store.go:140-162 | it leaves the generated ids free exactly when it uses none of them |
| `ContextGraphRuns.UpdateNodeKeeps` | internal/contextgraph/store.go:583-637 | updating a node keeps a graph sound, and a well-formed one well formed |
| `ContextGraphRuns.DeleteNodeKeeps` | internal/contextgraph/store.go:639-683 | so does deleting one, with its edges |
| `ContextGraphRuns.WithMembersKeeps` | internal/contextgraph/store.go:840-868 | so do the bulk membership loops of subgraph creation and update |
| `ContextGraphRuns.DeleteSubgraphKeeps` | internal/contextgraph/store.go:757-794 | so does deleting a subgraph |
| `ContextGraphRuns.RegisterKeeps` | internal/contextgraph/task_binding.go:11-64 | so does registering a task's subgraph |
| `ContextGraphRuns.ReviewBatchKeeps` | internal/contextgraph/review.go:100-174 | a whole review keeps a graph sound, and a well-formed one well formed while the ids still to be generated are free |
| `ContextTasks.CuratorLeavesTasks` | internal/contextgraph/store.go:543-868 | no curator operation and no node batch changes a task subgraph or a node in one |
| `ContextTasks.CuratorRunLeavesTasks` | internal/contextgraph/store.go:543-868 | nor does any run of them, from any reachable graph |
| `ContextTasks.ReviewLeavesTasksIff` | internal/contextgraph/review.go:156-224 | a review leaves them alone exactly when no "create" decision names a node of a task in the project |
| `ContextTasks.CreateDecisionMarksTaskNode` | internal/contextgraph/review.go:156-163 | a concrete review that changes a task's node |
| `ContextRevisions.StepShows` | internal/contextgraph/store.go:543-868 | every mutation counts in the revision of each node whose text it changes, unless it stores another node under its id, and of each subgraph whose members it changes, unless it takes one away like that |
| `ContextRevisions.RevisionIdentifiesText` | internal/contextgraph/store.go:607-622 | over every run that keeps a node and stores no other under its id, its revision never goes back and the same revision means the same text |
| `ContextRevisions.KnownIsNeverReplaced` | internal/contextgraph/store.go:552-566 | no run stores another node under an id that is not still to be generated |
| `ContextRevisions.ReplacementShowsIff` | internal/contextgraph/store.go:543-581 | a creation or a new projection that replaces a node stored under the id it generates shows in that node's revision exactly when the node was never changed and has the same text |
| `ContextRevisions.DecisionShowsIff` | internal/contextgraph/review.go:137-163 | the same of a review decision, whose node is at revision two when it is its own target |
| `ContextRevisions.NamesItself` | internal/contextgraph/review.go:156-163 | a "create" decision that names the id it generates is accepted and its node is outdated at revision two |
| `ContextRevisions.ReplacedMemberShowsIff` | internal/contextgraph/store.go:543-868 | every mutation shows in the revision of a subgraph it leaves there exactly unless it stores another node under the id of a member and none it stores joins the subgraph |
| `ContextRevisions.DecisionShowsMembersIff` | internal/contextgraph/review.go:137-155 | the same of one review decision |
| `ContextRevisions.MemberIsLostUnseen` | internal/contextgraph/store.go:543-581 | a concrete run in which a subgraph loses its only member and shows the same revision |
| `ContextRevisions.RevisionIdentifiesMembers` | internal/contextgraph/store.go:814-838 | over every run that keeps a subgraph and in which no step takes a member away like that, its revision never goes back and the same revision means the same members |
| `ContextRevisions.KnownMembersLoseNothing` | internal/contextgraph/store.go:552-566 | none does while the subgraph's own members have ids that are not still to be generated, whatever ids callers choose elsewhere |
| `ContextRevisions.StaleEditIsRefused` | internal/contextgraph/store.go:597-606 | of two edits against the same revision of a node that is neither deleted nor replaced in between, the second is refused |
| `ContextRevisions.MembershipDoesNotShow` | internal/contextgraph/store.go:852-866 | joining a subgraph leaves a node's revision alone, so an earlier edit is still accepted and takes the membership away |
| `ContextRevisions.MovedUnseenIff` | internal/contextgraph/store.go:840-868 | for every mutation and every node there before and after that it does not replace: the node's memberships change at an unchanged revision exactly when a subgraph is created, updated or deleted that wants the node and does not have it, or the other way round |
| `ContextRevisions.SubgraphIdIsReused` | internal/contextgraph/store.go:698-704 | a concrete run in which the id of a deleted subgraph is given out again at revision one |
| `ContextRevisions.DeletedIdIsNextIff` | internal/contextgraph/store.go:698-704 | the next subgraph created takes the id of the one just deleted exactly when that is a generated id at or past the number of subgraphs there were and every generated id from there up to it is taken |
| `ContextProjection.RevisionReadBackIff` | internal/contextgraph/projection.go:166-178 | the revision read back from the sorted source references is the projection's own exactly when no cited reference carries one that sorts before it |
| `ContextProjection.ReadRevision` | internal/contextgraph/projection.go:171-178 | reads the first reference that carries a revision |
| `ContextProjection.CitedRevisionHidesOwn` | internal/contextgraph/projection.go:166-178 | two references for which it is not |
| `ContextProjection.ScanReads` | internal/contextgraph/projection.go:171-178 | scanning sorted references finds the first that carries a revision |
| `ContextProjection.PrintedIsReadBack` | internal/contextgraph/projection.go:180-197 | every number is read back from its printed form exactly as long as it fits 64 bits |
| `ContextProjection.NumbersCompare` | internal/contextgraph/projection.go:180-197 | so numbered projections are newer, the same or stale as their numbers compare |
| `ContextProjection.OnlyNewerReplacesIff` | internal/contextgraph/projection.go:180-197 | only a higher revision replaces a projection made from a number exactly when what is read from its references is no number or not lower than its own |
| `ContextProjectionRuns.RevisionsRise` | internal/contextgraph/projection.go:34-72 | over every run whose requests are read back as no number or not lower than their own, the revision read from a projection only rises |
| `ContextProjectionRuns.OwnFirstIsGuarded` | internal/contextgraph/projection.go:166-178 | a request is read back so when no reference it cites looks like a revision and sorts before its own |
| `ContextProjectionRuns.LaterProjectionIsNewer` | internal/contextgraph/projection.go:34-72 | over such runs, of two stored projections of one id the later was made from the higher revision, whatever happens in between |
| `ContextProjectionRuns.UnreadableIsNeverReplaced` | internal/contextgraph/projection.go:39-43 | a projection whose references give no number is never replaced |
| `ContextProjectionRuns.OlderReplacesNewer` | internal/contextgraph/projection.go:166-178 | a concrete run in which revision 5 replaces revision 9 |
| `ContextProjectionRuns.StepRefs` | internal/contextgraph/projection.go:45-56 | what a projected node cites changes only by a projection of that id taken for newer |
| `ContextExplore.Explore` | internal/contextgraph/store.go:248-296 | from a node: exactly the visible nodes at undirected distance at most the depth over visible edges, each once, and those at exactly that distance as the frontier; from a subgraph: its visible members in the order of creation |
| `ContextExplore.ExpandNode` | internal/contextgraph/store.go:364-397 | the search loop against paths |
| `ContextExplore.NextRing` | internal/contextgraph/store.go:364-397 | a node is at distance k + 1 exactly when it is joined to one at distance k and is not nearer |
| `ContextExplore.FoundIsJoined` | internal/contextgraph/store.go:369-389 | an edge is followed from either end, and one from a subgraph leads nowhere new |
| `ContextExplore.SortedNodes` | internal/contextgraph/store.go:1048-1060 | every node once, by sequence number |
| `ContextVisibility.VisibleIff` | internal/contextgraph/permissions.go:13-40 | a node is seen exactly by its project and, if it has memberships, through a general one or one of the principal's own task |
| `ContextVisibility.HiddenIsNeverShown` | internal/contextgraph/store.go:248-397 | a node whose memberships all belong to other tasks is in no exploration, from whatever anchor at whatever depth, and in no slice |
| `ContextVisibility.ExploredShows` | internal/contextgraph/store.go:364-397 | an exploration shows all of a node but the memberships the principal may not see |
| `ContextVisibility.SlicedIsShown` | internal/contextgraph/slice.go:95-146 | a slice holds a node only for memberships that are subscribed to and shown, and tells of no others |
| `ContextDelivery.FreshSubscriptionId` | internal/contextgraph/subscription.go:153-159 | the id loop ends, at a free id, when the first two candidates are not both taken |
| `ContextDelivery.FanOut` | internal/contextgraph/delta_dispatcher.go:93-119 | the loop over the subscriptions adds one delta for each that hears of the event, in some order |
| `ContextDelivery.EachSubscriberHearsOnce` | internal/contextgraph/delta_dispatcher.go:93-150 | whatever that order, each active subscription of the project whose filter admits the event and that sees a touched subgraph gets exactly one new delta, every other none |
| `ContextDelivery.FanOutKeeps` | internal/contextgraph/delta_dispatcher.go:93-150 | earlier deltas stay, ids stay 1 to n, and each new delta tells exactly the touched subgraphs its subscription sees |
| `ContextDelivery.PendingDeltas` | internal/contextgraph/delta_dispatcher.go:48-73 | exactly the unread deltas of active subscriptions of the invocation that still see something, cut down to it |
| `ContextVisibility.HearsIff` | internal/contextgraph/delta_dispatcher.go:93-150 | a subscription hears of a change exactly when it is active, of the project, lets the kind through, and names a touched subgraph that is shown to its task |
| `ContextVisibility.NewsIs` | internal/contextgraph/delta_dispatcher.go:100-117 | what it is told: its number, its invocation, the event, its kind, the revision, and the touched subgraphs it names and is shown |
| `ContextVisibility.PendingIff` | internal/contextgraph/delta_dispatcher.go:48-73 | exactly what an invocation has still to read |
| `ContextVisibility.SubscribedIff` | internal/contextgraph/subscription.go:141-177 | a subscription is taken exactly for an invocation and subgraphs that are all shown, and is stored as asked |
| `ContextVisibility.UnsubscribedIff` | internal/contextgraph/subscription.go:38-70 | only its own invocation ends a subscription |
| `ContextVisibility.AckedIff` | internal/contextgraph/delta_dispatcher.go:75-91 | only the invocation that news is for acknowledges it |
| `ContextDelivery.EffectiveSubgraphs` | internal/contextgraph/slice.go:127-146 | the union of the invocation's active and visible subscriptions |
| `ContextDelivery.MaterializeSlice` | internal/contextgraph/slice.go:95-125 | exactly the nodes in that union, each once in the order of creation, with memberships cut down to it |
| `ContextDelivery.EffectiveIsVisible` | internal/contextgraph/slice.go:103-109 | in a sound graph the visibility test drops no node of the union |
| `ContextDeliveryRuns.SliceIsDetermined` | internal/contextgraph/slice.go:95-125 | the graph and the subgraphs covered determine the slice |
| `ContextDeliveryRuns.RunKeeps` | internal/contextgraph/delta_dispatcher.go:12-119 | over every run ids stay counted, an initial subscription exists only with its slice, and nothing delivered is taken back |
| `ContextDeliveryRuns.AckedNeverPendingAgain` | internal/contextgraph/delta_dispatcher.go:75-91 | an acknowledged delta is never pending again and never changes |
| `ContextDeliveryRuns.EndedSubscriptionHearsNothing` | internal/contextgraph/subscription.go:38-97 | a cancelled or expired subscription stays so and gets no new delta |
| `ContextDeliveryRuns.FirstSliceStays` | internal/contextgraph/slice.go:15-48 | the first initial slice of an invocation is what every later call returns, whatever happens in between |
| `ContextDeliveryRuns.NextSubscriptionIdIsFree` | internal/contextgraph/subscription.go:153-159 | in every reachable state the first candidate id is free |
| `ContextReview.EveryCandidateDecidedOnce` | internal/contextgraph/review.go:103-125 | equal length, no repetition and nothing foreign mean that every candidate is decided exactly once |
| `ContextReview.CreatedPlusRejected` | internal/contextgraph/review.go:126-168 | nodes created and candidates rejected add up to the decisions |
| `ContextReview.ReviewStoresReceipt` | internal/contextgraph/review.go:137-167 | the graph holds what it had and the nodes the receipt names, and grows by as many exactly when none of their ids was stored before |
| `ContextReview.ReviewFrozenBatch` | internal/contextgraph/review.go:100-174 | refused as a whole unless every decision is acceptable, otherwise settled as a whole; `ContextReviewEffects` says what that writes |
| `ContextReviewEffects.ReviewWrites` | internal/contextgraph/review.go:126-168 | of the graph after a review: the node under the receipt id of each decision that is no rejection has the decision's own statement, kind and subgraphs where it gives them and the candidate's otherwise, the candidate's sources and the candidate, and the reviewer; unless that or a later decision marks it, it is disputed for a dispute and accepted otherwise |
| `ContextReviewEffects.ReviewMarks` | internal/contextgraph/review.go:156-163 | a node of the project that a decision marks last ends superseded, disputed or outdated by that decision's action, and otherwise as it was |
| `ContextReviewEffects.ReviewLeaves` | internal/contextgraph/review.go:126-168 | a node that no decision marks or creates is as it was |
| `ContextReview.CandidateTextInjective` | internal/contextgraph/memory_buffer.go:62 | candidates of one task have distinct ids |
| `ContextReviewRuns.ReviewedMeansSettled` | internal/contextgraph/review.go:66-98 | in every reachable state a reviewed memory has a receipt that decides its batch exactly once, with nodes and rejections adding up |
| `ContextReviewRuns.MemoryOnlyMovesForward` | internal/contextgraph/review.go:21-98 | a memory only moves open, frozen, reviewed; its batch is fixed from freezing on and its receipt from review on |
| `ContextReviewRuns.ReviewIsIdempotent` | internal/contextgraph/review.go:79-85 | submitting again returns the first receipt and changes nothing |
| `ContextReviewRuns.CandidateIdsDistinct` | internal/contextgraph/memory_buffer.go:52-75 | in every reachable state the candidates of a task have distinct ids |
| `ContextReviewRuns.FrozenCanAlwaysBeReviewed` | internal/contextgraph/review.go:100-125 | a frozen memory can always be settled |
| `ContextStore.BumpAll` | internal/contextgraph/store.go:568-573 | counts one change in each given subgraph and in no other |
| `ContextStore.SetGeneralMembers` | internal/contextgraph/store.go:852-866 | exactly the wanted nodes of the project are members afterwards |
| `ContextStore.AddAll` | internal/contextgraph/store.go:136-212 | the batch loop adds every node or none |
| `ContextStore.NextSubgraphId` | internal/contextgraph/store.go:698-704 | the id loop finds the first free id past the number of subgraphs |
| `ContextStore.MemoryStore.CreateNode` | internal/contextgraph/store.go:543-581 | the new graph, and one delta to each subscription that hears of it |
| `ContextStore.MemoryStore.Commit` | internal/contextgraph/store.go:1028-1046 | a working copy is put in place and told; the invariants of graph, delivery and memory stay |
| `ContextStore.MemoryStore.UpdateNode` | internal/contextgraph/store.go:583-637 | the same for the memberships before and after |
| `ContextStore.MemoryStore.DeleteNode` | internal/contextgraph/store.go:639-683 | the same for the memberships it had |
| `ContextStore.MemoryStore.CreateSubgraph` | internal/contextgraph/store.go:685-718 | a new subgraph with exactly the members asked for |
| `ContextStore.MemoryStore.UpdateSubgraph` | internal/contextgraph/store.go:720-755 | the subgraph with exactly the members asked for |
| `ContextStore.MemoryStore.DeleteSubgraph` | internal/contextgraph/store.go:757-794 | the graph without it, and no delta |
| `ContextStore.MemoryStore.CreateNodes` | internal/contextgraph/store.go:122-224 | all nodes of the batch or none, and the deltas |
| `ContextStore.MemoryStore.RegisterTaskSubgraph` | internal/contextgraph/task_binding.go:11-64 | binds a task once |
| `ContextStore.MemoryStore.ProjectTaskContext` | internal/contextgraph/projection.go:17-99 | projects, replaces by something newer, or changes nothing |
| `ContextStore.MemoryStore.Subscribe` | internal/contextgraph/subscription.go:20-36 | an explicit subscription to visible subgraphs only, under the next id |
| `ContextStore.CreateSubscription` | internal/contextgraph/subscription.go:141-177 | stores a subscription of any source under the next id |
| `ContextStore.InitialSliceIn` | internal/contextgraph/slice.go:15-48 | the stored slice, or a new one of exactly the subgraphs covered, stored with its subscription |
| `ContextStore.MemoryStore.Unsubscribe` | internal/contextgraph/subscription.go:38-70 | ends the invocation's own subscription |
| `ContextStore.MemoryStore.EndInvocation` | internal/contextgraph/subscription.go:72-97 | ends every active subscription of the invocation and no other |
| `ContextStore.MemoryStore.RecordContextDelta` | internal/contextgraph/delta_dispatcher.go:12-46 | tells an event to exactly its audience |
| `ContextStore.MemoryStore.AckDelta` | internal/contextgraph/delta_dispatcher.go:75-91 | acknowledges the invocation's own delta |
| `ContextStore.MemoryStore.EnsureInitialSlice` | internal/contextgraph/slice.go:15-48 | the stored slice, or a new one that is stored with its subscription |
| `ContextStore.MemoryStore.SubmitCandidate` | internal/contextgraph/memory_buffer.go:36-75 | one candidate more, while the memory is open |
| `ContextStore.MemoryStore.FinalizeTaskMemory` | internal/contextgraph/review.go:21-64 | freezes an open memory and shows its batch |
| `ContextStore.MemoryStore.SubmitReview` | internal/contextgraph/review.go:66-98 | the stored receipt, a refusal, or the settled batch with its graph and deltas; `ContextReviewEffects` says what that writes |
| `ContextNews.TextChangesAreTold` | internal/contextgraph/delta_dispatcher.go:93-150 | every mutation but a review tells of each node whose text it changes in all the subgraphs the node is in |
| `ContextNews.SubscribersHear` | internal/contextgraph/delta_dispatcher.go:93-150 | so every active subscription that has one of them, sees it and admits the event hears of the change |
| `ContextNews.ReviewIsToldIff` | internal/contextgraph/review.go:156-188 | a review does so exactly when each node it marks, and does not replace, has all its subgraphs among those of the nodes it creates |
| `ContextNews.ReviewTellsNobody` | internal/contextgraph/review.go:176-188 | a concrete review that changes a member of a subgraph and tells nobody |
| `QuiescenceMonitor.ExecutionMonitor.ExecutionAbandoned` | internal/app/production_phase_failure.go:200-230 | one poll: the verdict and what is remembered |
| `QuiescenceMonitor.ExecutionMonitor.ForgetExecution` | internal/app/production_phase_failure.go:243-248 | forgets one execution and no other |
| `QuiescenceMonitor.AbandonedMeansQuiet` | internal/app/production_phase_failure.go:200-241 | for every sequence of polls in the order of time, an execution is declared abandoned no sooner than 90 seconds after its start and only if no poll of the last 90 seconds saw it active, whatever happens to other executions |
| `QuiescenceMonitor.AbandonedIffQuiet` | internal/app/production_targeted_verify_monitor.go:186-216 | once seen active, it is declared abandoned exactly when it was polled at least 90 seconds before and every poll since found it idle |
| `QuiescenceMonitor.AbandonedIffIdleSinceKnown` | internal/app/production_phase_failure.go:212-230 | one known only from the carrier's memory is declared abandoned exactly when 90 seconds have passed since the first poll that knew of it, or since the finish that poll was told of |
| `QuiescenceMonitor.AbandonedIffCold` | internal/app/production_phase_failure.go:212-223 | while no earlier poll knew of any work: 90 seconds after a finish since the start, never while something ran since without finishing, and otherwise 180 seconds after the start if the carrier says it is idle and remembers no finish; one from before the start is no end of this execution |
| `QuiescenceMonitor.OldFinishKeepsWaiting` | internal/app/production_agentteams_cleanup.go:321-341 | while the carrier remembers a finish from before the start and knows of no work since, no poll ever declares the execution abandoned |
| `QuiescenceMonitor.MonitorRemembers` | internal/app/production_phase_failure.go:200-230 | the idle mark is never earlier than the start or than a poll that saw activity |
| `ManagerInputs.CompletedStaysCompleted` | internal/app/production_ingress.go:657-748 | in every interleaving a completed input keeps its status, attempt and invocation |
| `ManagerInputs.AttemptsGrowToThree` | internal/app/production_ingress.go:657-748 | attempts never decrease and never pass three, and differ exactly when the invocation does |
| `ManagerInputs.CompletionAndDispatchCommute` | internal/app/production_taskmanager.go:2327-2362 | completion and dispatch acknowledgement, in either order, leave every input and invocation with the same status |
| `ManagerInputs.RotationNeverFails` | internal/app/production_ingress.go:704-743 | a retry acts exactly for a failed input at the attempt named and below three, and is never stopped by its own tables |
| `ManagerInputs.CompletionCounts` | internal/app/production_taskmanager.go:2337-2348 | completing an attempt completes the input exactly when it is still at that attempt |
| `ManagerInputs.ThirdFailureIsFinal` | internal/app/production_ingress.go:372-374 | after the third failure an input is never tried again |
| `ManagerInputs.RunKeeps` | internal/app/production_ingress.go:809-898 | every input is at one of its own attempts, and each attempt reached has exactly one invocation and binding |
| `ManagerInputs.DecisionGoesWithRetries` | internal/app/production_ingress.go:704-721 | over every run, once the attempt an input is at has a decision or an applied revision, the attempt it is at has that one in every later state, through every retry |
| `ManagerInputs.OnlyThatDecisionCompletes` | internal/app/production_taskmanager.go:2364-2378 | so from then on only that decision is accepted for the input, and only it, at the revision first applied, completes it |
| `ManagerInputs.RunKeepsAgreedIff` | internal/app/production_taskmanager.go:2364-2378 | over every run, the attempts at one input never disagree on the decision exactly when no step decides, otherwise than a later attempt, one that was given up |
| `ManagerInputs.OneInputDecidedTwice` | internal/app/production_taskmanager.go:2364-2378 | a concrete run in which that happens |
| `ManagerInputs.RunRefines` | internal/app/production_ingress.go:534-898 | over every run the three tables do to each input what one small record machine does, which says for every transaction when it acts and what it changes |
| `ManagerInputs.StepReplies` | internal/app/production_ingress.go:809-898 | and what the caller is told |
| `ManagerInputs.InvocationTextInjective` | internal/app/production_ingress.go:765-776 | under an injective hash and with parts that hold no NUL, two attempts have the same printed id exactly when they are the same or the project is itself the hash of the input and the other kind is "attempt" |
| `ManagerInputs.FirstAttemptsCollideIff` | internal/app/production_ingress.go:925-932 | exactly when two first attempts have the same printed id, whatever their parts hold |
| `ManagerInputs.Tables.PersistInput` | internal/app/production_ingress.go:809-859 | stores an input, its invocation and its binding together, once |
| `ManagerInputs.Tables.AcknowledgeDispatch` | internal/app/production_ingress.go:876-898 | moves a pending input and a prepared invocation, or is rolled back |
| `ManagerInputs.Tables.CompleteDecision` | internal/app/production_taskmanager.go:2327-2362 | completes the decision's input and a live invocation |
| `ManagerInputs.Tables.FailAbandonedInvocation` | internal/app/production_agentteams_cleanup.go:343-371 | fails a live invocation and its input unless that is completed |
| `ManagerInputs.Tables.FailExpiredInvocation` | internal/app/production_ingress.go:534-583 | fails an expired pending attempt |
| `ManagerInputs.Tables.RotateFailedInvocation` | internal/app/production_ingress.go:657-748 | gives a failed input its next attempt with what was decided and applied before |
| `ManagerInputs.Tables.CompleteAlreadyApplied` | internal/app/production_ingress.go:410-528 | closes an evaluation whose result the graph already holds |
| `TerminalOutbox.EndsAreFinal` | internal/app/production_phase.go:1925-2047 | in every run delivered stays delivered and abandoned stays abandoned |
| `TerminalOutbox.AbandonedIsRefused` | internal/app/production_phase.go:1881-1923 | an abandoned intent is neither promoted nor enqueued again |
| `TerminalOutbox.PromotionMatchesIntent` | internal/app/production_phase.go:2248-2295 | an intent becomes final only with the receipt of the output it recorded, by fingerprint or by text, for the invocation, endpoint and generation of the delivery, however the run goes on |
| `TerminalOutbox.DispatchIdsNeverRepeat` | internal/app/production_phase.go:2124-2175 | a dispatch id that was replaced never comes back |
| `TerminalOutbox.RotationTells` | internal/app/production_phase.go:2124-2175 | the caller is told to go on exactly when the delivery is open and the dispatch it named is no longer the current one |
| `TerminalOutbox.EnqueuedIs` | internal/app/production_phase.go:1969-2004 | a final delivery is taken exactly with a target and for the request that made the row there is |
| `TerminalOutbox.RunKeeps` | internal/app/production_phase.go:1881-2187 | every run keeps intents and final deliveries apart and moves each obligation forward only |
| `TerminalOutbox.Table.RecordIntent` | internal/app/production_phase.go:1938-1967 | records an intent once, for one identity |
| `TerminalOutbox.Table.EnqueueFinal` | internal/app/production_phase.go:1969-2004 | records a final delivery once, for one identity |
| `TerminalOutbox.Table.CheckExisting` | internal/app/production_phase.go:2006-2023 | a stored row answers only the request that made it |
| `TerminalOutbox.Table.Promote` | internal/app/production_phase.go:1881-1923 | promotes a matching intent, finds a final delivery, or enqueues one |
| `TerminalOutbox.Table.Abandon` | internal/app/production_phase.go:1925-1936 | abandons an intent and nothing else |
| `TerminalOutbox.Table.Deliver` | internal/app/production_phase.go:2025-2047 | delivers, replaces a failed dispatch, or counts the failure |
| `TerminalOutbox.Table.Replay` | internal/app/production_phase.go:2080-2100 | hands over every pending obligation once, records each as delivered, counted, or counted with a new dispatch, and touches no other |
| `TreeImport.ImportGivesReturnedTree` | internal/app/production_targeted_verify.go:1196-1296 | after an accepted import onto a workspace at its baseline, the source tree is the returned one up to digest and executable bits, and paths that are not allowed, and evidence, are as they were |
| `TreeImport.InterruptedImportResumes` | internal/app/production_targeted_verify.go:1261-1294 | an interrupted import that is run again ends where an uninterrupted one would have |
| `TreeImport.ImportIsIdempotent` | internal/app/production_targeted_verify.go:1249-1296 | importing again changes nothing more |
| `TreeImport.TreeIsDetermined` | internal/app/production_targeted_verify.go:1304-1328 | the returned files determine the tree |
| `TreeImport.Workspace.Import` | internal/app/production_targeted_verify.go:1249-1296 | refused with nothing changed exactly when a file is unsound, a path repeats or a change is not allowed; otherwise the imported workspace, in whatever order paths are taken |
| `TreeImport.Decode` | internal/app/production_targeted_verify.go:1304-1328 | accepts exactly sound files without repeated source paths, and gives their tree |
| `TreeImport.Validate` | internal/app/production_targeted_verify.go:1221-1247 | accepts exactly a tree equal to the baseline, or one that differs from it on allowed paths |
| `TreeImport.SameFiles` | internal/app/production_targeted_verify.go:1559-1569 | equal size and one-sided containment are equality |
| `TreeImport.Allows` | internal/app/production_targeted_verify.go:1493-1507 | an entry with a trailing slash admits what is below it, any other just itself |
| `TreeImport.AllowedIff` | internal/app/production_targeted_verify.go:1493-1507 | a path may change exactly when it is listed and is no directory, or lies below a listed directory |
| `TreeImport.DecodesIff` | internal/app/production_targeted_verify.go:1304-1328 | the returned list is accepted exactly when every path is inside, every file outside the evidence has permission bits only and the digest of its content, and no path repeats |
| `TreeImport.ComparableIff` | internal/app/production_targeted_verify.go:725-732 | two modes compare equal exactly when the three executable bits agree |

## Left out

- The rules for valid graphs and transitions (`validatePendingSubgraph`, `applyTransition`, `validateGraph`): a graph write is any new graph in which endpoints are stored under their own ids, accepted under the revision check.
- Two or more graph runtimes on one store: graph writes and reports interleave with a single runtime, and a reconcile pass is not itself interrupted by them.
- The order of stops and of pending commands within the delivery list: the source walks maps or sorts, the model takes any order; one clock reading serves a whole pass.
- Error codes and messages, except in coordination where the pass depends on them; tool and role authorization; audit records, injected faults, recipients, timestamps and permission snapshots in the context graph.
- ContextDelivery.PendingDeltas: the deltas come as a map, not sorted by their ids.
- ContextReview.ReviewFrozenBatch: the receipt lists ids in the order of the decisions, where the source sorts two of the lists.
- ContextStore.MemoryStore.SubmitCandidate: whether the statement is acceptable and the cited nodes are visible is a parameter; regular expressions are not modelled.
- ContextProjection: texts are ordered and compared character by character, and a source revision is a decimal number of 64 bits with an optional sign, as the source parses it.
- ContextStore.MemoryStore: every method requires and keeps the invariants of its three parts, which the empty store has and every reachable one with it.
- TerminalOutbox.Table.Deliver, TerminalOutbox.Table.Replay, CoordinationRuntime.GraphRuntime.Reconcile: stated for states that satisfy the invariant of their runs, which every reachable state does.
- `Search` and its subscription source apart from the id it takes, anchor parsing, and the PostgreSQL context store, which differs from the in-memory one.
- QuiescenceMonitor: trimming of keys and case folding of statuses; the start of an execution is known.
- ManagerInputs.Tables.CompleteAlreadyApplied: whether the graph already holds exactly the result is a parameter.
- ManagerInputs: whether the agent of an attempt that was given up can still call, which is a matter of authorization; the loop that picks inputs to retry, the recovery of persisted decisions, and the contents of prompts and bindings; SQL isolation is taken as one atomic step per transaction.
- TerminalOutbox: the read and the guarded write of an operation are one step, and a hand-over to the Task Manager is given by its result.
- TreeImport.Decode: whether a returned path is valid is given with the file.
- TreeImport: cleaning of paths, symbolic links, directories and I/O errors; the digest is the content.
- Uniqueness of generated node ids against ids chosen by callers: the code does not promise it; the exact conditions are proved instead.
