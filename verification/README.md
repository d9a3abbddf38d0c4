# n8n: verified models of inheritance, executions, activation and repair

These Dafny modules model the parts of n8n's main process whose correctness does not
show in any single function, and prove what they promise over all inputs, all runs or
all interleavings. `dafny verify dfyconfig.toml` checks the whole project.

## What is modelled

* **Credential overwrites** (`CredentialHierarchy`, `OverwriteInheritance`): the ancestor
  worklist that grows while it is iterated, and overwrites denormalised in place through an
  order-dependent memo, saved, reloaded and applied.
* **Executions** (`ConcurrencyQueue`, `ExecutionRegistry`, `ExecutionLifecycle`,
  `ActiveExecutions`): the registry as a state machine over a pool of incarnations, settle-once
  promises, deferred `finally` callbacks and capacity gates. An event is the code between two
  awaits, so the theorems range over every interleaving. The service class performs the same
  steps in place.
* **Activation** (`TriggerLeadership`, `WebhookRegistration`, `RetryQueue`): the multi-main
  protocol over any number of instances, cut at every await of leader checks, stepdowns,
  activations and shutdowns, with joins, crashes, key expiry, overlapping checks and lossy and
  repeated delivery; webhook rows with compensation; retries with backoff.
* **Timers and deadlines** (`WaitTimers`, `Deadlines`).
* **Supporting cores** (`CredentialRepair`, `KeyPaths`, `NodeIndex`, `AwsHost`).

Where the source updates state, a class carries its fields and each method is proved equal to
a step function; the lemmas are about those functions. Outcomes the code cannot choose (a
failed write, a throwing hook, an expired key) are parameters or events.

## Where the code differs from what it promises

* `webhookService.storeWebhook` upserts (`packages/cli/src/webhooks/webhook.service.ts:114-118`),
  while `addWebhooks` and its comments expect an insert that fails on a taken path. A taken path
  is silently taken over instead; `OthersUntouched` and `CompensationRestores` give the exact
  condition under which nobody else is affected.
* `ConcurrencyQueue.remove` resumes the next waiter although the removed one held no slot
  (`packages/cli/src/concurrency/concurrency-queue.ts:45-55`); `LimitExact` and `LimitRespected`
  say when and by how much the limit is exceeded.
* Stopping a waiting execution that is not finalised leaves its promise and its unit pending
  for good, and only then (`StopFate`, `SlotLost`).
* An add whose repository write fails after throttling never gives its unit back
  (`FailedAddKeepsUnit`, `packages/cli/src/active-executions.ts:78-98`).
* Parents that disagree on an overwrite are merged with the last one winning and read with the
  first one winning, so denormalising changes reads (`SingleInheritanceIsExact`).
* `shutdown` disables throttling before it calls `removeAll`, which then returns at once
  (`packages/cli/src/active-executions.ts:266`, `283`): queued adds are never let through, as
  promised, but neither are they taken out of their queues (`ShutdownHoldsQueued`,
  `ShutdownRemovesNobody`).
* Two instances can hold one workflow's triggers. The step theorem `StepKeyed` is an equivalence
  that names the only three ways, `ExpiryDuplicates` and `ShutdownDuplicates` carry two of them
  through: an expired key of a live leader, and a graceful shutdown that deletes its key while an
  activation goes on (`packages/cli/src/commands/start.ts:98-111`). `AtMostOnce` is about all
  other runs.
* Leader-only triggers fail exactly at the steps `StepLeaderOnly` names, among them a stepdown
  between the decision and the addition (`FollowerHoldsTriggers`).
* The instance that owns the key may not lead, and then nobody leads while it renews the key
  (`LockedUntil`, `LockedMeansLeaderless`). `StepOwnerLeads` is an equivalence that names the only
  three ways there: a process that starts up under the id of the key's owner, which in a container
  is the host name (`packages/core/src/instance-settings/instance-settings.ts:66`, `RejoinLocks`);
  a reaction of the owner to a read from before it won; and an attempt it loses to itself, both
  from overlapping checks (`OverlapLocks`, `LockedReachable`).
* A leader can be without a workflow that is stored as active, with nothing under way to add it:
  `StepCovered` names the steps, `LeaderForgets` is a run.
* `stopTracking` keeps entries whose timers it clears, and a direct start keeps a timer whose
  entry it deletes (`StepdownStrands`, `RestartArmsTwice`).
* A retry that fails after `packages/cli/src/active-workflow-manager.ts:622` throws in its own
  error handler and is not retried, unless the workflow was queued afresh meanwhile, in which case
  two timers are left; in multi-main a retry only publishes and leaves a dead entry
  (`LateFailure`, `StepOneTimer`, `StepKeepsTrying`).
* The two caches of `replaceInvalidCredentials` agree with the direct lookup exactly when no two
  slots use one absent id with different unresolved names (`WorkflowRefinement`, `NameTakenOver`).
* Keys with dots or brackets, and an empty key at the root, print paths that do not read back
  (`ParseInverts`).

## Model

| member | source | states |
|---|---|---|
| CredentialHierarchy.ParentTypesAreAncestors | packages/cli/src/credential-types.ts:26-38 | On every acyclic `extends` graph, multiple parents included, the types listed are exactly the strict ancestors. |
| CredentialHierarchy.ListedNearestFirst | packages/cli/src/credential-types.ts:26-38 | On a single-inheritance chain the first occurrences appear nearest first, whatever the worklist repeats. |
| CredentialHierarchy.ListOfOneParent | packages/cli/src/credential-types.ts:26-38 | A type with one parent lists the parent, then the parent's own list, then only repetitions of it. |
| CredentialHierarchy.AncestorsRankLower | packages/cli/src/credential-types.ts:33-35 | The termination measure: on an acyclic graph the number of ancestors drops from a type to any of its ancestors. |
| CredentialHierarchy.ScanAdvances | packages/cli/src/credential-types.ts:33-35 | One turn of the loop over the growing array: the position moves on, the new element's list joins the next generation, and what is still to be appended loses exactly that element. |
| CredentialHierarchy.CredentialTypes.GetParentTypes | packages/cli/src/credential-types.ts:26-38 | The loop that appends to the array it iterates terminates and returns that list. |
| OverwriteInheritance.InheritedOverwrites | packages/cli/src/credentials-overwrites.ts:115-128 | After denormalising any raw map in any key order, a read gives each key the raw value of the nearest type on the chain that defines it, though the memo may have left stored entries raw. |
| OverwriteInheritance.CoherentOverwrites | packages/cli/src/credentials-overwrites.ts:115-128 | The same on any acyclic hierarchy, several parents included, for every key on which the parents agree wherever a type leaves it to them: neither denormalising, nor the order, nor the memo changes what is read. |
| OverwriteInheritance.GetIsInherited | packages/cli/src/credentials-overwrites.ts:203-210 | On such a hierarchy the first definer in the worklist order, which is not the order of inheritance, still gives the inherited value. |
| OverwriteInheritance.GetIsNearest | packages/cli/src/credentials-overwrites.ts:203-210 | For any stored map, `get` on a chain is the nearest definition. |
| OverwriteInheritance.ResolveFaithful | packages/cli/src/credentials-overwrites.ts:171-201 | Whatever the memo says, a resolved entry has every key the raw entry has, and only inherited values. |
| OverwriteInheritance.DenormaliseFaithful | packages/cli/src/credentials-overwrites.ts:121-127 | The same for every stored entry after a pass in any order, repeats and omissions included. |
| OverwriteInheritance.ReloadStable | packages/cli/src/credentials-overwrites.ts:56-95 | Denormalising, saving, loading and denormalising again, in any two orders, leaves every read unchanged. |
| OverwriteInheritance.AppliedNearest | packages/cli/src/credentials-overwrites.ts:152-169 | Applying overwrites: a field that is there and neither null nor the empty string keeps its value, any other one takes the nearest raw definition if there is one, and applying twice is applying once. |
| OverwriteInheritance.SingleInheritanceIsExact | packages/cli/src/credentials-overwrites.ts:115-128 | On an acyclic catalogue whose `extends` lists name known types without repeats: denormalising changes no read, for all overwrites and all key orders, if and only if no type extends two others. |
| OverwriteInheritance.TwoParentsAgree | packages/cli/src/credentials-overwrites.ts:190-210 | A type with two root parents, after a pass over all the overwrites in any order, none of which belongs to a descendant of the type: the read of a key is as it was if and only if the type defines the key, or one parent does not, or both give it one value. |
| OverwriteInheritance.TwoParentsDisagree | packages/cli/src/credentials-overwrites.ts:190-210 | Otherwise, in every order, the merge keeps the last parent's value and the read of the raw map the first one's. |
| OverwriteInheritance.StoredEntriesDependOnOrder | packages/cli/src/credentials-overwrites.ts:171-175 | The stored map depends on the key order: over the overwrites of a chain of three types, the middle entry stays raw if the pass comes to its child first and is merged otherwise, in each of the orders. |
| OverwriteInheritance.CredentialsOverwrites.GetOverwrites | packages/cli/src/credentials-overwrites.ts:171-201 | The recursion over `extends` with its memo computes the resolved entry and the memo after it. |
| OverwriteInheritance.CredentialsOverwrites.SetPlainData | packages/cli/src/credentials-overwrites.ts:115-128 | Resets the memo and leaves the denormalised map. |
| OverwriteInheritance.CredentialsOverwrites.SetData | packages/cli/src/credentials-overwrites.ts:130-143 | Stores the map as denormalised, not as given, and only under persistence. |
| OverwriteInheritance.CredentialsOverwrites.LoadOverwriteDataFromDb | packages/cli/src/credentials-overwrites.ts:56-76 | Denormalises what is stored and leaves the stored copy alone. |
| OverwriteInheritance.CredentialsOverwrites.Read | packages/cli/src/credentials-overwrites.ts:203-210 | The reverse, map, filter and reduce of `get`. |
| OverwriteInheritance.CredentialsOverwrites.ApplyOverwrite | packages/cli/src/credentials-overwrites.ts:152-169 | The loop over overwrite keys fills exactly the fields that are missing, null or the empty string. |
| OverwriteInheritance.CredentialsOverwrites.SaveThenReload | packages/cli/src/credentials-overwrites.ts:56-95 | Through the service: what is read after a save and a reload equals what was read before, and is the nearest raw definition. |
| ConcurrencyQueue.TakeAndGiveKeepLimit | packages/cli/src/concurrency/concurrency-queue.ts:22-43 | Enqueue lets a caller through exactly while fewer than the limit are through; dequeue hands the unit to the first waiter or frees it. |
| ConcurrencyQueue.RemoveOverAdmits | packages/cli/src/concurrency/concurrency-queue.ts:45-55 | Removing a queued execution resumes another waiter without a free unit exactly when another execution is queued: one more than the limit is then through. |
| ConcurrencyQueue.LimitHoldsWithoutExcess | packages/cli/src/concurrency/concurrency-queue.ts:12-76 | The limit holds exactly while that excess is zero. |
| ConcurrencyQueue.CapacityQueue.Enqueue | packages/cli/src/concurrency/concurrency-queue.ts:22-33 | Decrements the capacity and queues the caller when it turns negative. |
| ConcurrencyQueue.CapacityQueue.Dequeue | packages/cli/src/concurrency/concurrency-queue.ts:39-43 | Increments the capacity and resumes the first waiter. |
| ConcurrencyQueue.CapacityQueue.Remove | packages/cli/src/concurrency/concurrency-queue.ts:45-55 | Splices the first entry of the execution out, gives its unit back and resumes the next waiter. |
| ExecutionRegistry.TraceInv | packages/cli/src/active-executions.ts:54-295 | Over every interleaving of adds, failed writes, registrations, callbacks, stops, finalisations, status changes, removals and disabling, the queues list exactly the suspended adds, every map entry is a registered incarnation of its id, and no unit is lost or made up. |
| ExecutionRegistry.StepInv | packages/cli/src/active-executions.ts:54-204 | Every single event keeps that invariant. |
| ExecutionRegistry.StartsThrottled | packages/cli/src/concurrency/concurrency-control.service.ts:48-75 | At the start: throttling is on in regular mode with some positive limit, and each queue with a positive limit has that many units and nobody in it. |
| ExecutionRegistry.WhoWaits | packages/cli/src/concurrency/concurrency-control.service.ts:116-120 | An add waits exactly when throttling is on and it is one of a webhook or a trigger with no production unit left, or of an evaluation with no evaluation unit left; all other modes take nothing. |
| ExecutionRegistry.AddedRun | packages/cli/src/active-executions.ts:54-111 | What an add that is let through leaves behind: a running, unsettled execution without a workflow execution attached, which takes over start time and response promise if it resumes. |
| ExecutionRegistry.ThrottleConservation | packages/cli/src/active-executions.ts:80-128 | Capacity missing from a gate is always the number of throttles whose release has not run; what the gate counts as let through is what has been let through. |
| ExecutionRegistry.LimitRespected | packages/cli/src/concurrency/concurrency-control.service.ts:116-138 | Over every interleaving at most `limit` executions are through a gate, plus one for each removal made while another execution was queued. |
| ExecutionRegistry.LimitExact | packages/cli/src/concurrency/concurrency-control.service.ts:116-138 | Along any run from the start, while throttling is on, at most `limit` executions are through the gate at every point if and only if no queued execution is removed while another one is queued. |
| ExecutionRegistry.LimitHoldsExactly | packages/cli/src/concurrency/concurrency-control.service.ts:116-138 | The same from every state that satisfies the invariant and has no excess. |
| ExecutionRegistry.LimitExceeded | packages/cli/src/concurrency/concurrency-control.service.ts:134-138 | A run of four events from the start with one slot that ends with two executions through. |
| ExecutionRegistry.StepExcess | packages/cli/src/concurrency/concurrency-control.service.ts:116-138 | Only such a removal can raise the excess, and by one. |
| ExecutionRegistry.TraceExcess | packages/cli/src/concurrency/concurrency-control.service.ts:116-138 | So over a run the excess is at most the number of such removals. |
| ExecutionLifecycle.ReleasedAtMostOnce | packages/cli/src/active-executions.ts:114-128 | However often an incarnation is stopped or finalised, its callback releases at most once. |
| ExecutionLifecycle.IncarnationSafety | packages/cli/src/active-executions.ts:100-128 | The late callback of a replaced incarnation keeps the id's new entry exactly when the old one was waiting when it was replaced, and otherwise deletes it; it never changes what the entry records. |
| ExecutionLifecycle.CarriedOver | packages/cli/src/active-executions.ts:100-109 | Over any number of waits and resumes while the id stays in the map, `startedAt` is kept, and so is the response promise unless one is attached. |
| ExecutionLifecycle.StopFate | packages/cli/src/active-executions.ts:165-182 | For an unsettled incarnation: over every run after a stop its promise settles if and only if it was not waiting when stopped, and if it was waiting its unit is never released. |
| ExecutionLifecycle.FirstSettlementDecides | packages/cli/src/active-executions.ts:165-204 | An unsettled execution that is finalised first is fulfilled over every later run; one that is stopped first while it is not waiting is rejected over every later run. |
| ExecutionLifecycle.ResponseSettlement | packages/cli/src/active-executions.ts:150-182 | A response promise still pending is rejected for good by a stop, waiting or not, and fulfilled for good by resolving it. |
| ExecutionLifecycle.AttachedPromise | packages/cli/src/active-executions.ts:143-182 | The promise attached last is the one that a stop rejects and a resolution fulfils. |
| ExecutionLifecycle.StopCancels | packages/cli/src/active-executions.ts:177-179 | A stop cancels the workflow execution that is attached to a running execution, and only that. |
| ExecutionLifecycle.WaitDetaches | packages/cli/src/active-executions.ts:121-123 | The callback of a waiting execution detaches its workflow execution, so no later stop reaches it. |
| ExecutionLifecycle.FailedAddKeepsUnit | packages/cli/src/active-executions.ts:78-98 | An add whose repository write fails after throttling keeps its unit over every later run. |
| ExecutionLifecycle.SlotLost | packages/cli/src/active-executions.ts:165-182 | Such a stop from the start: with one production slot, an execution that is stopped while it waits holds the slot over every later run, and its promise never settles. |
| ExecutionLifecycle.StopWhileWaiting | packages/cli/src/active-executions.ts:173-176 | The waiting branch: only the entry goes. |
| ExecutionLifecycle.StoppedWaitingHoldsForever | packages/cli/src/active-executions.ts:114-128 | An unsettled incarnation that no id maps to any more, as that branch leaves it, is never settled and never releases. |
| ExecutionLifecycle.PassSpec | packages/cli/src/active-executions.ts:269-281 | The first shutdown pass treats each enumerated entry once, in any order: cancelled, removed, or left alone. |
| ExecutionLifecycle.DrainStep | packages/cli/src/active-executions.ts:119-128 | With throttling disabled each callback removes exactly itself from the pending ones: the termination measure. |
| ExecutionLifecycle.Drain | packages/cli/src/active-executions.ts:286-294 | While callbacks run, an entry stays until the first one that deletes it. |
| ExecutionLifecycle.DrainEmpties | packages/cli/src/active-executions.ts:286-294 | The waiting loop empties the map in every order of callbacks if and only if each entry has a pending callback that deletes it. |
| ExecutionLifecycle.CancelAllDrains | packages/cli/src/active-executions.ts:261-295 | In regular mode with `cancelAll` the pass leaves only non-waiting entries with settled promises, and the loop then ends if and only if no entry was stuck: non-waiting with its own callback already run. |
| ExecutionLifecycle.ShutdownEmpties | packages/cli/src/active-executions.ts:261-295 | From the start in regular mode, over every run whose status changes are all to waiting, shutting down with `cancelAll` ends with an empty map, whatever the order of the entries and of the callbacks. |
| ExecutionLifecycle.NeverStuck | packages/cli/src/active-executions.ts:252-254 | No entry is ever stuck unless a status is changed away from waiting after its callback has run. |
| ExecutionLifecycle.WaitsAreNotLate | packages/core/src/execution-engine/node-execution-context/base-execute-context.ts:108-113 | The only caller sets the status to waiting, which is never such a change. |
| ExecutionLifecycle.ShutdownHoldsQueued | packages/cli/src/active-executions.ts:263-267 | Once shutdown has begun, no add that is still queued is ever let through, over every later run, nor taken out of its queue. |
| ExecutionLifecycle.DisabledForGood | packages/cli/src/concurrency/concurrency-control.service.ts:163-165 | Disabling is for good: over every later run throttling stays off and a queued add stays queued. |
| ExecutionLifecycle.ShutdownRemovesNobody | packages/cli/src/active-executions.ts:283-283 | The `removeAll` of shutdown comes after throttling is disabled and does nothing, whatever is queued. |
| ExecutionLifecycle.RemoveAllEmpties | packages/cli/src/concurrency/concurrency-control.service.ts:145-154 | With throttling on, going through all the waiters of a queue leaves nobody in it: each is taken out, or let through in the place of one that is. |
| ActiveExecutionsService.ActiveExecutions.Create | packages/cli/src/concurrency/concurrency-control.service.ts:48-75 | Fails exactly when a limit is zero; otherwise starts empty, throttled only in regular mode with a positive limit, and satisfies the invariant. |
| ActiveExecutionsService.ActiveExecutions.BeginAdd | packages/cli/src/active-executions.ts:54-87 | `add` up to throttling. |
| ActiveExecutionsService.ActiveExecutions.Register | packages/cli/src/active-executions.ts:100-111 | The rest of `add`: keeps the start time and response promise of the entry it replaces. |
| ActiveExecutionsService.ActiveExecutions.OnSettled | packages/cli/src/active-executions.ts:119-128 | The `finally` callback: releases, then keeps a waiting entry or deletes by id; keeps the invariant. |
| ActiveExecutionsService.ActiveExecutions.ReleaseUnit | packages/cli/src/concurrency/concurrency-control.service.ts:125-129 | Gives a unit back and resumes the next queued add. |
| ActiveExecutionsService.ActiveExecutions.RemoveQueuedAdd | packages/cli/src/concurrency/concurrency-control.service.ts:134-138 | Takes an add out of its queue; keeps the invariant. |
| ActiveExecutionsService.ActiveExecutions.RemoveAllQueued | packages/cli/src/concurrency/concurrency-control.service.ts:145-154 | The loop over all waiters, skipped when disabled. |
| ActiveExecutionsService.ActiveExecutions.StopExecution | packages/cli/src/active-executions.ts:165-182 | The three outcomes of a stop: no entry, waiting, running. |
| ActiveExecutionsService.ActiveExecutions.FinalizeExecution | packages/cli/src/active-executions.ts:185-204 | Settles the promise of the current incarnation if it is still pending. |
| ActiveExecutionsService.ActiveExecutions.SetStatus | packages/cli/src/active-executions.ts:252-254 | Fails exactly without an entry. |
| ActiveExecutionsService.ActiveExecutions.AttachWorkflowExecution | packages/cli/src/active-executions.ts:139-141 | Fails exactly without an entry. |
| ActiveExecutionsService.ActiveExecutions.AttachResponsePromise | packages/cli/src/active-executions.ts:143-148 | Fails exactly without an entry. |
| ActiveExecutionsService.ActiveExecutions.ResolveResponsePromise | packages/cli/src/active-executions.ts:150-153 | Settles the response promise once. |
| ActiveExecutionsService.ActiveExecutions.ResolveExecutionResponsePromise | packages/cli/src/active-executions.ts:207-220 | Leaves the promise of a waiting execution for the resumed one. |
| ActiveExecutionsService.ActiveExecutions.ShutdownFirstPass | packages/cli/src/active-executions.ts:261-281 | Disables throttling, then passes over the ids once; returns exactly the ids with a response promise, or all in regular mode with `cancelAll`. |
| ActiveExecutionsService.ActiveExecutions.ShutdownEntry | packages/cli/src/active-executions.ts:272-280 | One entry of the pass. |
| ActiveExecutionsService.ActiveExecutions.AwaitActiveExecutions | packages/cli/src/active-executions.ts:285-294 | The waiting loop terminates with an empty map on every drainable registry. |
| CredentialRepair.DirectMeans | packages/cli/src/workflow-helpers.ts:85-167 | The direct lookup in terms of the table's rows: the row with the id and type; without an id, or for an id no row has, the only row of that type with the name; nothing when no row or several rows have it. |
| CredentialRepair.ByNameUnique | packages/cli/src/workflow-helpers.ts:100-112 | The lookup by name answers with a row if and only if exactly one index of the table has that type and name. |
| CredentialRepair.CacheRefinement | packages/cli/src/workflow-helpers.ts:74-168 | From any caches filled by earlier slots, the cached run gives every slot the result of a direct lookup if and only if no two slots (nor a cached one) disagree about the name of an absent, unresolved id. |
| CredentialRepair.WorkflowRefinement | packages/cli/src/workflow-helpers.ts:69-173 | For a whole workflow from empty caches: by id, then by unique name, up to writing an unresolved name with a null id. |
| CredentialRepair.NameTakenOver | packages/cli/src/workflow-helpers.ts:121-163 | Two credentials with one absent id under two names that resolve nothing: the second takes the name of the first, which the direct lookup would leave alone. |
| CredentialRepair.UnresolvedNames | packages/cli/src/workflow-helpers.ts:85-119 | Which of the two a slot without an id gets when its name does not resolve: the first such slot stays as written, every later one gets the name under a null id. |
| CredentialRepair.AnswerIsCached | packages/cli/src/workflow-helpers.ts:121-163 | What is answered for an id is cached under the id it has. |
| CredentialRepair.SkippedNodesStay | packages/cli/src/workflow-helpers.ts:79-84 | A disabled node, or one without credentials, stays as it is; of any other node only the credentials change, not their number. |
| CredentialRepair.RepairFaithful | packages/cli/src/workflow-helpers.ts:85-167 | One slot agrees with the direct lookup exactly when it agrees with what is cached under its absent id. |
| CredentialRepair.AgreementSplits | packages/cli/src/workflow-helpers.ts:121-163 | What processing one slot adds to the cache, as seen by any later slot. |
| CredentialRepair.RepairKeepsCaches | packages/cli/src/workflow-helpers.ts:74-168 | Every cache entry stays a unique match, a row, or the mark of a failed lookup. |
| CredentialRepair.RepairNodesFlat | packages/cli/src/workflow-helpers.ts:80-90 | Skipped nodes apart, nodes are repaired as one sequence of slots sharing the caches. |
| CredentialRepair.SlotsIdempotent | packages/cli/src/workflow-helpers.ts:80-172 | A second run over the slots with mirrored caches changes nothing. |
| CredentialRepair.Idempotent | packages/cli/src/workflow-helpers.ts:80-172 | A second run with fresh caches changes nothing, for every list of nodes, over a table with unique ids. |
| CredentialRepair.ReplaceInvalidCredentials | packages/cli/src/workflow-helpers.ts:69-173 | The in-place loop over the nodes. |
| CredentialRepair.ReplaceAt | packages/cli/src/workflow-helpers.ts:79-84 | One node: skipped, or all its entries. |
| CredentialRepair.ReplaceInNode | packages/cli/src/workflow-helpers.ts:84-168 | The loop over one node's entries. |
| CredentialRepair.ReplaceOne | packages/cli/src/workflow-helpers.ts:85-167 | The two cache lookups and the three repository calls behind them. |
| TriggerLeadership.AtMostOnce | packages/cli/src/active-workflow-manager.ts:508-517 | From an empty cluster, over every interleaving at the awaits of checks, stepdowns, activations and shutdowns without a step that takes the key from an active instance: a workflow's triggers are in memory on at most one instance, and at most one leads that has not given up its key. |
| TriggerLeadership.StepKey | packages/cli/src/scaling/multi-main-setup.ee.ts:62-129 | A vacant key is taken exactly by an instance that has asked for it; a taken one becomes vacant exactly when it expires or a shutdown deletes it, and changes hands in no other way. |
| TriggerLeadership.OnlyStoppingClears | packages/cli/src/commands/start.ts:98-102 | Over every run only an instance that has been told to stop deletes the key. |
| TriggerLeadership.StepKeyed | packages/cli/src/scaling/multi-main-setup.ee.ts:62-129 | Only the owner of the key is active (holds triggers, adds some, leads, or has just won): a step keeps that if and only if it does not let an active owner's key expire, delete the key of an instance that is still active, or start an activation on a leader without the key. |
| TriggerLeadership.StepKeyedAt | packages/cli/src/scaling/multi-main-setup.ee.ts:62-129 | The same, exactly, for each instance. |
| TriggerLeadership.RunKeyed | packages/cli/src/scaling/multi-main-setup.ee.ts:62-129 | Along runs without such steps only the owner of the key is ever active. |
| TriggerLeadership.ClearsByRole | packages/cli/src/scaling/multi-main-setup.ee.ts:62-68 | A shutdown deletes the key if and only if the instance leads, by its role, when it decides. |
| TriggerLeadership.CleanClear | packages/cli/src/commands/start.ts:98-102 | A shutdown that deletes its own key breaks nothing if and only if the instance holds nothing, activates nothing and has not just won again. |
| TriggerLeadership.ShutdownDuplicates | packages/cli/src/commands/start.ts:98-111 | From any state in which a stopping leader is about to delete its key with an activation under way, a graceful run ends with two holders: the process lives on and the activation with it. |
| TriggerLeadership.ShutdownDuplicatesReachable | packages/cli/src/commands/start.ts:98-111 | Such a run from an empty cluster, without an expiry or a crash. |
| TriggerLeadership.ExpiryDuplicates | packages/cli/src/scaling/multi-main-setup.ee.ts:97-128 | From any state in which a live owner's key expires, a run ends with two holders. |
| TriggerLeadership.ExpiryDuplicatesReachable | packages/cli/src/scaling/multi-main-setup.ee.ts:97-128 | Such a run from an empty cluster. |
| TriggerLeadership.Takeover | packages/cli/src/scaling/multi-main-setup.ee.ts:97-128 | With the key vacant any listening instance without a bulk activation under way takes over and adds a stored active workflow, whatever the others hold. |
| TriggerLeadership.StepLeaderOnly | packages/cli/src/active-workflow-manager.ts:557-619 | A step keeps triggers and pending activations on leaders if and only if it is not a demotion during an activation or before the handlers listen, a lost overlapping attempt to take the key, or a throwing close function on an instance that does not lead. |
| TriggerLeadership.RunLeaderOnly | packages/cli/src/active-workflow-manager.ts:666-698 | Hence over every run without such a step, expired keys included. |
| TriggerLeadership.AtomicCheckIsSafe | packages/cli/src/scaling/multi-main-setup.ee.ts:70-129 | A leader check run as one atomic handler with no activation under way is never such a step. |
| TriggerLeadership.CommitAfterStepdown | packages/cli/src/active-workflow-manager.ts:560-613 | Stepped down between the decision and the addition, a follower ends up holding triggers. |
| TriggerLeadership.FollowerHoldsTriggers | packages/cli/src/active-workflow-manager.ts:560-613 | A run from an empty cluster that ends with a follower holding a workflow nothing is about to remove. |
| TriggerLeadership.RemovedAgain | packages/cli/src/active-workflow-manager.ts:513-517 | An activation that ends while a removal of its workflow is under way lasts exactly if no other handler is still to visit the workflow. |
| TriggerLeadership.StrandedTriggers | packages/cli/src/scaling/multi-main-setup.ee.ts:83-95 | A workflow held by an instance that does not lead leaves it exactly by a crash, a shutdown, a trigger error, a rejected activation or a check that finds the key vacant: removal commands and other checks do nothing. |
| TriggerLeadership.StepOwnerLeads | packages/cli/src/scaling/multi-main-setup.ee.ts:70-129 | The live owner of the key leads or is about to hear that it has won: a step keeps that if and only if it is not a process starting up under the id that owns the key, the owner reacting to another read than its own id, or the owner hearing of an attempt it lost to itself, the last two with no such answer to come. |
| TriggerLeadership.RunOwnerLeads | packages/cli/src/scaling/multi-main-setup.ee.ts:70-129 | Hence along every run without such a step. |
| TriggerLeadership.RejoinLocks | packages/core/src/instance-settings/instance-settings.ts:66-66 | A run from an empty cluster into the opposite state: the leader's process crashes and starts again under the same host name before its key expires. |
| TriggerLeadership.LockedUntil | packages/cli/src/scaling/multi-main-setup.ee.ts:75-81 | An owner of the key that neither leads nor has just won stays so exactly until the key goes or its process does: its checks only renew the key. |
| TriggerLeadership.LockedMeansLeaderless | packages/cli/src/scaling/multi-main-setup.ee.ts:75-81 | Meanwhile no instance leads. |
| TriggerLeadership.OverlapLocks | packages/cli/src/scaling/multi-main-setup.ee.ts:97-128 | Two overlapping checks that both find the key vacant end there. |
| TriggerLeadership.LockedReachable | packages/cli/src/scaling/multi-main-setup.ee.ts:56-58 | Such a run from an empty cluster, without an expiry or a crash. |
| TriggerLeadership.StepCovered | packages/cli/src/active-workflow-manager.ts:430-495 | A leader holds each workflow that is stored as active, or is on its way to: a step keeps that if and only if it is not a removal with no activation pending, a bulk activation cut short before the workflow, an activation that ends without it in memory for good, a workflow stored as active behind the leader's back, or a takeover before the handlers listen or during a bulk activation that is past the workflow. |
| TriggerLeadership.RunCovered | packages/cli/src/active-workflow-manager.ts:430-495 | Hence along every run without such a step. |
| TriggerLeadership.InitCovers | packages/cli/src/active-workflow-manager.ts:96-105 | The start-up activation makes up for whatever is missing: after it a leader has each stored active workflow in memory or on its way, unless it was skipped for a bulk activation that is already past the workflow. |
| TriggerLeadership.StepBulk | packages/cli/src/active-workflow-manager.ts:430-460 | A bulk activation starts exactly at start-up, on an instance with a role, and at a takeover heard by the handlers, and only when none is under way; it then works through the ids stored when it read them. |
| TriggerLeadership.InitActivates | packages/cli/src/active-workflow-manager.ts:430-460 | Started with no other bulk activation under way, it brings every stored active workflow to the point where its triggers are added. |
| TriggerLeadership.StartedLeaderHolds | packages/cli/src/active-workflow-manager.ts:96-105 | From then on, over every run that drops nothing: a leader with no activation of a stored active workflow left to do holds it. |
| TriggerLeadership.OrdinaryStart | packages/cli/src/active-workflow-manager.ts:96-105 | The ordinary start from an empty cluster, with any workflows stored as active: the instance ends up leading with exactly those in memory and nothing left to do. |
| TriggerLeadership.LeaderForgets | packages/cli/src/active-workflow-manager.ts:508-517 | A run from an empty cluster with one instance: its key expires, it steps down, takes the key again, adds the workflow anew and only then removes it: it leads, has nothing left to do and does not hold the workflow. |
| TriggerLeadership.CommandReachesHolder | packages/cli/src/active-workflow-manager.ts:893-905 | Handled by the owner of the key, a removal leaves the workflow in memory nowhere and a finished addition there alone; instances that do not lead ignore both. |
| TriggerLeadership.MainInstance.OnLeaderId | packages/cli/src/scaling/multi-main-setup.ee.ts:73-107 | What a check does with the key it has read. |
| TriggerLeadership.MainInstance.TryBecomeLeader | packages/cli/src/scaling/multi-main-setup.ee.ts:110-118 | Sets the key if it is vacant; the answer is yet to come. |
| TriggerLeadership.MainInstance.OnKeySet | packages/cli/src/scaling/multi-main-setup.ee.ts:120-128 | What the instance does with the answer: a lost attempt announces no stepdown. |
| TriggerLeadership.MainInstance.RemoveAllTriggerAndPollerBasedWorkflows | packages/core/src/execution-engine/active-workflows.ts:218-253 | The handler's loop: removes all it set out to remove if and only if no close function of those throws. |
| TriggerLeadership.MainInstance.Init | packages/cli/src/active-workflow-manager.ts:96-105 | Fails exactly without a role and otherwise starts that activation. |
| TriggerLeadership.MainInstance.AddActiveWorkflows | packages/cli/src/active-workflow-manager.ts:430-438 | Skips when a bulk activation is in progress, and otherwise waits for the stored ids. |
| TriggerLeadership.MainInstance.OnActiveIds | packages/cli/src/active-workflow-manager.ts:438-460 | The rest with nothing in between: a leader starts one activation for each id, any other instance none. |
| TriggerLeadership.MainInstance.Handle | packages/cli/src/active-workflow-manager.ts:666-698 | Commands are handled by the leader alone. |
| TriggerLeadership.MainInstance.AddTriggersAndPollers | packages/cli/src/active-workflow-manager.ts:613-619 | The rest of `add` after its awaits, whatever the role is by then. |
| TriggerLeadership.MainInstance.DeleteKey | packages/cli/src/scaling/multi-main-setup.ee.ts:65-67 | Deletes the key without looking whose it is, and keeps the role. |
| WebhookRegistration.AllOrNothing | packages/cli/src/active-workflow-manager.ts:157-242 | For an ordinary activation either every webhook was stored and created, and each has a row of the workflow, or a clear that goes through leaves no row of it. |
| WebhookRegistration.OthersExactly | packages/cli/src/webhooks/webhook.service.ts:114-118 | The rows of other workflows afterwards are exactly those whose key was not written. |
| WebhookRegistration.OthersUntouched | packages/cli/src/webhooks/webhook.service.ts:114-118 | Hence other workflows are untouched if and only if no written key was theirs. |
| WebhookRegistration.TakenPathIsTakenOver | packages/cli/src/webhooks/webhook.service.ts:114-118 | A concrete registration that takes another workflow's path over and reports success. |
| WebhookRegistration.CompensationRestores | packages/cli/src/active-workflow-manager.ts:193-231 | A failed registration whose clear goes through restores the table if and only if the workflow had no rows before and took none over. |
| WebhookRegistration.EveryNodeReachable | packages/cli/src/active-workflow-manager.ts:168-186 | After success each webhook leads to its node if and only if no two webhooks of different nodes share a method and normalised path. |
| WebhookRegistration.TolerantAdds | packages/cli/src/active-workflow-manager.ts:197-208 | In a call that succeeds so, a webhook is owned exactly when its key was written or was the workflow's already. |
| WebhookRegistration.TolerantSucceeds | packages/cli/src/active-workflow-manager.ts:197-208 | On `init` and `leadershipChange` the call succeeds if and only if every error on the way is a query error and the cache is filled; the workflow then keeps every key it had; any other error compensates. |
| WebhookRegistration.ResultMeans | packages/cli/src/active-workflow-manager.ts:157-242 | What the caller is told: nothing to add, success, or the error of the first webhook that fails, with its node for a query error; a failed clear leaves what was written. |
| WebhookRegistration.SlashesDropped | packages/cli/src/active-workflow-manager.ts:179-184 | One slash at either end of a path does not matter, a second one does. |
| WebhookRegistration.RegisterWrites | packages/cli/src/active-workflow-manager.ts:168-232 | The loop gives every written key a row of the workflow and leaves all others. |
| WebhookRegistration.RegisterNode | packages/cli/src/active-workflow-manager.ts:168-232 | Under a key written repeatedly the last webhook wins. |
| WebhookRegistration.WebhookActivation.AddAllWebhooks | packages/cli/src/active-workflow-manager.ts:157-242 | The loop with its tolerated errors and its compensation. |
| RetryQueue.BackoffFromStart | packages/cli/src/active-workflow-manager.ts:781-809 | From the empty queue, over every interleaving, after n failures in a row the delay is min(1000 * 2^n, 86400000), and a pending timer waits for exactly that. |
| RetryQueue.DelayStep | packages/cli/src/active-workflow-manager.ts:790-793 | The doubling in the handler is that closed form. |
| RetryQueue.DelayInNumbers | packages/cli/src/constants.ts:70-71 | A second at first, then twice as long each time, up to a day. |
| RetryQueue.DelayIncreases | packages/cli/src/active-workflow-manager.ts:790-793 | Delays never decrease and never exceed a day. |
| RetryQueue.DelaySaturates | packages/cli/src/constants.ts:70-71 | The delay is a day if and only if at least 17 retries have failed. |
| RetryQueue.StepOneTimer | packages/cli/src/active-workflow-manager.ts:774-836 | Every step keeps one pending timer per workflow except the failure of a retry, early or late, behind whose back the workflow was queued afresh. |
| RetryQueue.RunOneTimer | packages/cli/src/active-workflow-manager.ts:774-845 | So over every run without such an overlap: no workflow has two pending timers, and each entry knows its own. |
| RetryQueue.OverlapReachable | packages/cli/src/active-workflow-manager.ts:620-632 | A run of four events from the empty queue that ends with an overlap. |
| RetryQueue.AtomicRetry | packages/cli/src/active-workflow-manager.ts:781-814 | A retry that runs to its end undisturbed never overlaps. |
| RetryQueue.StepKeepsTrying | packages/cli/src/active-workflow-manager.ts:781-836 | A queued workflow keeps being retried until, and only until, it leaves the queue, at line 622 or otherwise, or its only retry ends by publishing a command. |
| RetryQueue.LateFailure | packages/cli/src/active-workflow-manager.ts:622-632 | A retry that fails after line 622 is tried again if and only if the workflow has been queued afresh since. |
| RetryQueue.RetriesConserved | packages/cli/src/active-workflow-manager.ts:781-836 | Over every interleaving the retries under way are those that timers have started and that have not ended: none is lost and none ends twice. |
| RetryQueue.StepUnderWay | packages/cli/src/active-workflow-manager.ts:781-836 | The same step by step, on either side of line 622. |
| RetryQueue.ActivationQueue.AddQueuedWorkflowActivation | packages/cli/src/active-workflow-manager.ts:774-826 | Replaces any earlier entry and timer by a fresh one. |
| RetryQueue.ActivationQueue.RemoveQueuedWorkflowActivation | packages/cli/src/active-workflow-manager.ts:831-836 | Clears the timer and the entry together. |
| RetryQueue.ActivationQueue.RemoveAllQueuedWorkflowActivations | packages/cli/src/active-workflow-manager.ts:841-845 | Empties the queue and clears every entry's timer; retries under way go on. |
| RetryQueue.ActivationQueue.OnTimeout | packages/cli/src/active-workflow-manager.ts:781-787 | A timer fires once and starts a retry. |
| RetryQueue.ActivationQueue.LeaveQueue | packages/cli/src/active-workflow-manager.ts:621-622 | A retry takes its workflow off the queue, with writes still to come. |
| RetryQueue.ActivationQueue.RetryLater | packages/cli/src/active-workflow-manager.ts:788-808 | The handler: backs off and re-arms, or throws when the entry is missing. |
| RetryQueue.ActivationQueue.FinishRetry | packages/cli/src/active-workflow-manager.ts:786-814 | The end of a retry, before or after line 622. |
| WaitTimers.TrackedFromStart | packages/cli/src/wait-tracker.ts:55-149 | From start-up, over every run of polls (overlapping and late ones included), firings, stops and restarts, each entry's timer is armed while no stepdown has found entries, and without restarts of pending executions none is armed twice. |
| WaitTimers.StepAllArmed | packages/cli/src/wait-tracker.ts:71-149 | A step keeps every entry armed if and only if it is not a stepdown that finds entries. |
| WaitTimers.StepOneToOne | packages/cli/src/wait-tracker.ts:71-149 | A step keeps entries and armed timers one to one if and only if it is neither that nor a direct start of a pending execution. |
| WaitTimers.AddAllKeeps | packages/cli/src/wait-tracker.ts:71-82 | A poll keeps both and gives every execution it finds an entry. |
| WaitTimers.RestartArmsTwice | packages/cli/src/wait-tracker.ts:93-95 | A direct start leaves the timer behind, so the next poll that finds the execution arms it twice. |
| WaitTimers.StepdownStrands | packages/cli/src/wait-tracker.ts:138-148 | `stopTracking` clears the timers and keeps the entries: every entry is stuck. |
| WaitTimers.StuckUntilNamed | packages/cli/src/wait-tracker.ts:73-91 | No later poll arms a stuck entry: it stays so exactly until it is stopped or started by name. |
| WaitTimers.StepOneInterval | packages/cli/src/wait-tracker.ts:43-53 | Only starting to track while tracking leaks an interval that a stepdown would not clear. |
| WaitTimers.StepPolls | packages/cli/src/wait-tracker.ts:43-53 | The poll runs from the start of tracking until it is stopped, over every step. |
| WaitTimers.StopEndsPolling | packages/cli/src/wait-tracker.ts:138-148 | A stepdown then leaves no interval behind. |
| WaitTimers.FireTakesOff | packages/cli/src/wait-tracker.ts:77-79 | An execution whose timer fires has neither an entry nor a timer any more, and the others keep theirs. |
| WaitTimers.FiresAtMostOnce | packages/cli/src/wait-tracker.ts:71-83 | Over every run a timer resumes its execution at most once. |
| WaitTimers.WaitTracker.Start | packages/cli/src/wait-tracker.ts:43-53 | Sets a new interval and forgets an earlier one without clearing it. |
| WaitTimers.WaitTracker.GetWaitingExecutions | packages/cli/src/wait-tracker.ts:55-83 | The loop arms exactly the executions without an entry. |
| WaitTimers.WaitTracker.StopExecution | packages/cli/src/wait-tracker.ts:85-91 | Clears the timer and the entry together. |
| WaitTimers.WaitTracker.StartExecution | packages/cli/src/wait-tracker.ts:93-95 | Deletes the entry only. |
| WaitTimers.WaitTracker.OnTimeout | packages/cli/src/wait-tracker.ts:77-79 | A firing resumes the execution of its timer. |
| WaitTimers.WaitTracker.StopTrackingTimers | packages/cli/src/wait-tracker.ts:138-148 | Clears the interval and every entry's timer, or does nothing when tracking never started. |
| Deadlines.DeeperNoLater | packages/cli/src/workflow-execute-additional-data.ts:242-254 | Along any chain, once a level has a deadline every deeper one has one that is no later, and no later than its own start plus its own positive timeout. |
| Deadlines.ChainIsLeastBound | packages/cli/src/workflow-execute-additional-data.ts:242-254 | The deadline is the least of the root's and all own timeouts, and exists exactly when there is one. |
| Deadlines.ChildNoLater | packages/cli/src/workflow-execute-additional-data.ts:242-252 | A single call never extends its caller's deadline, and the code reads a deadline of 0, which callers never pass, as none. |
| Deadlines.FirstDeadline | packages/cli/src/workflow-execute-additional-data.ts:242-254 | One call in numbers: its own timeout, or its caller's deadline if that is earlier, or the largest safe integer; a caller's 0 counts as none. |
| Deadlines.LimitMeans | packages/cli/src/workflow-runner.ts:221-240 | The workflow's own limit, or the instance's default, capped by the instance's maximum; none when one that counts is zero or less. |
| Deadlines.SubworkflowTimeout | packages/cli/src/workflow-execute-additional-data.ts:242-254 | The reassigned variable holds that deadline. |
| Deadlines.RunMainProcess | packages/cli/src/workflow-runner.ts:221-330 | For a given `startedAt` the kill time is max(startedAt + limit, now); the soft deadline counts from now, so it is never before the kill time unless the start lies in the future. |
| KeyPaths.PrintsTheMatches | packages/cli/src/utils.ts:103-124 | On every tree: the printed strings are the renderings of the paths that lead to a matching string through a key, each path once, in order. |
| KeyPaths.DecimalDigits | packages/cli/src/utils.ts:112-112 | An index is printed in decimal digits without leading zeros and reads back as itself. |
| KeyPaths.ParseInverts | packages/cli/src/utils.ts:112-115 | A printed path reads back as the path if and only if no key on it has a dot or a bracket and it does not start with the empty key. |
| KeyPaths.ReadableStepwise | packages/cli/src/utils.ts:115-115 | The second half says exactly that no key is empty while what is printed so far is empty. |
| KeyPaths.ParseStrips | packages/cli/src/utils.ts:115-115 | Leading empty keys are what gets lost. |
| KeyPaths.PrintsExactlyTheMatches | packages/cli/src/utils.ts:103-124 | When all paths to matches are readable so, the printed paths are distinct, each parses back to a matching string directly under a key, and every such string's path is printed. |
| KeyPaths.LeavesAreMatches | packages/cli/src/utils.ts:103-124 | The recursion visits exactly the paths that lead to a match. |
| KeyPaths.LeavesDistinct | packages/cli/src/utils.ts:103-124 | No path is visited twice. |
| KeyPaths.PrintsLeaves | packages/cli/src/utils.ts:103-124 | The accumulated strings are the renderings of those paths, whatever the keys are. |
| KeyPaths.DottedKeysCollide | packages/cli/src/utils.ts:115-115 | An unreadable key at work: two strings get one path. |
| KeyPaths.GetAllKeyPaths | packages/cli/src/utils.ts:103-124 | The recursion that pushes into the shared array appends exactly those strings. |
| NodeIndex.KnownNodes | packages/cli/src/load-nodes-and-credentials.ts:336-393 | After postProcessLoaders the known nodes are exactly the two-segment names the lookup recognises plus one tool name per usable node. |
| NodeIndex.KnownAgreesWithLookup | packages/cli/src/load-nodes-and-credentials.ts:423-428 | The lookup and the index agree on a name if and only if it has two segments or neither knows it: the lookup ignores what follows a second dot. |
| NodeIndex.KnownSource | packages/cli/src/load-nodes-and-credentials.ts:387-393 | A known node leads to the source of its type in its own package. |
| NodeIndex.UndottedName | packages/cli/src/load-nodes-and-credentials.ts:423-428 | A name without a dot is looked up as the node "undefined" of the package so called. |
| NodeIndex.ToolSource | packages/cli/src/load-nodes-and-credentials.ts:322-322 | The tool of a known node leads to the source of that node. |
| NodeIndex.IndexedTypes | packages/cli/src/load-nodes-and-credentials.ts:308-350 | The descriptions sent out are those of the loaders under their full names, and one tool for each usable one, which is not usable as a tool again. |
| NodeIndex.SupportedNodes | packages/cli/src/load-nodes-and-credentials.ts:395-411 | Before the tools a credential supports the nodes its last loader lists, under their full names, and none unless that loader is a package. |
| NodeIndex.ToolSupport | packages/cli/src/load-nodes-and-credentials.ts:313-333 | With fresh tool names a credential supports a tool if and only if it supports the node it wraps. |
| NodeIndex.ToolsSupported | packages/cli/src/load-nodes-and-credentials.ts:326-332 | What a credential supports after all tools: what it did, and every tool of a node it did. |
| NodeIndex.ToolsAddNames | packages/cli/src/load-nodes-and-credentials.ts:321-324 | Each usable node adds its tool name and nothing else. |
| NodeIndex.MergedCredential | packages/cli/src/load-nodes-and-credentials.ts:395-411 | The index entry of a credential comes from the last loader that knows it. |
| NodeIndex.IndexAgreesOnSource | packages/cli/src/load-nodes-and-credentials.ts:440-455 | The index and getCredential pick the same loader's source. |
| NodeIndex.LoadNodesAndCredentials.GetCredential | packages/cli/src/load-nodes-and-credentials.ts:440-455 | Answers with the last loader that knows the credential, from the cache when none does any more, and fails otherwise. |
| NodeIndex.LoadNodesAndCredentials.CreateAiTools | packages/cli/src/load-nodes-and-credentials.ts:308-334 | The loop over the usable nodes. |
| NodeIndex.LoadNodesAndCredentials.PostProcessLoaders | packages/cli/src/load-nodes-and-credentials.ts:336-414 | The loop over the loaders, then the tools. |
| AwsHost.RegionalRoundTrip | packages/nodes-base/credentials/Aws.credentials.ts:233-238 | A regional host, global or Chinese domain, parses back to its service and region if and only if both are dot-free. |
| AwsHost.GlobalRoundTrip | packages/nodes-base/credentials/Aws.credentials.ts:230-238 | A global service's host parses back to the service without a region if and only if it is dot-free. |
| AwsHost.RegionalMatch | packages/nodes-base/credentials/Aws.credentials.ts:236-236 | The suffix pattern cannot match earlier in such a host. |
| AwsHost.DefaultHostMeans | packages/nodes-base/credentials/Aws.credentials.ts:226-228 | The default host in full: the Chinese domain for the two Chinese regions, the global one for any other. |
| AwsHost.SignedForDefaultHost | packages/nodes-base/credentials/Aws.credentials.ts:451-485 | A request to a default host is signed for the service and region it was built from, exactly unless the region is empty and the credential's is not. |

## Left out

- JavaScript objects used as dictionaries also answer inherited names such as `constructor`; the models use plain maps, and list integer-like keys in the given order.
- Overwrite entries that are null, encryption, JSON encoding, the reload broadcast and the guard against overlapping reloads; storage is one optional map.
- CredentialsHelper, node parameters and expression evaluation.
- ConcurrencyControlService telemetry and logging; an unknown execution mode, which throws in the source, is not among the modes.
- ActiveExecutionsService.ActiveExecutions.AwaitActiveExecutions: sleeps are callbacks run one at a time; an entry with no pending callback would make the source wait until one settles.
- ExecutionLifecycle.ShutdownEmpties: only callbacks run while `shutdown` waits; executions added or resumed meanwhile are not part of it.
- Streaming responses, lifecycle hooks, error workflows, push messages and user-interface broadcasts.
- The Bull queue, workers and recovery of enqueued executions at startup.
- TriggerLeadership: published commands may be delivered in any order, repeatedly or never, so message loss is covered but not measured; the database is one set of active ids.
- TriggerLeadership.MainInstance.RemoveAllTriggerAndPollerBasedWorkflows: the contract is for a handler nothing comes between; the interleaved removals are the events `Removed` and `Abort`. Workflows are removed in no fixed order.
- TriggerLeadership: renewal of the key by its owner has no effect in the model beyond the absence of an expiry; the exit of a process is a crash event. A command still on its way to Redis when its process dies is lost with it, and when a bulk activation fails the rest of its batch is not started.
- The webhook columns `webhookId` and `pathLength`, the webhook cache and dynamic path matching.
- External webhooks created at third parties: only whether creating or deleting them fails is modelled.
- WaitTimers: when a timer fires, since trigger times come from the database clock; `Fire` may happen at any moment.
- Deadlines.RunMainProcess: timer delays beyond what the runtime's timers accept, and the time that passes between the two clock readings.
- NodeIndex: loading of files, lazy loading, icons, custom API call options, domain restrictions and the property lists of wrapped descriptions; a loader whose `getCredential` throws.
- AwsHost: URL parsing itself; a host is the string the URL class reports. Request signing and custom endpoints.
- getVariables, shouldRestartParentExecution, addNodeIds and getDataLastExecutedNodeData are single expressions and would only add easy members.
- server.ts, abstract-server.ts, controllers, licensing and proxies are wiring.
