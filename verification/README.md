# Verified models of the objective controller, the attack-path atlas, the asset inventory, the check-pack lifecycle and the directory collector

The project models five parts of the repository and proves what they are for.

* **Objective controller** (`Paths`, `Candidates`, `Objectives`, `Gateway`, `RunRecord`, `Records`,
  `Queue`, `Protocol`, `Provenance`, `Repairs`, `Guarantees`, `Completion`, `Service`). A durable record per objective is changed by guarded, versioned,
  leased transactions and its history is chained by a MAC. A service run claims it, reserves signed
  budget, writes an intent before every external call, repairs and publishes batch by batch, merges
  and releases. `Records` gives the three mutations as functions of one record and what every run of
  them keeps; `Queue` is the store whose methods perform exactly those mutations; `Protocol` is the
  state machine of one record under any number of workers that claim, update, call out, lose their
  lease or crash in any order, where every update must carry the evidence the service checks before it;
  `Provenance` traces every publication and merge back to the answers it rests on, `Repairs` follows
  the attempts of a batch, `Guarantees` states what every interleaving keeps, and `Completion` that the
  objective can be completed with any chain of commits the evidence supports; `Service` is one run as a
  program, whose every update and call is shown to be a step of that machine while an arbitrary oracle
  lets other workers act in between.
  `Candidates` is the diff between two complete inventories, `Gateway` the Git tree delta and the
  required-check gate, `RunRecord` the offline evaluation run and the validator of its record.
* **Attack-path atlas** (`Atlas`, `Participation`): breadth-first enumeration under five ceilings, and
  the participation counts over its result.
* **Asset inventory** (`Inventory`, `Journal`, `Idempotence`): the two merge loops are proved against
  specification functions, and replay, alternation, retention and idempotence are proved of those.
* **Check packs** (`PackStore`, `FeedState`, `PackManager`): an immutable version store with a rollback
  stack, the replay guard for signed feeds, and the dry-run planner with the synchroniser it predicts.
* **Directory collector** (`Directory`, `Sids`): the nested paged collection, the primary-group pass,
  and the binary SID decoder of section 2.4.2.2 of [MS-DTYP].

Conventions. A SHA-256 digest is the value it was computed from, and a MAC is an arbitrary function,
injective where a lemma says so. A signature is one oracle bit on the signed value. A transaction is
one atomic step; an exception leaves the state as it was and appears as `Rejected`. Clocks, adapters
and the network are arbitrary functions; no clock is assumed to be monotone.

## Where the code falls short of the obvious reading

These are kept as the code has them; each comes with the exact condition under which the code does meet
the property.

* A rename that changes only letter case passes inspection as a clean candidate, but its run record is
  refused by `validate_result`. So is a record with more than 128 checks, 20000 changes or 100000
  violations, or longer than one mebibyte, none of which an earlier step rules out. Within those limits
  every reachable record is accepted: `RunRecord.ReachableRecordAcceptedIff`,
  `RunRecord.CollidesIffCaseRename`, `RunRecord.CaseRenameIsScopeValid`.
* A history of 2000 events can still be extended. The transaction that writes event 2001 is accepted and
  the objective is unreadable from then on. One-second claims alone get there from enqueueing, with the
  objective open (`Records.HistoryLimitReachable`); an objective stays readable exactly while fewer than
  2000 transactions have been accepted (`Records.StaysReadableIff`), and is final after that
  (`Records.HistoryLimitIsFinal`).
* Applying the same discovery report twice is silent if and only if the report does not contradict
  itself about whether an address responds: `Idempotence.DiscoveryIdempotentIffConsistent`,
  `Idempotence.ContradictoryReportExample`.
* Rolling back undoes an installation if and only if some version was active before it; the first
  installation of a pack cannot be undone: `PackStore.RollbackUndoesInstall`.
* The dry run does not look at whether an advertised version is a usable file name. Such an entry is
  planned as an installation and then fails: `PackManager.UnsafeVersionExample`; the prediction
  takes the condition into account.
* The dry run announces no download for a version that is stored but not active, yet the synchroniser
  downloads it again. Such an entry fails if and only if that download does:
  `PackManager.ActivationNeedsDownload`.
* The published tree is the inspected one if and only if every changed file that remains is a regular
  file, because the publisher writes every changed file with mode 100644: `Gateway.DeltaRebuildsSnapshot`.
  The policy loader pins the allowed modes, so a clean candidate always meets it.
* The documentation calls plans frozen, but a worker that takes over before the first commit may store a
  different plan: `Guarantees.PlanCanBeReplaced` gives the interleaving for any two acceptable plans. A
  worker between batches may freeze a plan if and only if nothing is published yet or it is the recorded
  plan (`Guarantees.PlanFreezesIff`); after the first commit no run changes it
  (`Guarantees.PublishedHistoryIsFinal`).
* A stopped run reports `blocked` in every case, but an exception without a message does not block the
  record: the queue refuses an empty reason, and the recovery poll that follows finds the lease still
  alive. The update lands if and only if the lease is live and the first 1024 characters of the reason
  are text (`Guarantees.BlockLandsIff`); `Guarantees.StoppedIsBlockedIff` says when the record is blocked
  in the end, and `Guarantees.BlankReasonStaysOpen` that otherwise it stays as it was.

## Model

| member | source | states |
|---|---|---|
| Paths.CoversTransitive | tools/task_automation/controller.py:111-113 | scope coverage composes: what an inner scope covers, every scope covering that scope covers too |
| Paths.CommonPathOverlaps | tools/task_automation/controller.py:111-117 | two scopes covering a common path overlap, which makes the overlap test against protected scopes sufficient |
| Paths.OverlapsIffShared | tools/task_automation/controller.py:116-117 | two scope names below the length limit overlap if and only if some repository path is covered by both |
| Paths.AcceptedScopeIsContained | tools/task_automation/controller.py:228-233 | every path covered by an accepted task scope is covered by a policy scope and by no protected scope |
| Candidates.CheckSnapshot | tools/task_automation/controller.py:299-320 | accepts exactly the valid inventories (names, modes, case collisions, total size, no file that is also a directory), in whatever order they are visited |
| Candidates.InspectCandidate | tools/task_automation/controller.py:323-368 | accepts exactly when both inventories are valid and the policy matches; then lists each differing path once, and a violation if and only if it is due |
| Candidates.TaskScopeSubsumesPolicy | tools/task_automation/controller.py:347-354 | for an accepted task no path is reported outside the policy or protected without also being reported outside the task |
| Candidates.ScopeValidIff | tools/task_automation/controller.py:344-368 | a candidate reports nothing if and only if its change is nonempty, within the file and byte limits, and clean at every path |
| Candidates.ScopeValidMeaning | tools/task_automation/controller.py:344-368 | a clean report means a nonempty change within the file and byte limits in which every path, operation and mode is permitted and no mode changes |
| Objectives.VerifyReceipt | tools/task_automation/objectives.py:144-191 | the verdicts verified and executed failure are returned exactly when the signed evidence for this candidate, parent and batch stands, or reports a failure before anything irregular; everything else is refused |
| Gateway.DeltaRebuildsSnapshot | tools/task_automation/github_gateway.py:102-114 | applying the delta of a complete diff to the base tree gives the inspected tree if and only if every remaining changed file is regular |
| Gateway.ScopeValidRebuilds | tools/task_automation/controller.py:339-368 | under an accepted policy a clean candidate's delta always rebuilds the inspected tree |
| Gateway.BuildDelta | tools/task_automation/github_gateway.py:102-112 | the loop over the changes builds exactly the specified tree entries: null for deletions, a regular blob otherwise |
| Gateway.Recheck | tools/task_automation/github_gateway.py:81-112 | publication goes on exactly when inspection and receipt verify again; the delta it then sends rebuilds the snapshot |
| Gateway.Transmit | tools/task_automation/github_gateway.py:111-140 | the branch is moved only after the created tree matched the snapshot and the remote head was confirmed; the requests go out in the specified order |
| Gateway.CommitPush | tools/task_automation/github_gateway.py:81-140 | no branch moves unless the evidence stands and the tree matches, and a successful publication names this branch, commit and candidate |
| Gateway.CollectRuns | tools/task_automation/github_gateway.py:159-167 | paging ends with at least as many runs as the last page read announced, or fails because no page was enough |
| Gateway.IndexRuns | tools/task_automation/github_gateway.py:168-172 | the index is built exactly when each required context occurs at most once, and holds exactly the required runs |
| Gateway.EvaluateContexts | tools/task_automation/github_gateway.py:173-179 | the gate is clear if and only if every required context succeeded for this head and this application |
| Gateway.Merge | tools/task_automation/github_gateway.py:142-189 | a merge is requested only when the pull request, rules and every required check justify it; it is reported merged if and only if requested, confirmed and answered with a well-formed commit |
| Records.AlwaysFollows | tools/task_automation/queue.py:169-229 | over every sequence of claims, updates and expiries: identity and limits are fixed, version, generation, budget and batch never decrease, terminal records never change, budgets stay in range |
| Records.BudgetForever | tools/task_automation/queue.py:205-223 | from enqueueing on, attempts, tokens, cost, batches and repairs stay within the signed limits and the lease never outlives the deadline |
| Records.FencedForever | tools/task_automation/queue.py:182-204 | once a claim issued generation g+1, no update presenting g or lower is ever accepted, whatever happens in between |
| Records.LeaseExcludesOthers | tools/task_automation/queue.py:169-204 | before a lease ends, no number of claims, recovery polls or stale updates changes the record |
| Records.OneWinnerPerVersion | tools/task_automation/queue.py:197-229 | of all updates presenting one version at most one ever succeeds |
| Records.PendingIntentEndsClaims | tools/task_automation/queue.py:178-183 | a claim that meets a pending intent issues no lease and closes the objective for good, keeping the intent |
| Records.StaysReadableIff | tools/task_automation/queue.py:92-122 | the version counts the accepted transactions, and the record is readable exactly while there are fewer than 2000 of them |
| Records.HistoryLimitReachable | tools/task_automation/queue.py:92-189 | every version up to the limit is reached from enqueueing by one-second claims, with the objective open and nothing pending |
| Records.HistoryLimitIsFinal | tools/task_automation/queue.py:92-109 | once the history exceeds the read limit nothing changes the record again |
| Queue.FinalMacPinsHistory | tools/task_automation/queue.py:84-109 | with an injective MAC two valid chains ending in the same MAC belong to the same objective and are identical |
| Queue.IntactReads | tools/task_automation/queue.py:92-109 | on an intact store only a missing objective or the history limit can stop a read |
| Queue.AppendKeepsIntact | tools/task_automation/queue.py:111-122 | writing the next version keeps every history a valid chain whose last entry is the row and whose length is the version plus one |
| Queue.ObjectiveQueue.Read | tools/task_automation/queue.py:92-109 | returns the row exactly when the whole stored chain authenticates it, on tampered tables too |
| Queue.ObjectiveQueue.Write | tools/task_automation/queue.py:111-122 | appends one authenticated event and replaces the row |
| Queue.ObjectiveQueue.Enqueue | tools/task_automation/queue.py:124-154 | stores one approval with its first event; the same approval again gives the stored record, another under the same name is refused; the store stays intact |
| Queue.ObjectiveQueue.ClaimLease | tools/task_automation/queue.py:169-189 | performs exactly the claim mutation with one event, or changes nothing |
| Queue.ObjectiveQueue.UpdateRecord | tools/task_automation/queue.py:191-229 | performs exactly the update mutation with one event, or changes nothing |
| Queue.ObjectiveQueue.ExpireRecord | tools/task_automation/queue.py:258-268 | performs exactly the expiry mutation with one event, or changes nothing |
| Protocol.StepKeeps | tools/task_automation/service.py:127-303 | every claim, update, call, crash and expiry keeps the whole invariant: exclusive holders, announced calls, sound history and intents, single publication, single merge, reserved work |
| Protocol.ReachedInv | tools/task_automation/service.py:127-303 | the invariant holds in every world any interleaving reaches |
| Provenance.EveryPublicationVerified | tools/task_automation/service.py:206-240 | every publication call ever made was preceded by a validator's answer that verifies exactly this candidate on this parent as this batch, and its change was in scope |
| Provenance.EveryMergeAccepted | tools/task_automation/service.py:258-275 | every merge call ever made was preceded by a validator's signed acceptance, at exactly that head, of the candidate published last |
| Provenance.CommitsFormVerifiedChain | tools/task_automation/service.py:224-257 | every recorded commit is what the publisher answered, with a well-formed identifier, and its receipt verified its own artifact on top of the previous commit |
| Provenance.EveryCommitInScope | tools/task_automation/controller.py:344-368 | in every reachable world every recorded commit differs from the base only on paths, operations and modes that task and policy permit, within the limits, and its tree delta renders its artifact |
| Repairs.RepairsStayLocal | tools/task_automation/service.py:197-202 | along any chain of repairs the result differs from the published tree only in files the first attempt changed |
| Repairs.CommitsStayLocal | tools/task_automation/service.py:185-257 | in every reachable world each recorded commit differs from the tree it was published on only in files in which the one first implementation of its batch did |
| Repairs.EachAttemptOnce | tools/task_automation/service.py:188-196 | over the objective's whole life no attempt of any batch is implemented twice |
| Repairs.FrozenWasImplemented | tools/task_automation/service.py:193-205 | the snapshots a worker has frozen for its batch are what its implementation calls returned, attempt by attempt |
| Guarantees.AtMostOncePerBatch | tools/task_automation/service.py:224-257 | over every interleaving of runs, crashes, lost leases and new claims no batch number is published twice |
| Guarantees.BatchCountsCommits | tools/task_automation/service.py:242-257 | at every reachable record the batch number counts the commits and the parent is the last of them, or the base |
| Guarantees.IntentPrecedesCall | tools/task_automation/service.py:175-292 | planning, implementation, validation, publication, acceptance, merge and release are each called only while the record shows exactly the intent for that call, its batch, attempt, candidate and head included |
| Guarantees.UncertainPublicationBlocks | tools/task_automation/queue.py:178-183 | after a publication was requested and not recorded, no claim obtains a session |
| Guarantees.WorkWithinBudget | tools/task_automation/service.py:175-196 | over the objective's whole life, planning and implementation calls never outnumber the recorded attempts, nor these the signed limit |
| Guarantees.AttemptsWithinLimit | tools/task_automation/service.py:188-219 | every attempt of every batch is numbered from zero to the signed number of repairs |
| Guarantees.PublishedHistoryIsFinal | tools/task_automation/service.py:150-184 | whatever happens later, recorded commits are only ever appended to, a recorded merge stays, and after the first commit the plan is fixed |
| Guarantees.PlanFreezesIff | tools/task_automation/service.py:170-184 | a worker between batches may freeze an acceptable plan if and only if nothing is published or it is the recorded plan |
| Guarantees.PlanCanBeReplaced | tools/task_automation/service.py:173-184 | for any two acceptable plans there is an interleaving that freezes the first and then the second |
| Guarantees.AtMostOneMerge | tools/task_automation/service.py:271-285 | at most one merge is ever acknowledged |
| Guarantees.MergeOnlyWhenComplete | tools/task_automation/service.py:258-275 | whenever a merge may be called, all planned batches are published, the head is the last commit, and the validator has accepted the objective there |
| Guarantees.AtMostOneRelease | tools/task_automation/service.py:286-295 | at most one release is ever requested, and only if authorised |
| Guarantees.CompletedMeansMerged | tools/task_automation/service.py:258-296 | a completed objective has a commit for every item of an accepted plan, was accepted and merged exactly once at its last commit, and released where authorised |
| Guarantees.BlockLandsIff | tools/task_automation/queue.py:197-226 | in every reachable world the update that blocks the record is accepted if and only if its worker's lease is live and the clipped reason is text |
| Guarantees.StoppedIsBlockedIff | tools/task_automation/service.py:305-315 | after a stop the record is blocked if and only if it was before, the update landed, or the recovery poll found it timed out |
| Guarantees.BlankReasonStaysOpen | tools/task_automation/service.py:305-315 | under a live lease a stop without a reason leaves the record exactly as it was |
| Completion.CanComplete | tools/task_automation/service.py:127-303 | for every accepted plan, chain of commits with standing receipts and standing acceptance that the signed limits can pay for, some interleaving completes the objective with exactly these, released where authorised |
| Completion.PublishesNext | tools/task_automation/service.py:185-257 | between batches a worker can always publish the next commit whose receipt stands, and is between batches again |
| Service.ValidatePlan | tools/task_automation/service.py:27-41 | accepts exactly the plans that are sequential, bounded, within the approved criteria and cover all of them |
| Service.ObjectiveService.Perform | tools/task_automation/service.py:119-122 | one guarded update by the session's holder, or an exception that leaves the session alone, or a crash; always a step of the protocol |
| Service.ObjectiveService.CallOut | tools/task_automation/service.py:180-292 | an external call is made only when announced, and uses the announcement up unless a merge is pending |
| Service.ObjectiveService.CallWorker | tools/task_automation/service.py:188-196 | an implementation call is reserved against the budget and announced, and its answer is the oracle's |
| Service.ObjectiveService.Implement | tools/task_automation/service.py:188-206 | the frozen candidate is an inspection of what the worker really returned, one attempt was reserved for it, and a repair changed only files already changed |
| Service.ObjectiveService.Validate | tools/task_automation/service.py:206-223 | success permits publication, on a verified receipt, or a repair, on a scope failure or a failure the validator reported or proved, and nothing else |
| Service.ObjectiveService.Judge | tools/task_automation/service.py:206-223 | the run stops on a validator's answer exactly when there is none, or it neither verifies the candidate nor proves an executed failure |
| Service.ObjectiveService.PublishBatch | tools/task_automation/service.py:224-257 | intent, one call, and one recorded commit with this receipt and snapshot and a well-formed identifier, or a stop |
| Service.ObjectiveService.Round | tools/task_automation/service.py:188-223 | one attempt ends in publication, in a requested repair while the signed number allows it, or in a stop |
| Service.ObjectiveService.RunBatch | tools/task_automation/service.py:185-257 | success publishes a snapshot that differs from the published tree, but only in files in which the batch's first implementation did |
| Service.ObjectiveService.RunBatches | tools/task_automation/service.py:185-257 | success publishes all remaining batches of the plan |
| Service.ObjectiveService.Resume | tools/task_automation/service.py:150-172 | a resumed run continues from the last commit's own bytes, inspected again, with the recorded plan, after its receipt verified again on its prior parent and the remote was reconciled |
| Service.ObjectiveService.Prepare | tools/task_automation/service.py:136-184 | before the first batch the plan is accepted and recorded and the current tree is the base or the last commit's |
| Service.ObjectiveService.Accept | tools/task_automation/service.py:258-269 | the merge is announced only after all batches are published and the validator's acceptance stands for the last candidate at this head |
| Service.ObjectiveService.MergeHead | tools/task_automation/service.py:271-285 | the polling loop keeps the commits and ends with a recorded merge or a stop |
| Service.ObjectiveService.PollMerge | tools/task_automation/service.py:271-285 | one merge call ends in a recorded merge, in a stop, or in a pending gate that leaves the same call announced |
| Service.ObjectiveService.ReleaseHead | tools/task_automation/service.py:286-295 | on success the release is recorded exactly where it was authorised |
| Service.ObjectiveService.BlockObjective | tools/task_automation/service.py:305-310 | the record is blocked with the clipped reason exactly when that update is accepted in the world the worker meets; otherwise the poll leaves no record timed out |
| Service.ObjectiveService.Run | tools/task_automation/service.py:127-303 | whatever adapters, crashes and other workers do, the record stays reachable; a run reporting completion has published every batch, merged, and released where authorised |
| RunRecord.RunsTerminate | tools/task_automation/controller.py:465-522 | no run accepts more than four transitions plus two per permitted repair, and one that has used them all is terminal |
| RunRecord.NeverStuck | tools/task_automation/controller.py:475-491 | a run can still be blocked exactly while it is not terminal |
| RunRecord.ValidateResult | tools/task_automation/controller.py:525-616 | the loops accept exactly the records that satisfy the validator's demands |
| RunRecord.ReachableIsSound | tools/task_automation/controller.py:475-522 | every reachable run carries evidence that fits its state |
| RunRecord.ReachableRecordAcceptedIff | tools/task_automation/controller.py:447-616 | the serialised record of a reachable run is accepted if and only if it is within the size limits and has no two changed paths equal up to case |
| RunRecord.CollidesIffCaseRename | tools/task_automation/controller.py:323-368 | an inspected candidate has colliding changes exactly when a file was renamed to a name differing only in case |
| RunRecord.CaseRenameIsScopeValid | tools/task_automation/controller.py:323-368 | such a rename, between two valid inventories, has no violation due |
| Atlas.FollowEdge | packages/red-engine/nightrecon_red_engine/attack_path_atlas.py:307-367 | following one edge keeps every listed path a real attack path listed once, and loses no longer path without a ceiling being named |
| Atlas.SearchFrom | packages/red-engine/nightrecon_red_engine/attack_path_atlas.py:292-373 | the queue loop from one start finds every attack path within the depth ceiling unless a ceiling cut it |
| Atlas.SearchAll | packages/red-engine/nightrecon_red_engine/attack_path_atlas.py:274-373 | the same over all starts, with the early stop |
| Atlas.BuildAtlas | packages/red-engine/nightrecon_red_engine/attack_path_atlas.py:237-401 | accepts exactly the valid arguments; the report is exact for its starts and targets, within every ceiling, names the start and target ceilings exactly when they cut, and every other ceiling only when it was really in the way |
| Atlas.UntruncatedIsExact | packages/red-engine/nightrecon_red_engine/attack_path_atlas.py:274-401 | with no ceiling named, the listed paths are exactly the graph's simple attack paths; with depth alone named, exactly those within the depth |
| Atlas.DepthReportIsExact | packages/red-engine/nightrecon_red_engine/attack_path_atlas.py:296-330 | otherwise uncut, the depth ceiling is named exactly when some open simple walk continues beyond it |
| Atlas.ExpansionReportIsExact | packages/red-engine/nightrecon_red_engine/attack_path_atlas.py:303-371 | with targets and no path left out, the expansion ceiling is named exactly when there are more open walks within the depth than it allows |
| Participation.CountParticipation | packages/red-engine/nightrecon_red_engine/attack_path_atlas.py:205-234 | a subject's members are exactly the paths it takes part in, and the counts sum to the number of participations |
| Participation.AtlasParticipation | packages/red-engine/nightrecon_red_engine/attack_path_atlas.py:205-234 | over the paths the search lists, edge counts sum to all hops and node counts to all hops less the number of paths |
| Inventory.ApplyScan | packages/red-engine/nightrecon_red_engine/asset_inventory.py:203-479 | the scan loop computes the specified inventory and journal |
| Inventory.ScanPorts | packages/red-engine/nightrecon_red_engine/asset_inventory.py:270-376 | the inner loop over requested ports in ascending order computes the specified services and events |
| Inventory.ApplyDiscovery | packages/red-engine/nightrecon_red_engine/asset_inventory.py:90-200 | the discovery loop computes the specified inventory and journal |
| Journal.ReportReplays | packages/red-engine/nightrecon_red_engine/asset_inventory.py:224-376 | replaying a report's port events over the old map of service names succeeds and gives the new map |
| Journal.HistoryReplays | packages/red-engine/nightrecon_red_engine/asset_inventory.py:90-479 | the same for any sequence of reports from the empty inventory |
| Journal.PortsAlternate | packages/red-engine/nightrecon_red_engine/asset_inventory.py:276-376 | for each socket openings and closings alternate starting with an opening, and it is present exactly when the last was an opening |
| Journal.NothingForgotten | packages/red-engine/nightrecon_red_engine/asset_inventory.py:90-479 | no report drops an asset or changes when it was first seen |
| Journal.UnscannedPortsKept | packages/red-engine/nightrecon_red_engine/asset_inventory.py:224-376 | services on ports a scan has no result for are untouched |
| Journal.DiscoveryKeeps | packages/red-engine/nightrecon_red_engine/asset_inventory.py:102-200 | discovery keeps every asset and all of its services |
| Idempotence.ScanIsIdempotent | packages/red-engine/nightrecon_red_engine/asset_inventory.py:203-479 | applying a scan report again changes nothing and reports nothing, for every report and inventory |
| Idempotence.DiscoveryIdempotentIffConsistent | packages/red-engine/nightrecon_red_engine/asset_inventory.py:102-200 | applying a discovery report again is silent if and only if it never contradicts itself about an address, and then the inventory is identical |
| Idempotence.ContradictoryReportExample | packages/red-engine/nightrecon_red_engine/asset_inventory.py:102-200 | a contradictory report flips the asset twice each time it is applied |
| PackStore.StoreStaysSound | packages/red-engine/nightrecon_red_engine/check_pack_store.py:80-169 | over any moves, stored versions never change, everything activated stays stored and no version replaced itself |
| PackStore.RollbackUndoesInstall | packages/red-engine/nightrecon_red_engine/check_pack_store.py:379-417 | after a changing installation, rollback restores the active version and history if and only if a version was active before |
| PackStore.BalancedRestores | packages/red-engine/nightrecon_red_engine/check_pack_store.py:122-417 | any balanced nesting of changing installations and rollbacks restores the exact active version and history |
| PackStore.BalancedNeedsActive | packages/red-engine/nightrecon_red_engine/check_pack_store.py:122-417 | with no version active to begin with every such nesting is refused |
| PackStore.CheckPackStore.InstallSigned | packages/red-engine/nightrecon_red_engine/check_pack_store.py:80-169 | installs exactly the verified, safely named artifacts that do not conflict with a stored version; otherwise nothing changes |
| PackStore.CheckPackStore.RollbackVerified | packages/red-engine/nightrecon_red_engine/check_pack_store.py:317-377 | rolls back exactly when the target still verifies as that version of that pack; otherwise nothing changes |
| PackStore.CheckPackStore.RollbackLatest | packages/red-engine/nightrecon_red_engine/check_pack_store.py:379-417 | rolls back exactly when the last history entry is stored; otherwise nothing changes |
| FeedState.NeverReplayed | packages/red-engine/nightrecon_red_engine/check_feed_state.py:63-118 | over any offers an accepted generation never moves back, and at an equal time never changes |
| FeedState.SupersededIsRefused | packages/red-engine/nightrecon_red_engine/check_feed_state.py:42-94 | once a newer generation was accepted an older one is refused for ever |
| FeedState.AcceptanceIsStable | packages/red-engine/nightrecon_red_engine/check_feed_state.py:63-118 | offering an accepted manifest again is accepted and changes nothing |
| FeedState.CheckFeedStateStore.AcceptFeed | packages/red-engine/nightrecon_red_engine/check_feed_state.py:96-118 | accepts exactly a manifest that neither falls behind nor alters its feed's accepted generation; it becomes that generation, no other feed changes, and a readable store stays readable and only moves forward |
| PackManager.PlanFeed | packages/red-engine/nightrecon_red_engine/check_pack_manager.py:42-135 | the dry run reports the specified status for each entry and changes nothing |
| PackManager.SyncFeed | packages/red-engine/nightrecon_red_engine/check_pack_manager.py:166-270 | the loop reports and performs the specified outcome entry by entry |
| PackManager.InstallNamed | packages/red-engine/nightrecon_red_engine/check_pack_manager.py:303-348 | a named installation succeeds exactly as specified and leaves other packs alone |
| PackManager.PlanPredictsSync | packages/red-engine/nightrecon_red_engine/check_pack_manager.py:42-270 | with distinct packs, each planned status on the initial store, whether the version is safe and what the network delivers determine that entry's outcome |
| PackManager.FailureChangesNothing | packages/red-engine/nightrecon_red_engine/check_pack_manager.py:166-270 | a failed or unchanged entry leaves its pack exactly as it was |
| PackManager.SecondSyncIsUnchanged | packages/red-engine/nightrecon_red_engine/check_pack_manager.py:166-270 | an entry that did not fail is active with the advertised bytes and is unchanged in a second synchronisation, whatever the network then does |
| PackManager.UnsafeVersionExample | packages/red-engine/nightrecon_red_engine/check_pack_store.py:536-556 | an unsafe version is planned as an installation and fails |
| PackManager.ActivationNeedsDownload | packages/red-engine/nightrecon_red_engine/check_pack_manager.py:42-270 | an activation planned without download fails exactly when its download does |
| Directory.IngestEntry | packages/red-engine/nightrecon_red_engine/active_directory_provider.py:771-848 | one entry keeps the ceilings; without a report its members were not ranged, its evidence was readable and it is among the entries, completely |
| Directory.IngestTrust | packages/red-engine/nightrecon_red_engine/active_directory_provider.py:733-765 | a trust is usable and counted, or reported |
| Directory.IngestRaw | packages/red-engine/nightrecon_red_engine/active_directory_provider.py:727-848 | one result of either kind is refused exactly if it cannot be read, and is otherwise taken in whole or reported |
| Directory.CollectPhase | packages/red-engine/nightrecon_red_engine/active_directory_provider.py:694-874 | a phase that ends unreported has read the last page, and no referral, trust, ranged member list, unreadable evidence or listed entry of any page is missing |
| Directory.Collect | packages/red-engine/nightrecon_red_engine/active_directory_provider.py:660-874 | all ceilings hold in every case; without truncation both phases were read to the end, everything they delivered was whole, all trusts were counted and the entries are exactly the first listing of each name |
| Directory.ReadingMeaning | packages/red-engine/nightrecon_red_engine/active_directory_provider.py:725-848 | reading a delivery item by item gives a result exactly if every item is whole, and then the first listings and the number of trusts |
| Directory.EveryPageWhole | packages/red-engine/nightrecon_red_engine/active_directory_provider.py:725-769 | behind an untruncated result every page had no referral, and each of its results is a usable trust or an entry without ranged members |
| Directory.EntriesAreWhole | packages/red-engine/nightrecon_red_engine/active_directory_provider.py:771-842 | behind an untruncated result every entry was read from a delivered result with readable evidence and its full member list |
| Directory.FirstListedCovers | packages/red-engine/nightrecon_red_engine/active_directory_provider.py:771-808 | every listed name is among the entries, in its first occurrence |
| Directory.FirstListedFrom | packages/red-engine/nightrecon_red_engine/active_directory_provider.py:771-808 | every entry was listed |
| Directory.AddPrimaryGroups | packages/red-engine/nightrecon_red_engine/active_directory_provider.py:997-1047 | explicit and primary-group memberships together stay within their ceiling; without truncation all primary-group memberships are added |
| Directory.PrimaryMembershipKept | packages/red-engine/nightrecon_red_engine/active_directory_provider.py:1004-1047 | each known primary-group membership is among the explicit or the added ones |
| Directory.CollectAll | packages/red-engine/nightrecon_red_engine/active_directory_provider.py:660-1047 | of a whole collection: all ceilings hold in every case, the one on memberships for both kinds together, and an untruncated result has lost no page, referral, trust, name, member or primary group |
| Sids.DecodeIsLossless | packages/red-engine/nightrecon_red_engine/active_directory_provider.py:436-452 | encoding the decoded numbers gives back the bytes |
| Sids.EncodeIsDecoded | packages/red-engine/nightrecon_red_engine/active_directory_provider.py:436-452 | every SID in range is decoded from its bytes |
| Sids.PrintIsInjective | packages/red-engine/nightrecon_red_engine/active_directory_provider.py:436-452 | different SIDs print differently |
| Sids.SidTextIsLossless | packages/red-engine/nightrecon_red_engine/active_directory_provider.py:426-453 | bytes are accepted exactly when their length is 8 plus four times the second byte, and accepted bytes with the same text are the same bytes |

## Left out

- Cryptography: Ed25519, HMAC and SHA-256 are not computed; see the conventions above.
- JSON: encoding, duplicate keys, wrong types and unknown fields; records are typed values. The size of an encoded record is a parameter of the record validator.
- SQLite, file locking, fsync and atomic rename: a transaction is one step on maps. Corrupt state files of the pack store are not modelled beyond what the class fields can hold.
- The artifact store: a digest stands for its content, so a stored artifact is always found.
- Order of results that the code sorts: changes and violations of a candidate, listed atlas paths, assets of an inventory. Membership and uniqueness are stated instead. The graph is taken to list its nodes already in the order (kind, key, identifier) in which starts and targets are cut off; the theorems hold for any order.
- Text formats: task identifiers, branch names, idempotency keys, reasons, journal texts and report wording are values with the same components.
- Loader detail: `load_policy` and `parse_task` are reduced to the conditions later steps rely on; admission evidence is one verdict.
- Approval verification: the service's repeated check of the stored approval is an oracle bit. The remote reconciliation of a resumed run and the provider of release material are called without an intent in the record; their answers are oracle bits and they are not among the announced calls.
- Release: manifest, artifact and tag verification (`verify_release`, the gateway's `release`) are one oracle answer.
- Inventory of the working tree (`tools/task_automation/inventory.py`): its result is the two input maps.
- Unicode case folding: repository paths are ASCII, so folding is the ASCII one; for directory names folding is an arbitrary function.
- GitHub, LDAP and download transport: arbitrary replies.
- Directory relationships, delegation and managed-by projection: of trusts only usability and count are modelled, of relationships only the memberships.
- Atlas evidence and provenance columns, timestamps, report formatting, command line and alias modules.
- The graph index of the atlas: each edge is assumed to be listed once under its source.
