# Rovai: verified models of its state machines

This project models the parts of Rovai whose correctness spans many steps, and proves what they keep.
Every `.dfy` file stands for one component; `dafny verify dfyconfig.toml` checks all of them.

- **Action safety** (`Action*.dfy`). Agent runs ask for actions; policies, users, adapters, executors, cancellations,
  runtime losses and restarts act on five linked tables. `ActionModel` gives the guard and the effect of each command,
  `ActionService` the imperative service (one method per transaction, bulk updates as the sequences of single updates
  they are), `ActionGateway` runs any command. `ActionInvariant`, `ActionHistory`, `ActionSteps` prove that every
  command keeps one invariant and one relation between earlier and later tables; `ActionTheorems` draws the promises
  for every reachable state and every continuation. What single commands do is stated apart from the functions that
  define them: `ActionPolicy` and `ActionGrounds` say what the rules decide and that every decision in the tables rests
  on them; `ActionGuards` when each command takes effect; `ActionOutcomes`, `ActionProgress`, `ActionExecution`,
  `ActionEndings` and `ActionRuns` what it leaves behind and which next command that allows; `ActionScope` what it does
  not touch; `ActionVersions` what a version tells; and `ActionFlow` carries an allowed action from its preparation to
  its acknowledged result. `ActionFindings` gives two promises that the code does not keep on every input, with the
  exact condition under which it does. Losing the network, leaving a run to recovery, and marking and acknowledging an input are
  commands too, so every theorem covers histories with them. One field of a run, `woken`, is there for the proofs alone:
  the run last began to run at a live input acknowledgement that found it blocked. A restart follows the start-up
  transaction `prepare_v2_recovery` of `crates/rovai-core/src/db.rs` (lines 8266 to 8660), whose outcomes the tests
  cited for it state.
- **Database switch recovery** (`SwitchRecovery.dfy`). The historical writer and the recovery, over a disk that may
  crash at any file operation. A rename keeps a file's object, size and content time; on Unix it may change its
  status-change time.
- **Browser commands** (`CommandModel`, `CommandSafety`, `CommandOutcomes`, `ConsoleClient`) and the **event decoder**
  (`EventFrames`). Every stretch of client code between two awaits is one event; the host may admit a request after the
  page has gone. `CommandOutcomes` says what each reply does to its command and what a page that is logged out, offline
  or has to recover does not send.
- **File changes** (`FileDetails`, `FileCard`, `FileAggregate`, `FileShown`, `FileIdentity`, `FileProjection`). Evidence
  folded into per-file changes and a card, what is shown of every change and diff with its counts, the identities of its
  files over all revisions, and the revisioned projection behind a growing source.
- **Text compaction** (`TextBlocks`, `TextEnds`, `TextCompaction`, `TextSaving`, `TextReading`), **image quotas** (`ImageQuota`), **tab leases**
  (`TabLease`), the **sleep-aware clock** (`SleepClock`) and the **thread identity codec** (`ThreadIdCodec`).

Where a module has a class, each method is proved to compute a function of its old state, and the lemmas are about
that function; where the state is simple the method carries the promise itself.

Identifiers, owners, paths, digests and times are numbers. A digest stands for what it digests. An option
`admitted` of a command collects the actor, access and input checks that only refuse. Facts outside the tables
that a command depends on (fresh identifiers, the clock, host answers, whether an input may have executed) are
parameters, so every theorem holds for all of them.

Results that a reader of the code would not expect:

- A native option of kind `cancel` may say that it allows its action. Resolving with it cancels the approval and
  leaves the action prepared, where nothing can claim it (`ActionFindings.CancelLeavesPrepared`,
  `ActionFindings.CancelledYetPrepared`). Without such options a cancelled approval always belongs to an action that
  was not executed (`ActionFindings.StrictRunsCancelCleanly`).
- The live acknowledgement of an input whose delivery was unknown sets the run running without looking at its blockers
  (`ActionFindings.BlockedRunSetRunning`). From any good state it leaves its run running and blocked exactly when it
  meets a blocker or the run was so before (`ActionFindings.AcceptInputIsSafeIff`), and a history never has a blocked
  run running exactly when no acknowledgement in it meets a blocker (`ActionFindings.QuietIffCareful`).
- A refused submission can have been executed, through an explicit retry that overtook it
  (`CommandSafety.RefusedYetExecuted`). It can be executed, now or later, exactly when one of its retries was not
  refused and was sent, or is about to be on its connection (`CommandSafety.RefusedRunsIff`).
- A command sent before the first session is accepted is in no storage (`CommandSafety.SentYetForgotten`), and a reload
  forgets exactly such commands and those of a forked tab (`CommandSafety.ReloadForgetsIff`).
- The release marker of a tab survives the page being shown again, so its document can lose the tab within its lease
  (`TabLease.ShownAgainYetDisplaced`, `TabLease.DisplacedIff`).
- The 64 KiB limit of the decoder depends on the cuts; the frames do not (`EventFrames.LimitDependsOnCuts`). Every way of
  cutting a text is accepted exactly when the whole text is within the limit (`EventFrames.EveryCutFitsIff`), and some
  way is exactly when the left-over stays below it wherever the text is interrupted (`EventFrames.SomeCutFitsIff`).
- The stray check after publication compares whole identity tokens where the restore tolerates a rename: of the sidecars
  the restore accepts it refuses exactly those whose status-change time moved or whose place is taken
  (`SwitchRecovery.ToleratedIff`, `SwitchRecovery.RenamedStrayIsRefused`).
- A reader takes the text of a completion for what streamed before it. The blocks do so only within one block, and a
  completion without a native identity does not replace text that a boundary closed, so the texts of the blocks and
  what the rows say can differ, exactly then (`TextReading.BlocksSpellTheTextIff`, `TextReading.CutTextDoesNotFlow`).
- A run diff with two sections for one path gives both entries of a later card one identity, so only the first is found
  by it (`FileIdentity.OneIdentityTwice`). Identities are distinct exactly when no path that the card before already had
  is listed twice (`FileIdentity.IdsAreDistinctIff`), which without a run diff always holds.

## Model

| member | source | states |
|---|---|---|
| ActionSteps.StepAdvances | crates/rovai-core/src/action.rs:617-3061 | every command of users, adapters, executors, schedulers and recovery keeps the invariant of the five tables and takes back nothing that is final |
| ActionSteps.RunAdvances | crates/rovai-core/src/command.rs:239-317 | so does every run of commands in any interleaving, each executed as one transaction |
| ActionHistory.AdvancesCompose | crates/rovai-core/src/action.rs:617-3061 | the relation between earlier and later tables is transitive along good states |
| ActionSteps.PrepareAdvances | crates/rovai-core/src/action.rs:638-1064 | preparing, under each of the four policies, leaves a good state and a waiting run |
| ActionSteps.RecordObservedAdvances | crates/rovai-core/src/action.rs:1070-1253 | an observed action enters with its outcome and never needs an authorization |
| ActionSteps.ResolveAdvances | crates/rovai-core/src/action.rs:1256-1580 | resolving, denying, cancelling and expiring settle an approval once and for all |
| ActionSteps.ClaimAdvances | crates/rovai-core/src/action.rs:1583-1849 | a claim opens a new attempt with a larger number and epoch, only for an authorised action of a run that is not being cancelled |
| ActionSteps.MarkDispatchAdvances | crates/rovai-core/src/action.rs:1851-1918 | a dispatch marker is set on the active attempt and its action together |
| ActionSteps.RecordResultAdvances | crates/rovai-core/src/action.rs:1920-2129 | a result settles the marked attempt, delivers it once, and resumes the run only when nothing blocks it |
| ActionSteps.AcquireAdvances | crates/rovai-core/src/action.rs:2131-2290 | a lease is granted only on an open delivery of a live run |
| ActionSteps.AcknowledgeAdvances | crates/rovai-core/src/action.rs:2292-2417 | an acknowledged delivery is closed for good |
| ActionSteps.ConfirmAdvances | crates/rovai-core/src/action.rs:2419-2624 | a request resolved by the runtime closes its open authorization, approval and action consistently |
| ActionSteps.ReconcileLossAdvances | crates/rovai-core/src/action.rs:2626-2935 | losing a runtime makes started actions unknown and discards unstarted ones |
| ActionSteps.AbortAdvances | crates/rovai-core/src/runtime.rs:6037-6200 | ending a run interrupted closes all its effects in the same transaction |
| ActionSteps.RestartAdvances | crates/rovai-core/src/action.rs:5286-5385 | a restart of the core keeps every promise, whatever inputs and batches it finds lost |
| ActionSteps.ClaimRunAdvances | crates/rovai-core/src/runtime.rs:1915-2073 | admission sets a run running only when it is new or has recovered without blockers |
| ActionSteps.RunStepAdvances | crates/rovai-core/src/runtime.rs:2084-2485 | marking an input unknown, acknowledging it, and waiting for recovery or the network keep every promise |
| ActionTheorems.OneMarkedAttempt | crates/rovai-core/src/action.rs:1851-1918 | in every reachable state at most one attempt of an action carries a dispatch marker, and it is the active one |
| ActionTheorems.AttemptEpochsIncrease | crates/rovai-core/src/action.rs:1763-1821 | attempts of one action are ordered alike by number and epoch, strictly |
| ActionTheorems.SupersededAttemptIsFrozen | crates/rovai-core/src/action.rs:1864-1907 | an attempt that is not active never changes again in any continuation, and every marker or result in its name is refused, whatever action it names |
| ActionTheorems.UnknownIsNeverClaimed | crates/rovai-core/src/action.rs:1990-2003 | an unknown action only ever settles; no continuation lets it be claimed |
| ActionTheorems.RestartSettlesExecutions | crates/rovai-core/src/action.rs:6041-6137 | a restart makes a marked execution unknown and returns an unmarked one for a fresh claim, closing its attempt |
| ActionTheorems.SettledRowsAreFrozen | crates/rovai-core/src/action.rs:3599-3620 | finished actions, resolved approvals and closed deliveries are equal in every continuation |
| ActionTheorems.OneDeliveryOfEachKind | crates/rovai-core/src/action.rs:3681-3727 | an action has at most one authorization and one result delivery, and a result only when finished |
| ActionTheorems.EffectsAreAuthorised | crates/rovai-core/src/action.rs:1679-1761 | whatever executes or has a result was allowed, or asked and approved and never revoked; if intercepted its authorization was handed over |
| ActionTheorems.ApprovalsMatchActions | crates/rovai-core/src/action.rs:1467-1528 | what each approval status says about its action |
| ActionTheorems.NotExecutedWasNotDispatched | crates/rovai-core/src/action.rs:3599-3620 | a not-executed action and its attempts carry no marker |
| ActionTheorems.BlockedRunsWait | crates/rovai-core/src/action.rs:3640-3679 | a run with a pending approval, an unknown action or an open delivery waits or has ended, unless a live input acknowledgement set it running over its blockers |
| ActionTheorems.OnlyResumingSetsRunning | crates/rovai-core/src/action.rs:3640-3679 | only admission and the steps that end in the resume check set a run running, and then nothing blocks it, or the live acknowledgement of its input |
| ActionTheorems.CancelFence | crates/rovai-core/src/action.rs:1799-1805 | after a cancel request attempts, markers, approvals given and leases of the run never grow in any continuation |
| ActionTheorems.MarkedStaysRecordable | crates/rovai-core/src/action.rs:1920-2003 | in every continuation, whatever is cancelled, ended, lost or restarted in it, a well-formed result for a marked action is accepted exactly until the action is finished |
| ActionTheorems.CancelledStaysObservable | crates/rovai-core/src/action.rs:3293-3336 | after a cancel request an observation that was acceptable stays so in every continuation, exactly until the run ends or the action is recorded |
| ActionTheorems.LeaseTakenOver | crates/rovai-core/src/action.rs:2994-3018 | an owner whose lease was taken over can neither acknowledge nor fail the delivery until it acquires it itself |
| ActionFrames.LeaseNeedsAcquire | crates/rovai-core/src/action.rs:2226-2273 | no other command gives an owner a lease |
| ActionFrames.OnlyOverridingWakes | crates/rovai-core/src/context.rs:3070-3088 | a run comes to run over its blockers exactly by a live acknowledgement of its input that meets a blocker |
| ActionOutcomes.ResultIsRecorded | crates/rovai-core/src/action.rs:1990-2129 | a result stands in the action and in its marked attempt as reported, and a settled mediated one is delivered with what was reported |
| ActionOutcomes.DecisionIsDelivered | crates/rovai-core/src/action.rs:1401-1552 | an expired request is answered with a refusing option it offered; any other resolution approves exactly what the chosen option allows, and an intercepted or refused request is answered with that option |
| ActionOutcomes.ClaimIsFenced | crates/rovai-core/src/action.rs:1763-1821 | a claim's attempt is numbered and fenced after every earlier one, carries the epoch of its action, and is the one the action answers to |
| ActionProgress.AllowedIsClaimable | crates/rovai-core/src/action.rs:3401-3409 | an executor can claim what was just prepared exactly when it is mediated and the policy allowed it, at its first version and by its deadline |
| ActionProgress.AskedIsResolvable | crates/rovai-core/src/action.rs:926-982 | what was just prepared can be resolved by exactly the options it offers, when the policy asks; after its deadline only if it offers a refusal |
| ActionProgress.PreparedIsAnswered | crates/rovai-core/src/action.rs:840-1040 | what a preparation leaves: a denied request and a denied action are closed and told so at once, an allowed request is told so, an allowed action and an asked one have nothing delivered; and what the run waits for |
| ActionProgress.ResolutionDecides | crates/rovai-core/src/action.rs:1467-1528 | a resolution in time leaves the action alone exactly when the chosen option allows it, and else closes it unexecuted; the approval is cancelled by an option that cancels, and otherwise approved or denied as the option says; a late one expires and closes |
| ActionProgress.ApprovedIsClaimable | crates/rovai-core/src/action.rs:1501-1556 | an executor can claim a mediated action whose approval was just resolved exactly when the chosen option allows it without cancelling and was chosen in time, with the version it read before |
| ActionProgress.ResolvedIsAnswered | crates/rovai-core/src/action.rs:1430-1556 | a resolved request that is intercepted or refused is told so, and a late one refused, while its run takes effects |
| ActionExecution.LeaseExcludes | crates/rovai-core/src/action.rs:2213-2273 | a lease that runs shuts everyone out, its holder too, and one that has run out is given to whoever read the delivery as it is now |
| ActionExecution.HolderSettles | crates/rovai-core/src/action.rs:2292-2417 | only the holder of a lease settles its delivery, naming its payload and generation |
| ActionExecution.LeasedIsClaimable | crates/rovai-core/src/action.rs:1679-1761 | an adapter claims an intercepted action exactly as the holder of the lease of its authorization |
| ActionExecution.ClaimedIsMarkable | crates/rovai-core/src/action.rs:1763-1918 | a claim opens an attempt of its owner and lets that owner alone mark its dispatch; until then nothing is recorded and nobody claims again |
| ActionExecution.MarkedIsRecordable | crates/rovai-core/src/action.rs:1920-2003 | a mark lets a plausible result of its attempt be recorded, by its side or by the reconciler |
| ActionExecution.LateEvidence | crates/rovai-core/src/action.rs:1960-2003 | after an open outcome the reconciler, or an adapter by evidence from the background, may record another, the executor not; a settled one is the last |
| ActionExecution.ResultIsAnswered | crates/rovai-core/src/action.rs:2040-2129 | a settled mediated result is on its way and the run waits for it; an open outcome keeps the run waiting; an intercepted one lets the run go on or wait |
| ActionExecution.SettledGoesOn | crates/rovai-core/src/action.rs:3640-3679 | what ends in the resume check runs on exactly when nothing blocks the run and it need not recover |
| ActionExecution.ConfirmedIsClosed | crates/rovai-core/src/action.rs:2419-2624 | what a confirmation by the runtime leaves of the request, by the state of its authorization |
| ActionEndings.AbortedRunIsClosed | crates/rovai-core/src/runtime.rs:5174-5279 | an interrupted run ends as told: what was under way is unknown, what had not started discarded, what was open withdrawn or closed, what was finished untouched |
| ActionEndings.LossIsReconciled | crates/rovai-core/src/action.rs:2626-2935 | losing the runtime ends a single chat, fails a run whose input may have executed, and leaves any other to recovery with exactly its intercepted effects closed |
| ActionEndings.RestartOutcome | crates/rovai-core/src/action.rs:6041-6137 | every row of every run after a restart, by the row before it |
| ActionRuns.NewRunIsAdmitted | crates/rovai-core/src/runtime.rs:1915-2073 | a new run waits in the queue, is admitted at its first version and then initializes in its first epoch |
| ActionRuns.AdmissionFences | crates/rovai-core/src/runtime.rs:1915-2073 | every admission opens the next epoch, in which nothing claimed, asked or to be delivered earlier is dispatched, resolved or leased |
| ActionRuns.StaleEpochIsRefused | crates/rovai-core/src/action.rs:638-760 | nothing that names an epoch before an admission is taken in any continuation |
| ActionRuns.CancelRequestFences | crates/rovai-core/src/action.rs:1799-1805 | from a cancel request on nothing new is prepared, approved, claimed, marked, leased or admitted for the run |
| ActionRuns.ConnectionLossComesBack | crates/rovai-core/src/runtime.rs:2084-2172 | a running run that loses its connection comes back in a new epoch unless something of it is still open |
| ActionRuns.NetworkLossComesBack | crates/rovai-core/src/runtime.rs:2174-2485 | a run that lost the network is not claimed before the next attempt, which brings it back in a new epoch when that is safe and gives it up otherwise |
| ActionRuns.UnknownInputComesBack | crates/rovai-core/src/context.rs:2999-3120 | an input of unknown delivery holds its run until it is acknowledged: live, in its epoch; by evidence alone, in a new one |
| ActionFlow.AllowedRunsThrough | crates/rovai-core/src/action.rs:617-3061 | from every good state a mediated action that the policy allows, in a run that nothing blocks, can be prepared, claimed, marked, recorded, delivered and acknowledged, whoever does it and whatever comes out, and then the run runs |
| ActionUpdates.ClosingUpdates | crates/rovai-core/src/runtime.rs:5174-5279 | the five updates that close a run's effects amount to one row-wise effect |
| ActionUpdates.LosingUpdates | crates/rovai-core/src/action.rs:2753-2852 | likewise for the five updates of a runtime loss |
| ActionUpdates.RestartUpdates | crates/rovai-core/src/action.rs:6041-6137 | likewise for the eight row updates of a restart |
| ActionUpdates.SecondRestartChangesNothing | crates/rovai-core/src/action.rs:5370-5384 | a second restart changes no action, approval, attempt or delivery |
| ActionUpdates.ClosingOneMore | crates/rovai-core/src/runtime.rs:5174-5279 | closing the runs of lost batches one by one closes them all |
| ActionPolicy.EvaluatePolicy | crates/rovai-core/src/action.rs:3381-3418 | one pass over the rules: it allows exactly when some rule is for the kind and every such rule allows, asks exactly when one asks and the others allow, denies exactly when one denies or none is for the kind, and fails exactly when one has an invalid effect |
| ActionPolicy.PolicyOrderIrrelevant | crates/rovai-core/src/action.rs:3385-3410 | the decision does not depend on the order or repetition of rules |
| ActionPolicy.AddedRuleNeverLoosens | crates/rovai-core/src/action.rs:3402-3410 | a rule added to a policy that already matches never loosens it |
| ActionGrounds.DecisionsAreGrounded | crates/rovai-core/src/action.rs:3381-3418 | in every reachable state an allowed action has a rule of its run that allows and none for its kind that says otherwise; an asked one a rule that asks and none that denies, or is the request of a runtime that manages its permissions; a denied one a rule that denies, or none |
| ActionGuards.PreparedIff | crates/rovai-core/src/action.rs:638-1064 | preparing takes effect exactly for a live run in its epoch that is not being cancelled or only observes, with the scope, capability, options and rules that its semantics demands, under new identities |
| ActionGuards.ObservedIff | crates/rovai-core/src/action.rs:1070-1253 | likewise recording an observed action, whose outcome and effect agree |
| ActionGuards.ResolvedIff | crates/rovai-core/src/action.rs:1256-1580 | likewise a resolution: of a pending approval at its version, by an option it offers that may still take effect, and too late only where a refusal is offered |
| ActionGuards.ClaimedIff | crates/rovai-core/src/action.rs:1583-1849 | likewise a claim: of an authorised prepared action at its version, by its deadline, by an executor or by the adapter that holds its authorization |
| ActionGuards.MarkedIff | crates/rovai-core/src/action.rs:1851-1918 | likewise a mark: by the owner of the active attempt, in the epoch of its claim |
| ActionGuards.RecordedIff | crates/rovai-core/src/action.rs:1920-2003 | likewise a result: of a marked action by its own side while it executes, and later by the reconciler or by evidence from the background |
| ActionGuards.AcquiredIff | crates/rovai-core/src/action.rs:2131-2290 | likewise a lease: of a queued delivery, or of one whose lease has run out |
| ActionGuards.AcknowledgedIff | crates/rovai-core/src/action.rs:2292-2417 | likewise an acknowledgement: by the holder of the lease for that payload and epoch, of a live run |
| ActionGuards.FailedIff | crates/rovai-core/src/action.rs:2937-3044 | likewise a failed delivery, also of a run that has ended |
| ActionGuards.LossIsTakenIff | crates/rovai-core/src/action.rs:2626-2752 | likewise the loss of a runtime |
| ActionGuards.AdmittedIff | crates/rovai-core/src/runtime.rs:1915-2073 | likewise an admission: of a queued run, or of one left to recovery of which nothing is open |
| ActionGuards.BefallsIff | crates/rovai-core/src/runtime.rs:2084-2485 | likewise an input marked unknown, a lost connection or network, and the retry after it |
| ActionGuards.InputIsNotedIff | crates/rovai-core/src/context.rs:2999-3120 | likewise an acknowledged input |
| ActionGuards.EndedIff | crates/rovai-core/src/runtime.rs:6037-6200 | likewise an end, ordinary or interrupted |
| ActionGuards.ConfirmationIsHeard | crates/rovai-core/src/action.rs:2419-2500 | a confirmation by the runtime is heard only for a request of the runtime itself, under its identity and in the epoch it was made in |
| ActionGuards.EnteredAsAsked | crates/rovai-core/src/action.rs:840-926 | a prepared or observed action is entered as it was asked for, in its first version and without attempts |
| ActionGuards.DeliveryIsEnteredIff | crates/rovai-core/src/action.rs:3681-3727 | a delivery is entered unless its action already has one of the same kind and payload |
| ActionGuards.EvidenceLeavesToRecovery | crates/rovai-core/src/context.rs:3089-3120 | an input acknowledged by evidence alone leaves its waiting run to recovery |
| ActionVersions.VersionFindsWhatWasRead | crates/rovai-core/src/action.rs:1583-1700 | whatever happened since a row was read, a claim, resolution, lease or admission that names the version read and is granted acts on the row as it was read |
| ActionScope.ActionsDoNotInterfere | crates/rovai-core/src/action.rs:617-3061 | a command about one action changes nothing of any other: neither its row, approval, attempts nor deliveries |
| ActionScope.RunsDoNotInterfere | crates/rovai-core/src/action.rs:617-3061 | a command about one run changes nothing of any other run or of its actions |
| ActionService.Service.PrepareAction | crates/rovai-core/src/action.rs:638-1064 | applies exactly when the guard holds, and then changes the tables exactly as specified |
| ActionService.Service.RecordObservedAction | crates/rovai-core/src/action.rs:1070-1253 | the same for observed actions |
| ActionService.Service.ResolveApproval | crates/rovai-core/src/action.rs:1256-1580 | the same for resolving approvals |
| ActionService.Service.ClaimAction | crates/rovai-core/src/action.rs:1583-1849 | the same for claims |
| ActionService.Service.MarkDispatchStarted | crates/rovai-core/src/action.rs:1851-1918 | the same for dispatch markers |
| ActionService.Service.RecordResult | crates/rovai-core/src/action.rs:1920-2129 | the same for results |
| ActionService.Service.AcquireDelivery | crates/rovai-core/src/action.rs:2131-2290 | the same for delivery leases |
| ActionService.Service.AcknowledgeDelivery | crates/rovai-core/src/action.rs:2292-2417 | the same for acknowledgements |
| ActionService.Service.FailRuntimeDelivery | crates/rovai-core/src/action.rs:2937-3044 | the same for failed deliveries |
| ActionService.Service.ConfirmRequestResolved | crates/rovai-core/src/action.rs:2419-2624 | the same for requests resolved by the runtime |
| ActionService.Service.ReconcileRuntimeLoss | crates/rovai-core/src/action.rs:2626-2935 | the same for runtime losses |
| ActionService.Service.ResumeRunIfUnblocked | crates/rovai-core/src/action.rs:3640-3679 | the resume check in place |
| ActionService.Service.CreateRuntimeDelivery | crates/rovai-core/src/action.rs:3681-3727 | a delivery is added unless its action, kind and payload are there already |
| ActionService.Service.CloseRunEffects | crates/rovai-core/src/runtime.rs:5174-5279 | five updates in place, equal to closing the run |
| ActionService.Service.PrepareRecovery | crates/rovai-core/src/action.rs:5286-5385 | the start-up updates in place, in their order, equal to the specified restart |
| ActionService.Service.MarkInputDeliveryUnknown | crates/rovai-core/src/context.rs:2714-2806 | changes the run exactly as specified, or nothing |
| ActionService.Service.AcknowledgeInputDelivery | crates/rovai-core/src/context.rs:2946-3152 | the same for input acknowledgements, live and late |
| ActionService.Service.MarkForRecovery | crates/rovai-core/src/runtime.rs:2084-2172 | the same for runs left to recovery |
| ActionService.Service.MarkForNetworkRecovery | crates/rovai-core/src/runtime.rs:2174-2321 | the same for runs that lost the network |
| ActionService.Service.ArmNetworkRecoveryAttempt | crates/rovai-core/src/runtime.rs:2323-2485 | the same for the next attempt of such a run, or its stop when replaying is not safe |
| ActionGateway.Execute | crates/rovai-core/src/command.rs:239-317 | any command against the live tables is one step, refused or applied, and keeps the invariant and the history |
| ActionFindings.CancelLeavesPrepared | crates/rovai-core/src/action.rs:1467-1528 | a cancel option closes its action exactly when it does not allow it; otherwise the action stays prepared and is never claimed |
| ActionFindings.CancelledYetPrepared | crates/rovai-core/src/action.rs:378-394 | four commands that reach a cancelled approval beside a prepared action, since the validator accepts the option |
| ActionFindings.StrictRunsCancelCleanly | crates/rovai-core/src/action.rs:1345-1362 | without such options cancelled implies not executed in every reachable state |
| ActionFindings.AcceptInputIsSafeIff | crates/rovai-core/src/context.rs:3070-3119 | from any good state, an input acknowledgement leaves its run running and blocked exactly when it was so before, or is a live one that wakes the run and meets a blocker |
| ActionFindings.QuietIffCareful | crates/rovai-core/src/context.rs:3070-3119 | a whole history keeps every running run unblocked exactly when none of its acknowledgements is such a one |
| ActionFindings.BlockedRunSetRunning | crates/rovai-core/src/context.rs:17405-17465 | a reachable history, an input marked unknown and acknowledged late by its live execution, that ends with a run set running over a pending approval |
| SwitchRecovery.SwitchAndRecover | crates/rovai-core/src/authority_migration.rs:298-529 | from a crash at any operation, and any crashes of recovery, the database ends as the original with exactly its sidecars and never from copies, or as the migrated file with the migrated content alone, every original then kept in a copy; the latter exactly when the switch had six operations and two for each sidecar |
| SwitchRecovery.SwitchAuthority | crates/rovai-core/src/authority_migration.rs:193-387 | with eight operations and two for each sidecar the main file ends with the migrated content and every original with a copy; with fewer it crashes, before the fourth and one for each sidecar with the original untouched and no manifest, and then behind a manifest that describes the original and whose stage has been reached |
| SwitchRecovery.StageCopy | crates/rovai-core/src/authority_migration.rs:222-317 | up to the manifest, three operations and one for each sidecar, the original stays in place, is copied and is described exactly, and the staged file holds the migrated content |
| SwitchRecovery.PreserveOriginal | crates/rovai-core/src/authority_migration.rs:254-291 | every original artifact is copied aside with its content, and listed once with its identity and the identity of its copy |
| SwitchRecovery.DetachSourceSidecars | crates/rovai-core/src/authority_migration.rs:686-730 | sidecars are set aside one by one, and every intermediate state is recoverable |
| SwitchRecovery.RecoverInterruptedSwitch | crates/rovai-core/src/authority_migration.rs:488-529 | never refuses after a crash, needs at most one operation per sidecar and two more, loses no file but the staging copy on any disk, and refuses an unknown main file unchanged |
| SwitchRecovery.RestoreOriginalSidecars | crates/rovai-core/src/authority_migration.rs:732-819 | on any disk it succeeds exactly when each sidecar is at its place, set aside or in its copy as the manifest has it, and restores that content without overwriting a file; after a crash of the switch every intermediate state stays recoverable |
| SwitchRecovery.PreserveStraySidecars | crates/rovai-core/src/authority_migration.rs:821-877 | unless it crashes, it succeeds exactly when every stray has the whole recorded token and a free place, and then moves them away |
| SwitchRecovery.ToleratedIff | crates/rovai-core/src/authority_migration.rs:831-846 | of the sidecars the restore accepts, those refused beside a published copy are the ones whose status-change time moved or whose place is taken |
| SwitchRecovery.RenamedStrayIsRefused | crates/rovai-core/src/authority_migration.rs:831-857 | a sidecar moved by a rename is accepted by the restore and refused beside a published copy |
| SwitchRecovery.RestoredOne | crates/rovai-core/src/authority_migration.rs:764-783 | restoring one sidecar keeps the state before publication and the others where they are |
| SwitchRecovery.PublishedAfter | crates/rovai-core/src/authority_migration.rs:335-354 | publishing over a database whose sidecars are all set aside leaves the migrated file alone |
| CommandSafety.StepKeepsInv | apps/web/src/client.ts:691-743 | every event keeps the client's invariant and takes back no settlement |
| CommandSafety.RunKeepsInv | apps/web/src/client.ts:691-1024 | so does every sequence of events |
| CommandSafety.SettlesOnce | apps/web/src/client.ts:710-743 | a submission settles at most once and is never pending again |
| CommandSafety.OnePerOperation | apps/web/src/client.ts:696-697 | at most one pending command per operation, each under its own identity, also across reloads |
| CommandSafety.StoredBeforeSent | apps/web/src/client.ts:414-418 | a pending command about to be sent is in tab storage exactly when the page knows its editing scope |
| CommandSafety.SentYetForgotten | apps/web/src/client.ts:497-504 | before that, a sent command is stored nowhere and a reload forgets it |
| CommandSafety.LeavesPendingOnlyBy | apps/web/src/client.ts:710-743 | a command leaves the pending set by a result, a recorded receipt, a Core error with an absent receipt, a refusal before admission, or a new page |
| CommandSafety.SubmissionsAreAccountedFor | apps/web/src/client.ts:701-707 | everything a page submitted is pending or settled |
| CommandSafety.RequestsCarrySubmissions | apps/web/src/client.ts:904-928 | every request, retries and restored ones too, carries a payload that was submitted, under its identity |
| CommandSafety.ReloadRestores | apps/web/src/client.ts:470-495 | a reload restores exactly the pending commands and settles nothing |
| CommandSafety.ReloadForgetsIff | apps/web/src/client.ts:470-504 | a reload forgets a pending command exactly when the page had no scope yet or the tab was forked |
| CommandSafety.RefusedIsNotExecuted | apps/web/src/client.ts:715-718 | a refused command that was never retried is never executed |
| CommandSafety.RefusedRunsIff | apps/web/src/client.ts:710-718 | some continuation executes a refused command exactly when one of its retries was not refused and was sent, or is about to be on the connection it was made on |
| CommandSafety.SettledRunsIff | apps/web/src/client.ts:710-743 | the same for any settled command and any of its requests |
| CommandSafety.RefusedYetExecuted | apps/web/src/client.ts:710-718 | a refused command that was retried may have been |
| CommandOutcomes.SubmittedIsSent | apps/web/src/client.ts:691-708 | a submission is taken exactly when the page is logged in, connected, need not recover and has nothing of its operation pending; it is then registered and its request can go out |
| CommandOutcomes.ReplyDecides | apps/web/src/client.ts:710-733 | what each reply does to a pending command: a result and the refusal of a first request settle it, a Core error is looked up, anything else leaves it open and the page has to recover |
| CommandOutcomes.AnsweredOnce | apps/web/src/client.ts:710-743 | a request is answered once and a lookup once |
| CommandOutcomes.ReceiptDecides | apps/web/src/client.ts:735-742 | what each receipt does: a recorded one settles, an absent one only after a Core error, and a failed lookup after such an error leaves the page to recover |
| CommandOutcomes.RetryRepeats | apps/web/src/client.ts:904-928 | a logged-in page repeats what is pending with the same payload under the same identity, offline too |
| CommandOutcomes.LostOutcomeHolds | apps/web/src/client.ts:724 | after a lost reply, a session reply to a retry, or a failed lookup after a Core error, with anything pending, the page has to recover and takes no submission |
| CommandOutcomes.RecoveryHolds | apps/web/src/client.ts:1066-1068 | and so in every continuation, reloads included, until at some moment nothing is pending |
| CommandOutcomes.LoggedOutIsQuiet | apps/web/src/client.ts:1080-1082 | a page without credentials submits and sends nothing in any continuation until it gets some |
| CommandOutcomes.OfflineOnlyRetries | apps/web/src/client.ts:1080-1090 | a page that is offline sends only retries, until it is back |
| CommandOutcomes.ForgettingDropsUnsent | apps/web/src/client.ts:628-650 | what was not sent when the page dropped its connection or was reloaded is never sent |
| ConsoleClient.Console.RequestWithSource | apps/web/src/client.ts:691-708 | submits exactly under the guard, registering and storing before dispatch |
| ConsoleClient.Console.HandleReply | apps/web/src/client.ts:710-733 | the reply of a request moves the client by one step |
| ConsoleClient.Console.HandleReceipt | apps/web/src/client.ts:735-742 | likewise the answer of a receipt lookup |
| ConsoleClient.Console.LoadPage | apps/web/src/client.ts:444-495 | likewise a page load with the restore of its commands |
| ConsoleClient.Console.PersistRecovery | apps/web/src/client.ts:536-540 | the pending commands are written once the scope is known |
| ConsoleClient.Console.Redispatch | apps/web/src/client.ts:923-925 | a retry sends the original payload again |
| EventFrames.DecodeAppend | apps/web/src/client.ts:299-321 | decoding a text at once equals decoding a part and then its left-over with the rest |
| EventFrames.CutsDoNotMatter | apps/web/src/client.ts:299-321 | frames and left-over are those of the whole text however it is cut |
| EventFrames.SameTextSameFrames | apps/web/src/client.ts:299-321 | two ways of cutting one text give the same frames and left-over |
| EventFrames.FramesSpellTheText | apps/web/src/client.ts:304-307 | frames, their separators and the left-over spell the text out again |
| EventFrames.FramesAreWhole | apps/web/src/client.ts:304-307 | what stands after each frame is one of the four texts of a blank line, and none of them starts before it in the frame |
| EventFrames.SeparatorIsBlankLine | apps/web/src/client.ts:304 | the separator at a place is the one of the four texts of `\r?\n\r?\n` that stands there, if any |
| EventFrames.RestIsPart | apps/web/src/client.ts:304-307 | no blank line is left over |
| EventFrames.InvalidationDecoder.Push | apps/web/src/client.ts:299-321 | a push fails exactly over the limit, and otherwise takes the complete frames, keeps the rest and reports the relevant ones |
| EventFrames.LimitDependsOnCuts | apps/web/src/client.ts:301 | one text that is refused in one push and accepted in two |
| EventFrames.EveryCutFitsIff | apps/web/src/client.ts:299-302 | every way of cutting a text is within the limit exactly when the text is |
| EventFrames.SomeCutFitsIff | apps/web/src/client.ts:299-321 | some way is, exactly when the left-over stays below the limit wherever the text is interrupted |
| FileDetails.ChainsCollapse | crates/rovai-core/src/agent_run_file_change.rs:1440-1512 | a continuous chain is one change from first to last state, vanishing exactly when they are equal; a broken one keeps every change in order |
| FileDetails.ContinuousFullStateDetail | crates/rovai-core/src/agent_run_file_change.rs:1440-1512 | the loop over the operations computes that detail |
| FileDetails.DisappearsIff | crates/rovai-core/src/agent_run_file_change.rs:1306-1374 | a path disappears exactly when all its changes are full states that chain back to the start |
| FileDetails.DetailCountsAll | crates/rovai-core/src/agent_run_file_change.rs:1306-1362 | a listed file counts every change on its path |
| FileDetails.SumKnownCounts | crates/rovai-core/src/agent_run_file_change.rs:1569-1587 | the loop adds up the known counts, saturating |
| FileDetails.SaturatingIsCapped | crates/rovai-core/src/agent_run_file_change.rs:1569-1587 | the saturating sum is the plain sum capped at the 64-bit maximum |
| FileCard.AppendChanges | crates/rovai-core/src/agent_run_file_change.rs:1072-1237 | one item's visible changes, then its bare write unless the item already reported the path |
| FileCard.FileDetailsFromOperations | crates/rovai-core/src/agent_run_file_change.rs:1290-1304 | grouping by path and listing in path order |
| FileCard.FilesAtPaths | crates/rovai-core/src/agent_run_file_change.rs:1290-1304 | the listed files are exactly those whose changes leave something to show |
| FileCard.FilesInOrder | crates/rovai-core/src/agent_run_file_change.rs:1290-1304 | strictly in path order, so no path twice |
| FileCard.InOrderStays | crates/rovai-core/src/agent_run_file_change.rs:1301 | sorting changes that stand in order moves nothing |
| FileCard.BySequenceOrders | crates/rovai-core/src/agent_run_file_change.rs:1301 | the sort puts the changes in order of their sequence |
| FileCard.BySequenceIsStable | crates/rovai-core/src/agent_run_file_change.rs:1301 | and keeps the order of the changes of one sequence |
| FileCard.PathsKeepTheirOrder | crates/rovai-core/src/agent_run_file_change.rs:881-912 | evidence is read in order, so on every path the sort moves nothing |
| FileAggregate.AggregateEvidence | crates/rovai-core/src/agent_run_file_change.rs:933-1045 | the loops over evidence and files compute the specified details and card |
| FileAggregate.CardAgrees | crates/rovai-core/src/agent_run_file_change.rs:994-1042 | card and details agree field by field and in every total; totals are known exactly when every file's are |
| FileAggregate.SendSourcesAreNotListed | crates/rovai-core/src/agent_run_file_change.rs:945-985 | the source of a successful send is never listed, wherever the send stands |
| FileAggregate.OperationCountsAreObserved | crates/rovai-core/src/agent_run_file_change.rs:1282-1304 | without a run snapshot a file counts the observed changes on its path |
| FileAggregate.ListedIff | crates/rovai-core/src/agent_run_file_change.rs:1282-1374 | and a path is listed exactly when it has changes, was not sent, and does not chain back to its start |
| FileAggregate.ListedChains | crates/rovai-core/src/agent_run_file_change.rs:1306-1374 | a listed file whose changes are all full states shows a chain as one change from first to last state, which differ, and a broken chain change by change in order, and counts them all |
| FileAggregate.SnapshotIsAuthority | crates/rovai-core/src/agent_run_file_change.rs:1601-1668 | a readable run snapshot is listed as it stands; operations add only paths outside the execution root that no section names, each with all its changes |
| FileAggregate.AdaptDetail | crates/rovai-core/src/agent_run_file_change.rs:840-879 | the read-back loops accept and adapt exactly as specified, per stored version |
| FileAggregate.ReadBackAccepts | crates/rovai-core/src/agent_run_file_change.rs:840-879 | what aggregation produces from identities that are not blank is read back unchanged |
| FileAggregate.ReadBackIff | crates/rovai-core/src/agent_run_file_change.rs:840-879 | whatever the identities, it is read back exactly when no file got a blank one |
| FileAggregate.StoredVersions | crates/rovai-core/src/agent_run_file_change.rs:840-879 | stored details of versions 2 and 3 are accepted unchanged exactly when card and files agree in path and identity, of version 1 when they agree in path, with identities derived for their places, and of others never |
| FileShown.ChangesAreShown | crates/rovai-core/src/agent_run_file_change.rs:1306-1374 | what a file shows of the changes on its path: a chain or a single snapshot by its net diff, anything else change by change; each block carries the counts of its diff, or none; the file the capped sums over its diffs, or none |
| FileShown.ListedIsShown | crates/rovai-core/src/agent_run_file_change.rs:1282-1374 | without a run diff every listed file shows so the changes observed on its path, in order of their sequence |
| FileShown.SnapshotIsShown | crates/rovai-core/src/agent_run_file_change.rs:1601-1668 | a readable run diff is shown section by section with the counts of each diff, and what it leaves out as it was observed |
| FileShown.OutsidersAreListed | crates/rovai-core/src/agent_run_file_change.rs:1601-1668 | beside a run diff every path outside the root that it does not name is listed as it would be without it; a blank one adds nothing and an unreadable one counts for nothing |
| FileShown.LastRunDiffCounts | crates/rovai-core/src/agent_run_file_change.rs:933-960 | the last run diff counts |
| FileShown.ItemIsObserved | crates/rovai-core/src/agent_run_file_change.rs:1072-1237 | what one item adds to the observed changes: its visible entries in order, and its write when nothing of its sequence speaks of that path |
| FileIdentity.RevisionsAreReadBack | crates/rovai-core/src/agent_run_file_change.rs:559-572 | every revision of a card is read back unchanged, since no new identity is blank |
| FileIdentity.LastRound | crates/rovai-core/src/agent_run_file_change.rs:993-998 | a listed path keeps the identity it had on the card before, and any other gets a new one |
| FileIdentity.LastEntryCounts | crates/rovai-core/src/agent_run_file_change.rs:559-572 | of several entries for one path the last has the say |
| FileIdentity.IdsAreTraced | crates/rovai-core/src/agent_run_file_change.rs:993-998 | over all revisions listed identities are issued ones, and no two paths of a card share one |
| FileIdentity.IdsAreDistinctIff | crates/rovai-core/src/agent_run_file_change.rs:993-998 | the identities on a card are distinct exactly when no path that the card before already had is listed twice |
| FileIdentity.DistinctWithoutSnapshot | crates/rovai-core/src/agent_run_file_change.rs:1282-1304 | without a run diff they always are |
| FileIdentity.EachIsFoundIff | crates/rovai-core/src/agent_run_file_change.rs:416-421 | every entry is found by its identity exactly when the identities are distinct |
| FileIdentity.OneIdentityTwice | crates/rovai-core/src/agent_run_file_change.rs:1601-1636 | two sections for one path have one identity on the second revision |
| FileProjection.Projector.ProjectTerminalRun | crates/rovai-core/src/agent_run_file_change.rs:163-285 | which outcome each state and build gives and the whole row after it: a publication raises the revision by one and the source strictly; an unchanged source and evidence arriving meanwhile publish nothing; a refused build marks what was published |
| FileProjection.CandidateIff | crates/rovai-core/src/agent_run_file_change.rs:287-332 | the sweep looks for exactly the runs with evidence that projecting would publish something for |
| FileProjection.Projector.TerminalRecoveryCandidates | crates/rovai-core/src/agent_run_file_change.rs:287-332 | the next eight candidates after the cursor, none skipped |
| FileProjection.Projector.Sweep | crates/rovai-core/src/application/execution_drivers.rs:540-567 | a sweep visits every candidate exactly once whatever fails, and leaves none when nothing fails or arrives |
| TextBlocks.BlocksForRun | scripts/aggregate-execution-text.py:56-105 | the row loop computes the specified blocks |
| TextBlocks.RowsArePreserved | scripts/aggregate-execution-text.py:56-105 | block by block in finishing order, the text rows of a key are exactly its deltas with text and its completions, in order |
| TextBlocks.BlocksAreSound | scripts/aggregate-execution-text.py:84-98 | a block has a text row, its chunks are the texts of its deltas, and at most its last text row is a completion, whose text it keeps |
| TextBlocks.NativeBlocksComplete | scripts/aggregate-execution-text.py:67-105 | blocks of a native identity end by their completion, except the last one of the run |
| TextBlocks.TextIsPreserved | scripts/aggregate-execution-text.py:74-86 | so, joined in finishing order, the chunks of a key are its non-empty deltas in order |
| TextBlocks.BlocksPartition | scripts/aggregate-execution-text.py:67-105 | no row goes to two blocks, nor twice to one |
| TextBlocks.BlocksAreDisjoint | scripts/aggregate-execution-text.py:67-105 | two blocks share no row |
| TextBlocks.AnonymousAlone | scripts/aggregate-execution-text.py:60-77 | at most one anonymous block is open at any moment |
| TextBlocks.BlocksTextual | scripts/aggregate-execution-text.py:84-98 | every block holds a row that is not a start, so it has a first row |
| TextEnds.StatusSaysHow | scripts/aggregate-execution-text.py:84-105 | a block that a completion ended is interrupted exactly when that failed; one closed by a boundary or other text is completed; one open at the end has the status of its run |
| TextEnds.StartsGoAlong | scripts/aggregate-execution-text.py:67-105 | the start rows of a key go, in order, each with the first block that ends after it by a completion or with the run |
| TextEnds.CompletionTakesWaiting | scripts/aggregate-execution-text.py:84-98 | a completed block takes exactly the starts that wait for its key |
| TextCompaction.Evidence.CompactBlock | scripts/aggregate-execution-text.py:166-209 | a saved block becomes one row at its earliest text row; a skipped one changes nothing |
| TextCompaction.Evidence.CompactRun | scripts/aggregate-execution-text.py:157-218 | exactly one row per saved block, every other row and every protected row unchanged, and the count falls by exactly the rows removed |
| TextSaving.SavedIff | scripts/aggregate-execution-text.py:166-190 | a block is saved exactly when one of its rows says something, the text is short enough and no row of it is protected |
| TextReading.BlocksOfKeyInOrder | scripts/aggregate-execution-text.py:56-105 | of two blocks of a key, every text row of the first precedes every text row of the second |
| TextReading.BlocksSpellTheTextIff | scripts/aggregate-execution-text.py:52-53 | the block texts of a key spell what its rows say exactly when no completion with text of its own follows text that a boundary closed, which never happens to a native identity |
| TextReading.CutTextDoesNotFlow | scripts/aggregate-execution-text.py:60-65 | three rows without identity for which it does |
| TextReading.StreamedIsSpoken | scripts/aggregate-execution-text.py:52-53 | without completion texts what the rows say is the joined text of the deltas |
| TextReading.ReadingSpellsTheText | scripts/aggregate-execution-text.py:157-218 | the records that compaction leaves of such a key, whatever was protected or too long, spell what its rows said when read in order of sequence |
| TextReading.CompactionKeepsReading | scripts/aggregate-execution-text.py:157-218 | so a reader finds the same text before and after |
| TextReading.ReadingIsUnique | scripts/aggregate-execution-text.py:157 | there is one way to read given records in order of sequence |
| ImageQuota.Accumulator.Observe | crates/rovai-core/src/agent_run_image.rs:264-349 | an update accepts exactly the fold of its images; a terminal one then emits, in order of arrival, everything accepted for its tool and not emitted before |
| ImageQuota.TakingKeeps | crates/rovai-core/src/agent_run_image.rs:306-328 | the byte counter is the total held, no pair is accepted twice, and an image is taken exactly when there is room |
| ImageQuota.TakenInTurn | crates/rovai-core/src/agent_run_image.rs:264-328 | the images of an update are taken in their turn, and each is known afterwards unless there was no room for it |
| ImageQuota.SamePairIff | crates/rovai-core/src/agent_run_image.rs:306-320 | images with data are told apart by their digest, whatever their paths, others by their path |
| ImageQuota.EmittingKeeps | crates/rovai-core/src/agent_run_image.rs:329-348 | emitting keeps the counter and the order, and leaves nothing of the tool behind |
| ImageQuota.RecordImages | crates/rovai-core/src/agent_run_image.rs:465-595 | a run stays within twenty images and 100 MiB, none over 20 MiB, none twice in a tool call |
| ImageQuota.RecordedInTurn | crates/rovai-core/src/agent_run_image.rs:499-593 | a readable candidate is recorded as it stands unless it was before, the run has twenty images, or it would pass 100 MiB; any other changes nothing |
| ImageQuota.FirstTwentyAreConsidered | crates/rovai-core/src/agent_run_image.rs:499-520 | the first twenty candidates are considered, and no other |
| ImageQuota.ReplayAddsNothing | crates/rovai-core/src/agent_run_image.rs:499-593 | recording the same inline images again adds nothing |
| TabLease.NeverDisplaced | apps/web/src/tab-recovery.ts:21-37 | a document never hidden that renews in time stays the owner of its tab |
| TabLease.LaterArrivalForks | apps/web/src/tab-recovery.ts:38-44 | a later arrival with the same stored identity is refused twice and then forks to another one that it owns |
| TabLease.DisplacedIff | apps/web/src/tab-recovery.ts:29-32 | a running lease passes to another document exactly when its holder left a release marker |
| TabLease.ShownAgainYetDisplaced | apps/web/src/tab-recovery.ts:49-56 | a document shown again can so lose its tab within its lease |
| TabLease.AssertMeansOwner | apps/web/src/tab-recovery.ts:45-47 | a successful assert makes the store name the document for a full lifetime |
| TabLease.SilentHolderIsReplaced | apps/web/src/tab-recovery.ts:29-32 | a lease that is not renewed for 30 seconds is given to anyone who asks, without a marker |
| TabLease.ReloadKeepsTheTab | apps/web/src/tab-recovery.ts:38-56 | the document that a reload opens has the tab at its first attempt, whether or not the asynchronous release was carried out |
| TabLease.ReleaseIsOwn | apps/web/src/tab-recovery.ts:28 | a release deletes the lease of its own document only |
| TabLease.BeatTells | apps/web/src/tab-recovery.ts:48-56 | a beat or being shown leaves a document active exactly when the store names it then, for 30 seconds more |
| TabLease.DisplacedStaysOut | apps/web/src/tab-recovery.ts:45-56 | a displaced document takes nothing back while its successor renews, and its next beat makes it inactive |
| TabLease.SharedStore.RequestLease | apps/web/src/tab-recovery.ts:21-37 | the lease transaction in place |
| TabLease.SharedStore.TryToAcquire | apps/web/src/tab-recovery.ts:38-44 | two attempts, then the fork |
| TabLease.SharedStore.AssertOwner | apps/web/src/tab-recovery.ts:45-47 | succeeds exactly for an active document whose request is granted |
| SleepClock.ClaimBoundsSleep | crates/rovai-core/src/automation_clock.rs:25-50 | whenever a claim is handed out the device slept at most 3,000,002 ns since the baseline sample |
| SleepClock.LongSleepIsNoticed | crates/rovai-core/src/automation_clock.rs:35-39 | a longer sleep yields no claim and moves the boundary |
| SleepClock.NoSleepNoMove | crates/rovai-core/src/automation_clock.rs:25-50 | without sleep an established boundary stays and every bounded sample yields a claim |
| SleepClock.BoundaryNeverFalls | crates/rovai-core/src/automation_clock.rs:36-45 | the boundary never moves backwards |
| SleepClock.StartIsSound | crates/rovai-core/src/automation_clock.rs:10-15 | a new clock is sound, so what is proved of sound clocks holds of it |
| SleepClock.BoundsEnclose | crates/rovai-core/src/automation_clock.rs:67-93 | the bounds enclose the true sleep and lie at most a millisecond and a rounding apart |
| SleepClock.BoundsIff | crates/rovai-core/src/automation_clock.rs:81-93 | a reading has bounds exactly when it took at most a millisecond, rounded down, its clocks are in order and the longer gap fits 64 bits |
| SleepClock.NewBaseline | crates/rovai-core/src/automation_clock.rs:35-47 | a reading without a claim is the new baseline, and the boundary moves up to it |
| SleepClock.ClaimIff | crates/rovai-core/src/automation_clock.rs:33-49 | a claim is handed out exactly when the lower bound is at most a millisecond above every upper bound since the baseline |
| SleepClock.AutomationClock.Observe | crates/rovai-core/src/automation_clock.rs:25-50 | the method updates boundary and offset as specified |
| ThreadIdCodec.AcceptedIff | crates/rovai-core/src/camp_id.rs:46-73 | a string is accepted exactly when it is the spelling of a UUIDv7, which is its payload |
| ThreadIdCodec.RefusedAs | crates/rovai-core/src/camp_id.rs:46-73 | which strings are refused, and as what: shape, digit, overflow, version or variant |
| ThreadIdCodec.LayoutIff | crates/rovai-core/src/camp_id.rs:63-71 | the accepted payloads are those with 48 bits of time, the version, 12 bits, the variant and 62 bits |
| ThreadIdCodec.EncodedIsParsed | crates/rovai-core/src/camp_id.rs:79-83 | every UUIDv7 is read back as itself |
| ThreadIdCodec.OrderIsPreserved | crates/rovai-core/src/camp_id.rs:145-156 | identities sort as strings as their payloads do as numbers |
| ThreadIdCodec.FirstDigitBounds | crates/rovai-core/src/camp_id.rs:58-60 | 26 digits fit 128 bits exactly when the first is at most 7 |
| ThreadIdCodec.PrefixFits | crates/rovai-core/src/camp_id.rs:61 | so no shift loses a bit |
| ThreadIdCodec.Parse | crates/rovai-core/src/camp_id.rs:46-73 | the loop with its truncating shift gives the first thing wrong or the payload |
| ThreadIdCodec.EncodeUuid | crates/rovai-core/src/camp_id.rs:145-156 | filling the digits from the right spells the payload |
| ThreadIdCodec.CrockfordValue | crates/rovai-core/src/camp_id.rs:158-163 | the position of a character in the alphabet, if any |

## Left out

- Action commands: replays of one command, events, input validation, workspace scope checks and display summaries; `admitted`, `scopeOk` and `wellFormed` stand for their verdicts.
- Lost claims and expired execution leases of actions: the code checks none between claim and result, so none appear.
- Liveness under a scheduler: progress is stated as the commands that a state allows (`ActionProgress`, `ActionExecution`, `ActionRuns`, `ActionFlow`), not as what must happen; the way of an intercepted request is stated stage by stage. The resume check skips runs that wait on an unknown action, as in the code.
- The other writers of the run row: they end a run, for which `EndRun` and `AbortRun` stand, or, as completing a network recovery does, change only its version and columns that the model does not have.
- One error name stands for the three reasons of closing a run, and the input deliveries of a run are parameters of restart and loss.
- The lease and error columns of runs, which restart also resets, and the wait reason `recovery_blocked`, which nothing sets any more.
- The order and idempotence of operations below one file operation, and errors other than a crash, in the switch writer; manifest path checks.
- Uploads, sessions and renewals of the browser client beyond the flags that guard its commands.
- Payloads of event frames: which event names matter is a parameter of the decoder.
- Path normalisation, unified-diff texts and the reading of JSON evidence: items arrive picked apart, the differ is a parameter.
- The list of evidence identities a card was built from.
- Encoded sizes, previews and blobs of compacted text: one predicate says which texts are too long. Compaction of several runs is one run at a time.
- The start rows of text blocks wait in one list instead of a list per key.
- Reading image files: a candidate arrives with its key and size, or unreadable. A digest and a path are never confused.
- Tab storage and timers of tab leases: an arrival may carry any stored identity, and time passes between any two events.
- Clocks of platforms other than macOS, which report no sleep.
- Multi-byte characters in identities: a string is a sequence of characters, and only ASCII is accepted.
- ActionTheorems.RestartSettlesExecutions: speaks of the rows before lost batches are failed, because failing a batch closes its prepared actions as well.
- SwitchRecovery.SwitchAndRecover: does not say that an unfinished staging copy without a manifest is removed, because the code leaves it.
- FileProjection.Projector.Sweep: assumes that no other projector runs, and that evidence for a run arrives only while it is being projected or before the sweep.
