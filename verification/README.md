# Holding and restoring a cluster, and its ledgers: a Dafny model

The repository's `experiments/thick-generations/` holds protocol machines that take a cluster out
of service and bring it back exactly as it was. They share one shape: an intent is made durable,
then the effect takes place, then its completion is made durable; a run may be cut anywhere, and a
step whose outcome is uncertain is never sent again. This project models those machines and proves
what they promise over every run, every cut and every restart. `dafny verify dfyconfig.toml` checks
all of it.

## How it is laid out

* `RestorePlan`, `ServiceWorld`, `Hold`: the order of restoration steps, what hold and restoration do
  to the services, and the gates on the way, as functions of plan and baseline. Phase table, unit sets
  and participants are parameters, duplicate-free and otherwise arbitrary; `SHIPPED` is the
  repository's own table, used only where a number is at stake.
* `Records`, `Inspector`, `Grants`: the durable records, the prefix inspector as a second machine,
  and the grant provider with the release validator.
* `Progress`, `Tracking`, `Stages`, `Launch`: the one invariant of a restoration, `Progress.AtStage`
  (n steps complete, k of the eight records of the next, its effect done or not), how each write and
  effect moves it, and what each actor finds at each stage.
* `Cluster`, `Example`: the class the composed run works on, with journals, services, trace, transport and
  coordinator state as fields. Its methods follow the source's loops and are proved against the
  functions and predicates of the modules above. Any event may be the one the run is cut at.
  `Example` is a cohort of two nodes held and restored from beginning to end.
* `Barrier`, `BarrierBackend`: the maintenance barrier's journal and recognisers, and who may start
  a command over any number of restarts.
* `Executors`, `Transport`: any number of local executors interleaved on one journal, with arbitrary
  clocks, and the transport with its recovery path.
* `ConfigCas`, `Admission`, `IntegratedLedger`, `Wire`, `LocalJournal`, `Keys`, `ClosedReboot`,
  `GuestShutdown`: one module for each of the remaining machines.

Specification functions that the table's members speak of: `RestorePlan.Steps` (the coordinator's
loops), `ServiceWorld.ReleaseGate`, `Predecessor` and `EarlierPhasesRestored` (gates),
`Grants.Phase` and `Evaluate` (position check and release validator), `Inspector.Accept`,
`ConfigCas.Next`, `Admission.Apply`, `IntegratedLedger.Valid` with its five operations,
`Wire.Packed` and `Unpacked`, `Executors.Next`, `LocalJournal.ReadFile`, `Keys.Accepted`.

## What is assumed

A digest of a value stands for the value itself, so digests are equal exactly when the values are;
the hashes of `Wire` and the volume key of `IntegratedLedger` are arbitrary functions, `Barrier.LastHashDeterminesJournal`
takes injectivity as a hypothesis. The JSON printer is assumed to print no newline, and the parser to
read printed text back (`LocalJournal.Faithful`). Clocks, nonces, answers from the network and the
points of failure are inputs.

## Where the code does less than it promises

* A composed run tries the release validator on the UNMASK of the first unit of the first node before
  anything is released. If that unit was masked in the baseline the run is refused, although the
  restoration would never touch it. A run completes if and only if its evidence is sound and that unit
  was not masked (`Launch.TrialPasses`, `Cluster.Cluster.Run`, example `MaskedFirstUnitIsRefused`).
* The journal's key check reads any four-part key that begins with `receipt` as a receipt, so the
  intents and completions of a node of that name are refused. These are the only records of a plan
  that are (`Keys.PlanRecordsAccepted`, `NodeCalledReceipt`).
* `issue_launch` does not look at the form of the command digest; only the store does. An allowed
  launch is stored if and only if the command is one (`IntegratedLedger.LaunchIsStored`,
  `AllowedLaunchMayBeRefused`).
* `finish_exact` can only end in TERMINAL with SUCCESS: the evidence it derives is never incomplete, so
  the admission module's UNKNOWN outcome is not reachable through it (`IntegratedLedger.FinishIsSuccess`),
  and `_validate`, which allows the state by name, accepts no ledger with such a slot (`ValidSlotSays`).
* The inspector reads the trace of one run. A restoration reopened after a cut is followed by an
  inspector that starts from the journals as they stand (`Cluster.Cluster.Reopen`).

## Model

Source paths are relative to the repository.

| member | source | states |
|---|---|---|
| RestorePlan.StepPresent | experiments/thick-generations/layout-migration-exact-restore-model.py:190-199 | no step the baseline asks for is left out of the loops, from whatever place they stand at |
| RestorePlan.StepLocated | experiments/thick-generations/layout-migration-exact-restore-model.py:190-199 | every listed step is one the baseline asks for, at a place the loops have not passed |
| RestorePlan.StepsAscend | experiments/thick-generations/layout-migration-exact-restore-model.py:190-195 | two listed steps sit at two different places of the loops, the earlier one strictly before |
| RestorePlan.StepsDistinct | experiments/thick-generations/layout-migration-exact-restore-model.py:50-72 | duplicate-free nodes and units make the list duplicate-free: no step is met twice |
| RestorePlan.OrderFollowsPlaces | experiments/thick-generations/layout-migration-exact-restore-model.py:190-195 | list order is loop order, for any two wanted steps |
| RestorePlan.PhasesAscend | experiments/thick-generations/layout-migration-exact-restore-model.py:190-195 | along the list the phase never goes back, whatever the phase table |
| RestorePlan.UnmaskPrecedesStart | experiments/thick-generations/layout-migration-exact-restore-model.py:195-197 | a unit that is both unmasked and started is unmasked first |
| RestorePlan.EarlierPhasePrecedes | experiments/thick-generations/layout-migration-exact-restore-model.py:190-195 | all wanted steps of an earlier phase, on every node, precede a step of a later one |
| RestorePlan.WantedIsListed | experiments/thick-generations/layout-migration-exact-restore-model.py:195-199 | a step on a barrier-masked unit that the baseline asks for is in the list |
| RestorePlan.ListedIsWanted | experiments/thick-generations/layout-migration-exact-restore-model.py:195-199 | nothing else is: an original mask is never removed, an inactive unit never started, pve-guests never started |
| RestorePlan.StepsAre | experiments/thick-generations/layout-migration-exact-restore-model.py:190-199 | the steps are exactly the UNMASK of each barrier unit that was not masked and the START of each target that was active |
| RestorePlan.PhasesAre | experiments/thick-generations/layout-migration-exact-restore-model.py:15-25 | the phases are the table's own, in order, and then pve-guests alone |
| RestorePlan.PlanSays | experiments/thick-generations/layout-migration-exact-restore-model.py:50-72 | an admitted plan has a window of half an hour at most, distinct nodes, and a table that names each unit once |
| RestorePlan.StepsBound | experiments/thick-generations/layout-migration-exact-restore-model.py:190-199 | for any table and cohort: at most two steps a unit and node, and one a node for pve-guests |
| RestorePlan.ShippedStepsFit | experiments/thick-generations/layout-migration-exact-transport-server.py:308 | with the shipped table and four nodes at most 68 steps, inside the server's bound of 72 |
| RestorePlan.ShippedTableIsValid | experiments/thick-generations/layout-migration-exact-restore-model.py:15-25 | the shipped phase table meets everything that is asked of a table here |
| ServiceWorld.CohortIsEveryNode | experiments/thick-generations/layout-migration-exact-restore-model.py:105-130 | the cohort-wide check and the node-by-node one agree, in both directions |
| ServiceWorld.NodeShows | experiments/thick-generations/layout-migration-exact-restore-model.py:119-130 | a valid node is exactly one whose active pve-guests has exited, whose other active units run, whose inactive units are dead, with the essential services of its role active |
| ServiceWorld.GateShows | experiments/thick-generations/layout-migration-exact-restore-model.py:149-161 | the release gate refuses exactly a lost unit, a target started or stripped of its original mask, or a preserved unit changed in more than an added mask on pve-guests |
| ServiceWorld.StepNeeds | experiments/thick-generations/layout-migration-exact-restore-model.py:213-227 | an UNMASK needs a masked unit, a START an unmasked dead one; pve-guests as active as before, anything else dead |
| ServiceWorld.PhaseGateShows | experiments/thick-generations/layout-migration-exact-release-validator.py:250-255 | the phase gate demands, of every unit in an earlier phase of the table on every node, its baseline state |
| ServiceWorld.SourcesShow | experiments/thick-generations/layout-migration-exact-release-validator.py:199-200 | a local link and an effective mask exactly where the unit is masked |
| ServiceWorld.HeldShows | experiments/thick-generations/layout-migration-exact-integration-model.py:416-431 | the hold leaves targets masked and dead, pve-guests masked and otherwise as it was, everything else untouched |
| ServiceWorld.SourcesRestored | experiments/thick-generations/layout-migration-exact-integration-model.py:376-379 | hold then restore gives every unit that was not masked its very source back |
| ServiceWorld.HoldThenRestoreIsIdentity | experiments/thick-generations/layout-migration-exact-restore-model.py:190-230 | hold then restore is the identity on services, from every baseline that can be captured |
| ServiceWorld.GateHolds | experiments/thick-generations/layout-migration-exact-restore-model.py:149-161 | the preserved-service and target gate of every release check passes after any number of steps |
| ServiceWorld.PredecessorHolds | experiments/thick-generations/layout-migration-exact-restore-model.py:213-214 | when a step's turn comes its unit is exactly where the step must find it |
| ServiceWorld.WorldStep | experiments/thick-generations/layout-migration-exact-restore-model.py:219-224 | a step changes one unit only and meets its postcondition |
| ServiceWorld.DoneStepsKept | experiments/thick-generations/layout-migration-exact-restore-model.py:226-227 | a completed effect does not drift through any later step |
| ServiceWorld.EarlierPhasesHold | experiments/thick-generations/layout-migration-exact-release-validator.py:250-255 | the validator's phase gate holds for the pending step: earlier phases equal the baseline on every node |
| ServiceWorld.SpotRestored | experiments/thick-generations/layout-migration-exact-restore-model.py:228-230 | a unit whose wanted steps are done is back to its baseline state, whatever else is pending |
| ServiceWorld.WorldValid | experiments/thick-generations/layout-migration-exact-restore-model.py:105-130 | at every step the cohort is an observation the coordinator accepts |
| ServiceWorld.SourcesValid | experiments/thick-generations/layout-migration-exact-release-validator.py:196-213 | at every step the unit sources match the service states, vendor files are unchanged, original masks keep their link |
| ServiceWorld.BlockedAndDrained | experiments/thick-generations/layout-migration-exact-integration-model.py:416-431 | blocking the entry units on all nodes and then draining all nodes gives the held world the restoration starts from |
| Barrier.History | experiments/thick-generations/layout-migration-barrier-model.py:174-197 | the nested loops accept exactly the in-order prefixes of the three events of each action, and say which is missing |
| Barrier.HistorySays | experiments/thick-generations/layout-migration-barrier-model.py:165-197 | event by event, what an accepted history holds: kind, index, action and the receipt its action asks for |
| Barrier.ActionsAre | experiments/thick-generations/layout-migration-barrier-model.py:82-86 | entry block on every node, then drain on every node, then audit on every node, in plan order |
| Barrier.ObservationProves | experiments/thick-generations/layout-migration-barrier-model.py:90-127 | what an accepted observation proves of its node, and of its masks and stopped services when final |
| Barrier.Inspect | experiments/thick-generations/layout-migration-barrier-file-journal.py:110-153 | the chain loop and the flat recogniser accept exactly the linked journals whose events are such a prefix, and name the state |
| Barrier.RecordsSay | experiments/thick-generations/layout-migration-barrier-file-journal.py:110-121 | record by record, what a readable journal holds: number, predecessor's hash, own hash, plan |
| Barrier.RecognisersAgree | experiments/thick-generations/layout-migration-barrier-file-journal.py:122-133 | nested and flat recogniser accept the same event lists and agree on which are complete |
| Barrier.CrashPrefixReadsBack | experiments/thick-generations/layout-migration-barrier-file-journal.py:48-63 | a journal cut after any record reads back as exactly the events written before the cut |
| Barrier.LastHashDeterminesJournal | experiments/thick-generations/layout-migration-barrier-file-journal.py:110-121 | two readable journals of a plan with the same last record hash are the same journal |
| Barrier.ChainLinked | experiments/thick-generations/layout-migration-barrier-file-journal.py:48-63 | the chain persist_event writes for an accepted history passes every check of inspect |
| Barrier.BarrierFileJournal.PersistEvent | experiments/thick-generations/layout-migration-barrier-file-journal.py:48-63 | whatever write fault occurs, the files chain the acknowledged events and at most this one more; success exactly on acknowledgement of a fitting event |
| Hold.ActionHolds | experiments/thick-generations/layout-migration-exact-integration-model.py:416-431 | each barrier action moves the services one place along the hold |
| Hold.AllHeld | experiments/thick-generations/layout-migration-barrier-model.py:226-259 | once all drains are through, and through the audits, the services are the held world |
| Hold.EntryIsTerminal | experiments/thick-generations/layout-migration-barrier-model.py:229-236 | once every node is entry-blocked every node shows it, through all later actions |
| Hold.AuditIsSound | experiments/thick-generations/layout-migration-barrier-model.py:90-127 | the final audit's whole check passes on every held node |
| Hold.DrainIsSound | experiments/thick-generations/layout-migration-barrier-model.py:244-251 | no check on a drain receipt can fail, whatever the services |
| Hold.EntryGateHolds | experiments/thick-generations/layout-migration-barrier-model.py:219-236 | the first preflight passes on the baseline, and the second on the blocked cohort |
| Hold.EntryGateShows | experiments/thick-generations/layout-migration-barrier-model.py:229-236 | the gate before the drains asks exactly for every entry unit masked and, pve-guests apart, inactive |
| Hold.EventGoesIn | experiments/thick-generations/layout-migration-exact-integration-model.py:404-414 | persisting the next event keeps the journal an in-order prefix of the action's events |
| BarrierBackend.Plant.Persist | experiments/thick-generations/layout-migration-barrier-backend.py:248-252 | an acknowledged ATTEMPTED event, and nothing else, yields the one dispatch token |
| BarrierBackend.Plant.NodeRequest | experiments/thick-generations/layout-migration-barrier-node-latch.py:141-185 | a batch begins at most once for a node and operation, behind the create-only latch |
| BarrierBackend.Plant.AgentRequest | experiments/thick-generations/layout-migration-barrier-backend.py:181-229 | a look at the node, then the batch, then another look; a drain only on a node that shows its entry blocked |
| BarrierBackend.Plant.Call | experiments/thick-generations/layout-migration-barrier-backend.py:254-274 | a batch begins only on a matching ATTEMPTED last record with its token, which it uses up |
| BarrierBackend.Plant.ObserveAll | experiments/thick-generations/layout-migration-barrier-model.py:219-236 | the gate passes only if every node was seen entry-blocked since the last entry block began |
| BarrierBackend.Plant.Act | experiments/thick-generations/layout-migration-barrier-model.py:237-259 | an action leaves its three records in order, or a prefix of them, and succeeds when no call is cut |
| BarrierBackend.Plant.RunController | experiments/thick-generations/layout-migration-barrier-model.py:199-264 | an empty journal only is worked on; a run holds exactly with the full journal and all batches begun; undisturbed it always holds |
| BarrierBackend.Plant.Lifetime | experiments/thick-generations/layout-migration-barrier-model.py:199-264 | over any number of restarts every batch begins at most once, after its durable attempt and latch, and no drain before all nodes were seen blocked with all entry blocks through |
| Inspector.PrefixInspector.AcceptItem | experiments/thick-generations/layout-migration-exact-integration-model.py:501-545 | the inspector accepts an item exactly when its records justify it, and then knows that item and no more |
| Inspector.PrefixAccepted | experiments/thick-generations/layout-migration-exact-integration-model.py:501-545 | what is accepted event by event is accepted at every prefix |
| Inspector.AcceptedAppliesOnce | experiments/thick-generations/layout-migration-exact-integration-model.py:521-538 | in any accepted trace, whoever produced it, no effect is applied twice |
| Inspector.AcceptedEffectIsRecorded | experiments/thick-generations/layout-migration-exact-integration-model.py:521-538 | in any accepted trace an applied effect has its coordinator intent, its executor's intent and the grant both rest on, all for that very request |
| Inspector.AcceptedStoresOnce | experiments/thick-generations/layout-migration-exact-integration-model.py:510-517 | in any accepted trace no journal slot is stored twice |
| Inspector.AcceptedItemsFollow | experiments/thick-generations/layout-migration-exact-integration-model.py:501-551 | nothing is stored, acknowledged or applied that was not announced, stored or announced before with the same content, all under the plan's transaction and participants |
| Inspector.AcceptedCompletionsAreReal | experiments/thick-generations/layout-migration-exact-integration-model.py:553-576 | whatever is on record as done was done: confirmation, receipt, node completion, intent and an applied effect with that result all agree |
| Inspector.UnknownAreUncompleted | experiments/thick-generations/layout-migration-exact-integration-model.py:578-581 | the effects reported unknown are exactly those announced without their completion stored |
| Grants.EnumerateRequests | experiments/thick-generations/layout-migration-exact-grant-provider-model.py:89-101 | the provider's own loops enumerate exactly the coordinator's dispatch sequence |
| Grants.CheckPhase | experiments/thick-generations/layout-migration-exact-grant-provider-model.py:130-193 | the check as it runs, reading in order and refusing at the first fault, equals the positional definition |
| Grants.LaterPositionRulesOutEarlier | experiments/thick-generations/layout-migration-exact-grant-provider-model.py:157-163 | a journal that puts one request in position excludes every earlier one |
| Grants.OnlyOneRequestGrantable | experiments/thick-generations/layout-migration-exact-grant-provider-model.py:130-193 | in any journal state whatever, reachable or not, at most one request passes |
| Grants.RepeatedAuthorizationIsIdentical | experiments/thick-generations/layout-migration-exact-grant-provider-model.py:195-228 | asking again after publication returns the identical grant |
| Grants.PublishedPhase | experiments/thick-generations/layout-migration-exact-grant-provider-model.py:225-227 | publishing a grant changes neither position nor prefix |
| Grants.EvaluatedGrant | experiments/thick-generations/layout-migration-exact-release-validator.py:269-282 | a server grant names its request, executor and predecessor, lasts at most 30 seconds, and its target source is the step's |
| Grants.GrantedRequest | experiments/thick-generations/layout-migration-exact-release-validator.py:242-282 | the validator grants only the executor with the node's new package, on the plan's boot of it, for this baseline and release, inside the plan's window and for half a minute at most |
| Grants.GrantedUnit | experiments/thick-generations/layout-migration-exact-release-validator.py:194-264 | only on the unit as observed and as the operation needs it, wanted by the baseline, with every earlier phase restored, nothing drifted, vendor sources and original links intact |
| Grants.GrantableRun | experiments/thick-generations/layout-migration-exact-grant-provider-model.py:63-88 | a grant presupposes the begun and uncompleted run, the whole barrier trace, the hold, the archives, this baseline and this release on record |
| Grants.GrantablePlace | experiments/thick-generations/layout-migration-exact-grant-provider-model.py:147-193 | every earlier step is complete on record, exit code zero, inside a grant issued for its place; the granted one is begun and not completed; later ones have left nothing |
| Grants.GrantedPast | experiments/thick-generations/layout-migration-exact-grant-provider-model.py:192 | the past a grant is bound to is the requests, grants, intents and receipts of the earlier steps as they are on record |
| Grants.ForbiddenLeftNothing | experiments/thick-generations/layout-migration-exact-grant-provider-model.py:132-146 | no grant while any journal holds a trace of a barrier-unit operation the baseline does not ask for |
| Grants.IssuedGrant | experiments/thick-generations/layout-migration-exact-grant-provider-model.py:209-218 | what is issued binds request, executor, unit, evidence, closure, place and past, and differs from the server's grant in the authorization only |
| Grants.StepRecordsKeepAdmission | experiments/thick-generations/layout-migration-exact-grant-provider-model.py:63-88 | no record of a step can revoke or forge the durable admission |
| Progress.SlotsApart | experiments/thick-generations/layout-migration-exact-restore-model.py:203-208 | records of different steps and kinds never share a journal slot |
| Records.RequestNames | experiments/thick-generations/layout-migration-exact-restore-model.py:204-206 | the coordinator asks for this plan's step on the plan's boot of the node under this baseline and release |
| Progress.Advance | experiments/thick-generations/layout-migration-exact-restore-model.py:204-225 | the next record of the pending step leaves a journal of the same shape, one record further |
| Progress.Finish | experiments/thick-generations/layout-migration-exact-grant-provider-model.py:168-192 | the last record makes the step pass as a complete predecessor |
| Progress.FullyStagedIsComplete | experiments/thick-generations/layout-migration-exact-grant-provider-model.py:168-191 | the eight records of a step satisfy every predecessor check |
| Progress.PhasePasses | experiments/thick-generations/layout-migration-exact-grant-provider-model.py:130-193 | while a step is pending its request passes the provider's check, at its own index and with the true prefix |
| Progress.EvaluatePasses | experiments/thick-generations/layout-migration-exact-release-validator.py:194-213 | the release validator grants the pending step in the world the earlier steps leave |
| Tracking.UnknownIsPending | experiments/thick-generations/layout-migration-exact-integration-model.py:578-581 | where records and journals agree the inspector has at most one unknown effect |
| Tracking.RecordIsJustified | experiments/thick-generations/layout-migration-exact-integration-model.py:553-576 | every record a step writes meets the inspector's rule for it |
| Tracking.EffectIsJustified | experiments/thick-generations/layout-migration-exact-integration-model.py:521-533 | every effect a step announces meets the inspector's rule for it |
| Tracking.EffectMoves | experiments/thick-generations/layout-migration-exact-integration-model.py:375-383 | the command moves services, sources and effects exactly one step on |
| Stages.ReleasePassesHere | experiments/thick-generations/layout-migration-exact-restore-model.py:146-170 | in every reachable state the coordinator's release check passes |
| Stages.AuthorizationFits | experiments/thick-generations/layout-migration-exact-grant-provider-model.py:195-228 | before the intent the pending step gets its grant, and after it the very same grant |
| Stages.OnlyThePendingIsGranted | experiments/thick-generations/layout-migration-exact-grant-provider-model.py:130-193 | in every reachable state the provider's check passes for no request but the pending one, and only before its effect is recorded |
| Stages.StepFacts | experiments/thick-generations/layout-migration-exact-restore-model.py:207-214 | for each step met: both records if complete, an intent alone if uncertain, neither and the right predecessor if new |
| Stages.EndFacts | experiments/thick-generations/layout-migration-exact-restore-model.py:228-231 | when the loops are through the services equal the baseline on every node |
| Stages.EndIsFinal | experiments/thick-generations/layout-migration-exact-restore-model.py:228-231 | a restoration that has reached the end is at rest: nothing pending, services as in the baseline |
| Stages.SourcesAreBack | experiments/thick-generations/layout-migration-exact-integration-model.py:376-379 | at the end every unit that was not masked before the hold has its own source back |
| Stages.DurableShape | experiments/thick-generations/layout-migration-exact-restore-model.py:204-225 | in every reachable state the done keys are a prefix of the steps, the intents exceed it by at most one, the effects are one of the two |
| Stages.EffectsAreOrdered | experiments/thick-generations/layout-migration-exact-restore-model.py:190-225 | no effect happens twice, and none of a later phase before all earlier phases are done and recorded on all nodes |
| Cluster.Cluster.Hit | experiments/thick-generations/layout-migration-exact-integration-model.py:92-101 | an event is recorded before the run is cut at it, and the inspector takes it |
| Cluster.Cluster.Write | experiments/thick-generations/layout-migration-exact-integration-model.py:130-138 | create-only: an existing record is refused and kept; any cut leaves the old journal or the new record; a justified write keeps the inspector in step |
| Cluster.Cluster.Release | experiments/thick-generations/layout-migration-exact-restore-model.py:146-170 | once the release stage is reached the check passes exactly on a cohort that meets the gate; it changes nothing |
| Cluster.Cluster.Authorize | experiments/thick-generations/layout-migration-exact-grant-provider-model.py:195-228 | authorize gives exactly the specified grant or refuses with nothing written; a cut leaves that grant published or not |
| Cluster.Cluster.Command | experiments/thick-generations/layout-migration-exact-integration-model.py:368-387 | the pending effect happens once, and any cut leaves a stage with at most one unknown effect |
| Cluster.Cluster.Execute | experiments/thick-generations/layout-migration-exact-local-restore.py:140-252 | for the pending step no check of the executor fails: it ends with a confirmed receipt on record or is cut; its intent names the new package of its node's row, the unit as found and its grant, and only that unit has changed, as the operation says |
| Cluster.Cluster.Dispatch | experiments/thick-generations/layout-migration-exact-transport.py:396-430 | for the pending step the transport ends with attempt, receipt and completion on record or is cut |
| Cluster.Cluster.PerformStep | experiments/thick-generations/layout-migration-exact-restore-model.py:213-225 | from rest before a step to rest after it, or cut inside it, never refused |
| Cluster.Cluster.HandleStep | experiments/thick-generations/layout-migration-exact-restore-model.py:200-227 | skip if complete, refuse if uncertain with nothing changed, perform if new |
| Cluster.Cluster.Restore | experiments/thick-generations/layout-migration-exact-restore-model.py:179-233 | from any stage a cut left: uncertain step, refused with the world unchanged; otherwise the exact baseline services and sources, every step once, or a new cut stage |
| Cluster.Cluster.CheckRestored | experiments/thick-generations/layout-migration-exact-restore-model.py:228-230 | the closing comparison refuses exactly when some node is not back |
| Cluster.Cluster.CaptureBaseline | experiments/thick-generations/layout-migration-exact-restore-model.py:136-144 | two passes, then the record; refused exactly on an existing baseline or an invalid node |
| Cluster.Cluster.HoldAction | experiments/thick-generations/layout-migration-barrier-model.py:237-259 | one barrier action: its three events on record and the services one place on, or cut |
| Cluster.Cluster.HoldAll | experiments/thick-generations/layout-migration-barrier-model.py:199-264 | from a sound baseline the barrier always ends with every node held and the full journal |
| Cluster.Cluster.TryFirstRequest | experiments/thick-generations/layout-migration-exact-integration-model.py:458-463 | the trial evaluation passes exactly when the first unit of the first node was not masked and the evidence is sound |
| Cluster.Cluster.Run | experiments/thick-generations/layout-migration-exact-integration-model.py:433-480 | cut at any event: every event accepted, at most one unknown effect, nothing restored or a stage that can be reopened; uncut: completes exactly when it can, services as before the hold |
| Cluster.Cluster.Lifetime | experiments/thick-generations/layout-migration-exact-restore-model.py:179-233 | any number of cut restorations on one journal: the durable shape holds throughout, an uncut one from between steps completes, one from within a step never does anything |
| Launch.TrialPasses | experiments/thick-generations/layout-migration-exact-integration-model.py:458-463 | the trial evaluation passes if and only if the evidence is sound and the first unit was not masked in the baseline |
| Launch.MaskedFirstUnitIsRefused | experiments/thick-generations/layout-migration-exact-integration-model.py:458-463 | a concrete sound cohort that the trial refuses, though no step would touch its first unit |
| Example.SoundCanComplete | experiments/thick-generations/layout-migration-exact-integration-model.py:433-480 | a concrete sound cohort, pve-guests active and exited on one node and targets running, that a run can complete on |
| Example.StepsAreThese | experiments/thick-generations/layout-migration-exact-restore-model.py:190-199 | its seven steps, phase by phase and node by node |
| Example.RestoreTheCohort | experiments/thick-generations/layout-migration-exact-integration-model.py:433-480 | an uncut run on it has those seven effects and ends with its services as before |
| Launch.ReleaseGoesIn | experiments/thick-generations/layout-migration-exact-integration-model.py:464-473 | once the release is on record the run stands at the first step, nothing done |
| Executors.StepHolds | experiments/thick-generations/layout-migration-exact-local-restore.py:140-252 | whatever one executor does next, every executor's standing and every record stay consistent |
| Executors.CommandsRunOnce | experiments/thick-generations/layout-migration-exact-local-restore.py:216-231 | any executors, any interleaving: a step's command runs at most once, by the writer of its acknowledged intent, within its grant of five minutes at most |
| Executors.CommandsFitTheirUnit | experiments/thick-generations/layout-migration-exact-local-restore.py:193-211 | a command runs only on a unit found as its step needs it, under a grant for that request, executor and unit; pve-guests is never started |
| Executors.DriftIsRefused | experiments/thick-generations/layout-migration-exact-local-restore.py:220-246 | any other reading, grant or clock between intent and command ends the executor, any drift after the command keeps the outcome off the record |
| Executors.UndisturbedExecution | experiments/thick-generations/layout-migration-exact-local-restore.py:186-252 | an executor left alone on a fitting unit gets through: one command, intent and outcome on record, CONFIRMED |
| Executors.CompletedForEver | experiments/thick-generations/layout-migration-exact-local-restore.py:171-184 | a completed step stays on record, its command does not run again, and whoever asks for it with the unit unchanged is told CONFIRMED |
| Executors.AbandonedForEver | experiments/thick-generations/layout-migration-exact-local-restore.py:163-170 | an intent whose executor ended without an outcome stays so for ever: its own executor and request are told UNKNOWN_RETAIN, others refused, and its command never runs again |
| Transport.Transport.Persist | experiments/thick-generations/layout-migration-exact-transport.py:390-394 | success exactly on an acknowledged new record; nothing on record ever changes |
| Transport.Transport.DispatchRestoreOnce | experiments/thick-generations/layout-migration-exact-transport.py:396-430 | an effect is sent at most once over all transports, with its attempt on record; undisturbed it returns the valid receipt with the three records; a failed send poisons |
| Transport.Transport.InspectRestoreAttempt | experiments/thick-generations/layout-migration-exact-transport.py:432-474 | never writes and never sends an effect; reports completion exactly when the three records agree, or remotely when the attempt stands and the answer carries a valid receipt |
| ConfigCas.TakeEvent | experiments/thick-generations/layout-migration-config-cas-model.py:181-261 | the loop body, variable by variable, is one transition |
| ConfigCas.Evaluate | experiments/thick-generations/layout-migration-config-cas-model.py:157-265 | the loop accepts exactly a request with the stated sizes and budget and at most sixteen events that the transition system takes, and classifies its last state |
| ConfigCas.RefusedStays | experiments/thick-generations/layout-migration-config-cas-model.py:180-261 | the accepted traces are closed under prefixes |
| ConfigCas.StepMatches | experiments/thick-generations/layout-migration-config-cas-model.py:180-261 | after a legal trace the loop admits an event exactly when the language does, and knows what the trace says |
| ConfigCas.AcceptedIsLegal | experiments/thick-generations/layout-migration-config-cas-model.py:180-261 | the accepted traces are exactly a language of places, clocks and one crash that mentions no loop state |
| ConfigCas.AtMostNine | experiments/thick-generations/layout-migration-config-cas-model.py:169 | no accepted trace has more than nine events, so the limit of sixteen never binds |
| ConfigCas.NineIsReached | experiments/thick-generations/layout-migration-config-cas-model.py:225-231 | for every valid request some accepted trace has nine events |
| ConfigCas.DispatchIsGuarded | experiments/thick-generations/layout-migration-config-cas-model.py:212-216 | a dispatch stands third, after a durable intent, before any crash, both clocks within the budget; there is one at most |
| ConfigCas.VerdictIs | experiments/thick-generations/layout-migration-config-cas-model.py:263-268 | TARGET exactly for settled traces that observed the target's bytes, BASELINE the baseline's, FOREIGN any others; the last two never after a reported success |
| ConfigCas.ObservedIs | experiments/thick-generations/layout-migration-config-cas-model.py:238-253 | what the state shows as observed, by the bytes of the observation |
| ConfigCas.ReasonsAre | experiments/thick-generations/layout-migration-config-cas-model.py:194-260 | each of the six reasons is given exactly when its occasion is in the trace: rollback, expiry, unproven intent, crash after observation, contradicted success, unproven receipt |
| ConfigCas.UndisturbedAttempt | experiments/thick-generations/layout-migration-config-cas-model.py:157-268 | the undisturbed attempt of any valid request: its final state field by field, and TARGET_OBSERVED |
| ConfigCas.SuccessIsNeverBaselineOrForeign | experiments/thick-generations/layout-migration-config-cas-model.py:251-252 | a reported success never yields BASELINE or FOREIGN |
| ConfigCas.UncrashedTargetWasDispatched | experiments/thick-generations/layout-migration-config-cas-model.py:263-268 | TARGET without a crash implies the one dispatch |
| ConfigCas.PoisonSticks | experiments/thick-generations/layout-migration-config-cas-model.py:263-268 | once poisoned every extension is UNKNOWN_RETAIN |
| Admission.Backend.DoReserve | experiments/thick-generations/executor-admission-lab.py:198-215 | allowed exactly for a free slot and a fresh attempt; then the record is stored as RESERVED and the attempt spent; otherwise, or cut before the rename, nothing changes |
| Admission.Backend.DoBind | experiments/thick-generations/executor-admission-lab.py:217-229 | allowed exactly on the expected RESERVED record; stores it as BOUND with the invocation, or nothing |
| Admission.Backend.DoTransition | experiments/thick-generations/executor-admission-lab.py:231-251 | allowed exactly on the expected BOUND record, to UNKNOWN or with proof to TERMINAL; stores the given result, or nothing |
| Admission.Backend.DoClose | experiments/thick-generations/executor-admission-lab.py:253-263 | allowed exactly on the expected TERMINAL record; removes that slot and no other, or nothing |
| Admission.OpsKeep | experiments/thick-generations/executor-admission-lab.py:137-157 | every operation keeps the ledger loadable and no attempt in two slots, and moves no attempt backwards |
| Admission.LedgersStayInOrder | experiments/thick-generations/executor-admission-lab.py:137-157 | in every state of every run: distinct spent attempts, every slot its own key's record in a known state, no attempt in two slots |
| Admission.NeverAgain | experiments/thick-generations/executor-admission-lab.py:198-263 | over any run a record that has left its slot is in no slot ever again |
| Admission.StaleOperationsLose | experiments/thick-generations/executor-admission-lab.py:219-258 | so any operation that still expects it loses and changes nothing |
| Admission.ReservedOnce | experiments/thick-generations/executor-admission-lab.py:204-212 | an attempt is reserved at most once in a run |
| Admission.UnknownIsForever | experiments/thick-generations/executor-admission-lab.py:231-263 | an UNKNOWN slot is never released nor changed |
| IntegratedLedger.ReserveIsStored | experiments/thick-generations/executor-integrated-admission-lab.py:582-611 | from a valid ledger an allowed reservation gives one the store accepts |
| IntegratedLedger.LaunchIsStored | experiments/thick-generations/executor-integrated-admission-lab.py:613-627 | an allowed launch is stored if and only if its command is a 64-digit digest |
| IntegratedLedger.AllowedLaunchMayBeRefused | experiments/thick-generations/executor-integrated-admission-lab.py:613-627 | a concrete valid ledger and launch that the operation allows and the store refuses |
| IntegratedLedger.BindIsStored | experiments/thick-generations/executor-integrated-admission-lab.py:629-653 | an allowed bind gives a ledger the store accepts |
| IntegratedLedger.DispatchIsStored | experiments/thick-generations/executor-integrated-admission-lab.py:655-691 | an allowed dispatch gives a ledger the store accepts |
| IntegratedLedger.FinishIsStored | experiments/thick-generations/executor-integrated-admission-lab.py:693-735 | an allowed finish gives a ledger the store accepts, the dispatch revision below the finish revision |
| IntegratedLedger.FinishIsSuccess | usr/share/perl5/PVE/SharedLvmAdmission.pm:156-188 | derived evidence is always complete: a finish ends in TERMINAL and SUCCESS, never UNKNOWN, and can be undone to the bound record |
| IntegratedLedger.EvidenceIsValid | experiments/thick-generations/executor-integrated-admission-lab.py:194-228 | the evidence derived from a terminal proof is valid evidence |
| IntegratedLedger.SlotStays | experiments/thick-generations/executor-integrated-admission-lab.py:379-514 | a slot untouched by an operation stays valid at every later revision |
| IntegratedLedger.ValidHeaderSays | experiments/thick-generations/executor-integrated-admission-lab.py:379-514 | a valid ledger names its authority, host and epoch, and its attempts are distinct across history and slots |
| IntegratedLedger.ValidRecordSays | experiments/thick-generations/executor-integrated-admission-lab.py:411-445 | every slot holds a record of the ledger's own host and epoch under its own volume key, with invocation and result exactly in the states that have them |
| IntegratedLedger.ValidSlotSays | experiments/thick-generations/executor-integrated-admission-lab.py:448-514 | a slot is reserved, or bound and started, or finished with success; none in a valid ledger is UNKNOWN |
| IntegratedLedger.ValidHistorySays | experiments/thick-generations/executor-integrated-admission-lab.py:431-484 | launch, startup and grant of a slot are of its record's attempt, and each is bound to the ones before it |
| IntegratedLedger.ValidFinishSays | experiments/thick-generations/executor-integrated-admission-lab.py:485-514 | a finish follows the dispatch in revision, and its proof is of the dispatched grant, the started process and the record as bound |
| IntegratedLedger.LedgerFile.Transaction | experiments/thick-generations/executor-integrated-admission-lab.py:542-568 | an invalid ledger or successor is refused with nothing changed; otherwise the next revision is stored |
| IntegratedLedger.LedgerFile.Reserve | experiments/thick-generations/executor-integrated-admission-lab.py:582-611 | stored exactly when the ledger is valid, the record sound and of this host and epoch, its slot free and its attempt fresh; then that slot and that attempt are added, one revision on |
| IntegratedLedger.LedgerFile.IssueLaunch | experiments/thick-generations/executor-integrated-admission-lab.py:613-627 | stored exactly on the expected RESERVED slot, not held and not launched, with a digest for a command; then only its launch is added |
| IntegratedLedger.LedgerFile.Bind | experiments/thick-generations/executor-integrated-admission-lab.py:629-653 | stored exactly for a sound startup that matches the slot's launch; then the record is BOUND with its invocation and the startup added |
| IntegratedLedger.LedgerFile.IssueDispatch | experiments/thick-generations/executor-integrated-admission-lab.py:655-691 | stored exactly for a sound grant of the slot's own startup, record, authority and epoch; then only the dispatch is added, and its issued revision is the ledger's new one |
| IntegratedLedger.LedgerFile.FinishExact | experiments/thick-generations/executor-integrated-admission-lab.py:693-735 | stored exactly for a terminal proof of this very slot; then the record is TERMINAL with SUCCESS and the finish added at the ledger's new revision |
| IntegratedLedger.RunCarries | experiments/thick-generations/executor-integrated-admission-lab.py:561-568 | over any run slots are never freed, keep their attempt and their dispatch, and the ledger stays valid |
| IntegratedLedger.DispatchedOnce | experiments/thick-generations/executor-integrated-admission-lab.py:655-691 | an attempt gets one dispatch ever, whoever asks again with whatever record and grant |
| IntegratedLedger.WorkedAttempt | experiments/thick-generations/executor-integrated-admission-lab.py:582-735 | one attempt through all five operations: every field of the final slot, dispatched at revision 5, finished at 6 |
| Wire.EncodeDecodes | experiments/thick-generations/layout-migration-exact-wire.py:87 | base64 decoding undoes encoding |
| Wire.LettersAreTheAlphabet | experiments/thick-generations/layout-migration-exact-wire.py:87 | the letters are those of table 1 of RFC 4648, section 4, in both directions |
| Wire.GroupsKeepTheirBits | experiments/thick-generations/layout-migration-exact-wire.py:87 | three bytes become four letters with the same bits, one or two at the end are padded, as section 4 of RFC 4648 has it |
| Wire.TestVectors | experiments/thick-generations/layout-migration-exact-wire.py:87 | the test vectors of RFC 4648, section 10 |
| Wire.EncodeLength | experiments/thick-generations/layout-migration-exact-wire.py:108 | the encoded length is four for each three bytes begun |
| Wire.DecodeIsLoose | experiments/thick-generations/layout-migration-exact-wire.py:110-113 | decoding alone is not injective, which is why each chunk is encoded again |
| Wire.Pack | experiments/thick-generations/layout-migration-exact-wire.py:82-91 | the loop over offsets makes the specified frame, or refuses |
| Wire.FrameSays | experiments/thick-generations/layout-migration-exact-wire.py:51-91 | a frame is made exactly for sound bytes of one to 8 MiB and four distinct pins of one closure; its fields, its count and each chunk are as stated |
| Wire.Unpack | experiments/thick-generations/layout-migration-exact-wire.py:94-120 | the loop over chunks accepts exactly the specified payloads |
| Wire.OpenedIsPacked | experiments/thick-generations/layout-migration-exact-wire.py:105-115 | only the encoding of a part of the right length opens as a chunk |
| Wire.PackUnpack | experiments/thick-generations/layout-migration-exact-wire.py:82-120 | unpack gives an effect and bytes if and only if pack makes that payload of them: a two-sided inverse |
| Wire.ChunksLeaveRoom | experiments/thick-generations/layout-migration-exact-wire.py:7-10 | for any raw size up to 8 MiB the chunk list leaves a mebibyte of the 12 MiB frame |
| ClosedReboot.PrefixesDiffer | experiments/thick-generations/closed-reboot-intent-model.py:68-73 | the four prefixes of a proposal are pairwise different |
| ClosedReboot.LatchReleaseLedger | experiments/thick-generations/closed-reboot-intent-model.py:64-77 | in every state the new release stands only behind the new latch, the new ledger only behind the new release, a completion only behind all three |
| ClosedReboot.ProposalSays | experiments/thick-generations/closed-reboot-intent-model.py:40-61 | an admitted proposal leads from one closed latch to another of the new boot, each with its own release and active ledger |
| ClosedReboot.Store.HandOver | experiments/thick-generations/closed-reboot-intent-model.py:78-92 | intent first, then the handoff: a concrete proposal goes through to completion |
| ClosedReboot.Store.Reconcile | experiments/thick-generations/closed-reboot-intent-model.py:29-92 | whatever acknowledgement is lost the store stays a legal prefix of its one recorded proposal, release behind latch and ledger behind release; let through exactly as the guard says; a complete store is not written |
| ClosedReboot.Store.ReconcileAll | experiments/thick-generations/closed-reboot-intent-model.py:78-92 | confirmed runs converge to one complete store as soon as one loses nothing, and then write nothing |
| LocalJournal.LineDecodes | experiments/thick-generations/layout-migration-exact-local-journal.py:42-52 | a whole line decodes to its record |
| LocalJournal.TornNeverDecodes | experiments/thick-generations/layout-migration-exact-local-journal.py:42-52 | no strict prefix of a line decodes to anything |
| LocalJournal.Journal.WriteAll | experiments/thick-generations/layout-migration-exact-local-journal.py:183-202 | the short-write loop ends, with all bytes written unless cut, touching one file |
| LocalJournal.Journal.CreateOnce | experiments/thick-generations/layout-migration-exact-local-journal.py:231-241 | acknowledged exactly when the value reads back from a file that was not there; no existing file changes |
| LocalJournal.Journal.Read | experiments/thick-generations/layout-migration-exact-local-journal.py:243-254 | absence, refusal, or exactly the value the key was created for |
| LocalJournal.FoundIsTheWholeLine | experiments/thick-generations/layout-migration-exact-local-journal.py:243-254 | a value is found exactly in the whole canonical line of a record of that transaction, plan and key; a record moved from elsewhere is refused |
| Keys.SplitJoin | experiments/thick-generations/layout-migration-exact-local-journal.py:208-229 | splitting undoes joining for parts without a colon |
| Keys.JoinSplit | experiments/thick-generations/layout-migration-exact-local-journal.py:208-229 | joining undoes splitting for every text |
| Keys.Accepts | experiments/thick-generations/layout-migration-exact-local-journal.py:208-229 | the chain of name rules accepts exactly the listed shapes |
| Keys.PartsAre | experiments/thick-generations/layout-migration-exact-local-journal.py:208-229 | the parts each record's name is written with |
| Keys.BarrierPartsAre | experiments/thick-generations/layout-migration-exact-local-journal.py:216-218 | a barrier event's name has its index in two digits |
| Keys.NamesDiffer | experiments/thick-generations/layout-migration-exact-local-journal.py:208-229 | distinct logical records have distinct names |
| Keys.PlanRecordsAccepted | experiments/thick-generations/layout-migration-exact-local-journal.py:208-229 | the records of a plan are all accepted, except exactly the step records of a node called receipt |
| Keys.NodeCalledReceipt | experiments/thick-generations/layout-migration-exact-local-journal.py:208-229 | such a node's step records are refused |
| Keys.BudgetNeverBinds | experiments/thick-generations/layout-migration-exact-local-journal.py:149-151 | at most 483 names, so the budget of 512 records never refuses one |
| GuestShutdown.Controller.Run | experiments/thick-generations/layout-migration-guest-shutdown-model.py:80-130 | undisturbed all guests stop in order with their five events each; otherwise the running guests are a suffix with one undecided at most, the journal a prefix, each guest submitted once and only behind its attempt |
| GuestShutdown.TraceSays | experiments/thick-generations/layout-migration-guest-shutdown-model.py:98-124 | the five events of each guest, which and in what order |
| GuestShutdown.Controller.StopGuest | experiments/thick-generations/layout-migration-guest-shutdown-model.py:88-124 | one guest: five events and one submission, or a cut that leaves only this guest undecided |

## Left out

- Operating-system work: descriptors, modes, fsync, locks, /proc, systemctl, SSH and pipes. A write is durable, lost or unacknowledged; an effect is applied or not.
- Source closures, module loading, argument parsing and printing, and the frozen code hashes they carry; the closure is one opaque value in the records.
- Evidence collectors and evaluators (certificates, archive receipts, workload gate). The release proof is opaque and constant during a run, and the archives are opaque texts.
- Fields of an observation other than services (identity, quorum, packages, consumers, tasks): the composed simulation never changes them once the held state matches the evidence, so their checks cannot fail there. A unit's job and control process are left out with them.
- Field regexes and the difference between booleans and integers; where a form matters to a property it is written out (`Common.Hex`, `ClosedReboot.Uuid`) or a parameter (`IntegratedLedger.Env.shaped`).
- Duplicate JSON keys and nonfinite numbers are part of the parser, which is a parameter.
- `bound`, `last_time` and `poisoned` of a grant provider and a validator instance: the composed run makes a new provider for every effect, and each call is modelled as that instance's first or its repetition.
- Cluster.Cluster.Run: time does not pass during a run, as in the simulation it models, whose clock only its caller moves; `Executors` and `ConfigCas` have arbitrary clocks.
- Cluster.Cluster.Lifetime: covers restarts of the coordinator's restoration; a run cut before its release is on record is not resumed, since the source refuses that as well.
- Executors.CommandsRunOnce: source, package, boot and process of an executor are one identity, and the plan's own window is not checked beside the grant's.
- Transport.Transport.DispatchRestoreOnce: requests and responses are values, without their wire sizes, deadlines and helper hashes; the second clock reading of an exchange is the first.
- BarrierBackend.Plant.NodeRequest: an observation is valid or not and blocked or not; its fields are in `Barrier.ValidObservation`. The agent's own clock and re-entry flag are left out.
- Barrier.BarrierFileJournal.PersistEvent: the record file is written whole or not at all; torn writes are the subject of `LocalJournal`.
- GuestShutdown.Controller.Run: snapshot fields other than the running guests and tasks, and the form of task identifiers.
- IntegratedLedger.FinishIsSuccess: the admission module's functions are modelled for laboratory records only, as this ledger uses them.
- The write loop and the inspection of the node latch: the same loop and the same kind of record as in `LocalJournal`.
- `scoped_observation` and `dispatch_entry`: conversions of one shape into another.
- The barrier's second preflight comes when the drains start; the source writes that index as 4, for its four nodes, and the model as the number of participants.
- Agreement of two processes on who owns a journal; instances, not processes, are modelled.
- The systemd, controller-crash and pinned-authority labs, the authority-continuity, closed-successor and closed-predecessor models, and `scripts/`: process supervision, single-pass checks and packaging.
