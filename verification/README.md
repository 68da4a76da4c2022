# Verification model of the Xray control panel

An Xray control panel has a Hub, which owns all policy, and remote Node Agents, which run Xray. The
project models the parts of it that must stay right through crashes, lost and repeated messages and
failing commands, and proves what they promise. `dafny verify dfyconfig.toml` checks all of it.

Conventions shared by the modules:

- Each SQLite transaction is one step. A crash may fall between any two steps and leaves the durable
  part; requests and replies may be lost, delayed, repeated and reordered without bound, so a sent
  message stays in the state for ever.
- Code that changes things in place is a class whose methods follow the source statement by statement
  and are tied by their contracts to a step function on values; the theorems are about runs of those steps.
- A lemma whose name ends in `Exactly` states, independently of the step function, when an operation succeeds and
  what it leaves, with the source's constants as numbers.
- Tokens, identities and digests are opaque values (a payload stands for its digest). What the outside
  world answers (a stats query, a spawn, a disk write, the clock) is a parameter.
- Times are integers: milliseconds in the lease modules, seconds elsewhere. The calendar is in UTC.

## Modules

| module | subject |
|---|---|
| `RelayCompiler` | relay route compilation composed with shadow-listener expansion, as first-match tables |
| `RelayGraph` | configure, enable, disable, delete of relay routes; acyclicity of what may be live |
| `NodeCommands`, `NodeAgent`, `ControlProtocol` | ordered run control between Hub and Agent |
| `DesiredState` | versioned desired state with snapshot and rollback |
| `DurableStop` | an applied ordered Stop against everything else the Agent does |
| `NodeRecovery` | compare-and-stop after the Hub was restored from a stale backup |
| `HubLease`, `LeaseProtocol`, `LeaseGuard`, `LeaseSync` | the accounting lease, its protocol, its guard, the Hub's renewal loop |
| `CredentialHandoff` | bearer token rotation of a registered Node |
| `NodePairing` | first enrolment and its cancellation |
| `Metering` | samples, charges, resets, tombstones and the ledger |
| `ResellerCredit` | volume credit of representatives on nested savepoints |
| `SlidingWindow` | the distinct-address limiter |
| `Firewall` | the nftables broker's lease map against the kernel set |
| `ResetSchedule` | interval and monthly reset deadlines |
| `Wrappers`, `Counters`, `RelayRoutes` | optional values and integer bounds, traffic counters, route names and phases |

## Where the code falls short of its description

Each item names the lemma with the failing input and the one with the exact condition under which the promise holds.

- Traffic Matrix rules that the Hub pushes are dropped by the Node, which keeps only rules of its own scope
  (`NodeLosesMatrixRules`). The two tables decide a packet by the same rule exactly when the Hub's deciding rule
  is not a matrix rule (`NodeAgreesExactlyOffMatrix`).
- The copies made for bridge users carry no local port, so a direct matrix rule does reach a tunnel shadow for
  them (`BridgeUserMeetsDirectMatrixRuleOnShadow`), exactly when the deciding rule is a matrix rule met on its own
  inbound's shadow (`WideningMatrixExactly`). A source Node dials the direct port of its exit, so such a packet
  needs a forwarder in front of the tunnel port.
- A Start whose reply was lost and whose core has died since is repeated in vain: the Agent answers from its
  receipt (`LostReplyThenDeath`). Every other pending command is settled by one undisturbed delivery
  (`UndisturbedDelivery`).
- An ordered Start whose process dies at once is recorded as failed, yet the Stop before it no longer holds
  (`FailedStartCanEndStop`). The Stop survives an uncut Start exactly when the engine refuses it before it has a
  process (`LaterStart`).
- A Start that a crash cuts after its intent was written ends the Stop even if the engine would have refused it
  (`CrashedStartExample`); it keeps the Stop exactly as `CrashedStart` says.
- A desired state whose last write fails after the new core came up leaves the restored counters grown by
  what that core counted (`LateFailureExample`, `FailureRestores`), also if a crash cuts the rollback after its core
  command (`CrashInRollbackExample`, `CrashKeeps`).
- A crash between the rows and the revision leaves new rows under the old revision (`MixedGenerationsExample`),
  exactly under the conditions of `CrashMixesExactly`.
- An early lease fence leaves the core able to start again exactly when its trip could not be written and the
  lease still runs (`Guard.Tick`).
- A client reset cut after the row was zeroed leaves bytes uncharged for good (`CutResetLosesBytes`,
  `LossIsPermanent`). The next charge makes up for the cut exactly under the conditions of `CutBeforeCharge` and
  `CutAfterCharge`; nothing is ever charged twice.
- A token handoff refuses only tokens of its own journal. If it takes a token from which a rotate of the first
  pairing, still under way, starts, that rotate can later move a still fresh Agent to a token no one has on record
  (`PairingRotateLocksOut`); this can happen exactly then (`LockOutExactly`).
- A client named twice in a bulk edit is reported as an error although an edit was applied (`DuplicateExample`),
  exactly when its first row succeeds (`DuplicateReportsAppliedRow`).
- A firewall add that took effect but was reported as failed leaves a live element nobody leases; giving up its
  port then leaves it there (`LostBanOutlivesItsPort`), and the exact condition is in `SetPortsExactly`. A failing
  read of a live element does the same. One call breaks the lease mirror exactly then (`StepMirrorsExactly`), and
  the mirror is whole again once the longest ban has passed (`MirrorHeals`).

## Model

| member | source | states |
|---|---|---|
| RelayCompiler.RelayedTraffic | backend/node_relay.py:241-304 | on both listeners of a relayed inbound, a packet of no bridge user meets the blackhole that blocked it before, otherwise exactly the relay tag, after compilation and shadow expansion, for every rule list |
| RelayCompiler.BridgeTraffic | backend/node_relay.py:241-304 | a bridge user ends at its own exit or at a blackhole that blocked it, even on an inbound that is relayed itself; there is an outbound of the exit tag and every one is a freedom outbound, so what was not blocked leaves the Node |
| RelayCompiler.OtherTraffic | backend/node_relay.py:241-304 | every other packet is routed as the Node routed it before compilation |
| RelayCompiler.RelayedTrafficNeverDirect | backend/node_relay.py:281-304 | an outbound of the tag relayed traffic is sent to exists, and every one is a blackhole if the packet was blocked before, VLESS if both ends of the route are usable, and a blackhole otherwise |
| RelayCompiler.CompileRefusesExactly | backend/node_relay.py:241-304 | compilation is refused exactly when a route concerns the Node and an outbound already carries a reserved tag; own outbounds stay first, own rules last, and nothing changes when no route concerns the Node |
| RelayCompiler.CompiledOutbounds | backend/node_relay.py:271-292 | the outbounds are the Node's own, a freedom one for every usable route that ends here, and for every enabled route that starts here a VLESS one, or a blackhole when an end is unusable |
| RelayCompiler.WideningMatrixExactly | backend/core.py:1018-1035 | leaving matrix rules out of the shadow expansion changes the deciding rule if and only if that rule is a matrix rule met on its own inbound's shadow |
| RelayCompiler.WideningMatrixOnlyMattersOnShadows | backend/core.py:1018-1035 | so it changes no decision on a direct listener |
| RelayCompiler.NodeAgreesExactlyOffMatrix | backend/core.py:956-979 | for every table and packet the Node decides by the same rule as the table the Hub compiled if and only if that rule is not a matrix rule |
| RelayCompiler.NodeLosesMatrixRules | backend/core.py:956-979 | a packet blocked by the table the Hub compiled and not by the table the Node runs |
| RelayCompiler.BridgeUserMeetsDirectMatrixRuleOnShadow | backend/node_relay.py:241-270 | a bridge packet that arrived on a tunnel listener and is blocked there by the copy of a direct matrix rule |
| RelayGraph.WalkRejectsExactly | backend/node_relay.py:108-116 | the recursive walk terminates and raises if and only if a cycle is reachable from the new edge's source |
| RelayGraph.CheckedEdgeKeepsAcyclic | backend/node_relay.py:101-116 | checking from the new source alone keeps the whole graph acyclic |
| RelayGraph.LiveGraphAcyclicOverRuns | backend/node_relay.py:118-176 | the possibly live routes form no cycle after any operations with any pattern of failed synchronizations |
| RelayGraph.CountedEdgesMayCycle | backend/node_relay.py:108-112 | the larger edge set the check collects can become cyclic by one unacknowledged disable |
| RelayGraph.CountedCycleRefuses | backend/node_relay.py:108-116 | while such a cycle is counted, no route whose exit reaches it is configured or enabled |
| RelayGraph.AcyclicIsAccepted | backend/node_relay.py:101-116 | a route that closes no cycle with the counted ones passes the check |
| RelayGraph.ToggleExactly | backend/node_relay.py:140-162 | the exact conditions and effects of enabling and disabling, with the phase and liveness each acknowledgement leaves |
| RelayGraph.ConfigureAndDeleteExactly | backend/node_relay.py:118-176 | the exact conditions and effects of configuring and deleting |
| RelayGraph.NodeRelay.Validate | backend/node_relay.py:101-116 | accepts exactly when the nodes differ, the outside checks pass and no cycle is reachable |
| RelayGraph.NodeRelay.Toggle | backend/node_relay.py:140-162 | enable and disable with preflight, exit and source acknowledgements; exactly when they succeed, and that then the phase and the live set agree |
| RelayGraph.NodeRelay.ConfigureRoute | backend/node_relay.py:118-133 | succeeds exactly for a new or plainly disabled route and an accepted exit |
| RelayGraph.NodeRelay.DeleteRoute | backend/node_relay.py:164-176 | succeeds exactly when the route is disabled and its exit acknowledged |
| NodeAgent.NodeRuntime.Ordered | backend/node_runtime.py:107-169 | the receipt is written before Xray is touched; stale, conflicting, duplicate and failed commands leave exactly the state of the step function |
| NodeAgent.NodeRuntime.RunCommand | backend/node_runtime.py:179-200 | Stop is a durable pause first; a refused Start takes its intent back |
| NodeAgent.NodeRuntime.Apply | backend/core.py:1101-1137 | the engine replaces the running generation or puts the previous one back |
| NodeAgent.NodeRuntime.ReconcileControl | backend/node_runtime.py:202-211 | recomputes the wish from durable intent; an expired lease pauses, an unwanted core is stopped |
| NodeAgent.NodeRuntime.FlushCore | backend/core.py:1150-1158 | maintenance starts only a wanted core |
| NodeAgent.OrderedReceipt | backend/node_runtime.py:137-160 | only an executed command becomes the receipt, and a reply claims applied only for a committed applied receipt of that very command |
| NodeAgent.JudgeExactly | backend/node_runtime.py:107-144 | a command is executed exactly when it is newer under a new id or the unfinished one again, and replayed exactly when it is the applied one |
| NodeAgent.StartExactly | backend/core.py:1101-1137 | when a start succeeds and what then runs; a refusal before the old process went down changes nothing, one after it puts that process back if it ran and can be started again |
| NodeAgent.CommandExactly | backend/node_runtime.py:171-200 | when each run command succeeds, the intent it leaves, and that only a Restart replaces a core that runs the wanted configuration |
| NodeAgent.ReconcileExactly | backend/node_runtime.py:202-235 | the wish is the durable intent while the lease allows it, and an unwanted core goes down, at once when the lease expired |
| NodeAgent.FlushExactly | backend/core.py:1150-1158 | an unwanted or just started core is left alone, and a wanted settled one that can be launched ends up running the current configuration |
| NodeCommands.Register.RecordIntent | backend/node_commands.py:36-60 | the latest intent wins: unless the sequence is used up the slot then holds the requested action, under its old identity exactly if that action was unanswered already, otherwise under the next revision and the fresh id |
| NodeCommands.RecordedIntent | backend/node_commands.py:36-60 | the same of the step function: the slot is left unanswered with exactly the requested action, and the one refusal comes after revision 2^63-1 |
| NodeCommands.Register.HandleReply | backend/node_commands.py:62-122 | only the exact identity, claimed applied and shown in the commanded state, acknowledges; anything else touches at most the diagnostics of the pending row |
| ControlProtocol.Agreement | backend/node_runtime.py:107-160 | over all runs executions never go back, each revision runs the one command the Hub recorded, an applied revision never runs again, and Hub applied = current means the Agent's receipt is exactly that command, applied |
| ControlProtocol.RecordedForGood | backend/node_commands.py:36-60 | what was recorded under a revision never changes |
| ControlProtocol.LatestIntentWins | backend/node_commands.py:36-60 | over all runs, from a recorded intent to the next one the slot holds that action, under the old identity if it was unanswered already and under the next revision and the fresh id otherwise |
| ControlProtocol.NoIdentityConflict | backend/node_runtime.py:131-136 | the Agent's two conflict refusals are never reached |
| ControlProtocol.UndisturbedDelivery | backend/node_commands.py:82-122 | from any reachable state one undisturbed delivery settles the pending command on both sides if and only if it was not applied already with its core out of the commanded state since |
| ControlProtocol.LeftAppliedStays | backend/node_runtime.py:131-169 | for a Start or Restart no delivery whatever is accepted in that case |
| ControlProtocol.LostReplyThenDeath | backend/node_runtime.py:131-169 | a run that reaches it |
| DurableStop.RevisionMonotone | backend/node_runtime.py:508-625 | over all runs of the Agent, with crashes inside applies and commands and every other step, the applied revision never decreases and keeps its payload |
| DurableStop.MaintenanceConverges | backend/node_runtime.py:202-211 | from any state one undisturbed pass of maintenance, or one renewed lease, has the current configuration running if and only if that is the durable intent |
| DesiredState.ApplyAdvances | backend/node_runtime.py:508-625 | an apply records exactly its own revision or leaves revision and payload alone, also when the rollback fails |
| DesiredState.SuccessKeepsCounters | backend/node_runtime.py:534-604 | on success the rows are the payload's, each client of both generations has its counter plus the final sample, restarted or kept running, new clients start from zero and what was seen of dropped ones is gone |
| DesiredState.AdmitExactly | backend/node_runtime.py:508-524 | which envelopes are taken up, known already, or refused |
| DesiredState.DoneExactly | backend/node_runtime.py:525-604 | an admitted state is applied exactly when metering, writes and launch succeed; ordered control keeps its own intent, otherwise the snapshot's is taken over, and the core is up exactly when it is to be |
| DesiredState.UndoneExactly | backend/node_runtime.py:605-625 | when the rollback is clean, and that the core is then up exactly if it was before |
| DesiredState.FailureRestores | backend/node_runtime.py:605-625 | a failure with a clean rollback restores tables, revision, intent and wish as last metered, plus exactly the bytes of a core the rollback had to take down |
| DesiredState.CleanRestore | backend/node_runtime.py:605-625 | nothing is added unless the final write failed or the old core did not run its stored rows |
| DesiredState.LateFailureExample | backend/node_runtime.py:590-608 | an input whose rollback adds bytes to the restored rows |
| DesiredState.CrashKeeps | backend/node_runtime.py:539-623 | a crash anywhere inside an apply or its rollback keeps revision, intent and receipt, and gives each shared client's counter exactly: the old one, the final sample once taken, and what the rollback's core command metered |
| DesiredState.CrashInRollbackExample | backend/node_runtime.py:605-623 | an input for which that last part is not zero |
| DesiredState.CrashMixesExactly | backend/node_runtime.py:539-608 | a crash leaves the new rows under the old revision if and only if the apply reached them and no rollback had put the old ones back |
| DesiredState.CrashCanMixGenerations | backend/node_runtime.py:512-519 | then the old state, offered again, is answered as unchanged and repairs nothing |
| DesiredState.MixedGenerationsExample | backend/node_runtime.py:554-600 | a node and a payload for which it happens |
| DesiredState.StateStore.ReplaceRows | backend/node_runtime.py:554-589 | the loop over clients carries counters over by identity and drops the rest |
| DesiredState.StateStore.ApplyState | backend/node_runtime.py:508-625 | the staged apply with its failure path, statement by statement |
| DurableStop.StopIsDurable | backend/node_runtime.py:171-211 | once ordered Stop r is applied, no interleaving of desired states, crashes, maintenance, lease steps, legacy calls and restarts has Xray running or wanted before an ordered Start or Restart above r |
| DurableStop.AppliedStopStops | backend/node_runtime.py:179-192 | an applied ordered Stop leaves core down, unwanted and durably paused |
| DurableStop.FailedStopIsStillIntended | backend/node_runtime.py:186-192 | a Stop whose final sample failed, or that a crash cut after its intent, is still durable intent |
| DurableStop.LaterStart | backend/node_runtime.py:193-200 | a later accepted Start that is not cut ends the stop if and only if lease, build, validation, port and spawn all pass |
| DurableStop.CrashedStart | backend/node_runtime.py:137-200 | a Start cut by a crash keeps the stop if and only if it was cut before its intent, refused before it, or cut after the refusal took the intent back |
| DurableStop.CrashedStartExample | backend/node_runtime.py:193-196 | a Start the engine would refuse whose crash ends the stop |
| DurableStop.FailedStartCanEndStop | backend/node_runtime.py:145-159 | when a Start is recorded as failed, and that it keeps the stop exactly if the engine refused it before it had a process |
| NodeRecovery.StopTakesEffectIffReviewed | backend/node_recovery_protocol.py:56-80 | the conditional Stop becomes the Agent's command if and only if the reviewed checkpoint or that very Stop is there, otherwise nothing changes, and no later command is undone |
| NodeRecovery.RecoveryAgrees | backend/node_recovery.py:181-280 | on completion Hub and Agent hold the same applied Stop above both histories, the Agent is stopped for good and the pending configuration revision exceeds both sides |
| NodeRecovery.NeededExactly | backend/node_recovery.py:147-170 | recovery is called for exactly when one is unfinished, the Agent would refuse the Hub's command or configuration, or the Hub has an acknowledgement of what the Agent does not hold |
| NodeRecovery.OneRoundRecovers | backend/node_recovery.py:227-271 | from any reachable state with the Hub unmoved and the reviewed checkpoint, or the Stop, still there, one undisturbed round completes the recovery |
| NodeRecovery.LostStartAboveUndoes | backend/node_runtime.py:127-144 | a Start of the lost history above the recovery number undoes it if and only if the engine does not refuse it, so the assumption is needed |
| NodeRecovery.Recovery.Begin | backend/node_recovery.py:181-214 | starts only for the reviewed state and checkpoint when the histories disagree, and numbers the Stop above both |
| NodeRecovery.Recovery.Complete | backend/node_recovery.py:227-271 | completes only on an exact acknowledgement, an independent look and an unmoved local state |
| HubLease.RenewalRules | backend/node_runtime.py:752-790 | a grant names a pending challenge newer than all granted ones, sets its issue time plus sixty seconds, never moves the deadline back and cannot be repeated; everything else changes nothing |
| HubLease.RenewalExactly | backend/node_runtime.py:752-790 | a renewal grants if and only if it names a pending challenge newer than the last grant and at most 30 s old on the basis the Agent holds; the lease then runs to 60 s after the challenge; a duplicate is exactly the accepted acknowledgement repeated |
| HubLease.IssueExactly | backend/node_runtime.py:739-750 | the new challenge comes last under the next number, and exactly those at most 30 s old among the 63 newest stay |
| HubLease.IssueOrdered | backend/node_runtime.py:739-750 | challenges stay ordered, distinct and at most 64 |
| HubLease.AccountingLease.IssueChallenge | backend/node_runtime.py:739-750 | drops expired challenges, makes room by evicting the oldest, appends the new one |
| HubLease.AccountingLease.Renew | backend/node_runtime.py:752-790 | grants, knows a repetition and rejects exactly as above, with the durable latch written before the first grant |
| HubLease.AccountingLease.RecordTrip | backend/node_runtime.py:792-803 | starts are blocked only once the trip is written |
| LeaseProtocol.BoundedAuthority | backend/node_runtime.py:739-790 | whenever a required lease permits Xray, the Hub has imported a snapshot whose challenge was made less than sixty seconds ago |
| LeaseProtocol.OneRoundGrants | backend/node_runtime.py:739-790 | from any reachable state one round of snapshot, import and acknowledgement within 30 s is granted and permits Xray until 60 s after the snapshot |
| LeaseProtocol.OneGrantPerChallenge | backend/node_runtime.py:766-789 | over all runs and restarts no challenge grants twice |
| LeaseProtocol.DeadlineForward | backend/node_runtime.py:783-789 | within one process the deadline moves only forward and only by a grant |
| LeaseProtocol.RequiredForGood | backend/node_runtime.py:711-722 | the enforcement latch survives everything |
| LeaseProtocol.BlockedUntilGrant | backend/node_runtime.py:76-78 | after a recorded trip or a restart no start is permitted until a new grant, whatever else happens |
| LeaseProtocol.TripLiftedByNewer | backend/node_runtime.py:783-789 | the grant that lifts a trip names a strictly newer challenge |
| LeaseGuard.Guard.Notify | backend/node_runtime.py:836-856 | sends exactly one keepalive unless a bounded one falls into the last ten seconds of a required lease; for a running core it ends a second before the lease |
| LeaseGuard.Guard.Pause | backend/node_runtime.py:213-235 | stops a core whose lease is over or nearly over, whatever the final sample, and blocks starts exactly when the trip was written |
| LeaseGuard.Guard.Tick | backend/node_runtime.py:871-942 | after a tick with the engine lock an expired required lease means Xray is down or the unit is killed; every keepalive is bounded, and a tick far from expiry or over a core that is down sends one; a near-expiry fence leaves the core down, and startable again exactly when the trip was not written and the lease still runs |
| LeaseSync.RenewAccountingLease | backend/node_lease_sync.py:97-169 | renews if and only if within two refreshes the exchange comes to a timely, usable snapshot whose acknowledgement the Node accepts; every acknowledgement sent names an accounted, imported, fresh enough snapshot, a policy check after the last charge and an acknowledged state; only an old-challenge refusal is retried |
| CredentialHandoff.NeverLockedOut | backend/node_credentials.py:142-248 | whatever rotates are still under way at the start, if no handoff takes a token such a rotate starts from, the Agent's token is in every reachable state the registered one or the open handoff's candidate, and equal to the registered one when none is open |
| CredentialHandoff.LockOutExactly | backend/node_credentials.py:156-164 | from any such state a handoff to a token can be followed by a lock-out if and only if a rotate from before the journal, still under way, starts from that token |
| CredentialHandoff.PairingRotateLocksOut | backend/node_pairing.py:261-266 | a paired Node for which it can happen |
| CredentialHandoff.StaleRotateRefused | backend/node_agent.py:66-97 | a rotate of any completed handoff is refused however late it arrives |
| CredentialHandoff.CompletionAgrees | backend/node_credentials.py:201-211 | publishing happens only when the Agent already answers to the candidate |
| CredentialHandoff.OneRetryCompletes | backend/node_credentials.py:213-248 | from any reachable open handoff one undisturbed retry completes it |
| CredentialHandoff.BeginExactly | backend/node_credentials.py:142-171 | the exact condition of each answer: an attempt under way resumes for its own candidate only, and otherwise any token never seen before starts one pending attempt from the registered token |
| CredentialHandoff.NextHandoffCompletes | backend/node_credentials.py:156-171 | from any reachable state with nothing under way a token never seen before starts exactly one attempt, and one undisturbed retry completes it unless an older rotate starts from that token |
| CredentialHandoff.OpenHandoffResumes | backend/node_credentials.py:151-155 | an attempt under way is resumed for its own candidate and for no other |
| CredentialHandoff.ReuseWouldLockOut | backend/node_credentials.py:162-164 | without the reuse refusal a late rotate moves the Agent to a token nobody has open |
| CredentialHandoff.Journal.Begin | backend/node_credentials.py:142-171 | starts a handoff exactly when none is under way and the token was never seen, and resumes the one under way exactly for its own candidate |
| CredentialHandoff.Journal.StartRetry | backend/node_credentials.py:213-224 | takes the next operation number and fences every older worker |
| CredentialHandoff.Journal.Finish | backend/node_credentials.py:173-211 | publishes if and only if the row is unfinished, its number unchanged and its original still registered |
| CredentialHandoff.AgentToken.Rotate | backend/node_agent.py:66-97 | replaces the token only for a caller holding the present one |
| NodePairing.OutcomeMatchesAgent | backend/node_pairing_cancellation.py:75-171 | paired, withdrawn and discarded are each true of the Agent, nothing in flight can be accepted, and until then its token is in the journal, with racing and fenced retries and cancellations |
| NodePairing.OutcomeIsFinal | backend/node_pairing.py:203-231 | an attempt is decided once and the Agent's token does not move afterwards |
| NodePairing.OneRetryPairs | backend/node_pairing.py:225-275 | one undisturbed retry pairs from any reachable open attempt that is not being cancelled |
| NodePairing.OneCancelDiscards | backend/node_pairing_cancellation.py:75-171 | one undisturbed cancellation discards any reachable attempt past the rotation boundary |
| NodePairing.OpenAttemptEnds | backend/node_pairing_cancellation.py:81-119 | every reachable undecided attempt can be retried unless it is being cancelled, withdrawn exactly before the rotation boundary, and cancelled exactly after it |
| NodePairing.FindCredential | backend/node_pairing_cancellation.py:121-137 | the loop uses an older credential only after a proven 401 of every newer one |
| NodePairing.PairingJournal.StartRetry | backend/node_pairing.py:225-238 | takes the next operation number unless the attempt is being cancelled |
| NodePairing.PairingJournal.Finish | backend/node_pairing.py:203-224 | registers the candidate if and only if the operation is current and not a cancellation |
| NodePairing.PairingJournal.Cancel | backend/node_pairing_cancellation.py:81-119 | withdraws at once before the rotation boundary, otherwise saves a disposal token and fences the retries |
| NodePairing.PairingJournal.FinishCancel | backend/node_pairing_cancellation.py:56-65 | discards if and only if the cancellation is still current |
| Metering.Conservation | backend/manager.py:693-736 | over all runs with crashes the ledger stays within the samples and these within what the core counted, event numbers differ, and without a cut reset ledger plus uncharged delta equals the samples |
| Metering.EverythingCharged | backend/manager.py:693-736 | from any reachable state of a live client with no cut reset and no restart so far, one sample and one charge bring the ledger up to all bytes the core counted |
| Metering.DeletionChargesFinalBytes | backend/manager.py:741-762 | once the policy row is gone the tombstone is in the baseline, and without a cut reset every sampled byte is in the ledger |
| Metering.DeletedIsFinal | backend/manager.py:750-758 | after that the ledger never changes |
| Metering.DeletionRetryFinishes | backend/manager.py:749-758 | from any state with the core row gone one retry charges the final bytes |
| Metering.ChargeAddsGrowth | backend/manager.py:693-735 | a charge adds exactly the growth since the baseline and moves the baseline there |
| Metering.ChargeOnce | backend/manager.py:693-735 | charging the same record again changes nothing |
| Metering.CutBeforeCharge | backend/manager.py:763-773 | a reset cut before its charge: in each direction the next charge brings the ledger up to the samples if and only if the row was zero, or all charged with the new row still below the old baseline |
| Metering.CutAfterCharge | backend/manager.py:770-773 | a reset cut after its charge: if and only if the baseline is zero or the new row still below it |
| Metering.LossIsPermanent | backend/manager.py:693-736 | what such a cut lost no later sample, charge, reset or deletion makes up for |
| Metering.CutResetLosesBytes | backend/manager.py:700-701 | a run in which a fully charged client's cut reset loses the next bytes |
| Metering.CoreEngine.CollectStats | backend/core.py:1160-1184 | the loop adds each reported client's growth since the last sample to its row in one transaction; an unreadable query or a stopped core leaves rows and sample memory as they were |
| Metering.CoreEngine.Reset | backend/core.py:899-908 | samples all rows, hands out and zeroes one, keeping every other row and the sample memory |
| Metering.CoreEngine.Delete | backend/core.py:865-885 | samples all rows and moves one, as sampled, to its tombstone, also when the sample fails |
| Metering.EngineFollowsMeter | backend/core.py:865-908 | for each client, sample, reset and deletion of the engine that holds all clients are the steps of its own meter |
| Metering.EngineConserves | backend/core.py:865-908 | conservation over any sequence of use, readable and unreadable queries, process starts and deaths, resets and deletions of any client, charges and crashes |
| Metering.UnreadableQuery | backend/core.py:1160-1184 | a stopped core or an unreadable query leaves rows and sample memory alone, leaves a reset undone, and lets a deletion go ahead with the row as it was |
| Metering.ChargeFollowsMeter | backend/manager.py:693-736 | a charge is its own meter's charge and touches no other account |
| Metering.Manager.ChargeSnapshot | backend/manager.py:693-736 | no policy, overflow, unchanged and changed records; ledger and baseline advance together |
| ResellerCredit.NeverOversold | backend/dark_policy.py:317-471 | over any operations by any actors every reseller's client quotas stay within its volume credit |
| ResellerCredit.CreditIsGranted | backend/dark_policy.py:509-536 | over any operations an owner's credit moves exactly by the recorded adjustments, each once, unless its own row is registered anew |
| ResellerCredit.AdjustExactly | backend/dark_policy.py:509-536 | when an adjustment takes effect, when it is a repetition, and that it moves volume and units by just its amounts |
| ResellerCredit.OwnerExactly | backend/dark_policy.py:333-373 | when an owner row is accepted and what it then holds |
| ResellerCredit.ClientExactly | backend/dark_policy.py:383-411 | when a client is created: the owner's quotas after it stay within the credit, and only the price is charged beside it |
| ResellerCredit.EditExactly | backend/dark_policy.py:413-444 | when an edit succeeds in terms of the quotas after it, what it charges for, and that what it does not name stays |
| ResellerCredit.BulkIsOneByOne | backend/dark_policy.py:446-462 | a bulk edit is its accepted rows as single succeeding edits; rejected rows leave no trace |
| ResellerCredit.ErrorsAreRejections | backend/dark_policy.py:450-462 | with distinct ids an error is reported for exactly the rows not applied |
| ResellerCredit.ErrorsExactly | backend/dark_policy.py:450-462 | for every id, an edit is applied exactly when the first row succeeds, and an error is reported exactly when the id occurs unless its only row is applied |
| ResellerCredit.DuplicateReportsAppliedRow | backend/dark_policy.py:453-461 | an error is reported for an applied id if and only if its first row succeeded and it occurs again |
| ResellerCredit.DuplicateExample | backend/dark_policy.py:453-461 | a request for which it happens |
| ResellerCredit.AdjustOnce | backend/dark_policy.py:509-536 | an adjustment that took effect is a repetition for ever after |
| ResellerCredit.Store.Edit | backend/dark_policy.py:413-444 | a refused edit leaves nothing behind, even what was written before the refusal |
| ResellerCredit.Store.EditMany | backend/dark_policy.py:446-462 | the loop under one outer transaction computes the bulk edit |
| ResellerCredit.Store.Allocation | backend/dark_policy.py:317-326 | the loop computes the sum of an owner's quotas, one client left out if asked |
| ResellerCredit.Store.RollBack | backend/dark_policy.py:299-311 | a savepoint goes back to the state it was opened in |
| ResellerCredit.Store.EnrolOwner | backend/dark_policy.py:333-373 | the transaction computes the registration whose exact condition is `OwnerExactly`, or leaves nothing |
| ResellerCredit.Store.EnrolClient | backend/dark_policy.py:383-411 | a client is created only within the remaining credit, and a denied charge leaves nothing |
| ResellerCredit.Store.AdjustCredit | backend/dark_policy.py:509-536 | the transaction computes the adjustment whose exact condition is `AdjustExactly`, or leaves nothing |
| SlidingWindow.WindowLimit | backend/dark_policy.py:640-669 | from any table, decisions made from now on allow at most the limit of distinct addresses in every window, also after the limit was lowered |
| SlidingWindow.RoomMeansAllowed | backend/dark_policy.py:640-669 | the converse: from empty tables, while fewer addresses than the limit were allowed in the last window, any next address is allowed unless banned |
| SlidingWindow.AnswerExactly | backend/dark_policy.py:623-655 | when an address is banned, allowed, or a violation, in terms of the leases and their order |
| SlidingWindow.EffectExactly | backend/dark_policy.py:655-669 | the row kept under its first sighting, the length of the ban, and which rows are pruned |
| SlidingWindow.RenewingAddressIsNeverDisplaced | backend/dark_policy.py:640-669 | an address allowed less than a window ago is never judged a violation |
| SlidingWindow.ActiveSize | backend/dark_policy.py:640-655 | the query's active set is within the limit and is all leases while there is room |
| SlidingWindow.RankCount | backend/dark_policy.py:640-655 | exactly k members of a set have fewer than k ahead of them in the query's order |
| SlidingWindow.Guard.ObserveSource | backend/dark_policy.py:623-669 | one observation: active ban, upsert, decision, ban and pruning in the source's order |
| Firewall.NeverProtected | backend/guardd.py:163-228 | over all runs of dispatches, repetitions, expiries and failed commands, once the broker is ready no live element is on a protected port or outlives the longest ban, and no protected port is approved |
| Firewall.StepMirrorsExactly | backend/guardd.py:163-228 | one dispatch keeps the mirror if and only if it neither lost an add nor misread a live element |
| Firewall.FaultBreaksMirror | backend/guardd.py:189-228 | a lost add or a misread always leaves a live element without a lease |
| Firewall.MirrorBetweenFaults | backend/guardd.py:163-228 | between faults the mirror stands through expiry, repeated bans, refused commands and aborted calls |
| Firewall.MirrorHeals | backend/guardd.py:217-228 | after any fault the mirror is whole again once the longest ban has passed |
| Firewall.EmptyingRestores | backend/guardd.py:107-124 | a successful clear or bootstrap restores the mirror from any state |
| Firewall.UnbanExactly | backend/guardd.py:197-211 | after a successful unban, from any state, an element of the address is live exactly when it was misread or never on an approved port |
| Firewall.SetPortsExactly | backend/guardd.py:182-196 | after a successful change of ports, from any state, all live elements are on approved ports if and only if every live one outside them was leased, on a removed port and not misread |
| Firewall.BanExtendsNothing | backend/guardd.py:219-227 | a ban leaves the expiry of live elements alone and newly blocks only its own address on its own ports for its own time |
| Firewall.BanAccepted | backend/guardd.py:212-228 | exactly when a ban is accepted |
| Firewall.BanBlocks | backend/guardd.py:219-227 | after an accepted ban every asked element without a lease is leased and live in the kernel set for the time asked, and nothing else changes |
| Firewall.BanLasts | backend/guardd.py:163-228 | over runs a live element stays live to its expiry through every call that does not give it up |
| Firewall.UnbanSucceeds | backend/guardd.py:197-211 | an unban succeeds exactly when no release raises and the table can be listed, and drops exactly the leases of the address on approved ports |
| Firewall.SetPortsSucceeds | backend/guardd.py:182-196 | new ports are taken exactly when they may be set and no release of a lease on a removed port raises |
| Firewall.LostBanOutlivesItsPort | backend/guardd.py:189-195 | a lost add whose element stays live on a removed port |
| Firewall.WalkReleases | backend/guardd.py:189-209 | releasing elements one after the other, up to the first that raises, leaves exactly the misread ones live |
| Firewall.NftFirewall.Bootstrap | backend/guardd.py:107-124 | an empty table, empty leases and readiness, or what a refused or lost command leaves |
| Firewall.NftFirewall.Status | backend/guardd.py:148-161 | purges expired leases if the table can be listed |
| Firewall.NftFirewall.Clear | backend/guardd.py:178-181 | kernel set and lease map are emptied together |
| Firewall.NftFirewall.Ban | backend/guardd.py:212-228 | approval, purge, capacity, the elements without a lease, and the command's outcome |
| Firewall.NftFirewall.Unban | backend/guardd.py:197-211 | walks the approved ports, then looks at the table |
| Firewall.NftFirewall.SetPorts | backend/guardd.py:182-196 | walks the leases of removed ports, then replaces the ports |
| ResetSchedule.NextIntervalIsUnique | backend/manager.py:862-871 | the next interval deadline is the one grid point after now within one period |
| ResetSchedule.OneResetPerPeriod | backend/manager.py:825-871 | however late and often an interval schedule is visited, with busy clients and caps, no grid period gets two resets |
| ResetSchedule.OneResetPerMonth | backend/manager.py:825-871 | a monthly client is reset at most once between two reset days |
| ResetSchedule.CapRespected | backend/manager.py:856-859 | no more resets are asked for than the cap leaves |
| ResetSchedule.PassedDeadlineFires | backend/manager.py:852-860 | a pass that finds an uncapped idle client after its deadline asks for a reset unless one before it did |
| ResetSchedule.PassExactly | backend/manager.py:815-860 | the first deadline of every mode in seconds, when a row is kept, and when a reset is asked for |
| ResetSchedule.ResetDay | backend/manager.py:806-810 | midnight of the wanted day of the month, or of the nearest day the month has |
| ResetSchedule.MonthlyNextAt | backend/manager.py:802-813 | the search returns within two rounds, its failure branch is unreachable |
| ResetSchedule.MonthlyNextIsEarliest | backend/manager.py:802-813 | the monthly deadline is the earliest clamped-day midnight after now |
| ResetSchedule.YearStartIsGregorian | backend/manager.py:806-809 | the month table agrees with the Gregorian day count |
| ResetSchedule.CompletedIsNotDue | backend/manager.py:862-871 | after completion the same period cannot ask again |
| ResetSchedule.Scheduler.ScheduleCycles | backend/manager.py:825-860 | the loop over clients resets changed schedules, keeps others, asks exactly of the due ones, and rolls back on an impossible schedule |
| ResetSchedule.Scheduler.CompleteCycle | backend/manager.py:862-871 | moves a passed deadline on and leaves any other alone |

## Left out

- RelayCompiler.RelayedTraffic: the compiler's guarantees about its inputs (distinct inbound tags, tunnel port different from the direct port, exactly one of outbound and balancer) are preconditions; the section validation that gives them is not modelled.
- RelayCompiler.OtherTraffic: states decisions made by a rule; the default outbound when no rule matches is outside.
- NodeRecovery.RecoveryAgrees: requests of the lost Hub history are assumed to lie below the recovery numbers, as the recovery itself must; see `LostStartAboveUndoes`.
- LeaseGuard.Guard.Notify: the span of a keepalive counts from the clock reading, not from the later send; the second of margin is what covers the difference.
- Metering.Conservation: samples of one client; the loop over clients is in `CoreEngine` and `Manager`, and remote Node counters that widen the displayed usage are only a refusal input. SQLite integer overflow of a row is not modelled.
- ResellerCredit.NeverOversold: the login role of an owner is fixed during a run; the user-month quote of unlimited time is a step that debits or refuses.
- ResellerCredit.Store.EditMany: an error other than a policy refusal, which undoes the whole bulk edit, is not modelled.
- SlidingWindow.WindowLimit: one node, verified direct sources, a clock that does not go back, no clearing of observations.
- Firewall.NftFirewall.Ban: time stands still inside one dispatch, and command text, address syntax and exemptions are left to nft and the address library.
- ResetSchedule.MonthlyNextAt: UTC only; a zone with daylight saving is not modelled.
- NodePairing.OutcomeMatchesAgent: the pinned installation identity and the health checks of a fresh Agent only add refusals and appear as steps that may not happen.
- CredentialHandoff.NeverLockedOut: handoffs to a token from which an older rotate, still under way, starts are outside it; `LockOutExactly` says what they can do. Manual edits of the stored token are outside as well.
- CredentialHandoff.LockOutExactly: the Agent's freshness check, which refuses a delayed pairing rotate once the Node has any configuration or command, is a delivery that does not happen.
- DesiredState.FailureRestores: the broker's port allow-list, managed TLS files and validation of the envelope are steps that succeed or fail.
- grant_stopped_replacement_lease and the replacement prepare, resolve, deploy and activate modules repeat the journal and hold patterns with more field checks.
- HTTP routing, TLS, sockets, subprocess handling, systemd and file permissions are atomic steps that succeed, fail or get lost; encryption, passwords and sessions are not modelled.
- Subscription rendering, dashboards, backups, Telegram, licensing, probes and GRE are formatting, I/O or single checks.
