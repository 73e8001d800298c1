# cdenv, modelled and proved in Dafny

cdenv creates development-container workspaces. This project models the parts of it that must stay
right across crashes, concurrency and hostile surroundings, together with the algorithms they rest
on, and proves what each part promises over every run or every input.

`dafny verify dfyconfig.toml` checks all of it.

| part | files |
|---|---|
| Lifecycle runner: staged commands, a lock, a durable checkpoint, crashes and cancellation | `Lifecycle`, `LifecycleRunner` |
| Credential permission store: a staged or bound record and a receipt, two writes, replacement in between | `CredentialGrants`, `Permissions`, `PermissionStore` |
| Host credential broker and container bridge, joined by two wires, with a changing policy | `LivePolicy`, `FrameLane`, `HostBroker`, `AgentBridge`, `BrokerSystem`, `BrokerAuthority`, `BrokerAgents`, `BrokerRouting`, `BrokerOpens`, `BrokerRefusals`, `BrokerContents`, `BrokerService`, `BrokerExchange`, `Sums` |
| Compose rebuild and Compose resume/stop against an arbitrary world | `Grouping`, `ComposeRebuild`, `ComposeLifecycle`, `ComposeStop` |
| Calendar and timestamps | `Calendar`, `Decimal`, `Timestamp` |
| Environment snapshots | `Bytes`, `SnapshotFormat`, `SnapshotCodec` |
| Static ELF check | `StaticElf` |
| Account renumbering | `DelimitedText`, `AccountRows`, `AccountUpdate` |
| Feature package work list | `FeatureWorklist` |

Each state machine is a `World` with a step relation; a run is any finite sequence of steps from the
start, and theorems quantify over all runs and all positions in them. For the lifecycle runner and
the permission store the code itself is also modelled, as a class whose methods carry a ghost trace
and prove that each of their writes is such a step. Where code asks an outside service (Docker,
Compose, a resolver, the clock of a cancellation), the answers are parameters, so a result holds for
every answer; the calls made are returned and constrained.

## What the proofs found

Properties one might expect that do not hold, each with an input and its exact condition:

- An inspection reads the checkpoint and then tries the lock. A run that ends in between is reported as
  indeterminate with no runner active while it is complete on disk (`Lifecycle.ReportCanBeStale`). The
  verdict is final exactly when the checkpoint at the lock attempt still gives it
  (`Lifecycle.VerdictIsFinalExactlyWhenCurrent`), in particular whenever the checkpoint read was not
  `Running` (`Lifecycle.SettledReadIsFinal`).
- An inspection holds the runner's lock for a moment, so another one may report an active runner when there
  is none (`Lifecycle.IdleReportedActive`), exactly when only an inspection holds the lock; "not active" is
  always right (`Lifecycle.ActiveIsRightUnlessContended`).
- A repeated stop with nothing changed need not report "already stopped": a listing does not look at the
  profile label and verification does (`ComposeStop.RepeatedStopCanFail`). It does so exactly when every
  service whose container differs from the one verified before the stop verifies (`ComposeStop.StopTwice`).
- Interrupting an account update between its two file replacements cannot be repaired by repeating the
  request exactly when the GID was to change (`AccountUpdate.RetryAfterHalfAnUpdate`,
  `AccountUpdate.HalfAnUpdateStays`). A failure in the home directory is not made good by repeating it
  (`AccountUpdate.HomeIsNotRepaired`), except exactly when the entries not reached had nothing to change
  (`AccountUpdate.AccountFiles.UpdateTwice`).
- A rewritten account or group line that ended in an extra carriage return loses it
  (`AccountUpdate.ExtraReturnIsLost`); `AccountUpdate.OtherRowsAreKept` says exactly when a row is unchanged.
- The agent that answers a relayed packet is the one selected when the supervisor started, so it is the
  selected agent exactly while the selector is the first one (`BrokerAuthority.AnswersComeFromTheFirstAgent`,
  `BrokerAgents.AnotherAgentCanAnswer`).
- A relay puts a packet to the agent without looking at the policy again, so the agent may be asked after a
  revocation (`BrokerAgents.RevokedAgentIsAsked`). It is asked under authority exactly when no revocation
  stands since the relay was started, and what it answers otherwise is never written
  (`BrokerAuthority.AskedUnderAuthorityExactlyUnlessRevoked`).
- A rebuild's evidence says that a look at the services failed, except exactly when it is the first look:
  that is reported as a look that found every service missing (`ComposeRebuild.Rebuild`).

And two that hold without the condition one might put on them:

- `decode_embedded` recovers a frame after every noise, also noise that contains the magic or whole
  frames (`SnapshotFormat.FrameAfterEveryNoise`).
- All timestamps `current_timestamp` produces sort by time: a year of five digits is refused
  (`Timestamp.KeptTimestampsSortByTime`).

Agent packets carry no request identifiers. That an answer still belongs to the packet its connection waits
for follows from there being at most one of either between the two sockets
(`BrokerExchange.AnswersMatchTheirPackets`).

The host broker would silently detach a stream on a duplicate open; that it never reads one follows from
the bridge's fresh identifiers (`BrokerOpens.OpensAreNeverDuplicated`) and is not checked by the host.

## Model

| member | source | states |
|---|---|---|
| `Lifecycle.RunsAreOrderedOnce` | crates/cdenv-agent/src/lifecycle.rs:286-385 | In every state of every sequence of runs, crashes and cancel requests, each command group has started at most once, starts follow plan order, and each start comes after the success of every earlier group. |
| `Lifecycle.CompleteMeansEverythingRan` | crates/cdenv-agent/src/lifecycle.rs:286-385 | A `Complete` checkpoint on disk means every group of the plan started and succeeded, and no group failed. |
| `Lifecycle.RunsAreMonotone` | crates/cdenv-agent/src/lifecycle.rs:294-316 | The history of started commands only grows, the first plan stays the plan, and a terminal checkpoint is never left, changed or followed by another start. |
| `Lifecycle.IdleInspectionForetells` | crates/cdenv-agent/src/lifecycle.rs:434-446 | A terminal phase the checkpoint gives at a moment when no runner is active, including the verdict on an abandoned `Running` checkpoint, is the phase every later moment gives, and nothing more starts. |
| `Lifecycle.VerdictIsFinalExactlyWhenCurrent` | crates/cdenv-agent/src/lifecycle.rs:420-447 | Inspection as two reads, the checkpoint and later the lock: a terminal verdict with the lock free is final in every continuation exactly when the checkpoint at the lock attempt still gives it. |
| `Lifecycle.SettledReadIsFinal` | crates/cdenv-agent/src/lifecycle.rs:425-446 | A checkpoint that was already terminal when read gives a final verdict. |
| `Lifecycle.ReportCanBeStale` | crates/cdenv-agent/src/lifecycle.rs:425-442 | A run of every one-command plan in which the report is indeterminate, with no runner active, while the disk is complete. |
| `Lifecycle.ActiveIsRightUnlessContended` | crates/cdenv-agent/src/lifecycle.rs:429-433 | A report that no runner is active is always right; one that a runner is active is right exactly unless only another inspection held the lock. |
| `Lifecycle.IdleReportedActive` | crates/cdenv-agent/src/lifecycle.rs:429-433 | A finished run that an inspection reports as active because another inspection holds the lock. |
| `Lifecycle.CancelStopsNewGroups` | crates/cdenv-agent/src/lifecycle.rs:322-332 | While a cancel request stands, at most one group starts, and only one for which the runner had already looked for the request. |
| `Lifecycle.RunKeepsInv` | crates/cdenv-agent/src/lifecycle.rs:286-385 | The checkpoint position and the real history agree at every step: the groups before the position succeeded, in order, and at most the current one is open. |
| `Lifecycle.StagesStartInOrder` | crates/cdenv-agent/src/lifecycle.rs:317-385 | In every run of a plan in stage order, of any two started groups the earlier is of the same or an earlier stage of onCreate, updateContent, postCreate, postStart, postAttach, and within one stage of an earlier command. |
| `Lifecycle.OnceOnlyStagesAreNeverAssumed` | crates/cdenv-agent/src/lifecycle.rs:286-385 | In every run each checkpoint phase agrees with the history and the stage: a group that may or may not have run is indeterminate exactly in onCreate, updateContent and postCreate, failed or cancelled in the other two, and a message is kept exactly for a reported failure. |
| `Lifecycle.RecordedByStage` | crates/cdenv-agent/src/lifecycle.rs:300-371 | How an abandoned group and each ending of a command are recorded, by stage. |
| `Lifecycle.ReportByStage` | crates/cdenv-agent/src/lifecycle.rs:420-447 | A report is refused exactly without a state or for another plan; otherwise it shows the checkpoint read, with an abandoned group indeterminate exactly in a once-only stage and failed in any other. |
| `LifecycleRunner.ValidateStages` | crates/cdenv-agent/src/lifecycle.rs:529-564 | A plan is accepted exactly when its stages are a subsequence of onCreate, updateContent, postCreate, postStart, postAttach, in that order. |
| `LifecycleRunner.RanksIncreaseInOrder` | crates/cdenv-agent/src/lifecycle.rs:557-573 | Stage ranks increase exactly for such a subsequence. |
| `LifecycleRunner.StateDirectory.constructor` | crates/cdenv-agent/src/lifecycle.rs:605-624 | A new state directory is the initial world with a trace of one state. |
| `LifecycleRunner.StateDirectory.Cancel` | crates/cdenv-agent/src/lifecycle.rs:460 | Writing the cancel file is a step at any time that changes nothing else. |
| `LifecycleRunner.StateDirectory.Store` | crates/cdenv-agent/src/lifecycle.rs:724-769 | A checkpoint write either happens or does not, and the runner may stop after it; on return the trace is still a run. |
| `LifecycleRunner.StateDirectory.Execute` | crates/cdenv-agent/src/lifecycle.rs:790-850 | A command group is logged as started before its outcome is known and as ended once it is; the trace stays a run. |
| `LifecycleRunner.StateDirectory.Open` | crates/cdenv-agent/src/lifecycle.rs:294-316 | Loading or creating the checkpoint, refusing another plan and settling an abandoned `Running` phase are steps of a run and report the matching error. |
| `LifecycleRunner.StateDirectory.MayStart` | crates/cdenv-agent/src/lifecycle.rs:325-330 | The look for the cancel file: a request found is recorded as `Cancelled`, and one may still appear after the look. |
| `LifecycleRunner.StateDirectory.RunGroup` | crates/cdenv-agent/src/lifecycle.rs:324-373 | One group: the look for the cancel file, the running checkpoint, the command and the recorded outcome, each a step; success moves to the next command. |
| `LifecycleRunner.StateDirectory.Conclude` | crates/cdenv-agent/src/lifecycle.rs:333-371 | The command and the checkpoint recording how it ended, with the answer that checkpoint calls for. |
| `LifecycleRunner.StateDirectory.RunStage` | crates/cdenv-agent/src/lifecycle.rs:324-373 | The inner loop runs the remaining groups of a stage by steps and stops exactly as a group stops it. |
| `LifecycleRunner.StateDirectory.Finish` | crates/cdenv-agent/src/lifecycle.rs:379-384 | The final checkpoint is `Complete`, and the spent cancel file may be removed after it. |
| `LifecycleRunner.StateDirectory.RunStages` | crates/cdenv-agent/src/lifecycle.rs:317-385 | The nested loops keep the trace a run, the state returned is the state on disk, and undisturbed they end `Complete`. |
| `LifecycleRunner.StateDirectory.Run` | crates/cdenv-agent/src/lifecycle.rs:286-385 | `run_lifecycle` extends the trace by steps only; a plan is refused exactly when its stages are not in the order of a container's life; each other refusal occurs exactly under its condition and changes nothing; an abandoned group is answered as indeterminate exactly in a once-only stage; every other answer agrees with the checkpoint left; a generation already finished gets no further start; undisturbed, a resumable generation is completed. |
| `Permissions.AuthorityNeverTransfers` | crates/cdenv-cli/src/credentials.rs:624-773 | Over every run, grants bound to one workspace directory are leased to another directory only if every capability was disabled in between, whatever the two directories look like. |
| `Permissions.BindingLastsUntilEmptied` | crates/cdenv-cli/src/credentials.rs:539-591 | A binding stays exactly as it is until the grants become empty. |
| `Permissions.StagedGrantsNeedExplicitName` | crates/cdenv-cli/src/credentials.rs:677-708 | Staged grants are bound only to a workspace created under an explicit name. |
| `Permissions.RevisionsIdentifyRecords` | crates/cdenv-cli/src/credentials.rs:652-665 | Revisions never fall, stay within 64 bits, and two persisted records with equal revision are identical. |
| `Permissions.ReportedBoundIsLeasable` | crates/cdenv-cli/src/credentials.rs:297-352 | In every reachable state the permission is reported as bound exactly when a lease would be handed out. |
| `Permissions.RunKeepsInv` | crates/cdenv-cli/src/credentials.rs:497-773 | At every step a stored receipt names the current directory, bound records carry an issued receipt and non-empty grants. |
| `Permissions.CommandMeans` | crates/cdenv-cli/src/credentials.rs:527-622 | Each granting command, field by field of the grants: enable adds exactly the capabilities and the origins given or hinted, allow and deny add and remove exactly their origins, nothing else changes; each refusal occurs exactly for its reason. |
| `Permissions.RevocationMeans` | crates/cdenv-core/src/credentials.rs:384-392 | Disabling clears exactly the listed capabilities, or all when none is listed. |
| `Permissions.BindingRefusalMeans` | crates/cdenv-cli/src/credentials.rs:624-650 | A granting change is refused as misbound, or for want of an explicit name, exactly under those conditions on the record, the directory and the receipt. |
| `Permissions.LeaseCarriesTheRecord` | crates/cdenv-cli/src/credentials.rs:715-743 | A lease is handed out exactly for non-empty grants bound to this very directory, and carries the revision and grants of the record and the nonce of its receipt. |
| `Permissions.ReportMeans` | crates/cdenv-cli/src/credentials.rs:297-352 | Each reported permission state holds exactly for what record, receipt and directory say. |
| `Permissions.MatchesItsDirectory` | crates/cdenv-cli/src/credentials.rs:69-91 | A receipt matches exactly the directory whose creation time, source digest, device and inode it holds. |
| `PermissionStore.DisableAllOnlyRevokes` | crates/cdenv-core/src/credentials.rs:384-392 | Disabling a list of capabilities removes exactly those and leaves every other as it was. |
| `PermissionStore.RevokedOnlyRevokes` | crates/cdenv-cli/src/credentials.rs:539-560 | Disabling never turns empty grants into non-empty ones. |
| `PermissionStore.Store.EnsureReceipt` | crates/cdenv-cli/src/credentials.rs:745-773 | A receipt already there is kept and always matches the current directory; a missing one is written with a new nonce as one step; without a storage failure it succeeds. |
| `PermissionStore.Store.Attach` | crates/cdenv-cli/src/credentials.rs:560-591 | The receipt returned names the directory seen at the start, even when the directory is replaced right after the write. |
| `PermissionStore.Store.PersistChange` | crates/cdenv-cli/src/credentials.rs:652-665 | An unchanged record is not rewritten, a changed one gets the next revision as one step; without a storage failure it is refused exactly at the largest revision. |
| `PermissionStore.Store.Disable` | crates/cdenv-cli/src/credentials.rs:497-591 | Needs no workspace, clears exactly the listed capabilities or all of them, unbinds emptied grants, and fails only on storage or at the largest revision. |
| `PermissionStore.Store.Grant` | crates/cdenv-cli/src/credentials.rs:497-622 | Enabling, allowing and denying write the receipt first and the record second, with replacement or a crash possible in between. The new grants are, field by field, the old ones with what the command names added or removed, and the binding names the directory seen at the start. Each refusal is reported exactly for its reason and changes nothing; on any other failure the record is the old one or holds exactly the grants asked for. |
| `PermissionStore.Store.WriteBound` | crates/cdenv-cli/src/credentials.rs:574-585 | For a workspace: a record bound to it already is only changed, otherwise the receipt is written first and the record second. |
| `PermissionStore.Store.WriteStaged` | crates/cdenv-cli/src/credentials.rs:581-585 | Without a workspace: the record is staged and written once. |
| `PermissionStore.Store.BindCreated` | crates/cdenv-cli/src/credentials.rs:677-708 | Nothing happens without grants, an automatic name is refused unchanged, and otherwise the staged grants are bound to this directory. |
| `LivePolicy.EqualEpochsPinScope` | crates/cdenv-cli/src/forwarding.rs:661-689 | Equal epochs at two moments mean the capability had the same scope at every moment in between, not even changed there and back. |
| `LivePolicy.ChangedScopeMovesEpoch` | crates/cdenv-cli/src/forwarding.rs:661-746 | A policy change moves the epoch of a capability exactly when it changes that capability. |
| `LivePolicy.ReconcileMeans` | crates/cdenv-cli/src/forwarding.rs:661-689 | A reconciliation is accepted exactly for valid grants under a later revision, or the same grants under the same one; it then holds them, and moves exactly the epochs of what changed. |
| `LivePolicy.OperationsByGrant` | crates/cdenv-cli/src/forwarding.rs:717-746 | A lookup, an open and an identity request are authorized exactly by the HTTPS, agent and identity grant, and each scope is that grant. |
| `BrokerAuthority.NoResultOutlivesAChange` | crates/cdenv-cli/src/credential_broker.rs:128-144 | In every run of both ends, for every credential result, identity result or agent packet the host writes, the HTTPS, identity or agent grant was present and the same at every moment from dispatch to write, and its epoch did not move. |
| `BrokerAuthority.CredentialsStayInsideThePolicy` | crates/cdenv-cli/src/forwarding.rs:748-782 | In every run every written credential is for an origin the policy allows at its release and at every moment since its dispatch. |
| `BrokerAuthority.AnswersComeFromTheFirstAgent` | crates/cdenv-cli/src/forwarding.rs:633-637 | In every run every written agent packet was answered by the agent the first policy selected, which is the selected one exactly while the selector is unchanged from the first. |
| `BrokerAgents.AnotherAgentCanAnswer` | crates/cdenv-cli/src/forwarding.rs:784-794 | A reachable state in which the host wrote an answer of the first agent under a policy that selects another. |
| `BrokerAuthority.OnlyAuthorizedWorkIsStarted` | crates/cdenv-cli/src/credential_broker.rs:149-206 | In every run the policy in force when it was started had the HTTPS grant for every helper, the agent grant for every relay and the identity grant for every identity request. |
| `BrokerAuthority.AskedUnderAuthorityExactlyUnlessRevoked` | crates/cdenv-cli/src/credential_broker.rs:262-321 | In every run the agent is asked through a relay started with the agent grant, and asked with that grant in force exactly when no revocation stands since then; the answer to a packet asked without it is never written. |
| `BrokerAgents.RevokedAgentIsAsked` | crates/cdenv-cli/src/credential_broker.rs:273-283 | A reachable state in which the agent was asked under a policy with no grant at all. |
| `BrokerAuthority.ReleaseIsCovered` | crates/cdenv-cli/src/credential_broker.rs:128-144 | The check at the write step alone turns a queued frame into one covered by its grant or a denial without contents. |
| `BrokerRouting.OnlyTheAskerIsAnswered` | crates/cdenv-cli/src/credential_broker.rs:200-203 | In every run stream identifiers are never reused, never 0 or 1 and fit 32 bits; every frame in a relay's inbox and every packet it asks was sent by the connection that opened it; and everything delivered to a local socket answers a frame of that very connection, even after other streams close. |
| `BrokerRouting.RunKeepsRouting` | crates/cdenv-agent/src/credential_bridge.rs:324-511 | Every frame in a queue, on a wire or in an inbox carries the identifier of the connection it is about, and every relay's input leads to the relay of that stream. |
| `BrokerExchange.AnswersMatchTheirPackets` | crates/cdenv-agent/src/credential_bridge.rs:443-511 | In every run at most one packet or answer of a connection is anywhere between its socket and the agent, none before its first packet or between two, and a delivered answer was the only one; so it answers the packet the connection waits for. |
| `BrokerOpens.OpensAreNeverDuplicated` | crates/cdenv-cli/src/credential_broker.rs:175-199 | In every run an open the host reads names a stream it has never served, so no registered sender is overwritten. |
| `BrokerRefusals.RequestsAreRefusedExactly` | crates/cdenv-cli/src/credential_broker.rs:149-206 | In every run a lookup is refused exactly without the HTTPS grant, started exactly with it and fewer than four helpers, and ends the broker exactly otherwise; an open is started exactly with the agent grant, an agent connected to and fewer than 32 relays, and refused otherwise; an identity request is refused exactly without the identity grant. |
| `BrokerRefusals.PermitsCountTasks` | crates/cdenv-cli/src/credential_broker.rs:116-119 | The helper and relay permits count the helpers among 4 and the relays among 32. |
| `BrokerRefusals.LookupsAreRefusedExactly` | crates/cdenv-cli/src/credential_broker.rs:149-174 | One lookup: refused, started with the body read, or the end of the broker, exactly when. |
| `BrokerRefusals.OpensAreRefusedExactly` | crates/cdenv-cli/src/credential_broker.rs:175-199 | One open: started with the agent chosen first, or refused, exactly when. |
| `BrokerRefusals.IdentityIsRefusedExactly` | crates/cdenv-cli/src/credential_broker.rs:204-221 | One identity request: refused exactly without its grant, otherwise awaited for its stream. |
| `BrokerRefusals.StreamFramesAreRouted` | crates/cdenv-cli/src/credential_broker.rs:200-203 | A frame of a stream joins the inbox of the relay serving it and changes nothing else; it waits exactly while eight frames are there, and ends the broker when no relay serves the stream. |
| `BrokerRefusals.OtherFramesAreHandled` | crates/cdenv-cli/src/credential_broker.rs:222-228 | A health request is acknowledged on stream 0; a stop, or a kind only the host may send, ends the broker. |
| `BrokerRefusals.LookupsAreAnsweredExactly` | crates/cdenv-cli/src/credential_broker.rs:156-172 | A lookup is answered with the credential found exactly while the HTTPS grant stands and it fits a frame, and with an empty error exactly when nothing was found or the grant is gone. |
| `BrokerRefusals.IdentityIsAnsweredExactly` | crates/cdenv-cli/src/credential_broker.rs:204-221 | The same for an identity request; an answer too long ends the broker. |
| `BrokerRefusals.RelaysLeave` | crates/cdenv-cli/src/credential_broker.rs:187-198 | A relay leaves at any time, silently or with an empty close on its own stream, and with nothing else. |
| `BrokerRefusals.DeniedExactlyWhenMoved` | crates/cdenv-cli/src/credential_broker.rs:128-144 | A queued frame is written as it is, or as a denial without contents exactly when its grant is gone or its epoch moved. |
| `BrokerRefusals.AnswersAreRouted` | crates/cdenv-agent/src/credential_bridge.rs:239-263 | On the other end an answer joins the inbox of the connection that owns its stream and changes nothing else; it waits exactly while eight are there, and ends the bridge when no connection owns the stream any more; a health request on stream 0 is acknowledged, anything else ends the bridge. |
| `BrokerRefusals.HandshakeIsExact` | crates/cdenv-agent/src/credential_bridge.rs:198-298 | The bridge goes on exactly after an identity result or an error on stream 1, and serves exactly after an acknowledgement on stream 0. |
| `BrokerRefusals.LeavingIsAnnounced` | crates/cdenv-agent/src/credential_bridge.rs:369-511 | A connection leaves silently or with an empty cancel or close on its own stream, and with nothing else. |
| `BrokerContents.DeliveredCredentialWasFound` | crates/cdenv-cli/src/credential_broker.rs:149-174 | In every run a credential delivered to a local socket is, byte for byte, one the backend returned earlier for a lookup of that very connection, for an origin the policy then allowed. |
| `BrokerContents.DeliveredPacketWasAnswered` | crates/cdenv-cli/src/credential_broker.rs:253-329 | In every run an agent packet delivered to a local socket is, byte for byte, one the agent answered earlier to a packet of that very connection. |
| `BrokerContents.AskedPacketWasSent` | crates/cdenv-agent/src/credential_bridge.rs:443-511 | In every run a packet put to the agent is, byte for byte, one its connection read from its socket. |
| `BrokerContents.LookupBodyWasSent` | crates/cdenv-agent/src/credential_bridge.rs:404-441 | In every run a lookup puts to the backend, byte for byte, what its connection read from its socket. |
| `BrokerContents.WrittenIdentityWasGiven` | crates/cdenv-cli/src/credential_broker.rs:204-221 | In every run an identity written is, byte for byte, what the identity backend gave. |
| `BrokerContents.EveryFrameFits` | crates/cdenv-core/src/credential_broker.rs:22-30 | In every run no frame on a wire, in a queue or in an inbox is longer than 64 KiB. |
| `BrokerContents.EverythingFitsItsSocket` | crates/cdenv-agent/src/credential_bridge.rs:404-511 | In every run what is delivered to a local socket is of the kind and within the length its protocol allows. |
| `BrokerService.LookupIsServed` | crates/cdenv-cli/src/credential_broker.rs:149-174 | For every policy, allowed origin, request and credential of at most 64 KiB there is a run in which that credential is delivered to the connection that asked. |
| `BrokerService.PacketIsServed` | crates/cdenv-cli/src/credential_broker.rs:175-199 | For every policy with an agent, and any valid packet and answer, there is a run in which the packet is put to that agent and the answer delivered to the connection. |
| `BrokerService.IdentityIsServed` | crates/cdenv-cli/src/credential_broker.rs:204-221 | For every policy that grants identity there is a run in which the identity is written and the bridge serves. |
| `AgentBridge.AcceptKeepsStreams` | crates/cdenv-agent/src/credential_bridge.rs:324-367 | Accepting a connection draws an identifier above all earlier ones; the bridge ends exactly when a connection is admitted after the counter wrapped. |
| `AgentBridge.RouteKeepsAdmission` | crates/cdenv-agent/src/credential_bridge.rs:239-263 | Routing a host frame, or stopping on an unknown stream, conserves permits and connections. |
| `AgentBridge.BridgeStepKeepsAdmission` | crates/cdenv-agent/src/credential_bridge.rs:369-511 | Every move of a local connection conserves its stream permit and the lane. |
| `HostBroker.DispatchKeepsAdmission` | crates/cdenv-cli/src/credential_broker.rs:145-229 | Dispatch takes a helper or relay permit exactly when it spawns a helper or relay. |
| `HostBroker.HostStepKeepsAdmission` | crates/cdenv-cli/src/credential_broker.rs:155-329 | A task returns its permit exactly when it ends. |
| `FrameLane.OfferConserves` | crates/cdenv-cli/src/credential_broker.rs:348-377 | A sender that has not acquired yet holds no bytes. |
| `FrameLane.AcquireConserves` | crates/cdenv-agent/src/credential_bridge.rs:554-578 | Acquiring takes exactly the length of the payload, or one byte for an empty one, and conserves the total. |
| `FrameLane.PushConserves` | crates/cdenv-cli/src/credential_broker.rs:356-377 | Entering the channel moves the held bytes with the frame and respects the frame bound. |
| `FrameLane.PopConserves` | crates/cdenv-cli/src/credential_broker.rs:128-144 | Leaving the channel returns exactly the bytes the frame took, and conserves the total. |
| `FrameLane.SendersWaitExactly` | crates/cdenv-cli/src/credential_broker.rs:356-377 | A sender waits exactly while too few bytes are free, and then exactly while 64 frames are queued. |
| `FrameLane.PacketsAreLengthPrefixed` | crates/cdenv-cli/src/credential_broker.rs:331-346 | A packet is valid exactly when it is its own length in four big-endian bytes and then that many bytes, at least one. |
| `BrokerSystem.RunKeepsAdmission` | crates/cdenv-cli/src/credential_broker.rs:116-235 | At every step of every run, on both ends, free permits plus permits held equal the fixed totals. |
| `BrokerSystem.EverythingStaysBounded` | crates/cdenv-core/src/credential_broker.rs:22-30 | At every step at most 4 helpers, 32 relays, 32 live connections, 64 queued frames and 512 KiB of queued bytes exist on each end, and at most 8 frames in each inbox. |
| `BrokerSystem.NothingLeaks` | crates/cdenv-cli/src/credential_broker.rs:116-235 | Whenever the work is over, every permit is back. |
| `Grouping.GroupBy` | crates/cdenv-cli/src/compose_rebuild.rs:107-142 | The grouping loop files each observation under its key once, in order. |
| `Grouping.SortedIsUnique` | crates/cdenv-cli/src/compose_rebuild.rs:107-142 | Sorted identifiers are determined by the multiset of observations. |
| `Grouping.UnderIsFiled` | crates/cdenv-cli/src/compose_rebuild.rs:107-142 | What is filed under a key is exactly the observations with that key, in order. |
| `Grouping.ManagedSetIsRefusedExactly` | crates/cdenv-cli/src/compose_rebuild.rs:590-618 | A list of services is refused exactly when it is empty, lacks the primary, repeats a service, or has a name that is empty, starts with a dash or holds a control character. |
| `ComposeRebuild.Classify` | crates/cdenv-cli/src/compose_rebuild.rs:107-142 | Every desired service, and no other, gets a class: missing exactly when no observation is of it, present with that container exactly when one is, and ambiguous exactly when several are, with their identifiers sorted and each as often as observed. |
| `ComposeRebuild.ClassifiedMeans` | crates/cdenv-cli/src/compose_rebuild.rs:107-142 | The same of the classification as a function. |
| `ComposeRebuild.RecoveryMeans` | crates/cdenv-cli/src/compose_rebuild.rs:288-316 | Recovery evidence exists exactly for a failure after the build, and carries the generation, the phase and what the look showed. |
| `ComposeRebuild.HealthyDecides` | crates/cdenv-cli/src/compose_rebuild.rs:70-104 | The healthy set exists exactly when every service is observed once, running and healthy, and tells whether the primary was kept. |
| `ComposeRebuild.ClassificationIsOrderFree` | crates/cdenv-cli/src/compose_rebuild.rs:107-142 | Reordering the observations changes nothing. |
| `ComposeRebuild.ClassificationIgnoresOthers` | crates/cdenv-cli/src/compose_rebuild.rs:107-142 | Observations of services not desired change nothing. |
| `ComposeRebuild.HealthySetIsUniqueRunningHealthy` | crates/cdenv-cli/src/compose_rebuild.rs:70-104 | The healthy managed set exists exactly when each desired service has one observation and it is running and healthy, and it maps each service to that container. |
| `ComposeRebuild.BuildFirstStage` | crates/cdenv-cli/src/compose_rebuild.rs:417-428 | Request check, early cancellation and build: whatever stops it, nothing was recreated and no recovery evidence is due. |
| `ComposeRebuild.Recreate` | crates/cdenv-cli/src/compose_rebuild.rs:429-442 | The single recreation: whatever stops it, recovery evidence is due. |
| `ComposeRebuild.BuildAndRecreate` | crates/cdenv-cli/src/compose_rebuild.rs:417-442 | Passes exactly when the request is valid, build and recreation succeed and no cancellation is seen; an error carries recovery evidence exactly when recreation was called. |
| `ComposeRebuild.EveryCallMayFollow` | crates/cdenv-cli/src/compose_rebuild.rs:409-540 | In an orderly history every call is allowed by the calls before it. |
| `ComposeRebuild.Look` | crates/cdenv-cli/src/compose_rebuild.rs:572-587 | The evidence is the classification of what a new look shows, or that the look failed. |
| `ComposeRebuild.Stopped` | crates/cdenv-cli/src/compose_rebuild.rs:558-570 | A cancellation is followed by one look, whose result is its evidence. |
| `ComposeRebuild.Managed` | crates/cdenv-cli/src/compose_rebuild.rs:456-472 | Returns the set an inspection shows, and an error only when it shows none with a new primary. |
| `ComposeRebuild.Judge` | crates/cdenv-cli/src/compose_rebuild.rs:456-472 | The set a look shows, or an error that carries its classification and occurs only when it shows no set with a new primary. |
| `ComposeRebuild.FindManagedSet` | crates/cdenv-cli/src/compose_rebuild.rs:443-478 | A managed set is returned only from an inspection after recreation that shows it with a new primary, and an error means the inspection shows no such set or a cancellation came; the error hides that the inspection failed exactly when it did. |
| `ComposeRebuild.LookFails` | crates/cdenv-cli/src/compose_rebuild.rs:443-455 | A first look that fails is reported as every service missing. |
| `ComposeRebuild.LookShows` | crates/cdenv-cli/src/compose_rebuild.rs:456-478 | A first look that shows observations: the set with a new primary they show, or the exact refusal. |
| `ComposeRebuild.EvidencedTells` | crates/cdenv-cli/src/compose_rebuild.rs:542-587 | Evidence tells, service by service over the observations, what the last look showed, or that it failed. |
| `ComposeRebuild.ReadyAndCommit` | crates/cdenv-cli/src/compose_rebuild.rs:479-540 | Passes exactly when readiness answers for the new primary, no cancellation is seen, and handoff and commit succeed. |
| `ComposeRebuild.CommitAndClean` | crates/cdenv-cli/src/compose_rebuild.rs:513-540 | One commit, then cleanup only if it succeeded, with each failed cleanup as one warning; orphan removal keeps exactly the committed set. |
| `ComposeRebuild.CleanUp` | crates/cdenv-cli/src/compose_rebuild.rs:522-534 | Both cleanups are called after the commit, and failures are counted. |
| `ComposeRebuild.HandOffAndCommit` | crates/cdenv-cli/src/compose_rebuild.rs:500-540 | Passes exactly when handoff and commit succeed and no cancellation is seen between them. |
| `ComposeRebuild.Rebuild` | crates/cdenv-cli/src/compose_rebuild.rs:409-540 | For every answer and every moment of cancellation: at most one commit, only after recreation, a unique running healthy set with a new primary, matching readiness and handoff; cleanup only after it, keeping the committed set. Success exactly when committed, and exactly when nothing failed, mismatched or was cancelled; every error is exactly the first thing that went wrong. Recovery evidence exactly when recreation was called, and service by service it is what the last look showed or that it failed, except exactly for a failed first look, which is shown as every service missing. |
| `ComposeLifecycle.Resolve` | crates/cdenv-cli/src/compose_lifecycle.rs:562-618 | The reported state means what it says of the listing, with exactly the services concerned in their order and the container found for the primary; the map is the unique match of each persisted service. |
| `ComposeLifecycle.MatchesByLabel` | crates/cdenv-cli/src/compose_lifecycle.rs:562-583 | A service's containers are exactly the listed ones that bear the project and the service label, in the order listed. |
| `ComposeLifecycle.VerifiedMeans` | crates/cdenv-cli/src/compose_lifecycle.rs:648-707 | A container verifies exactly when its identifier and its six labels, installation, workspace, generation, profile, project and service, are the recorded ones. |
| `ComposeLifecycle.StartsAreOfTheRecord` | crates/cdenv-cli/src/compose_lifecycle.rs:358-386 | Every container started was looked at just before, and was stopped and bore the recorded identifier and six labels. |
| `ComposeLifecycle.CompletedMeans` | crates/cdenv-cli/src/compose_lifecycle.rs:358-386 | A service is named as started exactly when a start of it worked. |
| `ComposeLifecycle.InspectOne` | crates/cdenv-cli/src/compose_lifecycle.rs:360-375 | After a look that saw no request to cancel, the next container is inspected and must verify. |
| `ComposeLifecycle.StartOne` | crates/cdenv-cli/src/compose_lifecycle.rs:359-386 | One pass verifies the container of the next service and starts it exactly if it is stopped, and not after a request to cancel was seen. |
| `ComposeLifecycle.StartStopped` | crates/cdenv-cli/src/compose_lifecycle.rs:358-386 | On success every service was verified and was running or started at once; no call follows a request to cancel that was seen; it succeeds whenever nothing is cancelled, starts work and containers verify. |
| `ComposeLifecycle.ConfirmRunning` | crates/cdenv-cli/src/compose_lifecycle.rs:387-397 | Success exactly for a second listing that is complete and running. |
| `ComposeLifecycle.Resume` | crates/cdenv-cli/src/compose_lifecycle.rs:341-397 | Nothing is started for a missing, ambiguous or substituted set; only verified sole matches are started, each at most once; no call follows a request to cancel that was seen, and "cancelled" names exactly what was started; a refusal reports what the last listing shows, and a failure names the service and the field at fault; every recorded answer is one the world gave; success means every listed container was verified and all persisted services run with the recorded primary; in a cooperative world it succeeds. |
| `ComposeLifecycle.NothingFollowsACancellation` | crates/cdenv-cli/src/compose_lifecycle.rs:713-725 | A request to cancel that stays ends the operation: no call is made after it. |
| `ComposeStop.NothingStopsAfterACancellation` | crates/cdenv-cli/src/compose_lifecycle.rs:713-725 | Once a request to cancel stands, nothing is listed or stopped any more. |
| `ComposeStop.VerifyAll` | crates/cdenv-cli/src/compose_lifecycle.rs:514-537 | Success means every container of the set was inspected and passed; a failure points at one that was missing or did not pass. |
| `ComposeStop.ListAgain` | crates/cdenv-cli/src/compose_lifecycle.rs:502-511 | For a non-empty set, success exactly for a listing that shows all of it stopped. |
| `ComposeStop.StopAndConfirm` | crates/cdenv-cli/src/compose_lifecycle.rs:494-511 | The single stop, after a look that saw no request to cancel, and the listing that confirms it. |
| `ComposeStop.VerifyThenStop` | crates/cdenv-cli/src/compose_lifecycle.rs:476-511 | Every container is verified before the stop, which is not made after a request to cancel was seen. |
| `ComposeStop.Down` | crates/cdenv-cli/src/compose_lifecycle.rs:454-512 | Compose stop is called only after the complete set was verified and never after a request to cancel was seen; success means the set was then found stopped; when everything verifies and stops it succeeds. |
| `ComposeStop.StopsAreOfTheRecord` | crates/cdenv-cli/src/compose_lifecycle.rs:454-511 | Before a stop, the sole listed container of every persisted service was looked at and bore the recorded identifier and six labels. |
| `ComposeStop.ConfirmStopped` | crates/cdenv-cli/src/compose_lifecycle.rs:424-430 | The already-stopped branch stops nothing and succeeds only after every container was inspected and passed. |
| `ComposeStop.StopRecorded` | crates/cdenv-cli/src/compose_lifecycle.rs:409-445 | Each outcome means what it says, a refusal reports what the last listing shows, nothing is listed or stopped after a request to cancel was seen, and every recorded answer is one the world gave; in an unchanging world a missing set is reported missing and a stopped set succeeds, as already stopped, exactly when its containers verify; a running set that verifies and stops is reported stopped. |
| `ComposeStop.StopTwice` | crates/cdenv-cli/src/compose_lifecycle.rs:409-445 | With nothing changed since: after "missing" or "already stopped" the same answer again with the same facts; after a stop, "already stopped" with the same facts exactly when every service whose container differs from the one verified before the stop verifies. |
| `ComposeStop.NewcomersDecide` | crates/cdenv-cli/src/compose_lifecycle.rs:514-537 | With the listing and the inspected containers unchanged, the whole set verifies exactly when the containers not verified before do. |
| `ComposeStop.UnchangedStillVerifies` | crates/cdenv-cli/src/compose_lifecycle.rs:648-707 | A container that passed and is unchanged but for running passes again. |
| `ComposeStop.RepeatedStopCanFail` | crates/cdenv-cli/src/compose_lifecycle.rs:409-445 | Two stops of a two-service set with nothing changed in between, the first successful and the second refused: one container was replaced during the stop by one of another profile, which every listing filter lets through. |
| `Calendar.CivilCountsBack` | crates/cdenv-cli/src/create.rs:658-671 | Every day number, negative ones included, gives a valid Gregorian date that counts back to it by years and months with the 4/100/400 rule. |
| `Calendar.CivilInvertsCounting` | crates/cdenv-cli/src/create.rs:658-671 | Converting the count of a valid date gives that date. |
| `Calendar.NextDayIsTomorrow` | crates/cdenv-cli/src/create.rs:658-671 | The next day number is the calendar successor. |
| `Calendar.CivilKeepsOrder` | crates/cdenv-cli/src/create.rs:658-671 | Dates compare as day numbers do. |
| `Timestamp.FormatReadsBack` | crates/cdenv-cli/src/create.rs:648-656 | From the epoch to the end of year 9999 the text has the shape of section 5.6 of RFC 3339 and parses back to the same second. |
| `Timestamp.ParsedIsFormatted` | crates/cdenv-cli/src/create.rs:648-656 | Every text of that shape with fields in range, years 0000 to 9999, is the text of the second it parses to, so formatting and parsing are inverse both ways. |
| `Timestamp.ShapeHoldsExactlyUntil9999` | crates/cdenv-cli/src/create.rs:648-656 | For all seconds from the epoch on, the shape holds exactly up to the end of year 9999. |
| `Timestamp.TextOrderIsTimeOrder` | crates/cdenv-cli/src/create.rs:648-656 | In that range string order is time order, as section 5.1 of RFC 3339 promises. |
| `Timestamp.KeptExactlyUntil9999` | crates/cdenv-cli/src/create.rs:637-646 | For every clock since the epoch, the timestamp is accepted for the state exactly up to the end of year 9999. |
| `Timestamp.KeptTimestampsSortByTime` | crates/cdenv-cli/src/state.rs:178-195 | Any two timestamps `current_timestamp` produces sort as their seconds do and read back to them. |
| `Timestamp.KeptMeans` | crates/cdenv-cli/src/state.rs:178-195 | Text is refused as a timestamp exactly when it is shorter than 20, lacks the date punctuation or a zone, or holds a control character. |
| `SnapshotFormat.DecodesExactlyFrames` | crates/cdenv-agent/src/environment.rs:633-678 | `decode` accepts exactly the frames of distinct valid records within the bounds. |
| `SnapshotFormat.EncodedMapsDecode` | crates/cdenv-agent/src/environment.rs:591-678 | Every map the encoder accepts decodes back to itself. |
| `SnapshotFormat.AcceptedBytesReencode` | crates/cdenv-agent/src/environment.rs:591-678 | Every accepted byte string re-encodes without error to the same length and is a frame of a permutation of the same records. |
| `SnapshotFormat.FrameAfterEveryNoise` | crates/cdenv-agent/src/environment.rs:680-691 | A frame after any bytes whatever, also ones that contain the magic or other frames, is recovered exactly. |
| `SnapshotFormat.NoFrameInside` | crates/cdenv-agent/src/environment.rs:591-631 | No frame ends with another frame inside its records. |
| `SnapshotFormat.NoSignatureInFields` | crates/cdenv-agent/src/environment.rs:603-616 | The bytes every frame shows around its version never occur among written fields. |
| `SnapshotFormat.MagicDoesNotStraddle` | crates/cdenv-agent/src/environment.rs:17 | The magic cannot overlap the start of a frame. |
| `SnapshotFormat.FieldReads` | crates/cdenv-agent/src/environment.rs:699-728 | A length-prefixed field is read exactly when it is there. |
| `SnapshotCodec.Encode` | crates/cdenv-agent/src/environment.rs:591-624 | Succeeds exactly on encodable maps, with the frame; otherwise the error names the count or the first entry at fault. |
| `SnapshotCodec.PushField` | crates/cdenv-agent/src/environment.rs:626-631 | Appends one length-prefixed field. |
| `SnapshotCodec.Decoder.Take` | crates/cdenv-agent/src/environment.rs:712-727 | Returns the next bytes and advances, or reports truncation and stays. |
| `SnapshotCodec.Decoder.Length` | crates/cdenv-agent/src/environment.rs:699-702 | Reads a big-endian length at the offset. |
| `SnapshotCodec.Decoder.Field` | crates/cdenv-agent/src/environment.rs:704-710 | Reads a field at the offset or reports its size or truncation. |
| `SnapshotCodec.Decode` | crates/cdenv-agent/src/environment.rs:633-678 | Computes exactly the reading the lemmas above are about, errors included. |
| `SnapshotCodec.DecodeEmbedded` | crates/cdenv-agent/src/environment.rs:680-691 | Returns the first magic whose whole remainder decodes, or reports that there is none. |
| `StaticElf.Validate` | crates/cdenv-core/src/executable.rs:27-80 | Accepts exactly the files meeting a declarative ELF64 specification; reports a wrong machine, or a dynamic segment, exactly when that is the first objection. |
| `StaticElf.CheckProgramHeaders` | crates/cdenv-core/src/executable.rs:53-75 | The loop reports the first objection, or whether some header maps the entry point executable. |
| `StaticElf.CheckProgramHeader` | crates/cdenv-core/src/executable.rs:55-74 | One program header: the exact objection, or whether it maps the entry point executable. |
| `StaticElf.CheckFileHeader` | crates/cdenv-core/src/executable.rs:29-37 | The byte comparisons decide the numeric header fields. |
| `StaticElf.AcceptanceSurvivesAppending` | crates/cdenv-core/src/executable.rs:27-80 | An accepted file stays accepted with any bytes appended. |
| `StaticElf.EntryIsInTheFile` | crates/cdenv-core/src/executable.rs:55-78 | The entry point of an accepted file is a byte of the file in an executable segment. |
| `AccountUpdate.RewriteDatabase` | crates/cdenv-agent/src/lib.rs:662-681 | Succeeds exactly when every non-empty line has enough fields; then the rewritten text read again is every row updated in place. |
| `AccountUpdate.AccountFiles.UpdateUser` | crates/cdenv-agent/src/lib.rs:507-531 | Refused without root; changes nothing on refusal or when nothing is to do; otherwise replaces the group database, then the account database, then changes the home entry by entry, any of which may fail and stops the rest. A reached entry has the requested UID if it had the account's, and the requested GID if it had the account's; nothing else changes. |
| `AccountUpdate.AccountFiles.ChownTree` | crates/cdenv-agent/src/lib.rs:730-766 | Up to the first failure each entry has the new UID where it had the account's, else its own, and likewise the GID; the rest is untouched. |
| `AccountUpdate.AccountFiles.UpdateTwice` | crates/cdenv-agent/src/lib.rs:521-531 | Repeating a request that failed in the home succeeds and touches nothing, so the home is finished exactly when no entry that was not reached has a number of the account that differs from the one asked for. |
| `AccountUpdate.HalfAnUpdateStays` | crates/cdenv-agent/src/lib.rs:507-531 | On real file contents, for any old number and any new UID and GID, the GID being new: an update stopped between its two replacements, and the same request then refused. |
| `AccountUpdate.HomeIsNotRepaired` | crates/cdenv-agent/src/lib.rs:507-531 | On real file contents, for any old number and two new ones: without a failure the entry of the home gets exactly the new UID and GID; after a failure at it the same request succeeds and leaves it under its old numbers. |
| `AccountUpdate.AcceptedUpdate` | crates/cdenv-agent/src/lib.rs:507-531 | After an accepted update the account has the new numbers and its old home, which is absolute, not the root and without a parent component; its primary group keeps its name under the new GID, no other name holds the new GID, nor the new UID if it changed, and the same request has nothing left to do. |
| `AccountUpdate.DecisionMeans` | crates/cdenv-agent/src/lib.rs:507-525 | An update goes ahead exactly when the account and its primary group are found, neither is root, both numbers are theirs or free, one of them changes, the home is safe and both databases are well formed; it has nothing to do exactly when the first part holds and neither number changes. |
| `AccountUpdate.RefusalMeans` | crates/cdenv-agent/src/lib.rs:507-525 | Each refusal is true of the two databases: the conflict names a row of another owner that holds the number, the missing group is missing, the unsafe home is unsafe. |
| `AccountUpdate.SafeHomeMeans` | crates/cdenv-agent/src/lib.rs:683-700 | A home is safe exactly when it is absolute, no component between slashes is "..", and some component is neither empty nor ".". |
| `AccountUpdate.OtherRowsAreKept` | crates/cdenv-agent/src/lib.rs:645-681 | Rows under other names keep all fields, and are unchanged exactly when no extra carriage return ends them. |
| `AccountUpdate.ExtraReturnIsRead` | crates/cdenv-agent/src/lib.rs:662-681 | A line ending in two carriage returns and a newline is read with one of them. |
| `AccountUpdate.ExtraReturnIsLost` | crates/cdenv-agent/src/lib.rs:662-681 | A concrete row of another account that the rewrite changes. |
| `AccountUpdate.EditedRowsChangeOnlyNumbers` | crates/cdenv-agent/src/lib.rs:645-660 | Edited rows change only the numbers, which parse to the requested ones; the last field loses at most a carriage return. |
| `AccountUpdate.RetryAfterHalfAnUpdate` | crates/cdenv-agent/src/lib.rs:526-528 | With only the group database replaced, the same request is accepted again exactly when the GID was not to change. |
| `AccountUpdate.HalfAnUpdateIsRefused` | crates/cdenv-agent/src/lib.rs:507-531 | One account and group, for any old number and any new UID and GID, the GID being new: accepted, and refused once only the group was replaced. |
| `AccountUpdate.HalfAnUpdateFrom1000` | crates/cdenv-agent/src/lib.rs:507-531 | The same from 1000 to UID 2000 and GID 2001. |
| `AccountRows.NoOtherHolder` | crates/cdenv-agent/src/lib.rs:593-643 | The conflict scans pass exactly when the database is well formed and nobody else holds the number. |
| `AccountRows.AccountIsFirst` | crates/cdenv-agent/src/lib.rs:571-591 | The first non-empty line that is incomplete or has the name decides: its third, fourth and sixth field, or exactly the error for it. |
| `AccountRows.GroupIsFirst` | crates/cdenv-agent/src/lib.rs:614-625 | The first non-empty line that is incomplete or has the number decides. |
| `AccountRows.HolderIsFirst` | crates/cdenv-agent/src/lib.rs:593-643 | The first non-empty line that is incomplete, or has the number under another name, decides, and its owner is named. |
| `AccountRows.ParseMeans` | crates/cdenv-agent/src/lib.rs:571-591 | A number is read exactly from its decimal digits, after any zeros and at most one plus sign. |
| `AccountRows.FindEditedAccount` | crates/cdenv-agent/src/lib.rs:571-591 | Lookup in the edited rows finds the new numbers and the old home. |
| `AccountRows.FindEditedGroup` | crates/cdenv-agent/src/lib.rs:614-625 | Lookup of the new GID finds the edited group. |
| `DelimitedText.LinesOfUnlines` | crates/cdenv-agent/src/lib.rs:662-681 | Reading written lines back loses at most one trailing carriage return of each. |
| `DelimitedText.SplitMeans` | crates/cdenv-agent/src/lib.rs:558-569 | Splitting yields the stretches between delimiters and nothing else. |
| `FeatureWorklist.RetrievePackages` | crates/cdenv-cli/src/feature_lock.rs:236-265 | Whenever finitely many references are reachable it ends, resolves none twice, succeeds exactly when all of them resolve, and then holds exactly the reachable ones, cycles included; otherwise it reports the first failure. |
| `FeatureWorklist.Drain` | crates/cdenv-cli/src/feature_lock.rs:241-264 | The loop ends inside any finite closed set and keeps everything explored or pending. |

## Left out

- File permissions, ownership, symbolic links, fsync and rename: a state write is one step that happens or does not.
- `wait_children` polls the children of a group and kills their process groups on cancellation, and `BoundedLog` stops writing output at one mebibyte; only how a group ended enters the checkpoint, and every ending is allowed here.
- `cancel_lifecycle` after its write polls the inspection and at its deadline signals the runner: the polls are the inspections above and the signals are the crash steps every run may contain.
- `run_post_attach` runs one stage under its own lock and keeps no resumable checkpoint.
- The build, protocol, generation, path and user checks of a lifecycle request compare it with the process it runs in; a request they refuse changes nothing.
- Reconciliation with a live supervisor, installation and root scope checks, and replacement of a workspace inside `ensure_receipt` itself: replacement is modelled between commands and between the receipt write and the record write.
- Broker byte framing, partial reads, idle timeouts and progress: reading one frame, with the connection to the agent that an open makes, and checking-then-writing one frame are single steps and only safety is stated.
- The two broker ends are state machines over values rather than objects: each enabled action is a function from state to state, so task scheduling is any interleaving, aborting tasks at the end is a stop, and when a relay or local connection may give up is a superset of what the code does.
- Parsing of origins, selectors and credential requests: origins and selectors are opaque values, and the origin of a lookup is whatever its body names.
- `merge_remote` overlays configured variables on a captured environment and `filter_transient` drops shell bookkeeping names; both are maps filtered or overwritten key by key, and nothing later depends on more than that.
- BrokerService.LookupIsServed: request bytes are opaque, so it does not model that a request must parse and name the origin.
- BrokerService.IdentityIsServed: identity bytes are opaque, so it does not model that the bridge stops on metadata it cannot decode.
- 64-bit overflow in `civil_date_from_days` and in the snapshot decoder's offset: unreachable, since days come from 64-bit seconds and offsets stay below 16 MiB plus one entry.
- The shape of the home directory tree and the file modes kept by `replace_database`: the home is the sequence of entries visited.
- LifecycleRunner.ValidateStages: models only the stage order of `validate_request`.
- LifecycleRunner.StateDirectory.Cancel: models only the write of the cancel file by `cancel_lifecycle`.
- Timestamp.KeptMeans: positions and length count characters where the code counts bytes; they are the same for ASCII text, which is all the formatter writes.
- StaticElf.Validate: assumes a 64-bit `usize`, so the conversion of the table offset cannot fail.
- FeatureWorklist.RetrievePackages: packages are only their dependency lists, and the resolver is a function of the reference.
- Docker, Compose and SSH adapters, forwarding, provisioning, configuration discovery, the command line and rendering.
