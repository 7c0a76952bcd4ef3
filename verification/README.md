# HeteroCloud control plane: verified models

HeteroCloud runs a cloud's control plane: an HTTP API, a PostgreSQL store and background loops that
drive external providers (a container platform, object storage, an image registry, an identity
provider). This project models its concurrent and stateful core in Dafny and proves what that core
keeps in every run.

The protocols are state machines. One step is one database transaction, one provider call or one
event; `Run` executes any finite interleaving of the steps of any number of replicas, handlers and
users, in which calls fail with or without having taken effect and a party may stop anywhere. The
theorems are about every run. Beside each machine a class holds the code as it is written: methods
that perform the steps in sequence, while others act in between; every run of theirs is a run of the
machine. Loops, in-place updates and accumulators of the original are loops, classes and arrays here.

| file | component |
|---|---|
| `json.dfy`, `order.dfy` | results, characters, JSON values, string order, reorderings |
| `rollback_spec.dfy` | deployment policies and the merge of a rollback |
| `flash_deployments.dfy`, `flash_effects.dfy`, `flash_controllers.dfy`, `flash_reads.dfy` | edits, observers and rollbacks of one service |
| `credential_rotation.dfy` | credential writes of backup destinations |
| `ssh_gateway.dfy`, `ssh_channels.dfy` | SSH connections, channels and relays |
| `registry_listing.dfy`, `registry_saga.dfy`, `registry_outcomes.dfy` | image listing; push credentials; what the outcomes of their calls decide |
| `backup_status.dfy`, `backup_reconciler.dfy`, `backup_releases.dfy`, `backup_outages.dfy`, `backup_staleness.dfy`, `backup_loops.dfy` | backups and their reconcilers |
| `scheduled_backups.dfy` | schedule slots and backup quotas |
| `usage.dfy` | storage usage per tenant; Flash usage totals |
| `oidc.dfy` | provider requests and login completion |
| `tokens.dfy` | bearer tokens |

The store's SQL statements and the revision trigger are modelled as transactions on values, not
assumed. What is assumed is stated where it is used: generated UUIDs and robot ids are fresh, the
slot hash is injective (`ScheduledBackups.Injective`) and timers are exact in `Oidc`.

Three properties one might expect do not hold of the code. Each has runs that show it, and a theorem
over all runs that says exactly when the property holds:

- The two stores of a committed credential agree. A request that outlives its lock can replace the key,
  after the next commit or before it (`LateArrivalBreaksAgreement`,
  `ArrivalBeforeCommitBreaksAgreement`); `AgreementExactly` says when.
- A finished create leaves a row with its robot, or neither. A lost answer leaves the robot behind
  (`LostAnswerLeavesRobot`); `WholeExactly` says for which outcomes of its calls row and robot stay
  together.
- A reconciler never turns a phase back. A stale snapshot does, by its rotation or by the write after an
  outage (`StaleRotationReverts`, `StaleOutageReverts`); `PhaseTurnsBackExactly` says when.

## Model

| member | source | states |
|---|---|---|
| `RollbackSpecs.RollbackSpec` | crates/heterocloud-store/src/flash_operations.rs:78-106 | The in-place merge of a rollback: access settings of the current specification or absent, the larger of two disk sizes, everything else of the target. |
| `RollbackSpecs.KeepAccess` | crates/heterocloud-store/src/flash_operations.rs:79-98 | After the first pass every access setting is the current one, or absent when it is absent now; no other member changed. |
| `RollbackSpecs.KeepDisks` | crates/heterocloud-store/src/flash_operations.rs:99-104 | After the second pass a disk has the larger of its two sizes; no other member changed. |
| `RollbackSpecs.RestoredFields` | crates/heterocloud-store/src/flash_operations.rs:78-106 | Member by member, what a restored specification holds. |
| `RollbackSpecs.KeysAreThese` | crates/heterocloud-store/src/flash_operations.rs:80-99 | The eleven access settings and the two disks, by name. |
| `RollbackSpecs.AcceptedDeadline` | crates/heterocloud-domain/src/deployment.rs:4-72 | Every specification the store accepts has a deployment deadline between one minute and one hour, the default included. |
| `DeploymentPolicies.ParsesExactly` | crates/heterocloud-domain/src/deployment.rs:4-48 | Parsing gives the policy an object tells, member by member with the defaults, and refuses every object that tells none. |
| `RollbackSpecs.PoliciesExactly` | crates/heterocloud-domain/src/deployment.rs:4-72 | The policy in force is the one the specification tells, else the default; the store accepts exactly the usable ones. |
| `FlashDeployments.StepPreserves` | crates/heterocloud-store/src/lib.rs:3490-3695 | Every transaction of every party keeps the invariant: one revision per generation with the specification, author and time of the write that made it, readiness never withdrawn. |
| `FlashDeployments.RunPreserves` | crates/heterocloud-api/src/flash_operations.rs:182-295 | The same for every finite interleaving of edits, deletion, worker reports, any number of observers and any number of manual rollbacks, each reading and writing in separate steps and crashing anywhere. |
| `FlashDeployments.RollbacksAreFenced` | crates/heterocloud-store/src/lib.rs:3539-3541 | In every run a rollback computed from generation g takes effect only while g is current; generations grow by exactly one per write; each generation is rolled back at most once; no write is lost. |
| `FlashDeployments.AccessIsThatOfLastEdit` | crates/heterocloud-store/src/flash_operations.rs:78-98 | After every run the access, secret, exposure and network settings of the service are those of the last ordinary edit. |
| `FlashDeployments.RollbacksRestoreHealthyRevisions` | crates/heterocloud-api/src/flash_operations.rs:249-273 | Each rollback takes its execution settings from a strictly earlier revision proved healthy, never shrinks a disk; an automatic one takes the newest healthy revision and acts for the author of the one it replaces. |
| `FlashReads.AutomaticRollbacksReadNotReady` | crates/heterocloud-api/src/flash_operations.rs:217-241 | In every run the revision an automatic rollback replaced had been read by its observer as past its deadline and not ready. |
| `FlashDeployments.AutomaticRollbacksAreSpaced` | crates/heterocloud-api/src/flash_operations.rs:230-241 | Two automatic rollbacks of a service are at least the later one's deadline apart, hence at least a minute. |
| `FlashDeployments.AutomaticRollbackRate` | crates/heterocloud-api/src/flash_operations.rs:235-241 | Any window of T seconds holds at most 1 + T/60 automatic rollbacks, in every run. |
| `FlashDeployments.HistoryGivesNewestHealthy` | crates/heterocloud-api/src/flash_operations.rs:242-254 | What an observer picks is the newest revision that is healthy, older than the one it observed and among the thirty newest stored, and nothing only if there is none; no healthy revision lies in between. |
| `FlashDeployments.NewestIsExact` | crates/heterocloud-store/src/flash_operations.rs:145-152 | A stored revision is listed if and only if fewer than the limit of newer ones are stored. |
| `FlashDeployments.NewestDescends` | crates/heterocloud-store/src/flash_operations.rs:145-152 | The history query returns stored revisions, newest first. |
| `FlashDeployments.NewestCounts` | crates/heterocloud-store/src/flash_operations.rs:145-152 | It returns as many as the limit, fewer only when fewer are stored. |
| `FlashDeployments.FirstHealthyIsFirst` | crates/heterocloud-api/src/flash_operations.rs:249-254 | The search of the history finds the first older healthy revision, and nothing only if there is none. |
| `FlashDeployments.DeadlineMeansOverdue` | crates/heterocloud-api/src/flash_operations.rs:230-241 | A passed deadline, in truncated whole seconds from the activation or creation, means the replaced revision is at least that old and not ready. |
| `FlashDeployments.EditTransaction` | crates/heterocloud-store/src/lib.rs:3490-3695 | An ordinary edit extends the history by one revision and changes no other. |
| `FlashDeployments.DeleteTransaction` | crates/heterocloud-store/src/lib.rs:3837-3937 | Beginning a deletion bumps the generation and keeps the history sound. |
| `FlashDeployments.CaptureTransaction` | migrations/0024_flash_runtime_verified_revisions.sql:15-35 | The row trigger inserts or refreshes just the current generation's revision and never withdraws readiness. |
| `FlashDeployments.ObservationTransaction` | crates/heterocloud-store/src/flash_operations.rs:190-219 | Recording an observation of a stale generation changes nothing; a current one starts the activation clock once. |
| `FlashDeployments.ReportTransaction` | crates/heterocloud-store/src/lib.rs:3955-4005 | The worker's outcome is fenced by its event's generation. |
| `FlashDeployments.MarkTransaction` | crates/heterocloud-store/src/flash_operations.rs:136-144 | Marking a revision rolled back leaves a healthy one alone. |
| `FlashDeployments.FencedTransaction` | crates/heterocloud-api/src/flash_operations.rs:273-294 | The observer's write is a sound transaction logged with what it had read, or changes nothing. |
| `FlashDeployments.ManualTransaction` | crates/heterocloud-api/src/flash_operation_routes.rs:64-118 | So is a manual rollback's. |
| `FlashDeployments.CreatedIsSound` | crates/heterocloud-store/src/lib.rs:3244-3440 | A newly created service with an accepted specification starts every run. |
| `FlashEffects.EditsTakeEffect` | crates/heterocloud-store/src/lib.rs:3490-3695 | An edit is stored as the next generation, with this specification, author and time, exactly when the service is writable, its checks pass and its policy is usable; otherwise nothing changes. |
| `FlashEffects.RollbacksTakeEffect` | crates/heterocloud-store/src/lib.rs:3490-3695 | So is the restored specification of a rollback, provided the generation it read is still current. |
| `FlashEffects.DeletionsTakeEffect` | crates/heterocloud-store/src/lib.rs:3837-3937 | A deletion is a generation of its own with the same specification, and completes only as the current one. |
| `FlashEffects.ObservationsTakeEffect` | crates/heterocloud-store/src/flash_operations.rs:190-219 | What an observation of the current generation does to state, phase and activation; any other changes nothing. |
| `FlashEffects.ReportsTakeEffect` | crates/heterocloud-store/src/lib.rs:3955-4005 | What the worker's outcome does to the generation it worked on, if that is still current. |
| `FlashEffects.ReadinessExactly` | migrations/0024_flash_runtime_verified_revisions.sql:15-35 | In any state of any run and for any action, a revision becomes healthy exactly when it is current, not stopped, and reported ready, of its own generation, with a ready replica. |
| `FlashEffects.HealthIsProved` | migrations/0024_flash_runtime_verified_revisions.sql:1-3 | In every run, what became healthy was reported up by such a step. |
| `FlashEffects.RollbackTargetsHaveRun` | migrations/0024_flash_runtime_verified_revisions.sql:1-3 | So the target of every rollback of a service, automatic or manual, has run: it was reported up while it was current. |
| `FlashEffects.OverdueExactly` | crates/heterocloud-api/src/flash_operations.rs:224-241 | A revision is overdue exactly when its policy rolls back, it was never ready and its deadline has passed, to the microsecond, since its activation, or since its creation unless it scales to zero. |
| `FlashEffects.StartsExactly` | crates/heterocloud-api/src/flash_operation_routes.rs:64-97 | An idle observer or manual rollback starts with the service as it is; a busy one, or one that expects another generation, does not start. |
| `FlashControllers.ControlPlane.Observe` | crates/heterocloud-api/src/flash_operations.rs:182-295 | The observer in sequence, with anything happening between its calls: a rollback it reports replaced the generation it observed and marked it; left alone, it rolls back exactly when the observed revision, after recording the observation, is overdue, the newest healthy one among the thirty newest below it exists and is accepted, and its author is permitted. |
| `FlashControllers.ControlPlane.RollBackIfOverdue` | crates/heterocloud-api/src/flash_operations.rs:217-241 | The part from the revision read on, with the same two promises. |
| `FlashControllers.ControlPlane.RollBackOverdue` | crates/heterocloud-api/src/flash_operations.rs:242-272 | The part from the history read on. |
| `FlashControllers.ControlPlane.WriteRollback` | crates/heterocloud-api/src/flash_operations.rs:273-294 | The fenced write and the mark; without interference it succeeds exactly when the store accepts the restored specification. |
| `FlashControllers.ControlPlane.Rollback` | crates/heterocloud-api/src/flash_operation_routes.rs:64-118 | A manual rollback that succeeds replaced the generation its caller expected by the requested revision; left alone, it succeeds exactly when that is current, the target is an older healthy revision and the store accepts it. |
| `FlashControllers.ControlPlane.WriteManualRollback` | crates/heterocloud-api/src/flash_operation_routes.rs:98-118 | The fenced write of a manual rollback. |
| `FlashControllers.ControlPlane.Interfere` | crates/heterocloud-api/src/flash_operations.rs:84-104 | Other parties' steps leave a controller's own reading alone and only extend the log. |
| `CredentialRotation.MutualExclusion` | crates/heterocloud-api/src/flash_backup_destination_routes.rs:158-168 | Two writers are never inside for one destination, whatever the lock's hash does. |
| `CredentialRotation.StepPreserves` | crates/heterocloud-api/src/flash_backup_destination_routes.rs:144-203 | Every step of every writer, also of one that lost its lock, and every late arrival of a request keeps the lock table, what the holder has stored, and the record of stray requests. |
| `CredentialRotation.RunPreserves` | crates/heterocloud-api/src/flash_backup_destination_routes.rs:144-203 | The same for every interleaving, late arrivals included. |
| `CredentialRotation.AgreementExactly` | crates/heterocloud-api/src/flash_backup_destination_routes.rs:155-203 | In every run, late arrivals and lost locks included: whenever a destination's lock is free and its last holder committed, each of the two stores holds that holder's key if and only if no stray request arrived there since the store answered that holder, or the last one carries the holder's key. |
| `CredentialRotation.StraysAreLastArrivals` | crates/heterocloud-api/src/flash_backup_destination_routes.rs:183-196 | The record of strays read off the run: for each store a key is recorded exactly when its late arrival is followed by neither an answer to a lock holder of that destination nor another arrival. |
| `CredentialRotation.StoresAgreeWhenLockIsFree` | crates/heterocloud-api/src/flash_backup_destination_routes.rs:155-203 | If requests end before their sender lets go of the lock, then whenever a destination's lock is free and its last holder committed, the secret manager and the provider hold that holder's key. |
| `CredentialRotation.CommitRepairs` | crates/heterocloud-api/src/flash_backup_destination_routes.rs:197-202 | Whatever earlier failures and late arrivals left behind, a commit that lands makes the row that of its writer, and each store too up to strays since it answered. |
| `CredentialRotation.NextWriterRecovers` | crates/heterocloud-api/src/flash_backup_destination_routes.rs:177-202 | After any run, a writer that commits with no stray since the stores answered it restores agreement. |
| `CredentialRotation.InForceUntilNextHolder` | crates/heterocloud-api/src/flash_backup_destination_routes.rs:155-203 | Until another writer of the destination takes the lock a committed key stays in force, in each store exactly while no stray with another key came last. |
| `CredentialRotation.LateArrivalBreaksAgreement` | crates/heterocloud-api/src/flash_backup_destination_routes.rs:183-196 | A run in which a timed-out provider request arrives after a later writer committed and leaves the provider with the older key. |
| `CredentialRotation.ArrivalBeforeCommitBreaksAgreement` | crates/heterocloud-api/src/flash_backup_destination_routes.rs:183-202 | And a run in which it arrives inside the later writer's critical section, after the provider answered that writer and before its commit. |
| `CredentialRotation.FailedCallsMayTakeEffect` | crates/heterocloud-api/src/flash_backup_destination_routes.rs:169-202 | What a call leaves behind that failed after taking effect, or whose request is still on its way. |
| `CredentialRotation.OthersTakeEffect` | crates/heterocloud-api/src/flash_backup_destination_routes.rs:183-202 | A refresh sets the row of a known destination only; a late request replaces the key in its store only. |
| `CredentialRotation.CrashesTakeEffect` | crates/heterocloud-api/src/flash_backup_destination_routes.rs:155-203 | A writer that crashes or loses its lock leaves it; exactly its unfinished requests may arrive later. |
| `CredentialWriters.Destinations.Apply` | crates/heterocloud-api/src/flash_backup_destination_routes.rs:144-203 | The handler in sequence: its answer is exactly the one its own calls' answers and the row's existence determine, each error told apart; success means the provider told of this organization and destination that it is ready, or not, the row says so, and both stores hold the key, unless a stray request arrived after the store answered. |
| `CredentialWriters.Destinations.Lock` | crates/heterocloud-api/src/flash_backup_destination_routes.rs:158-168 | The part from the transaction's begin on; a failing begin or lock query ends it. |
| `CredentialWriters.Destinations.Store` | crates/heterocloud-api/src/flash_backup_destination_routes.rs:169-202 | The part under the lock. |
| `CredentialWriters.Destinations.Publish` | crates/heterocloud-api/src/flash_backup_destination_routes.rs:177-202 | The part after the secret is stored. |
| `CredentialWriters.Destinations.Settle` | crates/heterocloud-api/src/flash_backup_destination_routes.rs:197-202 | The part after the provider answered: row update and commit, either of which may fail. |
| `CredentialWriters.ProviderResultExactly` | crates/heterocloud-api/src/flash_backup_destination_routes.rs:133-142 | The provider's reply counts exactly when it names this destination and organization and says true or false; the error of any other reply. |
| `CredentialWriters.CredentialValidExactly` | crates/heterocloud-api/src/flash_backup_destination_routes.rs:24-26 | A key is acceptable exactly when it has 1 to 4096 bytes and no control character. |
| `CredentialWriters.RowsStay` | crates/heterocloud-api/src/flash_backup_destination_routes.rs:197-202 | In every run no credential write makes a destination known or unknown. |
| `SshChannels.Negotiate` | crates/heterocloud-api/src/flash_ssh_gateway.rs:434-492 | The negotiation loop answers every terminal request and ends with the command, terminal and last valid size, or with one failure. |
| `SshChannels.RelaySession` | crates/heterocloud-api/src/flash_ssh_gateway.rs:515-555 | The session relay's output and input are those of its events up to the first end; `EndsExactly`, `OutputIsExact` and `InputIsExact` say which. |
| `SshChannels.RelayForward` | crates/heterocloud-api/src/flash_ssh_gateway.rs:557-588 | The same for port forwarding, with `ForwardsAreExact`. |
| `SshChannels.SessionChannel` | crates/heterocloud-api/src/flash_ssh_gateway.rs:422-555 | A whole session: negotiation, start at the provider, relay. |
| `SshChannels.PtyRepliesAreAnswers` | crates/heterocloud-api/src/flash_ssh_gateway.rs:436-454 | Each terminal request gets exactly one answer, success or failure. |
| `SshChannels.RelaysObeyTheGrammar` | crates/heterocloud-api/src/flash_ssh_gateway.rs:519-554 | Every relay sends data, then one exit status, one end of file, one close. |
| `SshChannels.SessionsObeyTheGrammar` | crates/heterocloud-api/src/flash_ssh_gateway.rs:422-555 | Every session answers terminal requests, then sends one final failure, or one success followed by a relay that obeys its grammar; the provider is sent nothing, or the start and then what the relay forwards. |
| `SshChannels.OutputIsExact` | crates/heterocloud-api/src/flash_ssh_gateway.rs:532-536 | Standard output and error are exactly the ordered payloads tagged 1 and 2 that arrived before the end. |
| `SshChannels.InputIsExact` | crates/heterocloud-api/src/flash_ssh_gateway.rs:524-530 | For both kinds of relay the provider is told of every event before the end, in order, and of nothing else; its input bytes are exactly those the client sent before the end. |
| `SshChannels.EndsExactly` | crates/heterocloud-api/src/flash_ssh_gateway.rs:519-549 | Exactly which events end a relay. |
| `SshChannels.EndCodeExactly` | crates/heterocloud-api/src/flash_ssh_gateway.rs:537-552 | The exit status of an ended session is the 32-bit code of the provider's exit message, else 255. |
| `SshChannels.ForwardsAreExact` | crates/heterocloud-api/src/flash_ssh_gateway.rs:557-588 | A forwarded port sends exactly the payloads that arrived before the end, then end of file and close. |
| `SshChannels.NegotiationExactly` | crates/heterocloud-api/src/flash_ssh_gateway.rs:434-492 | What the first message that is not about terminal or environment agrees on: shell, valid command, or file transfer without a terminal, with the terminal and size asked for before. |
| `SshChannels.StillNegotiating` | crates/heterocloud-api/src/flash_ssh_gateway.rs:434-492 | Until such a message nothing is agreed on. |
| `SshChannels.LastSizeExactly` | crates/heterocloud-api/src/flash_ssh_gateway.rs:434-486 | The size is the last one announced that fits, 80 by 24 if none was. |
| `SshChannels.PtyAnswered` | crates/heterocloud-api/src/flash_ssh_gateway.rs:436-454 | Each terminal request has its own answer, in order: success exactly for a size that fits. |
| `SshChannels.NothingAfterTheEnd` | crates/heterocloud-api/src/flash_ssh_gateway.rs:519-549 | What arrives after an end is relayed in neither direction. |
| `SshChannels.NothingForwardedAfterFailedCheck` | crates/heterocloud-api/src/flash_ssh_gateway.rs:521-521 | After a failed identity recheck the client's input goes nowhere and the closing sequence follows at once. |
| `SshGateway.UsernamesAreExact` | crates/heterocloud-api/src/flash_ssh_gateway.rs:144-150 | A user name is accepted exactly when it is two hyphenated UUIDs, in any case, joined by a plus sign, and names those. |
| `SshGateway.UuidExactly` | crates/heterocloud-api/src/flash_ssh_gateway.rs:144-150 | An identifier is 36 characters: hexadecimal digits with hyphens at the four places. |
| `SshGateway.CanonicalExactly` | crates/heterocloud-api/src/flash_ssh_gateway.rs:144-150 | Two identifiers are the same exactly when they differ at most in the case of their digits. |
| `SshGateway.FirstEligibleIsLeast` | crates/heterocloud-api/src/flash_ssh_gateway.rs:280-285 | The pod chosen is ready and running, its name precedes that of every other such container, and none is chosen only if there is none. |
| `SshGateway.StepPreserves` | crates/heterocloud-api/src/flash_ssh_gateway.rs:228-415 | Every event keeps the permit counts, the checks and the pins of every connection. |
| `SshGateway.RunPreserves` | crates/heterocloud-api/src/flash_ssh_gateway.rs:228-415 | The same for every sequence of events. |
| `SshGateway.PermitsAreConserved` | crates/heterocloud-api/src/flash_ssh_gateway.rs:76-133 | Over all arrivals by TCP or WebSocket, refusals, aborts and closes, free permits plus holders are constant: at most 64 connections and 8 channels each; an arrival is refused only at the limit. |
| `SshGateway.ChannelsAreCheckedAndPinned` | crates/heterocloud-api/src/flash_ssh_gateway.rs:272-415 | Every live channel had an identity check of its own, made after its opening began; all live channels of a connection run in one pod and belong to the service a WebSocket's URL named. |
| `SshGateway.PodIsPinned` | crates/heterocloud-api/src/flash_ssh_gateway.rs:277-287 | Once a connection has a pod it keeps it. |
| `SshGateway.AcceptableExactly` | crates/heterocloud-api/src/flash_ssh_gateway.rs:385-388 | A forwarded port is acceptable exactly on one of three loopback names and from 1 to 65535. |
| `SshGateway.TheGoneAreLeftAlone` | crates/heterocloud-api/src/flash_ssh_gateway.rs:228-268 | Nothing but the end of its live channels happens to a connection that is no longer served. |
| `SshGateway.Gateway.Accept` | crates/heterocloud-api/src/flash_ssh_gateway.rs:76-92 | A connection is served exactly when a permit was free; it takes that permit and disturbs no other connection. |
| `SshGateway.Gateway.Release` | crates/heterocloud-api/src/flash_ssh_gateway.rs:228-268 | However the stream ends, its permit and those of its half-open channels return, its live channels stay, no other connection changes, and all 64 and 8 permits are accounted for. |
| `SshGateway.Gateway.AuthPublicKey` | crates/heterocloud-api/src/flash_ssh_gateway.rs:294-338 | The identity is set exactly when the key is not RSA-SHA1, the name parses, matches the URL's service, the key is known and permitted, and is cleared otherwise. |
| `SshGateway.Gateway.TakeChannel` | crates/heterocloud-api/src/flash_ssh_gateway.rs:354-391 | A channel permit is taken exactly for a session or a loopback port from 1 to 65535, while fewer than 8 channels exist. |
| `SshGateway.Gateway.OpenChannel` | crates/heterocloud-api/src/flash_ssh_gateway.rs:363-415 | The channel becomes live exactly when it is accepted: an identity, a fresh permission, a pod and a connection; otherwise it is gone and its permit is back. A pod once chosen stays; a new one is the first eligible. |
| `SshGateway.Gateway.CloseChannel` | crates/heterocloud-api/src/flash_ssh_gateway.rs:422-430 | A live channel that ends is gone, its permit is back, and nothing else changed. |
| `RegistryPaging.ListRepositoryImages` | crates/heterocloud-api/src/registry.rs:211-285 | The paging loop ends and returns exactly the first 500 images of the whole listing's expansion, or the failure of the first page it had to ask for. |
| `RegistryPaging.PushPage` | crates/heterocloud-api/src/registry.rs:235-278 | One page, stopping inside it at the limit. |
| `RegistryPaging.PushArtifact` | crates/heterocloud-api/src/registry.rs:245-274 | One artifact: its tags, or its digest when it has none, up to the limit. |
| `RegistryPaging.ExpandExactly` | crates/heterocloud-api/src/registry.rs:245-274 | The images of an artifact in full: none for another kind, its digest without tags, else one per tag in order, each under authority, project and repository. |
| `RegistryPaging.EnoughIsEnough` | crates/heterocloud-api/src/registry.rs:219-283 | Once a prefix of the listing gives 500 images the rest does not matter. |
| `RegistryPaging.FullMeansNotAsked` | crates/heterocloud-api/src/registry.rs:219-283 | No page is asked for after the limit is reached. |
| `RegistryListing.ListProjectImages` | crates/heterocloud-api/src/registry.rs:194-209 | The first failure in the order given is the answer; otherwise the listing holds each reference once with its latest push, newest first, ties by reference, at most 500; below 500 nothing is missing. |
| `RegistryListing.KeepFirsts` | crates/heterocloud-api/src/registry.rs:205-206 | Keeping first occurrences of a sorted list keeps each reference's latest push. |
| `RegistryListing.CutIsListing` | crates/heterocloud-api/src/registry.rs:199-208 | Sorted, deduplicated and cut is the listing of the same images. |
| `RegistryListing.SortSorts` | crates/heterocloud-api/src/registry.rs:199-204 | Sorting gives a permutation in which nothing belongs before what precedes it. |
| `RegistryListing.ComparesExactly` | crates/heterocloud-api/src/registry.rs:199-204 | The comparison of the sort is that order: later push first, no push last, then by reference. |
| `Order.LessExactly` | crates/heterocloud-api/src/registry.rs:199-204 | A string is less than another exactly when it is a proper beginning of it or is smaller at the first difference. |
| `RegistryListing.ListingIgnoresCompletionOrder` | crates/heterocloud-api/src/registry.rs:174-209 | The sequence of references and push times is determined by the images alone. |
| `RegistryListing.CompletionOrderDoesNotShow` | crates/heterocloud-api/src/registry.rs:174-209 | Any two completion orders of the repositories give the same sequence. |
| `RegistryCredentials.StepPreserves` | crates/heterocloud-api/src/routes.rs:1136-1277 | Every step of every handler keeps rows, robots and handlers consistent, credential by credential. |
| `RegistryCredentials.RunPreserves` | crates/heterocloud-api/src/routes.rs:1136-1277 | The same for every interleaving of any number of creates and deletes, with calls failing before or after their effect. |
| `RegistryCredentials.StepTouchesOne` | crates/heterocloud-api/src/routes.rs:1136-1277 | Every step concerns one credential: no other credential's row, robots or handlers change. |
| `RegistryCredentials.SecretsAreBacked` | crates/heterocloud-api/src/routes.rs:1179-1234 | A secret is returned only for a row activated with that robot; afterwards that row is active with that robot, or dropped with the robot gone. |
| `RegistryCredentials.SecretsAreDistinct` | crates/heterocloud-api/src/registry.rs:100-135 | No two credentials are ever activated with one robot. |
| `RegistryCredentials.RowsOutliveRobots` | crates/heterocloud-api/src/routes.rs:1254-1276 | Whatever fails, an active row is dropped only by a delete of it, once its robot is gone. |
| `RegistryCredentials.RobotsDoNotReturn` | crates/heterocloud-api/src/registry.rs:325-334 | A robot that is gone stays gone in every continuation. |
| `RegistryCredentials.FinishedCreates` | crates/heterocloud-api/src/routes.rs:1179-1216 | A create that finished without losing an effect left an active row, or neither row nor live robot. |
| `RegistryCredentials.SettledMeansConsistent` | crates/heterocloud-api/src/routes.rs:1136-1277 | When all handlers have finished and none lost an effect, rows and live robots correspond one to one and every row is active. |
| `RegistryCredentials.LostAnswerLeavesRobot` | crates/heterocloud-api/src/routes.rs:1180-1193 | The condition is needed: a run in which the answer to a robot's creation is lost leaves a robot without a row. |
| `RegistryOutcomes.OutcomesDecide` | crates/heterocloud-api/src/routes.rs:1136-1277 | At every moment of every run, the outcomes of the calls made for a reserved credential decide whether its row is there, whether it is active, whether a robot was made, never two, and whether that robot lives. |
| `RegistryOutcomes.WholeExactly` | crates/heterocloud-api/src/routes.rs:1179-1216 | So a credential is an active row with its live robot, or neither, if and only if those outcomes are such; both directions, with any creates and deletes failing in any way. |
| `RegistryCredentials.ActiveRowsNameTheirRobot` | crates/heterocloud-api/src/routes.rs:1259-1259 | An active row always names its robot, so a delete never stops for the lack of one. |
| `RegistryHandlers.OwnState` | crates/heterocloud-store/src/lib.rs:1948-1968 | Until it activates its row, a create finds it provisioning and its robot alive, whatever others do: the conflict answer cannot occur. |
| `RegistryCredentials.DeletedMeansGone` | crates/heterocloud-store/src/lib.rs:2020-2037 | A delete that succeeded left neither row nor robot, for good. |
| `RegistryCredentials.NotFoundMeansGone` | crates/heterocloud-store/src/lib.rs:2020-2037 | A row that a delete no longer finds after removing the robot is gone. |
| `RegistryCredentials.CredentialsStayWithinLimit` | crates/heterocloud-store/src/lib.rs:1878-1946 | Reservations included, an organization never holds more credentials than the limits it reserved under. |
| `RegistryCredentials.CloudStaysWithinLimit` | crates/heterocloud-store/src/lib.rs:1901-1928 | Nor do the accounts of a cloud organization together exceed its limit, once that is enabled. |
| `RegistryHandlers.Registry.CreateCredential` | crates/heterocloud-api/src/routes.rs:1170-1234 | The create in sequence: it succeeds exactly when both limits have room, every call is answered and the response can be built, and each failure has its own error; a success is backed, a clean refusal leaves nothing half-made; while nobody acts on this credential, row and robot end both present or both absent exactly for the outcomes of its calls named by `CallsKeepCoherent`. |
| `RegistryHandlers.HasRoomExactly` | crates/heterocloud-store/src/lib.rs:1878-1946 | There is room exactly when the organization has fewer rows than its limit and its cloud organization, if that is enabled, fewer than its own. |
| `RegistryHandlers.Registry.MakeRobot` | crates/heterocloud-api/src/routes.rs:1179-1193 | The part under the reservation. |
| `RegistryHandlers.Registry.FinishCreate` | crates/heterocloud-api/src/routes.rs:1194-1234 | The part after the robot exists. |
| `RegistryHandlers.Registry.Compensate` | crates/heterocloud-api/src/routes.rs:1205-1215 | The two best-effort compensations, and exactly when they restore coherence. |
| `RegistryHandlers.Registry.DeleteCredential` | crates/heterocloud-api/src/routes.rs:1236-1277 | The delete in sequence: once both its calls are answered, row and robot are gone, also when another delete came first; each failure is told apart; while nobody else acts on this credential, it keeps row and robot coherent exactly when a removed robot is followed by a dropped row. |
| `RegistryHandlers.Registry.RemoveAndDrop` | crates/heterocloud-api/src/routes.rs:1260-1277 | The part of the delete that writes. |
| `BackupStatus.ValidationIsProjection` | crates/heterocloud-api/src/flash_backups.rs:24-39 | A report is accepted exactly for its own id and a known phase; what is kept is a complete safe report; exactly those pass unchanged, so validating twice is validating once. |
| `BackupStatus.VerificationIsProjection` | crates/heterocloud-api/src/flash_backups.rs:41-53 | A restore verification is kept as seven well-formed members or not at all; well-formed ones pass unchanged. |
| `BackupStatus.KeptMembers` | crates/heterocloud-api/src/flash_backups.rs:24-39 | What is kept of each member of a report: the member itself if it is safe, else nothing. |
| `BackupStatus.KeptVerification` | crates/heterocloud-api/src/flash_backups.rs:41-53 | What is kept of each member of a restore verification. |
| `BackupReconciler.StepPreserves` | crates/heterocloud-api/src/flash_backups.rs:114-211 | Every step of every reconciler and user keeps statuses safe, phases and deletion in agreement, and moves deletion forward only. |
| `BackupReconciler.RunPreserves` | crates/heterocloud-api/src/flash_backups.rs:114-211 | The same for every interleaving, with stale snapshots, failing writes and restarts. |
| `BackupReconciler.StatusesAreSafe` | crates/heterocloud-store/src/flash_backups.rs:243-259 | In every run a stored status has known members with safe values only, and the phase is deleted exactly with a time of release. |
| `BackupReconciler.DeletionIsFinal` | crates/heterocloud-store/src/flash_backups.rs:225-259 | A requested deletion is never withdrawn; a released row stays released with its first time of release, whatever stale reconcilers write. |
| `BackupReconciler.ClaimsExactly` | crates/heterocloud-store/src/flash_backups.rs:238-241 | A batch is at most 32 different rows, none released a day ago or longer, each as it is stored at the claim. |
| `BackupReconciler.DecideOk` | crates/heterocloud-api/src/flash_backups.rs:179-208 | Whatever the provider answers, what a reconciler decides to write is safe and in a known phase. |
| `BackupReconciler.OthersTakeEffect` | crates/heterocloud-store/src/flash_backups.rs:225-236 | What users, retention and restarts do to a backup: only a ready one expires, a finished deletion is not requested again. |
| `BackupReconciler.RestoresTakeEffect` | crates/heterocloud-api/src/flash_backups.rs:131-138 | A restore that is pending, or that could not be ruled out, ends the work on a backup; only a reading of none goes on to delete. |
| `BackupReconciler.DecisionsExactly` | crates/heterocloud-api/src/flash_backups.rs:179-208 | What is written after each kind of answer: a report of this backup, a refusal by status 400, 403, 404 or 409, anything else. |
| `BackupReconciler.SaysDeletedExactly` | crates/heterocloud-api/src/flash_backups.rs:139-149 | What counts as a confirmed deletion. |
| `BackupReleases.RunsAreBacked` | crates/heterocloud-api/src/flash_backups.rs:131-153 | Every reconciler about to delete or release holds the evidence for it, at every moment of every run. |
| `BackupReleases.ReleasesAreJustified` | crates/heterocloud-api/src/flash_backups.rs:131-153 | A released backup was confirmed deleted by the provider, which answered with an object whose `deleted` is true, for that same id, in a pass that had before that read that no restore of it was pending. |
| `BackupOutages.OutagesMoveNothing` | crates/heterocloud-api/src/flash_backups.rs:199-207 | An outage of any length that starts while no batch is in progress, over any number of reconcilers, passes and restarts, leaves every phase and deletion as it was; a status can only gain the flag that the provider is unavailable. |
| `BackupStaleness.PhaseTurnsBackExactly` | crates/heterocloud-api/src/flash_backups.rs:124-208 | In every run a rotation, or the write after an outage or refused report, leaves deletion alone and changes the phase exactly when no deletion is requested and the row's phase is not the one it had at the pass's claim; and then another party wrote the row in between. |
| `BackupStaleness.LoneWritesKeepPhase` | crates/heterocloud-api/src/flash_backups.rs:124-208 | If nobody else wrote the row between a pass's claim and such a write, phase and deletion stay. |
| `BackupStaleness.AnswersSetPhaseExactly` | crates/heterocloud-api/src/flash_backups.rs:179-198 | Any write after a question puts that question's decision; it changes the phase exactly when no deletion is requested and that phase is new. |
| `BackupStaleness.RunsAreTraced` | crates/heterocloud-api/src/flash_backups.rs:121-210 | At every moment of every run a pass's queue holds rows as they were at its claim, its decision is that of its last question, and a queued row is as claimed or was written by another party since. |
| `BackupStaleness.StaleRotationReverts` | crates/heterocloud-api/src/flash_backups.rs:124-129 | A run of two reconcilers in which a stale rotation turns a ready backup back to pending. |
| `BackupStaleness.StaleOutageReverts` | crates/heterocloud-api/src/flash_backups.rs:199-207 | A run in which the stale write after an outage does. |
| `BackupLoops.Backups.ReconcileBatch` | crates/heterocloud-api/src/flash_backups.rs:114-211 | One tick works through its whole batch in order, and every released row is justified. |
| `BackupLoops.Backups.ReconcileOne` | crates/heterocloud-api/src/flash_backups.rs:124-209 | The loop's body: whatever is answered, it ends with the next backup. |
| `BackupLoops.Backups.EraseOne` | crates/heterocloud-api/src/flash_backups.rs:130-153 | A pending restore, an unknown one, and any answer but an object whose `deleted` is true leave every row alone and release nothing; otherwise the row is released by one statement at the end. Undisturbed, it becomes a tombstone exactly when that answer came and the statement landed. |
| `BackupLoops.Backups.ReleaseOne` | crates/heterocloud-api/src/flash_backups.rs:148-151 | The release of a row whose deletion was confirmed: phase, time of release, empty status, nothing else. |
| `BackupLoops.Backups.AskOne` | crates/heterocloud-api/src/flash_backups.rs:154-209 | One question, then one write: of the decided status, and of the decided phase unless deletion is requested. |
| `ScheduledBackups.StepPreserves` | crates/heterocloud-store/src/flash_backups.rs:116-199 | Every step keeps requests unique, quotas kept and every attempt's row that of its slot. |
| `ScheduledBackups.RunPreserves` | crates/heterocloud-api/src/flash_operations.rs:297-391 | The same for every interleaving of attempts, users' requests, deletions and edits. |
| `ScheduledBackups.OneBackupPerSlot` | crates/heterocloud-api/src/flash_operations.rs:351-391 | However many replicas or retries attempt a slot, and wherever they stop, at most one backup exists for it. |
| `ScheduledBackups.SlotsAndIdsCorrespond` | crates/heterocloud-api/src/flash_operations.rs:351-391 | With an injective hash, two successful attempts return the same id exactly when they are of the same slot. |
| `ScheduledBackups.SuccessHasItsRow` | crates/heterocloud-api/src/flash_operations.rs:365-391 | A successful attempt's row exists under its slot's identifier. |
| `ScheduledBackups.PlaceAnswers` | crates/heterocloud-store/src/flash_backups.rs:134-154 | A successful request is answered with the row of its identifier, old or new. |
| `ScheduledBackups.OthersTakeEffect` | crates/heterocloud-store/src/flash_backups.rs:225-259 | A deletion is requested of an undeleted row and released only once requested; an attempt begins once. |
| `ScheduledBackups.PlaceExactly` | crates/heterocloud-store/src/flash_backups.rs:116-199 | What an order gets: the first under its identifier a new row exactly when it is sensible, its destination ready, its source unchanged and the limits have room; a repeated one that row exactly when it is the same order. |
| `ScheduledBackups.CountsExactly` | crates/heterocloud-store/src/flash_backups.rs:170-181 | The store's counts are the numbers of the organization's undeleted rows, in all and per service. |
| `ScheduledBackups.LostRequests` | crates/heterocloud-api/src/flash_operations.rs:365-391 | A request whose answer is lost may still have placed its order. |
| `ScheduledBackups.QuotaIsKept` | crates/heterocloud-store/src/flash_backups.rs:170-181 | In every run an organization holds at most 100 backups, 10 per service and 128 GiB. |
| `BackupScheduler.Scheduler.RunBackupPolicy` | crates/heterocloud-api/src/flash_operations.rs:297-391 | One attempt in sequence: success names the only row of the slot, attached to its policy; every refusal is the one recorded; undisturbed, its answer is exactly the one its calls' answers and the store determine. |
| `BackupScheduler.Scheduler.Book` | crates/heterocloud-api/src/flash_operations.rs:365-391 | The part of an attempt that writes. |
| `QuotaUsage.PopulateUsage` | crates/heterocloud-api/src/quota_usage.rs:12-87 | Each tenant's first row gets the total of its lookups, in place; a repeated row gets none. |
| `QuotaUsage.ShownOnce` | crates/heterocloud-api/src/quota_usage.rs:85-87 | A tenant's total is shown once, in its first row. |
| `QuotaUsage.AddUpLookups` | crates/heterocloud-api/src/quota_usage.rs:31-84 | Folding the lookups, in completion order, gives each tenant its exact total or none. |
| `QuotaUsage.AddUsageTracksTotal` | crates/heterocloud-api/src/quota_usage.rs:90-97 | One addition: failures and overflow are sticky, other tenants are untouched. |
| `QuotaUsage.TotalIgnoresOrder` | crates/heterocloud-api/src/quota_usage.rs:81-84 | The completion order does not matter. |
| `QuotaUsage.TenantsAreIsolated` | crates/heterocloud-api/src/quota_usage.rs:90-97 | No tenant affects another; a tenant without buckets has used zero bytes. |
| `QuotaUsage.StorageIsExact` | crates/heterocloud-api/src/quota_usage.rs:35-87 | In any completion order a tenant's storage is the exact sum over its buckets when each was verified and the sum fits 64 bits, and unavailable otherwise. |
| `QuotaUsage.VerifiedExactly` | crates/heterocloud-api/src/quota_usage.rs:39-66 | A lookup succeeds exactly for a ready, readable bucket of a known tenant whose provider repeats its id and quotas, and gives the bytes it tells. |
| `FlashUsage.Validate` | crates/heterocloud-api/src/flash_provider.rs:552-571 | A snapshot is accepted exactly when it is taken within its week, names no service twice and meters every item in that week. |
| `FlashUsage.CoherentExactly` | crates/heterocloud-api/src/flash_provider.rs:552-571 | The same counted: the snapshot lies in its seven days, has as many services as items, and no item is metered outside, give or take five seconds. |
| `FlashUsage.RuntimeUsage.Add` | crates/heterocloud-api/src/routes.rs:502-513 | One item added: each total stays the exact sum or the largest 64-bit number. |
| `FlashUsage.CurrentAllocation.Add` | crates/heterocloud-api/src/routes.rs:525-540 | The same for the current allocation; its products cannot overflow. |
| `FlashUsage.Summarize` | crates/heterocloud-api/src/routes.rs:543-551 | Every total is the exact sum over the items, saturated. |
| `FlashUsage.OneMoreCounts` | crates/heterocloud-api/src/routes.rs:502-540 | What one more item adds to each of the eight sums. |
| `FlashUsage.SaturatesExactly` | crates/heterocloud-api/src/routes.rs:502-513 | A total is exact up to the largest 64-bit number. |
| `FlashUsage.SumIgnoresOrder` | crates/heterocloud-api/src/routes.rs:543-551 | The order of items does not matter. |
| `FlashUsage.GroupByOrganization` | crates/heterocloud-api/src/routes.rs:604-610 | Each group holds exactly its organization's items, in order, and none is empty. |
| `FlashUsage.ServicesByTenant` | crates/heterocloud-api/src/routes.rs:611-625 | Each tenant's row gets its group, an earlier row of the same tenant first. |
| `FlashUsage.ReportedOnce` | crates/heterocloud-api/src/routes.rs:611-625 | A tenant's services are reported once, in its first row, and no other tenant's with them. |
| `FlashUsage.GroupsPartition` | crates/heterocloud-api/src/routes.rs:604-610 | Grouping loses and duplicates nothing. |
| `FlashUsage.GroupsAddUp` | crates/heterocloud-api/src/routes.rs:603-625 | The groups' exact sums add up to the platform's. |
| `FlashUsage.PlatformIsSumOfGroups` | crates/heterocloud-api/src/routes.rs:603-625 | The platform's total is the saturated sum of the groups' own saturated totals. |
| `Oidc.ReadBody` | crates/heterocloud-api/src/oidc.rs:822-844 | The body is returned exactly when all of it arrives and fits; otherwise the fault is the first chunk that breaks or does not fit. |
| `Oidc.JoinedAppends` | crates/heterocloud-api/src/oidc.rs:822-844 | A body is the concatenation of its chunks. |
| `Oidc.JoinedOne` | crates/heterocloud-api/src/oidc.rs:822-844 | No chunk is no body, and one chunk is the body. |
| `Oidc.Fetch` | crates/heterocloud-api/src/oidc.rs:783-797 | One attempt ends with what arrived or at its deadline, and has a value exactly when a bounded, parsable success came in time. |
| `Oidc.ProviderGet` | crates/heterocloud-api/src/oidc.rs:773-818 | At most two attempts, the second exactly after a retryable failure that left room, each within its deadline; the whole ends within the total budget. |
| `Oidc.GetSucceedsExactly` | crates/heterocloud-api/src/oidc.rs:773-818 | When a metadata GET succeeds, in terms of what arrives when. |
| `Oidc.DefaultAlwaysRetries` | crates/heterocloud-api/src/oidc.rs:705-714 | With the default budget every retryable first failure is retried, with at least 4.75 seconds left. |
| `Oidc.RetriesExactly` | crates/heterocloud-api/src/oidc.rs:717-760 | A second attempt is made exactly after a timeout, a transport error, a 502, 503 or 504, or a body that breaks off; not after any other status or a bad body. |
| `Oidc.GivesExactly` | crates/heterocloud-api/src/oidc.rs:773-818 | A metadata GET answers exactly what its first answer carries, or its second if the first calls for a retry, each within its time. |
| `OidcLogin.CheckCallback` | crates/heterocloud-api/src/oidc.rs:172-186 | The checks before any request pass exactly for a sized, current callback of this browser that carries a code; an error parameter of such a callback is a rejection, all else an invalid request. |
| `OidcLogin.Exchange` | crates/heterocloud-api/src/oidc.rs:189-237 | One token exchange, never repeated: a token exactly when it came in time, bounded and of valid size; a client error is a rejection, a bad size an invalid token, all else an unavailable provider. |
| `OidcLogin.CompleteLogin` | crates/heterocloud-api/src/oidc.rs:166-269 | A login sends discovery, at most one token POST with this code and verifier, then the keys, and ends within thirty seconds; it succeeds as an identity if and only if the callback is admissible and the provider's answers in time, retries included, amount to that identity; a failure has the error of the first thing to fail. |
| `OidcLogin.OneTokenExchange` | crates/heterocloud-api/src/oidc.rs:166-269 | Whatever fails, at most one token POST, after discovery and before any fetch of the keys. |
| `Tokens.ApiKeysExactly` | crates/heterocloud-api/src/routes.rs:7652-7663 | An API key parses to a prefix exactly when it is hc, that prefix of sixteen without underscore, and a secret of at least 32. |
| `Tokens.CliExactly` | crates/heterocloud-api/src/routes.rs:7692-7708 | The same for CLI tokens, whose prefix may contain underscores. |
| `Tokens.FlowExactly` | crates/heterocloud-api/src/routes.rs:6554-6570 | The same for Flow developer credentials. |
| `Tokens.OpaquesExactly` | crates/heterocloud-api/src/routes.rs:7273-7300 | Role and workload tokens: their marker, at most 256 characters, no white space, looked up whole. |
| `Tokens.AlphabetsExactly` | crates/heterocloud-api/src/routes.rs:7692-7708 | The alphabets of fragments and secrets. |
| `Tokens.LanguagesAreDisjoint` | crates/heterocloud-api/src/routes.rs:7268-7322 | Any string is taken for lookup by at most one of the five authenticators. |
| `Tokens.DispatchAgrees` | crates/heterocloud-api/src/routes.rs:7268-7322 | The dispatch takes a string exactly when one of its four authenticators does, for that one and its lookup key. |
| `Tokens.IssuedTokensParseBack` | crates/heterocloud-api/src/routes.rs:3807-3809 | Whatever its secret contains, an issued token leads back to the key it is stored under. |
| `Tokens.PrintsExactly` | crates/heterocloud-api/src/routes.rs:3807-3809 | What each issuer prints and stores. |
| `Tokens.IssuedTokensReachTheirOwn` | crates/heterocloud-api/src/routes.rs:7273-7322 | An issued token is taken by its own authenticator and no other, and dispatched there. |
| `Tokens.SplitOnceJoins` | crates/heterocloud-api/src/routes.rs:7652-7663 | Splitting at the first underscore loses nothing. |
| `Tokens.SplitOnceSplits` | crates/heterocloud-api/src/routes.rs:7652-7663 | And finds the joined parts again. |

## Left out

- IAM evaluation, service control policies and session policies: permission answers are inputs of the machines.
- HTTP, WebSocket, TLS, SSH and JSON encoding, HMAC, SHA-256 and JWT validation: functions or answers passed in.
- Events, diagnostics, audit records and outbox messages written beside a transition: they do not influence it.
- Quota, disk and network checks of `update_service_instance_checked`: one answer, `Checks`, with the ports they assign. Starting and stopping a service is an ordinary edit here.
- Claims and leases of backup policies, and the move of `next_run_at`: attempts at any slot may start at any time, which includes what the leases allow. A database error inside a background loop is a step that does not happen.
- Choosing which scheduled backups retention expires: any ready backup may be expired.
- Backup destinations' own creation, validation of their address, and the refresh loop beyond its effect on the row.
- The repository listing that precedes `list_project_images` (filter, cut to 100 repositories, relative names) and the URL builders.
- The thirty-second guard on unauthenticated SSH connections, and the duplex copy between WebSocket and SSH stream.
- Most of `routes.rs`, configuration, metrics, secret manager and network-provider clients, the console and the scripts: thin or straight-line code.
- FlashDeployments.AutomaticRollbacksAreSpaced: the API's clock and the database's are one clock that never runs backwards, and a revision is stamped with the time of the write that creates it.
- FlashDeployments.AutomaticRollbackRate: rests on the same single clock.
- FlashReads.AutomaticRollbacksReadNotReady: "never rolls back a ready revision" holds of what the observer read, not of the moment of the write, since readiness may be recorded in between.
- CredentialWriters.Destinations.Apply: a writer whose connection breaks under the lock ends there in the model; what it still sends without the lock is a stray request, and its caller's error is not told apart.
- SshChannels.SessionsObeyTheGrammar: the failure that answers each environment request (another task sends it, in no fixed order with these replies) is not in the sequence.
- SshChannels.Negotiate: whether a command is valid UTF-8 is a parameter.
- RegistryListing.SortSorts: the standard library's stable in-place sort is an insertion sort on values; images with equal keys may come in another order, which the listing does not show.
- BackupReconciler.DecisionsExactly: whether the question was the request that creates a pending backup or one that reads it is not told apart.
- BackupReconciler.ClaimsExactly: which 32 rows are oldest is not modelled; any may be claimed.
- BackupReconciler.StatusesAreSafe: `completed_at` and the time of verification are copied unfiltered, as in the original.
- Tokens.IssuedTokensParseBack: the generator is its result, 43 characters of URL-safe base64; header values are ASCII.
- OidcLogin.CompleteLogin: the signed cookie's verification and the id token's validation are functions of the provider record.
