# Verification of the session broker and its neighbours

A Dafny model of the parts of the repository that must not go wrong when processes crash,
requests race and remote answers get lost: the durable lifecycle broker, the turn state machine
of the harness adapter, the opening of a state directory, the one-shot hosted gateway, and five
exact loops (strict SSE acceptance, response events, surrogate escapes, duplicate members,
output chunking). `dafny verify dfyconfig.toml` checks everything.

## What is modelled

**Broker** (`broker/`). `Ledger` has the ownership records and the restart check, `Changes` every
change of one owner's record with its refusals, `System` the whole system: the ledger in memory and
on disk, the poison flag, the active requests, the cleanup workers, the clock, and per owner what
was sent to the remote service and what came back. One event is one critical section, one remote
exchange, or one crash; a write may succeed, fail with the old file, or fail with the new one. The
files from `Validity` to `Events` prove the invariant step by step, `Runs` for every sequence of
events. On top of it, `Theorems`, `Replies`, `Authority`, `Continuation`, `Reopening`, `Lockout`,
`Capacity` (with `Bytes` and `Growth`), `Linearity` (with `Marks`) and `Progress` state what the broker
promises.
`Process` has the broker as an object whose critical sections update its fields, with the source's
loops, each proved equal to its event; `Validation` does the same for the loops of the restart check.

**Adapter turn** (`adapter/`). `Turn` is the state under the turn's lock and every event that can take
the lock; `Invariant` holds after any sequence of them; `Theorems` says what that means for callers and
for the provider; `EndToEnd` follows its text from the provider's answers to the result; `Reconnection` says
what a caller gets that comes back while the turn goes on; `Conformance` has the repository's own frame check and proves that completed turns pass it; `TurnState` is the
object, proved equal to the events.

**State directory** (`store/`). `Initialization` is the protocol of any number of crashing processes;
`Host` is one process opening the directory by calls between which the others move, and the creation
of durable directories.

**Hosted gateway** (`hosted/`). `Gateway` is the record on file over many lifetimes; `Process` is one
lifetime, in the order in which it saves its record, creates its session and writes the bootstrap.

**Kernels** (`kernels/`). `Stream` and `Strict` (a restricted form of section 9.2 of the WHATWG HTML
Standard), `Escapes` and `Members` (sections 7 and 4 of RFC 8259), `Chunks` (section 3 of RFC 3629).

## Assumptions

- UUIDs are fresh: an event that takes one is given one that its owner has not used. Digests are
  injective: an operation or prompt digest is represented by what it digests.
- A complete response with a status of definite rejection means that the remote service did nothing
  (`internal/foundry/session.go:19`), and the HTTP client never repeats a request by itself.
- Time is a nondecreasing integer above the zero time. Timers, deadlines, cancellations and lost
  connections are steps that may be taken whenever the source's lock allows it.
- A time in the ledger is encoded in at most 37 bytes, the longest text of its format in quotes.
- A write of a ledger either replaces the file or leaves it, and a failed one may have done either.
- The ledger on disk is the one last written by this program; nobody else removes a lock file.

## Results that differ from what one might expect

- The restart check is not an invariant of the broker. A provider call ID with white space passes
  admission (`internal/broker/responses.go:548`) and fails the check
  (`internal/broker/store_validation.go:141`); a settlement of a new prompt with the zero lease time
  passes the parser (`internal/broker/protocol.go:107-117`) and fails the check
  (`internal/broker/store_validation.go:80`). `BrokerReopening.ReopenExactly` shows that these are the
  only two: the broker can reopen its ledger exactly when no event of the run wrote either, and two
  concrete runs from an empty store end with a ledger it cannot reopen.
- The end of a failed request can be refused for lack of ledger space, which leaves its prompt open
  until the next restart. `BrokerLinearity.ContinuedOnce` shows that tool results are used once all the
  same: such a refusal needs a ledger so full that nothing is admitted any more.

## Model

| member | source | states |
|---|---|---|
| BrokerTheorems.SettlementSound | internal/broker/broker.go:536-639 | After any events, crashes and restarts, every inference ever sent for a settled prompt, in memory or on disk, was sent once and was durably completed, completely rejected, or acknowledged with the session then seen idle or gone after the prompt closed |
| BrokerTheorems.RetirementSound | internal/broker/broker.go:567-637 | A retired owner either never had a creation that was not definitely refused, or exactly its recorded session was created, acknowledged and seen gone; all its prompts are settled and harmless |
| BrokerTheorems.DeletionSafe | internal/broker/broker.go:583-590 | Whenever DELETE is on its way the owner is retiring and not retired, has no ambiguous invocation, no pending creation and no active request, and the request names its own session |
| BrokerTheorems.AtMostOnce | internal/broker/responses.go:92-153 | In every run each (prompt, sequence) and each operation ID is sent at most once, each creation at most once, and at most one creation of an owner was not definitely refused |
| BrokerTheorems.MemoryRefinesDisk | internal/broker/broker.go:114-157 | While storage works memory equals disk; after a failed write every request counts as cancelled; memory never runs ahead of disk |
| BrokerTheorems.SuccessIsDurable | internal/broker/responses.go:66-90 | A request that ended in success has its completion and completed link on disk, under the identity it was accepted with |
| BrokerTheorems.StorageFailureAbsorbs | internal/broker/broker.go:146-157 | After a failed write no event but a crash changes either ledger, over any number of events |
| BrokerTheorems.AliasesExact | internal/broker/responses.go:506-522 | Response aliases and remote response IDs are in bijection per owner, every alias has its invocation in its own prompt, and every accepted invocation its alias |
| BrokerTheorems.RetirementAlwaysFits | internal/broker/broker.go:203-223 | An owner without a retirement operation is refused one exactly when the operation ID is in use: never for the number of its operations |
| BrokerRuns.RunKeeps | internal/broker/broker.go:49-157 | Over any events the system invariant is kept and both ledgers only move forwards: a pinned account stays, closing, settled, retiring and retired never revert, proofs, identities and completed links never change, leases never go back |
| BrokerRuns.Reachable | internal/broker/broker.go:49-93 | The invariant that ties ledgers, requests, cleanup workers and the remote side holds after every run from an empty store |
| BrokerRuns.ApplyKeeps | internal/broker/broker.go:114-144 | Every single event keeps the invariant and moves the ledgers forwards |
| BrokerMoves.ProcStepKeeps | internal/broker/responses.go:198-382 | Every step of a request in flight, committed or remote, keeps the invariant whatever its write comes to |
| BrokerEvents.WorkerStepKeeps | internal/broker/broker.go:567-639 | Every step of a cleanup attempt keeps the invariant, though its evidence is older than its commit |
| BrokerEvents.ReserveKeeps | internal/broker/responses.go:92-153 | Admission keeps the invariant: it finds no cleanup attempt at work for its owner, and its request starts unsent |
| BrokerEvents.RestartKeeps | internal/broker/broker.go:70-84 | Recovery keeps the invariant: no request survives it and nothing but closing is written |
| BrokerSteps.SessionAdvancesTrans | internal/broker/broker.go:313-372 | The forward order of records is transitive, so two-state facts about one commit hold over whole runs |
| BrokerSteps.ReserveStepSound | internal/broker/responses.go:102-145 | An admitted reservation yields a valid record that advances the old one and accounts for everything sent before |
| BrokerRequests.FinishCommitted | internal/broker/responses.go:565-587 | Recording the end of a request keeps the record valid and in agreement with what was sent: unsent is rejected, unknown acceptance is uncertain |
| BrokerRequests.CompletionCommitted | internal/broker/responses.go:525-563 | Completion keeps the record valid, links the response once, and leaves the prompt's latest alias at this response |
| BrokerRequests.IdentityCommitted | internal/broker/responses.go:491-523 | Acceptance records a fresh alias and a remote identity no other invocation of the owner has |
| BrokerCleanup.CleanupCommitted | internal/broker/broker.go:599-637 | A cleanup commit settles only captured prompts whose every request is finished, rejected or acknowledged and quiet, and retires only when nothing is left |
| BrokerCleanup.SettledFate | internal/broker/broker.go:545-566 | Why each request of a prompt about to be settled can no longer arrive |
| BrokerWrites.DiskWritten | internal/broker/broker.go:114-144 | The disk changes only to the ledger the event asks for, from a memory equal to disk, and only within the limit for its kind of change |
| BrokerAuthority.AuthorityKept | internal/broker/responses.go:217-226 | No event writes an intent without a live, uncancelled request of an open prompt with an unexpired lease and an owner not retiring; no event moves a lease but a renewal, by one generation, before it ran out |
| BrokerAuthority.DispatchAuthorized | internal/broker/responses.go:278-298 | Every inference ever sent was sent by an event of the run after an earlier event that put its intent on disk, with that authority |
| BrokerAuthority.CreationAuthorized | internal/broker/responses.go:217-238 | Every session creation ever sent was sent by an event of the run after an earlier event that put its intent on disk, with that authority |
| BrokerAuthority.NothingResumed | internal/broker/broker.go:70-84 | A prompt that exists while the broker is down never sends anything again, over any later events |
| BrokerReplies.ReplySound | internal/broker/broker.go:374-433 | When a working broker reports settlement or retirement as proven, every inference and creation concerned is done with, on disk |
| BrokerReplies.ReplyExact | internal/broker/broker.go:384-432 | Settlement is reported exactly when no creation is pending and the prompt (or, without one, the owner) is finished; retirement exactly when retired; blocked exactly with a pending creation or an ambiguous invocation |
| BrokerReplies.UncertainForever | internal/broker/broker.go:590-593 | Once an invocation is durably uncertain, after any further events it is still so, its prompt is unsettled, its owner not retired, and every reply about it is blocked |
| BrokerReplies.IntentForever | internal/broker/broker.go:545-593 | The same for any intent on disk whose request is no longer in flight, left by a crash or, in a running broker, by an end that found no space: nothing ever resolves it |
| BrokerReplies.AcknowledgedRenewalSound | internal/broker/broker.go:438-460 | A renewal acknowledged during a creation has its exact lease on disk, unexpired and open, and its request has sent no inference |
| BrokerLinearity.ContinuedOnce | internal/broker/responses.go:131-136 | In every run, with any crashes, failed writes and refusals for lack of space, the tool results of one response are admitted at most once |
| BrokerLinearity.OrdinaryNeedsRoom | internal/broker/broker.go:129-137 | A ledger that can no longer shrink below the limit admits no ordinary change, whatever the change would do |
| BrokerLinearity.FinishesInRoom | internal/broker/responses.go:565-592 | While there is room, the end of a request is never refused for lack of space |
| BrokerProgress.CleanupExactly | internal/broker/broker.go:536-639 | In a working broker whose ledger has room, some events of an owner's cleanup worker change the disk if and only if the owner has something closed, no active request, no pending creation and no ambiguous invocation; a plan of at most five such events then settles every closed prompt, retires a retiring owner and changes nothing else |
| BrokerProgress.CleanupAlwaysSucceeds | internal/broker/store.go:19-47 | In every disciplined run from an empty store that room is there: whenever an owner is in that state, the plan cleans it up |
| BrokerProgress.CleanupIdle | internal/broker/broker.go:541-593 | While an owner is not in that state, no sequence of events of its cleanup worker changes either ledger |
| BrokerMarks.LedgerBelow | internal/broker/broker.go:114-144 | The length below which no reserved change can bring the ledger is never less than its present length |
| BrokerMarks.SessionGrows | internal/broker/store.go:49-101 | A record that moves forwards never loses encoded length for good, but for one renewed lease and one completed link |
| BrokerContinuation.ContinuationTranslated | internal/broker/responses.go:155-196 | An admitted continuation is of the same prompt, names the provider's response, and answers each recorded provider call exactly once and no other |
| BrokerContinuation.ResultsExact | internal/broker/responses.go:174-195 | Accepted results map one to one onto the issued calls: by equal length, ownership and no repeats; outputs are passed on unchanged |
| BrokerContinuation.ContinuationAdmitted | internal/broker/responses.go:131-136 | What admitting results takes: the latest, completed response with functions of the same open prompt |
| BrokerContinuation.CallMapExact | internal/broker/responses.go:545-555 | The call map of a completion has one alias for each call and leads back to it |
| BrokerReopening.ReopenExactly | internal/broker/store_validation.go:13-147 | After any run the broker can reopen its ledger if and only if no event of the run wrote one of the two inputs that admission does not check: a call ID with white space, or a settlement of a new prompt with the zero lease time |
| BrokerReopening.ZeroSettlementLocksOut | internal/broker/store_validation.go:78-82 | A concrete first request, accepted by the parser, after which the broker cannot reopen its ledger |
| BrokerReopening.SpacedCallLocksOut | internal/broker/responses.go:546-555 | A concrete record that passes the restart check, and an admitted completion after which it does not |
| BrokerLockout.SpacedRunLocksOut | internal/broker/responses.go:546-555 | A concrete run from an empty store, one request long, after which the broker cannot reopen its ledger |
| BrokerReopening.RestartExactly | internal/broker/broker.go:49-93 | A stopped broker comes up again exactly when its ledger passes the check and its recovered form fits |
| BrokerReopening.UncleanStays | internal/broker/store_validation.go:139-144 | A ledger that fails the check is never put right by the broker itself |
| BrokerReopening.RestartCheck | internal/broker/store_validation.go:26-107 | In every reachable state the whole check comes down to those two inputs: structure, texts, links and latest aliases always pass |
| BrokerCapacity.ReserveSuffices | internal/broker/store.go:19-47 | From an empty store, while each live owner uses at most one new settlement and one new retirement key between ordinary changes, every acceptance, closing, settlement, retirement, recovery and pinning that is asked for fits into the ledger |
| BrokerCapacity.OrdinaryRoom | internal/broker/broker.go:129-132 | An ordinary change that passes the limit leaves room for two keys, one acceptance and all cleanup of every live owner |
| BrokerGrowth.ReservedGrowth | internal/broker/store.go:21-29 | No reserved change adds more to the encoded ledger than was set aside for it |
| BrokerGrowth.IdentityWeight | internal/broker/responses.go:509-521 | An acceptance adds at most two six-fold escaped identifiers of 4096 bytes, two aliases and a bare link |
| BrokerBytes.EscapedBound | internal/broker/store.go:23-25 | JSON escaping makes a text at most six times as long |
| BrokerCapacity.CapacityKept | internal/broker/broker.go:110-144 | Each event of a disciplined run keeps the space that is set aside, and leaves no finished request unrecorded |
| BrokerProcess.LedgerReserveBytes | internal/broker/store.go:36-47 | The reserve as the loop adds it up: one share for each owner not retired, and one for a principal not pinned |
| BrokerProcess.LifecycleBroker.CommitLedger | internal/broker/broker.go:114-144 | The transaction on the process's fields: limit, write, publish, or poison |
| BrokerProcess.LifecycleBroker.FailStorage | internal/broker/broker.go:146-157 | A failed write stops the process and cancels exactly the active requests |
| BrokerProcess.LifecycleBroker.constructor | internal/broker/broker.go:49-93 | Opening closes every unsettled prompt of the ledger that was read, in one commit |
| BrokerProcess.LifecycleBroker.ApplyControl | internal/broker/broker.go:313-372 | Renewal, settlement and retirement on the process's fields, with the cancellations they make |
| BrokerProcess.LifecycleBroker.ReserveInvocation | internal/broker/responses.go:92-153 | Admission on the process's fields; the owner becomes active exactly when its reservation was committed |
| BrokerProcess.ResultCall | internal/broker/responses.go:179-187 | One result is accepted exactly if it is a function call output that names an issued call, carries nothing else and is not too long |
| BrokerProcess.TranslateResults | internal/broker/responses.go:178-193 | The loop over tool results accepts exactly the lists that name every issued call once and carry nothing else |
| BrokerProcess.TranslateRequest | internal/broker/responses.go:155-196 | The whole translation with its error cases |
| BrokerProcess.LifecycleBroker.RecordResponseIdentity | internal/broker/responses.go:491-523 | Acceptance on the process's fields; a remote identity already taken is a conflict |
| BrokerProcess.RemoteIDTaken | internal/broker/responses.go:512-516 | The search finds exactly whether some response has this remote identity |
| BrokerProcess.MapCalls | internal/broker/responses.go:544-555 | The loop refuses exactly unsafe or repeated calls, and otherwise builds the call map |
| BrokerProcess.LifecycleBroker.CommitCompletedResponse | internal/broker/responses.go:525-563 | Completion on the process's fields, as an ordinary change |
| BrokerProcess.LifecycleBroker.Finish | internal/broker/responses.go:565-591 | The end of a request on the process's fields; it is no longer active whatever the write came to |
| BrokerProcess.LifecycleBroker.ClosePromptOf | internal/broker/responses.go:593-610 | A disconnect closes its prompt and cancels its own request only |
| BrokerProcess.LifecycleBroker.SweepOnce | internal/broker/broker.go:462-513 | One sweep: expired prompts closed in one commit, requests of closed prompts cancelled |
| BrokerProcess.CaptureOwner | internal/broker/broker.go:536-573 | What a cleanup attempt captures: the closed unsettled prompts, whether any invocation is ambiguous, whether all are quiet |
| BrokerProcess.CleanUp | internal/broker/broker.go:599-637 | The loops of the cleanup commit: captured prompts settled with their proofs, unfinished invocations finalized, the owner retired only with every prompt settled |
| BrokerProcess.LifecycleBroker.CommitCleanup | internal/broker/broker.go:596-639 | The cleanup commit on the process's fields, refused while a request is active |
| BrokerProcess.LifecycleBroker.ControlResponse | internal/broker/broker.go:374-433 | The reply as its loops compute it, counters included |
| BrokerProcess.LifecycleBroker.PinPrincipalDigest | internal/broker/remote.go:97-107 | On success the given account is the pinned one and no record has changed; an account pinned before is never replaced, and any other one is refused without a trace |
| BrokerTheorems.AccountPinned | internal/broker/remote.go:97-107 | Over any events the pinned account never changes, and another one is always refused |
| BrokerProcess.LifecycleBroker.IntendCreation | internal/broker/responses.go:214-227 | On success the owner was staying, the prompt open and not cancelled and its lease running, the new record is on disk, and no other record has changed; a refusal changes nothing |
| BrokerProcess.LifecycleBroker.IntendInference | internal/broker/responses.go:278-291 | On success the same held, the intent is on disk, and no other invocation or record has changed; a refusal changes nothing |
| BrokerProcess.LifecycleBroker.RecordCreation | internal/broker/responses.go:243-258 | On success the session is known under the identity it was created with, or there is none, on disk, and no prompt and no other record has changed |
| BrokerValidation.CheckLedger | internal/broker/store_validation.go:13-24 | The restart check as its loops make it accepts exactly the valid ledgers |
| BrokerValidation.CheckSession | internal/broker/store_validation.go:26-68 | One record: linking as many responses as there are means linking each exactly once |
| BrokerValidation.CheckPrompt | internal/broker/store_validation.go:70-107 | One prompt: the running maximum and latest completion of the loop are those of the definition |
| BrokerValidation.CheckInvocation | internal/broker/store_validation.go:109-147 | One invocation, and the response it links |
| BrokerValidation.LinkedExactly | internal/broker/store_validation.go:61-67 | Counting linked responses decides whether every response has exactly one invocation |
| AdapterTheorems.OnePhase | internal/adapter/adapter.go:344-525 | Under every interleaving a turn that is not over is in exactly one phase: initializing, one provider call under way, or waiting for a result still owed; the error that a continuation is already in flight cannot occur |
| AdapterTheorems.LastResultWakes | internal/adapter/adapter.go:592-683 | When the last result owed arrives, a provider call with all results is scheduled, or the turn ends |
| AdapterTheorems.ContinuationsExact | internal/adapter/adapter.go:685-745 | The maps of pending calls agree, buffered results are for pending calls, answered calls are never pending; over all continuations the outputs sent are exactly the results submitted, each once; byte and call limits hold |
| AdapterTheorems.LogGrammatical | internal/adapter/adapter.go:763-1001 | Every log is numbered from one, starts with its only TurnStarted, has its only terminal frame last exactly when finished, never exceeds the event limit, and reconnecting after any number of frames yields exactly the frames numbered higher, which complete those before |
| AdapterTheorems.TextConserved | internal/adapter/adapter.go:383-402 | A completed turn reports the concatenation of its output frames, which is the concatenation of its provider calls' texts |
| AdapterReconnection.ResumedExactly | internal/adapter/adapter.go:992-1001 | A caller that saw the first frames of a turn and comes back after any further events gets exactly the rest: the log has only grown, and the two parts are the whole of it, no frame twice |
| AdapterEndToEnd.TextEndToEnd | internal/adapter/adapter.go:383-402 | With one answer of the provider driving the callbacks of each provider call that came to a good end, there are as many rounds as answers; each round heard exactly the text callbacks of its answer and took in exactly its summary; and a completed turn reports the summaries of all the answers in a row, which is what its output frames said |
| AdapterEndToEnd.EndMatches | internal/foundry/responses.go:180-315 | The summary a provider call reports at its end is exactly what its callbacks took in, so the turn never refuses the end of a call that went well |
| AdapterTheorems.FinishedForGood | internal/adapter/adapter.go:818-853 | Nothing that arrives after the end changes the log, starts a provider call or sends a result |
| AdapterInvariant.RunInv | internal/adapter/adapter.go:145-1001 | The invariant of phases, log, calls and text holds after every sequence of events |
| AdapterAccounting.OutputsExact | internal/adapter/adapter.go:695-722 | A continuation answers each pending provider call exactly once, with the result given for it |
| AdapterAccounting.StagedExactly | internal/adapter/adapter.go:616-655 | Results are taken in all or none: exactly the fresh ones, if every other is a replay of one taken in before |
| AdapterAccounting.ReplayChangesNothing | internal/adapter/adapter.go:623-648 | Submitting results again changes nothing |
| AdapterLog.ClosedKeeps | internal/adapter/adapter.go:763-816 | The last frame is the one asked for, or a bare failure when that is too large |
| AdapterConformance.ValidateProbeFrames | conformance/conformance.go:1103-1157 | The checker's loop reports nothing exactly for the logs that conform, and its verdict is that of its three counts |
| AdapterConformance.CompletedTurnsConform | conformance/conformance.go:1103-1157 | Under every interleaving a log that ends with TurnCompleted passes that check |
| Sorting.Sort | internal/adapter/adapter.go:689-693 | The pending calls in ascending order, each once; there is only one such order |
| AdapterTurnState.TurnState.RecordFunctionCall | internal/adapter/adapter.go:527-590 | A provider call on the turn's fields, with its refusals and limits |
| AdapterTurnState.TurnState.ContinueTurn | internal/adapter/adapter.go:592-683 | Tool results on the turn's fields: staged in a loop, kept together, dispatched when complete |
| AdapterTurnState.TurnState.StageResults | internal/adapter/adapter.go:616-651 | The staging loop and the bytes it adds up |
| AdapterTurnState.TurnState.PrepareContinuation | internal/adapter/adapter.go:685-745 | The next provider call on the turn's fields, or none and the frames emitted before the failure |
| AdapterTurnState.TurnState.TextArrives | internal/adapter/adapter.go:383-402 | Text on the turn's fields, flushed when there is enough |
| AdapterTurnState.TurnState.ProviderCallEnds | internal/adapter/adapter.go:455-525 | The end of a provider call on the turn's fields, by terminal status |
| AdapterTurnState.TurnState.ProviderCallFails | internal/adapter/adapter.go:425-453 | A failed provider call on the turn's fields |
| AdapterTurnState.TurnState.FinishAsCompleted | internal/adapter/adapter.go:774-789 | The turn is over, its log goes on where it was and ends with all of the text, or with a failure that is not retryable if that is too large; the response becomes the one to continue from |
| AdapterTurnState.TurnState.FinishAsFailed | internal/adapter/adapter.go:791-805 | The turn is over and its last frame a failure, retryable only if that was asked for and no call is uncertain, no write was exposed and the turn is not observed |
| AdapterTurnState.TurnState.TimerFires | internal/adapter/adapter.go:872-888 | A turn that is over keeps its frames; otherwise all output that waited is in the log, or the turn ends with a failure that is not retryable |
| StoreInitialization.Exclusive | internal/durablestore/directory.go:11-63 | With any number of processes and crashes at most one holds the ledger, at most one ever creates the lock file and at most one publishes a first ledger |
| StoreInitialization.OnlyTheCreatorPublishes | internal/broker/store.go:112-124 | A first ledger is written only by the exclusive creator of the lock file, holding the lock |
| StoreInitialization.NeverRecreated | internal/broker/store.go:114-117 | A missing ledger whose creator is gone is never made again and never owned |
| StoreInitialization.CreatorKeepsItsRight | internal/durablestore/directory.go:42-63 | Whatever others do, a creator that found no ledger waits or holds the lock until it publishes or ends itself |
| StoreInitialization.CreatorComesNext | internal/durablestore/directory.go:49-55 | Whoever is ahead of a waiting creator can only leave; after that one step the creator gets the lock |
| StoreHost.OpenStore | internal/broker/store.go:103-136 | Opening with others moving between the calls: an owner of a ledger holding the lock, or no trace but a waiting creator |
| StoreHost.TakeFileLock | internal/durablestore/directory.go:57-62 | The retry loop answers with the first attempt that was not interrupted |
| StoreHost.ReadOrPublish | internal/broker/store.go:111-135 | With the lock: adopt a valid ledger, publish as creator, or leave a missing one missing |
| StoreHost.FileTree.MakeDirectory | internal/durablestore/directory.go:69-99 | Directories are made durable from the top: nothing exists below an entry a crash could take away |
| HostedGateway.OneShot | internal/hosted/gateway.go:49-158 | Over any lifetimes and crashes every record on file is valid, the bootstrap is written at most once and only with its exposure on file, and at most one session creation may have been accepted |
| HostedGateway.ExposedFirst | internal/hosted/gateway.go:121-131 | At the moment the bootstrap is written its exposure is on file and none was written before |
| HostedGateway.ConsumedForGood | internal/hosted/gateway.go:49-54 | Once exposure is on file no later lifetime starts, creates or writes anything |
| HostedGateway.UnknownForGood | internal/hosted/remote.go:170-174 | A creation whose outcome is unknown is never repeated, in the rest of its lifetime or in a later one |
| HostedGateway.UnansweredForGood | internal/hosted/remote.go:176-205 | A creation that gets no answer counts as possibly accepted, and after it nothing more is ever sent |
| HostedProcess.Gateway.Initialize | internal/hosted/gateway.go:71-168 | The order of an initialization on the gateway's fields; success means exposure and readiness on file and one bootstrap |
| HostedProcess.Gateway.EnsureSession | internal/hosted/remote.go:170-227 | The session found, or created by this attempt alone; an uncertain creation is never adopted |
| HostedProcess.Gateway.AccessToken | internal/hosted/remote.go:22-60 | The first token pins the account; a token of another account ends the lifetime |
| HostedProcess.Gateway.Bootstrap | internal/hosted/gateway.go:121-158 | Exposure saved first, then one bootstrap, then readiness |
| HostedProcess.Gateway.Start | internal/hosted/gateway.go:45-54 | A start is refused exactly for an invalid record or one with exposure |
| HostedProcess.Gateway.CloseGateway | internal/hosted/gateway.go:226-247 | The end of a lifetime keeps exposure on file even if its write fails |
| ResponseStream.StreamConserved | internal/foundry/responses.go:180-268 | Over every stream, refused callbacks and terminal reconciliation included, the callbacks were told exactly the text and calls of the summary, in order |
| ResponseStream.DocumentConserved | internal/foundry/responses.go:280-315 | The same for a response in one document |
| ResponseStream.TerminalTextWhole | internal/foundry/responses.go:225-247 | A completed stream's text is the whole text of its terminal output, which continues what was streamed |
| ResponseStream.StreamSummary.Apply | internal/foundry/responses.go:180-218 | One event on the summary's fields, with its callbacks in order |
| ResponseStream.StreamSummary.ApplyTerminalOutput | internal/foundry/responses.go:220-268 | Terminal reconciliation on the summary's fields: text collected, continued, and new calls added |
| ResponseStream.StreamSummary.FindCall | internal/foundry/responses.go:270-278 | Whether a call is new, the same or changed, by the search loop |
| StrictStream.ParseStrict | internal/foundry/strict_responses.go:98-235 | The parser accepts exactly the line sequences whose payloads are admissible events with one response identity, one coherent completed event, no unfinished function call, and nothing after it but one [DONE]; its summary is what the events add up to |
| StrictStream.AcceptedExact | internal/foundry/strict_responses.go:107-205 | The acceptance machine, in both directions, against the declarative form |
| StrictStream.UnfinishedMore | internal/foundry/strict_responses.go:149-180 | Pending function calls are those opened and not closed since |
| StringEscapes.ValidStringEscapes | internal/strictjson/decode.go:53-88 | On every well-formed text the scanner stays inside it and accepts exactly when every surrogate escape is in a proper pair (section 7 of RFC 8259) |
| StringEscapes.PairedMeansPaired | internal/strictjson/decode.go:74-85 | Taking pairs whole from the left decides whether every high escape is followed, and every low one preceded, by its partner |
| DuplicateMembers.CheckValue | internal/strictjson/decode.go:90-138 | The token recursion accepts exactly the values with no folded name twice in an object at any depth, and no more than 64 levels |
| OutputChunks.OutputText | internal/acp/server.go:346-364 | A text is sent in nonempty pieces of at most 32 KiB, all but the last at most three bytes shorter, that are valid UTF-8 (section 3 of RFC 3629) and concatenate to it; a failed write leaves a beginning of it |
| OutputChunks.NextCut | internal/acp/server.go:351-354 | A piece is all that is left or at most three bytes short of the limit, and ends between two characters |

## Left out

- HTTP handlers, routing, authentication and the parsing of contexts: `BrokerChanges.ParsedContext` states what the parser has established when a request reaches the broker.
- Azure tokens, JWT claims, request signing and SHA-256: accounts and digests are opaque texts.
- JSON encoding: the length of a ledger is given exactly, escapes included, except that the lengths of an owner, a prompt's identity and a time, which no reserved change touches, are parameters.
- Decoding: a strict event or a terminal document is decoded by a parameter, so a malformed one is a refusal of that parameter.
- Scheduling of cleanup (`nextReconcile`, the worker pool and its back-off): a cleanup attempt may start at any time for any owner that has none.
- Polling inside the remote stop: only that the session was seen idle, seen gone or neither.
- Normalisation of tool outputs by the agent kit (`internal/broker/responses.go:174-195`): whether the outputs were normal already is a parameter.
- Session lease texts in requests: leases are integers, and their parsing is not modelled.
- Diagnostics, metrics, redaction, configuration and command-line entry points.
- Limits on stream bytes and scanner lines in `internal/foundry`, and the tracking of bytes read: an over-long stream is a stream that ends early with an error.
- AdapterTheorems.LogGrammatical: supposes that a `TurnStarted` frame and a bare failure frame fit the frame limit, because frame lengths are a parameter of the model; the same goes for the other theorems about turns.
- Adapter: the map of turns, tombstones and pruning, runtime sessions, metadata, and the texts of provider errors; the function that names calls is a parameter.
- Hosted gateway: relays, WebSocket and HTTP/2 transport, the handshake's signatures and the process supervisor.
- Directories: two processes making the same directory at once, and files in the place of a directory.
- The rest of the conformance checker: time limits, draining and network probes.
- ACP dispatch, the prompt loop and the MCP client: of `internal/acp/server.go` only the chunking loop is modelled.
