# Proofs about the OpenSphere Console control plane

The Console's hard parts are protocols and decision engines written around a database. This project
restates nine of them in Dafny, branch by branch, and proves what they are for. Time, randomness and
the answers of the network enter as inputs of the actions, so every statement about "all runs"
quantifies over what the outside world may do.

How the files follow the program:

- `DurableOperation`, `DurableWorker`, `DurableSafety`, `DurableOutcomes`, `DurableResume`, `DurableBound`: the worker
  that carries one governed operation through its phases and calls an owner at most once. Each await point is one
  atomic step; several runs, approvals, claims, crashes and the expiry sweep interleave on one row.
- `CanonicalJson`, `JsonReading`: the canonical printer behind digests and structural comparison, over UTF-16 code
  units, and an independent reader that gets every printed value back.
- `DialogueState`, `Conversation`, `TurnProtocol`, `TurnOutcomes`, `LateHeartbeat`, `ConversationStore`: turn leases of a
  conversation and its hash-linked dialogue state; the specification, the protocol over all runs, and the store that
  updates its rows in place.
- `ImpactTraversal`, `IncidentEngine`, `Reconcile`, `CoalescingQueue`: the incident engine and the
  operational graph.
- `ReleaseNames`, `ReleaseLock`, `ReleaseTransition`, `ReleaseBuilder`: the closed component profiles, the
  two validators with their loops, and the builder that has to satisfy them.
- `BrowserSession`, `SessionSafety`, `SessionOutcomes`, `SessionHistory`, `SessionRaces`, `SessionLedger`: browser sessions
  and credential rotation by racing replicas.
- `CommandSchema`, `IncidentRelay`, `EvidenceTruncation`, `EvidenceMessage`, `EvidenceReading`, `FrameGate`: the command
  schema validator, the outbox relay, the evidence envelope with what a reader finds in it, and the terminal frame gate.
- `Outcomes`: option and result types.

The `Outcomes` modules of the three protocols tell each step from its effect: from what is asked, stored or refused
back to the one reason for it, and from there to what every history can leave in a row. Lemmas named `...Exactly`,
`...Iff` and `...SpelledOut` restate single writes, guards and tables in terms of their own, so that a slip in one of
them cannot hide behind a name it shares with a theorem; they have a row only where they say more.

A method written as the program writes it (a loop, a mutated budget, rows updated in place) is proved
against a function or predicate that says what it promises; the theorems are about that function.

Assumptions shared by the models: a database transaction or a single conditional statement is atomic,
clocks do not run backwards, lease ids are fresh, an encryption never repeats a ciphertext, and digests
are an arbitrary function, injective where a statement says so. A JSON object never repeats a key.

## What turned out not to hold

Where the code does not meet a natural reading of its own promise, the model keeps the code, a lemma gives a
history that breaks the promise, and another says for all histories exactly when it is broken.

- Terminal phases of an operation are not quite final. The claim function's sweep marks an overdue early row
  `timed_out` without taking it from its holder, whose pending write then moves it on
  (`TerminalLeftOnlyOverSweep`, `SweptMarkCanBeOverwritten`). Phase changes stay bounded all the same, by twelve
  (`AtMostTwelveChanges`, `TwelveChangesHappen`).
- A resumed run cannot always return. From `executing`, which the claim statement itself never hands out, it has no
  receipt to digest; denied in `ambiguous` it asks for
  an edge the phase table lacks; with an unusable key it asks to block a phase that cannot be blocked. Then it throws
  (`ResumedRunThrows`), and in every other case it can return (`ResumedRunReturnsIff`).
- A component release can never leave a base installed before OSDST, though such a base is valid
  (`EveryProfileHasABase`): the validator admits only a registry introduction (`TransitionKeepsProfile`). Every other
  valid base can be moved (`MovableIff`).
- The store refuses a derived incident transition exactly when the writer lost its epoch
  (`StoreRefusesOnlyStaleWriters`). A sighting lost that way does not delay a resolution
  (`RefusedSightingIsForgotten`).
- An outbox row stays claimed for good once no worker handles it any more: the worker died, or its own `failed`
  call did (`ClaimLeavesIffHandled`, `CrashOrphansClaim`, `FaultsOrphanClaim`).
- Two turns of a conversation can be live at once if a heartbeat passes its expiry test before the lease ends and
  commits after another turn has begun (`LateHeartbeatIff`, `LateHeartbeatHappens`); the turn theorems take a
  heartbeat for one instant.
- A credential that lands between the last re-read and the revocation is revoked with its family
  (`RevocationLosesCredentialIff`, `RevocationHitsPeersCredential`), and a session that was revoked while a peer
  refreshed it may still answer one request (`AnswerIsClosedIff`, `AnswersOnRevokedSession`).
- The frame gate's limits of 60 frames and 64 KiB are per fixed window; a sliding second can hold exactly twice as
  much (`SlidingWindowBound`, `SlidingWindowBoundIsReached`).

## Model

| member | source | states |
|---|---|---|
| DurablePhases.TransitionClimbs | apps/console-api/runtime/r2d2-durable-operation.js:5-20 | Along the transition table a phase either stays or climbs an acyclic rank, and a terminal phase has no way out |
| DurableAuthorization.AuthorizeMeetsPromise | apps/console-api/runtime/r2d2-durable-operation.js:241-268 | The chain of checks and the approver loop allow execution exactly when the actor's session is live, unchanged and permitted, assurance is recent for that actor or for a different live approver who delegates it, and 1 (R2) or 2 (R3) distinct aal2 approvers stand unrevoked; the token handed to the owner is the session entitled to it; every refusal is one of two phases |
| DurableOutcomes.DenialIsNamed | apps/console-api/runtime/r2d2-durable-operation.js:241-268 | A denial names its reason, and blocks the preflight for a lost right but expires the authorization for a lost session, revision or assurance |
| DurableAuthorization.PreflightMeansExactTarget | apps/console-api/runtime/r2d2-durable-operation.js:270-277 | The preflight check passes exactly on a fresh, complete reading whose uid, generation, resource version and desired revision match what the operation names |
| DurableSafety.AdvanceKeepsRun | apps/console-api/runtime/r2d2-durable-operation.js:295-410 | Every step keeps what a run has established on its way to the owner call: which verdict, live reading and deadline check it holds, and that `executing` was persisted before; what each later answer leads to is `StepIsTold` |
| DurableOutcomes.StepIsTold | apps/console-api/runtime/r2d2-durable-operation.js:313-449 | Every step of a waiting run told by its effect: it asks for a phase only for the stated reason and with the stated continuation, comes to each point only by the stated answers, throws only for the stated failures, and learns nothing else |
| DurableOutcomes.AskedOnce | apps/console-api/runtime/r2d2-durable-operation.js:313-449 | No step has reasons to ask for two phases, so the reasons of `StepIsTold` are also sufficient |
| DurableSafety.ReachableInv | apps/console-api/runtime/r2d2-durable-operation.js:295-449 | Over every interleaving of approvals, claims, sweeps, crashes and run steps: at most one run ever persisted `executing`, and no claim holder believes in an earlier phase afterwards |
| DurableSafety.AtMostOneOwnerCall | apps/console-api/runtime/r2d2-durable-operation.js:339-410 | However many runs, crashes and lease losses: the owner is invoked at most once, and that call was preceded in its own run by full authorization, an exact live target, a stable key and an unexpired last deadline check |
| DurableOutcomes.AlwaysInHand | apps/console-api/runtime/r2d2-durable-operation.js:367-440 | Over every history each run is in the phase its point requires: it awaits the owner in `executing` and is at verification in `verifying` with a receipt |
| DurableOutcomes.LastAnswerDecides | apps/console-api/runtime/r2d2-durable-operation.js:313-449 | Over every history, a phase write that lands stores exactly what the run asked for at its last wait |
| DurableOutcomes.StoredForAReason | apps/console-api/runtime/r2d2-durable-operation.js:403-444 | A run stores `succeeded` or `verification_failed` only after that word of the verifier with a receipt in hand, and `failed` only after an error of its own owner call or of the heartbeat behind it |
| DurableOutcomes.AnswerIsWhatIsStored | apps/console-api/runtime/r2d2-durable-operation.js:403-444 | Conversely, if the next write after such an answer lands, it stores that phase: by the verifier's word, `ambiguous` for an ambiguous error, `failed` for any other |
| DurableOutcomes.SucceededWasVerified | apps/console-api/runtime/r2d2-durable-operation.js:439-444 | From any phase that is not terminal, a row stands at `succeeded` (or `verification_failed`) only if some run was told so by the verifier with a receipt in hand and then wrote it |
| DurableOutcomes.AnswerReachesRow | apps/console-api/runtime/r2d2-durable-operation.js:403-444 | In any reachable state the claim holder's answer reaches the row when its lease check and write follow undisturbed |
| DurableSafety.TerminalLeftOnlyOverSweep | backend/supabase/migrations/0051_r2d2_engineering_worker_isolation.sql:8-54 | From any invariant state one action leaves a terminal phase exactly when it is the delayed write of a claim holder over a sweep's mark; every other change of phase climbs, the re-queueing of an approved row included |
| DurableSafety.AtMostNineChanges | apps/console-api/runtime/r2d2-durable-operation.js:295-449 | If the sweep never marks a row whose holder is between lease check and write, no terminal phase is ever left and the row changes phase at most nine times |
| DurableBound.AtMostTwelveChanges | backend/supabase/migrations/0051_r2d2_engineering_worker_isolation.sql:8-54 | With the claim statement as it is, a row changes phase at most twelve times in any interleaving, however the sweep falls |
| DurableBound.TwelveChangesHappen | apps/console-api/runtime/r2d2-durable-operation.js:313-449 | A concrete history with twelve changes, its three early writes each swept in between |
| DurableSafety.SweptMarkCanBeOverwritten | apps/console-api/runtime/r2d2-operation-api.js:331-378 | A concrete run in which the expiry sweep marks a row `timed_out` and the holder's pending write moves it on to `preflighting` |
| DurableResume.ResumedRunReturnsIff | apps/console-api/runtime/r2d2-durable-operation.js:343-444 | For every operation, uncertain phase and reading: some history has a run handed that phase and so judged return a result, if and only if the phase is not `executing`, a denial did not meet `ambiguous`, and an allowance met a usable key |
| DurableResume.ResumedRunNeverFinishes | apps/console-api/runtime/r2d2-durable-operation.js:343-444 | In no interleaving does any other resumed run return, nor any before it is judged |
| DurableResume.ResumedRunReturns | apps/console-api/runtime/r2d2-durable-operation.js:421-444 | A history in which such a run returns, for each case that admits it |
| DurableResume.ResumedRunThrows | apps/console-api/runtime/r2d2-durable-operation.js:367-384 | A history in which any other resumed run throws although no call around it fails |
| CanonicalPrinter.CanonicalJsonDecidesEquiv | apps/console-api/runtime/platform-release-contract.js:113-120 | Two JSON values print alike exactly when they are equal up to the order of object keys, at every depth |
| CanonicalPrinter.Reads | apps/console-api/runtime/platform-release-contract.js:113-120 | A printed value can be read back from the front of any text that continues legally: the printer is injective and self-delimiting |
| JsonReading.ValueIsRead | apps/console-api/runtime/platform-release-contract.js:113-120 | A reader of JSON text that knows nothing of the printer reads every printed value back, whatever follows it: the same value up to key order, every object with its keys in ascending code-unit order |
| JsonReading.QuoteIsRead | apps/console-api/runtime/platform-release-contract.js:113-120 | That reader gets every string back from its quoted form |
| JsonReading.EscapesOnlyWhatItMust | apps/console-api/runtime/platform-release-contract.js:113-120 | Only quotes, backslashes, control characters and lone surrogates are escaped, the common ones by one letter |
| JsonReading.LeIsLexicographic | apps/console-api/runtime/platform-release-contract.js:115-117 | The key order is lexicographic by code units |
| JsonText.QuoteReads | apps/console-api/runtime/platform-release-contract.js:113-120 | A quoted string, escaped as in section 7 of RFC 8259 with lone surrogates escaped, can be read back from the front of any text |
| KeyOrder.SortedUnique | apps/console-api/runtime/platform-release-contract.js:113-120 | A sorted key list is determined by the keys it holds |
| CanonicalPrinter.SameComponentIgnoresKeyOrder | apps/console-api/runtime/platform-release-contract.js:379-381 | Reordering the fields of an entry is invisible to the comparison |
| DialogueState.DecimalInjective | apps/osdst/dialogue-state.js:70-86 | Revision numbers are told apart by their decimal text |
| DialogueState.LinkedEquiv | apps/osdst/dialogue-state.js:70-86 | Equal digest inputs have equal revision, equal previous digest and equal material up to key order |
| DialogueState.BuildExtendsChain | apps/osdst/dialogue-state.js:70-86 | A transition built from the projection extends the stored chain by one gapless link and is the next projection |
| DialogueState.ChainsAgree | apps/osdst/dialogue-state.js:9-19 | With an injective hash, two chains of one conversation that end in the same digest have the same length and the same states and links throughout |
| TurnProtocol.ReachableInv | apps/osdst/conversation-store.js:297-551 | Over every sequence of begins, completions, failures, heartbeats, reaps, recoveries and waiting: rows keep their legal shapes, the live turn's grant is the stored projection, answers match completions, the log is a chain |
| TurnProtocol.OneLiveTurn | apps/osdst/conversation-store.js:297-421 | A conversation never has two pending turns with unexpired leases |
| TurnProtocol.CommitNeverConflicts | apps/osdst/conversation-store.js:146-197 | With a coherent log a dialogue commit is never refused for its revision, its link or its turn |
| TurnProtocol.CommitSeesGrantedContext | apps/osdst/conversation-store.js:297-498 | Whenever a lease is still held, the projection locked by the commit is the one handed out at begin, and completion fails only for a bad candidate or a bad answer |
| LateHeartbeat.LateHeartbeatIff | apps/osdst/conversation-store.js:524-551 | A heartbeat checked in a reachable state and committed after any actions on other rows makes two turns live exactly when another one has become live by then and its own new lease has not run out |
| LateHeartbeat.LateHeartbeatHappens | apps/osdst/conversation-store.js:524-551 | A concrete history in which it does |
| TurnProtocol.LogIsChain | backend/supabase/migrations/0071_osaa_dialogue_state_transition.sql:133-185 | The transition log is always a gapless chain 1..n whose last entry the projection restates |
| TurnProtocol.AttemptsAndSequences | apps/osdst/conversation-store.js:338-421 | Attempts stay between 1 and 5 and all sequence numbers of a conversation are distinct |
| TurnProtocol.ExecuteIsStable | apps/osdst/conversation-store.js:297-551 | Over any later actions content bindings, sequence numbers, answers, grants and log only grow, and new sequence numbers exceed all earlier ones |
| TurnProtocol.AnswerIsFinal | apps/osdst/conversation-store.js:423-498 | Each request is completed at most once; its content binding and stored answer never change afterwards |
| TurnProtocol.LaterBeginReplays | apps/osdst/conversation-store.js:297-386 | After a completion, any later begin of that request which passes the earlier checks replays exactly the stored answer and changes nothing |
| ConversationStore.Conversation.BeginTurn | apps/osdst/conversation-store.js:297-421 | The rows after a begin are those the protocol theorems speak about; it is refused, leaving every row as it was, for the first of the listed reasons that holds, and a started turn is held by the caller for exactly the content it sent |
| TurnOutcomes.FirstReasonRefuses | apps/osdst/conversation-store.js:297-376 | A begin is refused for the first reason that holds, in order, and starts when none does |
| TurnOutcomes.StartedTurnIsGranted | apps/osdst/conversation-store.js:363-420 | What a started begin writes: its own row with the sent content, a lease of 120 s, the next attempt and, for a new request, the next sequence number; nothing else |
| TurnOutcomes.ReusedRequestConflicts | apps/osdst/conversation-store.js:347-353 | Over every reachable state and past the earlier checks, a request is refused as a conflict, with nothing written, exactly when it is stored unanswered under other content |
| TurnOutcomes.OneContentPerRequest | apps/osdst/conversation-store.js:347-374 | Over every history all turns started for one request are for the same content |
| TurnOutcomes.OnlyHolderCompletes | apps/osdst/conversation-store.js:423-447 | A completion is refused exactly when the conversation is gone, the lease is not held or the candidate is bad; whatever is refused leaves every row as it was |
| TurnOutcomes.CompletionAnswersItsTurn | apps/osdst/conversation-store.js:448-490 | What a completion writes: the answer and the closed turn of its own request, and one log entry exactly when there is material |
| ConversationStore.Conversation.CommitTransition | apps/osdst/conversation-store.js:146-197 | The log and projection after a commit, with every refusal |
| ConversationStore.Conversation.CompleteTurn | apps/osdst/conversation-store.js:423-498 | The rows after a completion, rolled back whole when the commit or the answer is refused |
| ConversationStore.Conversation.FailTurn | apps/osdst/conversation-store.js:500-522 | Only the holder of the lease closes a pending turn |
| ConversationStore.Conversation.HeartbeatTurn | apps/osdst/conversation-store.js:524-551 | Only an unexpired holder extends its lease |
| ConversationStore.Conversation.NextFreeSequence | apps/osdst/conversation-store.js:376-386 | One more than the largest sequence number in use |
| ConversationStore.ContextWindow | apps/osdst/conversation-store.js:105-119 | Filter, sort and loop together return the longest suffix of the shown history that fits with the current message, followed by that message |
| ConversationStore.HistoryIsOrdered | apps/osdst/conversation-store.js:106-108 | Filter and sort leave exactly the completed user and assistant rows, as often as they came, in ascending sequence |
| ConversationStore.WindowIgnoresRowOrder | apps/osdst/conversation-store.js:106-108 | With distinct sequence numbers the window does not depend on the order in which rows are given |
| ConversationStore.WindowFitsProvider | apps/osdst/conversation-store.js:105-119 | With a non-empty current message of legal length the window never exceeds the message and character budgets |
| ImpactTraversal.Forward | apps/osaa-gateway/incident-engine.js:88-93 | The adjacency map lists, in order, the targets of the allowed relations |
| ImpactTraversal.TargetsKeepOrder | apps/osaa-gateway/incident-engine.js:88-93 | Targets stand in the order of their relations |
| ImpactTraversal.Search | apps/osaa-gateway/incident-engine.js:94-107 | The loop ends on every graph, cycles included, with the search invariant and with the queue drained or the node limit reached |
| ImpactTraversal.BoundedImpactTraversal | apps/osaa-gateway/incident-engine.js:85-109 | Each node is reported once, along a real path of allowed relations, with its true shortest distance; no node closer than the last one is missing; when not bounded, exactly the nodes within the depth are reported |
| ImpactTraversal.HeadIsShortest | apps/osaa-gateway/incident-engine.js:94-107 | An unvisited head of the queue is at its true distance |
| ImpactTraversal.Frontier | apps/osaa-gateway/incident-engine.js:94-107 | On any path from the primary node, its end is already reported in time or some queued node is no farther |
| IncidentEngine.TablesAgree | backend/supabase/migrations/0066_osaa_incident_transition_convergence.sql:8-19 | The transition table in the database and the one in the engine allow the same steps |
| IncidentEngine.DerivedObeysTable | apps/osaa-gateway/incident-engine.js:38-83 | Every derived status is a step of the transition table, and a new incident starts detected |
| IncidentEngine.SilentStepChangesNothing | apps/osaa-gateway/incident-engine.js:38-83 | A derivation without an event changes neither status nor severity |
| IncidentEngine.StoreRefusesOnlyStaleWriters | backend/supabase/migrations/0047_r2d2_incident_risk.sql:114-187 | A derived transition is refused by the store exactly when the writer lost its epoch; neither the table nor the watermark check ever refuses one, and an accepted one takes the next sequence number |
| IncidentEngine.StaleWritersLeaveNoTrace | backend/supabase/migrations/0047_r2d2_incident_risk.sql:141-143 | Over any history the incident is what the signals of current writers alone make of it |
| IncidentEngine.RefusedSightingIsForgotten | apps/osaa-gateway/r2d2-operational-runtime.js:343-360 | A concrete history: a sighting refused by the store twenty seconds before does not keep the incident from resolving |
| IncidentEngine.ResolutionIsEarned | apps/osaa-gateway/incident-engine.js:66-83 | An incident resolves only after an absent, usable signal began recovery, every configured signal that reached the store since was usable and absent, the stable time has passed and the watermark is newer |
| IncidentEngine.ResolvesIff | apps/osaa-gateway/incident-engine.js:66-83 | A signal resolves an incident exactly when the incident is recovering and the signal is usable, absent, stored by a current writer, a stable period after recovery began and under a newer watermark |
| IncidentEngine.QuietBeforeResolution | apps/osaa-gateway/incident-engine.js:66-83 | With signals in time order, everything that reached the store in the stable interval before a resolution was quiet |
| IncidentEngine.SuspendedUntilReappears | apps/osaa-gateway/incident-engine.js:48-65 | A suspended incident stays exactly as it is until a usable sighting of the condition reaches the store |
| IncidentEngine.OutboxIsGapless | apps/osaa-gateway/r2d2-operational-runtime.js:343-360 | Over any history the outbox is numbered 1..n, starts with detected, steps along the table and ends in the stored status |
| IncidentEngine.SeverityNeverFalls | apps/osaa-gateway/incident-engine.js:53-65 | Over every history severity never falls: a usable sighting that reaches the store leaves the worse of the stored and the reported one, any other signal the stored one |
| IncidentEngine.SightingRaises | apps/osaa-gateway/incident-engine.js:53-60 | Over every history a usable sighting leaves the worse severity and its status by the activation count: a detected or suspended incident becomes active exactly when the repeat count (1 if missing) reaches it (2 if missing) |
| IncidentEngine.SightingIsAnnounced | apps/osaa-gateway/incident-engine.js:59-64 | Which event a sighting is stored under, a worse severity before a resumption or an activation, and that one with nothing to announce changes nothing |
| IncidentEngine.UnsightedMoves | apps/osaa-gateway/incident-engine.js:48-79 | Any other signal short of a resolution: lost sight suspends, sight of nothing begins recovery, all else changes nothing |
| IncidentEngine.OpensAtFirstSighting | apps/osaa-gateway/incident-engine.js:38-47 | An incident opens, detected and with the reported severity, exactly at the first sighting that reaches the store |
| ProjectionVersion.CompareProjectionVersion | apps/osaa-gateway/operational-graph.js:136-143 | The loop computes the lexicographic comparison of the three counters |
| ProjectionVersion.GuardIsCompare | apps/osaa-gateway/r2d2-operational-runtime.js:155-156 | The SQL row guard accepts an update exactly when the in-process comparison does not find it older |
| ProjectionVersion.CompareIsTotalOrder | apps/osaa-gateway/operational-graph.js:136-143 | The comparison is antisymmetric, transitive and zero exactly on equal counters |
| Reconcile.GraphStore.Reconcile | apps/osaa-gateway/r2d2-operational-runtime.js:128-216 | The tables after a pass, rolled back whole when a trigger or the completion function refuses; an unlisted node that no source reports as configured and complete is untouched, and after a commit the live nodes of an authority so reported are those listed |
| Reconcile.GraphStore.UpsertAll | apps/osaa-gateway/r2d2-operational-runtime.js:143-187 | The two loops leave what the row-by-row specification of the guarded upserts says |
| Reconcile.GraphStore.ClaimObserverEpoch | backend/supabase/migrations/0046_r2d2_operational_graph.sql:198-218 | A new leader takes the next epoch |
| Reconcile.CommitsExactly | backend/supabase/migrations/0060_r2d2_reconcile_live_node_count.sql:7-54 | A pass commits exactly when it holds the current epoch, lists each node once and none older than stored, and would close nothing newer than itself |
| Reconcile.CountMeansAllWritten | backend/supabase/migrations/0060_r2d2_reconcile_live_node_count.sql:26-33 | The completion count matches exactly when the listed ids are distinct and every one was written |
| Reconcile.ListedNodeIsWritten | backend/supabase/migrations/0060_r2d2_reconcile_live_node_count.sql:26-33 | After a committed pass every listed node is live and carries what the pass observed |
| Reconcile.UpsertNodesRow | apps/osaa-gateway/r2d2-operational-runtime.js:143-156 | After the node loop a row is written exactly when it is listed and some listed item is not older, and is otherwise untouched |
| Reconcile.UpsertRelationsRow | apps/osaa-gateway/r2d2-operational-runtime.js:172-187 | The same for relations, whose guard has no stream sequence |
| Reconcile.FencedRowsUntouched | apps/osaa-gateway/r2d2-operational-runtime.js:143-202 | No pass changes a node or relation stored under a higher fencing epoch |
| Reconcile.DeposedLeadersChangeNothing | backend/supabase/migrations/0046_r2d2_operational_graph.sql:176-193 | Over any history of leaders, passes with an epoch below the current one change no node, relation or session |
| Reconcile.VersionsNeverFall | backend/supabase/migrations/0056_r2d2_relation_monotonicity.sql:6-20 | No pass loses a node or relation or lowers its version |
| Reconcile.HistoryKeepsVersions | backend/supabase/migrations/0056_r2d2_relation_monotonicity.sql:6-20 | The same over any history of leaders and passes, with every row within the current epoch |
| Reconcile.CompleteAuthorityIsInventory | apps/osaa-gateway/r2d2-operational-runtime.js:188-195 | After any committed pass the live nodes of an authority are exactly those listed under it when some source of the inventory reports it as configured and complete, or when no sources are given and it is Kubernetes |
| Reconcile.IncompleteAuthorityUntouched | apps/osaa-gateway/r2d2-operational-runtime.js:188-195 | An unlisted node whose authority no source of the inventory reports as both configured and complete is untouched by any pass |
| Reconcile.UnlistedNodeRow | apps/osaa-gateway/r2d2-operational-runtime.js:188-195 | A node closed by a committed pass takes the version of the pass and keeps what was last observed; any other unlisted row stays as it is |
| Reconcile.UnlistedRelationRow | apps/osaa-gateway/r2d2-operational-runtime.js:196-202 | The same of relations, closed exactly when no configured source has a gap |
| Reconcile.RelationsAreInventory | apps/osaa-gateway/r2d2-operational-runtime.js:172-202 | Over every history from the empty graph in which clocks do not run backwards, after a committed pass every listed relation is live; the others are closed when every source was complete, and untouched otherwise |
| Reconcile.OlderListingIsRolledBack | backend/supabase/migrations/0060_r2d2_reconcile_live_node_count.sql:26-33 | A pass that lists a node with an older version than stored is rolled back whole |
| ReleaseNames.CanonicalListIff | apps/console-api/runtime/platform-release-contract.js:254-276 | A list equals the sort of its own distinct members exactly when it is strictly sorted |
| ReleaseNames.CountedProfile | apps/console-api/runtime/platform-release-contract.js:154-191 | Equal length with every expected name present is equality of name sets |
| ReleaseNames.InstalledComponentProfile | apps/console-api/runtime/platform-release-contract.js:154-191 | The profile found is the one profile whose names are exactly the installed ones; retired profiles only for an installed base |
| ReleaseLock.CheckCanonicalSet | apps/console-api/runtime/platform-release-contract.js:254-276 | A change list is accepted exactly when it is strictly sorted and holds allowed names only |
| ReleaseLock.CheckEntries | apps/console-api/runtime/platform-release-contract.js:302-329 | The entry loop accepts exactly canonical exact-digest images at well-formed revisions, pinned to the lock's revision where the scope demands |
| ReleaseLock.ValidateReleaseLock | apps/console-api/runtime/platform-release-contract.js:193-377 | The early throws accept exactly the locks with a sound envelope, a declared scope, sound entries in one closed profile, artifacts in order, and a digest that seals them |
| ReleaseLock.SealCovers | apps/console-api/runtime/platform-release-contract.js:122-141 | With an injective hash, locks under one digest agree in everything the digest is meant to fix |
| ReleaseLock.AcceptedLockSays | apps/console-api/runtime/platform-release-contract.js:193-377 | Whatever is accepted is a sealed edge release under local trust, every entry an exact digest in the repository its name is published in |
| ReleaseLock.AcceptedScopeSays | apps/console-api/runtime/platform-release-contract.js:228-281 | Whatever is accepted for a component scope names a base and lists its changes sorted and known, the shell's controller and runtime only together with the command line artifacts; an integrated lock lists nothing |
| ReleaseTransition.CheckListed | apps/console-api/runtime/platform-release-contract.js:413-422 | The comparison loop accepts exactly when the listed names are the ones whose entries differ |
| ReleaseTransition.ValidateReleaseTransition | apps/console-api/runtime/platform-release-contract.js:383-454 | The validator accepts exactly the pairs of valid locks where the target names its base and lists exactly what differs, with the console index, registry and agent identity introductions |
| ReleaseTransition.AcceptedMoveSays | apps/console-api/runtime/platform-release-contract.js:383-454 | An accepted component lock names the release it moves from and lists exactly the entries that differ from it, under their old names in a cutover |
| ReleaseBuilder.Replace | apps/console-api/runtime/platform-release-contract.js:517-552 | The replacement loop fails exactly when an item is malformed; otherwise every listed entry is published under its own repository at the given digest and revision, with the evidence's flag, else the installed one, else false, and every other entry is kept |
| ReleaseBuilder.IndexGoesLast | apps/console-api/runtime/platform-release-contract.js:536-552 | A newly introduced console index artifact lands where the validator's ordered list expects it |
| ReleaseBuilder.MergedProfile | apps/console-api/runtime/platform-release-contract.js:154-191 | Replacing listed entries leads from each installed profile to its supported one exactly when OSDST or the registry, if missing, are listed |
| ReleaseBuilder.TransitionDecided | apps/console-api/runtime/platform-release-contract.js:383-454 | The independent validator accepts an assembled lock exactly when the evidence was buildable |
| ReleaseBuilder.BuildComponentReleaseLock | apps/console-api/runtime/platform-release-contract.js:488-576 | The builder succeeds exactly on buildable evidence; the lock passes the transition validator, names its base, its sorted changes and its date, and holds the evidence's entries where listed (flags falling back to the installed entry, under its old name in a cutover) and the installed ones elsewhere |
| ReleaseBuilder.BuiltIsDelivered | apps/console-api/runtime/platform-release-contract.js:511-552 | What each entry of a built lock is, for components and artifacts |
| ReleaseBuilder.UnchangedIff | apps/console-api/runtime/platform-release-contract.js:434-453 | When a listed entry would equal the installed one: same digest and revision, and an installed flag that is set and not contradicted; an entry without a flag always changes |
| ReleaseBuilder.TransitionKeepsProfile | apps/console-api/runtime/platform-release-agent-identity-cutover.js:1-63 | Every accepted component transition, built or hand-written, moves the current profile to itself and a historical base to the canonical one; a base from before OSDST has none |
| ReleaseBuilder.EveryProfileHasABase | apps/console-api/runtime/platform-release-contract.js:154-191 | Each of the five profiles has a valid installed base |
| ReleaseBuilder.MovableIff | apps/console-api/runtime/platform-release-contract.js:479-574 | Some evidence moves a valid base exactly when OSDST is installed in it |
| SessionSafety.ReachableInv | apps/console-api/runtime/browser-session.js:241-721 | Over every interleaving of replicas: expiries stay ordered, credentials in flight are nobody's yet, overwritten ones are in no row |
| SessionHistory.ClosedIsFinal | apps/console-api/runtime/browser-session.js:241-271 | Expired and revoked rows never change again in any column |
| SessionHistory.AbsoluteExpiryIsFixed | apps/console-api/runtime/browser-session.js:657-721 | Owner and absolute expiry never change, idle expiry never exceeds the absolute one, status never goes back |
| SessionHistory.CredentialNeverReturns | apps/console-api/runtime/browser-session.js:381-398 | A refresh ciphertext held at two moments was held throughout |
| SessionHistory.RotationReplacesItsOwn | apps/console-api/runtime/browser-session.js:381-398 | A refresh stores its credential only over an active row still holding the ciphertext it started from, and touches nothing else |
| SessionHistory.OneRotationPerCredential | apps/console-api/runtime/browser-session.js:332-409 | However many replicas race with one refresh credential, at most one rotation from it is ever stored |
| SessionHistory.FamilyRevokedOnlyAfterRefusal | apps/console-api/runtime/browser-session.js:354-369 | A refresh comes to revoke a family only after an explicit 400 or 401, and after each of four durable re-reads found the starting ciphertext |
| SessionHistory.FamilyRevocationIsExact | apps/console-api/runtime/browser-session.js:281-304 | The revocation closes every live row of the family, keeps its columns, and leaves all other rows alone |
| SessionHistory.OnlySecondFactorActivates | apps/console-api/runtime/browser-session.js:678-721 | In any state and step, a pending row becomes active only when its own second-factor request stores the verified aal2 credential |
| SessionHistory.RevocationHitsPeersCredential | apps/console-api/runtime/browser-session.js:281-319 | A concrete history from an empty ledger in which this happens |
| SessionRaces.RevocationMeetsNewCredentialIff | apps/console-api/runtime/browser-session.js:354-369 | Over every history, at the revocation the row holds another ciphertext than the refused one exactly when a rotation or a second factor's credential landed in it after the fourth re-read |
| SessionRaces.RevocationLosesCredentialIff | apps/console-api/runtime/browser-session.js:281-304 | The revocation takes such a credential away exactly when one landed and the row is still live and of the family |
| SessionHistory.AnswerWasActive | apps/console-api/runtime/browser-session.js:507-574 | Over every history a request goes on only with a row first read as active and unexpired (pending and unexpired for the second factor) |
| SessionOutcomes.StepIsTold | apps/console-api/runtime/browser-session.js:332-433 | Every step of a request told by its effect: which calls it comes to by which answers, when it ends, and which row it answers with |
| SessionOutcomes.StepWrites | apps/console-api/runtime/browser-session.js:247-433 | What a step writes in each row of the ledger, and that a step that faults writes nothing |
| SessionOutcomes.BeginsWith | apps/console-api/runtime/browser-session.js:507-530 | A request starts on an active row (a pending one for the second factor), and an expired one is only marked |
| SessionOutcomes.WorksOnlyConfirmed | apps/console-api/runtime/browser-session.js:507-574 | Over every history a request does its work only after the provider has confirmed the credential it goes on with |
| SessionRaces.AnswerIsClosedIff | apps/console-api/runtime/browser-session.js:311-331 | Over every history a request is answered with a row that is not active exactly when that row was taken over from a peer and was already expired or revoked when re-read |
| SessionHistory.AnswersOnRevokedSession | apps/console-api/runtime/browser-session.js:311-331 | A concrete history from an empty ledger in which a request is answered with a session already revoked when it was read |
| SessionLedger.RowAfterPeerRefresh | apps/console-api/runtime/browser-session.js:311-319 | The loop returns the first of four reads that shows a rotation, and the last read when none does |
| SessionLedger.Ledger.StoreRotation | apps/console-api/runtime/browser-session.js:385-398 | The table after the compare-and-swap is the one the interleaved requests of the theorems see, and the stored row comes back exactly when the row still held the starting ciphertext |
| SessionLedger.StoredRotationIsTheFirst | apps/console-api/runtime/browser-session.js:385-411 | Over every history, a rotation that comes back stored replaced the ciphertext its request started from, and no rotation before it had started from that one |
| SessionLedger.LedgerFollowsSteps | apps/console-api/runtime/browser-session.js:241-433 | Each table update of the methods is the one its step of the interleaved requests makes |
| SessionLedger.Ledger.PersistRefreshRejection | apps/console-api/runtime/browser-session.js:281-304 | Revokes exactly the live rows of the owner's session family, or the one row without a family |
| SessionLedger.Ledger.MarkRowExpired | apps/console-api/runtime/browser-session.js:247-265 | Closes the row exactly when it was still live |
| SessionLedger.Ledger.TouchRow | apps/console-api/runtime/browser-session.js:657-676 | Moves the idle expiry of an active row up to the absolute one |
| CommandSchema.ValidateSchema | apps/os-shell-control/command-schema.js:24-61 | The recursion with the mutated node budget accepts exactly the well-formed trees of at most 256 nodes and depth 6, and charges exactly their size |
| CommandSchema.ValidateProperties | apps/os-shell-control/command-schema.js:40-43 | The property loop threads the same budget |
| CommandSchema.FitsIff | apps/os-shell-control/command-schema.js:24-61 | The validator's condition in full: no node at any path violates its limits, every property is safely named, every enum conforms, at most 256 nodes and six levels |
| CommandSchema.EnumMembersAreAccepted | apps/os-shell-control/command-schema.js:56-59 | A schema with an enum describes scalars and accepts each of its own members |
| CommandSchema.ValidateValueDecidesConforms | apps/os-shell-control/command-schema.js:63-85 | The recursive check accepts exactly the values that at every path meet their schema node, told from the value's side |
| CommandSchema.AcceptedCommandIsBounded | apps/os-shell-control/command-schema.js:24-85 | A value accepted by an accepted schema has at most the sum of 64^i, i from 0 to 6, nodes |
| CoalescingQueue.BoundedCoalescingQueue.Push | apps/osaa-gateway/operational-graph.js:172-185 | The queue and result after a push |
| CoalescingQueue.BoundedCoalescingQueue.Shift | apps/osaa-gateway/operational-graph.js:186-191 | The queue and result after a shift |
| CoalescingQueue.DoIsValid | apps/osaa-gateway/operational-graph.js:163-193 | Order stays duplicate-free, equal to the key set and within the limit |
| CoalescingQueue.HighEvictedOnlyByHigh | apps/osaa-gateway/operational-graph.js:174-182 | A high-priority entry is evicted only by another, only when full, only the oldest, and only when nothing else is queued |
| CoalescingQueue.EvictsOldest | apps/osaa-gateway/operational-graph.js:174-182 | A push into a full queue loses the longest waiting normal entry, or the longest waiting one when none is normal |
| CoalescingQueue.PushAnswers | apps/osaa-gateway/operational-graph.js:172-185 | When a push coalesces, when it is dropped, and what the drop count becomes |
| CoalescingQueue.LaggingMeansDropped | apps/osaa-gateway/operational-graph.js:169-182 | Over every run the lag flag is up exactly when something was lost |
| CoalescingQueue.Conservation | apps/osaa-gateway/operational-graph.js:163-193 | Non-coalesced pushes are queued, shifted or counted as dropped |
| CoalescingQueue.FirstInFirstOut | apps/osaa-gateway/operational-graph.js:183-191 | Keys wait in the order in which they last entered |
| CoalescingQueue.HoldsLatest | apps/osaa-gateway/operational-graph.js:172-173 | What waits under a key is the value of its last push |
| FrameGate.Relay.BrowserFrame | apps/os-shell-control/server.js:118-130 | Which frames are accepted and how the rate record is charged, rejected frames included |
| FrameGate.Relay.OnMessage | apps/os-shell-control/server.js:443-451 | An accepted frame is forwarded with its number plus one; a rejected one changes only the rate record |
| FrameGate.AcceptsIff | apps/os-shell-control/server.js:118-130 | Exactly when a frame is accepted: numbered above the last, within the contract's sizes, and within 60 frames and 64 KiB of the current window |
| FrameGate.NumbersIncrease | apps/os-shell-control/server.js:441-451 | Sequence numbers sent to the runtime, starting with attach as 1, strictly increase |
| FrameGate.SlidingWindowBound | apps/os-shell-control/server.js:118-130 | Any half-open second holds at most 120 accepted frames and 128 KiB of stdin |
| FrameGate.SlidingWindowBoundIsReached | apps/os-shell-control/server.js:118-130 | A connection on which one sliding second holds 120 frames and 128 KiB of stdin |
| EvidenceTruncation.UntrustedEvidence | apps/osaa-gateway/r2d2-prompt-boundary.js:36-57 | The loop for any envelope: it ends within three rounds, keeps exactly the stated number of units, takes the third round exactly when the second overshoots with more than a hundred units left, and from the second on is at most five units over |
| EvidenceTruncation.SmallOverheadSuffices | apps/osaa-gateway/r2d2-prompt-boundary.js:47-55 | An envelope under 500 units without its excerpt is always enough (496 when the first cut splits a pair) |
| EvidenceTruncation.EvidenceFitsIff | apps/osaa-gateway/r2d2-prompt-boundary.js:47-55 | For any envelope the result is within the budget exactly when the first attempt does not overshoot by its whole excerpt and a second one that splits a pair and overshoots keeps more than a hundred units |
| EvidenceTruncation.SmallOverheadFits | apps/osaa-gateway/r2d2-prompt-boundary.js:47-55 | Under 500 units around the excerpt and without split pairs: at most two rounds, and the result fits |
| EvidenceTruncation.SerializedIsPlain | apps/osaa-gateway/r2d2-prompt-boundary.js:45-45 | Every serialized JSON value consists of whole surrogate pairs and has no control characters |
| EvidenceMessage.ProgramEvidenceFits | apps/osaa-gateway/r2d2-prompt-boundary.js:36-57 | With the envelope the program builds, whatever the kind and the value, the result is within the budget |
| EvidenceMessage.UntrustedEvidenceMessage | apps/osaa-gateway/r2d2-prompt-boundary.js:36-57 | The whole function: at most three rounds, never over the budget, the whole text when that fits and otherwise the envelope around the front of it |
| EvidenceMessage.ThirdRoundHappens | apps/osaa-gateway/r2d2-prompt-boundary.js:49-55 | A kind and a value for which the program takes the third round |
| EvidenceReading.MessageReads | apps/osaa-gateway/r2d2-prompt-boundary.js:36-57 | Whatever the kind and the value, a JSON reader finds in the message an envelope that claims no authority, under the kind's first hundred units, around the value itself or, when that is too long, around its true length and the front of its text |
| EvidenceReading.StringifyIsRead | apps/osaa-gateway/r2d2-prompt-boundary.js:45-45 | A JSON reader gets every serialized value back exactly, fields in their own order |
| IncidentRelay.OneEventPerTransition | apps/osaa-gateway/r2d2-incident-relay.js:41-93 | Under any interleaving of workers, crashes and lost claims each transition has at most one event, every event restates a supported outbox row, and a delivered row has its event |
| IncidentRelay.SettledStays | apps/osaa-gateway/r2d2-incident-relay.js:66-77 | Delivered and dead-lettered rows never change again |
| IncidentRelay.HandlesExactly | apps/osaa-gateway/r2d2-incident-relay.js:41-57 | What each call of a worker leads to and writes: the event once, delivery under the own claim, retry below ten attempts and dead letter from there |
| IncidentRelay.DeadLettersAreExhausted | apps/osaa-gateway/r2d2-incident-relay.js:50-54 | Over every history no row is given up before its tenth claim |
| IncidentRelay.OrphanedClaimIsStuck | backend/supabase/migrations/0047_r2d2_incident_risk.sql:189-203 | A claimed row that no run handles stays exactly as it is under any further actions: the claim statement takes over no expired claim |
| IncidentRelay.ClaimLeavesIffHandled | backend/supabase/migrations/0047_r2d2_incident_risk.sql:189-203 | A claimed row can ever leave its claim exactly when some run of the claiming worker still handles it |
| IncidentRelay.CrashOrphansClaim | apps/osaa-gateway/r2d2-incident-relay.js:41-57 | From any fresh outbox, claiming a row and stopping leaves it orphaned |
| IncidentRelay.FaultsOrphanClaim | apps/osaa-gateway/r2d2-incident-relay.js:50-54 | So does a worker that lives on when both the delivery and its report of the failure fault |
## Left out

- HTTP servers, fetch clients, Kubernetes, Gitea, mail and object storage: what they answer is an input.
- Cryptography: digests are functions, ciphertexts and tokens are opaque, signatures and certificates are not modelled.
- Durable operations: `planOperation`, `bindOperation`, descriptors and postconditions; apart from `AtMostTwelveChanges` the model's claim takes any row that is neither finished nor waiting for approval, more than the claim statement does, and the heartbeat timer's own failures are the input `kept`.
- `appendStep` and `setPhase` are one write: a crash between them leaves an extra step row that no property here reads.
- Conversations: creating, listing, renaming and titles; retention and purge; the text checks on identifiers; the limit of the history query.
- Dialogue state: the field-by-field validation of a candidate is one outcome (`Rejected` or the material it yields).
- Numbers in JSON are their decimal texts; keys that look like array indices, which JavaScript enumerates first when an object is rebuilt for digesting, are not modelled.
- Operational graph: `buildRelations`, node and observation columns other than those the guards read, the reconcile barrier, the leader elector, stream events between reconciles; the lease, scope, page and revision evidence of the completion function is one input of a pass.
- Incidents: how signals are correlated and fingerprinted, confidence values, path digests, evidence packages; the store is one incident's row.
- ImpactTraversal.BoundedImpactTraversal: reports node, distance and path; the confidence derived from the distance is not modelled, and the two limits are integers.
- Release locks: the text patterns for images, digests, revisions and repositories are constructors of their datatypes; the names are an enumeration listed in their sorted order; key order of components inside the digest is kept only as far as the builder moves it; the attestation document of signed releases is only present or absent because the one supported channel excludes it.
- Exactness of the listed artifacts of a hand-written lock is stated for artifacts present in the target only, as the validator's loop visits no others.
- Sessions: cookies, CSRF, the read-only caches used while the ledger is unreachable, listing and audit events, factor enrolment, deletion of accounts; the token's subject is taken to be the row's owner.
- DurableSafety.AtMostNineChanges: assumes the sweep does not fall between a holder's lease check and its write; `AtMostTwelveChanges` is the bound without that assumption.
- Command schemas: the named formats are arbitrary predicates, numbers are mathematical reals or integers within the declared bounds.
- Relay: rendering of titles, bodies and severities beyond being a function of the row; retry delays; batching in `runOnce`.
- Coalescing queue: null keys, which the program's `shift` takes for an empty queue.
- Frame gate: runtime frames, backpressure and activity touches.
- Owner admission, route allowlists, installation and readiness projections, intent routing, rendering and redaction: flat checks or text heuristics.
