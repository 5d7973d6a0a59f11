# Verified model of the ProtoBot work-management protocol

A Dafny model of four parts of the ProtoBot repository, and proofs of what they promise.

**The lifecycle protocol.** `Records`, `Authorization` and `Evaluator` are the Validation Rules: the
pure decision on 16 lifecycle commands over 9 states, with roles, compare-and-swap on state and
contract version, live fences, dependencies, readiness, approvals and merge envelopes;
`EvaluatorRules` states its decision tables in both directions, by state, role and field, without
any of the evaluator's own conditions; `Digests` says what the digests tell apart.
`MemoryStore` and `MemoryRequests` say what one operation of the in-memory work-management system
does, as functions from the store before to the store after and the answer; `MemorySystem.Memory` is
the object itself, which updates its maps, log and counters in place and is proved to compute those
functions. `MemoryItems` to `MemoryRequestSteps` prove the invariants step by step, `MemoryRuns` lifts
them to every run, and `MemoryGuarantees`, `MemoryReplay` and `MemoryEffects` state the promises;
`MemoryCommands` says what every applied lifecycle command had to show and does to its record,
`MemoryEntitlement` when a request operation is applied, `MemoryHistory` what must have come before a
recorded merge and a resolved block, and `MemoryAdvice` that a preflight tells what the command will
be answered; `MemoryRetryRun` is a run in which one of the promises fails. A run is any sequence of calls, trusted observations and seeds from the empty store, with any callers, times and
payloads; a *moment* of a run is the number of inputs taken so far.

**The GitHub backend.** The same evaluator over issues whose writes may fail without saying whether
they were made. `GitHubStore` holds the documents, the relation between a store and a write the
adapter is *entitled* to make, and the promises over every log of entitled writes; `GitHubWrites` says
field by field what document a materialization and a claim leave. `GitHubClient.Hub`
is the issue store with failures; its write operations require entitlement, so that
`GitHubAdapter.Adapter` has to prove it at each write; its contracts also say what each call is
answered, and recorded under its key, when nothing fails. Which operations of the store fail, and
which failed writes were made all the same, is a *plan* the store is started with, so that a contract
can say what becomes of a call by the fate of the operations it performs. `GitHubRuns` runs any number
of adapters over one store, under any plan, started and restarted at will; `GitHubFailures` holds two
runs in which a promise fails. `IssueBody` is the text form of a document.

**The `ears-manager` file transaction and symmetric relationships.** `FileTransaction` is the
multi-file write with rollback over a disk on which any operation may fail, with or without taking
effect. `Symmetric` is the maintenance of conflicts-with and related-to across a store of
requirements, and the validation of the staged store that follows it.

**The two shell lexers of the drafting table's guard.** `Lexers` proves that they agree on the words;
`LexerRules` says of the bytes of a command, by position, what the strict lexer accepts, and what words
and segments each of the two finds.

## Reading the model

- Identifiers a backend prints from a counter (request, fencing-token and submission ids) are
  represented by the number, 0 standing for the empty string. Digests and fingerprints are
  represented by the value they are taken of. Time is an integer, 0 standing for the zero time.
- The clock, the Gate's resolution of an actor and JSON decoding are parameters: a call carries its
  time, its resolved authorization context if any, and its decoded payload (`Malformed` or the wrong
  shape is the decoding error). One call sees one time.
- A lock makes each call one step, in both backends.
- GitHub: a read that succeeds shows the store as it is; only a missing issue is reported missing;
  listing never reports "not found"; only adapters write, and a write that failed has been made, or
  not, by the time the call returns. The trusted Gate binds an approval id to one project and one
  request, whichever adapter it is seeded into.
- Where a comment and the code differ, the model follows the code.
- Failures are counted (`Faults` of the hub, `faults` of the disk), so that the contracts also say what
  happens when nothing fails. What the state of the disk itself rules out, such as removing a
  directory that is not empty or anything below a file, is no failure in this sense.

Eight properties one would expect turned out false of the code; each has its exact condition, and
an input or a run at which it fails.

- A record with an unresolved reason is not ready: one with an empty text hides the others
  (`EvaluatorRules.ReadyExactly`, `EvaluatorRules.EmptyReasonHidesOthers`).
- The retry of an applied call is answered from the record, whatever happened since: not if the call
  names, without its change set, a submission filed in between for one, since the request is then
  normalized to another (`wms/memory/memory.go:389-393`; `MemoryReplay.RetriesReplay`,
  `MemoryRetryRun.RetryIsRefused`).
- An unavailable backend is never frozen under an idempotency key, as a comment promises
  (`wms/github/requests.go:129-132`): a fresh key is frozen exactly if it is that of a heard
  materialization with a work item, whose binding is not remembered, and of the operations it performs
  the lookups go well and the scan for its binding fails (`wms/github/lifecycle.go:236-246`). The same
  call under it is then refused as unavailable for the life of the adapter
  (`GitHubAdapter.Adapter.Run`, `GitHubAdapter.FrozenAnswers`, `GitHubFailures.RetryOfFrozenKey`,
  `GitHubFailures.FrozenRun`).
- A request.create answered "applied" has made its request: exactly if no request made under another
  key holds the id an earlier try had reserved; else the answer is that other request, and its own is
  never made (`wms/github/requests.go:189-205`; `GitHubAdapter.OwnRequestExactly`,
  `GitHubFailures.LostCreate`, `GitHubFailures.LostRun`).
- Synchronizing the relationships of an added requirement leaves a mutual store: exactly if every
  requirement that already names it is named back. The step alone can leave a relationship one-sided;
  the command then refuses the addition, because the validation of the staged store finds exactly the
  one-sided relationships, and from a store that validates the case does not arise
  (`Symmetric.AddKeepsMutual`, `Symmetric.AddCanBreakMutual`, `Symmetric.AsymmetryIsFound`,
  `Symmetric.AddToValidKeepsMutual`).
- A deleted governed path is absent after a successful transaction: exactly if no other governed path
  lies below it (`FileTransaction.LastWriteHolds`, `FileTransaction.DeletedPathHoldsDirectory`).
- A transaction is reported as unknown only if some operation failed: with none failing, and although
  everything is as it was, it is reported so exactly if a write was blocked by a file written above it,
  or the check after the writes fails and a directory that is no governed path lies between two that
  are (`FileTransaction.ApplyTransaction`, `FileTransaction.NestedWriteIsBlocked`,
  `FileTransaction.NestedDeleteIsEntangled`, `FileTransaction.PlainNestedDeleteIsNot`).
- An issue body decodes to its document: exactly if the note holds no begin marker
  (`IssueBody.RoundTrip`).

## Model

| member | source | states |
|---|---|---|
| `MemoryRuns.EveryRunKeeps` | wms/memory/memory.go:271-552 | Every store reachable by any run satisfies the lifecycle, approval-protocol, backlog and key invariants. |
| `MemoryRuns.EveryRunEvolves` | wms/memory/memory.go:30-76 | The store of a run evolves out of the store of each of its prefixes: records keep identity and source, approvals and submissions settle once, keys and log only grow. |
| `MemoryRuns.StepKeeps` | wms/memory/memory.go:30-186 | Each single input, call, observation or seed, keeps the invariants and the evolution relation. |
| `MemoryGuarantees.StartedWorkIsAcyclic` | wms/memory/memory.go:592-602 | In every reachable store, work past the dependency gate depends, over any chain, only on completed records and never on itself. |
| `MemoryGuarantees.CyclesNeverStart` | wms/validation/evaluator.go:279-347 | A record on a dependency cycle at one moment is not past the dependency gate then or at any later moment. |
| `MemoryGuarantees.PathDescends` | wms/validation/evaluator.go:774-784 | Completion order is a strict rank along every dependency path out of started work. |
| `MemoryGuarantees.RankIsCompletion` | wms/memory/memory.go:508-521 | That rank is the position of the event that first completed the record. |
| `MemoryGuarantees.IssuedTokensAreFresh` | wms/memory/memory.go:276-283 | A fencing token issued in a run is larger than every token issued before and was held by no record at any earlier moment. |
| `MemoryGuarantees.TokensAreNeverShared` | wms/memory/lifecycle.go:101-113 | A token is held by one record only, across records and across moments. |
| `MemoryGuarantees.LostTokensStayLost` | wms/memory/lifecycle.go:31-113 | Once a record has lost a token it never holds it again. |
| `MemoryGuarantees.FencedCallsHoldTheToken` | wms/validation/evaluator.go:613-636 | An applied Job Site command past the claim carries the record's current token, from the lease owner, before expiry. |
| `MemoryGuarantees.LostTokensAreRefused` | wms/validation/evaluator.go:700-724 | No fenced command that carries a lost token is ever applied again, whoever sends it; it changes nothing but its key's record. |
| `MemoryGuarantees.EveryRecordIsGated` | wms/memory/lifecycle.go:19-30 | A lease exists exactly in building, inspecting and merging, held by the owner; inspection flags are clear outside their states; merging and completed records carry all three flags and a candidate envelope at the right version. |
| `MemoryGuarantees.RecordsAreStable` | wms/validation/evaluator.go:867-880 | A record keeps its key, type, dependencies and a named merge target; its state changes only with its version; a terminal one is final. |
| `MemoryGuarantees.EveryTrailIsUnbroken` | wms/memory/memory.go:463-552 | The moves logged for a record form an unbroken chain of legal transitions from (initial, 0) to its state and version. |
| `MemoryGuarantees.VersionCountsMoves` | wms/validation/evaluator.go:252-258 | The version at the end of such a chain is the number of its moves. |
| `MemoryGuarantees.CallsAccountForThemselves` | wms/memory/memory.go:442-461 | A call under a recorded key changes nothing; an answer is "applied" exactly if one event was appended, under the call's key; any other answer leaves all but the record of the key. |
| `MemoryGuarantees.KeysAreUsedOnce` | wms/memory/memory.go:721-800 | No two events share an idempotency key; idempotency entries and materialization bindings never change once written. |
| `MemoryCommands.CommandEffect` | wms/memory/memory.go:463-552 | In every reachable store an applied command on a record was admitted and had its evidence on what the store itself holds and observes, and its effect is exactly this: the record at its destination, one version on; a lease taken by the caller from now under the next token, prolonged, given up or left; readiness and dependencies refreshed as observed, or left; merge evidence, inspection and reason as the command sets or clears them; everything else in the record and the store as it was, but for the log, the key and what a resolve-block spends. |
| `MemoryCommands.MaterializeEffect` | wms/memory/memory.go:463-507 | In every reachable store an applied materialization was of a new record under a free key with all it needs, and starts exactly the record its source describes, in the state its readiness and the dependencies call for, each dependency completed exactly if the store's own record of it is; or, needing no implementation, only binds the key. |
| `MemoryCommands.ReferencesExactly` | wms/memory/memory.go:417-440 | The references a command must be granted are exactly the non-empty ones of the envelope it presents. |
| `MemoryHistory.MergedCandidate` | wms/validation/evaluator.go:392-402 | In every run an applied record-merge carries a merge commit and agrees field by field, tree digest, inspection run, integration head, target and version, with the envelope the last applied begin-merge on that record presented; for the Reconciler so does the observed envelope. |
| `MemoryHistory.MergingSince` | wms/memory/lifecycle.go:60-64 | A merging record expects exactly the candidate of the last applied begin-merge on it, which there is. |
| `MemoryHistory.ResolvedOnEvidence` | wms/validation/evaluator.go:527-572 | In every run an applied resolve-block of an out-of-scope submission comes after a recorded Inspector confirmation of it, and one of an added requirement finds its planned work item completed. |
| `MemoryHistory.ConfirmedBefore` | wms/memory/memory.go:82-111 | A submission is held as confirmed only after an input that confirmed it while it was the active, pending, out-of-scope one. |
| `MemoryReplay.RetriesReplay` | wms/memory/memory.go:379-461 | The retry of an applied call at any later moment of the run, while its authorization lasts, leaves the store as it is, and answers with the recorded result marked replayed if and only if the call does not name, without its change set, a submission filed since for one; otherwise it is refused. |
| `MemoryReplay.ImmediateRetryReplays` | wms/memory/memory.go:379-409 | At the next moment that never is the case: no applied call is normalized differently right after itself. |
| `MemoryRetryRun.RetryIsRefused` | wms/memory/memory.go:389-393 | A run of a materialization, a seeded approval and a submission after which the retry of the applied materialization is refused. |
| `MemoryEffects.RequestEffect` | wms/memory/requests.go:115-452 | In every reachable store: an applied create adds one request, exactly the one asked for (intent and rationale trimmed, lists in normal form, the caller its author, unrefined, unlinked, revision 1), under a number above all others, of content no other has; a refinement replaces exactly the fields it names, by content that was approved and no other request has, and spends the approval; a priority or link leaves the linked change set and record with the request's priority; each of these puts the request one revision on from the one expected. A filed resolution is pending and active for a blocked record, supersedes the one before and revokes its approval unless it is presented again; an acknowledgement is kept and spends its approval. Nothing else changes but the log and the key. |
| `MemoryEntitlement.AppliedExactly` | wms/memory/requests.go:65-113 | In every store a request operation is applied if and only if its key is fresh, its caller may use it, and it has all that its table asks for. |
| `MemoryEntitlement.RefineExactly` | wms/memory/requests.go:162-292 | A refinement is applied exactly if the request is at the revision expected, the fields are valid, every relationship is good, an unused approval given to the caller for this request binds exactly the refined content, and no other request has that content. |
| `MemoryEntitlement.SubmitExactly` | wms/memory/blocked_work.go:14-121 | A resolution is filed exactly if the record is blocked at the state and version expected, the kind is known and its change set too where one is needed, and an unused approval given to the Materializer for this very resolution is presented. |
| `MemoryEntitlement.AcknowledgeExactly` | wms/memory/blocked_work.go:123-191 | Blocked work is acknowledged exactly if it is blocked at the state and version expected, a reason is given, and an unused approval given to the caller for this acknowledgement is presented. |
| `MemoryEntitlement.RelatableExactly` | wms/memory/requests.go:729-745 | Relationships pass exactly if each is of a known kind, to another stored request, and none is repeated. |
| `MemoryEntitlement.CallersExactly` | wms/adapter/operations.go:132-149 | The operation surface is open to a role exactly if the role is among the callers of the operation. |
| `MemoryEntitlement.CallersMayExactly` | wms/memory/memory.go:50-76 | A request call passes the checks of the surface exactly if its context lasts, is of the project, of the record it is bound to and of no change set, names the action and the project without wildcards, in a role the operation is open to, under the policy the call names. |
| `Digests.CommandsTold` | wms/validation/fingerprint.go:12-27 | Two lifecycle requests have the same fingerprint exactly if they differ in nothing but the idempotency key, the expiry of the authorization and the order of lists. |
| `Digests.CallsTold` | wms/memory/requests.go:582-607 | Two request calls have the same fingerprint exactly if they differ in nothing but the idempotency key, the expiry and the order of the granted actions and references. |
| `Digests.SourcesTold` | wms/validation/fingerprint.go:34-63 | Two work items are of the same source exactly if they agree in identity, change type, need for implementation, readiness, dependency ids and merge target. |
| `Digests.ContentTold` | wms/validation/fingerprint.go:69-98 | An approval digest of content binds all that a refinement can set, lists up to order. |
| `MemoryEffects.FilesResolution` | wms/memory/blocked_work.go:14-121 | The effect of an applied submission, exactly: the new one pending and active, the one before superseded, its approval revoked unless presented again, nothing else touched. |
| `MemoryEffects.AcknowledgesBlock` | wms/memory/blocked_work.go:123-191 | The effect of an applied acknowledgement, exactly: kept, its approval spent, the record left as it is. |
| `MemoryEffects.EveryRunIsKeyed` | wms/memory/types.go:152-163 | In every reachable store each change set is held under its own, non-empty id. |
| `MemoryGuarantees.OnePendingSubmission` | wms/memory/blocked_work.go:14-121 | A pending submission is the active one of a blocked or abandoned record, its approval is unused, and no two share a record or an approval. |
| `MemoryGuarantees.SettledIsFinal` | wms/memory/memory.go:823-832 | A spent or revoked approval, and a superseded or consumed submission, never change status again. |
| `MemoryGuarantees.SpentOnce` | wms/memory/blocked_work.go:123-191 | No approval is spent by two steps of a run. |
| `MemoryReplay.ApprovedCommandsSpend` | wms/validation/authorization.go:127-180 | Every applied resolve-block, refinement and acknowledgement spends the unused approval it presents, and changes nothing else of it. |
| `MemoryGuarantees.DuplicateCheckIsScan` | wms/memory/requests.go:565-580 | In every reachable store the semantic index answers as a full scan of the requests would, and no two requests are semantically equal. |
| `MemoryBacklog.StoredKey` | wms/memory/requests.go:569-580 | The stored, trimmed and normalized form of a request has the key of the form it was submitted in. |
| `MemoryBacklog.RefineKeepsIndex` | wms/memory/requests.go:233-273 | A refinement moves the index entry of its request and no other. |
| `Text.SortedUniqueLoop` | wms/memory/requests.go:762-778 | The loop with its seen-set computes the normal form: trimmed, non-blank, strictly sorted. |
| `Text.SortedUniqueNormalizes` | wms/memory/requests.go:762-778 | The normal form holds trimmed, non-blank names in strictly ascending order. |
| `Text.SortedUniqueIdempotent` | wms/memory/requests.go:762-778 | Normalizing twice is normalizing once. |
| `Text.BlankTrimsToNothing` | wms/memory/memory.go:916-918 | A text is blank exactly if trimming leaves nothing of it. |
| `MemoryItems.AllowedIsMove` | wms/validation/evaluator.go:173-250 | An allowed command is a legal transition of a visible, non-terminal record, one version on, to a destination of that command, with a fresh token exactly where a lease starts, past the dependency gate only with all dependencies completed, fenced and bound where it must be. |
| `MemoryItems.AllowedIsNew` | wms/validation/evaluator.go:431-490 | An allowed or omitted materialization is of a record that does not exist, reserves its key for the canonical source, and starts a well-formed record, ready only with all dependencies completed. |
| `MemoryItems.MovedOk` | wms/memory/lifecycle.go:10-99 | The record a legal move leaves obeys the lease discipline and the completion gate if the one before did. |
| `EvaluatorRules.AllowedExactly` | wms/validation/evaluator.go:60-250 | A command on a record is allowed exactly if it is authorized, visible, not terminal, at the expected state and version, legal, unleased or bound or fenced as it must be, and has its evidence; it then leads where its table says, one version on. |
| `EvaluatorRules.VerdictExactly` | wms/validation/evaluator.go:260-429 | Each of the 15 commands on a record moves it exactly on its evidence, to its destination; the evidence is written out by field, that of a recorded merge as the tested candidate itself, at the record's version, with a merge commit. |
| `EvaluatorRules.MergedExactly` | wms/validation/evaluator.go:882-894 | A merge result matches exactly if it is complete, has a merge commit, and agrees with the tested candidate in tree digest, inspection run, integration head, target and version, which is the record's. |
| `EvaluatorRules.BindingExactly` | wms/validation/evaluator.go:492-525 | A resolve-block binds exactly if it names the active, pending submission of the record, of its kind and digest, and the unused, unexpired approval it was filed with, given to this principal for this record, state, version, change set and policy. |
| `EvaluatorRules.SendersExactly` | wms/validation/authorization.go:61-111 | A lifecycle command is authorized exactly if the context lasts, is of the project and of the record and change set it is bound to, names the action and every reference without wildcards, and the role is one of those the command is open to. |
| `EvaluatorRules.LegalExactly` | wms/validation/evaluator.go:28-58 | A command is legal from a state exactly if the state's own list of commands has it. |
| `EvaluatorRules.MaterializedExactly` | wms/validation/evaluator.go:431-490 | A materialization is refused exactly if something it needs is missing; otherwise it is omitted exactly if no implementation is required, and leads to blocked, waiting or ready as its source and dependencies say. |
| `EvaluatorRules.ReadyExactly` | wms/validation/evaluator.go:726-798 | No readiness failure is reported exactly if all seven conditions hold and there is no unresolved reason or one with an empty text. |
| `EvaluatorRules.EmptyReasonHidesOthers` | wms/validation/evaluator.go:743-756 | A record with an open reason and an empty one passes as ready. |
| `Evaluator.LiveFence` | wms/validation/evaluator.go:613-636 | The fence passes exactly for the owner's unexpired lease under its own non-empty token. |
| `Evaluator.FirstIncompleteIsLeast` | wms/validation/evaluator.go:774-784 | The blocking dependency reported is incomplete and least by id among the incomplete ones. |
| `Evaluator.FirstIncompleteLoop` | wms/validation/evaluator.go:774-788 | The running minimum computes it. |
| `Preflighting.PreflightIsFaithful` | wms/validation/evaluator.go:60-145 | For every command but resolve-block, preflight and authoritative evaluation of the same evidence agree on outcome, before, after, reservation and rejection. |
| `Preflighting.PreflightCoversResolveBlock` | wms/validation/evaluator.go:527-572 | For resolve-block they agree whenever the submission and approval bind; when they do not, the authoritative answer is a rejection. |
| `MemoryAdvice.AdviceIsTheDecision` | wms/memory/memory.go:188-269 | In every store, for a caller who may send the command and ask for advice, under keys not bound yet, the preflight changes nothing and its decision is the one the command is then answered with, in outcome, before, after, reservation and rejection; for resolve-block so whenever the command is applied. |
| `MemoryAdvice.AdvisersExactly` | wms/validation/authorization.go:113-125 | Advice may be asked for under the same terms as a command is sent, with the preflight granted as an action, in three roles. |
| `MemoryAdvice.StoreIsAlike` | wms/memory/memory.go:196-250 | The store shows the preflight the record, readiness and dependencies it shows the command. |
| `MemoryAdvice.PreviewsBound` | wms/memory/memory.go:205-239 | The preview shows of a submission the command is bound to its kind, its change set, whether its planned work is completed and whether it is confirmed. |
| `MemorySystem.ApplyLifecycleMutation` | wms/memory/lifecycle.go:10-99 | Changing the record step by step, command by command, leaves the record described field by field. |
| `MemorySystem.Memory.ObservedDependencies` | wms/memory/memory.go:592-602 | The loop observes each dependency in the store's own records. |
| `MemorySystem.Memory.ReplayLifecycleRequest` | wms/memory/memory.go:442-461 | Answers from a recorded key or a bound materialization key, recording only what the latter answers. |
| `MemorySystem.Memory.ApplyLifecycleRequest` | wms/memory/memory.go:463-552 | Evaluates a command and commits record, token, event, approval, submission, binding and key as the specification says. |
| `MemorySystem.Memory.RunLifecycle` | wms/memory/memory.go:271-377 | A lifecycle call takes the store and answers as specified, on every path. |
| `MemorySystem.Memory.RunCreate` | wms/memory/requests.go:115-160 | request.create computes the step `MemoryEffects.RequestEffect` is about. |
| `MemorySystem.Memory.RunRefine` | wms/memory/requests.go:162-292 | request.refine as specified, a rejection leaving everything untouched. |
| `MemorySystem.Memory.CheckRelationships` | wms/memory/requests.go:729-745 | The loop with its seen-set finds the first malformed, dangling or repeated relationship. |
| `MemorySystem.Memory.RunPriority` | wms/memory/requests.go:294-359 | request.update-priority computes the step `MemoryEffects.RequestEffect` is about, linked records included. |
| `MemorySystem.Memory.RunLinkChangeSet` | wms/memory/requests.go:361-406 | request.link-change-set computes the step `MemoryEffects.RequestEffect` is about. |
| `MemorySystem.Memory.RunLinkWorkItem` | wms/memory/requests.go:408-452 | request.link-build-work-item computes the step `MemoryEffects.RequestEffect` is about. |
| `MemorySystem.Memory.RunSubmit` | wms/memory/blocked_work.go:14-121 | Submitting a resolution as specified: it replaces the pending one and revokes its approval unless presented again. |
| `MemorySystem.Memory.RunAcknowledge` | wms/memory/blocked_work.go:123-191 | Acknowledging blocked work as specified. |
| `MemorySystem.Memory.Run` | wms/memory/memory.go:30-76 | Every call takes the store and answers as specified, and keeps the invariants; what the specification amounts to is stated by `MemoryCommands.CommandEffect`, `MemoryCommands.MaterializeEffect`, `MemoryAdvice.AdviceIsTheDecision`, `MemoryEntitlement.AppliedExactly` and `MemoryEffects.RequestEffect`. |
| `MemorySystem.Memory.NoteConfirmation` | wms/memory/memory.go:82-111 | A confirmation is recorded once, on the active out-of-scope submission alone. |
| `MemorySystem.Memory.NoteReadiness` | wms/memory/memory.go:118-131 | Observed readiness is kept for an existing record and changes nothing else. |
| `MemorySystem.Memory.NoteInspection` | wms/memory/memory.go:138-159 | Inspection evidence is recorded only while inspecting. |
| `MemorySystem.Memory.NoteReconciliation` | wms/memory/memory.go:166-186 | Reconciliation evidence replaces that of an existing record. |
| `MemorySystem.Memory.SeedChange` | wms/memory/types.go:152-163 | A change set is seeded once. |
| `MemorySystem.Memory.SeedGateApproval` | wms/memory/types.go:166-177 | An approval is seeded once. |
| `GitHubStore.OneBindingPerKey` | wms/github/lifecycle.go:347-367 | Over every log of entitled writes at most one issue holds a materialization key, at most one a work-item id; what a key is bound to is never rebound, to another issue or another source. |
| `GitHubStore.OneRequestPerName` | wms/github/requests.go:207-243 | No two request issues share a request id or a create key, at one moment or across moments. |
| `GitHubStore.ClaimedOnce` | wms/github/lifecycle.go:368-399 | Each durable work item is claimed by at most one write, over all time. |
| `GitHubStore.ClaimIsTheLease` | wms/github/queries.go:155-211 | A durable lease exists exactly with its claim record, under the same token, and both stay. |
| `GitHubStore.SameCallBumpsOnce` | wms/github/requests.go:683-719 | Two writes that record the same call are the same write: a call bumps a request's revision at most once. |
| `GitHubStore.RevisionsGrow` | wms/github/requests.go:683-719 | Of two writes to one request the later has the larger revision and at least the spent approvals of the earlier. |
| `GitHubStore.OneRefinementPerApproval` | wms/github/requests.go:266-272 | One approval id authorizes at most one durable refinement, on any request. |
| `GitHubWrites.GrantedNew` | wms/github/lifecycle.go:322-367 | A materialization the evaluator allows on exactly the dependencies named, each as its own issue shows it, leaves exactly the record its source describes: those dependency ids, the state each issue shows (initial if there is none), blocked, waiting or ready as they and the readiness say, and ready only if every named dependency has a completed issue; one that needs no implementation leaves a reservation of the key. |
| `GitHubWrites.GrantedClaim` | wms/github/lifecycle.go:368-399 | A claim the evaluator allows leaves the record in Building one version on, reconciliation cleared, owned by the caller under a lease from now for the configured time and the token issued, with its claim record; nothing else about it changes, and the caller was one who may claim it, ready as it is. |
| `GitHubAdapter.Adapter.FindBinding` | wms/github/reconcile.go:58-83 | A scan that answers finds the binding of a key, and reports none only if there is none. |
| `GitHubAdapter.Adapter.LoadItem` | wms/github/queries.go:111-138 | A work item is found through the index or a scan, and reported missing only if it is. |
| `GitHubAdapter.Adapter.ObservedDependencies` | wms/github/lifecycle.go:530-548 | Exactly the dependencies named, in their order, each shown as the durable store holds it; an inconclusive load gives no answer. |
| `GitHubAdapter.Adapter.LookUp` | wms/github/lifecycle.go:33-51 | The record of a command is found, or missing only if it is, and for a materialization exactly the dependencies its source names are observed; it answers exactly if every lookup goes well. |
| `GitHubAdapter.Adapter.CheckMaterialization` | wms/github/lifecycle.go:250-283 | No answer only if the key is free; a bound key is answered with its recorded result, marked replayed, exactly for the source it was bound to, and with a conflict for any other; unavailable exactly if its binding is not remembered and the scan for it fails. |
| `GitHubAdapter.Adapter.ReplayLifecycle` | wms/github/lifecycle.go:229-248 | A recorded key answers the call it was recorded for and conflicts with any other, and keeps its record; a bound key answers without a write and records its answer; a fresh key is frozen as unavailable exactly if its binding is not remembered and the scan for it fails. |
| `GitHubAdapter.Adapter.ReconcileClaim` | wms/github/lifecycle.go:184-220 | A claim that is durable under this key and fingerprint is answered from its record with exactly its token; it is passed over only if it is not there. |
| `GitHubAdapter.Adapter.SettleLifecycle` | wms/github/lifecycle.go:100-116 | A fresh command, nothing failing, is answered with the token of its own durable claim if there is one, else with the evaluator's decision on the durable record and exactly the dependencies its source names. |
| `GitHubAdapter.Adapter.RebindMaterialization` | wms/github/lifecycle.go:496-511 | After a create of unknown outcome, a work item counts as made exactly if the scan goes well and one is durable under the key with the same source. |
| `GitHubAdapter.Adapter.CommitMaterialization` | wms/github/lifecycle.go:322-367 | Creates only under a free key and id, and nothing but the document `GitHubWrites.GrantedNew` describes; "applied" means that it is durable and the answer is its record. The outcome is unknown exactly if the write failed for now and the work item was not found after it, and it is applied exactly if the write went well or it was found. |
| `GitHubAdapter.Adapter.CommitOmission` | wms/github/lifecycle.go:400-427 | An omitted source still reserves its key; "applied" means the key is durably bound to that source; unknown and applied outcomes exactly as for a created work item. |
| `GitHubAdapter.Adapter.CommitClaim` | wms/github/lifecycle.go:368-399 | Writes lease and claim record together, on an unclaimed ready item only, and nothing but the document `GitHubWrites.GrantedClaim` describes; "applied" means that it is durable, under the token answered, and the answer is its record. It is applied exactly if both the read and the write go well, and unknown exactly if the one that fails does so for now. |
| `GitHubAdapter.Adapter.ApplyLifecycle` | wms/github/lifecycle.go:312-432 | A determinate answer carries the evaluator's decision, and without a failure the answer is determinate; what it says of the durable store holds; at most one token is issued, the next of the adapter, and a claim is made under it. |
| `GitHubAdapter.NeverUnavailable` | wms/validation/evaluator.go:60-145 | The evaluator's own refusals are never "unavailable". |
| `GitHubAdapter.Adapter.RunLifecycle` | wms/github/lifecycle.go:11-116 | A lifecycle call writes nothing or its own document: a materialization the record its payload describes, with exactly its dependency ids, each in the state its own issue shows, ready only if all have a completed issue; a claim the record as it was, in Building, one version on, under the caller's lease from now for the configured time. Either is written only for a caller and a request that meet the rules, and an applied answer is the record written. A bound key is never written again; a replay under a fresh key is of the very source bound. Authorized and with nothing failing, the retry of a durable claim is answered with exactly its token, that of a bound materialization with the recorded result, and any other fresh command with the evaluator's decision on the durable record and exactly the dependencies named. A fresh key is frozen exactly if the call is an authorized materialization whose lookups go well and the scan for whose binding, not remembered, fails. |
| `GitHubAdapter.FrozenAnswers` | wms/github/lifecycle.go:229-248 | A frozen key answers "unavailable" to the call that froze it and a conflict to any other, with nothing failing. |
| `GitHubFailures.RetryOfFrozenKey` | wms/github/lifecycle.go:236-246 | Whenever the plan fails that scan and nothing after it, whatever further calls come between, the same call is refused as unavailable again and writes nothing. |
| `GitHubFailures.FrozenRun` | wms/github/lifecycle.go:236-246 | Such a run: a new store, one failing scan, a materialization refused as unavailable, and refused so again although nothing else fails. |
| `GitHubAdapter.Adapter.HydrateRequests` | wms/github/reconcile.go:213-236 | A completed scan has seen every request of the project and finds each by its content, and the sequence is the highest of their numbers and its own. |
| `GitHubAdapter.Adapter.ReconcilePendingCreate` | wms/github/requests.go:183-205 | The answer for a reserved id is the request that holds it, whoever made it; there is none only if no request holds it. |
| `GitHubAdapter.Adapter.PersistNewRequest` | wms/github/requests.go:207-243 | Creates only under an unused id and create key, pending reservations included, and nothing but the request asked for: intent and rationale trimmed, lists in normal form, the caller its author, unrefined, unlinked, revision 1; "applied", at once or found after a failed write, means that it is durable and is the answer. The outcome is unknown, and the id kept in reserve, exactly if the write failed for now and the request was not found after it; it is applied exactly if the write went well, or failed for now and the request was found. |
| `GitHubAdapter.Adapter.RunCreate` | wms/github/requests.go:154-181 | A durable create is never written again and, nothing failing, is answered as that request, or with a conflict if the call differs; any other valid create is applied, or refused as a duplicate; what is written is exactly the request asked for, of content no durable request has; "applied" is of a valid create, and is the request made under this key, or, if its reserved id was usurped, the usurper with nothing written. |
| `GitHubAdapter.OwnRequestExactly` | wms/github/requests.go:183-243 | An applied create answers with a request made under its own key if and only if the id it had reserved is held by none made under another. |
| `GitHubFailures.LostCreate` | wms/github/requests.go:154-243 | Two adapters on a new store whose second operation fails: the create of the first is not made and its outcome unknown, the second makes its own, and the retry of the first, nothing failing, is told that it was applied, as the request of the second; none is made under its own key. For any two valid calls that are heard. |
| `GitHubFailures.LostRun` | wms/github/requests.go:154-243 | The same for two given calls, with nothing left open. |
| `GitHubAdapter.ResolveRevision` | wms/github/requests.go:765-828 | Lets a call through exactly at the revision it expects; answers with success exactly if the last recorded mutation of the request is this call's, and then with its recorded result marked replayed. |
| `GitHubAdapter.Adapter.CommitMutation` | wms/github/requests.go:683-719 | Writes the next revision, the record of the call and the spent approval in one update; "applied" means this call's record is durable. It is applied exactly if both the read and the write go well, and unknown exactly if the one that fails does so for now. |
| `GitHubAdapter.Adapter.RefineLoaded` | wms/github/requests.go:245-376 | A refinement writes only under an unspent approval bound by the Gate to this request, and only the content that was approved; with that and valid fields and relationships, nothing failing, it is applied or refused as a duplicate. |
| `GitHubAdapter.Adapter.CheckRelationships` | wms/github/requests.go:948-964 | Passes, nothing failing, exactly if every relationship is well formed, to another stored request, and not repeated. |
| `GitHubAdapter.Adapter.PriorityLoaded` | wms/github/requests.go:406-476 | Nothing failing, a valid priority is applied exactly if the linked change set and work item exist; the request then has it, one revision on, and its work item names the request and has it too. |
| `GitHubAdapter.Adapter.LinkChangeSetLoaded` | wms/github/requests.go:478-534 | Nothing failing, a link is applied exactly if the change set is known, new to the request, open and at the revision asked for; the request then names it and takes any priority it has. |
| `GitHubAdapter.Adapter.LinkWorkItemLoaded` | wms/github/requests.go:536-601 | Nothing failing, a link is applied exactly if the work item exists and is new to the request; the work item then names the request and its change set, and has any priority of the request. |
| `GitHubAdapter.Adapter.RunMutation` | wms/github/requests.go:245-601 | A retry whose effect still stands writes nothing and, nothing failing, is answered with the recorded result of that effect; an applied answer is the recorded effect of this call; at the revision the store has, it is applied only if it may be, with the request then as it asked for, and, nothing failing, if it may be it is, duplicates of a refinement aside. |
| `GitHubAdapter.Adapter.Run` | wms/github/adapter.go:135-176 | Every call leaves the indexes right and only entitled writes; a recorded key means no write, and keeps its record. A materialization, claim or create writes nothing or its own document, exactly as asked for, and an applied answer is that document (`RunLifecycle`, `RunCreate`). A call that is heard while nothing fails gets the answer it is owed: that of its recorded key, of the durable claim, binding, create or mutation it is the retry of, that of the evaluator, or its own effect. What is recorded is its answer under its key, or nothing; a fresh key is frozen as unavailable exactly if it is that of a heard materialization whose lookups go well and the scan for whose binding, not remembered, fails; and with nothing failing only the answer of a frozen key is indeterminate. |
| `GitHubRuns.Operate` | wms/github/adapter.go:32-101 | Any run of any number of adapters, restarts included, leaves a log of entitled writes and every adapter right about the store. |
| `IssueBody.RoundTrip` | wms/github/encode.go:78-114 | For every document text, markers in it included, decoding gives it back exactly if the note holds no begin marker. |
| `IssueBody.DocumentRoundTrip` | wms/github/encode.go:78-114 | With any printer and parser that agree, the document comes back. |
| `IssueBody.MarkersDoNotOverlap` | wms/github/encode.go:102-108 | Cutting the text between the markers is always within bounds. |
| `IssueBody.FirstEndFails` | wms/github/encode.go:97-108 | Stopping at the first end marker instead would work exactly for texts without one. |
| `FileTransaction.ApplyTransaction` | ears-manager/internal/cli/state.go:662-751 | Under any failures: success leaves every path as the writes say, each governed path having held what was expected; a refusal leaves everything but temporary files, modes and directories included, as it was. If no operation fails: no temporary file is left; it is applied exactly if there is a write, every path is ready, none is blocked and the check after it passes; otherwise everything is as it was; and it is reported as unknown exactly if the paths were ready and a write was blocked, or the check failed and the writes are entangled. |
| `FileTransaction.NestedWriteIsBlocked` | ears-manager/internal/cli/state.go:717-724 | Writing `a` and `a/b`, where nothing existed, is ready, blocked and not entangled: it is reported as unknown. |
| `FileTransaction.NestedDeleteIsEntangled` | ears-manager/internal/cli/state.go:859-885 | Deleting `a` while writing `a/c/d`, where nothing existed, is ready, not blocked, and entangled: failing the check after it is reported as unknown. |
| `FileTransaction.PlainNestedDeleteIsNot` | ears-manager/internal/cli/state.go:859-885 | Deleting `a` while writing `a/b` is not entangled. |
| `FileTransaction.InspectAll` | ears-manager/internal/cli/state.go:682-715 | Passes, nothing failing, exactly if every path is a file of the expected content, or absent where nothing is expected, with no file in the way; what it saves is the disk as it is. |
| `FileTransaction.WriteAll` | ears-manager/internal/cli/state.go:717-739 | Nothing failing, the writes before the first blocked one are made and no other. |
| `FileTransaction.BlockedExactly` | ears-manager/internal/cli/state.go:717-724 | With the earlier writes made, a file is in the way of a write exactly if a file was written above it. |
| `FileTransaction.OccupiedExactly` | ears-manager/internal/cli/state.go:859-880 | When its turn comes to be put back, a path that was absent still holds something exactly if a directory that is no governed path was made below it. |
| `FileTransaction.RestoreStep` | ears-manager/internal/cli/state.go:859-880 | Put back last first, a path fails in its turn exactly if it still holds something or lies below a file that was written; what it holds then is as it was, but for a directory that is held. |
| `FileTransaction.HeldIsEntangled` | ears-manager/internal/cli/state.go:859-880 | With every write made, some path is held up exactly if the writes are entangled, a condition on the paths alone. |
| `FileTransaction.StuckExactly` | ears-manager/internal/cli/state.go:859-880 | Some path cannot be put back in its turn exactly if a write was blocked or the writes are entangled. |
| `FileTransaction.Deduplicate` | ears-manager/internal/cli/state.go:639-650 | One write per path, the last one given, in path order. |
| `FileTransaction.LastWriteHolds` | ears-manager/internal/cli/state.go:714-738 | After success a governed path holds the last write to it exactly if no governed path lies below it. |
| `FileTransaction.DeletedPathHoldsDirectory` | ears-manager/internal/cli/state.go:714-730 | Deleting `a` while writing `a/b`, where neither existed, leaves a directory at `a`. |
| `FileTransaction.OthersUntouched` | ears-manager/internal/cli/state.go:717-739 | A path that no write names and none lies below is left as it was. |
| `FileTransaction.MissingParents` | ears-manager/internal/cli/state.go:809-831 | Lists exactly missing directories above a path, all others above it being directories; nothing failing, it fails only if a file is in the way; touches nothing. |
| `FileTransaction.Inspect` | ears-manager/internal/cli/state.go:682-714 | A path is refused, nothing failing, exactly if it is not ready: as a failed write if a file is in its way, as not allowed if it is a directory, else as a concurrent update. |
| `FileTransaction.ReplaceFile` | ears-manager/internal/cli/state.go:833-857 | The path holds the new content or what it held; nothing else but temporary files changes; in a directory that is there, without a failure, no temporary file is left, and it succeeds exactly if the path is no directory. |
| `FileTransaction.RollbackFiles` | ears-manager/internal/cli/state.go:859-903 | If it succeeds, everything but temporary files is as it was saved. If no operation fails, everything is as it was in any case, and it succeeds exactly if no path was, in its turn, held up by what was left in it or below a file. |
| `FileTransaction.NextIsEmpty` | ears-manager/internal/cli/state.go:887-902 | Deepest first, each created directory is empty when its turn comes. |
| `Symmetric.Draft.Synchronize` | ears-manager/internal/cli/commands.go:583-631 | Leaves each requirement as the edges call for, reports exactly the changed ones in ascending order, enters each once in the change set and nothing else; fails exactly if one to be changed is not open to revision. |
| `Symmetric.SynchronizedIsMutual` | ears-manager/internal/cli/commands.go:583-631 | With the others mutual among themselves, the store is mutual after the change exactly if no requirement names the source that the source neither names nor named. |
| `Symmetric.UpdateKeepsMutual` | ears-manager/internal/cli/commands.go:458-471 | An update of a requirement of a mutual store leaves a mutual store. |
| `Symmetric.AddKeepsMutual` | ears-manager/internal/cli/commands.go:262-272 | An addition to a mutual store leaves it mutual exactly if every requirement that already names the new one is named by it. |
| `Symmetric.AddCanBreakMutual` | ears-manager/internal/cli/commands.go:262-272 | Two requirement ids of the valid form, a store and an addition for which the synchronization alone leaves a one-sided relationship; the store before has an unregistered target, and the validation of the store after finds the asymmetry. |
| `Symmetric.AddToValidKeepsMutual` | ears-manager/internal/cli/commands.go:262-281 | An addition to a mutual store whose relationships all go to registered requirements always leaves it mutual. |
| `Symmetric.AsymmetryIsFound` | ears-manager/internal/specvalidation/relationships.go:66-95 | The validation finds a relationship that is not symmetric exactly if the store is not mutual. |
| `Symmetric.FindAsymmetry` | ears-manager/internal/specvalidation/relationships.go:42-95 | The loops over the requirements and their relationships find it. |
| `Symmetric.ValidateEdge` | ears-manager/internal/specvalidation/relationships.go:66-82 | Reports an unregistered target, a self-reference or a missing inverse, the first that applies and nothing else. |
| `Symmetric.OnlyTheSourceSide` | ears-manager/internal/cli/commands.go:643-662 | Everything in a requirement that is not a symmetric relationship to the source keeps its content and order. |
| `Symmetric.DealtMembers` | ears-manager/internal/cli/commands.go:608-622 | The inverse of an edge dealt with is there exactly if the edge is wanted; every other relationship is as it was. |
| `Symmetric.DealtChanges` | ears-manager/internal/cli/commands.go:616-618 | A requirement differs at the end exactly if some inverse on it was not as wanted: no later edge takes a change back. |
| `Symmetric.InverseLoop` | ears-manager/internal/cli/commands.go:643-662 | The loop computes the inverse and reports a modification exactly if there is one. |
| `Symmetric.Draft.Revise` | ears-manager/internal/cli/commands.go:670-695 | Enters a revision once, keeps one operation per requirement, and refuses exactly a requirement entered to be retired. |
| `Lexers.ParseSimple` | drafting-table/shell.go:23-131 | The strict lexer computes the reference lexing, words, stop or refusal, which `LexerRules.LexedExactly` states by position. |
| `LexerRules.LexedExactly` | drafting-table/shell.go:23-131 | A command is accepted if and only if all quotes and escapes close, no unquoted byte is one of the expansion, glob, comment, operator or redirection characters, no dollar sign or backquote stands unescaped in double quotes, no line is continued, only white space follows an unquoted line break, no word starts with an unquoted tilde, and there is a first word that is no assignment; its words are then exactly the runs of bytes between unquoted white space, without the quoting bytes. It stops for a here-document exactly at an unquoted operator with nothing but such bytes before it. |
| `LexerRules.LexReads` | drafting-table/shell.go:33-119 | From any position, in step with the bytes before it, the lexer finds what the bytes after it say. |
| `LexerRules.AssignsExactly` | drafting-table/shell.go:21 | A word is an assignment exactly if an equals sign follows a variable's name, or the name of an exported function. |
| `Lexers.Segments` | drafting-table/shell_analysis.go:710-801 | Computes the splitting that `LexerRules.SplitExactly` states by position. On every command the strict lexer accepts, the segments are its words line by line, quoted control words marked; there is one segment exactly if all the words are on one line. |
| `LexerRules.SplitExactly` | drafting-table/shell_analysis.go:710-801 | On every command the segments are exactly the runs between unquoted line breaks, separators and parentheses that have any words, and the words of each exactly the runs between unquoted white space and redirections, without the quoting bytes, quoted control words marked; a final lone backslash is dropped, and the first unquoted here-document operator stops it with the segments ended before. |
| `LexerRules.SkipReads` | drafting-table/shell_analysis.go:774-778 | Skipping a run of separators at once ends no further segment. |
| `Lexers.LinesAreAll` | drafting-table/shell_analysis.go:710-801 | Line by line they are all the words, in order. |
| `Lexers.OneLine` | drafting-table/shell_analysis.go:710-801 | There is one line of words exactly if all are on the same one. |
| `Lexers.SecondSegment` | drafting-table/shell.go:95-117 | A command the strict lexer accepts with two segments: white space after a line break that both lexers take for a word. |
| `Lexers.StepsAgree` | drafting-table/shell_analysis.go:735-799 | Wherever the strict lexer goes on, the splitting lexer takes the same step. |
| `Lexers.BothLexers` | drafting-table/shell.go:23-131 | For every command, acceptance implies that both report the same non-empty word list up to the mark. |
| `Lexers.MarkHides` | drafting-table/shell_analysis.go:1203-1210 | A marked word is never taken for a control word. |

## Left out

- `SeedWorkItem`, which installs any record: runs start from the empty store, and work items come from materialization.
- What queries and projections list, and the titles, labels and notes of issues: plumbing around the same records.
- JSON decoding, hashing, and the retrying client: payloads are decoded values, digests the values themselves, and a retry is another attempt by the client.
- The Finding Ledger (`finding.create` is refused as unavailable), mutex mechanics, and 64-bit overflow of counters and versions.
- The GitHub semantic-request index as an invariant, token uniqueness across GitHub restarts, and atomicity across a request and its linked records: the code does not keep them.
- Edits of issues from outside the adapters.
- `GitHubAdapter.Adapter.RunRead`: hydration of the work-item indexes and the contents of queries are not modelled; a read is found, not found or unavailable.
- `FileTransaction.Inspect`: symbolic links and path validation are not modelled; a path is absent, a file or a directory.
- `FileTransaction.Disk.Chmod`: a mode is its permission bits; special bits, which the rollback does not restore, are not modelled.
- `Symmetric.Draft.Synchronize`: requires unique requirement ids and at most one operation per requirement in the change set, as a validated project has; what duplicates would do is not stated.
- `GitHubAdapter.Adapter.SeedGateApproval`: requires the approval to be the one the Gate bound to that id; adapters seeded with contradicting approvals are not covered.
- Governed paths with the name of a temporary file of the transaction: required not to occur.
- `Lexers.Segments`: here-documents end the model of the splitting lexer; the strict lexer reports where one starts. Redirect scanning and the guard's policy are not modelled.
- `Symmetric.ValidateEdge`: the status of a superseded requirement, cycles, duplicates and id formats are not modelled.
- The rest of requirement validation, record storage and encoding, Git queries and branch handling of `ears-manager`; the guard's path resolution and argument inventories.
