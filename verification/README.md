# Hermes AEC runtime: verified model

A Dafny model of the transactional core of the Hermes AEC runtime: how a typed batch of CAD operations is validated,
compiled, sent to a host at most once, and turned into evidence that can be trusted.

**The keyed Rhino transaction.** `Operations` and `Normalization` validate a batch, and `Readings` says, without the parser,
what a raw batch means; `Mapping` compiles it to plugin commands. `Script` is the reference interpreter that the generated
Rhino script embeds, `Plugin` the command list with its alias resolver, and `Host` the document and the geometry kernel both
act on. `ScriptEffects` gives the script's effect object by object, and what the id lists it prints tell about it. `Agreement` and `BatchAgreement` prove that
the two backends agree, `AliasSafety` when they can fail on a reference, and `Divergence` gives the batches on which they
part. `RunHistory` follows one run command by command. `Receipts`, `ReceiptTruth`, `ReceiptStatus`, `Gateway` and `Pagination`
cover what a locked execution does, what its receipt and each of its statuses mean, and the scene cache and page loops. `RhinoProtocol` is the concurrent
idempotency protocol as a step function over callers, futures, receipts, lock, document, the turns its holders have with the
document, one command per event, and commands that take effect when nobody waits for them any more; a schedule is any
sequence of events, and `RhinoProtocolProofs` holds for all of them.
`ConcurrentReceipts` joins the two: what a receipt means when other callers write to the same document. `Framing` is the
wire format.

**The sibling protocols.** `LockedGateway` and `LockedProofs` (Blender and FreeCAD: check, lock, check again, and one script
between two scene reads), `RhinoClient` (futures plus a receipt persisted in the document, across restarts) and
`ComfyProtocol` (lock plus prompt-id reconciliation) are modelled the same way, the first two with the document their
scripts change.

`RhinoCalls`, `LockedCalls`, `RhinoClientCalls` and `ComfyCalls` are the gateway objects, with fields updated in place. Each
method is proved to carry out a run of the corresponding step function, for a call that no other call interrupts; what is
proved of all schedules is proved of the step functions, and holds of the objects as far as their calls do not overlap.
`RhinoCalls` runs the locked section of `Gateway` on the real document and commands.

**The evidence layer.** `HostContract`, `Verification`, `VerifierInput` and `VerifierTruth` are the scene envelope and the
independent verifier; `Focus` the ranked scene query; `Sanitizer`, `Evidence`, `ThreeSinks` and `Orchestrator` redaction,
grading, the training gate and the workflow that ties them together; `Journal` the append-only flight recorder.

## Where code and documentation part

The model follows the code. The disagreements below are results, each proved.

- `docs/RHINOMCP_DIRECT_TRANSPORT.md` says failed receipts are replayed without another mutation. That holds for stored
  receipts; an owner that ends by exception stores none, and the next caller of the key writes again
  (`FailedOwnerFreesKey`; `SecondWriterNeedsFailure` says that the earlier of two writers always ended so).
- `scene_index` is written for servers that cap a page below the requested limit; the before- and after-reads of an
  execution are not, and under such a cap they are complete only if one page holds everything (`UnlockedComplete`). An
  answered lone create beyond the cap then ends `unknown` (`LoneCreateUnderCap`), and a fresh index without a reported
  total can leave an incoherent cache (`SceneIndex`).
- `docs/rhinomcp-adapter-map.md` calls transforms and duplicates unsupported; the compiler supports both, so the legacy
  executor kept for them is never reached (`LegacyExecutorUnreachable`).
- The command list is narrower than the script: a scalar reference must stand for exactly one object, and a reference to a
  delete or an attribute change is never bound (`BackendsAgree`, `UnboundReferenceNeverRuns`; `UnboundReferenceSplits` and
  `ManyCopiesFailOnAlias` are the batches). Names and layers starting with `$` are taken for references: one such command
  always fails or leaves another document than the script (`DollarTextDiverges`, `DollarBatchDiverges`).
- A batch that labels or transforms an object it made itself never ends `completed`: the object is not in the before-scene,
  so its edit cannot show (`CompletedIff`, `EditOfOwnObjectNeverCompletes`).
- `RhinoClient` treats a recovery read that does not reach Rhino as "nothing found". Its script may then run twice
  (`RestartWithFailedReadRunsTwice`); a failed recovery read is the only way (`SecondExecutionIsBlind`). An `unknown`
  receipt asks to be reconciled with the same key, but within one process the key only replays it (`MemoryIsSticky`).
- Blender, FreeCAD and ComfyUI send once per key unless a caller is cancelled while it holds the lock
  (`SecondSendNeedsCancellation`, `CancelledCallerResends`, `SecondSubmissionNeedsCancellation`). The orchestrator's stage
  budgets cancel.
- A receipt compares two scenes. The lock keeps every caller's writes out of another's turn, but not a command or script that
  its caller gave up on and that takes effect late. Without such strays receipts show their caller's own effect
  (`ConcurrentReceiptIsTrue`, `QuietReceiptsAreOwn`, `CompletedShowsOwnEffect`); with one, the next caller's receipt can claim
  it (`StrayCommandIsClaimed`, `StrayScriptIsClaimed`).
- ComfyUI's second check ignores the fingerprint (`LateCallerGetsForeignReceipt`, `LateCallerSavesForeignImage`), and
  overlapping lookups can undo a completed status (`OverlappingLookupsRegress`).
- `docs/FLIGHT_RECORDER.md` says readers ignore an interrupted final line. A write interrupted inside a multi-byte
  character makes every later read raise after the earlier traces, so that nothing can be appended any more (`TornRead`,
  `WideTraceCanTear`, `FlightRecorder.Append`); ASCII lines are safe (`AsciiNeverTears`).
- `docs/WORKFLOW_MEMORY.md` describes a quarantined state; under the default policy nothing is ever quarantined
  (`PromotedIffVerified`).
- The recorder's comment says that deterministic replays deduplicate, because the trace id leaves out the creation time. It
  leaves out nothing else: run timing and correlation id are part of it (`TraceIdTells`).
- The training gate refuses traces with a script among their operations, but it reads the sanitised trace, which keeps a
  hundred operations of a batch; a later script is not seen (`GateDecides`).
- `docs/ORCHESTRATION.md` says every attempted mutation becomes a trace. A receipt with a transcript-shaped key, such as
  `message` in a raw host reply, makes the run raise after the mutation, with the outcome remembered and no trace
  (`Finish`).
- A write whose answer has a malformed header is reported as a plain failure, not as an ambiguous write (`Exchange`).

## Model

| member | source | states |
|---|---|---|
| Normalization.NormalizeRange | src/hermes_aec_runtime/operations.py:82-177 | The batches normalisation can return are exactly those whose operations are each acceptable after the ids before them (both directions). |
| Normalization.NormalizeIdempotent | src/hermes_aec_runtime/operations.py:82-177 | Normalising the rendering of any normalised batch returns it unchanged, so the fingerprinted batch is the one the compiler normalises again. |
| Normalization.ReferencesNameOneEarlierOp | src/hermes_aec_runtime/operations.py:58-73 | Every `$name` in a normalised batch names exactly one operation of it, which is strictly earlier. |
| Normalization.IdsAreUnique | src/hermes_aec_runtime/operations.py:95-100 | Operation ids of a normalised batch are pairwise different. |
| Normalization.RenderedParses | src/hermes_aec_runtime/operations.py:88-176 | One acceptable operation, written out as its canonical object, validates back to itself. |
| Normalization.ParsedIsOk | src/hermes_aec_runtime/operations.py:88-176 | Whatever the per-kind validation accepts satisfies that kind's bounds, reference and id rules. |
| Readings.NormalizeReads | src/hermes_aec_runtime/operations.py:43-177 | Field by field and without the parser: normalisation returns a batch if and only if the raw batch says it. Integers and decimals are the numbers they spell, `closed` defaults to false, `cap` and `delete_input` to true, `normal` to (0,0,1), a missing id to `op_` and the decimal position, optional fields are there exactly if given, and no other field is. |
| Readings.OpReads | src/hermes_aec_runtime/operations.py:88-176 | One raw object is read as an operation if and only if it says that operation and the operation is within the bounds of its kind, each written out. |
| Readings.NormalizeOperations | src/hermes_aec_runtime/operations.py:82-177 | The validation loop, with its growing list and alias set, returns a batch exactly if the raw batch says it, and refuses every other batch. |
| Mapping.CompileRhinoMcpCommands | src/hermes_aec_runtime/rhinomcp_mapping.py:34-111 | The compilation loop emits the operations' commands in batch and target order; it fails exactly when a boolean difference has several base targets. |
| Mapping.AppendTargets | src/hermes_aec_runtime/rhinomcp_mapping.py:67-108 | The inner loop appends one command per target, in target order. |
| Mapping.CompileFailsOnlyOnDifference | src/hermes_aec_runtime/rhinomcp_mapping.py:85-88 | A batch compiles if and only if each boolean difference has one base target. |
| Mapping.LegacyExecutorUnreachable | src/hermes_aec_runtime/rhinomcp_transport.py:343-349 | A batch of transforms and duplicates always compiles, so the legacy executor of the compile-error branch is never consulted. |
| BatchAgreement.BackendsAgree | src/hermes_aec_runtime/rhinomcp_transport.py:392-404 | For every normalised batch with plain names and layers and with literal GUIDs that are not still to be supplied: the command run succeeds if and only if the reference script succeeds and every reference can be served; it then leaves the same document and binds the same ids. |
| BatchAgreement.BatchCompilable | src/hermes_aec_runtime/operations.py:107-114 | In a normalised batch every polyline has the points its compilation looks at. |
| BatchAgreement.SuffixAgrees | src/hermes_aec_runtime/operations.py:222-301 | The same from any pair of related intermediate states, by induction over the operations. |
| BatchAgreement.OpAgrees | src/hermes_aec_runtime/operations.py:222-301 | One operation: its commands succeed exactly when the script's step does and its references are served, and the states stay related. |
| BatchAgreement.CombineAgrees | src/hermes_aec_runtime/operations.py:285-300 | The plugin boolean on looked-up operands is the script's boolean, including the deletion of consumed inputs. |
| BatchAgreement.AliasesKept | src/hermes_aec_runtime/operations.py:301-301 | Later operations never change what an earlier alias stands for. |
| Agreement.CreateAgrees | src/hermes_aec_runtime/rhinomcp_mapping.py:45-66 | A create command, with boxes rebuilt from size and centre and polylines closed, adds the object the script adds. |
| Agreement.TargetAgrees | src/hermes_aec_runtime/rhinomcp_mapping.py:67-108 | Sending one per-target command is one iteration of the script's loop over that target, with equal success, document and ids. |
| Agreement.TargetsAgree | src/hermes_aec_runtime/rhinomcp_mapping.py:67-108 | The command sequence of one operation succeeds exactly when its scalar references resolve and the script's loop succeeds, with equal effect. |
| Agreement.ResolveTarget | src/hermes_aec_runtime/rhinomcp_transport.py:488-507 | Among plain parameters alias resolution replaces the target only, and fails exactly when the alias does not stand for one id. |
| Plugin.RunConcat | src/hermes_aec_runtime/rhinomcp_transport.py:395-404 | Running two command lists one after the other is running their concatenation. |
| ScriptEffects.PrintedListsAreTrue | src/hermes_aec_runtime/operations.py:217-304 | For every batch and document the id lists the script prints are a true account: the objects that appeared are those created and not deleted again, those that vanished are those deleted that were there, and any other is as it was unless listed as modified. |
| ScriptEffects.CombineMeans | src/hermes_aec_runtime/operations.py:285-300 | A boolean is refused exactly if an operand is missing, an intersection has not two, or nothing comes of it; otherwise its pieces are there under new ids, the operands are gone and reported once each exactly if it consumes them, and every other object is as it was. With CombineAgrees the same holds of the plugin. |
| ScriptEffects.CopiesMean | src/hermes_aec_runtime/operations.py:245-250 | A duplicate makes one new object per target in order, with the source's attributes, an extrusion with the default ones, and leaves every old object alone. |
| ScriptEffects.ChangesMean | src/hermes_aec_runtime/operations.py:234-269 | A transform changes each target's geometry and nothing else of it, an attribute change the attributes given and nothing else; targets are reported as modified and every other object stays. |
| ScriptEffects.DeletesMean | src/hermes_aec_runtime/operations.py:251-254 | Exactly the targets of a delete go, and are reported. |
| ScriptEffects.OffsetMeans | src/hermes_aec_runtime/operations.py:278-284 | The pieces of an offset curve are there in order under new ids. |
| ScriptEffects.CreateMeans | src/hermes_aec_runtime/operations.py:217-233 | A create adds its one object under a new id with the default attributes. |
| AliasSafety.SafeBatchNeverFailsOnAlias | src/hermes_aec_runtime/rhinomcp_transport.py:396-403 | If no reference names a delete or attribute change and each scalar reference names an operation with one output, execution never fails on an alias, whatever the document holds. |
| AliasSafety.UnboundReferenceNeverRuns | src/hermes_aec_runtime/rhinomcp_mapping.py:67-75 | A batch that refers to a delete or an attribute change never runs as commands. |
| Divergence.UnboundReferenceSplits | src/hermes_aec_runtime/rhinomcp_mapping.py:67-75 | Such a batch that the script accepts: on a document with the object, setting attributes of a literal id and then of its `$id` succeeds in the script and fails as commands. |
| Divergence.ManyCopiesFailOnAlias | src/hermes_aec_runtime/rhinomcp_transport.py:488-507 | The textual condition of SafeBatchNeverFailsOnAlias cannot be dropped: a batch that duplicates several objects and then refers to the copies in one scalar place fails on that alias. |
| Divergence.DollarTextDiverges | src/hermes_aec_runtime/rhinomcp_transport.py:488-493 | The plain-text condition is exact for one attribute change: whenever its name or layer text starts with `$`, the script accepts it as it is and the command fails or leaves another document, from every state and for every resolvable target. |
| Divergence.DollarBatchDiverges | src/hermes_aec_runtime/rhinomcp_transport.py:488-493 | A receivable batch on every document: create an object and name it after its own reference; both backends finish, never with the same document. |
| AliasSafety.RunKeeps | src/hermes_aec_runtime/rhinomcp_transport.py:395-404 | Every successful command run keeps the document valid, brings in no id but newly supplied ones, and only extends what aliases are bound to. |
| ReceiptTruth.DeltaIsTrue | src/hermes_aec_runtime/rhinomcp_transport.py:410-417 | With an injective hash the reported created, deleted and modified ids are exactly the difference of the two documents. |
| ReceiptTruth.FinishedIsRun | src/hermes_aec_runtime/rhinomcp_transport.py:395-408 | The sending loop finishes if and only if every reply arrives and the whole list runs, and then in the same state. |
| RunHistory.RunSendsAll | src/hermes_aec_runtime/rhinomcp_transport.py:395-404 | A successful run sends each command once, in order. |
| RunHistory.SentIsResolved | src/hermes_aec_runtime/rhinomcp_transport.py:397-404 | The j-th entry of the receipt's results is the j-th command with its parameters under the bindings of that moment. |
| RunHistory.DeletedIsGone | src/hermes_aec_runtime/rhinomcp_transport.py:395-404 | What a delete named, in whatever spelling of the GUID, was there before it and is not in the final document: later ids are never old ones. |
| RunHistory.MadeIdsAreNew | src/hermes_aec_runtime/rhinomcp_transport.py:399-403 | An alias bound only by commands that make objects holds only ids supplied during the run. |
| ReceiptTruth.CompletedIff | src/hermes_aec_runtime/rhinomcp_transport.py:405-440 | On every valid document an execution ends `completed` if and only if every command was answered and ran, something is bound or nothing had to be, every bound id exists, and every edit shows: named by its canonical id, on an object that was there before, is still there and is no longer the same. |
| ReceiptTruth.CompletedMeans | src/hermes_aec_runtime/rhinomcp_transport.py:405-439 | `completed` implies that the batch ran once in order with its resolved parameters, that every bound id exists and every edit shows, and that what each delete named, in any spelling, is gone. |
| ReceiptTruth.CompletedMatchesScript | src/hermes_aec_runtime/rhinomcp_transport.py:392-440 | A completed receipt's document and outputs are those of the reference script on the normalised batch. |
| ReceiptTruth.EditOfOwnObjectNeverCompletes | src/hermes_aec_runtime/rhinomcp_transport.py:425-440 | A compiled batch in which an attribute change or transform targets `$a` for an earlier operation `a` that makes objects never ends `completed`, on any document and whatever the transport does. |
| ReceiptTruth.LoneCreateReconciled | src/hermes_aec_runtime/rhinomcp_transport.py:405-439 | A lone create, duplicate or extrusion whose reply is lost is `reconciled` if and only if the write took effect; the alias is then bound to the one new object, and otherwise the status is `unknown` and nothing is bound. |
| ReceiptStatus.StatusMeans | src/hermes_aec_runtime/rhinomcp_transport.py:392-447 | For every batch, document and fate of the replies, in terms of runs alone: after how many commands the loop stops, what it leaves of the document, what was sent, and all four statuses exactly. `failed`: the first command that does not go through did not resolve, never left, came back unreadable, or was refused or answered without the ids it had to return. `reconciled` and a broken `unknown`: its reply was lost. `completed` and `reconciled`: something is bound or nothing had to be, what is bound exists, each edit shows; and which object a lost `id` or `result_id` is matched to. |
| ReceiptStatus.LoopStops | src/hermes_aec_runtime/rhinomcp_transport.py:395-408 | The sending loop stops after the longest prefix of the batch whose replies all arrive and whose run succeeds, with the document changed by the last command exactly if that arrived and was accepted. |
| ReceiptStatus.StopsOnce | src/hermes_aec_runtime/rhinomcp_transport.py:395-408 | There is one such stopping point. |
| ReceiptStatus.DeletesHoldAfter | src/hermes_aec_runtime/rhinomcp_transport.py:395-417 | What the answered commands deleted is absent from the after-scene whatever the last, broken command did. |
| Gateway.LoneCreateUnderCap | src/hermes_aec_runtime/rhinomcp_transport.py:466-479 | Against a server that caps pages, an answered lone create, duplicate or extrusion ends `completed` if and only if the cap is at least 1000 or the listing is shorter than the cap. |
| Gateway.RhinoMCPGateway.ExecuteLocked | src/hermes_aec_runtime/rhinomcp_transport.py:355-464 | The locked section: which exits leave the document alone, what the document is otherwise, and that on every exit, exceptions included, the scene cache is coherent whatever it held before. Where both scene reads reach the end of the listing the receipt accounts for the batch as StatusMeans says. |
| Gateway.RhinoMCPGateway.SceneIndex | src/hermes_aec_runtime/rhinomcp_transport.py:260-300 | The cache always holds a prefix of the document; exactly when a reply is a hit, and that it is then the cached scene, at least min(N, max_objects) long if the cache was coherent; a fresh index is the first min(N, max_objects) objects, and leaves the cache coherent, if and only if its pages reach the end, and otherwise shows one page. |
| Pagination.ReadIndex | src/hermes_aec_runtime/rhinomcp_transport.py:267-294 | With a reported total and any page cap the loop returns exactly the first min(N, max_objects) objects, `truncated` iff N exceeds the maximum; without a total the exact result for honoured and for capped pages. |
| Pagination.ReadUnlocked | src/hermes_aec_runtime/rhinomcp_transport.py:466-479 | The unlocked read returns everything, or only the first page when the server caps pages below 1000. |
| Pagination.UnlockedComplete | src/hermes_aec_runtime/rhinomcp_transport.py:470-479 | The unlocked read is complete if and only if the cap is at least 1000 or one page holds everything. |
| RhinoProtocolProofs.AtMostOneOwner | src/hermes_aec_runtime/rhinomcp_transport.py:302-336 | Under every schedule callers sharing a key have at most one owner being served or returned, in total. |
| RhinoProtocolProofs.OthersQuoteTheOwner | src/hermes_aec_runtime/rhinomcp_transport.py:309-316 | Every other answered caller of a key quotes the owner's receipt: replayed under the same fingerprint, a conflict under another, and without a write of its own. |
| RhinoProtocolProofs.SecondWriterNeedsFailure | src/hermes_aec_runtime/rhinomcp_transport.py:330-336 | Under every schedule, of two turns at the document under one key the earlier holder ended by exception. |
| RhinoProtocolProofs.TurnsAreSerial | src/hermes_aec_runtime/rhinomcp_transport.py:355-404 | Under every schedule the document is what the turns made of it one after another, each from the document its predecessor left, and every turn in which no stray command took effect is on its way to what its commands come to alone. |
| RhinoProtocolProofs.ReceiptIsOwnEffect | src/hermes_aec_runtime/rhinomcp_transport.py:355-464 | The receipt a caller returns compares the two scene reads of its one turn; without a stray command in between it is that of its own commands, run alone from the document of its before-read. |
| RhinoProtocolProofs.StraysWereGivenUp | src/hermes_aec_runtime/rhinomcp_transport.py:91-94 | Only commands whose reply their caller gave up on can be stray: that of a call which ended by exception, or one whose reply the transport lost before it was applied. |
| RhinoProtocolProofs.StrayCommandIsClaimed | src/hermes_aec_runtime/rhinomcp_transport.py:391-417 | The condition is needed: a cancelled caller's command takes effect in the next caller's turn, whose receipt compares the document before it with the one after both. |
| RhinoProtocolProofs.SendLoop | src/hermes_aec_runtime/rhinomcp_transport.py:393-408 | Sending one command per event comes to what the sending loop comes to in one go. |
| ConcurrentReceipts.ConcurrentReceiptIsTrue | src/hermes_aec_runtime/rhinomcp_transport.py:377-464 | Under every schedule and with complete scene reads, a returned receipt's created, deleted and modified ids are exactly the difference between the document its turn found and the one at its end; if no stray command took effect in the turn, it is the receipt of the caller's batch executed alone on the document the turn found. |
| ConcurrentReceipts.QuietReceiptsAreOwn | src/hermes_aec_runtime/rhinomcp_transport.py:355-464 | On every schedule without stray commands each returned receipt is that of its caller's own batch, executed alone on the document its turn found. |
| ConcurrentReceipts.ReturnedHasTurn | src/hermes_aec_runtime/rhinomcp_transport.py:355-464 | Every returned execution belongs to a turn of the schedule. |
| ConcurrentReceipts.ConcurrentCompletedMeans | src/hermes_aec_runtime/rhinomcp_transport.py:405-440 | `completed` keeps its meaning among concurrent callers, in a turn without stray commands: the batch ran once in order from the document the turn found, and at its end bindings exist, edits show and deleted objects are gone. |
| ConcurrentReceipts.ConcurrentStatusMeans | src/hermes_aec_runtime/rhinomcp_transport.py:302-464 | All four statuses keep their meaning under every schedule: in a turn without stray commands the receipt accounts for the caller's batch run alone from the document the turn found to the one at its end. |
| ConcurrentReceipts.ConcurrentMatchesScript | src/hermes_aec_runtime/rhinomcp_transport.py:392-440 | In such a turn a completed receipt's document is the one the reference script makes of the one the turn found. |
| ConcurrentReceipts.DocsAfter | src/hermes_aec_runtime/rhinomcp_transport.py:355-464 | On every schedule, stray commands included, the documents that turns find and leave stay valid, and no later one holds a new object but under an id supplied in between. |
| ConcurrentReceipts.ReceiptsAreDisjoint | src/hermes_aec_runtime/rhinomcp_transport.py:410-417 | Receipts of different callers never claim the same creation or the same deletion, and what one deleted a later one neither creates nor modifies, stray commands or not. |
| RhinoProtocolProofs.WaitersAreServed | src/hermes_aec_runtime/rhinomcp_transport.py:314-316 | A waiting caller's owner is still being served, or its future is settled; waking then ends the call with the owner's receipt, a replay exactly if the fingerprints agree, or by exception if the owner's future broke. |
| RhinoProtocolProofs.RevisionsDecide | src/hermes_aec_runtime/rhinomcp_transport.py:377-390 | On every schedule each turn begins from a document of the revision its caller expected, and a call refused as stale had read a document of another one. |
| RhinoProtocolProofs.RaisedHasReason | src/hermes_aec_runtime/rhinomcp_transport.py:309-336 | A call only raises for an invalid request, or when it failed itself or waited for one of its key that did. |
| RhinoProtocolProofs.ReportsHaveReason | src/hermes_aec_runtime/rhinomcp_transport.py:343-376 | Only dry runs and uncompilable batches are answered before the lock, and only calls refused for the plugin's capabilities report that. |
| RhinoProtocolProofs.FailedOwnerFreesKey | src/hermes_aec_runtime/rhinomcp_transport.py:330-336 | The exception is real: a concrete schedule in which an owner's failed after-read frees the key and the next caller writes again. |
| RhinoProtocolProofs.StepKeepsInv | src/hermes_aec_runtime/rhinomcp_transport.py:302-336 | Every event keeps the protocol's invariant over callers, futures, receipts, lock, document and turns. |
| RhinoCalls.KeyedGateway.ExecuteOperations | src/hermes_aec_runtime/rhinomcp_transport.py:302-336 | One uninterrupted keyed call around the locked section is a run of the protocol with the real document: a bound key answers from its receipt and touches nothing, a free one leaves the document and gives the receipt its commands come to, or frees its key when an exception escapes. |
| RhinoCalls.KeyedGateway.Hold | src/hermes_aec_runtime/rhinomcp_transport.py:355-464 | The locked section carried out by the inner gateway is the holder's turn of the protocol: before-read, one event per command, and its end. |
| RhinoClientProofs.SecondExecutionIsBlind | src/hermes_aec_runtime/rhino.py:307-311 | Across all schedules and restarts, of two executions under one key the later one came from another call whose recovery read had failed. |
| RhinoClientProofs.AtMostOneExecution | src/hermes_aec_runtime/rhino.py:204-257 | A key whose recovery reads all reach Rhino runs its script at most once, over restarts, lost replies and late scripts. |
| RhinoClientProofs.KnownReceiptsRan | src/hermes_aec_runtime/rhino.py:363-390 | Every receipt with a known fate ever answered for a key is the one a script of that key printed when it ran. |
| RhinoClientProofs.KnownReceiptsShowTheirRun | src/hermes_aec_runtime/rhino.py:324-361 | Under every schedule there is one history of the document, told by the scripts alone: each run leaves what its script leaves, or what it found if the script raised and its recorded undo works. Every receipt with a known fate reports one run of that history: failed if and only if its script raised, created and deleted ids the difference of the documents around it, and rolled back if and only if it raised, was undone and the ids are as before. |
| RhinoClientProofs.WaitersAreServed | src/hermes_aec_runtime/rhino.py:225-238 | A waiting call's owner, of the same key, is still served or has been answered, and waking then ends the call with the owner's receipt, a replay exactly if the fingerprints agree. |
| RhinoClientProofs.RaisedHasReason | src/hermes_aec_runtime/rhino.py:225-257 | A call only raises when it fails itself or waited for one of its key that did. |
| RhinoClientProofs.ImmediateHasReason | src/hermes_aec_runtime/rhino.py:284-305 | Only dry runs and scripts that break the policy are answered without touching Rhino. |
| RhinoClientProofs.KnownReceiptsAgree | src/hermes_aec_runtime/rhino.py:187-202 | Two calls of such a key that both learn a fate learn the same receipt, in any lives of the sidecar. |
| RhinoClientProofs.ReplaysMatch | src/hermes_aec_runtime/rhino.py:225-238 | A replayed receipt is always one of the caller's own payload. |
| RhinoClientProofs.MemoryIsSticky | src/hermes_aec_runtime/rhino.py:225-229 | A remembered receipt, even an unknown one, answers its key until a restart. |
| RhinoClientProofs.RestartWithFailedReadRunsTwice | src/hermes_aec_runtime/rhino.py:199-202 | The condition is exact: a restart and failed recovery reads give a run that executes the script twice. |
| RhinoClientProofs.StepKeepsInv | src/hermes_aec_runtime/rhino.py:259-421 | Every event keeps the invariant over memory, persisted receipts, pending scripts and executions. |
| RhinoClientCalls.Client.ExecutePython | src/hermes_aec_runtime/rhino.py:204-421 | One uninterrupted call is a run of the protocol. A remembered or persisted key leaves the document alone. Otherwise a served script that did not raise leaves what it made, one that raised leaves the old document if its undo was recorded and works and what it made if not, and a receipt that comes back says exactly that; an unserved script leaves the document alone. |
| RhinoClientCalls.Client.Recover | src/hermes_aec_runtime/rhino.py:307-322 | The recovery read: replay, conflict, or go on, with a failed read treated as nothing found. |
| RhinoClientCalls.Client.Collect | src/hermes_aec_runtime/rhino.py:363-421 | The reply, the persisted receipt, or an unknown receipt, remembered under the key. |
| LockedProofs.SecondSendNeedsCancellation | src/hermes_aec_runtime/blender.py:200-232 | Under every schedule, of two sends under one key the earlier caller was cancelled. |
| LockedProofs.AtMostOneSend | src/hermes_aec_runtime/freecad.py:79-105 | Without cancellation the script of a key is sent at most once, whatever the transport does. |
| LockedProofs.FailureSticks | src/hermes_aec_runtime/blender.py:226-229 | A failure anywhere under the lock leaves an unknown receipt that every continuation keeps and every later call quotes without sending. |
| LockedProofs.ReceiptsAreSticky | src/hermes_aec_runtime/blender.py:226-231 | A stored receipt never changes. |
| LockedProofs.OnlyRunsBind | src/hermes_aec_runtime/blender.py:209-231 | Dry runs, stale blocks, conflicts and cancelled calls never bind a key; a receipt's owner asked for a real run, and only it and cancelled callers sent the script. |
| LockedProofs.OthersNeverSend | src/hermes_aec_runtime/blender.py:205-217 | Every answer but the owner's came without a send, and replays and conflicts quote the key's one receipt. |
| LockedProofs.RevisionsDecide | src/hermes_aec_runtime/blender.py:219-221 | A script only goes out after a scene read of the expected revision, and a call is refused as stale only after one of another revision. |
| LockedProofs.AnswersAreJustified | src/hermes_aec_runtime/blender.py:200-232 | On every schedule a call is refused exactly if its request is invalid, validated only as a dry run, and replays and conflicts quote the receipt its key holds, told apart by the fingerprint. |
| LockedProofs.CompletedShowsItsTurn | src/hermes_aec_runtime/host_contract.py:42-49 | On every schedule a completed receipt's delta is the difference of two scenes of the document's history, between which ran the caller's script and, beside it, only scripts whose callers had given up on them. |
| LockedProofs.CompletedShowsOwnEffect | src/hermes_aec_runtime/host_contract.py:42-49 | Where no script was lost, a completed receipt shows exactly what its caller's script did to the document it found. |
| LockedProofs.StrayScriptIsClaimed | src/hermes_aec_runtime/blender.py:222-230 | Otherwise it need not: a script whose reply was lost runs during the next caller's turn, and that caller's completed receipt shows the joint effect. |
| LockedProofs.StepKeepsInv | src/hermes_aec_runtime/blender.py:200-232 | Every event keeps the invariant over callers, receipts, lock, sent scripts and scripts that ran. |
| LockedProofs.CancelledCallerResends | src/hermes_aec_runtime/blender.py:218-229 | The exact exception: a caller cancelled while its script is out lets the next call send again. |
| LockedCalls.HostGateway.Execute | src/hermes_aec_runtime/blender.py:200-232 | One uninterrupted call on the gateway object is a run of the protocol with the real document: the answer, the stored receipt, the sends and the document, for every request, stored receipt, document and transport; a completed receipt shows the script's own effect. |
| LockedCalls.HostGateway.Serve | src/hermes_aec_runtime/blender.py:217-232 | The section under the lock: stale exactly if the before-scene was read and has another revision than expected, completed exactly if both scenes were read and sound and the script ran and replied, unknown otherwise. |
| LockedCalls.HostGateway.Look | src/hermes_aec_runtime/freecad.py:93-97 | The before-scene decides: unreadable or with unsound ids is unknown, another revision is stale, and otherwise the script goes out. |
| LockedCalls.HostGateway.Conclude | src/hermes_aec_runtime/freecad.py:98-105 | The script's run, its reply and the after-scene: completed with the delta of the two scenes, or unknown. |
| LockedCalls.HostGateway.CheckFirst | src/hermes_aec_runtime/freecad.py:81-87 | The check before the lock: invalid, replay, conflict, dry run, or go on. |
| ComfyProtocolProofs.SecondSubmissionNeedsCancellation | src/hermes_aec_runtime/comfyui.py:255-315 | Of two submissions under one key the earlier caller was cancelled. |
| ComfyProtocolProofs.AtMostOneSubmission | src/hermes_aec_runtime/comfyui.py:255-315 | Without cancellation a key is queued at most once, whatever server and transport do. |
| ComfyProtocolProofs.ReconcilersNeverSubmit | src/hermes_aec_runtime/comfyui.py:215-230 | Callers that look a receipt up, or were answered from one, never submitted. |
| ComfyProtocolProofs.PromptIsSticky | src/hermes_aec_runtime/comfyui.py:215-230 | Once a key is bound its owner, fingerprint and prompt id stay for good. |
| ComfyProtocolProofs.LookupReports | src/hermes_aec_runtime/comfyui.py:215-230 | A lookup stores completed exactly for a saved image and failed exactly for a failed workflow, keeps the submission, and stores nothing when the transport raises. |
| ComfyProtocolProofs.OwnerIsTold | src/hermes_aec_runtime/comfyui.py:262-315 | On every schedule an owner's answer is the receipt of what came of its one submission: failed without a prompt, unknown with the refused or lost prompt, or completed with its own output path. |
| ComfyProtocolProofs.OwnStatusMeans | src/hermes_aec_runtime/comfyui.py:262-315 | So it is failed if and only if it has no prompt id, and completed only if its accepted prompt finished and its image was saved, with its own output path exactly then. |
| ComfyProtocolProofs.RaisedHasReason | src/hermes_aec_runtime/comfyui.py:232-260 | A call only raises for an invalid request, an output path that is taken, or a lookup that fails. |
| ComfyProtocolProofs.SequentialRunsAdvance | src/hermes_aec_runtime/comfyui.py:245-253 | When calls of a key do not overlap, a status moves only from unknown to unknown, completed or failed. |
| ComfyProtocolProofs.RegressionIsStaleLookup | src/hermes_aec_runtime/comfyui.py:215-230 | An event changes a settled receipt if and only if it ends a lookup of that key, begun while the receipt was unknown, with another outcome; the status falls back to unknown exactly when that outcome is that the workflow still runs. |
| ComfyProtocolProofs.OverlappingLookupsRegress | src/hermes_aec_runtime/comfyui.py:249-251 | A schedule from the initial state: a prompt is lost sight of, two lookups overlap, the later one saves the image and the earlier one puts unknown back. |
| ComfyProtocolProofs.ReplaysQuoteTheOwner | src/hermes_aec_runtime/comfyui.py:245-260 | On every schedule a replay is the receipt of the key's owner, with the owner's fingerprint; it is of another payload than the caller's only if the caller waited for the lock. |
| ComfyProtocolProofs.LateCallerGetsForeignReceipt | src/hermes_aec_runtime/comfyui.py:256-260 | A schedule from the initial state: two callers share a key with different payloads, and the one that waited for the lock is answered with the other's receipt as its own replay. |
| ComfyProtocolProofs.LateCallerSavesForeignImage | src/hermes_aec_runtime/comfyui.py:256-260 | Likewise, when the owner lost sight of its prompt, the waiting caller saves the other payload's image under its own output path. |
| ComfyProtocolProofs.EarlyReplaysMatch | src/hermes_aec_runtime/comfyui.py:245-251 | A replay decided before the lock is always of the same payload. |
| ComfyCalls.ComfyUIGateway.Stylize | src/hermes_aec_runtime/comfyui.py:232-315 | One uninterrupted call on the gateway object is a run of the protocol; its answer, the stored receipt and the queue are given for every request, stored receipt and server; a bound key adds nothing to the queue. |
| ComfyCalls.ComfyUIGateway.PollUntilDone | src/hermes_aec_runtime/comfyui.py:287-301 | The polling loop delivers exactly when a finished report comes before any failure and the deadline, and its image can be saved. |
| ComfyCalls.ComfyUIGateway.Reconcile | src/hermes_aec_runtime/comfyui.py:215-230 | A lookup stores the updated receipt, or raises and stores nothing; settled receipts stay. |
| ComfyCalls.ComfyUIGateway.Generate | src/hermes_aec_runtime/comfyui.py:262-315 | The submission under the lock: not ready, no reply or refused without a prompt is failed; refused with a prompt, or accepted and not delivered, is unknown with that prompt; accepted and delivered is completed with the output path. It is queued exactly if the server is ready. |
| HostContract.FinalizeIgnoresOrder | src/hermes_aec_runtime/host_contract.py:16-29 | The finalised scene, revision and errors included, is the same for every permutation of the objects. |
| HostContract.RevisionTellsContent | src/hermes_aec_runtime/host_contract.py:24-29 | With an injective hash two scenes have one revision if and only if document, units and objects are the same. |
| HostContract.FinalizedIsStable | src/hermes_aec_runtime/host_contract.py:18-23 | A finalised scene has present, distinct, sorted ids and exactly the given objects. |
| HostContract.FinalizeDecides | src/hermes_aec_runtime/host_contract.py:16-29 | A scene is refused exactly for a blank id or, failing that, a repeated one; otherwise it keeps document and units, and its revision is their digest with the objects. |
| HostContract.DeltaMeans | src/hermes_aec_runtime/host_contract.py:32-49 | An id is created or deleted exactly if only the later or only the earlier scene holds it, and modified exactly if the objects of that id have different hashes. |
| HostContract.DistinctByCount | src/hermes_aec_runtime/host_contract.py:21-22 | Comparing the length of a list with the size of its set finds repetitions exactly. |
| Ordering.SortIgnoresOrder | src/hermes_aec_runtime/host_contract.py:23-23 | A stable sort of untied elements does not depend on their order. |
| Ordering.SortSorts | src/hermes_aec_runtime/orchestrator.py:255-256 | Sorting rearranges and the result is in order. |
| Ordering.TextOrder | src/hermes_aec_runtime/host_contract.py:23-23 | Texts are ordered by the character at which they first differ, a beginning before its continuation. |
| Verification.VerifyTransaction | src/hermes_aec_runtime/verification.py:49-141 | Every required check is decided with its true outcome; `verified` if and only if all hold; it raises exactly when a numeric assertion cannot be evaluated. |
| Verification.StableIds | src/hermes_aec_runtime/verification.py:33-42 | The counters of blank and repeated ids are zero exactly when there are none. |
| Verification.CheckModified | src/hermes_aec_runtime/verification.py:83-97 | Each claimed, not created, modified id is decided by comparing the two content hashes. |
| Verification.CheckNames | src/hermes_aec_runtime/verification.py:107-115 | Required and forbidden names are decided against the after-scene. |
| Verification.CheckMetrics | src/hermes_aec_runtime/verification.py:125-134 | Numeric assertions are decided up to relative tolerance 1e-9 or the given absolute one; it raises if and only if some assertion has a reading or tolerance that cannot be compared. |
| VerifierTruth.VerifiedMeans | src/hermes_aec_runtime/verification.py:49-141 | `verified` if and only if: the receipt is completed; both scenes have sound ids; created and deleted sets are the real difference; each id of the receipt's modified list, or of the operation result's if that is empty, that was not created shows two hashes that differ; and the asserted counts, names, units and numbers hold, each written out. |
| VerifierTruth.SceneChecksMean | src/hermes_aec_runtime/verification.py:33-42 | The two scene checks hold exactly for scenes whose objects each carry a non-blank id of their own. |
| VerifierTruth.DeltaReceiptVerifies | src/hermes_aec_runtime/host_contract.py:32-49 | A receipt built from the delta of two soundly identified scenes verifies, with nothing asserted, if and only if the modified objects are hashed. |
| VerifierTruth.FinalizedReceiptVerifies | src/hermes_aec_runtime/host_contract.py:16-49 | The same for any two finalised scenes. |
| VerifierTruth.UnclaimedChangesPass | src/hermes_aec_runtime/verification.py:83-97 | Dropping every claimed modification never breaks verification: unclaimed changes go undetected. |
| Focus.FocusIgnoresOrder | src/hermes_aec_runtime/orchestrator.py:246-257 | The focused scene does not depend on the order in which the host lists its objects. |
| Focus.ScoreCounts | src/hermes_aec_runtime/orchestrator.py:247-253 | The score is the number of terms, repetitions included, that occur in the folded name, kind and layer. |
| Focus.FocusReturnsTheTop | src/hermes_aec_runtime/orchestrator.py:246-257 | The best `limit` matches come back in rank order, under a negative limit all but that many of the last; every omitted match ranks behind every returned one, the count is the number of matches, and without terms the scene stays whole. |
| Sanitizer.SafeIsClosed | src/hermes_aec_runtime/flight_recorder.py:28-62 | Sanitised data has no denied key and no transcript key at any depth, and masks every secret-named key. |
| Sanitizer.SafeIsIdempotent | src/hermes_aec_runtime/flight_recorder.py:28-44 | Sanitising twice changes nothing more. |
| Sanitizer.SafeIsTidy | src/hermes_aec_runtime/flight_recorder.py:28-44 | What sanitised data looks like: redacted mappings, bounded lists, clean texts. |
| Sanitizer.RedactSettles | src/hermes_aec_runtime/memory.py:28-53 | One redaction reaches redaction's fixed points. |
| Sanitizer.SafeKeepsPlainKeys | src/hermes_aec_runtime/flight_recorder.py:36-39 | Sanitising keeps every key no pattern speaks of, with its value sanitised, and invents none. |
| Sanitizer.SafeKeepsTheRest | src/hermes_aec_runtime/flight_recorder.py:28-44 | Of lists sanitising keeps the first thousand items in order and redaction the first hundred; texts are cleaned, what is not finite is marked, and nothing else changes. |
| ThreeSinks.PromotedIffVerified | src/hermes_aec_runtime/memory.py:108-141 | Memory promotes if and only if the verification is verified, quarantines nothing under the default policy, and the workflow status reads verified exactly then or when the host itself called its receipt so. |
| ThreeSinks.FullMarks | src/hermes_aec_runtime/memory.py:89-105 | Full marks go exactly to a promoted outcome whose two action counters read as one positive number, fractions cut off; a promoted outcome otherwise scores 85. |
| ThreeSinks.MemoryGrades | src/hermes_aec_runtime/memory.py:108-141 | Whatever memory is handed, it promotes exactly what reads completed and verified without a failed check, and rejects everything else. |
| ThreeSinks.MemoryKeeps | src/hermes_aec_runtime/memory.py:108-141 | It keeps eight entries of the receipt and four of the verification, redacted, and no other. |
| ThreeSinks.GateIffVerified | src/hermes_aec_runtime/flight_recorder.py:80-95 | The training gate accepts a typed workflow's trace if and only if it is verified and no `state` entry of the receipt contradicts its status. |
| ThreeSinks.GateDecides | src/hermes_aec_runtime/flight_recorder.py:80-95 | Exactly when the gate accepts any workflow's trace: verified, no contradicting `state`, a request, a route that keeps a key, and operations of which none among the first hundred is a script. |
| ThreeSinks.TraceIdTells | src/hermes_aec_runtime/flight_recorder.py:116-118 | With an injective digest two traces have one id if and only if they agree in everything but their creation time. |
| ThreeSinks.TraceHolds | src/hermes_aec_runtime/flight_recorder.py:104-119 | Each part of a trace is what was handed in for it, sanitised, and there is nothing beside the parts and the id. |
| ThreeSinks.MarkTells | src/hermes_aec_runtime/flight_recorder.py:116-121 | A made trace is its parts, its id and a mark that says whether the gate accepts it. |
| ThreeSinks.TranscriptIsFound | src/hermes_aec_runtime/flight_recorder.py:47-62 | The transcript test finds exactly the data that have a transcript-shaped key at some depth. |
| ThreeSinks.MadeTracesAreRecordable | src/hermes_aec_runtime/flight_recorder.py:98-121 | The journal never refuses a made trace as a transcript or as foreign. |
| ThreeSinks.GateSeesReceipt | src/hermes_aec_runtime/flight_recorder.py:84-90 | The gate reads the sanitised receipt's state and status as the workflow reads the original's. |
| Orchestrator.WorkflowOrchestrator.Run | src/hermes_aec_runtime/orchestrator.py:119-200 | The host sees query, query-execute or query-execute-query, each exactly when; nothing is executed without a compiled plan and a key; promoted if and only if a real run completed and the verifier passes every check on this receipt and the host's own two answers. Receipt and status are given in words of the host's answer: unknown when none came, verified or unverified when it says completed, its own word otherwise, and failed when it has none. |
| VerifierInput.VerifiesIff | src/hermes_aec_runtime/verification.py:49-141 | On well-formed JSON-like answers: whatever is asserted, a receipt is verified only if it says completed, the objects have ids of their own, created and deleted ids are the difference of the two scenes, and for each entry of `modified_ids`, or of `operation_result.modified` if that is empty, that is not created both scenes carry different hashes; with nothing asserted, exactly then. |
| VerifierInput.VerifiedDeltaIsShown | src/hermes_aec_runtime/verification.py:63-81 | A verified receipt says completed, and its created and deleted ids are exactly the difference between the ids of the two scenes the host showed. |
| VerifierInput.AssertionsAreShown | src/hermes_aec_runtime/verification.py:98-134 | Of a verified receipt the counts, names, units and numbers that the caller asserted are those of the scenes shown. |
| Orchestrator.FilledCountersMatch | src/hermes_aec_runtime/orchestrator.py:158-160 | Counters the host left out are filled in so that they agree exactly on completed batches with some operation, and nothing else changes. |
| Orchestrator.WorkflowOrchestrator.Mutate | src/hermes_aec_runtime/orchestrator.py:144-200 | The exact calls, receipt, status and grade of a mutating run, for every reply and budget. |
| Orchestrator.WorkflowOrchestrator.Attempt | src/hermes_aec_runtime/orchestrator.py:144-160 | One execution at most, not retried. The receipt is the host's with missing counters filled in, or an unknown one with nothing completed. |
| Orchestrator.WorkflowOrchestrator.Check | src/hermes_aec_runtime/orchestrator.py:165-174 | The second query's verdict is verified if and only if it was answered and every check holds; every failure on the way is a failed verification. |
| Orchestrator.WorkflowOrchestrator.Finish | src/hermes_aec_runtime/orchestrator.py:177-200 | Memory always gets the outcome; the run raises exactly when the trace data is transcript-shaped, and the journal is then untouched; otherwise the trace of this run is in it, newly or under the same id. |
| Orchestrator.WorkflowOrchestrator.Append | src/hermes_aec_runtime/flight_recorder.py:138-153 | Journalling keeps trace ids distinct and old entries in place, and afterwards exactly one entry has the trace's id: a new last one, or the one that was there. |
| Journal.FlightRecorder.Append | src/hermes_aec_runtime/flight_recorder.py:138-153 | Appending returns true exactly for a new id and writes exactly its line; it raises, and writes nothing, exactly when reading the file does. |
| Journal.FlightRecorder.Read | src/hermes_aec_runtime/flight_recorder.py:155-160 | Reading an intact file yields the first trace of every id, in first-append order. |
| Journal.TornRead | src/hermes_aec_runtime/flight_recorder.py:155-160 | After one interrupted write a read yields the earlier traces in order plus the last one exactly when all bytes of its JSON landed, and then raises exactly when the write was torn inside a character. |
| Journal.ReadsBack | src/hermes_aec_runtime/flight_recorder.py:155-160 | A file of traces reads back as those traces. |
| Journal.AsciiNeverTears | src/hermes_aec_runtime/flight_recorder.py:143-150 | An interrupted write of an ASCII line never makes a read raise. |
| Journal.WideTraceCanTear | src/hermes_aec_runtime/flight_recorder.py:143-150 | Every trace with a wider character has an interruption point after which every read raises. |
| Journal.FirstOfEachIsDistinct | src/hermes_aec_runtime/flight_recorder.py:129-136 | The journal holds each id once and every id handed in. |
| Framing.Socket.ReceiveExactly | src/hermes_aec_runtime/rhinomcp_transport.py:45-52 | Exactly the next `length` bytes for every split of the stream, failing if and only if the stream ends early, and consuming no more. |
| Framing.ParseDecides | src/hermes_aec_runtime/rhinomcp_transport.py:84-90 | A stream is lost, unframed, of a bad length or a body exactly by its number of bytes, its first byte and the big-endian number its first four spell. |
| Framing.ReceiveFrame | src/hermes_aec_runtime/rhinomcp_transport.py:84-90 | A response is parsed as its stream says, and a body consumes exactly its frame. |
| Framing.FrameRoundTrip | src/hermes_aec_runtime/rhinomcp_transport.py:80-90 | A frame within the cap comes back whole whatever follows it, and is never taken for unframed text. |
| Framing.CutFrameIsLost | src/hermes_aec_runtime/rhinomcp_transport.py:84-90 | A frame cut anywhere is lost, never a shorter body. |
| Framing.LargeCapMistakesAFrame | src/hermes_aec_runtime/rhinomcp_transport.py:85-88 | A frame is taken for unframed text exactly when its length starts with byte 0x7B, which the default cap excludes. |
| Framing.Exchange | src/hermes_aec_runtime/rhinomcp_transport.py:91-110 | After sending, a write is ambiguous exactly when the stream ended early or the body is not JSON; other malformed answers are plain errors. |

## Left out

- Text formats: SHA-256, uuid5, JSON text, regular expressions, `str.isalnum`, UUID parsing and case folding are functions
  given to the model (`TextRules`, `Rules`, `Setting`, `Text`, `Codec`, hashes), with the facts used about them stated as
  predicates: hashes injective where a lemma says so, the text cleaner idempotent, canonical ids, prefix-incomplete JSON.
- Numbers: finite floats are reals, so rounding of box sizes and centres is not modelled; quality scores are hundredths.
- Object keys of raw operations, receipts and traces are the field names the code uses plus all other text; a mapping with
  two keys that print alike is not modelled.
- Geometry: the kernel's primitives, transforms, extrusions, offsets and booleans are uninterpreted functions. The plugin's
  source is not part of this model; its commands follow `docs/rhinomcp-adapter-map.md` and the parameters the compiler
  sends. Layers, colours and materials are attribute values.
- BatchAgreement.BackendsAgree: assumes that ids still to be supplied differ from the batch's literal GUIDs and that no name or layer text
  starts with `$`; DollarTextDiverges shows why. Undo after a failed script is not modelled, so only successful runs are compared.
- ReceiptTruth.CompletedMeans: reads the object lists complete, with no outside editor; UnlockedComplete gives the condition for complete reads.
- ReceiptTruth.CompletedIff: the receipts' sorted id lists are sets here.
- ReceiptStatus.StatusMeans: error texts and recovery advice of a receipt are left out; of two scene reads it assumes that they are complete.
- ScriptEffects.ChangesMean: targets are different objects; one named twice is changed twice, one after the other.
- ConcurrentReceipts.ConcurrentReceiptIsTrue: besides the callers nobody edits the document: no user at the host, no other process, and not
  the gateway's own `open_working_document`.
- Mapping.CompileRhinoMcpCommands: the compiler normalises its input again; by NormalizeIdempotent that changes nothing, so it starts
  from the normal form.
- The Rhino gateway's protocol: cancellation is the event `Fail`; the command that is out then may take effect later, at most once.
- ReceiptTruth.LoneCreateReconciled: a lost command takes effect before the after-read or never; RhinoProtocol has the late ones.
- The script client's protocol: the wrapper (script, undo on error, persisted receipt) is one step whose successful undo restores the
  document, Rhino serves a sent script before later
  requests or never, and the second `_Undo` after a receipt without rollback request is left out, as are receipt texts. A
  keyless call's receipt under a random id is not looked up.
- The locked gateways: Blender's tool-error reply is a failure after the send; FreeCAD, which does not inspect the reply, has the
  same steps without that failure. Plain scene reads, which only take the lock and retry, are left out. A script is one step and runs
  at most once.
- The ComfyUI protocol: validation and graph building are one readiness fact; file contents are the destination's name.
- Verification.VerifyTransaction: messages are check names, and the three ways a modified id can fail are one check.
- ThreeSinks.GateIffVerified: a plan's `operations` are a list, memory outcomes carry no step trace (the workflow never passes one), and the
  gate's reasons are not listed.
- Orchestrator.WorkflowOrchestrator.Run: stage timing is a predicate per stage; routing, metrics and correlation ids are part of the plan,
  and the caller's assertions and the lookup of a dotted metric path are given.
- VerifierInput.VerifiesIff: an id list given as a mapping counts as malformed, an item of a modified-id list that is not a text is
  no object's id, and content hashes that are not texts are compared as printed.
- The journal: a file is a sequence of UTF-8 bytes identified by character and position; appending after a torn line, which
  fuses with it, and other processes writing the file are left out.
- Journal.FlightRecorder.Read: how many lines before an undecodable byte in the middle of a file still come through depends on the size of
  the reader's buffer; the model lets all of them through. For one torn last write the two agree.
- Framing.Exchange: sockets are the bytes that will arrive before the peer closes, in pieces of any size; timeouts are early ends.
- The sanitiser: data is a tree; the cycle marker for shared structures is left out.
- Orchestrator.WorkflowOrchestrator.Attempt: the unknown receipt's error code and recovery text are left out.
- The workflow object always has a recorder and a memory; its journal is the list of recorded traces, whose bytes are the
  subject of `Journal`.
- `scene_from_rhinomcp`, `open_working_document`, `export_scene`, viewport calls and health checks: reshaping and wiring.
- `router.py`, `supervisor.py`, `contract.py`, `model_eval.py`, `scene_index.py` selectors, the pydantic models, the
  hand-off manifest and the Blender and FreeCAD operation validators: short decision tables or validation of the kind
  already modelled.
- `mcp_server.py`, `cli.py`, benchmarks, installers, skills, schemas, `export_training_examples` and the file-system memory
  adapter: wiring, text and file replacement.
