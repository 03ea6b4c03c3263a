# AIRCheck: what the runtime keeps

AIRCheck delivers media packages against a written specification. An untrusted language model
reads the specification, proposes checks and picks remedies; a deterministic runtime decides.
This project models that runtime and proves what it keeps, whatever the model answers and
wherever the process dies.

Five parts, in the order of the imports:

- **The durable action protocol.** `Store` is `LocalDurableStore` as a class over one field, the
  disk: a record of ledgers, snapshots, authorizations, decisions, runtime records and the two
  kinds of journal. Every durable write is one call of `Write`, after which the environment may
  let it stand, report an error before or after it took effect, or end the process. `Protocol`
  states what a ledger, a run record and the files owe one another; `Remediation` and `Executor`
  are the workspace and `RemediationExecutor`, method by method, proved to keep it.
- **The run and its loop.** `StateMachine`, `Terminal`, `Lifecycle`, `Inspection`, `Refresh` and
  `Diagnosis` hold the pure parts; `Steadiness` is the invariant of a whole run between calls,
  `History` what no step of a run takes back, `Boundary` why the authority refuses nothing the
  runtime offers, and `Remedies` what a remediation leaves and that it satisfies the requirement it
  was offered for; `Orchestrator` is `HeadlessOrchestrator` with every branch of `start`, `advance`
  and `resolve_decision`; `Runs` reads the invariant off and drives runs of any length through
  crashes and restarts, and to their end.
- **Leases and decisions.** `Lease` is the compare-and-swap lock as a state machine over any
  number of processes and one clock; `Decisions` adds containers with their own caches that sync,
  check, resolve and sync back key by key; `Mirror` is the synchronization itself.
- **Text.** `Text` is the part of Python's string methods that is needed; `Captions`,
  `CaptionTiming`, `CaptionInspection`, `ManifestFile`, `Segmentation` and `Provenance` are the
  parsers and printers.
- **Requirements and plans.** `Constraints`, `Admission`, `Planning` and `Plans`.

Identifiers are opaque; those the source derives by hashing are injective constructors of what
they hash, as are SHA-256 and MD5 digests. Results are `Outcome`: a value, an exception, or the
death of the process. The semantic model, the measuring tools and the audio renderer are
arbitrary: they return any value of their type, or fail.

Where the code falls short of what it is for, the project says exactly when:

- A consume-and-start whose journal was written for an authorization that cannot be consumed, and
  that dies before the journal is removed, makes every later opening of the store fail
  (`UnusableJournalIsFatal`).
- A manifest write caught between the record and the completion ends in `RecoveryIntegrityError`,
  because the description recomputed for it differs (`ManifestRedescribed`, `Recover`).
- A caption requirement in a format the conversion does not know, such as TTML, is admitted and
  offered an option that cannot be described (`OfferedDescribableIff`, `TtmlIsOffered`); executing
  it raises after the start is written, and so does every recovery (`UndescribableStaysOpen`).
- A loudness range of one point, or a required name with a path step, is admitted and makes the
  inspection that would offer a remedy raise (`PointRangeIsRefused`); `Examinable` says which runs
  are free of that.
- A requirement that no manifest be present is offered a manifest, and fails again when it is
  written (`ManifestOfferMeans`, `ManifestIsOfferedForAbsence`).
- After a rewrite of the manifest that failed, and until its cycle is left, a second rewrite is
  forbidden (`RewriteAdmittedIff`, `SecondRewriteIsForbidden`). A run that died in between never
  gets on (`WedgeHolds`).
- With a second current manifest made by an action, the one the runtime looks up may be out of
  date and stay so (`FreshIsLookedUpIff`, `OtherManifestGoesStale`, `TwoManifestsDiverge`).
- A manifest that is renamed in the batch that changes what it lists is not rewritten, and stays out
  of date until the next change (`ShortcutSoundIff`, `CopySkippedIff`, `RenamedCopyGoesStale`).
- Of two current assets of one role the second is never inspected (`EveryAssetIsTargetIff`,
  `SecondIsNeverTarget`). The first is inspected twice, and if it fails leaves two findings of one
  name (`TwoAssetsOrderedTwice`, `RepeatIsFoundTwice`, `InspectedOnce`).
- Two crash windows, between saving a request and the transition that waits for it and between
  reaching ready findings and saving the admissible options, are the only way an advance can end
  in a `RuntimeError` or a refused transition: `Unhindered` says that neither was hit,
  `RequestWindow` and `AdmissionWindow` that both exist, and `Advance` and `PendingGivesNoVerdict`
  what follows from the first.
- The transition table alone allows unbounded runs (`DecisionLoopUnbounded`); the orchestrator
  does not (`AdvanceUntilStopped`).
- A lease holder past its expiry may still be inside its block (`ExpiredHolderCoexists`).
- The bucket keeps files that were deleted locally (`Restore`).
- Sentences that end in white space other than space, tab or newline are refused
  (`SegmentedIff`, `NoBreakSpaceIsRefused`).
- Requirements that differ in their stream alone share an identifier, and one of their checks is
  lost (`ServesAllIff`, `SharedIdLosesACheck`).
- The overlap count is zero exactly when nothing overlaps, and counts the overlapping pairs exactly
  when only neighbours overlap (`OverlapFreeIff`, `OverlapsCountPairsIff`,
  `OverlapsAreUndercounted`).

`dafny verify dfyconfig.toml` checks the project.

## Model

| member | source | states |
|---|---|---|
| Ledger.AppendIffChain | aircheck/persistence/store.py:119-146 | Appending keeps a ledger a chain exactly when the event passes the checks of `append_event`: sequence numbers equal positions, each event names its predecessor's hash, and every result follows a start of its action |
| Ledger.ChainIff | aircheck/persistence/store.py:119-146 | What a stored ledger is, in its events' own fields: each is numbered by its place and names the hash of the one before, and a result follows a start of its action |
| Ledger.HeadFixesLedger | aircheck/domain/events.py:66-87 | The hash chain does its work: two chained ledgers with the same last hash are the same ledger |
| Ledger.UnfinishedMeaning | aircheck/persistence/store.py:443-457 | `unfinished_actions` lists exactly the actions that have a start and no result |
| Ledger.LastTargetIs | aircheck/persistence/store.py:148-171 | The status a ledger ends in is the target of its last transition |
| Store.LocalDurableStore.AppendEvent | aircheck/persistence/store.py:119-146 | An event is refused, with nothing written, unless it extends the chain; otherwise the ledger is the old one or the old one with exactly this event, whatever fault strikes, and a return means the latter |
| Store.LocalDurableStore.SaveSnapshot | aircheck/persistence/store.py:148-171 | A snapshot is written only if its status is the last transition's target and its pending decision is already stored |
| Store.LocalDurableStore.LoadSnapshot | aircheck/persistence/store.py:173-189 | Which of its three outcomes a load has, as a function of the files |
| Store.LocalDurableStore.CommitTransition | aircheck/persistence/store.py:197-219 | From a store without transition journals, the disk after a commit that dies anywhere is the old one, the committed one, or a journal stage from which redoing gives the committed one; a return means committed |
| Store.RedoIsStable | aircheck/persistence/store.py:221-239 | Redoing a journaled transition from any stage an earlier attempt reached gives the same committed disk, and is itself interruptible at every step |
| Store.CommittedIsSettled | aircheck/persistence/store.py:173-219 | After a commit every ledger is a chain, no journal is left, and the snapshot loads |
| Store.LocalDurableStore.RecoverTransitions | aircheck/persistence/store.py:234-239 | The recovery loop, for journals of distinct runs in any order: each run ends up with what its own journal asks for and is otherwise untouched; without journals nothing changes |
| Store.LocalDurableStore.CommitAcrossCrashes | aircheck/persistence/store.py:197-239 | Transition commit is atomic: die anywhere in it and any number of times in the recoveries after it, and once a recovery returns the disk is the old one or the committed one, settled |
| Store.LocalDurableStore.Consume | aircheck/persistence/store.py:298-328 | An authorization is consumed only if issued and bound to the same run, option and argument hash, and then records its consumer; the error cases leave the disk alone |
| Store.ConsumeOkIff | aircheck/persistence/store.py:298-328 | Which authorization that is: one issued for this run, this option and these arguments, and not used |
| Store.LocalDurableStore.VoidAuthorization | aircheck/persistence/store.py:330-346 | Voiding is absorbing: an authorization that is VOID stays VOID, and the other fields never change |
| Store.LocalDurableStore.BeginAuthorizedAction | aircheck/persistence/store.py:360-371 | Consume-and-start through a journal: every disk it can leave is the old one, a journal stage, or the begun one |
| Store.UsableIff | aircheck/persistence/store.py:373-414 | What an action may be begun with: an authorization issued for its own option and arguments that is unused, or was used by this very action |
| Store.LocalDurableStore.FinishAction | aircheck/persistence/store.py:373-414 | Redoing an action journal consumes at most once and appends at most one start |
| Store.LocalDurableStore.RecoverActions | aircheck/persistence/store.py:416-421 | The action recovery loop, likewise: for journals of distinct runs, in whatever order they come, each run's action is begun once |
| Store.LocalDurableStore.AppendActionStarted | aircheck/persistence/store.py:423-441 | A start is appended with the next sequence number and the head's hash |
| Store.ActionRedoIsStable | aircheck/persistence/store.py:373-421 | From any stage of an interrupted consume-and-start, redoing it leaves the authorization spent by this action and exactly one start |
| Store.BegunMeans | aircheck/persistence/store.py:360-414 | A begun disk differs from the old one only in the authorization, now consumed by this action, and in one more event; it is settled and counts exactly one start |
| Store.LocalDurableStore.BeginAcrossCrashes | aircheck/persistence/store.py:360-421 | Consume-and-start is atomic across crashes: after a recovery returns, either nothing happened and the authorization is still issued, or it is consumed by exactly this action with exactly one start; no journal remains |
| Store.LocalDurableStore.UnusableJournalIsFatal | aircheck/persistence/store.py:360-421 | The limit of that guarantee: a journal written for an authorization that cannot be consumed, kept by a crash, makes every later opening of the store fail |
| Store.LocalDurableStore.SaveDecisionRequest | aircheck/persistence/store.py:256-260 | A decision request is stored under its id |
| Store.LocalDurableStore.UpdateDecisionRequest | aircheck/persistence/store.py:262-272 | Only a stored request can be replaced, and only by one bound to the same run, finding and option |
| Store.LocalDurableStore.LoadPendingDecision | aircheck/persistence/store.py:274-283 | The request returned is the one the snapshot names |
| Authority.AllowedMutationIsBound | aircheck/authority/policy.py:201-273 | A mutating call that is not forbidden is made on ready findings, on a non-original asset of the run, for an option of an open finding with the same tool and argument hash; reversible tools are allowed, content-affecting ones need a decision |
| Authority.InspectionAllowedIff | aircheck/authority/policy.py:201-273 | An inspection is allowed exactly as a call of its own tool on this run or an asset of it, while the run is being inspected or its findings are ready; it never needs a decision |
| Authority.MutationAllowedIff | aircheck/authority/policy.py:201-273 | A mutation passes exactly as such a call on ready findings, not on an original, for the option it names, which must bind tool, tier and arguments and belong to an open finding; reversible ones are then allowed, content-affecting ones need a decision |
| Authority.RequestIs | aircheck/authority/policy.py:276-297 | A decision request is made exactly for a content-affecting option of the run while none is pending, and names the run, the finding and the option |
| Authority.MayBeginIff | aircheck/authority/policy.py:346-422 | Exactly what may begin: a mutation under way in this run, as a call of the very option it is begun for, on an asset of the run that is no original; a content-affecting one with an authorization |
| Records.HashBinds | aircheck/domain/actions.py:29-46 | Two calls have one argument hash exactly when they differ in their authorization at most |
| Authority.AuthorizationIsNotAnArgument | aircheck/domain/actions.py:29-46 | The argument hash does not depend on the authorization |
| Diagnosis.CallBound | aircheck/runtime/orchestrator.py:970-975 | The call built from an option has the option's argument hash, whatever authorization it carries |
| Remediation.OneStartPerAuthorization | aircheck/persistence/store.py:298-328 | No two starts carry the same authorization |
| Executor.RemediationExecutor.Begin | aircheck/authority/policy.py:346-422 | Every binding is checked before anything is written; a refusal leaves the store alone; the action is bound to the call's own arguments and carries an authorization exactly for content-affecting tools |
| Executor.DescribableIff | aircheck/runtime/remediation.py:225-287 | An option that fits its tool can be described exactly when a caption target is srt or webvtt and a manifest format is sha256sums |
| Executor.RemediationExecutor.Produce | aircheck/runtime/remediation.py:97-107 | Write, verify, promote: a return means the file at the descriptor's path is what the tool must make (`Fulfils`: the source's bytes, the source's cues, the manifest of the leaves, or audio within the tolerance of its target); no asset's file is touched |
| Protocol.VerifiedFulfils | aircheck/runtime/remediation.py:363-441 | The check of an output accepts exactly such a file, tool by tool |
| Protocol.DescribedIsNamed | aircheck/runtime/remediation.py:225-287 | An asset that matches its description is named and recorded as the option asks: the new name in the source's role; the source's name with the suffix of the new format; SHA256SUMS after the first current manifest; the source's name as a derivative |
| Remedies.ConvertedSuffix | aircheck/runtime/remediation.py:225-287 | A converted file has the suffix that was asked for, after the source's own stem |
| Executor.RemediationExecutor.Record | aircheck/runtime/remediation.py:107-116 | Persist, then complete: at every fault the run record either is the old one or holds the output |
| Executor.RemediationExecutor.Compensate | aircheck/runtime/remediation.py:119-135 | The error handler keeps an output that became durable and otherwise quarantines it, voids the authorization and records the failure |
| Executor.RemediationExecutor.FailAction | aircheck/runtime/remediation.py:585-588 | The authorization is void before the failure is recorded |
| Executor.RemediationExecutor.Execute | aircheck/runtime/remediation.py:71-135 | Wherever it fails or dies the run is consistent; a refusal changes nothing; a return means exactly the start and one result were added; on success the record gained one asset, which is what the option asked for (`Made`), and on failure the record is the old one and the authorization void |
| Remedies.ExecutedMakes | aircheck/runtime/remediation.py:71-135 | Read off a successful execution: one start, one completion and one asset more, with its fields, its lineage and its file, tool by tool |
| Remedies.ExecutedFails | aircheck/runtime/remediation.py:119-135 | Read off one that failed: one start and one failure more, the record as it was, the authorization void |
| Executor.RemediationExecutor.RecoverUnrecorded | aircheck/runtime/remediation.py:188-207 | What recovery decides for an unrecorded output is fixed by the file that is there: a promoted file that is what the tool must make becomes the successor, anything else is a failure with the reason the source gives |
| Remedies.ReconciledMakes | aircheck/runtime/remediation.py:188-207 | It is recorded exactly when such a file is there, and then is what the option asked for |
| Executor.RemediationExecutor.RecoverRecorded | aircheck/runtime/remediation.py:155-187 | A recorded output that still matches its descriptor and verifies is completed, and is what the option asked for |
| Executor.RemediationExecutor.Recover | aircheck/runtime/remediation.py:137-207 | A return leaves no action open; with none open it changes nothing, so recovering again does nothing; it refuses runs that are not remediating; it ends in RecoveryIntegrityError only for a manifest write caught between record and completion, and such a write never returns |
| Executor.RemediationExecutor.ExecuteAcrossCrashes | aircheck/runtime/remediation.py:71-207 | Exactly-once remediation: crash at any durable step of `execute`, and again in every recovery, and once one of them returns the store is settled and no action is open |
| Executor.ExactlyOnce | aircheck/runtime/remediation.py:71-207 | In a consistent run with nothing open every started action has one start and one result, and the result is a completion exactly when the record holds its output and the file there hashes as recorded |
| Executor.CaughtIff | aircheck/runtime/remediation.py:155-187 | Recovery catches a manifest write exactly when the ledger has a start of that tool without a result and the record already holds the asset that action made |
| Protocol.ManifestRedescribed | aircheck/runtime/remediation.py:249-259 | Why it is caught: once the new manifest is recorded, the description recomputed for it differs |
| Executor.RemediationExecutor.UndescribableStaysOpen | aircheck/runtime/remediation.py:71-160 | An option that cannot be described raises after its start is written: the action stays open without a result, and however often the store is opened and recovery tried, it raises again and changes nothing |
| Protocol.StartKeeps | aircheck/runtime/remediation.py:71-96 | Starting an action keeps ledger, record and files consistent, with that one action open |
| Protocol.PersistKeeps | aircheck/runtime/remediation.py:496-518 | Recording a verified output keeps them consistent, manifests current at their writing included |
| Protocol.CloseKeeps | aircheck/runtime/remediation.py:545-583 | A result that agrees with record and files closes the only open action |
| Remediation.AtMostOneUnfinished | aircheck/persistence/store.py:443-457 | Recovery has at most one action to decide |
| Protocol.LineageExtends | aircheck/runtime/models.py:134-168 | Adding an action's output keeps identifiers unique and every predecessor earlier in the record |
| Lifecycle.LeafFrom | aircheck/runtime/models.py:157-168 | Lineage is well-founded: every working asset reaches a current leaf |
| Lifecycle.CurrentNonEmpty | aircheck/runtime/models.py:157-168 | `current_assets` is never empty |
| Steadiness.SavedRecordIsValid | aircheck/runtime/models.py:134-155 | The saved record of a steady run passes its own validation and the lineage check of each asset, whatever updates built it, so it reloads |
| Steadiness.OriginalsStayIntact | aircheck/runtime/orchestrator.py:1051-1058 | The originals hash as recorded in every consistent run |
| Captions.GapIsLongest | aircheck/runtime/remediation.py:443-458 | The gap the block pattern `\n\s*\n` finds at a position, as the greedy match: it is one, and the longest |
| Captions.CaptionCues | aircheck/runtime/remediation.py:443-458 | From the content of a file, its line ends translated as `read_text` does, the appending loop computes the parse the theorems are about, failure included |
| Captions.ParsedIsReturned | aircheck/runtime/remediation.py:443-458 | Every cue list the parser returns has stripped, one-line times without arrows and text lines that are not blank |
| Captions.RenderedParses | aircheck/runtime/remediation.py:460-483 | Parsing the WebVTT or SRT rendering of any such list gives the same list |
| Captions.DropCrIs | aircheck/runtime/remediation.py:443-460 | On reading, a carriage return is dropped exactly before a newline |
| Captions.DigitsNumber | aircheck/runtime/remediation.py:461-483 | A cue is numbered in decimal, without leading zeros |
| Captions.ConversionPassesItsCheck | aircheck/runtime/remediation.py:363-440 | A conversion exists exactly for a parseable file, and always passes its own verification |
| Captions.ConversionRoundTrip | aircheck/runtime/remediation.py:460-483 | Converting there and back preserves all cues, and converting again changes nothing |
| CaptionTiming.OverlapFreeIff | aircheck/media/inspection.py:377-378 | The reported overlap count is zero exactly when no two cues of the file overlap, in whatever order they are listed |
| CaptionTiming.OverlapsCountPairsIff | aircheck/media/inspection.py:377-378 | The reported count never exceeds the number of overlapping pairs of the file, and equals it if and only if, in order, no cue overlaps one that is not its neighbour |
| CaptionTiming.OverlapsAreUndercounted | aircheck/media/inspection.py:377-378 | A file where it falls short: one cue across two others counts once |
| CaptionTiming.MeasureCues | aircheck/media/inspection.py:377-395 | Count, least start, last end against the program's duration, and the overlap count with exactly what it counts |
| CaptionTiming.Round6Iff | aircheck/media/inspection.py:377-395 | The difference to the duration is rounded to a millionth, halves to the even one |
| CaptionInspection.InspectCaptions | aircheck/media/inspection.py:338-395 | The loop over blocks computes what a file reads as, failures included, and the measurements of its cues |
| CaptionInspection.MillisIs | aircheck/media/inspection.py:311-319 | What a time stamp counts: hours, minutes and seconds in sixties, and thousandths |
| CaptionInspection.TimingAgrees | aircheck/media/inspection.py:305-318 | A line the inspection's timing pattern matches is split by the converter at the same arrow into the same two times |
| CaptionInspection.RenderedIsRead | aircheck/runtime/remediation.py:460-483 | Inspecting a rendered file gives the format asked for and the times of its cues, whatever the format |
| CaptionInspection.ConversionKeepsTimes | aircheck/runtime/remediation.py:443-483 | A conversion changes no measurement of time, whatever the file: the converted file is measured in the format asked for with exactly the cues measured in the original |
| ManifestFile.MatchMeaning | aircheck/media/inspection.py:420-436 | A matched manifest line is 64 hex digits, whitespace, perhaps a star, and a name without whitespace |
| ManifestFile.ShapedMatches | aircheck/media/inspection.py:420-436 | And every such line matches |
| ManifestFile.VerifyManifest | aircheck/media/inspection.py:410-446 | Exactly one manifest, its file there and readable, or the error the source gives; then the two loops report malformed text, a match or a mismatch as specified |
| ManifestFile.WrittenVerifiesIff | aircheck/runtime/remediation.py:485-494 | Write and verify agree, exactly: the written manifest verifies if and only if the current names are distinct, free of whitespace and path steps, and every file hashes as recorded |
| ManifestFile.SortedByName | aircheck/runtime/remediation.py:485-494 | The lines come in ascending order of file names, those of one name in the order of the record, one for each leaf that is no manifest |
| ManifestFile.WrittenPackageVerifiesIff | aircheck/media/inspection.py:410-446 | End to end: when the one current manifest holds what the runtime wrote, the inspection of the current assets reports a match if and only if they can be listed |
| ManifestFile.MatchMeans | aircheck/media/inspection.py:410-446 | For any text a reported match means the entries are exactly the package's names with the hashes of the files that are there |
| Protocol.ManifestMovesNoLine | aircheck/runtime/remediation.py:485-494 | A new manifest changes no line of the manifest |
| Refresh.ShortcutSound | aircheck/runtime/orchestrator.py:846-866 | When no change was completed after an intact manifest the runtime wrote, its file lists exactly the current leaves: skipping the rewrite is sound |
| Refresh.ShortcutSoundIff | aircheck/runtime/orchestrator.py:846-866 | For any manifest an action made, renamed copies included, skipping is sound if and only if it listed the leaves when it was made |
| Refresh.CopySkippedIff | aircheck/runtime/orchestrator.py:851-866 | A rename is itself a change, so that a renamed copy is skipped exactly when its rename was the last change |
| Refresh.RenamedCopyGoesStale | aircheck/runtime/orchestrator.py:822-866 | A run where that leaves a manifest out of date: one batch renames the captions and then the manifest |
| Refresh.IntactManifestCompleted | aircheck/runtime/orchestrator.py:846-850 | An intact manifest was completed, so its sequence number is found |
| Refresh.RewrittenManifestIsCurrent | aircheck/runtime/orchestrator.py:868-968 | A manifest that was just written is current and lists exactly the current leaves |
| Refresh.FreshIsLookedUpIff | aircheck/runtime/orchestrator.py:829-837 | After a rewrite the manifest looked up is the one just written exactly when no other current manifest was made by an action |
| Refresh.OtherManifestGoesStale | aircheck/runtime/orchestrator.py:829-837 | Otherwise what is looked up stays the old one, and stays out of date |
| Refresh.TwoManifestsDiverge | aircheck/runtime/orchestrator.py:822-955 | A run with two manifests where that happens |
| Orchestrator.HeadlessOrchestrator.RewriteManifest | aircheck/runtime/orchestrator.py:880-955 | The rewriting half: forbidden, with nothing changed, exactly when a rewrite of this cycle was closed before; a rewrite that failed leaves the run wedged until the cycle is left |
| Orchestrator.HeadlessOrchestrator.RefreshManifest | aircheck/runtime/orchestrator.py:822-955 | A return leaves the manifest the runtime looks up next listing exactly the current leaves, wherever that is promised (`ManifestDue`); it raises, faults apart, only when a rewrite of this cycle was closed before |
| StateMachine.TransitionKeepsSound | aircheck/domain/state_machine.py:133-240 | Every transition keeps pending decisions and verdicts where they belong, and the cycle grows by one exactly from REMEDIATING to INSPECTING |
| StateMachine.TransitionIff | aircheck/domain/state_machine.py:133-257 | Exactly which transitions are taken, by where a status is entered from and what opens the way into it, and all that they change |
| StateMachine.EveryRunIsSound | aircheck/domain/state_machine.py:95-126 | Over every run of the machine the snapshot stays sound, and terminal states have no way out |
| StateMachine.DecisionLoopUnbounded | aircheck/domain/state_machine.py:190-208 | The transition table alone allows runs of any length between findings ready and awaiting a decision |
| Terminal.ReadyIffDeliverable | aircheck/domain/terminal.py:218-314 | A READY verdict exactly when nothing is pending, the originals are intact, every blocking requirement is executable and resolved, and each applicable one passed |
| Terminal.ReasonsMeaning | aircheck/domain/terminal.py:275-314 | A verdict names each unresolved blocking requirement, each applicable one that did not pass, and damaged originals, and nothing else |
| Terminal.CountsAddUp | aircheck/domain/terminal.py:275-314 | Passed, failed and not evaluated add up to the applicable blocking requirements; `CountsMean` says what each of them is |
| Terminal.CountsMean | aircheck/domain/terminal.py:275-314 | Each count of a verdict as the number of places in the list of requirements: blocking, executable and applicable; of these with a latest predicate of PASS, of FAIL, or missing or not evaluated; and blocking but not executable or of open applicability |
| Terminal.LatestIsLast | aircheck/domain/terminal.py:218-260 | The deciding predicate of a requirement is the last one recorded for it |
| Terminal.NoVerdictIff | aircheck/domain/terminal.py:218-274 | There is no verdict exactly while a decision is pending, or an open finding with an option is about a requirement that applies and has not passed |
| Terminal.UnexecutableBlocks | aircheck/domain/terminal.py:218-314 | Any blocking requirement that is not executable makes every verdict BLOCKED |
| Terminal.UnresolvedBlocks | aircheck/domain/terminal.py:218-314 | So does any whose applicability is open |
| Terminal.ClosingYieldsBlocked | aircheck/domain/terminal.py:218-314 | When only an open option kept the verdict back, closing the open findings yields BLOCKED |
| Constraints.AdmittedIsWellTyped | aircheck/domain/constraints.py:158-224 | A draft is EXECUTABLE exactly when it yields a constraint, which then has the catalog's unit, an allowed operator and operands of the measurement's type |
| Constraints.ExecutableDraftIff | aircheck/domain/constraints.py:106-224 | Exactly which drafts become executable: an operator for the fact, a unit of it, as many values as the operator takes, each of them readable, the bounds of a range in order, a pattern that compiles and is described |
| Constraints.DraftStatusMeans | aircheck/domain/constraints.py:158-224 | How the others are refused: as unsupported exactly when the operator does not exist or not for this fact, else as ambiguous |
| Constraints.AdmittedDraftMeans | aircheck/domain/constraints.py:158-224 | What an executable draft demands, in its own words: a fact passes exactly when it is the value, or one of the values, that the text denotes, after units; not below or not above that number, or between the two; matched by the pattern; present; absent |
| Constraints.CatalogIs | aircheck/domain/catalog.py:41-127 | The catalog by attribute: what produces a fact, its type, its unit, and what may be done about it at most |
| Constraints.CanonicalIff | aircheck/domain/catalog.py:130-167 | What a fact looks like: of a known key, in its unit, of its type; strings are not empty, those of closed lists are folded, rates are reduced fractions |
| Constraints.AdmittedNeverUnevaluated | aircheck/domain/terminal.py:149-215 | Type soundness: on every well-formed measurement of its key an admitted constraint gives PASS or FAIL, never NOT_EVALUATED, and an admitted range has its bounds in order; which of the two, the next two rows say |
| Constraints.OrderingTestsAreIntervals | aircheck/domain/terminal.py:149-215 | The verdict of an ordering test is membership of the measured number in an interval |
| Constraints.EqualityTestsMean | aircheck/domain/terminal.py:149-215 | The verdict of the other tests: PASS exactly on the same string, truth value or number, on one of those listed, on a string that the pattern matches from end to end, on true, on false |
| Constraints.EvaluatedIff | aircheck/domain/terminal.py:149-215 | Of any measurement and any constraint: what is evaluated at all is a successful measurement of the constraint's fact in its unit, by a test for such facts whose operands compare |
| Admission.AdmitApplicability | aircheck/domain/admission.py:175-214 | The loop over proposed conditions. For a proposal on text without a conditional hint: applicable, its conditions ignored. Otherwise: applicable exactly when every condition is trusted, and then one trusted condition for each |
| Admission.AppliesIff | aircheck/domain/admission.py:175-214 | A requirement applies exactly when it is executable, and its text does not read as conditional or conditions are proposed and each can be trusted; then these are kept, one for one, and else none |
| Admission.UntrustedConditionBlocks | aircheck/domain/admission.py:175-214 | End to end: conditional text without trusted conditions makes a blocking requirement, and every verdict of its run, BLOCKED |
| Admission.DispositionTightens | aircheck/domain/admission.py:217-236 | The model's proposal can only tighten the catalog's floor |
| Admission.DispositionIs | aircheck/domain/admission.py:217-236 | The disposition is the stricter of the catalog's floor and what the model names, or the floor when it names none |
| Admission.SeverityIff | aircheck/domain/admission.py:132-150 | A requirement is less than blocking only when the text uses words of that group and of no other |
| Admission.AdmittedIsSound | aircheck/domain/admission.py:286-428 | An admitted requirement has a constraint exactly when it is executable, well typed over a fact an inspection tool produces; it applies only if executable; its disposition is no looser than the floor, and forbidden without a catalog entry |
| Admission.ExecutableIff | aircheck/domain/admission.py:286-428 | Exactly which candidates become executable: a known role, every referenced document at hand, a key of that role, a draft and a stream that make a check, and a model without doubt |
| Admission.StatusIs | aircheck/domain/admission.py:286-428 | The status of every admitted requirement, by what is wrong with the candidate |
| Admission.ReasonsMean | aircheck/domain/admission.py:286-428 | What is not executable, or does not surely apply, says why: an unknown role, a missing key and a document that is not at hand by name |
| Admission.DemandsItsDraft | aircheck/domain/admission.py:239-269 | An executable requirement demands what its draft demands of its key in its scope; the one exception is a QuickTime container whose text says that it is a MOV |
| Admission.FindContradictions | aircheck/domain/admission.py:431-448 | The nested loops list the contradicting pairs in order |
| Admission.ContradictionMeans | aircheck/domain/admission.py:431-448 | Which pairs contradict: executable requirements that demand one value of the same fact in the same scope under the same conditions; if they contradict no measurement satisfies both, and if they do not they agree on every measurement |
| Admission.MarkContradictions | aircheck/domain/admission.py:451-483 | The dictionary of peers and the marking loop, against the specification |
| Admission.PeersIff | aircheck/domain/admission.py:451-483 | A requirement has peers exactly when its id is in a contradiction |
| Admission.MarkedMeaning | aircheck/domain/admission.py:451-483 | Marking downgrades exactly those and leaves the others alone; afterwards no two executable requirements contradict, and soundness is kept |
| Admission.MarkingIsStable | aircheck/domain/admission.py:451-483 | Marking twice is marking once |
| Admission.DoubtBlocks | aircheck/domain/admission.py:451-483 | Fail-closed end to end: a blocking requirement that is not executable or contradicts another makes every verdict BLOCKED |
| Planning.DeriveRequiredChecks | aircheck/domain/planning.py:102-161 | The nested loops compute the specified checks or the specified refusal; what these are, the next rows say |
| Planning.EveryAssetIsChecked | aircheck/domain/planning.py:102-161 | A requirement in force whose tool looks at an asset has a derived check on every asset of its role in its run, and under an identifier of its own as many as there are such assets; what execution makes of that is `EveryAssetIsTargetIff` |
| Planning.PackageIsChecked | aircheck/domain/planning.py:124-134 | One whose tool looks at the package is checked as soon as its run has any asset: on the first of its role, or else the first of the run; under an identifier of its own that is its only check |
| Planning.OnlyOwedIsChecked | aircheck/domain/planning.py:135-160 | Nothing else is checked: each check belongs to a requirement in force and an asset of its run, of its role where the tool looks at an asset, with a Tier-0 tool and the arguments of that tool: the run, the asset, the requirement's stream |
| Planning.RefusedIff | aircheck/domain/planning.py:102-161 | Planning is refused exactly for a requirement in force without a tool of inspection, or with a loudness to measure on a stream it does not name |
| Planning.SoundIsPlanned | aircheck/domain/planning.py:102-161 | Planning never refuses requirements that admission let through |
| Plans.BuildPlan | aircheck/domain/planning.py:200-250 | One item per name, at its own order; an unknown name is the only failure |
| Plans.BuiltCovers | aircheck/domain/planning.py:200-250 | A complete order gives a plan whose check ids are the required ones, each check with its own tool, asset and arguments |
| Plans.ValidatePlan | aircheck/domain/planning.py:253-311 | A plan exactly for an admissible proposal, covering the required checks, with extras that are Tier-0, on assets of the run, no more than the required checks, and new operations |
| Plans.AdmissibleIsSafe | aircheck/domain/planning.py:283-303 | Why the extras of an accepted plan are safe and pairwise different |
| Plans.ExtraFitsIff | aircheck/domain/planning.py:173-198 | Exactly which extra checks fit: an inspection of an asset of the run, for a requirement that is checked, with arguments of different names that name no other run or asset and that the tool accepts |
| Plans.SortKeeps | aircheck/domain/planning.py:314-348 | The fallback order is a permutation of the checks in the order of the tool registry |
| Plans.SortedByKey | aircheck/domain/planning.py:314-348 | Checks of one tool go by asset, and those of one asset by identifier, as they are spelled |
| Plans.ToolOrderIs | aircheck/domain/planning.py:326-326 | The order of tools is that of the registry, one by one, with unknown tools last |
| Plans.FallbackPlan | aircheck/domain/planning.py:314-348 | The fallback exists exactly when every check is on an asset of the run, and covers the required checks |
| Plans.ConstructPlan | aircheck/agent/planning.py:37-98 | Whatever the model replies: at most two calls, a covering plan with safe extras, the fallback exactly when every call failed, and no failure for checks of the run |
| Plans.DerivedAreInRun | aircheck/domain/planning.py:102-161 | Derived checks are on assets of the run, so construction cannot fail for them |
| Plans.ServesAllIff | aircheck/domain/planning.py:200-250 | Every required check is performed with its own arguments exactly when no two different checks share an identifier |
| Plans.OwedIsOrdered | aircheck/runtime/orchestrator.py:259-270 | Whatever the model proposed, a requirement in force is in the order of checks as soon as the run has an asset for it: of its role where the tool looks at an asset, else any |
| Plans.TwoAssetsOrderedTwice | aircheck/runtime/orchestrator.py:250-270 | And a requirement with two assets of its role stands twice in that order, whatever the model proposed |
| Plans.SharedIdLosesACheck | aircheck/domain/planning.py:144-150 | Two requirements that differ in their stream alone do share one, so one of their checks is lost |
| Segmentation.FlushParagraph | aircheck/domain/source.py:150-168 | The loop over sentence matches numbers exactly the sentences of the paragraph |
| Segmentation.SegmentSourceDocument | aircheck/domain/source.py:138-190 | The loop over lines computes the specified segmentation, or its refusal |
| Segmentation.ParagraphsHold | aircheck/domain/source.py:168-188 | Paragraphs are slices in order with something between any two; a position is in one exactly when its line is neither blank nor a heading |
| Segmentation.SentencesHold | aircheck/domain/source.py:26-26 | The pieces of a paragraph begin with a word, hold no inner stop, end at a stop or with the paragraph, are ordered and disjoint, and leave out nothing but whitespace |
| Segmentation.StopIff | aircheck/domain/source.py:26-26 | Where a sentence ends: at a full stop, an exclamation or a question mark with white space or nothing after it |
| Segmentation.LineWidthIs | aircheck/domain/source.py:168-188 | A line is as wide as its text and what ends it, be that one character or two |
| Segmentation.Lossless | aircheck/domain/source.py:138-190 | Segments are numbered from one, ordered, disjoint, equal to the slices at their offsets, under the last heading before them; every non-whitespace character of a non-heading line is in exactly one, and no heading character in any |
| Segmentation.SegmentedIff | aircheck/domain/source.py:74-95 | Exactly which documents are refused: too many sentences, a sentence that ends in stripped white space, or a heading without words |
| Provenance.SpanIff | aircheck/domain/source.py:193-242 | Over the document's own segments a span is built exactly for one to three consecutive ones and a quote they contain; it is the text from first start to last end, under their heading if they share one |
| Provenance.SpanMeans | aircheck/domain/source.py:193-242 | Whatever segments are given, a span rests on one to three consecutive ones of the document, each in its place with its own text and hash; it is the trimmed text from the first to the last, and its quote occurs in it, whitespace aside |
| Provenance.SqueezeJoins | aircheck/domain/source.py:215-225 | Whitespace aside: words are joined by one space, whatever stood between them |
| Provenance.WholeTextCanBeQuoted | aircheck/domain/source.py:193-242 | Any one to three consecutive segments can be cited by quoting them |
| Provenance.NormalizeIsStable | aircheck/domain/source.py:41-45 | Normalizing twice is normalizing once, and leaves no carriage return and no padding |
| Provenance.UnifyIs | aircheck/domain/source.py:41-45 | Every carriage return becomes a newline, and one before a newline vanishes |
| Provenance.UnpadLine | aircheck/domain/source.py:41-45 | Padding is dropped line by line |
| Provenance.NormalizedCanBeSegmented | aircheck/domain/source.py:138-190 | A normalized document with plain whitespace is refused only for too many sentences or a heading without words |
| Provenance.NoBreakSpaceIsRefused | aircheck/domain/source.py:74-95 | A normalized document that ends in a no-break space is refused |
| Ingestion.FirstSteady | aircheck/runtime/orchestrator.py:133-215 | The record written when a package is ingested is steady |
| Records.LeafIff | aircheck/runtime/models.py:157-168 | A current asset is a working copy or a derivative that is no other asset's predecessor |
| Lifecycle.BatchIsFresh | aircheck/runtime/orchestrator.py:600-650 | After an inspection the last measurement of every measured requirement is of this cycle |
| Lifecycle.LatestIsOfLast | aircheck/runtime/orchestrator.py:1014-1049 | The predicate that decides a requirement is that of its last measurement |
| Lifecycle.ReadyRestsOnFreshFacts | aircheck/runtime/orchestrator.py:1014-1049 | A deliverable input rests, for each applicable requirement, on a PASS measured in this cycle |
| Lifecycle.OfferedDescribableIff | aircheck/runtime/orchestrator.py:745-820 | An offered option can be described exactly when the requirement's caption target, if it has one, is a format the conversion knows |
| Remedies.OfferedIff | aircheck/runtime/orchestrator.py:745-820 | What is offered, and when nothing is: the tool by key, the tier, the target, and none to a requirement that failed twice |
| Remedies.OfferRefusedIff | aircheck/tools/contracts.py:32-49 | When the offer raises instead: a name or format that is empty or leads out of its directory, and a loudness range of one point |
| Text.PathSyntaxIff | aircheck/tools/contracts.py:32-49 | What leads out of a directory: a separator anywhere, or nothing but a step to the parent, perhaps on a drive |
| Remedies.LoudnessOfferMeans | aircheck/runtime/orchestrator.py:788-809 | A derivative aims at the middle of the range with a tolerance that reaches to its ends: a loudness is within the tolerance of the target exactly when it is in the range |
| Remedies.RenameOfferMeans | aircheck/runtime/orchestrator.py:766-771 | A rename offers the name that passes, exactly when it has no whitespace around it |
| Remedies.ConvertOfferMeans | aircheck/runtime/orchestrator.py:776-787 | A conversion offers the format that passes, or the first that is accepted |
| Remedies.ManifestOfferMeans | aircheck/runtime/orchestrator.py:772-775 | A manifest is offered whatever is demanded of its presence, and passes exactly where it is to be present |
| Remedies.ManifestIsOfferedForAbsence | aircheck/runtime/orchestrator.py:772-775 | The input where that fails: no manifest may be present, one is written, and the requirement fails again |
| Remedies.AdmittedIsAttainableIff | aircheck/runtime/orchestrator.py:745-820 | Whatever admission lets through can be attained by its remedy, with that one exception |
| Remedies.RemedySatisfies | aircheck/runtime/orchestrator.py:745-820 | A remediation that succeeds satisfies the requirement it was offered for: what an inspection reads off the asset it made passes |
| Remedies.MadeIsTarget | aircheck/runtime/orchestrator.py:632-640 | And that asset is what the next inspection looks at, where its source was the only current one of the role |
| Lifecycle.TtmlIsOffered | aircheck/runtime/orchestrator.py:776-787 | The input where that fails: captions required in TTML are admitted as executable and offered a conversion nothing can describe |
| Lifecycle.PointRangeIsRefused | aircheck/runtime/orchestrator.py:788-809 | An admitted loudness range of one point makes the option, and with it the inspection that would offer it, raise |
| Lifecycle.EveryAssetIsTargetIff | aircheck/runtime/orchestrator.py:632-640 | Every current asset of a requirement's role is the one its check looks at exactly when there is at most one |
| Lifecycle.SecondIsNeverTarget | aircheck/runtime/orchestrator.py:632-640 | The run where there are two: the second is never looked at |
| Inspection.InspectedSelectable | aircheck/runtime/orchestrator.py:600-743 | After an inspection every open option can be taken up: no closed finding shadows an open one, and each option is aimed at a current asset or at none |
| Inspection.InspectionAllowed | aircheck/authority/policy.py:201-273 | The policy allows the inspection of every current asset |
| Boundary.OfferedIsAllowed | aircheck/authority/policy.py:201-273 | The authority never refuses what the runtime offers: every option of an open finding is allowed if reversible and needs a decision if content-affecting |
| Boundary.OfferedMayBegin | aircheck/authority/policy.py:346-422 | And it may begin, with whatever authorization, against the record it was offered for |
| Boundary.RequestMadeIff | aircheck/authority/policy.py:276-296 | A decision request is created for an offered option exactly when none is pending |
| Boundary.RewriteAdmittedIff | aircheck/runtime/orchestrator.py:880-920 | A rewrite of the manifest is allowed exactly when no finding of the same requirement and cycle, made for a rewrite, was closed before; otherwise it is forbidden |
| Boundary.SecondRewriteIsForbidden | aircheck/runtime/orchestrator.py:880-944 | The record a failed rewrite leaves is one where it is forbidden |
| Inspection.InspectedRunOk | aircheck/runtime/orchestrator.py:600-743 | The record an inspection leaves is in order, nothing in it is of a later cycle, and the last measurement of everything measured is of this one |
| Lifecycle.MeasurableIff | aircheck/runtime/orchestrator.py:614-628 | What an inspection measures under a name: the last requirement that has it, if it has a tool, a key and a constraint |
| Inspection.FoundIff | aircheck/runtime/orchestrator.py:690-718 | A measurement leaves a finding exactly when it does not pass: open, named after requirement and cycle, about the asset that was looked at, with what is offered for it |
| Inspection.FailuresAre | aircheck/runtime/orchestrator.py:1060-1078 | The failures that count against a requirement are the failed actions of its own options |
| Inspection.FoundOnceIff | aircheck/runtime/orchestrator.py:690-718 | An inspection makes each finding once exactly when no requirement fails twice in it |
| Inspection.InspectedOnce | aircheck/runtime/orchestrator.py:626-718 | When nothing stands twice in the order of checks, each requirement is measured at most once in a cycle and each finding made at most once |
| Inspection.RepeatIsFoundTwice | aircheck/runtime/orchestrator.py:626-718 | The order where that fails: a requirement that stands twice is measured twice and, failing, leaves two findings of one name |
| Orchestrator.ExecutedOnce | aircheck/runtime/remediation.py:71-135 | An execution that returns attempted its option once and no other |
| Inspection.OpenBindingsAdmit | aircheck/runtime/orchestrator.py:729-742 | The saved bindings admit every open option |
| Diagnosis.AppliedsOffered | aircheck/agent/diagnosis.py:45-132 | Whatever the model answers, an accepted diagnosis selects only options of open findings, of its own tier |
| Diagnosis.EscalationIsLast | aircheck/agent/diagnosis.py:45-132 | No human is asked while a reversible remedy is open |
| Diagnosis.AcceptsIff | aircheck/agent/diagnosis.py:45-132 | Exactly which diagnoses are accepted: an item for every open finding and for no other, at most one for a name; each leaves its finding alone or takes up an option of its own tier; none is escalated while a reversible one is open |
| Diagnosis.AppliedsAre | aircheck/runtime/orchestrator.py:350-368 | Every option that is applied is in the batch, once for each item that applies it, and the one escalated is that of the first item that escalates |
| Diagnosis.ByPriorityMeaning | aircheck/runtime/orchestrator.py:361-368 | The tier-one batch is the same options, renames first and manifests last, equal tools by identifier |
| Diagnosis.BatchOrder | aircheck/runtime/orchestrator.py:361-368 | In that order: renames, conversions, manifests last, and equal tools by identifier |
| Diagnosis.BatchIsDetermined | aircheck/runtime/orchestrator.py:361-368 | The batch does not depend on the order in which the model listed its picks |
| Steadiness.EnterSteady | aircheck/runtime/orchestrator.py:1114-1141 | A transition whose guard holds keeps the run steady |
| Steadiness.FramedSteady | aircheck/runtime/orchestrator.py:547-598 | Whatever an execution or a recovery leaves, cut short or not, keeps the run steady |
| Orchestrator.NextCycle | aircheck/runtime/orchestrator.py:547-598 | The cycle guard never refuses: a remediating run is below the last cycle |
| Orchestrator.SelectionEnters | aircheck/runtime/orchestrator.py:547-570 | The selection guard passes whenever the snapshot admits the open options |
| Orchestrator.VerdictEnters | aircheck/runtime/orchestrator.py:312-330 | Every verdict has its transition |
| Orchestrator.ClosingBlocks | aircheck/runtime/orchestrator.py:422-445 | Closing the open findings yields a BLOCKED verdict when nothing is pending |
| Orchestrator.ApprovalBacks | aircheck/runtime/orchestrator.py:491-530 | An approval by a human backs exactly one content-affecting action |
| Orchestrator.HeadlessOrchestrator.Reopen | aircheck/persistence/store.py:46-55 | Opening the store from whatever an earlier call left gives a steady state or can be tried again |
| Orchestrator.HeadlessOrchestrator.MoveTo | aircheck/runtime/orchestrator.py:1114-1141 | A refused guard writes nothing; a return means exactly this transition was committed |
| Orchestrator.HeadlessOrchestrator.Ingest | aircheck/runtime/orchestrator.py:133-215 | Crash anywhere in ingestion: a run that has a record can be restarted |
| Orchestrator.HeadlessOrchestrator.Start | aircheck/runtime/orchestrator.py:133-275 | A return means the package was recorded with its requirements and plan and inspected: findings ready, cycle zero, the record exactly that of the first inspection |
| Orchestrator.HeadlessOrchestrator.Examine | aircheck/runtime/orchestrator.py:600-728 | The loop measures each measurable requirement of the plan once, in order, in this cycle, and raises a finding for exactly those whose constraint does not pass |
| Orchestrator.HeadlessOrchestrator.Inspect | aircheck/runtime/orchestrator.py:600-743 | A return means the record is the old one with exactly one inspection added, findings are ready, every open option is admitted, and no action was started |
| Orchestrator.HeadlessOrchestrator.ExecuteTierOne | aircheck/runtime/orchestrator.py:547-598 | A return means each option of the batch was attempted once, in the given order, then at most one manifest was written, the run was inspected again in the next cycle and its manifest is up to date. Refused, with nothing changed, exactly when the first option is not admitted; else only a fault or the next inspection stops it |
| Orchestrator.HeadlessOrchestrator.PerformBatch | aircheck/runtime/orchestrator.py:578-587 | The loop over the batch: nothing that was selected is refused, each option is attempted once and in order, and the record only grows |
| Orchestrator.HeadlessOrchestrator.CloseAndDecide | aircheck/runtime/orchestrator.py:422-445 | The run ends BLOCKED, unless a request is pending: then it never returns |
| Orchestrator.HeadlessOrchestrator.AskHuman | aircheck/runtime/orchestrator.py:379-400 | A return means the run waits for exactly the stored request for this option; refused exactly when one is pending |
| Orchestrator.HeadlessOrchestrator.RecoverAndConclude | aircheck/runtime/orchestrator.py:304-335 | An interrupted remediation is recovered into the next cycle, its manifest up to date, or the run FAILED, which happens exactly for a caught manifest write. It raises only on a fault, a refused inspection or a second rewrite; a wedged run stays wedged |
| Orchestrator.HeadlessOrchestrator.Advance | aircheck/runtime/orchestrator.py:293-420 | Each call ends the run, waits, or moves to the next cycle, and delivers exactly when the facts allow delivery; nothing recorded is taken back and the originals stay. Outside the crash windows it raises only on a fault, a rejected diagnosis or a refused inspection; with a lost request pending it ends nothing and asks no one |
| Orchestrator.CountersAre | aircheck/runtime/orchestrator.py:1080-1112 | The counters of a run are its completed actions: autonomous those that needed no authorization, authorized those that spent one |
| Orchestrator.FirstCounters | aircheck/runtime/orchestrator.py:1080-1112 | They are right from the start: the first record counts what a ledger without actions holds |
| Orchestrator.HeadlessOrchestrator.ResolveDecision | aircheck/runtime/orchestrator.py:447-545 | Only a human decides a pending decision, and a decision that can be taken is not refused; a denial blocks, starts nothing and closes the finding that was asked about; the answer and whose it was are on record; an approval mints one authorization for the option and arguments shown, attempts exactly that option, then at most one manifest, and reaches the next cycle with the manifest up to date; anything else changes nothing, and nothing recorded is taken back |
| Orchestrator.PendingGivesNoVerdict | aircheck/domain/terminal.py:218-240 | With a request pending there is no verdict |
| Orchestrator.RequestWindow | aircheck/runtime/orchestrator.py:379-400 | The first crash window is there: after storing a request and before waiting for it the run is steady, has findings ready and a request pending |
| Orchestrator.AdmissionWindow | aircheck/runtime/orchestrator.py:729-743 | The second: between reaching ready findings and saving what they admit the run is steady and selecting any option is refused |
| History.OriginalsUnchanged | aircheck/runtime/orchestrator.py:1051-1058 | Originals, their files and their hash ledger never change: whatever extends a steady run keeps all three |
| Runs.ContentStartsAreApproved | aircheck/authority/policy.py:299-422 | Tier-2 safety in every steady state: each content-affecting start spent an authorization of its own, minted from a decision a human approved for that option and with its very argument hash; no authorization and no decision backs two starts |
| Runs.VoidBacksNothingNew | aircheck/persistence/store.py:330-346 | VOID is absorbing over whole runs: an authorization void at one moment is void at every later one, and backs no start but that of the action that had consumed it |
| Runs.DeliveredMeansReady | aircheck/runtime/orchestrator.py:1014-1058 | A delivered run: its verdict is the one its facts give, with every applicable blocking requirement counted as passed; each is executable, resolved and passed on a measurement of the verdict's own cycle; nothing pending, originals intact, the manifest up to date, no open action |
| Runs.AdvanceSpends | aircheck/runtime/orchestrator.py:293-420 | Each advance from ready findings spends one of at most (3 - c) + 1 |
| Runs.RunDriver.AdvanceUntilStopped | apps/api/service.py:651-660 | From ready findings in cycle c at most (3 - c) + 1 advances reach a decision or an end, so eight suffice; only a fault, a rejected diagnosis or a refused inspection prevents it |
| Runs.RunDriver.RunToEnd | apps/api/service.py:1266-1285 | A whole run, whatever the human decides each time, ends within (3 - c) + 1 rounds, with the same reservations |
| Runs.RunDriver.WedgeHolds | aircheck/runtime/orchestrator.py:304-335 | Where progress fails: a run left wedged by a failed rewrite of its manifest never gets on, however often it is advanced |
| Runs.RunDriver.Drive | aircheck/runtime/orchestrator.py:293-545 | Any calls in any order, each free to fail or die at any durable step: whenever the store opens, the run is steady; ledger, assets, measurements and decisions only grow, nothing spent is issued again, and the original files are what they were |
| Lease.AtMostOneHolder | aircheck/persistence/s3_lock.py:88-165 | On every interleaving at most one process holds an unexpired lease |
| Lease.LateReleaseIsHarmless | aircheck/persistence/s3_lock.py:157-165 | A release, however late, removes no other holder's lock |
| Lease.StaleLeaseIsTakenOver | aircheck/persistence/s3_lock.py:119-155 | A dead holder blocks nobody past its expiry |
| Lease.ExpiredHolderCoexists | aircheck/persistence/s3_lock.py:133-177 | Expiry matters: a run in which a process past its expiry is still inside while another holds the lease |
| Lease.StepKeeps | aircheck/persistence/s3_lock.py:88-177 | Every step keeps: tokens are unique, an unexpired holder owns the lock object, and only expired leases are taken over |
| Decisions.OneInside | apps/api/service.py:1254-1287 | At most one container is inside the mutation block |
| Decisions.BlockStepKeeps | apps/api/service.py:1254-1287 | Syncing down, re-checking, resolving and syncing up, key by key, keep the invariant |
| Decisions.NoDecisionResolvedTwice | apps/api/service.py:1254-1287 | No decision is resolved twice on any interleaving of any number of containers with any caches |
| Mirror.S3StateMirror.SyncDown | aircheck/persistence/s3_store.py:97-116 | The tree becomes the old tree overridden by the bucket's files of the subtree; nothing is deleted |
| Mirror.S3StateMirror.SyncUp | aircheck/persistence/s3_store.py:118-140 | The bucket becomes the old one overridden by the scanned files; nothing is deleted |
| Mirror.SeenIff | aircheck/persistence/s3_store.py:70-97 | What either sees: the objects under the prefix and the subtree, less the markers of directories, and the files of the subtree |
| Mirror.Restore | aircheck/persistence/s3_store.py:97-140 | One container uploads and a fresh one downloads: it restores exactly the uploaded tree if and only if the bucket held no other file |
| Mirror.UploadBoth | aircheck/persistence/s3_store.py:118-140 | Two containers uploading disjoint subtrees, in either order, leave the bucket with the changes of both |

## Left out

- Orchestrator.HeadlessOrchestrator.Start: takes the admitted requirements and the order of checks as arguments, and does not call the interpretation loop, admission and planning itself; `Admission`, `Planning` and `Plans` model those, on the domain's own requirement type. The requirements are those whose caption target, if any, the conversion knows; for others `UndescribableStaysOpen` says what becomes of the run.
- Orchestrator.HeadlessOrchestrator.Measure: a measurement is any canonical fact or a failure; ffmpeg, ffprobe, the tool result cache of one inspection and evidence artifacts are not modelled.
- Orchestrator.HeadlessOrchestrator.ResolveDecision: a crash inside an approval may leave an issued authorization that no action spends, or an approved request with the run still waiting; later calls then refuse, which `Decidable` states.
- Orchestrator.HeadlessOrchestrator.RefreshManifest: makes its promise for a package with one current manifest that listed the leaves when it was made; the results on renamed copies and on two manifests say what happens otherwise.
- A crash while INSPECTING leaves a run that `advance` returns unchanged; that is modelled, and no progress is claimed for it.
- A PASS is claimed for the asset that was inspected, not for an asset of the requirement's role: with an empty order of checks the inspection falls back to the first current asset.
- Ingestion.FirstSteady: for packages whose files are all present; a missing file raises before anything is recorded.
- Runs.RunDriver.Drive: assumes one writer for the store, as the code does; two concurrent recoveries of one journal could both append a start.
- Decisions.NoDecisionResolvedTwice: for containers that do not outlive their lease inside the block, finish their upload, and change only this run's files; an upload of the whole store can take back another run's change.
- Captions.CaptionCues: `str.isdigit` on cue numbers is that of Unicode 14.
- CaptionInspection.InspectCaptions: the model of a run holds captions as one opaque list of cues, so that the measured facts of its inspections are arbitrary and not these.
- ManifestFile.VerifyManifest: reading a file's bytes as text is an abstract function; names are compared as strings.
- Segmentation.SegmentSourceDocument: the two heading patterns are one abstract function from a line to its reference.
- Admission.AdmittedIsSound: modal words, conditional hints and the support of a condition are abstract searches in the cited text; the rendered sentence of a requirement is not modelled.
- Plans.ConstructPlan: prompts are not modelled, and a tool's own input validation is an abstract test.
- Mirror.S3StateMirror.SyncDown: transfers do not fail.
- Authority.AllowedMutationIsBound: `InMemoryAuthorityStore` has the contract of the durable store's `consume` and `void` and is not modelled apart.
- Floating-point numbers are reals: no rounding, no NaN, no infinity.
- The `.lock` files of `_exclusive_file`: a write is one atomic step, and a lock held by a dead process counts as released.
- Sizes of files and media types are not recorded.
- Reads of files and of the store do not fail.
- HTTP routes, read projections, the web application, the model adapters, deployment, evaluation and synthetic media.
