/** `HeadlessOrchestrator`: the loop that drives a run, and what every run of it keeps. */
module Orchestrator {
  import opened Domain
  import opened Sequences
  import opened Ledger
  import opened Constraints
  import opened Terminal
  import opened Records
  import opened StateMachine
  import opened Store
  import opened Protocol
  import opened Remediation
  import opened Executor
  import opened Lifecycle
  import opened Steadiness
  import opened Inspection
  import opened Refresh
  import opened Diagnosis
  import opened Boundary
  import opened Ingestion
  import opened History
  import Authority

  lemma SteadyHas(lex: Lexicon, d: Disk, files: Files, runId: Id)
    requires Steady(lex, d, files, runId)
    ensures d.actionJournals == map[] && d.transitionJournals == map[] && Settled(d)
    ensures runId in d.snapshots && d.snapshots[runId].runId == runId && Loadable(d, runId)
    ensures runId in d.runs && d.runs[runId].runId == runId && AssetsOk(d.runs[runId].assets) && Good(d, files, runId)
    ensures RunOk(d.runs[runId]) && StatusOk(lex, d.snapshots[runId], d.runs[runId], Events(d, runId))
    ensures BackedOk(Events(d, runId), d.authorizations, d.runs[runId])
    ensures DecisionsOk(d, d.snapshots[runId], Events(d, runId))
    ensures ManifestOk(d.snapshots[runId].status, d.runs[runId], files)
  {
    hide Consistent, Chain, RunOk, StatusOk, BackedOk, ManifestOk;
    assert SnapshotAgrees(d, runId);
    GoodAssets(d, files, runId);
  }

  /** What an inspection may end in besides the death of the process: a failed write, or one of
      the refusals that some check of the plan makes certain beforehand. */
  predicate Halts(error: Error, run: RuntimeRun) {
    error.IoError? || ((error.MissingKey? || error.InvalidValue?) && !Examinable(run))
  }

  class HeadlessOrchestrator {
    const lex: Lexicon
    const runId: Id
    const executor: RemediationExecutor
    const store: LocalDurableStore
    const workspace: Workspace

    constructor (lex: Lexicon, runId: Id, executor: RemediationExecutor)
      ensures this.lex == lex && this.runId == runId && this.executor == executor && Bound()
    {
      this.lex, this.runId, this.executor := lex, runId, executor;
      this.store, this.workspace := executor.store, executor.workspace;
    }

    predicate Bound() { executor.store == store && executor.workspace == workspace }

    ghost predicate Holds(state: RunStateSnapshot, run: RuntimeRun)
      reads store, workspace
    {
      && Bound() && Steady(lex, store.disk, workspace.files, runId)
      && runId in store.disk.snapshots && store.disk.snapshots[runId] == state && state.runId == runId
      && runId in store.disk.runs && store.disk.runs[runId] == run && run.runId == runId
    }

    ghost predicate CanRestart()
      reads store, workspace
    {
      Bound() && Restartable(lex, store.disk, workspace.files, runId)
    }

    /** The options whose actions this run has started, in order. */
    ghost function Attempts(): seq<OptionId>
      reads store
    {
      Attempted(Events(store.disk, runId))
    }

    /** Both copies of every file; nothing is overwritten. */
    method CopyPackage(items: seq<PackageItem>) returns (r: Outcome<()>)
      modifies workspace
      ensures r.Done? ==> AllPresent(items) && Copied(items, workspace.files, |items|)
    {
      for i := 0 to |items|
        invariant Copied(items, workspace.files, i)
      {
        if items[i].content.None? {
          return Raised(IoError);
        }
        if OriginalPathOf(items, i) in workspace.files {
          return Raised(IoError);
        }
        var _ :- workspace.WriteFile(OriginalPathOf(items, i), items[i].content.value);
        if WorkingPathOf(items, i) in workspace.files {
          return Raised(IoError);
        }
        var _ :- workspace.WriteFile(WorkingPathOf(items, i), items[i].content.value);
      }
      return Done(());
    }

    /** The first snapshot and the first transition, before there is a record. */
    method OpenRun() returns (r: Outcome<RunStateSnapshot>)
      requires Unknown(store.disk, runId)
      modifies store
      ensures store.disk.runs == old(store.disk).runs
      ensures r.Done? ==> r.value == Initial(runId).(status := Ingesting) && Opening(store.disk, runId)
    {
      hide Unknown, Opening, CommitOk, SnapshotOk, Settled, TransitionEvent;
      ghost var before := store.disk;
      FirstSnapshotOk(before, runId);
      OpeningReached(before, runId);
      UnknownJournals(before, runId);
      var _ :- store.SaveSnapshot(Initial(runId));
      ghost var first := store.disk;
      var updated := Transition(Initial(runId), Ingesting, NoGuard);
      var event := TransitionEvent(Events(store.disk, runId), Initial(runId), Ingesting);
      var committed := store.CommitTransition(updated.value, event);
      if Interrupted(first, store.disk, TransitionJournal(event, updated.value)) {
        CommitJournals(first, store.disk, TransitionJournal(event, updated.value));
      }
      var _ :- committed;
      return Done(updated.value);
    }

    /** The ingesting half of `start`: the package is copied, then recorded. */
    method Ingest(items: seq<PackageItem>) returns (r: Outcome<RunStateSnapshot>)
      requires Bound() && Unknown(store.disk, runId) && items != []
      modifies store, workspace
      ensures runId in store.disk.runs ==> CanRestart()
      ensures r.Done? ==> AllPresent(items) && Holds(r.value, FirstRecord(runId, items))
                          && r.value == Initial(runId).(status := Ingesting)
                          && Untouched(FirstRecord(runId, items))
    {
      hide Unknown, Opening, Steady, Copied, PendingStart, PendingCommit, FirstRecord;
      OpeningUnrecorded(store.disk, runId);
      var state :- OpenRun();
      var _ :- CopyPackage(items);
      FirstSteady(lex, store.disk, workspace.files, runId, items);
      OpeningSnapshot(store.disk, runId);
      FirstNamed(runId, items);
      FirstUntouched(runId, items);
      var _ :- store.SaveRun(FirstRecord(runId, items));
      return Done(state);
    }

    /** `start`, for requirements and a plan already made: the run is recorded, planned and
        inspected for the first time. */
    method Start(items: seq<PackageItem>, requirements: seq<RuntimeRequirement>, checkOrder: seq<Id>)
      returns (r: Outcome<RunStateSnapshot>)
      requires Bound() && Unknown(store.disk, runId) && items != []
      requires forall i :: 0 <= i < |requirements| ==> CaptionTargetKnown(requirements[i])
      modifies store, workspace
      ensures runId in store.disk.runs ==> CanRestart()
      ensures r.Done? ==>
                && runId in store.disk.runs && Holds(r.value, store.disk.runs[runId])
                && r.value.status.FindingsReady? && r.value.cycle == 0 && Unhindered(store.disk, runId)
                && AllPresent(items)
                && exists events :: InspectedFrom(lex,
                  FirstRecord(runId, items).(requirements := requirements, checkOrder := checkOrder),
                                                  events, 0, store.disk.runs[runId])
    {
      hide Unknown, Steady, Restartable, Admits, InspectedFrom;
      var state :- Ingest(items);
      var run := FirstRecord(runId, items);
      var planned :- Plan(state, run, requirements, checkOrder);
      r := Inspect(planned);
    }

    /** From a recorded package to the first inspection. */
    method Plan(state: RunStateSnapshot, run: RuntimeRun, requirements: seq<RuntimeRequirement>, checkOrder: seq<Id>)
      returns (r: Outcome<RunStateSnapshot>)
      requires Holds(state, run) && state.status.Ingesting? && Untouched(run)
      requires forall i :: 0 <= i < |requirements| ==> CaptionTargetKnown(requirements[i])
      modifies store
      ensures CanRestart()
      ensures r.Done? ==> && Holds(r.value, run.(requirements := requirements, checkOrder := checkOrder))
                          && r.value == state.(status := Inspecting)
    {
      hide Steady, Restartable;
      var ingested :- Proceed(state, run, Ingested);
      var interpreting :- Proceed(ingested, run, Interpreting);
      var admittedRun := run.(requirements := requirements);
      var _ :- SavePlanned(interpreting, run, requirements, run.checkOrder);
      var admitted :- Proceed(interpreting, admittedRun, RequirementsAdmitted);
      var _ :- SavePlanned(admitted, admittedRun, requirements, checkOrder);
      var plannedRun := admittedRun.(checkOrder := checkOrder);
      var planned :- Proceed(admitted, plannedRun, QcPlanned);
      r := Proceed(planned, plannedRun, Inspecting);
    }

    /** The unguarded transitions of `start`. */
    method Proceed(state: RunStateSnapshot, run: RuntimeRun, target: RunStatus) returns (r: Outcome<RunStateSnapshot>)
      requires Holds(state, run) && Quiet(state.status) && Quiet(target) && target in Targets(state.status)
      modifies store
      ensures CanRestart()
      ensures r.Done? ==> Holds(r.value, run) && r.value == state.(status := target)
    {
      hide Steady, Enterable, TransitionEvent, Transition, Targets, Quiet;
      QuietEnters(lex, store.disk, workspace.files, state, target);
      r := MoveTo(state, target, NoGuard);
    }

    method SavePlanned(state: RunStateSnapshot, run: RuntimeRun, requirements: seq<RuntimeRequirement>,
                       checkOrder: seq<Id>)
      returns (r: Outcome<()>)
      requires Holds(state, run) && Quiet(state.status) && Untouched(run)
      requires forall i :: 0 <= i < |requirements| ==> CaptionTargetKnown(requirements[i])
      modifies store
      ensures CanRestart()
      ensures r.Done? ==> Holds(state, run.(requirements := requirements, checkOrder := checkOrder))
    {
      hide Steady, Savable, RunOk;
      var updated := run.(requirements := requirements, checkOrder := checkOrder);
      PlannedSavable(lex, store.disk, workspace.files, state, updated);
      r := Save(state, updated);
    }

    /** Opening the store again: from whatever an earlier call left, a return means a steady
        state; otherwise it can be tried again. */
    method Reopen(nonce: Id) returns (r: Outcome<()>)
      requires CanRestart()
      modifies store
      ensures CanRestart()
      ensures r.Done? ==> Steady(lex, store.disk, workspace.files, runId)
      ensures Steady(lex, old(store.disk), workspace.files, runId) ==> store.disk == old(store.disk) && r.Done?
      ensures Extends(old(store.disk), store.disk, runId)
    {
      hide Steady, PendingCommit, PendingStart, FinishesTransition, FinishesAction, ActionsKeyed, TransitionsKeyed,
           Extends;
      ghost var left := store.disk;
      ghost var files := workspace.files;
      LeftKeyed(lex, left, files, runId);
      RestartableRecorded(lex, left, files, runId);
      r := store.Reopen(nonce);
      if Steady(lex, left, files, runId) {
        SteadyHas(lex, left, files, runId);
        ExtendsSame(left, runId);
      } else if exists before, j :: PendingCommit(lex, before, left, files, runId, j) {
        ghost var before, j :| PendingCommit(lex, before, left, files, runId, j);
        CommitLeft(lex, before, left, files, runId, j);
        FinishCommit(lex, before, left, store.disk, files, runId, j, r);
        PendingCommitOf(lex, before, left, files, runId, j);
        FinishCommitExtends(left, store.disk, j, r);
      } else {
        ghost var before, action :| PendingStart(lex, before, left, files, runId, action);
        StartLeft(lex, before, left, files, runId, action);
        FinishStart(lex, before, left, store.disk, files, runId, action, nonce + action.actionId, r);
        PendingStartOf(lex, before, left, files, runId, action);
        FinishStartExtends(left, store.disk, action, nonce + action.actionId, r);
      }
    }

    /** `_transition`. */
    method MoveTo(state: RunStateSnapshot, target: RunStatus, guard: Guard) returns (r: Outcome<RunStateSnapshot>)
      requires runId in store.disk.runs && Holds(state, store.disk.runs[runId])
      requires Transition(state, target, guard).Some? ==>
        Enterable(lex, store.disk, workspace.files, Transition(state, target, guard).value)
      modifies store
      ensures CanRestart() && Extends(old(store.disk), store.disk, runId)
      ensures Transition(state, target, guard).None? ==> Refuses(old(store.disk), store.disk, InvalidTransition, r)
      ensures r.Raised? ==> r.error == (if Transition(state, target, guard).None? then InvalidTransition else IoError)
      ensures r.Done? ==>
                && r == Done(Transition(state, target, guard).value)
                && Holds(r.value, old(store.disk).runs[runId])
                && store.disk == Committed(old(store.disk), r.value,
                  TransitionEvent(Events(old(store.disk), runId), state, target))
                && Attempts() == old(Attempts())
    {
      hide Steady, Enterable, CommitOk, TransitionEvent, CheckGuard, DecisionsOk, RunOk, StatusOk, Good, Settled,
           BackedOk, Attempted, Extends, ManifestOk;
      ghost var before := store.disk;
      ExtendsSame(before, runId);
      SteadyHas(lex, before, workspace.files, runId);
      var updated := Transition(state, target, guard);
      if updated.None? {
        return Raised(InvalidTransition);
      }
      var event := TransitionEvent(Events(store.disk, runId), state, target);
      EnterSteady(lex, before, workspace.files, state, updated.value);
      var committed := store.CommitTransition(updated.value, event);
      CommitRestartable(lex, before, store.disk, workspace.files, runId, TransitionJournal(event, updated.value));
      CommitExtends(before, store.disk, TransitionJournal(event, updated.value));
      TransitionAttemptsNothing(Events(before, runId), state, target);
      var _ :- committed;
      r := Done(updated.value);
    }

    /** `save_runtime_run`, of a record that differs in no asset. */
    method Save(ghost state: RunStateSnapshot, updated: RuntimeRun) returns (r: Outcome<()>)
      requires runId in store.disk.runs && Holds(state, store.disk.runs[runId])
      requires Savable(lex, store.disk, workspace.files, state, updated)
      modifies store
      ensures CanRestart() && runId in store.disk.runs
      ensures KeepsRecord(old(store.disk).runs[runId], updated) ==> Extends(old(store.disk), store.disk, runId)
      ensures Commits(old(store.disk), store.disk, old(store.disk).(runs := old(store.disk).runs[runId := updated]), r)
      ensures Holds(state, store.disk.runs[runId])
    {
      hide Steady, RunOk, StatusOk, BackedOk, NoneOpen, DecisionsOk, ManifestOk, Extends, KeepsRecord;
      SavedSteady(lex, store.disk, workspace.files, runId, updated);
      ExtendsSame(store.disk, runId);
      if KeepsRecord(store.disk.runs[runId], updated) {
        SavedExtends(store.disk, runId, updated);
      }
      r := store.SaveRun(updated);
    }

    /** One check: always allowed by the policy, and then whatever the tool reports, as long as
        it is a canonical fact. */
    method Measure(state: RunStateSnapshot, run: RuntimeRun, requirement: RuntimeRequirement, target: RuntimeAsset)
      returns (r: Outcome<Measurement>)
      requires requirement.tool.Some? && requirement.key.Some? && requirement.constraint.Some?
      requires HashesOk(run) && target in CurrentAssets(run) && state.status.Inspecting?
      ensures r.Raised? ==>
                r.error == InvalidValue
                  && InspectionInput(run.runId, requirement.tool.value, WorkingAsset(0), requirement.stream).None?
      ensures !r.Crashed?
      ensures r.Done? ==>
                && r.value.requirementId == requirement.requirementId && r.value.cycle == state.cycle
                && r.value.key == requirement.key.value && ValidMeasurement(lex, r.value)
    {
      hide InspectionInput, Authority.Evaluate, ContextOf, HashesOk, CurrentAssets;
      var input := InspectionInput(run.runId, requirement.tool.value, target.asset.assetId, requirement.stream);
      InspectionInputSame(run.runId, requirement.tool.value, target.asset.assetId, requirement.stream);
      if input.None? {
        return Raised(InvalidValue);
      }
      InspectionAllowed(run, requirement.tool.value, target, requirement.stream);
      if Authority.Evaluate(requirement.tool.value, input.value, ContextOf(run, state.status)) != Authority.Allow {
        return Raised(PermissionDenied);
      }
      var reported: bool := *;
      var value: Scalar := *;
      var unit: Option<string> := *;
      if reported && CanonicalValue(lex, requirement.key.value, value, unit) {
        return Done(Measurement(requirement.requirementId, state.cycle, requirement.key.value, Some(value), unit, Ok));
      }
      return Done(Measurement(requirement.requirementId, state.cycle, requirement.key.value, None,
                              requirement.constraint.value.unit, Failure));
    }

    /** The loop of `_inspect`. */
    method Examine(state: RunStateSnapshot, run: RuntimeRun, events: seq<LedgerEvent>)
      returns (r: Outcome<(seq<Measurement>, seq<RuntimeFinding>)>)
      requires HashesOk(run) && CurrentAssets(run) != [] && state.status.Inspecting?
      ensures r.Raised? ==> Halts(r.error, run)
      ensures r.Done? ==> IsInspection(run, events, state.cycle, |OrderedIds(run)|, r.value.0, r.value.1)
      ensures r.Done? ==> Examines(lex, run, events, state.cycle, |OrderedIds(run)|, r.value.0, r.value.1)
    {
      hide RemedyFor, FailureCount, Constraints.Evaluate, OptionsFor, IsInspection, ValidMeasurement, Examines,
           HashesOk, RemedyValid, InspectionInput, CurrentAssets;
      var ids := OrderedIds(run);
      var batch: seq<Measurement>, added: seq<RuntimeFinding> := [], [];
      NothingInspected(run, events, state.cycle);
      ExaminesNone(lex, run, events, state.cycle);
      for i := 0 to |ids|
        invariant IsInspection(run, events, state.cycle, i, batch, added)
        invariant Examines(lex, run, events, state.cycle, i, batch, added)
      {
        var requirement := FindRequirement(run.requirements, ids[i]);
        CheckRefused(run, i, state.cycle, events);
        if requirement.None? {
          return Raised(MissingKey);
        }
        if requirement.value.tool.None? || requirement.value.constraint.None? {
          InspectionSkips(run, events, state.cycle, i, batch, added);
          ExaminesSkips(lex, run, events, state.cycle, i, batch, added);
        } else {
          var target := TargetOf(run, requirement.value);
          if target.None? {
            return Raised(MissingKey);
          }
          if requirement.value.key.None? {
            return Raised(InvalidValue);
          }
          var m :- Measure(state, run, requirement.value, target.value);
          var more: seq<RuntimeFinding> := [];
          if Constraints.Evaluate(lex, m, requirement.value.constraint.value) != Pass {
            var offers := OffersFor(run, events, state.cycle, ids[i]);
            if !offers.Done? {
              return Raised(InvalidValue);
            }
            more := [RuntimeFinding(FindingId(ids[i], state.cycle, false), ids[i], target.value.asset.assetId,
                                    state.cycle, Open, offers.value, None)];
          }
          InspectionTakes(run, events, state.cycle, i, batch, added, m, more);
          ExaminesTakes(lex, run, events, state.cycle, i, batch, added, m, more);
          batch, added := batch + [m], added + more;
        }
      }
      return Done((batch, added));
    }

    /** `_inspect`. */
    method Inspect(state: RunStateSnapshot) returns (r: Outcome<RunStateSnapshot>)
      requires runId in store.disk.runs && Holds(state, store.disk.runs[runId])
      requires state.status.Inspecting? && Uninspected(store.disk.runs[runId], state.cycle)
      modifies store
      ensures CanRestart() && Extends(old(store.disk), store.disk, runId)
      ensures r.Raised? ==> Halts(r.error, old(store.disk).runs[runId])
      ensures r.Done? ==>
                && runId in store.disk.runs && Holds(r.value, store.disk.runs[runId])
                && r.value.status.FindingsReady? && r.value.cycle == state.cycle
                && Admits(r.value, store.disk.runs[runId])
                && store.disk.runs[runId].decisionRequests == old(store.disk).runs[runId].decisionRequests
                && InspectedFrom(lex, old(store.disk).runs[runId], Events(old(store.disk), runId), state.cycle,
                  store.disk.runs[runId])
                && Attempts() == old(Attempts())
    {
      hide Attempted, Steady, RunOk, StatusOk, BackedOk, NoneOpen, IsInspection, Enterable, InspectedRun, Admits,
           Transition, TransitionEvent, InspectedFrom, Examines, Extends, KeepsRecord, Savable, HashesOk, ManifestOk,
           DecisionsOk, Halts, AssetsOk;
      ExtendsOn(runId);
      var run, events := store.disk.runs[runId], Events(store.disk, runId);
      SteadyHas(lex, store.disk, workspace.files, runId);
      ExtendsSame(store.disk, runId);
      FaultHalts(run);
      RunInspectable(run);
      var found :- Examine(state, run, events);
      var updated := InspectedRun(run, found.0, found.1);
      InspectedKeepsRecord(run, found.0, found.1);
      WhollyExamined(lex, run, events, state.cycle, found.0, found.1);
      InspectionSavable(lex, store.disk, workspace.files, state, found.0, found.1);
      var _ :- Save(state, updated);
      var ready :- MoveTo(state, FindingsReady, NoGuard);
      var admitted := ready.(admissibleOptions := OpenBindings(runId, updated.findings));
      OpenBindingsAdmit(ready, updated);
      SnapshotSteady(lex, store.disk, workspace.files, runId, admitted);
      SteadyHas(lex, store.disk, workspace.files, runId);
      ExtendsSame(store.disk, runId);
      SnapshotExtends(store.disk, runId, admitted);
      var _ :- store.SaveSnapshot(admitted);
      return Done(admitted);
    }

    /** `RemediationExecutor.execute` for an option of the run, while remediating. Nothing but a
        fault of the store or the files is raised. */
    method Perform(state: RunStateSnapshot, run: RuntimeRun, authority: Authority.AuthorityRunContext,
                   option: RemediationOption, input: ToolInput)
      returns (r: Outcome<Remedied>)
      requires Holds(state, run) && state.status.Remediating? && NoneOpen(Events(store.disk, runId))
      requires Offers(run.findings, option) && Authority.MayBegin(state, authority, option.tool, input, option)
      requires Backs(store.disk, run, Events(store.disk, runId),
        NewAction(state, option, input, Events(store.disk, runId)))
      modifies store, workspace
      ensures CanRestart() && Extends(old(store.disk), store.disk, runId)
      ensures r.Raised? ==> r.error == IoError
      ensures r.Done? ==>
                && Holds(state, r.value.run) && NoneOpen(Events(store.disk, runId)) && Grown(run, r.value.run)
                && Concludes(workspace.files, run, option, r.value)
                && Attempts() == old(Attempts()) + [option.optionId]
                && (r.value.newAssetId.None? ==>
                      && FailedAttempt(Events(old(store.disk), runId), Events(store.disk, runId))
                      && SameAssetFiles(run, old(workspace.files), workspace.files))
    {
      hide Attempted, Steady, RunOk, StatusOk, BackedOk, NoneOpen, Good, Executor.Ready, Describable, Executed, LeftBy,
           Framed, Restartable, UsableIn, FreshActionId, FreshEventId, Offers, Settled, ActionInterrupted, OnlyScratch,
           Extends, ManifestOk, Authority.MayBegin, CanStart, Backs, Concludes, FailedAttempt, SameAssetFiles, HasStart,
           Describe, Made, KeepsRecord, StartedEvent;
      ghost var before, files := store.disk, workspace.files;
      var events := Events(store.disk, runId);
      SteadyHas(lex, before, files, runId);
      var actionId, eventId := FreshActionId(events), FreshEventId(events);
      ActionReady(lex, before, files, runId, state, option, input);
      BacksCanStart(before, run, events, NewAction(state, option, input, events));
      r := executor.Execute(run, state, authority, option, input, "SYSTEM", actionId, eventId, eventId + 1);
      LeftRestartable(lex, before, files, store.disk, workspace.files, runId, NewAction(state, option, input, events),
        option);
      LeftExtends(before, store.disk, NewAction(state, option, input, events));
      if r.Done? {
        ExecutedConcludes(before, store.disk, workspace.files, run, option, NewAction(state, option, input, events),
          r.value,
                          eventId, eventId + 1);
        ExecutedOnce(before, store.disk, workspace.files, NewAction(state, option, input, events), option, r.value,
          eventId, eventId + 1);
        OthersUntouched(before, files, workspace.files, NewAction(state, option, input, events), option);
      }
    }

    /** `save_runtime_run`, of a record that differs in the state of its findings, decisions or
        counts, with the same requests. */
    method SaveAnnotated(state: RunStateSnapshot, run: RuntimeRun, updated: RuntimeRun) returns (r: Outcome<()>)
      requires Holds(state, run) && NoneOpen(Events(store.disk, runId))
      requires Annotates(run, updated) && updated.decisionRequests == run.decisionRequests
        && updated.decisions == run.decisions
      requires Settles(state, run.findings, updated.findings) && !state.status.AwaitingHumanDecision?
      modifies store
      ensures CanRestart() && Extends(old(store.disk), store.disk, runId) && (r.Raised? ==> r.error == IoError)
      ensures store.disk == old(store.disk).(runs := store.disk.runs)
      ensures r.Done? ==> Holds(state, updated)
      ensures runId in store.disk.runs && Holds(state, store.disk.runs[runId])
      ensures store.disk.runs[runId] == run || store.disk.runs[runId] == updated
    {
      hide Steady, RunOk, StatusOk, BackedOk, NoneOpen, Trims, Settles, Good, Savable, Extends, ManifestOk;
      SteadyHas(lex, store.disk, workspace.files, runId);
      AnnotatedSavable(lex, store.disk, workspace.files, state, updated);
      r := Save(state, updated);
    }

    /** The state after a rewrite of the manifest that failed, and until the cycle is left: the
        manifest is out of date, and its finding of this cycle is closed. */
    ghost predicate Wedged(state: RunStateSnapshot, run: RuntimeRun)
      reads store, workspace
    {
      && Holds(state, run) && state.status.Remediating? && NoneOpen(Events(store.disk, runId))
      && NeedsRewrite(Events(store.disk, runId), run, workspace.files) && !RewriteOpen(run, state.cycle)
    }

    /** `_refresh_generated_manifest`. A return leaves the manifest the runtime looks up listing
        exactly the current leaves, wherever that is promised. Besides a fault it raises only
        when it was forbidden to rewrite, which happens exactly when a rewrite of this cycle was
        closed before. */
    method RefreshManifest(state: RunStateSnapshot, run: RuntimeRun) returns (r: Outcome<(RuntimeRun, nat)>)
      requires Holds(state, run) && state.status.Remediating? && NoneOpen(Events(store.disk, runId))
      modifies store, workspace
      ensures CanRestart() && Extends(old(store.disk), store.disk, runId)
      ensures r.Raised? ==> r.error == IoError || (r.error == PermissionDenied && !RewriteOpen(run, state.cycle))
      ensures r.Done? ==>
                && Holds(state, r.value.0) && NoneOpen(Events(store.disk, runId))
                && r.value.0.decisionRequests == run.decisionRequests
                && ManifestKept(r.value.0, workspace.files)
                && AtMostManifest(old(Attempts()), Attempts())
      ensures old(Wedged(state, run)) ==> !r.Done? && runId in store.disk.runs && Wedged(state, store.disk.runs[runId])
    {
      hide Steady, RunOk, StatusOk, BackedOk, NoneOpen, Good, Trims, Grown, Concludes, Offers, Settled, ContextOf,
           Attempted, ManifestKept, Extends, KeepsRecord, Savable, ManifestOk, ChangedSeq, CompletionSeq, Reopenable,
           RuntimeManifest, AtMostManifest, WithInvalidation, ChecksumsRequirement, AssetsOk;
      ExtendsOn(runId);
      SteadyHas(lex, store.disk, workspace.files, runId);
      ExtendsSame(store.disk, runId);
      NoManifest(Attempts());
      NotDue(run, workspace.files);
      var manifest := RuntimeManifest(run);
      if manifest.None? || !Intact(manifest.value, workspace.files) {
        return Done((run, 0));
      }
      var events := Events(store.disk, runId);
      var written := CompletionSeq(events, manifest.value.asset.createdByAction.value);
      if written.None? || ChangedSeq(events, events) <= written.value {
        SkipIsSound(store.disk, workspace.files, run, manifest.value);
        return Done((run, 0));
      }
      var requirement := ChecksumsRequirement(run.requirements);
      if requirement.None? {
        return Done((run, 0));
      }
      var id, assetId := requirement.value.requirementId, manifest.value.asset.assetId;
      var invalidated := WithInvalidation(run, id, assetId, state.cycle);
      InvalidationSavable(lex, store.disk, workspace.files, state, id, assetId);
      InvalidationStays(events, run, workspace.files, id, assetId, state.cycle);
      var _ :- Save(state, invalidated);
      r := RewriteManifest(state, run, id, assetId);
    }

    /** The rewriting half: one more action, and the finding closed by its outcome. A rewrite
        that failed leaves the wedge, until the cycle is left. */
    method RewriteManifest(state: RunStateSnapshot, ghost prior: RuntimeRun, requirementId: Id, assetId: AssetId)
      returns (r: Outcome<(RuntimeRun, nat)>)
      requires RunOk(prior) && UpTo(prior, state.cycle) && prior.runId == runId
      requires Holds(state, WithInvalidation(prior, requirementId, assetId, state.cycle))
      requires state.status.Remediating? && NoneOpen(Events(store.disk, runId))
      modifies store, workspace
      ensures CanRestart() && Extends(old(store.disk), store.disk, runId)
      ensures Reopenable(prior.findings, FindingId(requirementId, state.cycle, true)) ==>
                r.Raised? ==> r.error == IoError
      ensures !Reopenable(prior.findings, FindingId(requirementId, state.cycle, true)) ==>
                r == Raised(PermissionDenied) && unchanged(store`disk) && unchanged(workspace`files)
      ensures r.Done? ==>
                && Holds(state, r.value.0) && NoneOpen(Events(store.disk, runId))
                && r.value.0.decisionRequests == prior.decisionRequests
                && ManifestKept(r.value.0, workspace.files)
                && AtMostManifest(old(Attempts()), Attempts())
      ensures r.Done? && RewriteFailed(r.value.0.findings) && NeedsRewrite(Events(old(store.disk), runId), prior,
        old(workspace.files)) ==>
                ChecksumsRequirement(prior.requirements).value.requirementId == requirementId ==>
                  Wedged(state, r.value.0)
    {
      hide AtMostManifest, Attempted, Steady, RunOk, StatusOk, BackedOk, NoneOpen, Good, Trims, Settles, Offers,
           Settled, ContextOf, ManifestOption, Concludes, Backs, Extends, ManifestKept, ManifestOk, Authority.Evaluate,
           Authority.MayBegin, Reopenable, UpTo, NeedsRewrite, RewriteOpen, RewriteFailed, FailedAttempt,
           SameAssetFiles, CallOf;
      ExtendsOn(runId);
      SteadyHas(lex, store.disk, workspace.files, runId);
      ExtendsSame(store.disk, runId);
      var loaded := store.LoadRun(runId);
      var run := loaded.value;
      var option := ManifestOption(runId, requirementId, state.cycle);
      ManifestOptionPlain(store.disk, run, Events(store.disk, runId), state, requirementId);
      RewriteAdmittedIff(prior, requirementId, assetId, state.cycle);
      if Authority.Evaluate(option.tool, CallOf(option, 0), ContextOf(run, FindingsReady)) != Authority.Allow {
        return Raised(PermissionDenied);
      }
      InvalidatedRunOk(prior, requirementId, assetId, state.cycle);
      ManifestCall(run, requirementId, state.cycle);
      OfferedMayBegin(run, state, FindingsReady, option, 0);
      ghost var events, files := Events(store.disk, runId), workspace.files;
      var remedied :- Perform(state, run, ContextOf(run, FindingsReady), option, CallOf(option, 0));
      OneManifest(old(Attempts()), requirementId, state.cycle, runId);
      SteadyHas(lex, store.disk, workspace.files, runId);
      UnjudgedYet(lex, state, remedied.run, Events(store.disk, runId));
      var findingId := FindingId(requirementId, state.cycle, true);
      if remedied.newAssetId.None? {
        var given := remedied.run.(findings := CloseFinding(remedied.run.findings, findingId, Unresolved, None));
        RewriteSettles(state, remedied.run.findings, requirementId, Unresolved, None);
        var _ :- SaveAnnotated(state, remedied.run, given);
        ConcludedSame(workspace.files, run, option, remedied);
        RewriteGivenUp(prior, requirementId, assetId, state.cycle, given, workspace.files);
        InvalidationStays(events, prior, files, requirementId, assetId, state.cycle);
        if NeedsRewrite(events, prior, files) {
          StillNeedsRewrite(events, Events(store.disk, runId), run, given, files, workspace.files);
        }
        return Done((given, 0));
      }
      var creator := FindAsset(remedied.run.assets, remedied.newAssetId.value);
      var closed := remedied.run.(findings := CloseFinding(remedied.run.findings, findingId, Resolved,
        if creator.Some? then creator.value.asset.createdByAction else None));
      RewriteSettles(state, remedied.run.findings, requirementId, Resolved,
        if creator.Some? then creator.value.asset.createdByAction else None);
      var _ :- SaveAnnotated(state, remedied.run, closed);
      RewrittenKept(workspace.files, run, option, remedied, closed);
      RewriteClosed(prior, requirementId, assetId, state.cycle, remedied.run, closed,
        if creator.Some? then creator.value.asset.createdByAction else None);
      return Done((closed, 1));
    }

    /** The end of every remediation: counts, the next cycle, a new inspection. */
    method Conclude(state: RunStateSnapshot, run: RuntimeRun) returns (r: Outcome<RunStateSnapshot>)
      requires Holds(state, run) && state.status.Remediating? && NoneOpen(Events(store.disk, runId))
      requires ManifestKept(run, workspace.files)
      modifies store
      ensures CanRestart() && Extends(old(store.disk), store.disk, runId)
      ensures r.Raised? ==> Halts(r.error, run)
      ensures r.Done? ==> Reinspected(state, r.value, run) && Attempts() == old(Attempts())
    {
      hide Steady, RunOk, StatusOk, BackedOk, NoneOpen, Good, Trims, Settles, Settled, Enterable, Transition,
           TransitionEvent, Admits, Uninspected, CompletedCount, Attempted, InspectedFrom, Extends, ManifestKept,
           ManifestOk, Halts;
      ExtendsOn(runId);
      SteadyHas(lex, store.disk, workspace.files, runId);
      FaultHalts(run);
      var counted := Reconcile(run, Events(store.disk, runId));
      SameSettles(state, run.findings);
      var _ :- SaveAnnotated(state, run, counted);
      ManifestCounted(run, counted, workspace.files);
      NextCycle(lex, store.disk, workspace.files, state);
      var inspecting :- MoveTo(state, Inspecting, RemediationCompleted(runId, state.cycle + 1));
      HaltsSame(run, counted);
      r := Inspect(inspecting);
      if r.Done? {
        ManifestStands(lex, store.disk, workspace.files, runId);
      }
    }

    /** The run stands at findings ready again, one cycle on, every open option admitted and the
        runtime's manifest up to date. */
    ghost predicate Reinspected(before: RunStateSnapshot, after: RunStateSnapshot, run: RuntimeRun)
      reads store, workspace
    {
      && runId in store.disk.runs && Holds(after, store.disk.runs[runId])
      && after.status.FindingsReady? && after.cycle == before.cycle + 1
      && Admits(after, store.disk.runs[runId])
      && store.disk.runs[runId].decisionRequests == run.decisionRequests
      && ManifestKept(store.disk.runs[runId], workspace.files)
    }

    /** The transition a verdict decides. */
    method Decide(state: RunStateSnapshot, run: RuntimeRun, verdict: TerminalVerdict)
      returns (r: Outcome<RunStateSnapshot>)
      requires Holds(state, run) && state.status.FindingsReady?
      requires Compute(TerminalOf(lex, run, state.cycle, OriginalsIntact(run, workspace.files))) == Some(verdict)
      modifies store
      ensures CanRestart() && Extends(old(store.disk), store.disk, runId) && (r.Raised? ==> r.error == IoError)
      ensures r.Done? ==>
                && Holds(r.value, run)
                && r.value == state.(status := if verdict.outcome.ReadyOutcome? then DeliveryReady else Blocked,
                                     terminalVerdict := Some(verdict))
    {
      hide Steady, RunOk, StatusOk, BackedOk, NoneOpen, Good, Enterable, Compute, TransitionEvent, Transition,
           OriginalsIntact, Extends;
      VerdictEnters(lex, store.disk, workspace.files, state, verdict);
      r := MoveTo(state, if verdict.outcome.ReadyOutcome? then DeliveryReady else Blocked, VerdictGuard(verdict));
    }

    /** `_block_exhausted`, and the last branch of `advance`: no open finding is left with an
        option, and the verdict is BLOCKED, unless a request is pending; then there is none. */
    method CloseAndDecide(state: RunStateSnapshot, run: RuntimeRun) returns (r: Outcome<RunStateSnapshot>)
      requires Holds(state, run) && state.status.FindingsReady?
      requires Compute(TerminalOf(lex, run, state.cycle, OriginalsIntact(run, workspace.files))).None?
      modifies store
      ensures CanRestart() && Extends(old(store.disk), store.disk, runId)
      ensures r.Raised? ==> r.error == IoError || (r.error == RuntimeFault && FirstPending(run.decisionRequests).Some?)
      ensures FirstPending(run.decisionRequests).Some? ==> !r.Done?
      ensures r.Done? ==> runId in store.disk.runs && Holds(r.value, store.disk.runs[runId]) && r.value.status.Blocked?
                          && Ends(store.disk, run, r.value) && r.value.cycle == state.cycle
    {
      hide Steady, RunOk, StatusOk, BackedOk, NoneOpen, Good, Enterable, Compute, TransitionEvent, Transition, Trims,
           Settles, OriginalsIntact, FindingFacts, Extends, ManifestOk, Selectable;
      ExtendsOn(runId);
      SteadyHas(lex, store.disk, workspace.files, runId);
      FindingsHave(lex, state, run, Events(store.disk, runId));
      RunParts(run);
      var closed := run.(findings := CloseFindings(run.findings));
      ClosedSettles(state, run);
      var _ :- SaveAnnotated(state, run, closed);
      IntactStays(run, closed, workspace.files);
      PendingGivesNoVerdict(lex, closed, state.cycle, OriginalsIntact(closed, workspace.files));
      if FirstPending(run.decisionRequests).None? {
        ClosingBlocks(lex, run, state.cycle, OriginalsIntact(run, workspace.files));
      }
      var verdict := Compute(TerminalOf(lex, closed, state.cycle, OriginalsIntact(closed, workspace.files)));
      if verdict.None? || verdict.value.outcome != BlockedOutcome {
        return Raised(RuntimeFault);
      }
      r := Decide(state, closed, verdict.value);
    }

    /** `diagnose_findings`: the model may answer anything, or fail. */
    method Diagnose(run: RuntimeRun) returns (r: Outcome<seq<Item>>)
      ensures r.Done? ==> Accepts(run, r.value)
      ensures r.Raised? ==> r.error == DiagnosisRejected
      ensures !r.Crashed?
    {
      var items: seq<Item> := *;
      return if Accepts(run, items) then Done(items) else Raised(DiagnosisRejected);
    }

    /** `_execute_tier_one`: one batch of reversible actions, then the manifest, then the next
        cycle. The policy allows each of them and none is refused; what stops it, a fault and an
        inspection apart, is a snapshot that does not admit the first. */
    method ExecuteTierOne(state: RunStateSnapshot, run: RuntimeRun, options: seq<RemediationOption>)
      returns (r: Outcome<RunStateSnapshot>)
      requires Holds(state, run) && state.status.FindingsReady? && state.cycle < MAX_CYCLES
      requires options != [] && AllOffered(run, options)
      modifies store, workspace
      ensures CanRestart() && Extends(old(store.disk), store.disk, runId)
      ensures Binding(runId, options[0]) in state.admissibleOptions && r.Raised? ==> Halts(r.error, run)
      ensures Binding(runId, options[0]) !in state.admissibleOptions ==>
                r == Raised(InvalidTransition) && unchanged(store`disk) && unchanged(workspace`files)
      ensures r.Done? ==> Reinspected(state, r.value, run) && AtMostManifest(old(Attempts()) + IdsOf(options),
        Attempts())
    {
      hide Attempted, AtMostManifest, IdsOf, Steady, RunOk, StatusOk, BackedOk, NoneOpen, Good, Enterable, Transition,
           TransitionEvent, Admits, Settled, ContextOf, CompletedCount, InspectedFrom, DecisionsOk, Concludes, Backs,
           Offers, OffersOpen, ListsLeaves, Extends, ManifestKept, ManifestOk, Authority.Evaluate, Authority.MayBegin,
           CallOf, Selectable, Halts, KeepsRecord, RewriteOpen, NewAction, Committed, FailedAttempt, SameAssetFiles,
           AssetsOk, Loadable;
      ExtendsOn(runId);
      SteadyHas(lex, store.disk, workspace.files, runId);
      FindingsHave(lex, state, run, Events(store.disk, runId));
      FaultHalts(run);
      var context := ContextOf(run, state.status);
      forall i | 0 <= i < |options|
        ensures Authority.Evaluate(options[i].tool, CallOf(options[i], 0), context) == Authority.Allow
      {
        OfferedIsAllowed(run, state.cycle, options[i]);
      }
      for i := 0 to |options| {
        assert Authority.Evaluate(options[i].tool, CallOf(options[i], 0), context) == Authority.Allow;
        if Authority.Evaluate(options[i].tool, CallOf(options[i], 0), context) != Authority.Allow {
          return Raised(PermissionDenied);
        }
      }
      var selection := RemediationSelection(Binding(runId, options[0]));
      SelectionEnters(lex, store.disk, workspace.files, state, options[0]);
      var remediating :- MoveTo(state, Remediating, selection);
      SteadyMoved(lex, old(store.disk), store.disk, workspace.files, state, remediating);
      var current :- PerformBatch(remediating, run, context, options);
      NotRewritten(run, state.cycle);
      RewriteByFindings(run, current, state.cycle);
      var settled :- RefreshManifest(remediating, current);
      HaltsExtended(old(store.disk), store.disk, runId);
      r := Conclude(remediating, settled.0);
    }

    /** The batch, one action after the other, each against the assets the batch began with. */
    method PerformBatch(state: RunStateSnapshot, run: RuntimeRun, authority: Authority.AuthorityRunContext,
                        options: seq<RemediationOption>)
      returns (r: Outcome<RuntimeRun>)
      requires Holds(state, run) && state.status.Remediating? && NoneOpen(Events(store.disk, runId))
      requires AllOffered(run, options) && Selectable(run, state.cycle) && authority == ContextOf(run, FindingsReady)
      modifies store, workspace
      ensures CanRestart() && Extends(old(store.disk), store.disk, runId)
      ensures r.Raised? ==> r.error == IoError
      ensures r.Done? ==>
                && Holds(state, r.value) && NoneOpen(Events(store.disk, runId)) && Grown(run, r.value)
                && Attempts() == old(Attempts()) + IdsOf(options)
    {
      hide Attempted, IdsOf, Steady, RunOk, NoneOpen, ContextOf, Concludes, Backs, Offers, OffersOpen, Extends,
           ManifestOk, Authority.MayBegin, CallOf, Selectable, NewAction, FailedAttempt, SameAssetFiles, AssetsOk,
           StatusOk, BackedOk, DecisionsOk, Good, Settled;
      ExtendsOn(runId);
      SteadyHas(lex, store.disk, workspace.files, runId);
      ExtendsSame(store.disk, runId);
      var current := run;
      for i := 0 to |options|
        invariant Holds(state, current) && NoneOpen(Events(store.disk, runId))
        invariant CanRestart() && Extends(old(store.disk), store.disk, runId) && Grown(run, current)
        invariant Attempts() == old(Attempts()) + IdsOf(options[..i])
      {
        OneMore(options, i);
        OfferedIsPlain(store.disk, run, current, Events(store.disk, runId), state, options[i]);
        OfferedBegins(run, state.cycle, state, options[i], 0);
        var remedied :- Perform(state, current, authority, options[i], CallOf(options[i], 0));
        current := remedied.run;
      }
      assert options[..|options|] == options;
      return Done(current);
    }

    /** The escalation branch of `advance`: a request is stored, and the run waits for it. The
        policy always asks for a decision, and the request is refused exactly when another is
        pending. */
    method AskHuman(state: RunStateSnapshot, run: RuntimeRun, option: RemediationOption, decisionId: Id)
      returns (r: Outcome<RunStateSnapshot>)
      requires Holds(state, run) && state.status.FindingsReady? && state.cycle < MAX_CYCLES
      requires OffersOpen(run.findings, option) && option.tier == 2 && decisionId !in store.disk.decisions
      modifies store
      ensures CanRestart() && Extends(old(store.disk), store.disk, runId)
      ensures if FirstPending(run.decisionRequests).None? then r.Raised? ==> r.error == IoError
              else r == Raised(AuthorityRefused) && store.disk == old(store.disk)
      ensures r.Done? ==>
                var request := DecisionRequest(decisionId, runId, option.findingId, option.optionId, Pending);
                && runId in store.disk.runs && Holds(r.value, store.disk.runs[runId])
                && r.value == state.(status := AwaitingHumanDecision, pendingDecisionId := Some(decisionId),
                                     pendingOption := Some(Binding(runId, option)))
                && DecisionAt(store.disk, r.value) == Some(request)
                && store.disk.runs[runId] == run.(decisionRequests := run.decisionRequests + [request])
    {
      hide Steady, RunOk, StatusOk, BackedOk, NoneOpen, Good, Enterable, Transition, TransitionEvent, Settled,
           ContextOf, DecisionsOk, OffersOpen, Authority.Evaluate, Authority.CreateDecisionRequest, PendingStart,
           PendingCommit, CallOf, Extends, ManifestOk, Selectable, Savable;
      ExtendsOn(runId);
      SteadyHas(lex, store.disk, workspace.files, runId);
      ExtendsSame(store.disk, runId);
      FindingsHave(lex, state, run, Events(store.disk, runId));
      OfferedIsAllowed(run, state.cycle, option);
      var context := ContextOf(run, state.status);
      if Authority.Evaluate(option.tool, CallOf(option, 0), context) != Authority.RequireDecision {
        return Raised(PermissionDenied);
      }
      OpenIsOffered(run.findings, option);
      RequestMadeIff(run, option, decisionId);
      var created := Authority.CreateDecisionRequest(context, option, decisionId);
      if created.None? {
        return Raised(AuthorityRefused);
      }
      var request := created.value;
      RequestMade(run, state, option, decisionId);
      RequestSavable(lex, store.disk, workspace.files, state, option, request);
      RequestExtends(store.disk, runId, request);
      var _ :- store.SaveDecisionRequest(request);
      var asked := run.(decisionRequests := run.decisionRequests + [request]);
      var _ :- Save(state, asked);
      r := MoveTo(state, AwaitingHumanDecision, DecisionPending(runId, decisionId, Some(Binding(runId, option))));
    }

    /** The branch of `advance` for a run left remediating. */
    method RecoverAndConclude(state: RunStateSnapshot, run: RuntimeRun, nonce: Id)
      returns (r: Outcome<RunStateSnapshot>)
      requires Holds(state, run) && state.status.Remediating?
      modifies store, workspace
      ensures CanRestart() && Extends(old(store.disk), store.disk, runId)
      ensures r.Raised? ==> Halts(r.error, run) || (r.error == PermissionDenied && !RewriteOpen(run, state.cycle))
      ensures r.Done? ==> Reinspected(state, r.value, run)
                          || (runId in store.disk.runs && Holds(r.value, store.disk.runs[runId])
                            && r.value.status.Failed?
                              && store.disk.runs[runId].decisionRequests == run.decisionRequests)
      ensures r.Done? ==> (r.value.status.Failed? <==> CaughtManifest(Events(old(store.disk), runId), run))
      ensures old(Wedged(state, run)) ==> !r.Done? && runId in store.disk.runs && Wedged(state, store.disk.runs[runId])
    {
      hide Steady, RunOk, StatusOk, BackedOk, NoneOpen, Good, Enterable, Transition, TransitionEvent, Settled,
           DecisionsOk, Framed, GrownOn, CaughtManifest, ListsLeaves, OnlyScratch, Extends, ManifestKept, ManifestOk,
           Halts, KeepsRecord, RewriteOpen, NeedsRewrite;
      ghost var before, files := store.disk, workspace.files;
      ExtendsOn(runId);
      SteadyHas(lex, before, files, runId);
      FaultHalts(run);
      var recovered := executor.Recover(run, state, nonce);
      RecoveredSteady(lex, before, files, store.disk, workspace.files, runId);
      FramedExtends(before, store.disk, runId, None);
      if recovered == Raised(RecoveryIntegrity) {
        FailureEnters(lex, store.disk, workspace.files, state);
        r := MoveTo(state, RunStatus.Failed, NoGuard);
        return;
      }
      var latest :- recovered;
      RewriteByFindings(run, latest, state.cycle);
      var settled :- RefreshManifest(state, latest);
      HaltsExtended(before, store.disk, runId);
      r := Conclude(state, settled.0);
    }

    /** The facts of the run as it stands allow delivery. */
    predicate DeliverableNow(state: RunStateSnapshot, run: RuntimeRun)
      reads workspace
    {
      Deliverable(TerminalOf(lex, run, state.cycle, OriginalsIntact(run, workspace.files)))
    }

    /** `advance`, on findings that are ready. It delivers exactly what is deliverable. */
    method AdvanceFindings(state: RunStateSnapshot, run: RuntimeRun, decisionId: Id)
      returns (r: Outcome<RunStateSnapshot>)
      requires Holds(state, run) && state.status.FindingsReady? && decisionId !in store.disk.decisions
      modifies store, workspace
      ensures CanRestart() && Extends(old(store.disk), store.disk, runId)
      ensures r.Raised? && Admits(state, run) && FirstPending(run.decisionRequests).None? ==>
                Halts(r.error, run) || r.error == DiagnosisRejected
      ensures r.Done? ==>
                || Reinspected(state, r.value, run)
                || (&& runId in store.disk.runs && Holds(r.value, store.disk.runs[runId])
                    && (Ends(store.disk, run, r.value) || Asks(store.disk, run, r.value))
                      && r.value.cycle == state.cycle)
      ensures r.Done? ==> (r.value.status.DeliveryReady? <==> old(DeliverableNow(state, run)))
      ensures r.Done? && FirstPending(run.decisionRequests).Some? ==> Reinspected(state, r.value, run)
    {
      hide Deliverable, Steady, RunOk, StatusOk, BackedOk, NoneOpen, Good, Settled, DecisionsOk, Admits, Compute,
           OriginalsIntact, AllOffered, CompletedCount, Accepts, Reconcile, Applieds, Escalated, ByPriority, OffersOpen,
           Extends, Settles, Halts, ManifestOk, ManifestKept, Selectable, TerminalOf, AssetsOk, Loadable, Binding,
           IdsOf, AtMostManifest, Attempted;
      ExtendsOn(runId);
      SteadyHas(lex, store.disk, workspace.files, runId);
      FindingsHave(lex, state, run, Events(store.disk, runId));
      FaultHalts(run);
      var counted := Reconcile(run, Events(store.disk, runId));
      ReconcileSame(state, run, Events(store.disk, runId));
      HaltsSame(run, counted);
      SameSettles(state, run.findings);
      var _ :- SaveAnnotated(state, run, counted);
      var verdict := Compute(TerminalOf(lex, counted, state.cycle, OriginalsIntact(counted, workspace.files)));
      ReadyIffDeliverable(TerminalOf(lex, counted, state.cycle, OriginalsIntact(counted, workspace.files)));
      SameDeliverable(lex, run, Events(store.disk, runId), state.cycle, workspace.files);
      PendingGivesNoVerdict(lex, counted, state.cycle, OriginalsIntact(counted, workspace.files));
      if verdict.Some? {
        r := Decide(state, counted, verdict.value);
        return;
      }
      if state.cycle >= MAX_CYCLES {
        r := CloseAndDecide(state, counted);
        return;
      }
      var items :- Diagnose(counted);
      SteadyHas(lex, store.disk, workspace.files, runId);
      DiagnosisOffers(counted, items);
      var tierOne := Applieds(counted, items);
      if tierOne != [] {
        SortedOffered(lex.rank, counted, tierOne);
        if Admits(state, counted) {
          FirstAdmitted(state, counted, ByPriority(lex.rank, tierOne));
        }
        r := ExecuteTierOne(state, counted, ByPriority(lex.rank, tierOne));
        return;
      }
      var escalated := Escalated(counted, items);
      if escalated.Some? {
        r := AskHuman(state, counted, escalated.value, decisionId);
        return;
      }
      r := CloseAndDecide(state, counted);
    }

    /** `advance`. */
    method Advance(nonce: Id, decisionId: Id) returns (r: Outcome<RunStateSnapshot>)
      requires Bound() && Steady(lex, store.disk, workspace.files, runId) && decisionId !in store.disk.decisions
      modifies store, workspace
      ensures CanRestart()
      // Nothing the run recorded is taken back, however the call ends.
      ensures Extends(old(store.disk), store.disk, runId) && runId in old(store.disk).runs
      ensures OriginalsKept(old(store.disk).runs[runId], old(workspace.files), workspace.files)
      // What a return has done.
      ensures r.Done? ==>
                && runId in store.disk.runs && Holds(r.value, store.disk.runs[runId])
                && Progress(old(store.disk).snapshots[runId], r.value)
                && (old(store.disk).snapshots[runId].status.Remediating? ==>
                      (r.value.status.Failed? <==>
                        CaughtManifest(Events(old(store.disk), runId), old(store.disk).runs[runId])))
                && (old(store.disk).snapshots[runId].status.FindingsReady? ==>
                      (r.value.status.DeliveryReady? <==>
                        old(DeliverableNow(store.disk.snapshots[runId], store.disk.runs[runId]))))
                && (!r.value.status.Failed? ==> ManifestKept(store.disk.runs[runId], workspace.files))
      // With a request pending that no one waits for, it ends nothing and asks no one.
      ensures r.Done? && old(store.disk).snapshots[runId].status.FindingsReady?
              && FirstPending(old(store.disk).runs[runId].decisionRequests).Some? ==>
                && r.value.status.FindingsReady? && r.value.cycle == old(store.disk).snapshots[runId].cycle + 1
                && store.disk.runs[runId].decisionRequests == old(store.disk).runs[runId].decisionRequests
      // What it may raise: a fault, a rejected diagnosis, a refusal of the next inspection.
      ensures Unhindered(old(store.disk), runId) ==>
                && (r.Raised? ==> Halts(r.error, old(store.disk).runs[runId]) || r.error == DiagnosisRejected)
                && (r.Done? ==> Unhindered(store.disk, runId))
      // A run stuck behind a failed rewrite stays so.
      ensures old(runId in store.disk.runs && runId in store.disk.snapshots
                  && Wedged(store.disk.snapshots[runId], store.disk.runs[runId])) ==>
                && !r.Done? && runId in store.disk.runs && runId in store.disk.snapshots
                && Wedged(store.disk.snapshots[runId], store.disk.runs[runId])
    {
      hide Steady, RunOk, StatusOk, BackedOk, NoneOpen, Good, Settled, DecisionsOk, Admits, CompletedCount, Reconcile,
           Deliverable, CaughtManifest, Extends, OriginalsKept, Settles, Halts, ManifestOk, NeedsRewrite, RewriteOpen,
           Restartable, ManifestKept;
      SteadyHas(lex, store.disk, workspace.files, runId);
      SteadyRestarts(lex, store.disk, workspace.files, runId);
      var loadedState := store.LoadSnapshot(runId);
      var loadedRun := store.LoadRun(runId);
      var state, run := loadedState.value, loadedRun.value;
      ghost var before, files := store.disk, workspace.files;
      ExtendsSame(before, runId);
      FaultHalts(run);
      r := Done(state);
      if IsTerminal(state.status) {
        TerminalHasNoneOpen(lex, state, run, Events(store.disk, runId));
        SameSettles(state, run.findings);
        var saved := SaveAnnotated(state, run, Reconcile(run, Events(store.disk, runId)));
        if saved.IsFailure() {
          r := saved.PropagateFailure<RunStateSnapshot>();
        }
      } else if state.status.Remediating? {
        r := RecoverAndConclude(state, run, nonce);
      } else if state.status.FindingsReady? {
        r := AdvanceFindings(state, run, decisionId);
      }
      OriginalsUnchanged(lex, before, files, store.disk, workspace.files, runId);
      if r.Done? && !r.value.status.Failed? {
        ManifestStands(lex, store.disk, workspace.files, runId);
      }
    }

    /** `resolve_decision`. Only a human decides; a denial blocks the run; an approval mints
        one authorization and spends it on one action. A decision that can be taken is never
        refused. */
    method ResolveDecision(approved: bool, actor: string, authorizationId: Id) returns (r: Outcome<RunStateSnapshot>)
      requires Bound() && Steady(lex, store.disk, workspace.files, runId)
        && authorizationId !in store.disk.authorizations
      modifies store, workspace
      ensures CanRestart()
      // Nothing the run recorded is taken back, however the call ends.
      ensures Extends(old(store.disk), store.disk, runId) && runId in old(store.disk).runs
      ensures OriginalsKept(old(store.disk).runs[runId], old(workspace.files), workspace.files)
      // Only a decision that is awaited, and only by a human.
      ensures !Decidable(old(store.disk), runId) || !HumanActor(actor) ==>
                r.Raised? && store.disk == old(store.disk) && workspace.files == old(workspace.files)
      ensures Decidable(old(store.disk), runId) && HumanActor(actor) && r.Raised? ==>
        Halts(r.error, old(store.disk).runs[runId])
      // What a return has done.
      ensures r.Done? ==>
                var before := old(store.disk).snapshots[runId];
                && runId in store.disk.runs && Holds(r.value, store.disk.runs[runId])
                && (if approved then r.value.status.FindingsReady? && r.value.cycle == before.cycle + 1
                                     && AtMostManifest(old(Attempts()) + [DecisionAt(old(store.disk),
                                       before).value.optionId], Attempts())
                    else r.value.status.Blocked? && Attempts() == old(Attempts()))
                && ManifestKept(store.disk.runs[runId], workspace.files)
                && (Unhindered(old(store.disk), runId) ==> Unhindered(store.disk, runId))
      // An approval mints one authorization, for the option and the arguments the snapshot showed.
      ensures r.Done? && approved ==>
                && authorizationId in store.disk.authorizations
                && MintedFor(store.disk.authorizations[authorizationId], old(store.disk).snapshots[runId])
      // The answer is on record, and a denial closes the finding that was asked about.
      ensures r.Done? ==>
                var was, request := old(store.disk).runs[runId],
                  DecisionAt(old(store.disk), old(store.disk).snapshots[runId]).value;
                && Answered(was, store.disk.runs[runId], request, actor, approved)
                && request.decisionId in store.disk.decisions && store.disk.decisions[request.decisionId] ==
                   request.(status := if approved then Approved else Denied)
                && (!approved ==> r.value.admissibleOptions == []
                                  && Declined(was, store.disk.runs[runId], request.findingId))
    {
      hide Attempted, AtMostManifest, Steady, RunOk, StatusOk, BackedOk, NoneOpen, Good, Settled, DecisionsOk, Agrees,
           Awaits, AsksFor, Extends, OriginalsKept, Halts, ManifestOk, Restartable, Unhindered, OffersOpen, Aimed,
           RewriteOpen, Selectable, MintedFor, ManifestKept, Answered, Declined;
      SteadyHas(lex, store.disk, workspace.files, runId);
      SteadyRestarts(lex, store.disk, workspace.files, runId);
      ghost var before, files := store.disk, workspace.files;
      ExtendsSame(before, runId);
      OriginalsUnchanged(lex, before, files, before, files, runId);
      var loadedState := store.LoadSnapshot(runId);
      var state := loadedState.value;
      if !state.status.AwaitingHumanDecision? {
        return Raised(InvalidValue);
      }
      AwaitingHas(lex, store.disk, workspace.files, state);
      var pending := store.LoadPendingDecision(runId);
      var request :- pending;
      var loadedRun := store.LoadRun(runId);
      var run := loadedRun.value;
      var option := RunOption(run, request.optionId).value;
      if !HumanActor(actor) {
        return Raised(InvalidValue);
      }
      if approved {
        r := Approve(state, run, request, option, actor, authorizationId);
      } else {
        FaultHalts(run);
        r := Deny(state, run, request, actor);
      }
      OriginalsUnchanged(lex, before, files, store.disk, workspace.files, runId);
      if r.Done? {
        ManifestStands(lex, store.disk, workspace.files, runId);
      }
    }

    method Deny(state: RunStateSnapshot, run: RuntimeRun, request: DecisionRequest, actor: string)
      returns (r: Outcome<RunStateSnapshot>)
      requires Holds(state, run) && state.status.AwaitingHumanDecision?
        && DecisionAt(store.disk, state) == Some(request)
      requires Some(request.decisionId) == state.pendingDecisionId && request.runId == runId && request.status.Pending?
      modifies store
      ensures CanRestart() && Extends(old(store.disk), store.disk, runId)
      ensures r.Raised? ==> r.error == IoError
      ensures r.Done? ==> runId in store.disk.runs && Holds(r.value, store.disk.runs[runId]) && r.value.status.Blocked?
                          && Attempts() == old(Attempts())
                          && (Unhindered(old(store.disk), runId) ==> Unhindered(store.disk, runId))
      ensures r.Done? ==> Answered(run, store.disk.runs[runId], request, actor, false)
                          && Declined(run, store.disk.runs[runId], request.findingId)
                          && r.value.admissibleOptions == []
                          && request.decisionId in store.disk.decisions
                          && store.disk.decisions[request.decisionId] == request.(status := Denied)
    {
      hide Attempted, Steady, RunOk, StatusOk, BackedOk, NoneOpen, Good, Settled, DecisionsOk, Awaits, Enterable,
           Transition, TransitionEvent, Trims, ReplaceRequest, Resolves, Extends, ManifestOk, Savable, Settles,
           Unhindered, Answered;
      ExtendsOn(runId);
      ghost var before := store.disk;
      ExtendsSame(before, runId);
      AwaitingHas(lex, before, workspace.files, state);
      var denied := request.(status := Denied);
      var updated := run.(decisionRequests := ReplaceRequest(run.decisionRequests, denied),
                          decisions := run.decisions + [Decision(request.decisionId, actor, false)],
                          findings := CloseFinding(run.findings, request.findingId, Unresolved, None));
      DeniedResolves(lex, before, workspace.files, state, run, denied, actor, updated);
      DecisionWritable(lex, store.disk, workspace.files, state, denied);
      RequestExtends(store.disk, runId, denied);
      var _ :- store.UpdateDecisionRequest(denied);
      ResolvedSavable(lex, store.disk, workspace.files, state, denied, updated);
      var _ :- Save(state, updated);
      ghost var saved := store.disk;
      AnswerWritten(run, request, actor, false, updated);
      DenialEnters(lex, store.disk, workspace.files, state, request.decisionId);
      var blocked :- MoveTo(state, Blocked, DecisionResolution(runId, request.decisionId, false, false));
      SnapshotSteady(lex, store.disk, workspace.files, runId, blocked.(admissibleOptions := []));
      SnapshotExtends(store.disk, runId, blocked.(admissibleOptions := []));
      ExtendsSame(store.disk, runId);
      var _ :- store.SaveSnapshot(blocked.(admissibleOptions := []));
      AnswerStays(run, saved, store.disk, runId, request, actor, false);
      DeniedUnhindered(before, store.disk, state, run, denied, updated);
      return Done(blocked.(admissibleOptions := []));
    }

    /** `approve_decision`, and what follows it. */
    method Approve(state: RunStateSnapshot, run: RuntimeRun, request: DecisionRequest, option: RemediationOption,
                   actor: string, authorizationId: Id)
      returns (r: Outcome<RunStateSnapshot>)
      requires Holds(state, run) && state.status.AwaitingHumanDecision?
        && DecisionAt(store.disk, state) == Some(request)
      requires Some(request.decisionId) == state.pendingDecisionId && request.runId == runId && request.status.Pending?
      requires HumanActor(actor) && authorizationId !in store.disk.authorizations
      requires RunOption(run, request.optionId) == Some(option) && AsksFor(state, request, option)
        && OffersOpen(run.findings, option)
      modifies store, workspace
      ensures CanRestart() && Extends(old(store.disk), store.disk, runId)
      ensures r.Raised? ==> Halts(r.error, run)
      ensures r.Done? ==> && runId in store.disk.runs && Holds(r.value, store.disk.runs[runId])
                          && r.value.status.FindingsReady? && r.value.cycle == state.cycle + 1
                          && AtMostManifest(old(Attempts()) + [option.optionId], Attempts())
                          && (Unhindered(old(store.disk), runId) ==> Unhindered(store.disk, runId))
                          && authorizationId in store.disk.authorizations
                          && MintedFor(store.disk.authorizations[authorizationId], state)
      ensures r.Done? ==> Answered(run, store.disk.runs[runId], request, actor, true)
                          && request.decisionId in store.disk.decisions
                          && store.disk.decisions[request.decisionId] == request.(status := Approved)
    {
      hide Attempted, AtMostManifest, Steady, RunOk, StatusOk, BackedOk, NoneOpen, Good, Settled, DecisionsOk, Awaits,
           Enterable, Transition, TransitionEvent, Trims, ReplaceRequest, Resolves, Offers, OffersOpen, ContextOf,
           Concludes, Backs, ListsLeaves, Extends, ManifestOk, Halts, Selectable, Aimed, RewriteOpen, ManifestKept,
           KeepsRecord, Unhindered, Admits, Authority.MayBegin, CallOf, NewAction, MintedFor, Committed, HumanActor,
           RunOption, Answered;
      ExtendsOn(runId);
      SteadyHas(lex, store.disk, workspace.files, runId);
      AwaitingStatus(lex, state, run, Events(store.disk, runId));
      ghost var before := store.disk;
      FaultHalts(run);
      var authorization := Authorization(authorizationId, request.runId, request.decisionId, option.optionId,
        option.argsHash,
                                         Issued, None);
      var updated :- RecordApproval(state, run, request, authorization, actor);
      ghost var saved := store.disk;
      ApprovalEnters(lex, saved, workspace.files, state, option, authorization);
      var remediating :- MoveTo(state, Remediating, AuthorizationGuard(authorization));
      SteadyMoved(lex, saved, store.disk, workspace.files, state, remediating);
      SameOffers(run, updated, option);
      ApprovalBacks(lex, saved, store.disk, workspace.files, state, remediating, option, authorization, actor);
      ApprovedBegins(lex, saved, workspace.files, state, updated, remediating, option, authorizationId);
      HaltsExtended(before, store.disk, runId);
      r := PerformApproved(remediating, updated, option, authorizationId);
      if r.Done? {
        AnswerWritten(run, request, actor, true, updated);
        AnswerStays(run, saved, store.disk, runId, request, actor, true);
        ApprovedUnhindered(before, store.disk, state, run, request.(status := Approved), updated);
      }
      MintedStays(saved, store.disk, authorization, state, request, option);
    }

    /** The durable part of an approval: the authorization, the request, the run. */
    method RecordApproval(state: RunStateSnapshot, run: RuntimeRun, request: DecisionRequest,
                          authorization: Authorization, actor: string)
      returns (r: Outcome<RuntimeRun>)
      requires Holds(state, run) && state.status.AwaitingHumanDecision?
        && DecisionAt(store.disk, state) == Some(request)
      requires Some(request.decisionId) == state.pendingDecisionId && request.runId == runId && request.status.Pending?
      requires authorization.authorizationId !in store.disk.authorizations
        && authorization.decisionId == request.decisionId
      modifies store
      ensures CanRestart() && Extends(old(store.disk), store.disk, runId)
      ensures r.Raised? ==> r.error == IoError
      ensures r.Done? ==>
                && Holds(state, r.value)
                && DecisionAt(store.disk, state) == Some(request.(status := Approved))
                && request.(status := Approved) in r.value.decisionRequests
                && r.value == run.(decisionRequests := ReplaceRequest(run.decisionRequests,
                  request.(status := Approved)),
                                   decisions := run.decisions + [Decision(request.decisionId, actor, true)])
                && authorization.authorizationId in store.disk.authorizations
                && store.disk.authorizations[authorization.authorizationId] == authorization
                && Attempts() == old(Attempts())
    {
      hide Attempted, Steady, RunOk, StatusOk, BackedOk, NoneOpen, Good, Settled, DecisionsOk, Awaits, Trims,
           ReplaceRequest, Resolves, Extends, ManifestOk, Savable, Settles;
      ExtendsOn(runId);
      ExtendsSame(store.disk, runId);
      Authorizable(lex, store.disk, workspace.files, state, authorization);
      AuthorizationExtends(store.disk, runId, authorization);
      var _ :- store.SaveAuthorization(authorization);
      var approval := request.(status := Approved);
      DecisionWritable(lex, store.disk, workspace.files, state, approval);
      RequestExtends(store.disk, runId, approval);
      var _ :- store.UpdateDecisionRequest(approval);
      var updated := run.(decisionRequests := ReplaceRequest(run.decisionRequests, approval),
                          decisions := run.decisions + [Decision(request.decisionId, actor, true)]);
      ApprovedResolves(state, run, approval, actor, updated);
      ResolvedSavable(lex, store.disk, workspace.files, state, approval, updated);
      var _ :- Save(state, updated);
      return Done(updated);
    }

    /** The one attempt an approval authorizes, and the manifest after it. */
    method PerformApproved(state: RunStateSnapshot, run: RuntimeRun, option: RemediationOption, authorizationId: Id)
      returns (r: Outcome<RunStateSnapshot>)
      requires Holds(state, run) && state.status.Remediating? && NoneOpen(Events(store.disk, runId))
        && Offers(run.findings, option)
      requires Backs(store.disk, run, Events(store.disk, runId),
                     NewAction(state, option, CallOf(option, authorizationId), Events(store.disk, runId)))
      requires Authority.MayBegin(state, ContextOf(run, FindingsReady), option.tool, CallOf(option, authorizationId),
        option)
      requires RewriteOpen(run, state.cycle) && ManifestKept(run, workspace.files)
      modifies store, workspace
      ensures CanRestart() && Extends(old(store.disk), store.disk, runId)
      ensures r.Raised? ==> Halts(r.error, run)
      ensures r.Done? ==> Reinspected(state, r.value, run)
                          && AtMostManifest(old(Attempts()) + [option.optionId], Attempts())
    {
      hide Attempted, AtMostManifest, Steady, NoneOpen, Offers, ContextOf, Concludes, Backs, ListsLeaves, Admits,
           Extends, ManifestKept, Halts, RewriteOpen, KeepsRecord, Authority.MayBegin, FailedAttempt, SameAssetFiles;
      ExtendsOn(runId);
      FaultHalts(run);
      ghost var before, files := store.disk, workspace.files;
      var remedied :- Perform(state, run, ContextOf(run, FindingsReady), option, CallOf(option, authorizationId));
      NoManifest(Attempts());
      var current := remedied.run;
      if remedied.newAssetId.Some? {
        RewriteByFindings(run, current, state.cycle);
        var settled :- RefreshManifest(state, current);
        current := settled.0;
      } else {
        ConcludedSame(workspace.files, run, option, remedied);
        ManifestByFiles(run, files, workspace.files);
      }
      HaltsExtended(before, store.disk, runId);
      r := Conclude(state, current);
    }
  }

  // ------------------------------------------------------------ attempts

  function IdsOf(options: seq<RemediationOption>): (r: seq<OptionId>)
    ensures |r| == |options| && forall i :: 0 <= i < |r| ==> r[i] == options[i].optionId
  {
    seq(|options|, i requires 0 <= i < |options| => options[i].optionId)
  }

  lemma OneMore(options: seq<RemediationOption>, i: nat)
    requires i < |options|
    ensures IdsOf(options[..i + 1]) == IdsOf(options[..i]) + [options[i].optionId]
  {}

  /** Nothing more was attempted than, perhaps, one writing of the manifest. */
  predicate AtMostManifest(before: seq<OptionId>, after: seq<OptionId>) {
    after == before || (|after| == |before| + 1 && after[..|before|] == before
      && after[|before|].tool.WriteChecksumManifest?)
  }

  lemma NoManifest(attempts: seq<OptionId>)
    ensures AtMostManifest(attempts, attempts)
  {}

  lemma OneManifest(attempts: seq<OptionId>, requirementId: Id, cycle: nat, runId: Id)
    ensures AtMostManifest(attempts, attempts + [ManifestOption(runId, requirementId, cycle).optionId])
  {}

  lemma {:induction false} TransitionAttemptsNothing(events: seq<LedgerEvent>, state: RunStateSnapshot,
                                                     target: RunStatus)
    ensures Attempted(events + [TransitionEvent(events, state, target)]) == Attempted(events)
  {
    AttemptedAppend(events, TransitionEvent(events, state, target));
  }

  /** An execution that returns attempted its option, and nothing else. */
  lemma ExecutedOnce(before: Disk, after: Disk, files: Files, action: Action, option: RemediationOption,
                     result: Remedied, startId: Id, closeId: Id)
    requires Describable(before, action, option)
      && Executed(before, after, files, action, option, result, startId, closeId)
    ensures Attempted(Events(after, action.runId)) == Attempted(Events(before, action.runId)) + [action.optionId]
  {
    hide Attempted, Made, Describe, NoneOpen, Follows, Framed, StartedEvent;
    var events := Events(before, action.runId);
    var started := events + [StartedEvent(events, action, startId)];
    StartAttempts(events, action, startId);
    forall close: LedgerEvent | !close.payload.ActionStarted?
      ensures Attempted(started + [close]) == Attempted(started)
    {
      AttemptedAppend(started, close);
    }
  }

  lemma {:induction false} StartAttempts(events: seq<LedgerEvent>, action: Action, startId: Id)
    ensures Attempted(events + [StartedEvent(events, action, startId)]) == Attempted(events) + [action.optionId]
  {
    AttemptedAppend(events, StartedEvent(events, action, startId));
  }

  // ------------------------------------------------------------ before the first inspection

  predicate Quiet(status: RunStatus) {
    || status.Ingesting? || status.Ingested? || status.Interpreting? || status.RequirementsAdmitted?
    || status.QcPlanned? || status.Inspecting?
  }

  lemma UnknownJournals(d: Disk, runId: Id)
    requires Unknown(d, runId)
    ensures d.transitionJournals == map[] && d.actionJournals == map[]
  {}

  lemma FirstNamed(runId: Id, items: seq<PackageItem>)
    requires AllPresent(items)
    ensures FirstRecord(runId, items).runId == runId
  {}

  lemma OpeningUnrecorded(d: Disk, runId: Id)
    requires Unknown(d, runId)
    ensures runId !in d.runs
  {}

  lemma OpeningSnapshot(d: Disk, runId: Id)
    requires Opening(d, runId)
    ensures runId in d.snapshots && d.snapshots[runId] == Initial(runId).(status := Ingesting)
  {}

  lemma QuietMoves(state: RunStateSnapshot, target: RunStatus)
    requires Quiet(state.status) && Quiet(target) && target in Targets(state.status)
    ensures Transition(state, target, NoGuard) == Some(state.(status := target))
  {}

  lemma QuietHas(lex: Lexicon, s: RunStateSnapshot, run: RuntimeRun, events: seq<LedgerEvent>)
    requires StatusOk(lex, s, run, events) && Quiet(s.status)
    ensures NoneOpen(events) && s.pendingDecisionId.None? && s.terminalVerdict.None? && !Inspected(s.status)
  {}

  lemma QuietEnters(lex: Lexicon, d: Disk, files: Files, state: RunStateSnapshot, target: RunStatus)
    requires Steady(lex, d, files, state.runId) && d.snapshots[state.runId] == state
    requires Quiet(state.status) && Quiet(target) && target in Targets(state.status)
    ensures Transition(state, target, NoGuard) == Some(state.(status := target))
    ensures Enterable(lex, d, files, state.(status := target))
  {
    hide Steady, RunOk, BackedOk, Good, Settled, StatusOk, DecisionsOk, Enterable, NoneOpen, Fresh, UpTo, Transition;
    SteadyHas(lex, d, files, state.runId);
    QuietHas(lex, state, d.runs[state.runId], Events(d, state.runId));
    QuietMoves(state, target);
    EnterStatus(lex, d, files, state, target, NoGuard);
  }

  /** Nothing was measured, found or made yet. */
  predicate Untouched(run: RuntimeRun) {
    && run.measurements == [] && run.findings == []
    && forall item :: item in run.assets ==> item.asset.createdByAction.None?
  }

  lemma FirstUntouched(runId: Id, items: seq<PackageItem>)
    requires AllPresent(items)
    ensures Untouched(FirstRecord(runId, items))
  {}

  lemma UntouchedKept(run: RuntimeRun, files: Files)
    requires Untouched(run)
    ensures ManifestKept(run, files)
  {
    hide RewriteFailed, ManifestLines;
  }

  lemma NothingGranted(events: seq<LedgerEvent>, authorizations: map<Id, Authorization>, run: RuntimeRun,
                       updated: RuntimeRun, s: RunStateSnapshot)
    requires GrantsOk(events, authorizations, run, s) && run.findings == [] && updated.findings == []
    ensures GrantsOk(events, authorizations, updated, s)
  {
    hide Spends, SpentOn;
    assert forall authorization: Authorization :: !Granted(authorization, run, s);
  }

  lemma PlannedSavable(lex: Lexicon, d: Disk, files: Files, s: RunStateSnapshot, updated: RuntimeRun)
    requires Steady(lex, d, files, s.runId) && d.snapshots[s.runId] == s && Quiet(s.status)
      && Untouched(d.runs[s.runId])
    requires updated == d.runs[s.runId].(requirements := updated.requirements, checkOrder := updated.checkOrder)
    requires forall i :: 0 <= i < |updated.requirements| ==> CaptionTargetKnown(updated.requirements[i])
    ensures Savable(lex, d, files, s, updated)
  {
    hide Steady, RunOk, StatusOk, BackedOk, NoneOpen, Good, Settled, DecisionsOk, ManifestKept, CaptionTargetKnown,
         GrantsOk;
    SteadyHas(lex, d, files, s.runId);
    var run, events := d.runs[s.runId], Events(d, s.runId);
    PlannedRunOk(run, updated.requirements, updated.checkOrder);
    PlannedStatusOk(lex, s, run, updated, events);
    SameDecisionsBacked(events, d.authorizations, run, updated);
    DecisionsGrant(d, s, events);
    NothingGranted(events, d.authorizations, run, updated, s);
    NothingAwaited(d, s, s, events, updated);
    UntouchedKept(updated, files);
  }

  lemma DecisionsGrant(d: Disk, s: RunStateSnapshot, events: seq<LedgerEvent>)
    requires DecisionsOk(d, s, events)
    ensures s.runId in d.runs && GrantsOk(events, d.authorizations, d.runs[s.runId], s)
  {}

  lemma PlannedStatusOk(lex: Lexicon, s: RunStateSnapshot, run: RuntimeRun, updated: RuntimeRun,
                        events: seq<LedgerEvent>)
    requires StatusOk(lex, s, run, events) && Quiet(s.status) && run.findings == [] && run.measurements == []
    requires updated.findings == [] && updated.measurements == []
    ensures StatusOk(lex, s, updated, events) && NoneOpen(events) && s.pendingDecisionId.None?
  {}

  // ------------------------------------------------------------ decisions

  /** `_replace_request`. */
  function ReplaceRequest(requests: seq<DecisionRequest>, updated: DecisionRequest): seq<DecisionRequest> {
    seq(|requests|, i requires 0 <= i < |requests| =>
      if requests[i].decisionId == updated.decisionId then updated else requests[i])
  }

  /** The stored request the snapshot waits for. */
  function DecisionAt(d: Disk, s: RunStateSnapshot): Option<DecisionRequest> {
    if s.pendingDecisionId.Some? && s.pendingDecisionId.value in d.decisions
    then Some(d.decisions[s.pendingDecisionId.value]) else None
  }

  /** A decision is awaited and still open. */
  predicate Decidable(d: Disk, runId: Id) {
    && runId in d.snapshots && d.snapshots[runId].status.AwaitingHumanDecision?
    && DecisionAt(d, d.snapshots[runId]).Some? && DecisionAt(d, d.snapshots[runId]).value.status.Pending?
  }

  /** The record after a decision: the request replaced, the decision appended. */
  predicate Resolves(s: RunStateSnapshot, run: RuntimeRun, decided: DecisionRequest, updated: RuntimeRun) {
    && Annotates(run, updated) && Settles(s, run.findings, updated.findings)
    && updated.decisionRequests == ReplaceRequest(run.decisionRequests, decided)
    && run.decisions <= updated.decisions
  }

  /** The answer is on record: the request has the status it brought, every other request the one
      it had, and after all earlier decisions stands this one, and whose it was. */
  predicate Answered(before: RuntimeRun, after: RuntimeRun, request: DecisionRequest, actor: string, approved: bool) {
    && |before.decisions| < |after.decisions|
    && after.decisions[|before.decisions|] == Decision(request.decisionId, actor, approved)
    && |after.decisionRequests| == |before.decisionRequests|
    && forall i :: 0 <= i < |before.decisionRequests| ==>
         after.decisionRequests[i] == if before.decisionRequests[i].decisionId == request.decisionId
           then request.(status := if approved then Approved else Denied) else before.decisionRequests[i]
  }

  /** Nothing else changes on a denial than the finding that was asked about, which is closed. */
  predicate Declined(before: RuntimeRun, after: RuntimeRun, findingId: FindingId) {
    && after == before.(decisions := after.decisions, decisionRequests := after.decisionRequests,
                        findings := after.findings)
    && |after.decisions| == |before.decisions| + 1 && |after.findings| == |before.findings|
    && forall i :: 0 <= i < |before.findings| ==>
         after.findings[i] == if before.findings[i].findingId == findingId
           then before.findings[i].(status := Unresolved, options := [], resolvedByAction := None)
           else before.findings[i]
  }

  lemma AnswerWritten(run: RuntimeRun, request: DecisionRequest, actor: string, approved: bool, updated: RuntimeRun)
    requires updated.decisions == run.decisions + [Decision(request.decisionId, actor, approved)]
    requires updated.decisionRequests ==
             ReplaceRequest(run.decisionRequests, request.(status := if approved then Approved else Denied))
    ensures Answered(run, updated, request, actor, approved)
  {}

  /** What was answered stays so, in the record and in the store. */
  lemma AnswerStays(before: RuntimeRun, middle: Disk, after: Disk, runId: Id, request: DecisionRequest, actor: string,
                    approved: bool)
    requires Extends(middle, after, runId) && Answered(before, middle.runs[runId], request, actor, approved)
    requires after.runs[runId].decisionRequests == middle.runs[runId].decisionRequests
    requires request.decisionId in middle.decisions && middle.decisions[request.decisionId] ==
             request.(status := if approved then Approved else Denied)
    ensures Answered(before, after.runs[runId], request, actor, approved)
    ensures request.decisionId in after.decisions
      && after.decisions[request.decisionId] == middle.decisions[request.decisionId]
  {}

  lemma DeniedResolves(lex: Lexicon, d: Disk, files: Files, s: RunStateSnapshot, run: RuntimeRun,
                       decided: DecisionRequest, actor: string, updated: RuntimeRun)
    requires Steady(lex, d, files, s.runId) && d.snapshots[s.runId] == s && s.status.AwaitingHumanDecision?
      && d.runs[s.runId] == run
    requires HasOpen(run.findings, decided.findingId)
    requires updated == run.(decisionRequests := ReplaceRequest(run.decisionRequests, decided),
                             decisions := run.decisions + [Decision(decided.decisionId, actor, false)],
                             findings := CloseFinding(run.findings, decided.findingId, Unresolved, None))
    ensures Resolves(s, run, decided, updated) && KeepsRecord(run, updated)
  {
    hide Steady, BackedOk, Good, Settled, StatusOk, NoneOpen, RunOk, DecisionsOk, ManifestOk, CloseFinding, Trims,
         Settles, Selectable;
    SteadyHas(lex, d, files, s.runId);
    AwaitingStatus(lex, s, run, Events(d, s.runId));
    RunParts(run);
    DenialSettles(s, run, decided.findingId);
  }

  lemma ApprovedResolves(s: RunStateSnapshot, run: RuntimeRun, decided: DecisionRequest, actor: string,
                         updated: RuntimeRun)
    requires updated == run.(decisionRequests := ReplaceRequest(run.decisionRequests, decided),
                             decisions := run.decisions + [Decision(decided.decisionId, actor, true)])
    ensures Resolves(s, run, decided, updated) && KeepsRecord(run, updated)
  {
    SameSettles(s, run.findings);
  }

  lemma SameOffers(run: RuntimeRun, updated: RuntimeRun, option: RemediationOption)
    requires OffersOpen(run.findings, option) && updated.findings == run.findings
    ensures Offers(updated.findings, option) && OffersOpen(updated.findings, option)
  {}

  /** What a waiting run knows: its request, and the option it asks for. */
  lemma AwaitingHas(lex: Lexicon, d: Disk, files: Files, state: RunStateSnapshot)
    requires Steady(lex, d, files, state.runId) && d.snapshots[state.runId] == state
      && state.status.AwaitingHumanDecision?
    ensures state.runId in d.runs && DecisionAt(d, state).Some?
    ensures var request, run := DecisionAt(d, state).value, d.runs[state.runId];
            && Some(request.decisionId) == state.pendingDecisionId && request.runId == state.runId
            && (request.status.Pending? ==>
                  && RunOption(run, request.optionId).Some?
                  && AsksFor(state, request, RunOption(run, request.optionId).value)
                  && OffersOpen(run.findings, RunOption(run, request.optionId).value)
                  && HasOpen(run.findings, request.findingId))
  {
    hide Steady, BackedOk, Good, Settled, StatusOk, NoneOpen, Fresh, UpTo, Unspent, HashesOk, MeasuresOk, GrantsOk,
         ManifestOk;
    SteadyHas(lex, d, files, state.runId);
    var run := d.runs[state.runId];
    StatusSound(lex, state, run, Events(d, state.runId));
    var request := DecisionAt(d, state).value;
    if request.status.Pending? {
      var i, k :| 0 <= i < |run.findings| && 0 <= k < |run.findings[i].options| && run.findings[i].status.Open?
        && AsksFor(state, request, run.findings[i].options[k]);
      assert run.findings[i].options[k] in run.findings[i].options;
      UniqueOption(run, run.findings[i].options[k]);
    }
  }

  lemma DecisionWritable(lex: Lexicon, d: Disk, files: Files, state: RunStateSnapshot, decided: DecisionRequest)
    requires Steady(lex, d, files, state.runId) && d.snapshots[state.runId] == state
      && state.status.AwaitingHumanDecision?
    requires DecisionAt(d, state).Some? && SameRequest(decided, DecisionAt(d, state).value) && !decided.status.Pending?
    ensures Steady(lex, d.(decisions := d.decisions[decided.decisionId := decided]), files, state.runId)
    ensures decided.decisionId in d.decisions && d.decisions[decided.decisionId].(status := decided.status) == decided
    ensures Some(decided.decisionId) == state.pendingDecisionId
    ensures state.runId in d.runs
  {
    hide Steady, BackedOk, Good, Settled, StatusOk, NoneOpen, RunOk, Unspent;
    SteadyHas(lex, d, files, state.runId);
    StatusSound(lex, state, d.runs[state.runId], Events(d, state.runId));
    var run := d.runs[state.runId];
    var j :| 0 <= j < |run.decisionRequests| && SameRequest(run.decisionRequests[j], DecisionAt(d, state).value);
    assert SameRequest(run.decisionRequests[j], decided);
    DecisionSteady(lex, d, files, state.runId, decided);
  }

  lemma Authorizable(lex: Lexicon, d: Disk, files: Files, state: RunStateSnapshot, authorization: Authorization)
    requires Steady(lex, d, files, state.runId) && d.snapshots[state.runId] == state
      && state.status.AwaitingHumanDecision?
    requires authorization.authorizationId !in d.authorizations
      && Some(authorization.decisionId) == state.pendingDecisionId
    ensures Steady(lex, d.(authorizations := d.authorizations[authorization.authorizationId := authorization]), files,
      state.runId)
  {
    hide Steady, BackedOk, Good, Settled, StatusOk, NoneOpen, RunOk, Unspent, Awaits;
    SteadyHas(lex, d, files, state.runId);
    StatusSound(lex, state, d.runs[state.runId], Events(d, state.runId));
    AuthorizationSteady(lex, d, files, state.runId, authorization);
  }

  lemma ReplacedBacked(events: seq<LedgerEvent>, authorizations: map<Id, Authorization>, run: RuntimeRun,
                       decided: DecisionRequest, updated: RuntimeRun)
    requires BackedOk(events, authorizations, run)
      && updated.decisionRequests == ReplaceRequest(run.decisionRequests, decided)
    requires run.decisions <= updated.decisions
    requires Unspent(events, authorizations, decided.decisionId)
    ensures BackedOk(events, authorizations, updated)
  {
    hide Spends, SpentOn;
    forall id, option | id != decided.decisionId && ApprovedIn(run, id, option)
      ensures ApprovedIn(updated, id, option)
    {
      var i :| 0 <= i < |run.decisions| && run.decisions[i].decisionId == id && run.decisions[i].approved
        && HumanActor(run.decisions[i].actor);
      assert updated.decisions[i] == run.decisions[i];
      var j :| 0 <= j < |run.decisionRequests| && run.decisionRequests[j].decisionId == id
               && run.decisionRequests[j].optionId == option && run.decisionRequests[j].status.Approved?;
      assert updated.decisionRequests[j] == run.decisionRequests[j];
    }
  }

  lemma ReplacedAwaits(s: RunStateSnapshot, run: RuntimeRun, decided: DecisionRequest, updated: RuntimeRun)
    requires Awaits(s, decided, run) && updated.decisionRequests == ReplaceRequest(run.decisionRequests, decided)
      && !decided.status.Pending?
    ensures Awaits(s, decided, updated) && decided in updated.decisionRequests
  {
    var j :| 0 <= j < |run.decisionRequests| && SameRequest(run.decisionRequests[j], decided);
    assert updated.decisionRequests[j] == decided;
    assert SameRequest(updated.decisionRequests[j], decided);
  }

  /** The record of a decision may be saved once the request is. */
  lemma ResolvedSavable(lex: Lexicon, d: Disk, files: Files, state: RunStateSnapshot, decided: DecisionRequest,
                        updated: RuntimeRun)
    requires Steady(lex, d, files, state.runId) && d.snapshots[state.runId] == state
      && state.status.AwaitingHumanDecision?
    requires DecisionAt(d, state) == Some(decided) && !decided.status.Pending?
      && Some(decided.decisionId) == state.pendingDecisionId
    requires state.runId in d.runs && Resolves(state, d.runs[state.runId], decided, updated)
    ensures Savable(lex, d, files, state, updated) && decided in updated.decisionRequests
  {
    hide Steady, BackedOk, Good, Settled, StatusOk, NoneOpen, RunOk, Unspent, Awaits, Events, Trims, Settles,
         ReplaceRequest, GrantsOk, ManifestOk, OptionsOk;
    SteadyHas(lex, d, files, state.runId);
    var run, events := d.runs[state.runId], Events(d, state.runId);
    AwaitingStatus(lex, state, run, events);
    AnnotatedRunOk(run, updated);
    AnnotatedStatusOk(lex, state, run, updated, events);
    ReplacedBacked(events, d.authorizations, run, decided, updated);
    ReplacedAwaits(state, run, decided, updated);
    RunParts(run);
    SettledGrants(events, d.authorizations, run, updated, state);
    SettledManifest(state, run, updated, files);
  }

  lemma AwaitingStatus(lex: Lexicon, s: RunStateSnapshot, run: RuntimeRun, events: seq<LedgerEvent>)
    requires StatusOk(lex, s, run, events) && s.status.AwaitingHumanDecision?
    ensures NoneOpen(events) && Fresh(run.measurements, s.cycle) && s.cycle < MAX_CYCLES && s.pendingDecisionId.Some?
    ensures Selectable(run, s.cycle) && s.terminalVerdict.None?
  {}

  lemma DenialMoves(state: RunStateSnapshot, decisionId: Id)
    requires state.status.AwaitingHumanDecision? && state.pendingDecisionId == Some(decisionId)
    ensures var next := Transition(state, Blocked, DecisionResolution(state.runId, decisionId, false, false));
            next.Some? && next.value == state.(status := Blocked, pendingDecisionId := None, pendingOption := None)
  {}

  lemma DenialEnters(lex: Lexicon, d: Disk, files: Files, state: RunStateSnapshot, decisionId: Id)
    requires Steady(lex, d, files, state.runId) && d.snapshots[state.runId] == state
      && state.status.AwaitingHumanDecision?
    requires state.pendingDecisionId == Some(decisionId)
    ensures var next := Transition(state, Blocked, DecisionResolution(state.runId, decisionId, false, false));
            && next.Some? && next.value.status.Blocked? && Enterable(lex, d, files, next.value)
  {
    hide Steady, BackedOk, Good, Settled, StatusOk, NoneOpen, RunOk, DecisionsOk, Transition, Enterable, Fresh;
    SteadyHas(lex, d, files, state.runId);
    AwaitingStatus(lex, state, d.runs[state.runId], Events(d, state.runId));
    DenialMoves(state, decisionId);
    EnterStatus(lex, d, files, state, Blocked, DecisionResolution(state.runId, decisionId, false, false));
  }

  lemma ApprovalMoves(state: RunStateSnapshot, request: DecisionRequest, option: RemediationOption,
                      authorization: Authorization)
    requires state.status.AwaitingHumanDecision? && state.pendingDecisionId == Some(authorization.decisionId)
    requires AsksFor(state, request, option) && authorization.status.Issued? && authorization.runId == state.runId
    requires authorization.optionId == option.optionId && authorization.argsHash == option.argsHash
    ensures var next := Transition(state, Remediating, AuthorizationGuard(authorization));
            next.Some? && next.value == state.(status := Remediating, pendingDecisionId := None, pendingOption := None)
  {}

  /** The approval's own guard holds, as long as the option is the one the snapshot names. */
  lemma ApprovalEnters(lex: Lexicon, d: Disk, files: Files, state: RunStateSnapshot, option: RemediationOption,
                       authorization: Authorization)
    requires Steady(lex, d, files, state.runId) && d.snapshots[state.runId] == state
      && state.status.AwaitingHumanDecision?
    requires exists request :: AsksFor(state, request, option)
    requires state.pendingDecisionId == Some(authorization.decisionId) && authorization.status.Issued?
    requires authorization.runId == state.runId
    requires authorization.optionId == option.optionId && authorization.argsHash == option.argsHash
    ensures var next := Transition(state, Remediating, AuthorizationGuard(authorization));
            && next.Some? && next.value == state.(status := Remediating, pendingDecisionId := None,
              pendingOption := None)
            && Enterable(lex, d, files, next.value)
  {
    hide Steady, BackedOk, Good, Settled, StatusOk, NoneOpen, RunOk, DecisionsOk, Transition, Enterable, Fresh, AsksFor;
    SteadyHas(lex, d, files, state.runId);
    AwaitingStatus(lex, state, d.runs[state.runId], Events(d, state.runId));
    var request :| AsksFor(state, request, option);
    ApprovalMoves(state, request, option, authorization);
    EnterStatus(lex, d, files, state, Remediating, AuthorizationGuard(authorization));
  }

  /** The action about to start is the one a human approved, and its decision has backed
      none before. */
  lemma ApprovalBacks(lex: Lexicon, before: Disk, after: Disk, files: Files, state: RunStateSnapshot,
                      next: RunStateSnapshot, option: RemediationOption, authorization: Authorization, actor: string)
    requires Steady(lex, before, files, state.runId) && before.snapshots[state.runId] == state
      && state.status.AwaitingHumanDecision?
    requires state.pendingDecisionId == Some(authorization.decisionId) && next.runId == state.runId
    requires after.authorizations == before.authorizations && authorization.authorizationId in after.authorizations
    requires after.authorizations[authorization.authorizationId] == authorization && authorization.status.Issued?
    requires authorization.runId == state.runId && authorization.optionId == option.optionId
      && authorization.argsHash == option.argsHash
    requires state.runId in before.runs && after.runs == before.runs
    requires state.runId in after.snapshots && after.snapshots[state.runId] == next
    requires next.status.Remediating? && next.cycle == state.cycle
    requires OffersOpen(before.runs[state.runId].findings, option)
    requires var run := before.runs[state.runId];
             && |run.decisions| > 0 && run.decisions[|run.decisions| - 1] ==
               Decision(authorization.decisionId, actor, true)
             && HumanActor(actor)
             && DecisionAt(before, state).Some? && DecisionAt(before, state).value.status.Approved?
             && DecisionAt(before, state).value.optionId == option.optionId
               && DecisionAt(before, state).value in run.decisionRequests
    requires Events(after, state.runId) ==
      Events(before, state.runId) + [TransitionEvent(Events(before, state.runId), state, next.status)]
    ensures Backs(after, after.runs[state.runId], Events(after, state.runId),
                  NewAction(next, option, CallOf(option, authorization.authorizationId), Events(after, state.runId)))
  {
    hide Steady, Good, Settled, StatusOk, NoneOpen, HashesOk, MeasuresOk, Fresh, FreshEventId, FreshActionId, BackedOk,
         Awaits, GrantsOk, ManifestOk, Granted, Selectable, OptionsOk, OptionOk, ClosedFirst;
    SteadyHas(lex, before, files, state.runId);
    var run := before.runs[state.runId];
    AwaitingStatus(lex, state, run, Events(before, state.runId));
    OfferIsGranted(run, next, option, authorization);
    var request := DecisionAt(before, state).value;
    var j :| 0 <= j < |run.decisionRequests| && run.decisionRequests[j] == request;
    assert run.decisions[|run.decisions| - 1].approved;
    assert ApprovedIn(run, authorization.decisionId, authorization.optionId);
    CallBound(option, authorization.authorizationId);
    StillUnspent(Events(before, state.runId), before.authorizations, run, authorization.decisionId,
                 TransitionEvent(Events(before, state.runId), state, next.status));
  }

  /** An open option of this cycle is held by the record, with its arguments. */
  lemma OfferIsGranted(run: RuntimeRun, s: RunStateSnapshot, option: RemediationOption, authorization: Authorization)
    requires RunOk(run) && Selectable(run, s.cycle) && OffersOpen(run.findings, option) && s.status.Remediating?
    requires authorization.optionId == option.optionId && authorization.argsHash == option.argsHash
    ensures Granted(authorization, run, s)
    ensures option.argsHash == HashArguments(option.arguments)
    ensures option.arguments.NormalizeInput? || TierOf(option.tool) != Some(ContentAffecting)
  {
    hide HashesOk, MeasuresOk, Unshadowed, Aimed;
    var i :| 0 <= i < |run.findings| && run.findings[i].status.Open? && option in run.findings[i].options;
    assert OptionOk(option, run) && option.findingId == run.findings[i].findingId;
    var k :| 0 <= k < |run.findings[i].options| && run.findings[i].options[k] == option;
  }

  lemma StillUnspent(events: seq<LedgerEvent>, authorizations: map<Id, Authorization>, run: RuntimeRun, decisionId: Id,
                     event: LedgerEvent)
    requires Unspent(events, authorizations, decisionId) && event.payload.StateTransition?
    ensures Unspent(events + [event], authorizations, decisionId)
  {
    forall i | 0 <= i < |events + [event]| && Spends((events + [event])[i], authorizations)
      ensures SpentOn((events + [event])[i], authorizations).decisionId != decisionId
    {
      assert (events + [event])[i] == events[i];
    }
  }

  lemma SelectionEnters(lex: Lexicon, d: Disk, files: Files, state: RunStateSnapshot, option: RemediationOption)
    requires Steady(lex, d, files, state.runId) && d.snapshots[state.runId] == state && state.status.FindingsReady?
    requires state.cycle < MAX_CYCLES && option.tier == 1 && OffersOpen(d.runs[state.runId].findings, option)
    ensures var next := Transition(state, Remediating, RemediationSelection(Binding(state.runId, option)));
            && (next.Some? <==> Binding(state.runId, option) in state.admissibleOptions)
            && (next.Some? ==> next.value == state.(status := Remediating) && Enterable(lex, d, files, next.value))
  {
    hide Steady, RunOk, BackedOk, Good, Settled, StatusOk, DecisionsOk, Enterable, NoneOpen, Fresh, UpTo, Unspent,
         Selectable, ManifestOk;
    SteadyHas(lex, d, files, state.runId);
    FindingsHave(lex, state, d.runs[state.runId], Events(d, state.runId));
    var guard := RemediationSelection(Binding(state.runId, option));
    if Transition(state, Remediating, guard).Some? {
      EnterStatus(lex, d, files, state, Remediating, guard);
    }
  }

  /** The first of a batch is admitted when every open option is. */
  lemma FirstAdmitted(state: RunStateSnapshot, run: RuntimeRun, options: seq<RemediationOption>)
    requires options != [] && AllOffered(run, options) && Admits(state, run)
    ensures Binding(state.runId, options[0]) in state.admissibleOptions
  {
    assert OffersOpen(run.findings, options[0]);
    var i :| 0 <= i < |run.findings| && run.findings[i].status.Open? && options[0] in run.findings[i].options;
  }

  /** A transition opens no action. */
  lemma SteadyMoved(lex: Lexicon, before: Disk, after: Disk, files: Files, state: RunStateSnapshot,
                    next: RunStateSnapshot)
    requires Steady(lex, before, files, state.runId) && before.snapshots[state.runId] == state
      && !state.status.Remediating?
    requires next.runId == state.runId
    requires after == Committed(before, next, TransitionEvent(Events(before, state.runId), state, next.status))
    ensures NoneOpen(Events(after, state.runId)) && after.authorizations == before.authorizations
      && after.runs == before.runs
    ensures after.snapshots == before.snapshots[state.runId := next]
    ensures Events(after, state.runId) ==
      Events(before, state.runId) + [TransitionEvent(Events(before, state.runId), state, next.status)]
  {
    hide Steady, RunOk, BackedOk, Good, Settled, DecisionsOk, Fresh, UpTo, FreshEventId, Deliverable;
    SteadyHas(lex, before, files, state.runId);
    var events := Events(before, state.runId);
    EventKeepsNoneOpen(events, TransitionEvent(events, state, next.status));
  }

  lemma EventKeepsNoneOpen(events: seq<LedgerEvent>, event: LedgerEvent)
    requires NoneOpen(events) && event.payload.StateTransition?
    ensures NoneOpen(events + [event])
  {
    HasAppend(events, event);
    forall i | 0 <= i < |events + [event]| && (events + [event])[i].payload.ActionStarted?
      ensures HasClose(events + [event], (events + [event])[i].payload.actionId)
    {
      assert (events + [event])[i] == events[i];
    }
  }

  /** A reversible option is offered still, and its action carries no authorization. */
  lemma OfferedIsPlain(d: Disk, run: RuntimeRun, current: RuntimeRun, events: seq<LedgerEvent>, state: RunStateSnapshot,
                       option: RemediationOption)
    requires RunOk(run) && OffersOpen(run.findings, option) && option.tier == 1 && current.findings == run.findings
    ensures Offers(current.findings, option)
    ensures Backs(d, current, events, NewAction(state, option, CallOf(option, 0), events))
  {
    var i :| 0 <= i < |run.findings| && run.findings[i].status.Open? && option in run.findings[i].options;
    assert OptionOk(option, run);
  }

  lemma OpenIsOffered(findings: seq<RuntimeFinding>, option: RemediationOption)
    requires OffersOpen(findings, option)
    ensures Offers(findings, option)
  {}

  /** An open option may begin against the assets it was offered for. */
  lemma OfferedBegins(run: RuntimeRun, cycle: nat, state: RunStateSnapshot, option: RemediationOption,
                      authorizationId: Id)
    requires RunOk(run) && Selectable(run, cycle) && OffersOpen(run.findings, option)
    requires state.status.Remediating? && state.runId == run.runId
    ensures Authority.MayBegin(state, ContextOf(run, FindingsReady), option.tool, CallOf(option, authorizationId),
      option)
  {
    hide RunOk, Aimed, Unshadowed, Authority.MayBegin;
    var i :| 0 <= i < |run.findings| && run.findings[i].status.Open? && option in run.findings[i].options;
    OfferedMayBegin(run, state, FindingsReady, option, authorizationId);
  }

  /** What an approval needs: the option may begin, no rewrite was closed in this cycle, and the
      manifest is up to date. */
  lemma ApprovedBegins(lex: Lexicon, d: Disk, files: Files, state: RunStateSnapshot, run: RuntimeRun,
                       next: RunStateSnapshot, option: RemediationOption, authorizationId: Id)
    requires Steady(lex, d, files, state.runId) && d.snapshots[state.runId] == state
      && state.status.AwaitingHumanDecision?
    requires d.runs[state.runId] == run && OffersOpen(run.findings, option)
    requires next == state.(status := Remediating, pendingDecisionId := None, pendingOption := None)
    ensures Authority.MayBegin(next, ContextOf(run, FindingsReady), option.tool, CallOf(option, authorizationId),
      option)
    ensures RewriteOpen(run, next.cycle) && ManifestKept(run, files)
  {
    hide Steady, BackedOk, Good, Settled, StatusOk, NoneOpen, RunOk, DecisionsOk, ManifestKept, Selectable, OffersOpen,
         RewriteOpen, Authority.MayBegin;
    SteadyHas(lex, d, files, state.runId);
    RunIdIs(d, files, state.runId);
    AwaitingStatus(lex, state, run, Events(d, state.runId));
    OfferedBegins(run, state.cycle, next, option, authorizationId);
    NotRewritten(run, state.cycle);
  }

  lemma RunIdIs(d: Disk, files: Files, runId: Id)
    requires Good(d, files, runId)
    ensures runId in d.runs && d.runs[runId].runId == runId
  {}

  // ------------------------------------------------------------ the manifest's rewrite

  /** No finding of this cycle for a rewrite of the manifest was closed. */
  predicate RewriteOpen(run: RuntimeRun, cycle: nat) {
    ChecksumsRequirement(run.requirements).Some? ==>
      Reopenable(run.findings, FindingId(ChecksumsRequirement(run.requirements).value.requirementId, cycle, true))
  }

  /** The runtime's manifest is there, as written, and older than the last change. */
  predicate NeedsRewrite(events: seq<LedgerEvent>, run: RuntimeRun, files: Files) {
    && RuntimeManifest(run).Some? && Intact(RuntimeManifest(run).value, files)
      && ChecksumsRequirement(run.requirements).Some?
    && var written := CompletionSeq(events, RuntimeManifest(run).value.asset.createdByAction.value);
       written.Some? && ChangedSeq(events, events) > written.value
  }

  lemma NotRewritten(run: RuntimeRun, cycle: nat)
    requires RunOk(run) && Selectable(run, cycle)
    ensures RewriteOpen(run, cycle)
  {
    hide OptionsOk, HashesOk, MeasuresOk, Unshadowed, Aimed, ClosedFirst;
  }

  lemma RewriteByFindings(run: RuntimeRun, updated: RuntimeRun, cycle: nat)
    requires updated.findings == run.findings && updated.requirements == run.requirements
    ensures RewriteOpen(updated, cycle) <==> RewriteOpen(run, cycle)
  {}

  lemma NotDue(run: RuntimeRun, files: Files)
    ensures RuntimeManifest(run).None? || !Intact(RuntimeManifest(run).value,
      files) || ChecksumsRequirement(run.requirements).None? ==>
              ManifestKept(run, files)
  {
    hide ListsLeaves, RewriteFailed;
  }

  lemma ManifestCounted(run: RuntimeRun, counted: RuntimeRun, files: Files)
    requires Annotates(run, counted) && counted.findings == run.findings && ManifestKept(run, files)
    ensures ManifestKept(counted, files)
  {
    hide ManifestKept, RewriteFailed, Trims;
    ManifestByAssets(run, counted, files);
  }

  /** The files of the record's assets are as they were. */
  ghost predicate SameAssetFiles(run: RuntimeRun, before: Files, after: Files) {
    forall item :: item in run.assets ==>
      (item.path in after <==> item.path in before) && (item.path in before ==> after[item.path] == before[item.path])
  }

  lemma ManifestByFiles(run: RuntimeRun, before: Files, after: Files)
    requires SameAssetFiles(run, before, after) && ManifestKept(run, before)
    ensures ManifestKept(run, after)
  {
    hide RewriteFailed, ManifestLines;
    if RuntimeManifest(run).Some? {
      assert RuntimeManifest(run).value in run.assets;
    }
  }

  /** Two more events, a start and its failure. */
  predicate FailedAttempt(before: seq<LedgerEvent>, after: seq<LedgerEvent>) {
    && |after| == |before| + 2 && before == after[..|before|]
    && after[|before|].payload.ActionStarted? && !HasStart(before, after[|before|].payload.actionId)
    && after[|before| + 1].payload.ActionFailed?
  }

  lemma {:induction false} CompletionAppend(events: seq<LedgerEvent>, event: LedgerEvent, a: Id)
    requires !event.payload.ActionCompleted?
    ensures CompletionSeq(events + [event], a) == CompletionSeq(events, a)
  {
    assert (events + [event])[..|events|] == events;
  }

  lemma {:induction false} StartAppend(events: seq<LedgerEvent>, event: LedgerEvent, a: Id)
    requires !Starts(event, a)
    ensures FindStart(events + [event], a) == FindStart(events, a)
  {
    assert (events + [event])[..|events|] == events;
  }

  /** The last change is the number of an event that completed one. */
  lemma {:induction false} ChangeIs(prefix: seq<LedgerEvent>, events: seq<LedgerEvent>)
    requires ChangedSeq(prefix, events) >= 0
    ensures exists i :: && 0 <= i < |prefix| && CompletesChange(events, prefix[i])
                        && prefix[i].seqNo == ChangedSeq(prefix, events)
  {
    hide CompletesChange;
    var last := |prefix| - 1;
    var rest := ChangedSeq(prefix[..last], events);
    if CompletesChange(events, prefix[last]) && prefix[last].seqNo > rest {
    } else {
      ChangeIs(prefix[..last], events);
      var i :| 0 <= i < last && CompletesChange(events, prefix[..last][i]) && prefix[..last][i].seqNo == rest;
      assert prefix[i] == prefix[..last][i];
    }
  }

  lemma {:induction false} FailureChangesNothing(events: seq<LedgerEvent>, later: seq<LedgerEvent>, a: Id)
    requires FailedAttempt(events, later)
    ensures CompletionSeq(later, a) == CompletionSeq(events, a)
    ensures ChangedSeq(events, events) >= 0 ==> ChangedSeq(later, later) >= ChangedSeq(events, events)
  {
    var once := events + [later[|events|]];
    assert later == once + [later[|events| + 1]];
    CompletionAppend(events, later[|events|], a);
    CompletionAppend(once, later[|events| + 1], a);
    if ChangedSeq(events, events) >= 0 {
      ChangeIs(events, events);
      var i :| 0 <= i < |events| && CompletesChange(events, events[i]) && events[i].seqNo == ChangedSeq(events, events);
      assert later[i] == events[i];
      var changed := events[i].payload.actionId;
      StartAppend(events, later[|events|], changed);
      StartAppend(once, later[|events| + 1], changed);
      assert CompletesChange(later, later[i]);
    }
  }

  lemma StillNeedsRewrite(events: seq<LedgerEvent>, later: seq<LedgerEvent>, run: RuntimeRun, updated: RuntimeRun,
                          files: Files, now: Files)
    requires NeedsRewrite(events, run, files) && FailedAttempt(events, later) && SameAssetFiles(run, files, now)
    requires updated.assets == run.assets && updated.requirements == run.requirements
    ensures NeedsRewrite(later, updated, now) && ChecksumsRequirement(run.requirements).Some?
  {
    hide FailedAttempt, CompletionSeq, ChangedSeq;
    assert RuntimeManifest(updated) == RuntimeManifest(run) by { assert CurrentAssets(updated) == CurrentAssets(run); }
    assert RuntimeManifest(run).value in run.assets;
    FailureChangesNothing(events, later, RuntimeManifest(run).value.asset.createdByAction.value);
  }

  /** A run that needs a rewrite it may not have keeps needing it. */
  lemma InvalidationStays(events: seq<LedgerEvent>, run: RuntimeRun, files: Files, requirementId: Id, assetId: AssetId,
                          cycle: nat)
    ensures NeedsRewrite(events, run, files) ==>
      NeedsRewrite(events, WithInvalidation(run, requirementId, assetId, cycle), files)
    ensures !RewriteOpen(run, cycle) ==> !RewriteOpen(WithInvalidation(run, requirementId, assetId, cycle), cycle)
  {
    hide CompletionSeq, ChangedSeq, ManifestOption;
    var updated := WithInvalidation(run, requirementId, assetId, cycle);
    assert CurrentAssets(updated) == CurrentAssets(run);
    if !RewriteOpen(run, cycle) {
      var findingId := FindingId(ChecksumsRequirement(run.requirements).value.requirementId, cycle, true);
      var i :| 0 <= i < |run.findings| && run.findings[i].findingId == findingId && !run.findings[i].status.Open?;
      assert updated.findings[i] == run.findings[i];
    }
  }

  /** The finding of a rewrite that failed: unresolved, and the last of its kind. */
  lemma RewriteGivenUp(prior: RuntimeRun, requirementId: Id, assetId: AssetId, cycle: nat, given: RuntimeRun,
                       files: Files)
    requires var run, findingId := WithInvalidation(prior, requirementId, assetId, cycle),
      FindingId(requirementId, cycle, true);
             given == run.(findings := CloseFinding(run.findings, findingId, Unresolved, None))
    ensures RewriteFailed(given.findings) && ManifestKept(given, files)
    ensures var checksums := ChecksumsRequirement(prior.requirements);
            checksums.Some? && checksums.value.requirementId == requirementId ==>
              !RewriteOpen(given, cycle)
    ensures given.assets == prior.assets && given.requirements == prior.requirements
      && given.decisionRequests == prior.decisionRequests
  {
    hide ManifestOption, ListsLeaves;
    var last := given.findings[|prior.findings|];
    assert last.findingId == FindingId(requirementId, cycle, true) && last.status.Unresolved?;
  }

  /** The finding of a rewrite that went through: resolved, and the last of its kind. */
  lemma RewriteClosed(prior: RuntimeRun, requirementId: Id, assetId: AssetId, cycle: nat, performed: RuntimeRun,
                      closed: RuntimeRun, closer: Option<Id>)
    requires performed.findings == WithInvalidation(prior, requirementId, assetId, cycle).findings
    requires closed == performed.(findings := CloseFinding(performed.findings, FindingId(requirementId, cycle, true),
      Resolved, closer))
    ensures !RewriteFailed(closed.findings)
  {
    hide ManifestOption;
    assert closed.findings[|prior.findings|].findingId == FindingId(requirementId, cycle, true);
    assert closed.findings[|prior.findings|].status.Resolved?;
    assert |closed.findings| == |prior.findings| + 1;
  }

  lemma UnjudgedYet(lex: Lexicon, s: RunStateSnapshot, run: RuntimeRun, events: seq<LedgerEvent>)
    requires StatusOk(lex, s, run, events) && s.status.Remediating?
    ensures s.terminalVerdict.None?
  {}

  lemma ConcludedSame(files: Files, run: RuntimeRun, option: RemediationOption, result: Remedied)
    requires Concludes(files, run, option, result) && result.newAssetId.None?
    ensures result.run == run
  {}

  // ------------------------------------------------------------ requests

  lemma RequestMade(run: RuntimeRun, state: RunStateSnapshot, option: RemediationOption, decisionId: Id)
    requires Authority.CreateDecisionRequest(ContextOf(run, state.status), option, decisionId).Some?
    ensures Authority.CreateDecisionRequest(ContextOf(run, state.status), option, decisionId).value ==
            DecisionRequest(decisionId, run.runId, option.findingId, option.optionId, Pending)
  {}

  /** Storing a request, recording it, and waiting for it. */
  lemma RequestSavable(lex: Lexicon, d: Disk, files: Files, state: RunStateSnapshot, option: RemediationOption,
                       request: DecisionRequest)
    requires Steady(lex, d, files, state.runId) && d.snapshots[state.runId] == state && state.status.FindingsReady?
    requires state.cycle < MAX_CYCLES && option.tier == 2 && OffersOpen(d.runs[state.runId].findings, option)
    requires request.decisionId !in d.decisions && request.runId == state.runId && request.status.Pending?
    requires request.findingId == option.findingId && request.optionId == option.optionId
    ensures var run := d.runs[state.runId];
            var stored := d.(decisions := d.decisions[request.decisionId := request]);
            var asked := run.(decisionRequests := run.decisionRequests + [request]);
            var saved := stored.(runs := stored.runs[state.runId := asked]);
            var guard := DecisionPending(state.runId, request.decisionId, Some(Binding(state.runId, option)));
            var next := Transition(state, AwaitingHumanDecision, guard);
            && Steady(lex, stored, files, state.runId) && Savable(lex, stored, files, state, asked)
              && KeepsRecord(run, asked)
            && next.Some? && next.value == state.(status := AwaitingHumanDecision,
              pendingDecisionId := Some(request.decisionId),
                                                  pendingOption := Some(Binding(state.runId, option)))
            && (Steady(lex, saved, files, state.runId) ==> Enterable(lex, saved, files, next.value))
  {
    hide Steady, RunOk, BackedOk, Good, Settled, StatusOk, DecisionsOk, Enterable, NoneOpen, Transition, Events, Trims,
         Settles, Reaches, ManifestOk, GrantsOk, Selectable, OptionsOk;
    SteadyHas(lex, d, files, state.runId);
    var run, events := d.runs[state.runId], Events(d, state.runId);
    var stored := d.(decisions := d.decisions[request.decisionId := request]);
    var asked := run.(decisionRequests := run.decisionRequests + [request]);
    var saved := stored.(runs := stored.runs[state.runId := asked]);
    RunIdIs(d, files, state.runId);
    FindingsHave(lex, state, run, events);
    DecisionSteady(lex, d, files, state.runId, request);
    EventsOfRuns(d, stored, state.runId);
    EventsOfRuns(d, saved, state.runId);
    SameFindings(run.findings);
    SameSettles(state, run.findings);
    AnnotatedRunOk(run, asked);
    AnnotatedStatusOk(lex, state, run, asked, events);
    MoreRequestsBacked(events, d.authorizations, run, asked);
    DecisionsGrant(d, state, events);
    RunParts(run);
    SettledGrants(events, d.authorizations, run, asked, state);
    StoredDecision(d, state, events, request);
    NothingAwaited(stored, state, state, events, asked);
    SettledManifest(state, run, asked, files);
    WaitingMoves(state, request.decisionId, option);
    if Steady(lex, saved, files, state.runId) {
      WaitingReached(lex, d, files, state, option, request);
      EnterStatus(lex, saved, files, state, AwaitingHumanDecision,
                  DecisionPending(state.runId, request.decisionId, Some(Binding(state.runId, option))));
    }
  }

  lemma SameFindings(findings: seq<RuntimeFinding>)
    ensures Trims(findings, findings)
  {}

  lemma WaitingMoves(state: RunStateSnapshot, decisionId: Id, option: RemediationOption)
    requires state.status.FindingsReady? && option.tier == 2
    ensures var next := Transition(state, AwaitingHumanDecision,
      DecisionPending(state.runId, decisionId, Some(Binding(state.runId, option))));
            next.Some? && next.value == state.(status := AwaitingHumanDecision, pendingDecisionId := Some(decisionId),
                                               pendingOption := Some(Binding(state.runId, option)))
  {}

  lemma WaitingReached(lex: Lexicon, d: Disk, files: Files, state: RunStateSnapshot, option: RemediationOption,
                       request: DecisionRequest)
    requires Steady(lex, d, files, state.runId) && d.snapshots[state.runId] == state && state.status.FindingsReady?
    requires state.cycle < MAX_CYCLES && option.tier == 2 && OffersOpen(d.runs[state.runId].findings, option)
    requires request.decisionId !in d.decisions && request.runId == state.runId && request.status.Pending?
    requires request.findingId == option.findingId && request.optionId == option.optionId
    ensures var run := d.runs[state.runId];
            var asked := run.(decisionRequests := run.decisionRequests + [request]);
            var saved := d.(decisions := d.decisions[request.decisionId := request],
              runs := d.runs[state.runId := asked]);
            Reaches(lex, saved, state.(status := AwaitingHumanDecision, pendingDecisionId := Some(request.decisionId),
                                       pendingOption := Some(Binding(state.runId, option))))
  {
    hide Steady, RunOk, BackedOk, Good, Settled, StatusOk, NoneOpen, Fresh, UpTo, GrantsOk, ManifestOk, Selectable,
         Trims;
    SteadyHas(lex, d, files, state.runId);
    var run, events := d.runs[state.runId], Events(d, state.runId);
    FindingsHave(lex, state, run, events);
    var asked := run.(decisionRequests := run.decisionRequests + [request]);
    SameFindings(run.findings);
    TrimmedSelectable(run, asked, state.cycle);
    assert asked.decisionRequests[|run.decisionRequests|] == request;
    var i :| 0 <= i < |run.findings| && run.findings[i].status.Open? && option in run.findings[i].options;
    var k :| 0 <= k < |run.findings[i].options| && run.findings[i].options[k] == option;
    var next := state.(status := AwaitingHumanDecision, pendingDecisionId := Some(request.decisionId),
                       pendingOption := Some(Binding(state.runId, option)));
    assert AsksFor(next, request, asked.findings[i].options[k]);
    assert Awaits(next, request, asked);
  }

  lemma MoreRequestsBacked(events: seq<LedgerEvent>, authorizations: map<Id, Authorization>, run: RuntimeRun,
                           updated: RuntimeRun)
    requires BackedOk(events, authorizations, run)
    requires run.decisions <= updated.decisions && run.decisionRequests <= updated.decisionRequests
    ensures BackedOk(events, authorizations, updated)
  {
    hide Spends, SpentOn;
    forall id, option | ApprovedIn(run, id, option) ensures ApprovedIn(updated, id, option) {
      var i :| 0 <= i < |run.decisions| && run.decisions[i].decisionId == id && run.decisions[i].approved
        && HumanActor(run.decisions[i].actor);
      assert updated.decisions[i] == run.decisions[i];
      var j :| 0 <= j < |run.decisionRequests| && run.decisionRequests[j].decisionId == id
               && run.decisionRequests[j].optionId == option && run.decisionRequests[j].status.Approved?;
      assert updated.decisionRequests[j] == run.decisionRequests[j];
    }
  }

  /** The run ended, or waits for a human. */
  predicate Stopped(s: RunStateSnapshot) {
    IsTerminal(s.status) || s.status.AwaitingHumanDecision?
  }

  /** What one call of `advance` that returns has done. */
  predicate Progress(before: RunStateSnapshot, after: RunStateSnapshot) {
    if before.status.FindingsReady? then
      || (Stopped(after) && after.cycle == before.cycle)
      || (after.status.FindingsReady? && after.cycle == before.cycle + 1)
    else if before.status.Remediating? then
      after.status.Failed? || (after.status.FindingsReady? && after.cycle == before.cycle + 1)
    else
      after == before
  }

  /** No crash window was hit. No request is pending but the one a decision waits for, which can
      be decided; the snapshot admits the options on offer; and no rewrite of the manifest was
      closed in a cycle that is still being remediated. Each fails only when the process dies
      between two particular writes. */
  predicate Unhindered(d: Disk, runId: Id) {
    && runId in d.snapshots && runId in d.runs
    && NonePending(d.runs[runId], d.snapshots[runId])
    && (d.snapshots[runId].status.FindingsReady? ==> Admits(d.snapshots[runId], d.runs[runId]))
    && (d.snapshots[runId].status.AwaitingHumanDecision? ==> Decidable(d, runId))
    && (d.snapshots[runId].status.Remediating? ==> RewriteOpen(d.runs[runId], d.snapshots[runId].cycle))
  }

  predicate NonePending(run: RuntimeRun, s: RunStateSnapshot) {
    forall j :: 0 <= j < |run.decisionRequests| && run.decisionRequests[j].status.Pending? ==>
      s.status.AwaitingHumanDecision? && s.pendingDecisionId == Some(run.decisionRequests[j].decisionId)
  }

  /** The run ended, with the requests it had. */
  predicate Ends(d: Disk, run: RuntimeRun, s: RunStateSnapshot) {
    IsTerminal(s.status) && s.runId in d.runs && d.runs[s.runId].decisionRequests == run.decisionRequests
  }

  /** The run waits for one more request, which is stored and pending. */
  predicate Asks(d: Disk, run: RuntimeRun, s: RunStateSnapshot) {
    && s.status.AwaitingHumanDecision? && DecisionAt(d, s).Some? && DecisionAt(d, s).value.status.Pending?
    && s.pendingDecisionId == Some(DecisionAt(d, s).value.decisionId)
    && s.runId in d.runs && d.runs[s.runId].decisionRequests == run.decisionRequests + [DecisionAt(d, s).value]
  }

  lemma PendingIsAwaited(run: RuntimeRun, s: RunStateSnapshot)
    requires !s.status.AwaitingHumanDecision?
    ensures NonePending(run, s) <==> FirstPending(run.decisionRequests).None?
  {}

  /** After a decision nothing is pending. */
  lemma NothingPendingAfter(run: RuntimeRun, s: RunStateSnapshot, decided: DecisionRequest)
    requires NonePending(run, s) && s.pendingDecisionId == Some(decided.decisionId) && !decided.status.Pending?
    ensures FirstPending(ReplaceRequest(run.decisionRequests, decided)).None?
  {}

  lemma DeniedUnhindered(before: Disk, after: Disk, s: RunStateSnapshot, run: RuntimeRun, decided: DecisionRequest,
                         updated: RuntimeRun)
    requires s.runId in before.snapshots && before.snapshots[s.runId] == s && s.runId in before.runs
      && before.runs[s.runId] == run
    requires s.pendingDecisionId == Some(decided.decisionId) && !decided.status.Pending?
    requires updated.decisionRequests == ReplaceRequest(run.decisionRequests, decided)
    requires s.runId in after.snapshots && after.snapshots[s.runId].status.Blocked? && s.runId in after.runs
      && after.runs[s.runId] == updated
    ensures Unhindered(before, s.runId) ==> Unhindered(after, s.runId)
  {
    hide ReplaceRequest, NonePending;
    if Unhindered(before, s.runId) {
      NothingPendingAfter(run, s, decided);
      PendingIsAwaited(updated, after.snapshots[s.runId]);
    }
  }

  lemma ApprovedUnhindered(before: Disk, after: Disk, s: RunStateSnapshot, run: RuntimeRun, decided: DecisionRequest,
                           updated: RuntimeRun)
    requires s.runId in before.snapshots && before.snapshots[s.runId] == s && s.runId in before.runs
      && before.runs[s.runId] == run
    requires s.pendingDecisionId == Some(decided.decisionId) && !decided.status.Pending?
    requires updated.decisionRequests == ReplaceRequest(run.decisionRequests, decided)
    requires s.runId in after.snapshots && after.snapshots[s.runId].status.FindingsReady? && s.runId in after.runs
    requires Admits(after.snapshots[s.runId], after.runs[s.runId])
      && after.runs[s.runId].decisionRequests == updated.decisionRequests
    ensures Unhindered(before, s.runId) ==> Unhindered(after, s.runId)
  {
    hide ReplaceRequest, NonePending;
    if Unhindered(before, s.runId) {
      NothingPendingAfter(run, s, decided);
      PendingIsAwaited(after.runs[s.runId], after.snapshots[s.runId]);
    }
  }

  /** What an authorization was minted for: the option and the arguments the snapshot showed to
      whoever decided. */
  predicate MintedFor(authorization: Authorization, s: RunStateSnapshot) {
    && s.pendingOption.Some? && authorization.runId == s.runId && s.pendingDecisionId == Some(authorization.decisionId)
    && authorization.optionId == s.pendingOption.value.optionId
      && authorization.argsHash == s.pendingOption.value.argsHash
  }

  lemma MintedStays(before: Disk, after: Disk, authorization: Authorization, s: RunStateSnapshot,
                    request: DecisionRequest, option: RemediationOption)
    requires Extends(before, after, s.runId) && AsksFor(s, request, option)
    requires authorization.authorizationId in before.authorizations
      && before.authorizations[authorization.authorizationId] == authorization
    requires authorization.runId == s.runId && s.pendingDecisionId == Some(authorization.decisionId)
    requires authorization.optionId == option.optionId && authorization.argsHash == option.argsHash
    ensures authorization.authorizationId in after.authorizations
    ensures MintedFor(after.authorizations[authorization.authorizationId], s)
  {}

  lemma SteadyRestarts(lex: Lexicon, d: Disk, files: Files, runId: Id)
    requires Steady(lex, d, files, runId)
    ensures Restartable(lex, d, files, runId)
  {
    hide Steady;
  }

  // ------------------------------------------------------------ crash windows

  /** Inside the first window, between storing a request and waiting for it: with a request
      pending there is no verdict, before the open findings are closed or after, so a run that
      can do nothing else ends every advance in a RuntimeError. */
  lemma PendingGivesNoVerdict(lex: Lexicon, run: RuntimeRun, cycle: nat, intact: bool)
    ensures FirstPending(run.decisionRequests).Some? ==> Compute(TerminalOf(lex, run, cycle, intact)).None?
  {
    hide PredicateFacts, ActionRemains, Reasons, Counts;
    var input := TerminalOf(lex, run, cycle, intact);
    assert forall i :: 0 <= i < |run.decisionRequests| ==> input.decisions[i] == run.decisionRequests[i].status;
  }

  /** The window is there: from every steady run with a content-affecting option on offer, the
      disk after the request and the record are saved, and before the run waits, is steady and
      has a request pending. */
  lemma RequestWindow(lex: Lexicon, d: Disk, files: Files, state: RunStateSnapshot, option: RemediationOption,
                      request: DecisionRequest)
    requires Steady(lex, d, files, state.runId) && d.snapshots[state.runId] == state && state.status.FindingsReady?
    requires state.cycle < MAX_CYCLES && option.tier == 2 && OffersOpen(d.runs[state.runId].findings, option)
    requires request.decisionId !in d.decisions && request.runId == state.runId && request.status.Pending?
    requires request.findingId == option.findingId && request.optionId == option.optionId
    ensures var asked := d.runs[state.runId].(decisionRequests := d.runs[state.runId].decisionRequests + [request]);
            var left := d.(decisions := d.decisions[request.decisionId := request],
              runs := d.runs[state.runId := asked]);
            && Steady(lex, left, files, state.runId) && left.snapshots[state.runId].status.FindingsReady?
            && FirstPending(left.runs[state.runId].decisionRequests).Some? && !Unhindered(left, state.runId)
  {
    hide Steady, Savable, Enterable, Transition, OffersOpen, Extends, KeepsRecord, RunOk, StatusOk, BackedOk,
         DecisionsOk, Good, ManifestOk, Settled, AssetsOk, Loadable;
    SteadyHas(lex, d, files, state.runId);
    var stored := d.(decisions := d.decisions[request.decisionId := request]);
    var asked := d.runs[state.runId].(decisionRequests := d.runs[state.runId].decisionRequests + [request]);
    RequestSavable(lex, d, files, state, option, request);
    SavedSteady(lex, stored, files, state.runId, asked);
    assert asked.decisionRequests[|d.runs[state.runId].decisionRequests|] == request;
    PendingIsAwaited(asked, state);
    hide NonePending;
  }

  /** The second window is there: after every first finding of a cycle, the disk between the
      transition to ready findings and the snapshot that admits their options is steady and
      admits none of them. Selecting one is then refused. */
  lemma AdmissionWindow(lex: Lexicon, d: Disk, files: Files, state: RunStateSnapshot, batch: seq<Measurement>,
                        added: seq<RuntimeFinding>, i: nat, option: RemediationOption)
    requires Steady(lex, d, files, state.runId) && d.snapshots[state.runId] == state && state.status.Inspecting?
    requires state.admissibleOptions == [] && Uninspected(d.runs[state.runId], state.cycle)
    requires IsInspection(d.runs[state.runId], Events(d, state.runId), state.cycle, |OrderedIds(d.runs[state.runId])|,
      batch, added)
    requires i < |added| && option in added[i].options
    ensures var updated := InspectedRun(d.runs[state.runId], batch, added);
            var saved := d.(runs := d.runs[state.runId := updated]);
            var ready := state.(status := FindingsReady);
            var left := Committed(saved, ready, TransitionEvent(Events(saved, state.runId), state, FindingsReady));
            && Steady(lex, left, files, state.runId) && left.snapshots[state.runId] == ready
              && !Unhindered(left, state.runId)
            && Transition(ready, Remediating, RemediationSelection(Binding(state.runId, option))).None?
  {
    hide Steady, Savable, Enterable, IsInspection, Uninspected, OrderedIds, TransitionEvent, Events, Transition,
         InspectedRun, Admits, Unhindered, RunOk, StatusOk, BackedOk, DecisionsOk, Good, ManifestOk, Settled,
         AssetsOk, Loadable, CommitOk;
    SteadyHas(lex, d, files, state.runId);
    InspectionSavable(lex, d, files, state, batch, added);
    var updated := InspectedRun(d.runs[state.runId], batch, added);
    var saved := d.(runs := d.runs[state.runId := updated]);
    SavedSteady(lex, d, files, state.runId, updated);
    EnterSteady(lex, saved, files, state, state.(status := FindingsReady));
    AddedAreOpen(d.runs[state.runId], Events(d, state.runId), state.cycle, batch, added);
    NothingAdmitted(state.(status := FindingsReady), updated, |d.runs[state.runId].findings| + i, option);
    UnadmittedHinders(Committed(saved, state.(status := FindingsReady),
      TransitionEvent(Events(saved, state.runId), state, FindingsReady)), state.runId);
  }

  lemma UnadmittedHinders(d: Disk, runId: Id)
    requires runId in d.snapshots && runId in d.runs && d.snapshots[runId].status.FindingsReady?
    requires !Admits(d.snapshots[runId], d.runs[runId])
    ensures !Unhindered(d, runId)
  {}

  lemma NothingAdmitted(ready: RunStateSnapshot, run: RuntimeRun, i: nat, option: RemediationOption)
    requires ready.admissibleOptions == [] && ready.status.FindingsReady?
    requires i < |run.findings| && run.findings[i].status.Open? && option in run.findings[i].options
    ensures !Admits(ready, run)
    ensures Transition(ready, Remediating, RemediationSelection(Binding(ready.runId, option))).None?
  {}

  lemma AddedAreOpen(run: RuntimeRun, events: seq<LedgerEvent>, cycle: nat, batch: seq<Measurement>,
                     added: seq<RuntimeFinding>)
    requires IsInspection(run, events, cycle, |OrderedIds(run)|, batch, added)
    ensures |InspectedRun(run, batch, added).findings| == |run.findings| + |added|
    ensures forall k :: 0 <= k < |added| ==>
      InspectedRun(run, batch, added).findings[|run.findings| + k] == added[k] && added[k].status.Open?
  {
    hide OffersFor;
    forall k | 0 <= k < |added| ensures added[k].status.Open? {
      assert AddedFinding(run, events, cycle, added[k]);
    }
  }

  lemma RecoveredSteady(lex: Lexicon, before: Disk, files: Files, after: Disk, now: Files, runId: Id)
    requires Steady(lex, before, files, runId) && before.snapshots[runId].status.Remediating?
    requires Framed(before, after, runId, None) && Good(after, now, runId) && GrownOn(before, after, runId)
    ensures Steady(lex, after, now, runId) && after.snapshots == before.snapshots
    ensures runId in after.runs && runId in before.runs && after.runs[runId].runId == before.runs[runId].runId
    ensures Grown(before.runs[runId], after.runs[runId])
  {
    hide Steady, Good, Follows, SameBindings;
    FramedSteady(lex, before, files, after, now, runId, None);
  }

  lemma FailureEnters(lex: Lexicon, d: Disk, files: Files, state: RunStateSnapshot)
    requires Steady(lex, d, files, state.runId) && d.snapshots[state.runId] == state && state.status.Remediating?
    requires NoneOpen(Events(d, state.runId))
    ensures var next := Transition(state, RunStatus.Failed, NoGuard);
            next.Some? && next.value == state.(status := RunStatus.Failed) && Enterable(lex, d, files, next.value)
  {
    hide Steady, RunOk, BackedOk, Good, Settled, StatusOk, DecisionsOk, Enterable, NoneOpen, Fresh, UpTo;
    SteadyHas(lex, d, files, state.runId);
    StatusSound(lex, state, d.runs[state.runId], Events(d, state.runId));
    EnterStatus(lex, d, files, state, RunStatus.Failed, NoGuard);
  }

  lemma TerminalHasNoneOpen(lex: Lexicon, s: RunStateSnapshot, run: RuntimeRun, events: seq<LedgerEvent>)
    requires StatusOk(lex, s, run, events) && IsTerminal(s.status)
    ensures NoneOpen(events)
  {}

  lemma ReconcileSame(s: RunStateSnapshot, run: RuntimeRun, events: seq<LedgerEvent>)
    ensures Admits(s, run) ==> Admits(s, Reconcile(run, events))
    ensures Reconcile(run, events).decisionRequests == run.decisionRequests
  {}

  lemma SameDeliverable(lex: Lexicon, run: RuntimeRun, events: seq<LedgerEvent>, cycle: nat, files: Files)
    ensures var counted := Reconcile(run, events);
            TerminalOf(lex, counted, cycle, OriginalsIntact(counted, files)) ==
              TerminalOf(lex, run, cycle, OriginalsIntact(run, files))
  {
    hide CompletedCount, PredicateFacts;
  }

  lemma {:induction false} DiagnosisOffers(run: RuntimeRun, items: seq<Item>)
    requires RunOk(run) && Accepts(run, items)
    ensures AllOffered(run, Applieds(run, items))
    ensures Escalated(run, items).Some? ==>
              OffersOpen(run.findings, Escalated(run, items).value) && Escalated(run, items).value.tier == 2
  {
    AppliedsOffered(run, items);
  }

  predicate IsCompletion(event: LedgerEvent, events: seq<LedgerEvent>, authorized: bool) {
    && event.payload.ActionCompleted? && FindStart(events, event.payload.actionId).Some?
    && events[FindStart(events, event.payload.actionId).value].payload.authorizationId.Some? == authorized
  }

  function CompletedCount(prefix: seq<LedgerEvent>, events: seq<LedgerEvent>, authorized: bool): nat {
    if prefix == [] then 0
    else
      var last := prefix[|prefix| - 1];
      CompletedCount(prefix[..|prefix| - 1], events, authorized)
      + if IsCompletion(last, events, authorized) then 1 else 0
  }

  /** `_reconcile_remediation_counts`. */
  function Reconcile(run: RuntimeRun, events: seq<LedgerEvent>): (r: RuntimeRun)
    ensures Annotates(run, r) && r.decisionRequests == run.decisionRequests && r.decisions == run.decisions
      && r.findings == run.findings
  {
    run.(autonomousRemediations := CompletedCount(events, events, false),
         authorizedRemediations := CompletedCount(events, events, true))
  }

  /** The places of the completions, those that spent an authorization or those that did not. */
  function CompletionPlaces(events: seq<LedgerEvent>, authorized: bool): set<int> {
    set p | 0 <= p < |events| && events[p].payload.ActionCompleted?
            && exists s :: 0 <= s < |events| && Starts(events[s], events[p].payload.actionId)
                           && events[s].payload.authorizationId.Some? == authorized
  }

  /** The counters of a run are its completed actions: autonomous the ones that needed no
      authorization, authorized the ones that spent one. */
  lemma CountersAre(run: RuntimeRun, events: seq<LedgerEvent>)
    requires Once(events)
    ensures var r := Reconcile(run, events);
            && r.autonomousRemediations == |CompletionPlaces(events, false)|
            && r.authorizedRemediations == |CompletionPlaces(events, true)|
  {
    hide CompletedCount, CompletionPlaces;
    CompletedAre(events, false);
    CompletedAre(events, true);
  }

  /** They are right from the start: the first record counts what a ledger without actions holds. */
  lemma FirstCounters(items: seq<PackageItem>, runId: Id, events: seq<LedgerEvent>)
    requires AllPresent(items) && forall i :: 0 <= i < |events| ==> !events[i].payload.ActionCompleted?
    ensures Reconcile(FirstRecord(runId, items), events) == FirstRecord(runId, items)
  {
    NothingCompleted(events, events, false);
    NothingCompleted(events, events, true);
  }

  lemma {:induction false} NothingCompleted(prefix: seq<LedgerEvent>, events: seq<LedgerEvent>, authorized: bool)
    requires forall i :: 0 <= i < |prefix| ==> !prefix[i].payload.ActionCompleted?
    ensures CompletedCount(prefix, events, authorized) == 0
  {
    if prefix != [] {
      NothingCompleted(prefix[..|prefix| - 1], events, authorized);
    }
  }

  lemma {:induction false} CompletedAre(events: seq<LedgerEvent>, authorized: bool)
    requires Once(events)
    ensures CompletedCount(events, events, authorized) == |CompletionPlaces(events, authorized)|
  {
    hide CompletedCount;
    var test := (event: LedgerEvent) => IsCompletion(event, events, authorized);
    CompletedUpTo(events, events, authorized, test);
    forall p | 0 <= p < |events| ensures test(events[p]) <==> p in CompletionPlaces(events, authorized) {
      if events[p].payload.ActionCompleted? {
        var start := FindStart(events, events[p].payload.actionId);
        forall s | 0 <= s < |events| && Starts(events[s], events[p].payload.actionId)
          ensures start.Some? && start.value == s
        {
          assert StartCount(events, events[p].payload.actionId) <= 1;
          OneStart(events, s, start.value);
        }
      }
    }
    assert Places(events, test) == CompletionPlaces(events, authorized);
  }

  lemma {:induction false} CompletedUpTo(prefix: seq<LedgerEvent>, events: seq<LedgerEvent>, authorized: bool,
                                         test: LedgerEvent -> bool)
    requires forall event :: event in prefix ==> test(event) == IsCompletion(event, events, authorized)
    ensures CompletedCount(prefix, events, authorized) == |Places(prefix, test)|
  {
    if prefix == [] {
      assert Places(prefix, test) == {};
    } else {
      var last := |prefix| - 1;
      CompletedUpTo(prefix[..last], events, authorized, test);
      PlacesAppend(prefix[..last], prefix[last], test);
      assert prefix == prefix[..last] + [prefix[last]];
    }
  }

  lemma FindingsHave(lex: Lexicon, s: RunStateSnapshot, run: RuntimeRun, events: seq<LedgerEvent>)
    requires StatusOk(lex, s, run, events) && s.status.FindingsReady?
    ensures NoneOpen(events) && Fresh(run.measurements, s.cycle) && UpTo(run, s.cycle) && s.pendingDecisionId.None?
      && s.cycle <= MAX_CYCLES
    ensures Selectable(run, s.cycle) && s.terminalVerdict.None?
  {}

  lemma RunParts(run: RuntimeRun)
    requires RunOk(run)
    ensures OptionsOk(run) && FindingsNamed(run.findings) && HashesOk(run)
  {}

  lemma FaultHalts(run: RuntimeRun)
    ensures Halts(IoError, run)
  {}

  lemma HaltsSame(run: RuntimeRun, updated: RuntimeRun)
    requires updated.runId == run.runId && updated.requirements == run.requirements
      && updated.checkOrder == run.checkOrder
    ensures forall error :: Halts(error, run) <==> Halts(error, updated)
  {
    hide CheckOk;
    assert OrderedIds(updated) == OrderedIds(run);
    forall id ensures CheckOk(run, id) == CheckOk(updated, id) { SameCheck(run, updated, id); }
  }

  lemma SameCheck(run: RuntimeRun, updated: RuntimeRun, id: Id)
    requires updated.runId == run.runId && updated.requirements == run.requirements
    ensures CheckOk(run, id) == CheckOk(updated, id)
  {}

  lemma HaltsExtended(before: Disk, after: Disk, runId: Id)
    requires Extends(before, after, runId)
    ensures runId in before.runs && runId in after.runs
    ensures forall error :: Halts(error, before.runs[runId]) <==> Halts(error, after.runs[runId])
  {
    hide Halts;
    HaltsSame(before.runs[runId], after.runs[runId]);
  }

  lemma RunInspectable(run: RuntimeRun)
    requires RunOk(run) && AssetsOk(run.assets)
    ensures HashesOk(run) && CurrentAssets(run) != []
  {
    hide OptionsOk, HashesOk, MeasuresOk, AssetsOk, CurrentAssets;
    var i :| 0 <= i < |run.assets| && !run.assets[i].asset.protection.Original?;
    CurrentNonEmpty(run, run.assets[i]);
  }

  /** What one check of the order is refused for, if anything. */
  lemma CheckRefused(run: RuntimeRun, i: nat, cycle: nat, events: seq<LedgerEvent>)
    requires i < |OrderedIds(run)| && CurrentAssets(run) != []
    ensures var requirement := FindRequirement(run.requirements, OrderedIds(run)[i]);
            && (requirement.None? ==> !Examinable(run))
            && (requirement.Some? ==>
                  && TargetOf(run, requirement.value).Some?
                  && (RemedyValid(requirement.value) ==> OffersFor(run, events, cycle, OrderedIds(run)[i]).Done?)
                  && (requirement.value.tool.Some? && requirement.value.constraint.Some? && Examinable(run) ==>
                        && requirement.value.key.Some? && RemedyValid(requirement.value)
                        && InspectionInput(run.runId, requirement.value.tool.value, WorkingAsset(0),
                          requirement.value.stream).Some?))
  {
    hide InspectionInput, RemedyValid, OptionsFor, FailureCount, CurrentAssets;
    var id := OrderedIds(run)[i];
    var requirement := FindRequirement(run.requirements, id);
    assert Examinable(run) ==> CheckOk(run, id);
    if requirement.Some? && RemedyValid(requirement.value) {
      RemedyValidAnywhere(run.runId, requirement.value, FindingId(id, cycle, false),
        TargetOf(run, requirement.value).value.asset.assetId,
                          FailureCount(run, events, events, id));
    }
  }

  lemma InspectionInputSame(runId: Id, tool: Tool, target: AssetId, stream: Option<string>)
    ensures InspectionInput(runId, tool, target, stream).Some? <==>
      InspectionInput(runId, tool, WorkingAsset(0), stream).Some?
  {}

  lemma InspectedKeepsRecord(run: RuntimeRun, batch: seq<Measurement>, added: seq<RuntimeFinding>)
    ensures KeepsRecord(run, InspectedRun(run, batch, added))
  {}

  lemma IntactStays(run: RuntimeRun, updated: RuntimeRun, files: Files)
    requires updated.assets == run.assets && updated.originalHashes == run.originalHashes
    ensures OriginalsIntact(updated, files) == OriginalsIntact(run, files)
  {}

  /** The conditions of a status, over those of the one before it. */
  predicate Reaches(lex: Lexicon, d: Disk, t: RunStateSnapshot) {
    && t.runId in d.runs
    && var run, events := d.runs[t.runId], Events(d, t.runId);
       && NoneOpen(events)
       && (t.status.Remediating? || t.status.AwaitingHumanDecision? ==> t.cycle < MAX_CYCLES)
       && (Inspected(t.status) ==> Fresh(run.measurements, t.cycle))
       && (t.status.FindingsReady? || t.status.AwaitingHumanDecision? ==> Selectable(run, t.cycle))
       && (t.terminalVerdict.Some? ==> t.terminalVerdict == Compute(TerminalOf(lex, run, t.cycle, true)))
       && (t.pendingDecisionId.Some? ==>
             && t.pendingDecisionId.value in d.decisions && Unspent(events, d.authorizations, t.pendingDecisionId.value)
             && Awaits(t, d.decisions[t.pendingDecisionId.value], run))
  }

  lemma ReachesStatusOk(lex: Lexicon, d: Disk, files: Files, state: RunStateSnapshot, t: RunStateSnapshot)
    requires t.runId in d.runs && StatusOk(lex, state, d.runs[t.runId], Events(d, t.runId)) && Sound(t)
      && state.cycle <= t.cycle
    requires DecisionsOk(d, state, Events(d, t.runId)) && Reaches(lex, d, t)
    requires GrantsOk(Events(d, t.runId), d.authorizations, d.runs[t.runId], t)
      && ManifestOk(t.status, d.runs[t.runId], files)
    ensures Enterable(lex, d, files, t)
  {
    hide Sound, Fresh, NoneOpen, Compute, TerminalOf, Unspent, Events, Awaits, GrantsOk, ManifestOk, Selectable;
  }

  /** Time only makes more options past. */
  lemma LaterGrants(events: seq<LedgerEvent>, authorizations: map<Id, Authorization>, run: RuntimeRun,
                    s: RunStateSnapshot, t: RunStateSnapshot)
    requires GrantsOk(events, authorizations, run, s) && s.cycle <= t.cycle
    requires s.status.Remediating? || s.status.Failed? ==>
      t.cycle > s.cycle || t.status.Remediating? || t.status.Failed?
    ensures GrantsOk(events, authorizations, run, t)
  {
    hide Spends, SpentOn;
    forall i | 0 <= i < |events| && Spends(events[i], authorizations)
      ensures Granted(SpentOn(events[i], authorizations), run, t)
    {
      assert Granted(SpentOn(events[i], authorizations), run, s);
    }
  }

  lemma StatusSound(lex: Lexicon, s: RunStateSnapshot, run: RuntimeRun, events: seq<LedgerEvent>)
    requires StatusOk(lex, s, run, events)
    ensures Sound(s) && UpTo(run, s.cycle) && (s.status.Remediating? ==> s.cycle < MAX_CYCLES)
    ensures s.status.Remediating? || s.status.FindingsReady? ==> Fresh(run.measurements, s.cycle)
    ensures s.pendingDecisionId.Some? <==> s.status.AwaitingHumanDecision?
    ensures s.terminalVerdict.Some? ==> s.status.DeliveryReady? || s.status.Blocked?
  {}

  /** A status may be entered when its own conditions hold. */
  lemma EnterStatus(lex: Lexicon, d: Disk, files: Files, state: RunStateSnapshot, target: RunStatus, guard: Guard)
    requires Steady(lex, d, files, state.runId) && d.snapshots[state.runId] == state
    requires Transition(state, target, guard).Some? && Reaches(lex, d, Transition(state, target, guard).value)
    requires state.status.Remediating? && target.Inspecting? ==> ManifestKept(d.runs[state.runId], files)
    ensures Enterable(lex, d, files, Transition(state, target, guard).value)
    ensures Transition(state, target, guard).value.runId == state.runId
    ensures Transition(state, target, guard).value.status == target
  {
    hide Steady, RunOk, BackedOk, Good, Settled, StatusOk, DecisionsOk, CheckGuard, Sound, Reaches, Enterable, GrantsOk,
         ManifestKept;
    SteadyHas(lex, d, files, state.runId);
    StatusSound(lex, state, d.runs[state.runId], Events(d, state.runId));
    TransitionKeepsSound(state, target, guard);
    var t := Transition(state, target, guard).value;
    ReachesRun(lex, d, t);
    DecisionsGrant(d, state, Events(d, state.runId));
    LaterGrants(Events(d, state.runId), d.authorizations, d.runs[state.runId], state, t);
    ReachesStatusOk(lex, d, files, state, t);
  }

  lemma ReachesRun(lex: Lexicon, d: Disk, t: RunStateSnapshot)
    requires Reaches(lex, d, t)
    ensures t.runId in d.runs
  {}

  lemma NextCycleGuard(state: RunStateSnapshot)
    requires state.status.Remediating? && state.cycle < MAX_CYCLES
    ensures var next := Transition(state, Inspecting, RemediationCompleted(state.runId, state.cycle + 1));
            next.Some? && next.value == state.(status := Inspecting, cycle := state.cycle + 1)
  {}

  /** The cycle guard never refuses. */
  lemma NextCycle(lex: Lexicon, d: Disk, files: Files, state: RunStateSnapshot)
    requires Steady(lex, d, files, state.runId) && d.snapshots[state.runId] == state && state.status.Remediating?
    requires NoneOpen(Events(d, state.runId)) && ManifestKept(d.runs[state.runId], files)
    ensures var next := Transition(state, Inspecting, RemediationCompleted(state.runId, state.cycle + 1));
            && next.Some? && next.value.status.Inspecting? && next.value.cycle == state.cycle + 1
            && Enterable(lex, d, files, next.value)
    ensures state.runId in d.runs && Uninspected(d.runs[state.runId], state.cycle + 1)
  {
    hide Steady, RunOk, BackedOk, Good, Settled, StatusOk, DecisionsOk, Transition, Sound, Enterable, NoneOpen;
    SteadyHas(lex, d, files, state.runId);
    StatusSound(lex, state, d.runs[state.runId], Events(d, state.runId));
    NextCycleGuard(state);
    EnterStatus(lex, d, files, state, Inspecting, RemediationCompleted(state.runId, state.cycle + 1));
  }

  lemma VerdictMoves(state: RunStateSnapshot, verdict: TerminalVerdict)
    requires state.status.FindingsReady? && verdict.runId == state.runId && verdict.cycle == state.cycle
    ensures var target := if verdict.outcome.ReadyOutcome? then DeliveryReady else Blocked;
            var next := Transition(state, target, VerdictGuard(verdict));
            next.Some? && next.value == state.(status := target, terminalVerdict := Some(verdict))
  {}

  lemma VerdictOf(input: TerminalInput, verdict: TerminalVerdict)
    requires Compute(input) == Some(verdict)
    ensures verdict.runId == input.runId && verdict.cycle == input.cycle
    ensures verdict.outcome.ReadyOutcome? <==> Deliverable(input)
  {
    ReadyIffDeliverable(input);
  }

  /** A verdict always has its transition. */
  lemma VerdictEnters(lex: Lexicon, d: Disk, files: Files, state: RunStateSnapshot, verdict: TerminalVerdict)
    requires Steady(lex, d, files, state.runId) && d.snapshots[state.runId] == state && state.status.FindingsReady?
    requires var run := d.runs[state.runId];
             Compute(TerminalOf(lex, run, state.cycle, OriginalsIntact(run, files))) == Some(verdict)
    ensures var target := if verdict.outcome.ReadyOutcome? then DeliveryReady else Blocked;
            var next := Transition(state, target, VerdictGuard(verdict));
            && next.Some? && next.value == state.(status := target, terminalVerdict := Some(verdict))
            && Enterable(lex, d, files, next.value)
  {
    hide Steady, RunOk, BackedOk, Good, Settled, StatusOk, DecisionsOk, Transition, Sound, Enterable, NoneOpen, Fresh,
         Deliverable, Compute, OriginalsIntact, UpTo;
    SteadyHas(lex, d, files, state.runId);
    OriginalsStayIntact(d, files, state.runId);
    FindingsHave(lex, state, d.runs[state.runId], Events(d, state.runId));
    VerdictOf(TerminalOf(lex, d.runs[state.runId], state.cycle, true), verdict);
    VerdictMoves(state, verdict);
    EnterStatus(lex, d, files, state, if verdict.outcome.ReadyOutcome? then DeliveryReady
      else Blocked, VerdictGuard(verdict));
  }

  /** With nothing pending, closing the open findings always yields a BLOCKED verdict. */
  lemma ClosingBlocks(lex: Lexicon, run: RuntimeRun, cycle: nat, intact: bool)
    requires Compute(TerminalOf(lex, run, cycle, intact)).None? && FirstPending(run.decisionRequests).None?
    ensures var closed := run.(findings := CloseFindings(run.findings));
            var verdict := Compute(TerminalOf(lex, closed, cycle, intact));
            verdict.Some? && verdict.value.outcome.BlockedOutcome?
  {
    var input := TerminalOf(lex, run, cycle, intact);
    forall i | 0 <= i < |input.decisions| ensures input.decisions[i] != Pending {
      assert !run.decisionRequests[i].status.Pending?;
    }
    var closed := run.(findings := CloseFindings(run.findings));
    assert TerminalOf(lex, closed, cycle, intact) == input.(findings := CloseOpen(input.findings));
    hide Compute;
    ClosingYieldsBlocked(input);
  }

  lemma AnnotatedStatusOk(lex: Lexicon, s: RunStateSnapshot, run: RuntimeRun, updated: RuntimeRun,
                          events: seq<LedgerEvent>)
    requires StatusOk(lex, s, run, events) && Annotates(run, updated) && (forall cycle :: UpTo(run, cycle) ==>
      UpTo(updated, cycle))
    requires s.terminalVerdict.Some? ==>
      updated.decisionRequests == run.decisionRequests && updated.findings == run.findings
    ensures StatusOk(lex, s, updated, events)
  {
    hide Trims, UpTo, Fresh, NoneOpen, Sound, PredicateFacts, Latest, Compute, Selectable;
    if s.terminalVerdict.Some? {
      assert TerminalOf(lex, run, s.cycle, true) == TerminalOf(lex, updated, s.cycle, true);
    }
    if Selectable(run, s.cycle) {
      TrimmedSelectable(run, updated, s.cycle);
    }
  }

  lemma AnnotatedSavable(lex: Lexicon, d: Disk, files: Files, s: RunStateSnapshot, updated: RuntimeRun)
    requires Steady(lex, d, files, s.runId) && d.snapshots[s.runId] == s && !s.status.AwaitingHumanDecision?
    requires Annotates(d.runs[s.runId], updated) && NoneOpen(Events(d, s.runId))
      && Settles(s, d.runs[s.runId].findings, updated.findings)
    requires updated.decisionRequests == d.runs[s.runId].decisionRequests
      && updated.decisions == d.runs[s.runId].decisions
    ensures Savable(lex, d, files, s, updated) && KeepsRecord(d.runs[s.runId], updated)
  {
    hide RunOk, StatusOk, BackedOk, Good, Settled, Trims, DecisionsOk, GrantsOk, ManifestOk, NoneOpen, OptionsOk;
    SteadyHas(lex, d, files, s.runId);
    var run, events := d.runs[s.runId], Events(d, s.runId);
    RunIdIs(d, files, s.runId);
    StatusSound(lex, s, run, events);
    DecisionsGrant(d, s, events);
    RunParts(run);
    SettledGrants(events, d.authorizations, run, updated, s);
    NothingAwaited(d, s, s, events, updated);
    AnnotatedRunOk(run, updated);
    AnnotatedStatusOk(lex, s, run, updated, events);
    SameDecisionsBacked(events, d.authorizations, run, updated);
    SettledManifest(s, run, updated, files);
  }

  /** In a steady run that is not being remediated the runtime's manifest is up to date. */
  lemma ManifestStands(lex: Lexicon, d: Disk, files: Files, runId: Id)
    requires Steady(lex, d, files, runId)
    requires !d.snapshots[runId].status.Remediating? && !d.snapshots[runId].status.Failed?
    ensures ManifestKept(d.runs[runId], files)
  {
    SteadyHas(lex, d, files, runId);
    hide Steady, ManifestKept, RunOk, StatusOk, BackedOk, DecisionsOk, Good, AssetsOk, Loadable, Settled;
  }

  lemma SkipIsSound(d: Disk, files: Files, run: RuntimeRun, item: RuntimeAsset)
    requires Good(d, files, run.runId) && d.runs[run.runId] == run && NoneOpen(Events(d, run.runId))
    requires RuntimeManifest(run) == Some(item) && Intact(item, files)
    requires var events := Events(d, run.runId);
             var written := CompletionSeq(events, item.asset.createdByAction.value);
             written.None? || ChangedSeq(events, events) <= written.value
    ensures ManifestKept(run, files)
  {
    hide Consistent, Chain, ManifestLines, CompletionSeq, ChangedSeq, AuthorityOk, NoneOpen, RewriteFailed;
    IntactManifestCompleted(Events(d, run.runId), run, files, item);
    if MadeCurrent(run.assets, item) {
      ShortcutSound(Events(d, run.runId), run, files, item);
    }
  }

  lemma InvalidationSavable(lex: Lexicon, d: Disk, files: Files, s: RunStateSnapshot, requirementId: Id,
                            assetId: AssetId)
    requires Steady(lex, d, files, s.runId) && d.snapshots[s.runId] == s && s.status.Remediating?
      && NoneOpen(Events(d, s.runId))
    ensures var run, updated := d.runs[s.runId], WithInvalidation(d.runs[s.runId], requirementId, assetId, s.cycle);
            Savable(lex, d, files, s, updated) && KeepsRecord(run, updated) && RunOk(run) && UpTo(run, s.cycle)
              && run.runId == s.runId
  {
    hide RunOk, BackedOk, Good, Settled, UpTo, Fresh, Sound, NoneOpen, ManifestOption, Offers, DecisionsOk, GrantsOk,
         StatusOk, Steady;
    SteadyHas(lex, d, files, s.runId);
    RunIdIs(d, files, s.runId);
    StatusSound(lex, s, d.runs[s.runId], Events(d, s.runId));
    var run, updated, events := d.runs[s.runId], WithInvalidation(d.runs[s.runId], requirementId, assetId, s.cycle),
      Events(d, s.runId);
    InvalidatedRunOk(run, requirementId, assetId, s.cycle);
    DecisionsGrant(d, s, events);
    InvalidatedGrants(events, d.authorizations, run, updated, s);
    InvalidatedStatus(lex, s, run, updated, events);
    NothingAwaited(d, s, s, events, updated);
    SameDecisionsBacked(events, d.authorizations, run, updated);
  }

  lemma InvalidatedGrants(events: seq<LedgerEvent>, authorizations: map<Id, Authorization>, run: RuntimeRun,
                          updated: RuntimeRun, s: RunStateSnapshot)
    requires GrantsOk(events, authorizations, run, s) && run.findings <= updated.findings
    ensures GrantsOk(events, authorizations, updated, s)
  {
    hide Spends, SpentOn;
    forall i | 0 <= i < |events| && Spends(events[i], authorizations)
      ensures Granted(SpentOn(events[i], authorizations), updated, s)
    {
      var authorization := SpentOn(events[i], authorizations);
      assert Granted(authorization, run, s);
      var n, k :| 0 <= n < |run.findings| && 0 <= k < |run.findings[n].options|
        && run.findings[n].options[k].optionId == authorization.optionId
          && run.findings[n].options[k].argsHash == authorization.argsHash;
      assert updated.findings[n] == run.findings[n];
    }
  }

  lemma InvalidatedStatus(lex: Lexicon, s: RunStateSnapshot, run: RuntimeRun, updated: RuntimeRun,
                          events: seq<LedgerEvent>)
    requires StatusOk(lex, s, run, events) && s.status.Remediating? && UpTo(updated, s.cycle)
      && updated.measurements == run.measurements
    ensures StatusOk(lex, s, updated, events)
  {
    hide UpTo, Fresh, NoneOpen, TerminalOf, Compute;
  }

  /** A manifest write carries no authorization. */
  lemma ManifestOptionPlain(d: Disk, run: RuntimeRun, events: seq<LedgerEvent>, state: RunStateSnapshot,
                            requirementId: Id)
    ensures var option := ManifestOption(state.runId, requirementId, state.cycle);
            Backs(d, run, events, NewAction(state, option, CallOf(option, 0), events))
    ensures ManifestOption(state.runId, requirementId, state.cycle).tool.WriteChecksumManifest?
  {}

  /** A rewrite that went through: what is looked up is the manifest just written, where it is
      the only one. */
  lemma RewrittenKept(files: Files, run: RuntimeRun, option: RemediationOption, result: Remedied, closed: RuntimeRun)
    requires option.tool.WriteChecksumManifest? && result.newAssetId.Some?
    requires Concludes(files, run, option, result) && AssetsOk(result.run.assets)
    requires closed.assets == result.run.assets
    ensures ManifestKept(closed, files)
  {
    hide Fulfils, ManifestLines, AssetsOk, RewriteFailed;
    var actionId :| Describe(actionId, option, run).Some? &&
        var descriptor := Describe(actionId, option, run).value;
        && descriptor.path in files
        && var item := Successor(actionId, run, descriptor, files[descriptor.path]);
           && item.asset.assetId == result.newAssetId.value && result.run == WithAsset(run, item)
           && Fulfils(option, run, files, files[descriptor.path]);
    var item := Successor(actionId, run, Describe(actionId, option, run).value,
      files[Describe(actionId, option, run).value.path]);
    RewrittenManifestIsCurrent(actionId, option, run, files, item);
    assert CurrentAssets(closed) == CurrentAssets(result.run);
    hide Describe, CurrentAssets;
    if ManifestDue(closed, files) {
      SoleManifest(closed, item, RuntimeManifest(closed).value);
    }
  }

  lemma SoleManifest(run: RuntimeRun, item: RuntimeAsset, other: RuntimeAsset)
    requires |Manifests(run)| <= 1 && item in CurrentAssets(run) && item.asset.role.Manifest?
    requires other in CurrentAssets(run) && other.asset.role.Manifest?
    ensures item == other
  {
    hide CurrentAssets;
    assert item in Manifests(run) && other in Manifests(run);
  }

  function NewAction(state: RunStateSnapshot, option: RemediationOption, input: ToolInput, events: seq<LedgerEvent>)
      : Action {
    ActionFor(state, option, input, FreshActionId(events), "SYSTEM")
  }

  /** A content-affecting action comes with an unspent approval of a human. */
  predicate Backs(d: Disk, run: RuntimeRun, events: seq<LedgerEvent>, action: Action) {
    && StarterBacked(d, run, events, Some(action))
    && (TierOf(action.tool) == Some(ContentAffecting) ==> Usable(d, action))
  }

  /** What the orchestrator relies on of a concluded action: on success the run gained exactly
      the described output, which is there and is what the tool must make. */
  ghost predicate Concludes(files: Files, run: RuntimeRun, option: RemediationOption, result: Remedied) {
    match result.newAssetId
    case None => result.run == run
    case Some(assetId) =>
      exists actionId :: Describe(actionId, option, run).Some? &&
        var descriptor := Describe(actionId, option, run).value;
        && descriptor.path in files
        && var item := Successor(actionId, run, descriptor, files[descriptor.path]);
           && item.asset.assetId == assetId && result.run == WithAsset(run, item)
           && Fulfils(option, run, files, files[descriptor.path])
  }

  lemma ExecutedConcludes(before: Disk, after: Disk, files: Files, run: RuntimeRun, option: RemediationOption,
                          action: Action, result: Remedied, startId: Id, closeId: Id)
    requires Describable(before, action, option) && before.runs[action.runId] == run
    requires Executed(before, after, files, action, option, result, startId, closeId)
    ensures Concludes(files, run, option, result)
    ensures action.runId in after.runs && after.runs[action.runId] == result.run
      && NoneOpen(Events(after, action.runId))
    ensures after.snapshots == before.snapshots && Framed(before, after, action.runId, Some(action))
    ensures result.newAssetId.None? && !HasStart(Events(before, action.runId), action.actionId) ==>
              FailedAttempt(Events(before, action.runId), Events(after, action.runId))
  {
    hide Fulfils, NamedFor, Describe, NoneOpen, Follows, Head;
  }

  /** With a fresh name and its approval, nothing but a fault stops an action. */
  lemma {:induction false} BacksCanStart(d: Disk, run: RuntimeRun, events: seq<LedgerEvent>, action: Action)
    requires Backs(d, run, events, action) && d.actionJournals == map[] && events == Events(d, action.runId)
    requires action.actionId == FreshActionId(events)
    ensures CanStart(d, action) && !HasStart(events, action.actionId)
  {
    hide StarterBacked, UsableIn;
  }

  lemma OthersUntouched(d: Disk, files: Files, now: Files, action: Action, option: RemediationOption)
    requires Executor.Ready(d, files, action, option) && OnlyScratch(files, now, action.actionId)
    ensures SameAssetFiles(d.runs[action.runId], files, now)
  {
    hide Chain, NoneOpen, OnlyScratch, ScratchOf;
    FreshIsUnrecorded(d, files, action, option);
    var run := d.runs[action.runId];
    forall item | item in run.assets
      ensures (item.path in now <==> item.path in files) && (item.path in files ==> now[item.path] == files[item.path])
    {
      OtherAssetsKept(run.assets, files, now, action.actionId, item);
    }
  }

  lemma ActionReady(lex: Lexicon, d: Disk, files: Files, runId: Id, state: RunStateSnapshot, option: RemediationOption,
                    input: ToolInput)
    requires Steady(lex, d, files, runId) && d.snapshots[runId] == state && NoneOpen(Events(d, runId))
    requires Offers(d.runs[runId].findings, option)
    ensures var action := NewAction(state, option, input, Events(d, runId));
            Executor.Ready(d, files, action, option) && Describable(d, action, option)
  {
    SteadyHas(lex, d, files, runId);
    hide Good, Settled, StatusOk, BackedOk, HashesOk, MeasuresOk, NoneOpen;
    var run, events := d.runs[runId], Events(d, runId);
    UniqueOption(run, option);
    var i :| 0 <= i < |run.findings| && option in run.findings[i].options;
    OptionDescribable(option, run, FreshActionId(events));
  }

  /** Wherever an execution ends, the run can be restarted from there. */
  lemma LeftRestartable(lex: Lexicon, before: Disk, files: Files, after: Disk, now: Files, runId: Id, action: Action,
                        option: RemediationOption)
    requires Steady(lex, before, files, runId) && before.snapshots[runId].status.Remediating? && action.runId == runId
    requires Executor.Ready(before, files, action, option) && Describable(before, action, option)
    requires Backs(before, before.runs[runId], Events(before, runId), action)
    requires Good(after, now, runId) && LeftBy(before, after, action) && GrownOn(before, after, runId)
    requires now == files || Framed(before, after, runId, Some(action))
    ensures Restartable(lex, after, now, runId)
    ensures Framed(before, after, runId, Some(action)) ==> Steady(lex, after, now, runId)
  {
    hide Good, Steady, Framed, GrownOn, Usable, BackedOk, Executor.Ready, Describable, ActionInterrupted, StarterBacked;
    if Framed(before, after, runId, Some(action)) {
      FramedSteady(lex, before, files, after, now, runId, Some(action));
    } else {
      StartedPending(lex, before, files, after, runId, action, option);
    }
  }

  lemma StartedPending(lex: Lexicon, before: Disk, files: Files, after: Disk, runId: Id, action: Action,
                       option: RemediationOption)
    requires Steady(lex, before, files, runId) && before.snapshots[runId].status.Remediating? && action.runId == runId
    requires Executor.Ready(before, files, action, option) && Describable(before, action, option)
    requires TierOf(action.tool) == Some(ContentAffecting) && Usable(before, action)
    requires StarterBacked(before, before.runs[runId], Events(before, runId), Some(action))
    requires ActionInterrupted(before, after, action)
    ensures Restartable(lex, after, files, runId)
  {
    hide Steady, Good, Framed, Usable, StarterBacked, ActionInterrupted, Opened, Consistent;
    assert !HasStart(Events(before, runId), action.actionId)
      && runId in before.runs by { ReadyFresh(before, files, action, option); }
    forall eventId ensures Steady(lex, Opened(before, action, eventId), files, runId) {
      OpenedSteady(lex, before, files, runId, action, option, eventId);
    }
    assert PendingStart(lex, before, after, files, runId, action);
  }

  lemma ReadyFresh(d: Disk, files: Files, action: Action, option: RemediationOption)
    requires Executor.Ready(d, files, action, option)
    ensures !HasStart(Events(d, action.runId), action.actionId) && action.runId in d.runs
  {}

  lemma OpenedSteady(lex: Lexicon, before: Disk, files: Files, runId: Id, action: Action, option: RemediationOption,
                     eventId: Id)
    requires Steady(lex, before, files, runId) && before.snapshots[runId].status.Remediating? && action.runId == runId
    requires Executor.Ready(before, files, action, option) && Describable(before, action, option)
    requires TierOf(action.tool) == Some(ContentAffecting) && Usable(before, action)
    requires StarterBacked(before, before.runs[runId], Events(before, runId), Some(action))
    ensures Steady(lex, Opened(before, action, eventId), files, runId)
  {
    hide Steady, Good, Framed, Usable, StarterBacked, Executor.Ready, Describable, OpenAt;
    ReadyFresh(before, files, action, option);
    AuthorizedStart(before, files, action, option, eventId);
    GrownSame(before, runId);
    FramedSteady(lex, before, files, Opened(before, action, eventId), files, runId, Some(action));
  }

  /** The inspected run may be saved, and then the findings are ready. */
  lemma InspectionSavable(lex: Lexicon, d: Disk, files: Files, state: RunStateSnapshot, batch: seq<Measurement>,
                          added: seq<RuntimeFinding>)
    requires Steady(lex, d, files, state.runId) && d.snapshots[state.runId] == state && state.status.Inspecting?
    requires Uninspected(d.runs[state.runId], state.cycle)
    requires IsInspection(d.runs[state.runId], Events(d, state.runId), state.cycle, |OrderedIds(d.runs[state.runId])|,
      batch, added)
    ensures var run, updated := d.runs[state.runId], InspectedRun(d.runs[state.runId], batch, added);
            var saved := d.(runs := d.runs[state.runId := updated]);
            var ready := Transition(state, FindingsReady, NoGuard);
            && updated.decisionRequests == run.decisionRequests && Savable(lex, d, files, state, updated)
            && ready.Some? && ready.value == state.(status := FindingsReady)
              && Enterable(lex, saved, files, ready.value)
  {
    hide Steady, RunOk, IsInspection, Good, Settled, Fresh, UpTo, NoneOpen, Uninspected, StatusOk, BackedOk, Transition,
         Events, DecisionsOk, GrantsOk, ManifestKept, Selectable;
    SteadyHas(lex, d, files, state.runId);
    var run, events := d.runs[state.runId], Events(d, state.runId);
    var updated := InspectedRun(run, batch, added);
    RunIdIs(d, files, state.runId);
    StatusSound(lex, state, run, events);
    InspectedRunOk(run, events, state.cycle, batch, added);
    InspectedReady(run, events, state.cycle, batch, added, files);
    DecisionsGrant(d, state, events);
    KeptGrants(events, d.authorizations, run, updated, state);
    NothingAwaited(d, state, state, events, updated);
    LaterGrants(events, d.authorizations, updated, state, state.(status := FindingsReady));
    NothingAwaited(d, state, state.(status := FindingsReady), events, updated);
    SameDecisionsBacked(events, d.authorizations, run, updated);
    StatusInspected(lex, state, run, updated, events);
    EventsOfRuns(d, d.(runs := d.runs[state.runId := updated]), state.runId);
  }

  lemma InspectedReady(run: RuntimeRun, events: seq<LedgerEvent>, cycle: nat, batch: seq<Measurement>,
                       added: seq<RuntimeFinding>, files: Files)
    requires RunOk(run) && Uninspected(run, cycle) && IsInspection(run, events, cycle, |OrderedIds(run)|, batch, added)
    ensures Selectable(InspectedRun(run, batch, added), cycle)
    ensures ManifestKept(run, files) ==> ManifestKept(InspectedRun(run, batch, added), files)
    ensures forall optionId, argsHash :: HoldsOption(run, optionId, argsHash) ==>
      HoldsOption(InspectedRun(run, batch, added), optionId, argsHash)
  {
    hide OptionsOk, HashesOk, MeasuresOk, ManifestKept, HoldsOption, OffersFor, Selectable, InspectedRun;
    InspectedSelectable(run, events, cycle, batch, added);
    forall k | 0 <= k < |added| ensures !added[k].findingId.invalidation {
      assert AddedFinding(run, events, cycle, added[k]);
    }
    InspectedKeeps(run, batch, added, files);
  }

  lemma KeptGrants(events: seq<LedgerEvent>, authorizations: map<Id, Authorization>, run: RuntimeRun,
                   updated: RuntimeRun, s: RunStateSnapshot)
    requires GrantsOk(events, authorizations, run, s)
    requires forall optionId, argsHash :: HoldsOption(run, optionId, argsHash) ==>
      HoldsOption(updated, optionId, argsHash)
    ensures GrantsOk(events, authorizations, updated, s)
  {
    hide Spends, SpentOn, HoldsOption;
    forall i | 0 <= i < |events| && Spends(events[i], authorizations)
      ensures Granted(SpentOn(events[i], authorizations), updated, s)
    {
      assert Granted(SpentOn(events[i], authorizations), run, s);
    }
  }

  lemma EventsOfRuns(d: Disk, after: Disk, runId: Id)
    requires after.ledgers == d.ledgers
    ensures Events(after, runId) == Events(d, runId)
  {}

  lemma StatusInspected(lex: Lexicon, state: RunStateSnapshot, run: RuntimeRun, updated: RuntimeRun,
                        events: seq<LedgerEvent>)
    requires StatusOk(lex, state, run, events) && state.status.Inspecting?
    requires UpTo(updated, state.cycle) && Fresh(updated.measurements, state.cycle) && Selectable(updated, state.cycle)
    ensures NoneOpen(events) && StatusOk(lex, state, updated, events) && state.pendingDecisionId.None?
    ensures var ready := Transition(state, FindingsReady, NoGuard);
            ready.Some? && ready.value == state.(status := FindingsReady) && StatusOk(lex, ready.value, updated, events)
  {
    hide Fresh, UpTo, NoneOpen, TerminalOf, Compute, Selectable;
    TransitionKeepsSound(state, FindingsReady, NoGuard);
  }

  lemma SameDecisionsBacked(events: seq<LedgerEvent>, authorizations: map<Id, Authorization>, run: RuntimeRun,
                            updated: RuntimeRun)
    requires BackedOk(events, authorizations, run)
    requires updated.decisions == run.decisions && updated.decisionRequests == run.decisionRequests
    ensures BackedOk(events, authorizations, updated)
  {
    hide Spends, SpentOn;
    forall id, option | ApprovedIn(run, id, option) ensures ApprovedIn(updated, id, option) {}
  }

  lemma CommitRestartable(lex: Lexicon, before: Disk, after: Disk, files: Files, runId: Id, j: TransitionJournal)
    requires Steady(lex, before, files, runId) && CommitOk(before, j.snapshot, j.event) && j.event.runId == runId
    requires Steady(lex, Committed(before, j.snapshot, j.event), files, runId)
    requires after == before || after == Committed(before, j.snapshot, j.event) || Interrupted(before, after, j)
    ensures Restartable(lex, after, files, runId)
  {
    hide Steady, CommitOk;
    if after != before && after != Committed(before, j.snapshot, j.event) {
      assert PendingCommit(lex, before, after, files, runId, j);
    }
  }

  lemma CommitLeft(lex: Lexicon, before: Disk, left: Disk, files: Files, runId: Id, j: TransitionJournal)
    requires PendingCommit(lex, before, left, files, runId, j)
    ensures left.actionJournals == map[] && left.transitionJournals == map[j.event.eventId := j]
    ensures j.event.eventId in left.transitionJournals && left.transitionJournals.Keys == {j.event.eventId}
    ensures ActionsKeyed(left) && TransitionsKeyed(left)
    ensures !Steady(lex, left, files, runId)
  {
    hide Steady, CommitOk, Interrupted, Committed, Settled, Good, RunOk, StatusOk, DecisionsOk, Loadable;
    SteadyHas(lex, before, files, runId);
    CommitJournals(before, left, j);
    if Steady(lex, left, files, runId) {
      SteadyHas(lex, left, files, runId);
    }
  }

  lemma PendingCommitOf(lex: Lexicon, before: Disk, left: Disk, files: Files, runId: Id, j: TransitionJournal)
    requires PendingCommit(lex, before, left, files, runId, j)
    ensures j.event.runId == runId
  {}

  lemma PendingStartOf(lex: Lexicon, before: Disk, left: Disk, files: Files, runId: Id, action: Action)
    requires PendingStart(lex, before, left, files, runId, action)
    ensures action.runId == runId
  {}

  lemma StartLeft(lex: Lexicon, before: Disk, left: Disk, files: Files, runId: Id, action: Action)
    requires PendingStart(lex, before, left, files, runId, action)
    ensures left.transitionJournals == map[] && left.actionJournals == map[action.actionId := action]
    ensures action.actionId in left.actionJournals && left.actionJournals.Keys == {action.actionId}
    ensures ActionsKeyed(left) && TransitionsKeyed(left)
    ensures !Steady(lex, left, files, runId)
  {
    hide Steady, Usable, ActionInterrupted, BegunBy, Opened, Spent, Begun, HasStart, StartCount, Settled, Good, RunOk,
         StatusOk;
    SteadyHas(lex, before, files, runId);
    ActionRedoIsStable(before, left, action, 0);
    JournalsTell(before, left, action);
    if Steady(lex, left, files, runId) {
      SteadyHas(lex, left, files, runId);
    }
  }

  lemma LeftKeyed(lex: Lexicon, left: Disk, files: Files, runId: Id)
    requires Restartable(lex, left, files, runId)
    ensures ActionsKeyed(left) && TransitionsKeyed(left)
  {
    hide Steady, PendingCommit, PendingStart, RunOk, StatusOk, BackedOk, DecisionsOk, Good, ManifestOk, Settled,
         AssetsOk, Loadable;
    if Steady(lex, left, files, runId) {
      SteadyHas(lex, left, files, runId);
    } else if exists before, j :: PendingCommit(lex, before, left, files, runId, j) {
      var before, j :| PendingCommit(lex, before, left, files, runId, j);
      CommitLeft(lex, before, left, files, runId, j);
    } else {
      var before, action :| PendingStart(lex, before, left, files, runId, action);
      StartLeft(lex, before, left, files, runId, action);
    }
  }

  /** Redoing a commit that was cut short: back to the same kind of state, or through. */
  lemma FinishCommit(lex: Lexicon, before: Disk, left: Disk, after: Disk, files: Files, runId: Id, j: TransitionJournal,
                     r: Outcome<()>)
    requires PendingCommit(lex, before, left, files, runId, j) && FinishesTransition(left, after, j, r)
    ensures Restartable(lex, after, files, runId)
    ensures r.Done? ==> Steady(lex, after, files, runId)
  {
    hide Steady, CommitOk, Logged, LogOk, Interrupted, Restartable, RunOk, StatusOk, BackedOk, DecisionsOk, Good,
         ManifestOk, AssetsOk, Loadable, Committed, Settled;
    SteadyHas(lex, before, files, runId);
    RedoIsStable(before, left, j);
    CommitRestartable(lex, before, after, files, runId, j);
  }

  /** Redoing a start that was cut short. */
  lemma FinishStart(lex: Lexicon, before: Disk, left: Disk, after: Disk, files: Files, runId: Id, action: Action,
                    eventId: Id, r: Outcome<()>)
    requires PendingStart(lex, before, left, files, runId, action) && FinishesAction(left, after, action, eventId, r)
    ensures Restartable(lex, after, files, runId)
    ensures r.Done? ==> Steady(lex, after, files, runId)
  {
    hide Steady, Usable, ActionInterrupted, Opened, Spent, Begun, HasStart, StartCount, Restartable, RunOk, StatusOk,
         BackedOk, DecisionsOk, ManifestOk, AssetsOk, Loadable, Good, Settled;
    SteadyHas(lex, before, files, runId);
    ActionRedoIsStable(before, left, action, eventId);
    StartRestartable(lex, before, after, files, runId, action);
  }

  lemma StartRestartable(lex: Lexicon, before: Disk, after: Disk, files: Files, runId: Id, action: Action)
    requires Steady(lex, before, files, runId) && Usable(before, action) && action.runId == runId
    requires !HasStart(Events(before, runId), action.actionId)
    requires forall eventId :: Steady(lex, Opened(before, action, eventId), files, runId)
    requires after == before || ActionInterrupted(before, after, action) || BegunBy(before, after, action)
    ensures Restartable(lex, after, files, runId)
    ensures after == before || BegunBy(before, after, action) ==> Steady(lex, after, files, runId)
  {
    hide Steady, Usable, ActionInterrupted, Opened, HasStart;
    if after == before {
    } else if BegunBy(before, after, action) {
      var first :| after == Opened(before, action, first);
      assert Steady(lex, after, files, runId);
    } else {
      assert PendingStart(lex, before, after, files, runId, action);
    }
  }
}
