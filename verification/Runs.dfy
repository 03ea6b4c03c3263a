/** Whole runs: how one begins, how long one takes, and what holds in every state one reaches,
    wherever the process died and however often it was restarted. */
module Runs {
  import opened Domain
  import opened Ledger
  import opened Constraints
  import opened Terminal
  import opened Records
  import opened StateMachine
  import opened Store
  import opened Protocol
  import opened Remediation
  import opened Executor
  import opened Lifecycle
  import opened Steadiness
  import opened History
  import opened Inspection
  import opened Boundary
  import opened Orchestrator

  // ------------------------------------------------------------ reading the invariant

  /** Tier-2 safety, in every steady state. A start of a content-affecting tool carries an
      authorization that this very action consumed; a human approved its decision for an option
      that is still in the record, and the authorization is for that option and for its very
      arguments; and no other start carries that authorization or rests on that decision. */
  lemma ContentStartsAreApproved(lex: Lexicon, d: Disk, files: Files, runId: Id, i: nat)
    requires Steady(lex, d, files, runId) && i < |Events(d, runId)|
    requires Events(d, runId)[i].payload.ActionStarted?
      && TierOf(Events(d, runId)[i].payload.tool) == Some(ContentAffecting)
    ensures var start := Events(d, runId)[i];
            && Spends(start, d.authorizations)
            && var authorization := SpentOn(start, d.authorizations);
               && !authorization.status.Issued? && authorization.consumedBy == Some(start.payload.actionId)
               && start.refs == [authorization.optionId]
               && ApprovedIn(d.runs[runId], authorization.decisionId, authorization.optionId)
               && var option := RunOption(d.runs[runId], authorization.optionId);
                  option.Some? && authorization.argsHash == option.value.argsHash ==
                    HashArguments(option.value.arguments)
    ensures forall j :: 0 <= j < |Events(d, runId)| && SameDecision(Events(d, runId)[i], Events(d, runId)[j],
      d.authorizations) ==> j == i
  {
    hide Settled, Consistent, Chain, RunOk, StatusOk, ApprovedIn, ManifestOk, Granted, RunOption;
    assert StartAuthorized(Events(d, runId)[i], d.authorizations);
    var authorization := SpentOn(Events(d, runId)[i], d.authorizations);
    assert Granted(authorization, d.runs[runId], d.snapshots[runId]);
    GrantedIs(d.runs[runId], d.snapshots[runId], authorization);
  }

  lemma GrantedIs(run: RuntimeRun, s: RunStateSnapshot, authorization: Authorization)
    requires RunOk(run) && Granted(authorization, run, s)
    ensures var option := RunOption(run, authorization.optionId);
            option.Some? && authorization.argsHash == option.value.argsHash == HashArguments(option.value.arguments)
  {
    hide HashesOk, MeasuresOk, RunOption;
    var i, k :| 0 <= i < |run.findings| && 0 <= k < |run.findings[i].options|
      && run.findings[i].options[k].optionId == authorization.optionId
        && run.findings[i].options[k].argsHash == authorization.argsHash;
    assert run.findings[i].options[k] in run.findings[i].options;
    OptionFound(run, run.findings[i].options[k]);
    UniqueOption(run, run.findings[i].options[k]);
  }

  /** A void authorization backs nothing more, ever: whatever the run does after it, a start that
      carries it is one by the action that had consumed it before. One that was voided unspent
      backs no start at all. */
  lemma VoidBacksNothingNew(lex: Lexicon, before: Disk, files: Files, after: Disk, now: Files, runId: Id, id: Id,
                            i: nat)
    requires Steady(lex, before, files, runId) && Steady(lex, after, now, runId) && Extends(before, after, runId)
    requires id in before.authorizations && before.authorizations[id].status.Void? && i < |Events(after, runId)|
    requires Events(after, runId)[i].payload.ActionStarted?
      && Events(after, runId)[i].payload.authorizationId == Some(id)
    ensures id in after.authorizations && after.authorizations[id].status.Void?
    ensures before.authorizations[id].consumedBy == Some(Events(after, runId)[i].payload.actionId)
  {
    hide Settled, Consistent, Chain, RunOk, StatusOk, ManifestOk, BackedOk, DecisionsOk, KeepsRecord;
    assert StartAuthorized(Events(after, runId)[i], after.authorizations);
  }

  /** A delivered run, in every steady state: its verdict is the one its facts give, every
      blocking requirement is executable and resolved, each applicable one is counted as passed
      and passed on a measurement of the verdict's own cycle; nothing is pending; the originals
      hash as recorded; the runtime's manifest, where one is due, lists what is delivered; no
      action is open. */
  lemma DeliveredMeansReady(lex: Lexicon, d: Disk, files: Files, runId: Id)
    requires Steady(lex, d, files, runId) && d.snapshots[runId].status.DeliveryReady?
    ensures runId in d.runs
    ensures var s, run := d.snapshots[runId], d.runs[runId];
            && s.terminalVerdict == Compute(TerminalOf(lex, run, s.cycle, OriginalsIntact(run, files)))
            && s.terminalVerdict.Some? && s.terminalVerdict.value.outcome.ReadyOutcome?
              && s.terminalVerdict.value.cycle == s.cycle
            && var counts := s.terminalVerdict.value.counts;
               counts.passed == counts.applicableBlocking
                 && counts.failed == counts.notEvaluated == counts.unresolvedSpec == 0
    ensures var s, run := d.snapshots[runId], d.runs[runId];
            && FirstPending(run.decisionRequests).None?
            && OriginalsIntact(run, files)
            && ManifestKept(run, files)
            && NoneOpen(Events(d, runId))
            && (forall i :: 0 <= i < |run.requirements| && run.requirements[i].severity.Blocking? ==>
                  && run.requirements[i].normalization.Executable?
                  && !run.requirements[i].applicability.ApplicabilityUnresolved?
                  && (run.requirements[i].applicability.Applicable? ==>
                    PassedIn(lex, run, run.requirements[i].requirementId, s.cycle)))
  {
    hide Steady, Settled, Good, RunOk, BackedOk, DecisionsOk, NoneOpen, OriginalsIntact, Fresh, UpTo, PredicateFacts,
         Latest, Justifies, TerminalOf, Deliverable, Compute, ManifestKept;
    SteadyHas(lex, d, files, runId);
    OriginalsStayIntact(d, files, runId);
    var s, run := d.snapshots[runId], d.runs[runId];
    ReadyCounts(TerminalOf(lex, run, s.cycle, true));
    NothingPending(lex, run, s.cycle);
    forall i | 0 <= i < |run.requirements| && run.requirements[i].severity.Blocking?
      ensures run.requirements[i].normalization.Executable?
        && !run.requirements[i].applicability.ApplicabilityUnresolved?
      ensures run.requirements[i].applicability.Applicable? ==>
        PassedIn(lex, run, run.requirements[i].requirementId, s.cycle)
    {
      ReadyRestsOnFreshFacts(lex, run, s.cycle, true, i);
    }
  }

  /** What a ready verdict counts. */
  lemma ReadyCounts(input: TerminalInput)
    requires Compute(input).Some? && Compute(input).value.outcome.ReadyOutcome?
    ensures Deliverable(input)
    ensures var counts := Compute(input).value.counts;
            counts.passed == counts.applicableBlocking
              && counts.failed == counts.notEvaluated == counts.unresolvedSpec == 0
  {
    hide Deliverable, Applicables, Passeds, Faileds, NotEvaluateds, Unresolveds, ActionRemains;
    ReadyIffDeliverable(input);
    CountsAddUp(input);
    assert |Reasons(input)| == 0;
  }

  lemma NothingPending(lex: Lexicon, run: RuntimeRun, cycle: nat)
    ensures Deliverable(TerminalOf(lex, run, cycle, true)) ==> FirstPending(run.decisionRequests).None?
  {
    hide PredicateFacts, Latest;
    var input := TerminalOf(lex, run, cycle, true);
    assert forall i :: 0 <= i < |run.decisionRequests| ==> input.decisions[i] == run.decisionRequests[i].status;
  }

  /** A measurement of this cycle passed under the requirement's constraint. */
  predicate PassedIn(lex: Lexicon, run: RuntimeRun, id: Id, cycle: nat) {
    exists k :: 0 <= k < |run.measurements| && run.measurements[k].requirementId == id
      && run.measurements[k].cycle == cycle
      && Justifies(lex, run.measurements[k], run.requirements, Pass)
  }

  // ------------------------------------------------------------ fresh decision names

  ghost function Bounds(ids: set<Id>): (r: Id)
    ensures forall id :: id in ids ==> id < r
  {
    if ids == {} then 0
    else
      var id :| id in ids;
      var rest := Bounds(ids - {id});
      assert forall other :: other in ids ==> other == id || other in ids - {id};
      if id < rest then rest else id + 1
  }

  lemma UnusedName(ids: set<Id>)
    ensures exists id: Id :: id !in ids
  {
    assert Bounds(ids) !in ids;
  }

  // ------------------------------------------------------------ progress

  /** The advances a run at findings ready may still take: one for each cycle left, and one
      for the last. */
  function Budget(s: RunStateSnapshot): int { if Stopped(s) then 0 else MAX_CYCLES - s.cycle + 1 }

  lemma AdvanceSpends(before: RunStateSnapshot, after: RunStateSnapshot)
    requires before.status.FindingsReady? && before.cycle <= MAX_CYCLES && after.cycle <= MAX_CYCLES
      && Progress(before, after)
    ensures Stopped(after) || (after.status.FindingsReady? && Budget(after) == Budget(before) - 1)
  {}

  // ------------------------------------------------------------ driving a run

  datatype Call = Advancing | Resolving(approved: bool, actor: string)

  class RunDriver {
    const orchestrator: HeadlessOrchestrator

    constructor (orchestrator: HeadlessOrchestrator)
      ensures this.orchestrator == orchestrator
    {
      this.orchestrator := orchestrator;
    }

    /** The loop after `start`, and after an approval: eight advances are more than enough.
        From findings ready in cycle c at most (3 - c) + 1 of them reach a decision or an end,
        unless a write fails, the model's answer is rejected, or a check of the plan is one an
        inspection refuses: the policy and the state machine refuse nothing. */
    method AdvanceUntilStopped(nonce: Id) returns (r: Outcome<RunStateSnapshot>, calls: nat)
      requires orchestrator.CanRestart()
      requires Steady(orchestrator.lex, orchestrator.store.disk, orchestrator.workspace.files, orchestrator.runId)
      requires orchestrator.store.disk.snapshots[orchestrator.runId].status.FindingsReady?
      requires Unhindered(orchestrator.store.disk, orchestrator.runId)
      modifies orchestrator.store, orchestrator.workspace
      ensures orchestrator.CanRestart()
      ensures Extends(old(orchestrator.store.disk), orchestrator.store.disk, orchestrator.runId)
      ensures r.Raised? ==>
                r.error == DiagnosisRejected || Halts(r.error, old(orchestrator.store.disk.runs[orchestrator.runId]))
      ensures r.Done? ==>
                && Stopped(r.value) && orchestrator.runId in orchestrator.store.disk.runs
                && orchestrator.Holds(r.value, orchestrator.store.disk.runs[orchestrator.runId])
                && Unhindered(orchestrator.store.disk, orchestrator.runId)
                && old(orchestrator.store.disk.snapshots[orchestrator.runId].cycle) <= r.value.cycle
                && calls <= MAX_CYCLES - old(orchestrator.store.disk.snapshots[orchestrator.runId].cycle) + 1
    {
      hide Steady, Unhindered, Restartable, Extends, Halts, NeedsRewrite, RewriteOpen, CaughtManifest, OriginalsKept,
           NonePending, Deliverable, TerminalOf, RunOk, StatusOk, BackedOk, DecisionsOk, Good, ManifestOk, Settled,
           AssetsOk, Loadable;
      var lex, runId, store, workspace := orchestrator.lex, orchestrator.runId, orchestrator.store,
        orchestrator.workspace;
      CycleBounded(lex, store.disk, workspace.files, runId);
      ExtendsOn(runId);
      SteadyHas(lex, store.disk, workspace.files, runId);
      ExtendsSame(store.disk, runId);
      ghost var first, before := store.disk.snapshots[runId], store.disk;
      var loaded := store.LoadSnapshot(runId);
      var state := loaded.value;
      calls := 0;
      while calls < 8 && !Stopped(state)
        invariant runId in store.disk.runs && orchestrator.Holds(state, store.disk.runs[runId])
          && orchestrator.CanRestart()
        invariant Extends(before, store.disk, runId) && Unhindered(store.disk, runId)
        invariant Stopped(state) || (state.status.FindingsReady? && Budget(state) == Budget(first) - calls)
        invariant first.cycle <= state.cycle <= MAX_CYCLES && calls <= Budget(first) <= 4
      {
        UnusedName(store.disk.decisions.Keys);
        var decisionId: Id :| decisionId !in store.disk.decisions.Keys;
        HaltsExtended(before, store.disk, runId);
        var next :- orchestrator.Advance(nonce, decisionId);
        CycleBounded(lex, store.disk, workspace.files, runId);
        AdvanceSpends(state, next);
        state := next;
        calls := calls + 1;
      }
      return Done(state), calls;
    }

    /** A whole run: advance until it stops, let a human decide however they will, and advance
        again. It ends within (3 - c) + 1 rounds, with the same reservations. */
    method RunToEnd(actor: string, nonce: Id) returns (r: Outcome<RunStateSnapshot>, rounds: nat)
      requires orchestrator.CanRestart() && HumanActor(actor)
      requires Steady(orchestrator.lex, orchestrator.store.disk, orchestrator.workspace.files, orchestrator.runId)
      requires orchestrator.store.disk.snapshots[orchestrator.runId].status.FindingsReady?
      requires Unhindered(orchestrator.store.disk, orchestrator.runId)
      modifies orchestrator.store, orchestrator.workspace
      ensures orchestrator.CanRestart()
      ensures Extends(old(orchestrator.store.disk), orchestrator.store.disk, orchestrator.runId)
      ensures r.Raised? ==>
                r.error == DiagnosisRejected || Halts(r.error, old(orchestrator.store.disk.runs[orchestrator.runId]))
      ensures r.Done? ==>
                && IsTerminal(r.value.status) && orchestrator.runId in orchestrator.store.disk.runs
                && orchestrator.Holds(r.value, orchestrator.store.disk.runs[orchestrator.runId])
                && rounds <= MAX_CYCLES - old(orchestrator.store.disk.snapshots[orchestrator.runId].cycle) + 1
    {
      hide Steady, Unhindered, Restartable, Extends, Halts, HumanActor, AtMostManifest, Attempted, OriginalsKept,
           MintedFor, DecisionAt, Decidable, NonePending, RunOk, StatusOk, BackedOk, DecisionsOk, Good, ManifestOk,
           Settled, AssetsOk, Loadable;
      var lex, runId, store, workspace := orchestrator.lex, orchestrator.runId, orchestrator.store,
        orchestrator.workspace;
      CycleBounded(lex, store.disk, workspace.files, runId);
      ExtendsOn(runId);
      SteadyHas(lex, store.disk, workspace.files, runId);
      ExtendsSame(store.disk, runId);
      ghost var first, before := store.disk.snapshots[runId], store.disk;
      var loaded := store.LoadSnapshot(runId);
      var state := loaded.value;
      rounds := 0;
      while !IsTerminal(state.status)
        invariant runId in store.disk.runs && orchestrator.Holds(state, store.disk.runs[runId])
          && orchestrator.CanRestart()
        invariant Extends(before, store.disk, runId) && Unhindered(store.disk, runId)
        invariant IsTerminal(state.status) || (state.status.FindingsReady? && first.cycle + rounds <= state.cycle)
        invariant state.cycle <= MAX_CYCLES && rounds <= MAX_CYCLES - first.cycle + 1
        decreases if IsTerminal(state.status) then 0 else 1, MAX_CYCLES - state.cycle
      {
        HaltsExtended(before, store.disk, runId);
        var advanced, _ := AdvanceUntilStopped(nonce);
        state :- advanced;
        rounds := rounds + 1;
        CycleBounded(lex, store.disk, workspace.files, runId);
        if state.status.AwaitingHumanDecision? {
          AwaitedIsDecidable(store.disk, runId);
          UnusedName(store.disk.authorizations.Keys);
          var authorizationId: Id :| authorizationId !in store.disk.authorizations.Keys;
          HaltsExtended(before, store.disk, runId);
          var approved: bool := *;
          state :- orchestrator.ResolveDecision(approved, actor, authorizationId);
          CycleBounded(lex, store.disk, workspace.files, runId);
        }
      }
      return Done(state), rounds;
    }

    /** Any run: any calls, in any order, each able to fail or to die at any durable step, the
        store opened again before each. Whenever the store opens, the run is in a steady state;
        and however it went, nothing recorded before was taken back and the original files are
        what they were. */
    method Drive(calls: seq<Call>, nonce: Id) returns (opens: bool)
      requires orchestrator.CanRestart()
      modifies orchestrator.store, orchestrator.workspace
      ensures orchestrator.CanRestart()
      ensures opens ==> Steady(orchestrator.lex, orchestrator.store.disk, orchestrator.workspace.files,
        orchestrator.runId)
      ensures Extends(old(orchestrator.store.disk), orchestrator.store.disk, orchestrator.runId)
      ensures orchestrator.runId in old(orchestrator.store.disk).runs
              && OriginalsKept(old(orchestrator.store.disk).runs[orchestrator.runId], old(orchestrator.workspace.files),
                               orchestrator.workspace.files)
    {
      hide Steady, Restartable, Extends, OriginalsKept, Unhindered, Halts;
      var lex, runId, store, workspace := orchestrator.lex, orchestrator.runId, orchestrator.store,
        orchestrator.workspace;
      ghost var before, files := store.disk, workspace.files;
      ExtendsOn(runId);
      RestartableRecorded(lex, before, files, runId);
      ExtendsSame(before, runId);
      for i := 0 to |calls|
        invariant orchestrator.CanRestart() && Extends(before, store.disk, runId)
      {
        var reopened := orchestrator.Reopen(nonce);
        if reopened.Done? {
          match calls[i] {
            case Advancing =>
              UnusedName(store.disk.decisions.Keys);
              var decisionId: Id :| decisionId !in store.disk.decisions.Keys;
              var _ := orchestrator.Advance(nonce, decisionId);
            case Resolving(approved, actor) =>
              UnusedName(store.disk.authorizations.Keys);
              var authorizationId: Id :| authorizationId !in store.disk.authorizations.Keys;
              var _ := orchestrator.ResolveDecision(approved, actor, authorizationId);
          }
        }
      }
      var reopened := orchestrator.Reopen(nonce);
      opens := reopened.Done?;
      OriginalsUnchanged(lex, before, files, store.disk, workspace.files, runId);
    }

    /** Where the promise of progress fails. A run whose rewrite of the manifest failed, and that
        died before the cycle was left, never gets on: every later advance opens a second finding
        of the same name, is forbidden to act on it, and leaves the run remediating. */
    method WedgeHolds(nonce: Id, advances: nat) returns (moved: bool)
      requires orchestrator.CanRestart() && orchestrator.runId in orchestrator.store.disk.runs
      requires orchestrator.runId in orchestrator.store.disk.snapshots
      requires orchestrator.Wedged(orchestrator.store.disk.snapshots[orchestrator.runId],
        orchestrator.store.disk.runs[orchestrator.runId])
      modifies orchestrator.store, orchestrator.workspace
      ensures !moved && orchestrator.runId in orchestrator.store.disk.runs
        && orchestrator.runId in orchestrator.store.disk.snapshots
      ensures orchestrator.Wedged(orchestrator.store.disk.snapshots[orchestrator.runId],
        orchestrator.store.disk.runs[orchestrator.runId])
    {
      hide Steady, Restartable, Extends, OriginalsKept, Unhindered, Halts, NeedsRewrite, RewriteOpen, RunOk, StatusOk,
           BackedOk, DecisionsOk, Good, ManifestOk, Settled, AssetsOk, Loadable;
      var runId, store := orchestrator.runId, orchestrator.store;
      moved := false;
      for i := 0 to advances
        invariant !moved && runId in store.disk.runs && runId in store.disk.snapshots
        invariant orchestrator.Wedged(store.disk.snapshots[runId], store.disk.runs[runId])
      {
        UnusedName(store.disk.decisions.Keys);
        var decisionId: Id :| decisionId !in store.disk.decisions.Keys;
        var advanced := orchestrator.Advance(nonce, decisionId);
        moved := moved || advanced.Done?;
      }
    }
  }

  lemma AwaitedIsDecidable(d: Disk, runId: Id)
    requires Unhindered(d, runId) && d.snapshots[runId].status.AwaitingHumanDecision?
    ensures Decidable(d, runId)
  {}

  lemma CycleBounded(lex: Lexicon, d: Disk, files: Files, runId: Id)
    requires Steady(lex, d, files, runId)
    ensures runId in d.snapshots && d.snapshots[runId].cycle <= MAX_CYCLES && Loadable(d, runId)
  {
    hide Good, RunOk, BackedOk, DecisionsOk, WellFormed;
    SteadyHas(lex, d, files, runId);
  }
}
