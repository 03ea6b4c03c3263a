/** The lifecycle of a run: the declared edges, the typed guards, and what every run of the
    machine keeps. */
module StateMachine {
  import opened Domain
  import opened Terminal
  import opened Records

  const MAX_CYCLES: nat := 3

  datatype OptionBinding = OptionBinding(runId: Id, findingId: FindingId, optionId: OptionId, argsHash: ArgsHash,
    tier: nat)

  datatype RunStateSnapshot = RunStateSnapshot(
    runId: Id,
    status: RunStatus,
    cycle: nat,
    admissibleOptions: seq<OptionBinding>,
    pendingDecisionId: Option<Id>,
    pendingOption: Option<OptionBinding>,
    terminalVerdict: Option<TerminalVerdict>)

  /** The guard payloads `transition` accepts; anything else is `NoGuard`. */
  datatype Guard =
    | NoGuard
    | VerdictGuard(verdict: TerminalVerdict)
    | NoExecutableRequirements(runId: Id)
    | RemediationSelection(binding: OptionBinding)
    | DecisionPending(runId: Id, decisionId: Id, option: Option<OptionBinding>)
    | AuthorizationGuard(authorization: Authorization)
    | DecisionResolution(runId: Id, decisionId: Id, approved: bool, optionsRemain: bool)
    | RemediationCompleted(runId: Id, nextCycle: nat)

  function Targets(status: RunStatus): set<RunStatus> {
    match status
    case Created => {Ingesting}
    case Ingesting => {Ingested, RunStatus.Failed}
    case Ingested => {Interpreting}
    case Interpreting => {RequirementsAdmitted, RunStatus.Failed}
    case RequirementsAdmitted => {QcPlanned, RunStatus.Blocked}
    case QcPlanned => {Inspecting}
    case Inspecting => {FindingsReady, RunStatus.Failed}
    case FindingsReady => {DeliveryReady, RunStatus.Blocked, Remediating, AwaitingHumanDecision}
    case Remediating => {Inspecting, RunStatus.Failed}
    case AwaitingHumanDecision => {Remediating, FindingsReady, RunStatus.Blocked}
    case DeliveryReady | Blocked | Failed => {}
  }

  predicate IsTerminal(status: RunStatus) {
    status.DeliveryReady? || status.Blocked? || status.Failed?
  }

  /** The four fields a guard may set; `None` is `InvalidStateTransition`. */
  datatype Guarded = Guarded(
    cycle: nat, verdict: Option<TerminalVerdict>, decisionId: Option<Id>, option: Option<OptionBinding>)

  function CheckGuard(run: RunStateSnapshot, target: RunStatus, guard: Guard): Option<Guarded> {
    var kept := Guarded(run.cycle, run.terminalVerdict, run.pendingDecisionId, run.pendingOption);
    if run.status.FindingsReady? && (target.DeliveryReady? || target.Blocked?) then
      if && guard.VerdictGuard?
         && guard.verdict.runId == run.runId
         && guard.verdict.cycle == run.cycle
         && guard.verdict.outcome == (if target.DeliveryReady? then ReadyOutcome else BlockedOutcome)
      then Some(kept.(verdict := Some(guard.verdict))) else None
    else if run.status.RequirementsAdmitted? && target.Blocked? then
      if guard.NoExecutableRequirements? && guard.runId == run.runId then Some(kept) else None
    else if run.status.FindingsReady? && target.Remediating? then
      if guard.RemediationSelection? && guard.binding.tier == 1 && guard.binding in run.admissibleOptions
      then Some(kept) else None
    else if run.status.FindingsReady? && target.AwaitingHumanDecision? then
      if guard.DecisionPending? && guard.runId == run.runId && (guard.option.Some? ==> guard.option.value.tier == 2)
      then Some(kept.(decisionId := Some(guard.decisionId), option := guard.option)) else None
    else if run.status.AwaitingHumanDecision? && target.Remediating? then
      if && guard.AuthorizationGuard?
         && guard.authorization.status.Issued?
         && run.pendingOption.Some?
         && guard.authorization.runId == run.runId
         && Some(guard.authorization.decisionId) == run.pendingDecisionId
         && guard.authorization.optionId == run.pendingOption.value.optionId
         && guard.authorization.argsHash == run.pendingOption.value.argsHash
      then Some(kept.(decisionId := None, option := None)) else None
    else if run.status.AwaitingHumanDecision? && (target.FindingsReady? || target.Blocked?) then
      if && guard.DecisionResolution?
         && guard.runId == run.runId
         && Some(guard.decisionId) == run.pendingDecisionId
         && !guard.approved
         && guard.optionsRemain == target.FindingsReady?
      then Some(kept.(decisionId := None, option := None)) else None
    else if run.status.Remediating? && target.Inspecting? then
      if && guard.RemediationCompleted?
         && guard.runId == run.runId
         && guard.nextCycle == run.cycle + 1
         && guard.nextCycle <= MAX_CYCLES
      then Some(kept.(cycle := guard.nextCycle)) else None
    else Some(kept)
  }

  /** `transition`, for a cause that belongs to the run and is not the agent. */
  function Transition(run: RunStateSnapshot, target: RunStatus, guard: Guard): Option<RunStateSnapshot> {
    if target !in Targets(run.status) then None
    else
      match CheckGuard(run, target, guard)
      case None => None
      case Some(g) => Some(run.(
        status := target, cycle := g.cycle, terminalVerdict := g.verdict,
        pendingDecisionId := g.decisionId, pendingOption := g.option))
  }

  /** Where each status is entered from. */
  function EnteredFrom(target: RunStatus): set<RunStatus> {
    match target
    case Created => {}
    case Ingesting => {Created}
    case Ingested => {Ingesting}
    case Interpreting => {Ingested}
    case RequirementsAdmitted => {Interpreting}
    case QcPlanned => {RequirementsAdmitted}
    case Inspecting => {QcPlanned, Remediating}
    case FindingsReady => {Inspecting, AwaitingHumanDecision}
    case Remediating => {FindingsReady, AwaitingHumanDecision}
    case AwaitingHumanDecision => {FindingsReady}
    case DeliveryReady => {FindingsReady}
    case Blocked => {RequirementsAdmitted, FindingsReady, AwaitingHumanDecision}
    case Failed => {Ingesting, Interpreting, Inspecting, Remediating}
  }

  /** A verdict of this run and cycle. */
  predicate OwnVerdict(run: RunStateSnapshot, guard: Guard, outcome: TerminalOutcome) {
    && guard.VerdictGuard? && guard.verdict.outcome == outcome
    && guard.verdict.runId == run.runId && guard.verdict.cycle == run.cycle
  }

  /** A denial of the decision this run waits for. */
  predicate IsDenial(run: RunStateSnapshot, guard: Guard, optionsRemain: bool) {
    && guard.DecisionResolution? && !guard.approved && guard.optionsRemain == optionsRemain
    && guard.runId == run.runId && run.pendingDecisionId == Some(guard.decisionId)
  }

  /** An unused authorization from that decision, for the option that it was about. */
  predicate IsAuthorized(run: RunStateSnapshot, guard: Guard) {
    && guard.AuthorizationGuard? && guard.authorization.status.Issued? && guard.authorization.runId == run.runId
    && run.pendingDecisionId == Some(guard.authorization.decisionId) && run.pendingOption.Some?
    && run.pendingOption.value.optionId == guard.authorization.optionId
    && run.pendingOption.value.argsHash == guard.authorization.argsHash
  }

  /** What opens the way into each status. */
  predicate OpensWay(run: RunStateSnapshot, target: RunStatus, guard: Guard) {
    match target
    case DeliveryReady => OwnVerdict(run, guard, ReadyOutcome)
    case Blocked =>
      if run.status.FindingsReady? then OwnVerdict(run, guard, BlockedOutcome)
      else if run.status.AwaitingHumanDecision? then IsDenial(run, guard, false)
      else guard == NoExecutableRequirements(run.runId)
    case Remediating =>
      if run.status.FindingsReady?
      then guard.RemediationSelection? && guard.binding in run.admissibleOptions && guard.binding.tier == 1
      else IsAuthorized(run, guard)
    case AwaitingHumanDecision =>
      guard.DecisionPending? && guard.runId == run.runId && (guard.option.None? || guard.option.value.tier == 2)
    case FindingsReady => run.status.AwaitingHumanDecision? ==> IsDenial(run, guard, true)
    case Inspecting =>
      run.status.Remediating? ==> guard == RemediationCompleted(run.runId, run.cycle + 1) && run.cycle < 3
    case _ => true
  }

  /** Exactly which transitions are taken, and what they change: the cycle on the way back to an
      inspection, the verdict on the way out, and the pending decision and its option on entering
      and on leaving the wait for it. */
  lemma TransitionIff(run: RunStateSnapshot, target: RunStatus, guard: Guard)
    ensures var r := Transition(run, target, guard);
            && (r.Some? <==> run.status in EnteredFrom(target) && OpensWay(run, target, guard))
            && (r.Some? ==>
                  && r.value.status == target && r.value.runId == run.runId
                  && r.value.admissibleOptions == run.admissibleOptions
                  && r.value.cycle == (if run.status.Remediating? && target.Inspecting? then run.cycle + 1
                    else run.cycle)
                  && r.value.terminalVerdict == (if guard.VerdictGuard? && run.status.FindingsReady?
                    then Some(guard.verdict) else run.terminalVerdict)
                  && (target.AwaitingHumanDecision? ==>
                        r.value.pendingDecisionId == Some(guard.decisionId) && r.value.pendingOption == guard.option)
                  && (run.status.AwaitingHumanDecision? ==>
                        r.value.pendingDecisionId.None? && r.value.pendingOption.None?)
                  && (!target.AwaitingHumanDecision? && !run.status.AwaitingHumanDecision? ==>
                        && r.value.pendingDecisionId == run.pendingDecisionId
                        && r.value.pendingOption == run.pendingOption))
  {}

  function Initial(runId: Id): RunStateSnapshot {
    RunStateSnapshot(runId, Created, 0, [], None, None, None)
  }

  /** What every reachable snapshot satisfies. A delivery carries a ready verdict of its own
      run and cycle; a decision is pending exactly while one is awaited, and only for a
      content-affecting option. */
  predicate Sound(s: RunStateSnapshot) {
    && s.cycle <= MAX_CYCLES
    && (s.pendingDecisionId.Some? <==> s.status.AwaitingHumanDecision?)
    && (s.pendingOption.Some? ==> s.status.AwaitingHumanDecision? && s.pendingOption.value.tier == 2)
    && (s.terminalVerdict.Some? ==>
          && (s.status.DeliveryReady? || s.status.Blocked?)
          && s.terminalVerdict.value.runId == s.runId
          && s.terminalVerdict.value.cycle == s.cycle
          && s.terminalVerdict.value.outcome == (if s.status.DeliveryReady? then ReadyOutcome else BlockedOutcome))
    && (s.status.DeliveryReady? ==> s.terminalVerdict.Some?)
  }

  lemma TransitionKeepsSound(s: RunStateSnapshot, target: RunStatus, guard: Guard)
    requires Sound(s) && Transition(s, target, guard).Some?
    ensures var t := Transition(s, target, guard).value;
            && Sound(t)
            && t.runId == s.runId
            && s.cycle <= t.cycle <= s.cycle + 1
            && (t.cycle == s.cycle + 1 <==> s.status.Remediating? && target.Inspecting?)
  {}

  /** A snapshot reached from the initial one by accepted transitions, with the admissible
      options rewritten freely in between. */
  datatype Step = Step(target: RunStatus, guard: Guard, options: seq<OptionBinding>)

  function Run(s: RunStateSnapshot, steps: seq<Step>): Option<RunStateSnapshot>
    decreases |steps|
  {
    if steps == [] then Some(s)
    else
      match Transition(s, steps[0].target, steps[0].guard)
      case None => None
      case Some(t) => Run(t.(admissibleOptions := steps[0].options), steps[1..])
  }

  lemma {:induction false} EveryRunIsSound(s: RunStateSnapshot, steps: seq<Step>)
    requires Sound(s) && Run(s, steps).Some?
    ensures Sound(Run(s, steps).value) && Run(s, steps).value.runId == s.runId
    ensures IsTerminal(s.status) ==> steps == []
    decreases |steps|
  {
    if steps != [] {
      TransitionKeepsSound(s, steps[0].target, steps[0].guard);
      var t := Transition(s, steps[0].target, steps[0].guard).value;
      EveryRunIsSound(t.(admissibleOptions := steps[0].options), steps[1..]);
    }
  }

  /** The machine alone does not terminate: a denial that leaves options open returns to
      FINDINGS_READY in the same cycle, so the loop through a human decision can be taken
      any number of times. Boundedness is a property of its driver. */
  function DecisionLoop(s: RunStateSnapshot, decision: Id, times: nat): seq<Step> {
    if times == 0 then []
    else [Step(AwaitingHumanDecision, DecisionPending(s.runId, decision, None), s.admissibleOptions),
          Step(FindingsReady, DecisionResolution(s.runId, decision, false, true), s.admissibleOptions)]
         + DecisionLoop(s, decision, times - 1)
  }

  lemma {:induction false} DecisionLoopUnbounded(s: RunStateSnapshot, decision: Id, times: nat)
    requires Sound(s) && s.status.FindingsReady?
    ensures Run(s, DecisionLoop(s, decision, times)) == Some(s)
    ensures |DecisionLoop(s, decision, times)| == 2 * times
  {
    if times > 0 {
      var steps := DecisionLoop(s, decision, times);
      var rest := DecisionLoop(s, decision, times - 1);
      var awaiting := s.(status := AwaitingHumanDecision, pendingDecisionId := Some(decision));
      assert steps[0] == Step(AwaitingHumanDecision, DecisionPending(s.runId, decision, None), s.admissibleOptions);
      assert Transition(s, AwaitingHumanDecision, steps[0].guard) == Some(awaiting);
      assert steps[1..][0] == Step(FindingsReady, DecisionResolution(s.runId, decision, false, true),
        s.admissibleOptions);
      assert Transition(awaiting, FindingsReady, steps[1..][0].guard) == Some(s);
      assert steps[1..][1..] == rest;
      assert Run(s, steps) == Run(awaiting, steps[1..]) == Run(s, rest);
      DecisionLoopUnbounded(s, decision, times - 1);
    }
  }
}
