/** The terminal verdict: `compute` over the facts of one run, and what a verdict means. */
module Terminal {
  import opened Domain
  import opened Constraints
  import opened Sequences

  datatype Severity = Info | Warning | Blocking
  datatype Applicability = Applicable | NotApplicable | ApplicabilityUnresolved
  datatype FindingStatus = Open | Resolved | Unresolved
  datatype DecisionStatus = Pending | Approved | Denied

  datatype RequirementFact = RequirementFact(
    id: Id, severity: Severity, normalization: NormalizationStatus, applicability: Applicability)
  datatype PredicateFact = PredicateFact(requirementId: Id, outcome: PredicateOutcome)
  datatype FindingFact = FindingFact(requirementId: Id, status: FindingStatus, hasOption: bool)

  datatype TerminalInput = TerminalInput(
    runId: Id,
    cycle: nat,
    requirements: seq<RequirementFact>,
    predicates: seq<PredicateFact>,
    findings: seq<FindingFact>,
    decisions: seq<DecisionStatus>,
    originalsIntact: bool)

  datatype TerminalOutcome = ReadyOutcome | BlockedOutcome
  datatype Reason = SpecUnresolved(id: Id) | RequirementNotPassed(id: Id) | OriginalIntegrityFailed

  datatype TerminalCounts = TerminalCounts(
    applicableBlocking: nat, passed: nat, failed: nat, notEvaluated: nat, unresolvedSpec: nat)

  datatype TerminalVerdict = TerminalVerdict(
    runId: Id, cycle: nat, outcome: TerminalOutcome, counts: TerminalCounts, reasons: seq<Reason>)

  predicate IsUnresolved(r: RequirementFact) {
    r.severity.Blocking? && (!r.normalization.Executable? || r.applicability.ApplicabilityUnresolved?)
  }

  predicate IsApplicable(r: RequirementFact) {
    r.severity.Blocking? && r.normalization.Executable? && r.applicability.Applicable?
  }

  /** The last predicate recorded for a requirement decides it. */
  function Latest(predicates: seq<PredicateFact>, id: Id): Option<PredicateOutcome> {
    if predicates == [] then None
    else
      var last := predicates[|predicates| - 1];
      if last.requirementId == id then Some(last.outcome)
      else Latest(predicates[..|predicates| - 1], id)
  }

  predicate IsPassed(input: TerminalInput, r: RequirementFact) {
    IsApplicable(r) && Latest(input.predicates, r.id) == Some(Pass)
  }

  predicate IsFailed(input: TerminalInput, r: RequirementFact) {
    IsApplicable(r) && Latest(input.predicates, r.id) == Some(Fail)
  }

  predicate IsNotEvaluated(input: TerminalInput, r: RequirementFact) {
    IsApplicable(r) && Latest(input.predicates, r.id) in {None, Some(NotEvaluated)}
  }

  function Unresolveds(input: TerminalInput): seq<RequirementFact> {
    Select(input.requirements, IsUnresolved)
  }

  function Applicables(input: TerminalInput): seq<RequirementFact> {
    Select(input.requirements, IsApplicable)
  }

  function Passeds(input: TerminalInput): seq<RequirementFact> {
    Select(input.requirements, r => IsPassed(input, r))
  }

  function Faileds(input: TerminalInput): seq<RequirementFact> {
    Select(input.requirements, r => IsFailed(input, r))
  }

  function NotEvaluateds(input: TerminalInput): seq<RequirementFact> {
    Select(input.requirements, r => IsNotEvaluated(input, r))
  }

  predicate ActionRemains(input: TerminalInput) {
    exists i :: 0 <= i < |input.findings|
      && input.findings[i].status.Open?
      && input.findings[i].hasOption
      && exists j :: 0 <= j < |Faileds(input) + NotEvaluateds(input)| &&
           (Faileds(input) + NotEvaluateds(input))[j].id == input.findings[i].requirementId
  }

  function SpecReasons(rs: seq<RequirementFact>): (reasons: seq<Reason>)
    ensures |reasons| == |rs|
  {
    if rs == [] then [] else [SpecUnresolved(rs[0].id)] + SpecReasons(rs[1..])
  }

  function NotPassedReasons(rs: seq<RequirementFact>): (reasons: seq<Reason>)
    ensures |reasons| == |rs|
  {
    if rs == [] then [] else [RequirementNotPassed(rs[0].id)] + NotPassedReasons(rs[1..])
  }

  function Reasons(input: TerminalInput): seq<Reason> {
    SpecReasons(Unresolveds(input)) + NotPassedReasons(Faileds(input) + NotEvaluateds(input))
    + (if input.originalsIntact then [] else [OriginalIntegrityFailed])
  }

  function Counts(input: TerminalInput): TerminalCounts {
    TerminalCounts(|Applicables(input)|, |Passeds(input)|, |Faileds(input)|, |NotEvaluateds(input)|,
      |Unresolveds(input)|)
  }

  /** `compute`: a verdict, or `None` while admissible work remains. */
  function Compute(input: TerminalInput): Option<TerminalVerdict> {
    if Pending in input.decisions || ActionRemains(input) then None
    else Some(TerminalVerdict(
      input.runId, input.cycle,
      if Reasons(input) == [] then ReadyOutcome else BlockedOutcome,
      Counts(input), Reasons(input)))
  }

  // ------------------------------------------------------------- what it means

  lemma {:induction false} ThreeWaySplit(input: TerminalInput, rs: seq<RequirementFact>)
    ensures |Select(rs, IsApplicable)| ==
            |Select(rs, r => IsPassed(input, r))| + |Select(rs, r => IsFailed(input, r))|
            + |Select(rs, r => IsNotEvaluated(input, r))|
  {
    if rs != [] {
      ThreeWaySplit(input, rs[1..]);
      var latest := Latest(input.predicates, rs[0].id);
      assert latest.None? || latest.value.Pass? || latest.value.Fail? || latest.value.NotEvaluated?;
    }
  }

  /** Every applicable blocking requirement is counted once: as passed, as failed or as not
      evaluated. */
  lemma CountsAddUp(input: TerminalInput)
    ensures var c := Counts(input); c.passed + c.failed + c.notEvaluated == c.applicableBlocking
  {
    ThreeWaySplit(input, input.requirements);
  }

  // The places in the list of requirements that a verdict counts.

  predicate Counted(r: RequirementFact) {
    r.severity.Blocking? && r.normalization.Executable? && r.applicability.Applicable?
  }

  function ApplicablePlaces(input: TerminalInput): set<int> {
    set i | 0 <= i < |input.requirements| && Counted(input.requirements[i])
  }

  function PassedPlaces(input: TerminalInput): set<int> {
    set i | 0 <= i < |input.requirements| && Counted(input.requirements[i])
            && Latest(input.predicates, input.requirements[i].id) == Some(Pass)
  }

  function FailedPlaces(input: TerminalInput): set<int> {
    set i | 0 <= i < |input.requirements| && Counted(input.requirements[i])
            && Latest(input.predicates, input.requirements[i].id) == Some(Fail)
  }

  function UnevaluatedPlaces(input: TerminalInput): set<int> {
    set i | 0 <= i < |input.requirements| && Counted(input.requirements[i])
            && (Latest(input.predicates, input.requirements[i].id) == None
                || Latest(input.predicates, input.requirements[i].id) == Some(NotEvaluated))
  }

  function UnresolvedPlaces(input: TerminalInput): set<int> {
    set i | 0 <= i < |input.requirements| && input.requirements[i].severity.Blocking?
            && (!input.requirements[i].normalization.Executable?
                || input.requirements[i].applicability.ApplicabilityUnresolved?)
  }

  /** What a verdict counts, field by field: the blocking requirements that are executable and
      apply; of those the ones whose latest predicate passed, failed, or is missing or was not
      evaluated; and the blocking requirements that are not executable or whose applicability is
      open. */
  lemma CountsMean(input: TerminalInput)
    requires Compute(input).Some?
    ensures Compute(input).value.counts ==
            TerminalCounts(|ApplicablePlaces(input)|, |PassedPlaces(input)|, |FailedPlaces(input)|,
                           |UnevaluatedPlaces(input)|, |UnresolvedPlaces(input)|)
  {
    hide Reasons, ActionRemains, Applicables, Passeds, Faileds, NotEvaluateds, Unresolveds, ApplicablePlaces,
         PassedPlaces, FailedPlaces, UnevaluatedPlaces, UnresolvedPlaces;
    ApplicableCount(input);
    PassedCount(input);
    FailedCount(input);
    UnevaluatedCount(input);
    UnresolvedCount(input);
  }

  lemma ApplicableCount(input: TerminalInput)
    ensures |Applicables(input)| == |ApplicablePlaces(input)|
  {
    CountOf(input.requirements, IsApplicable, ApplicablePlaces(input));
  }

  lemma PassedCount(input: TerminalInput)
    ensures |Passeds(input)| == |PassedPlaces(input)|
  {
    hide Latest;
    CountOf(input.requirements, r => IsPassed(input, r), PassedPlaces(input));
    SelectAgrees(input.requirements, r => IsPassed(input, r), r => IsPassed(input, r));
  }

  lemma FailedCount(input: TerminalInput)
    ensures |Faileds(input)| == |FailedPlaces(input)|
  {
    hide Latest;
    CountOf(input.requirements, r => IsFailed(input, r), FailedPlaces(input));
    SelectAgrees(input.requirements, r => IsFailed(input, r), r => IsFailed(input, r));
  }

  lemma UnevaluatedCount(input: TerminalInput)
    ensures |NotEvaluateds(input)| == |UnevaluatedPlaces(input)|
  {
    hide Latest;
    CountOf(input.requirements, r => IsNotEvaluated(input, r), UnevaluatedPlaces(input));
    SelectAgrees(input.requirements, r => IsNotEvaluated(input, r), r => IsNotEvaluated(input, r));
  }

  lemma UnresolvedCount(input: TerminalInput)
    ensures |Unresolveds(input)| == |UnresolvedPlaces(input)|
  {
    CountOf(input.requirements, IsUnresolved, UnresolvedPlaces(input));
  }

  lemma {:induction false} CountOf(rs: seq<RequirementFact>, test: RequirementFact -> bool, places: set<int>)
    requires forall i :: i in places <==> 0 <= i < |rs| && test(rs[i])
    ensures |Select(rs, test)| == |places|
  {
    SelectCount(rs, test);
    assert Places(rs, test) == places;
  }

  /** An open finding with an option, on a blocking requirement that applies and has not passed. */
  predicate Remediable(input: TerminalInput, finding: FindingFact, r: RequirementFact) {
    && finding.status.Open? && finding.hasOption && finding.requirementId == r.id
    && Counted(r) && Latest(input.predicates, r.id) != Some(Pass)
  }

  /** When there is no verdict: while a decision is pending, or something can still be remedied. A
      verdict is for the run and the cycle it was asked for. */
  lemma NoVerdictIff(input: TerminalInput)
    ensures Compute(input).None? <==>
            || Pending in input.decisions
            || exists i, j :: 0 <= i < |input.findings| && 0 <= j < |input.requirements|
                              && Remediable(input, input.findings[i], input.requirements[j])
    ensures Compute(input).Some? ==>
      Compute(input).value.runId == input.runId && Compute(input).value.cycle == input.cycle
  {
    hide Latest, Reasons, Counts;
    var open, rs := Faileds(input) + NotEvaluateds(input), input.requirements;
    forall r ensures r in open <==> r in rs && Counted(r) && Latest(input.predicates, r.id) != Some(Pass) {
      var latest := Latest(input.predicates, r.id);
      assert latest.None? || latest.value.Pass? || latest.value.Fail? || latest.value.NotEvaluated?;
    }
    if ActionRemains(input) {
      var i :| 0 <= i < |input.findings| && input.findings[i].status.Open? && input.findings[i].hasOption
               && exists k :: 0 <= k < |open| && open[k].id == input.findings[i].requirementId;
      var k :| 0 <= k < |open| && open[k].id == input.findings[i].requirementId;
      assert open[k] in open;
      var j :| 0 <= j < |rs| && rs[j] == open[k];
      assert Remediable(input, input.findings[i], rs[j]);
    }
    forall i, j | 0 <= i < |input.findings| && 0 <= j < |rs| && Remediable(input, input.findings[i], rs[j])
      ensures ActionRemains(input)
    {
      assert rs[j] in open;
      var k :| 0 <= k < |open| && open[k] == rs[j];
      assert open[k].id == input.findings[i].requirementId;
    }
  }

  /** The deciding predicate of a requirement is the last one recorded for it. */
  lemma {:induction false} LatestIsLast(predicates: seq<PredicateFact>, id: Id, k: nat)
    requires k < |predicates| && predicates[k].requirementId == id
    requires forall j :: k < j < |predicates| ==> predicates[j].requirementId != id
    ensures Latest(predicates, id) == Some(predicates[k].outcome)
  {
    if k < |predicates| - 1 {
      LatestIsLast(predicates[..|predicates| - 1], id, k);
    }
  }

  /** The facts a delivery may rest on, requirement by requirement. */
  predicate Deliverable(input: TerminalInput) {
    && Pending !in input.decisions
    && input.originalsIntact
    && forall r :: r in input.requirements && r.severity.Blocking? ==>
         && r.normalization.Executable?
         && !r.applicability.ApplicabilityUnresolved?
         && (r.applicability.Applicable? ==> Latest(input.predicates, r.id) == Some(Pass))
  }

  /** A ready verdict is given exactly when nothing is pending, the originals are intact, and
      every blocking requirement is executable, resolved, and passed if it applies. */
  lemma ReadyIffDeliverable(input: TerminalInput)
    ensures (Compute(input).Some? && Compute(input).value.outcome == ReadyOutcome) <==> Deliverable(input)
  {
    var open := Faileds(input) + NotEvaluateds(input);
    if Deliverable(input) {
      assert Unresolveds(input) == [] by { NoneSelected(input.requirements, IsUnresolved); }
      assert Faileds(input) == [] by { NoneSelected(input.requirements, r => IsFailed(input, r)); }
      assert NotEvaluateds(input) == [] by { NoneSelected(input.requirements, r => IsNotEvaluated(input, r)); }
      assert open == [];
    } else if Compute(input).Some? && Reasons(input) == [] {
      assert |Unresolveds(input)| == 0 && |open| == 0;
      forall r | r in input.requirements && r.severity.Blocking?
        ensures r.normalization.Executable? && !r.applicability.ApplicabilityUnresolved?
        ensures r.applicability.Applicable? ==> Latest(input.predicates, r.id) == Some(Pass)
      {
        assert r !in Unresolveds(input) && r !in Faileds(input) && r !in NotEvaluateds(input);
        var latest := Latest(input.predicates, r.id);
        assert latest.None? || latest.value.Pass? || latest.value.Fail? || latest.value.NotEvaluated?;
      }
    }
  }

  /** Fail closed: one blocking requirement that is not executable makes every verdict
      BLOCKED, whatever was measured. */
  lemma UnexecutableBlocks(input: TerminalInput, r: RequirementFact)
    requires r in input.requirements && r.severity.Blocking? && !r.normalization.Executable?
    ensures Compute(input).Some? ==> Compute(input).value.outcome == BlockedOutcome
  {
    ReadyIffDeliverable(input);
  }

  /** And one whose applicability is open. */
  lemma UnresolvedBlocks(input: TerminalInput, r: RequirementFact)
    requires r in input.requirements && r.severity.Blocking? && r.applicability.ApplicabilityUnresolved?
    ensures Compute(input).Some? ==> Compute(input).value.outcome == BlockedOutcome
  {
    ReadyIffDeliverable(input);
  }

  lemma {:induction false} SpecReasonsMeaning(rs: seq<RequirementFact>, reason: Reason)
    ensures reason in SpecReasons(rs) <==> exists r :: r in rs && reason == SpecUnresolved(r.id)
  {
    if rs != [] {
      SpecReasonsMeaning(rs[1..], reason);
      assert rs == [rs[0]] + rs[1..];
    }
  }

  lemma {:induction false} NotPassedReasonsMeaning(rs: seq<RequirementFact>, reason: Reason)
    ensures reason in NotPassedReasons(rs) <==> exists r :: r in rs && reason == RequirementNotPassed(r.id)
  {
    if rs != [] {
      NotPassedReasonsMeaning(rs[1..], reason);
      assert rs == [rs[0]] + rs[1..];
    }
  }

  /** A verdict names every reason there is and no other: each unresolved blocking requirement,
      each applicable one that did not pass, and damaged originals. */
  lemma ReasonsMeaning(input: TerminalInput, reason: Reason)
    requires Compute(input).Some?
    ensures reason in Compute(input).value.reasons <==>
              match reason
              case SpecUnresolved(id) => exists r :: r in input.requirements && r.id == id && IsUnresolved(r)
              case RequirementNotPassed(id) =>
                exists r :: r in input.requirements && r.id == id && IsApplicable(r)
                  && Latest(input.predicates, r.id) != Some(Pass)
              case OriginalIntegrityFailed => !input.originalsIntact
  {
    hide Faileds, NotEvaluateds, Unresolveds, ActionRemains, SpecReasons, NotPassedReasons, IsUnresolved, IsApplicable,
         Latest;
    SpecReasonsMeaning(Unresolveds(input), reason);
    NotPassedReasonsMeaning(Faileds(input) + NotEvaluateds(input), reason);
    UnresolvedAre(input);
    MissedAre(input);
  }

  lemma UnresolvedAre(input: TerminalInput)
    ensures forall r :: r in Unresolveds(input) <==> r in input.requirements && IsUnresolved(r)
  {
    hide IsUnresolved;
  }

  lemma MissedAre(input: TerminalInput)
    ensures forall r :: r in Faileds(input) + NotEvaluateds(input) <==>
      r in input.requirements && IsApplicable(r) && Latest(input.predicates, r.id) != Some(Pass)
  {
    hide IsApplicable, Latest;
    forall r ensures IsFailed(input, r) || IsNotEvaluated(input, r) <==>
      IsApplicable(r) && Latest(input.predicates, r.id) != Some(Pass)
    {
      var latest := Latest(input.predicates, r.id);
      assert latest.None? || latest.value.Pass? || latest.value.Fail? || latest.value.NotEvaluated?;
    }
  }

  /** Closing a finding takes its options away. */
  function CloseOpen(findings: seq<FindingFact>): seq<FindingFact> {
    seq(|findings|, i requires 0 <= i < |findings| =>
      if findings[i].status.Open? then findings[i].(status := Unresolved, hasOption := false) else findings[i])
  }

  /** When an open option alone kept the verdict back, closing the open findings yields a
      verdict, and it is BLOCKED: neither of the two runtime errors after it is reachable. */
  lemma ClosingYieldsBlocked(input: TerminalInput)
    requires Pending !in input.decisions && Compute(input).None?
    ensures var closed := input.(findings := CloseOpen(input.findings));
            Compute(closed).Some? && Compute(closed).value.outcome == BlockedOutcome
  {
    var closed := input.(findings := CloseOpen(input.findings));
    assert Faileds(closed) == Faileds(input) by {
      SelectAgrees(input.requirements, r => IsFailed(closed, r), r => IsFailed(input, r));
    }
    assert NotEvaluateds(closed) == NotEvaluateds(input) by {
      SelectAgrees(input.requirements, r => IsNotEvaluated(closed, r), r => IsNotEvaluated(input, r));
    }
    assert Compute(closed).Some?;
    assert |Faileds(input) + NotEvaluateds(input)| > 0;
    assert |Reasons(closed)| > 0;
  }
}
