/** The authority boundary seen from the runtime's side: it never refuses what the runtime itself
    has offered, but for a rewrite of the manifest after one that failed. */
module Boundary {
  import opened Domain
  import opened Terminal
  import opened Records
  import opened StateMachine
  import opened Lifecycle
  import opened Steadiness
  import opened Inspection
  import opened Refresh
  import opened Diagnosis
  import Authority

  lemma UniqueOption(run: RuntimeRun, option: RemediationOption)
    requires OptionsOk(run) && Offers(run.findings, option)
    ensures RunOption(run, option.optionId) == Some(option)
  {
    hide OptionOk;
    AllOptionsMeaning(run.findings, option);
    var found := FindOption(AllOptions(run.findings), option.optionId);
    AllOptionsMeaning(run.findings, found.value);
  }

  // ------------------------------------------------------------ the parts of a check

  /** `next(...)` over the findings: the first of that name. */
  lemma {:induction false} FoundAt(findings: seq<RuntimeFinding>, findingId: FindingId) returns (k: nat)
    ensures Authority.FindFinding(PendingFindings(findings), findingId).Some? ==>
              && k < |findings| && findings[k].findingId == findingId
              && Authority.FindFinding(PendingFindings(findings), findingId).value.status == findings[k].status
    ensures forall j :: 0 <= j < k && j < |findings| ==> findings[j].findingId != findingId
    ensures Authority.FindFinding(PendingFindings(findings), findingId).None? ==> k == |findings|
  {
    var pending := PendingFindings(findings);
    k := 0;
    if findings != [] {
      assert pending[1..] == PendingFindings(findings[1..]);
      if findings[0].findingId != findingId {
        var n := FoundAt(findings[1..], findingId);
        k := n + 1;
      }
    }
  }

  lemma OpenIsFound(findings: seq<RuntimeFinding>, i: nat)
    requires Unshadowed(findings) && i < |findings| && findings[i].status.Open?
    ensures var found := Authority.FindFinding(PendingFindings(findings), findings[i].findingId);
            found.Some? && found.value.status.Open?
  {
    var k := FoundAt(findings, findings[i].findingId);
  }

  /** An option of the run's own, aimed at a current asset: its call names that option, carries
      its argument hash and stays within the run and off the originals. */
  predicate CallFits(run: RuntimeRun, option: RemediationOption, input: ToolInput) {
    && InputFits(option.tool, input) && (InputRun(input).Some? ==> InputRun(input).value == run.runId)
    && (InputAsset(input).Some? ==>
          var target := Authority.FindTarget(AssetsOf(CurrentAssets(run)), InputAsset(input).value);
          target.Some? && target.value.runId == run.runId && !target.value.protection.Original?)
    && InputOption(input) == Some(option.optionId) && HashArguments(input) == option.argsHash
    && (TierOf(option.tool) == Some(ContentAffecting) ==> InputAuthorization(input).Some?)
  }

  lemma CallAimed(run: RuntimeRun, option: RemediationOption, authorizationId: Id)
    requires HashesOk(run) && OptionOk(option, run) && Aimed(run, option)
    ensures CallFits(run, option, CallOf(option, authorizationId))
  {
    hide HashesOk, CurrentAssets;
    if InputAsset(option.arguments).Some? {
      var item :| item in CurrentAssets(run) && item.asset.assetId == InputAsset(option.arguments).value;
      TargetFound(run, item);
    }
  }

  lemma OptionFound(run: RuntimeRun, option: RemediationOption)
    requires OptionsOk(run) && Offers(run.findings, option)
    ensures FindOption(AllOptions(run.findings), option.optionId) == Some(option) && option in AllOptions(run.findings)
    ensures OptionOk(option, run)
  {
    UniqueOption(run, option);
    AllOptionsMeaning(run.findings, option);
    hide OptionOk;
    var i :| 0 <= i < |run.findings| && option in run.findings[i].options;
  }

  // ------------------------------------------------------------ nothing offered is refused

  lemma EvaluatesBy(run: RuntimeRun, option: RemediationOption, input: ToolInput)
    requires OptionOk(option, run) && CallFits(run, option, input)
    requires FindOption(AllOptions(run.findings), option.optionId) == Some(option)
    ensures var found := Authority.FindFinding(PendingFindings(run.findings), option.findingId);
            Authority.Evaluate(option.tool, input, ContextOf(run, FindingsReady)) ==
              if found.None? || !found.value.status.Open? then Authority.Forbid
              else if option.tier == 1 then Authority.Allow else Authority.RequireDecision
  {
    hide CurrentAssets, AllOptions, Authority.FindTarget, Authority.FindFinding, PendingFindings, AssetsOf,
         FirstPending, FindOption;
  }

  /** Whatever option of an open finding the runtime puts to the policy in FINDINGS_READY: a
      reversible one is allowed, a content-affecting one needs a decision, and none is
      forbidden. */
  lemma OfferedIsAllowed(run: RuntimeRun, cycle: nat, option: RemediationOption)
    requires RunOk(run) && Selectable(run, cycle) && OffersOpen(run.findings, option)
    ensures Authority.Evaluate(option.tool, CallOf(option, 0), ContextOf(run, FindingsReady)) ==
            if option.tier == 1 then Authority.Allow else Authority.RequireDecision
  {
    hide HashesOk, MeasuresOk, OptionOk, CallFits, Aimed, Unshadowed, CallOf, Authority.Evaluate;
    var i :| 0 <= i < |run.findings| && run.findings[i].status.Open? && option in run.findings[i].options;
    OptionFound(run, option);
    CallAimed(run, option, 0);
    OpenIsFound(run.findings, i);
    EvaluatesBy(run, option, CallOf(option, 0));
  }

  /** Such an option may also begin, with whatever authorization, against the assets it was
      offered for. */
  lemma OfferedMayBegin(run: RuntimeRun, state: RunStateSnapshot, status: RunStatus, option: RemediationOption,
                        authorizationId: Id)
    requires RunOk(run) && Offers(run.findings, option) && Aimed(run, option)
    requires state.status.Remediating? && state.runId == run.runId
    ensures Authority.MayBegin(state, ContextOf(run, status), option.tool, CallOf(option, authorizationId), option)
  {
    hide HashesOk, MeasuresOk, Aimed, CallOf, CurrentAssets, AllOptions, Authority.FindTarget, PendingFindings,
         AssetsOf, FirstPending, FindOption;
    OptionFound(run, option);
    CallAimed(run, option, authorizationId);
  }

  /** A request is created exactly when none is pending. */
  lemma RequestMadeIff(run: RuntimeRun, option: RemediationOption, decisionId: Id)
    requires RunOk(run) && Offers(run.findings, option) && option.tier == 2
    ensures Authority.CreateDecisionRequest(ContextOf(run, FindingsReady), option, decisionId).Some? <==>
      FirstPending(run.decisionRequests).None?
  {
    hide OptionsOk, HashesOk, MeasuresOk, FirstPending, AllOptions;
    OptionFound(run, option);
  }

  // ------------------------------------------------------------ the manifest's own finding

  /** No finding of that name has been closed. */
  predicate Reopenable(findings: seq<RuntimeFinding>, findingId: FindingId) {
    forall i :: 0 <= i < |findings| && findings[i].findingId == findingId ==> findings[i].status.Open?
  }

  lemma FirstDecides(findings: seq<RuntimeFinding>, added: RuntimeFinding)
    requires ClosedFirst(findings) && added.status.Open?
    ensures var found := Authority.FindFinding(PendingFindings(findings + [added]), added.findingId);
            found.Some? && (found.value.status.Open? <==> Reopenable(findings, added.findingId))
  {
    hide PendingFindings;
    var updated := findings + [added];
    var k := FoundAt(updated, added.findingId);
    assert updated[|findings|] == added;
    forall i | 0 <= i < |findings| && findings[i].findingId == added.findingId ensures k <= i {
      assert updated[i].findingId == added.findingId;
    }
  }

  /** A rewrite of the manifest is admitted if and only if no finding was closed before for the
      same requirement in the same cycle. After one that failed in this cycle it is forbidden:
      its finding has the same name, and the policy looks at the first. */
  lemma RewriteAdmittedIff(run: RuntimeRun, requirementId: Id, assetId: AssetId, cycle: nat)
    requires RunOk(run) && UpTo(run, cycle)
    ensures var option := ManifestOption(run.runId, requirementId, cycle);
            Authority.Evaluate(WriteChecksumManifest, CallOf(option, 0),
                               ContextOf(WithInvalidation(run, requirementId, assetId, cycle), FindingsReady)) ==
            if Reopenable(run.findings, FindingId(requirementId, cycle, true)) then Authority.Allow
              else Authority.Forbid
  {
    hide OptionOk, CallFits, CallOf, Authority.Evaluate, ManifestOption, Offers, OptionsOk, HashesOk, MeasuresOk,
         PendingFindings, Reopenable, ClosedFirst, FindingsNamed;
    var option, updated := ManifestOption(run.runId, requirementId, cycle),
      WithInvalidation(run, requirementId, assetId, cycle);
    InvalidatedRunOk(run, requirementId, assetId, cycle);
    OptionFound(updated, option);
    ManifestCall(updated, requirementId, cycle);
    EvaluatesBy(updated, option, CallOf(option, 0));
    FirstDecides(run.findings, updated.findings[|run.findings|]);
  }

  /** The run at which that shows: the record a failed rewrite leaves, its finding closed as
      unresolved. A second rewrite in the same cycle is forbidden. */
  lemma SecondRewriteIsForbidden(run: RuntimeRun, requirementId: Id, assetId: AssetId, nextId: AssetId, cycle: nat)
    requires RunOk(run) && UpTo(run, cycle)
    ensures var invalidated, option := WithInvalidation(run, requirementId, assetId, cycle),
              ManifestOption(run.runId, requirementId, cycle);
            var closed := CloseFinding(invalidated.findings, option.findingId, Unresolved, None);
            var left := invalidated.(findings := closed);
            Authority.Evaluate(WriteChecksumManifest, CallOf(option, 0),
                               ContextOf(WithInvalidation(left, requirementId, nextId, cycle), FindingsReady)) ==
            Authority.Forbid
  {
    hide OptionsOk, HashesOk, MeasuresOk, ClosedFirst, FindingsNamed, Authority.Evaluate, CallOf, ContextOf, UpTo;
    var invalidated := WithInvalidation(run, requirementId, assetId, cycle);
    var findingId := FindingId(requirementId, cycle, true);
    var left := invalidated.(findings := CloseFinding(invalidated.findings, findingId, Unresolved, None));
    InvalidatedRunOk(run, requirementId, assetId, cycle);
    AnnotatedRunOk(invalidated, left);
    assert left.findings[|run.findings|].findingId == findingId && left.findings[|run.findings|].status.Unresolved?;
    RewriteAdmittedIff(left, requirementId, nextId, cycle);
  }

  lemma ManifestCall(run: RuntimeRun, requirementId: Id, cycle: nat)
    ensures var option := ManifestOption(run.runId, requirementId, cycle);
            CallFits(run, option, CallOf(option, 0)) && option.tool == WriteChecksumManifest && option.tier == 1
            && option.findingId == FindingId(requirementId, cycle, true) && Aimed(run, option)
  {
    hide CurrentAssets;
  }
}
