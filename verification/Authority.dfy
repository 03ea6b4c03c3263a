/** The authority boundary: what the policy lets a tool call do, when a decision request may
    be created, and the checks made before any mutating action starts. */
module Authority {
  import opened Domain
  import opened Terminal
  import opened Records
  import opened StateMachine

  datatype AuthorityOutcome = Allow | RequireDecision | Forbid

  datatype PendingFinding = PendingFinding(findingId: FindingId, status: FindingStatus)

  datatype AuthorityRunContext = AuthorityRunContext(
    runId: Id, status: RunStatus, assets: seq<Asset>, findings: seq<PendingFinding>,
    options: seq<RemediationOption>, pendingDecision: Option<DecisionRequest>)

  function FindTarget(assets: seq<Asset>, assetId: AssetId): (r: Option<Asset>)
    ensures r.Some? ==> r.value in assets && r.value.assetId == assetId
    ensures r.None? <==> forall asset :: asset in assets ==> asset.assetId != assetId
  {
    if assets == [] then None
    else if assets[0].assetId == assetId then Some(assets[0])
    else FindTarget(assets[1..], assetId)
  }

  function FindFinding(findings: seq<PendingFinding>, findingId: FindingId): (r: Option<PendingFinding>)
    ensures r.Some? ==> r.value in findings && r.value.findingId == findingId
    ensures r.None? <==> forall finding :: finding in findings ==> finding.findingId != findingId
  {
    if findings == [] then None
    else if findings[0].findingId == findingId then Some(findings[0])
    else FindFinding(findings[1..], findingId)
  }

  function Target(input: ToolInput, assets: seq<Asset>): Option<Asset> {
    match InputAsset(input)
    case None => None
    case Some(assetId) => FindTarget(assets, assetId)
  }

  function TierNumber(tier: Tier): nat {
    match tier
    case Inspect => 0
    case Reversible => 1
    case ContentAffecting => 2
  }

  /** `AuthorityEngine.evaluate`. */
  function Evaluate(tool: Tool, input: ToolInput, run: AuthorityRunContext): AuthorityOutcome {
    if TierOf(tool).None? then Forbid
    else
      var tier := TierOf(tool).value;
      if !InputFits(tool, input) then Forbid
      else if InputRun(input).Some? && InputRun(input).value != run.runId then Forbid
      else
        var target := Target(input, run.assets);
        if InputAsset(input).Some? && (target.None? || target.value.runId != run.runId) then Forbid
        else if tier.Inspect? then
          (if run.status.Inspecting? || run.status.FindingsReady? then Allow else Forbid)
        else if target.Some? && target.value.protection.Original? then Forbid
        else
          var option := if InputOption(input).None? then None else FindOption(run.options, InputOption(input).value);
          if option.None? then Forbid
          else
            var finding := FindFinding(run.findings, option.value.findingId);
            if finding.None? || !finding.value.status.Open? then Forbid
            else if option.value.tool != tool || option.value.tier != TierNumber(tier) then Forbid
            else if option.value.argsHash != HashArguments(input) then Forbid
            else if !run.status.FindingsReady? then Forbid
            else if tier.Reversible? then Allow
            else RequireDecision
  }

  /** The call is for this run, or for an asset of it. */
  predicate StaysInRun(input: ToolInput, run: AuthorityRunContext) {
    && (input.ScanInput? || input.VerifyInput? || input.ManifestInput? ==> input.runId == run.runId)
    && (!input.ScanInput? && !input.VerifyInput? && !input.ManifestInput? ==>
          FindTarget(run.assets, input.assetId).Some? && FindTarget(run.assets, input.assetId).value.runId == run.runId)
  }

  /** An inspection is allowed exactly as such a call of its own, while the run is being
      inspected or its findings are ready; it never needs a decision. */
  lemma InspectionAllowedIff(tool: Tool, input: ToolInput, run: AuthorityRunContext)
    requires tool.ScanPackage? || tool.ProbeMedia? || tool.MeasureLoudness? || tool.InspectCaptions?
             || tool.VerifyManifest? || tool.UnknownTool?
    ensures Evaluate(tool, input, run) ==
            if tool == ToolOf(input) && StaysInRun(input, run) && (run.status.Inspecting? || run.status.FindingsReady?)
            then Allow else Forbid
  {
    FitsIff(tool, input);
  }

  /** The option a mutating call names, of the tool's own tier, which binds the call's arguments
      and belongs to an open finding. */
  predicate Binds(option: RemediationOption, tool: Tool, input: ToolInput, run: AuthorityRunContext) {
    && option.tool == tool && option.tier == (if tool.CreateNormalizedAudioDerivative? then 2 else 1)
    && option.argsHash == HashArguments(input)
    && exists finding :: finding in run.findings && finding.status.Open?
                         && FindFinding(run.findings, option.findingId) == Some(finding)
  }

  /** A mutation passes exactly as such a call, when findings are ready, for the option it names,
      and not on an original; a reversible one is allowed, a content-affecting one needs a
      decision. */
  lemma MutationAllowedIff(tool: Tool, input: ToolInput, run: AuthorityRunContext)
    requires tool.RenameDeliveryCopy? || tool.WriteChecksumManifest? || tool.ConvertCaptionFormat?
             || tool.CreateNormalizedAudioDerivative?
    ensures Evaluate(tool, input, run) ==
            if tool == ToolOf(input) && StaysInRun(input, run) && run.status.FindingsReady?
               && (!input.ManifestInput? ==> !FindTarget(run.assets, input.assetId).value.protection.Original?)
               && FindOption(run.options, input.optionId).Some?
               && Binds(FindOption(run.options, input.optionId).value, tool, input, run)
            then (if tool.CreateNormalizedAudioDerivative? then RequireDecision else Allow)
            else Forbid
  {
    hide FindTarget, FindFinding, FindOption, HashArguments;
    FitsIff(tool, input);
  }

  /** A mutating call is let through only for a reversible tool, in FINDINGS_READY, for an
      option of an open finding that binds this very tool and these very arguments, and
      never against an original. */
  lemma AllowedMutationIsBound(tool: Tool, input: ToolInput, run: AuthorityRunContext)
    requires Evaluate(tool, input, run) != Forbid && TierOf(tool) != Some(Inspect)
    ensures run.status.FindingsReady?
    ensures InputAsset(input).Some? ==>
              exists asset :: asset in run.assets && asset.assetId == InputAsset(input).value
                              && asset.runId == run.runId && !asset.protection.Original?
    ensures exists option :: && option in run.options && Some(option.optionId) == InputOption(input)
                             && option.tool == tool && option.argsHash == HashArguments(input)
                             && FindFinding(run.findings, option.findingId).Some?
                             && FindFinding(run.findings, option.findingId).value.status.Open?
    ensures Evaluate(tool, input, run) == (if TierOf(tool) == Some(Reversible) then Allow else RequireDecision)
  {
    var option := FindOption(run.options, InputOption(input).value).value;
    assert option in run.options && Some(option.optionId) == InputOption(input);
  }

  /** The authority of a call does not depend on the authorization it carries: the
      authorization is outside the arguments an option binds. */
  lemma AuthorizationIsNotAnArgument(input: ToolInput, authorizationId: Id)
    requires input.NormalizeInput?
    ensures HashArguments(input.(authorizationId := authorizationId)) == HashArguments(input)
  {}

  /** `create_decision_request`; `None` is the `AuthorityError`. */
  function CreateDecisionRequest(run: AuthorityRunContext, option: RemediationOption, decisionId: Id)
      : Option<DecisionRequest> {
    if run.pendingDecision.Some? then None
    else if option !in run.options || option.tier != 2 then None
    else Some(DecisionRequest(decisionId, run.runId, option.findingId, option.optionId, Pending))
  }

  /** A request is made for a content-affecting option of the run, one at a time; it is pending,
      and names the run, the finding and the option. */
  lemma RequestIs(run: AuthorityRunContext, option: RemediationOption, decisionId: Id)
    ensures var r := CreateDecisionRequest(run, option, decisionId);
            && (r.Some? <==> run.pendingDecision.None? && option in run.options && option.tier == 2)
            && (r.Some? ==> r.value.decisionId == decisionId && r.value.runId == run.runId && r.value.status.Pending?
                            && r.value.findingId == option.findingId && r.value.optionId == option.optionId)
  {}

  /** Every check of `ActionExecutor.begin` before anything is written. */
  predicate MayBegin(state: RunStateSnapshot, run: AuthorityRunContext, tool: Tool, input: ToolInput,
                     option: RemediationOption)
  {
    && state.status.Remediating?
    && run.runId == state.runId
    && TierOf(tool).Some? && !TierOf(tool).value.Inspect?
    && (InputRun(input).Some? ==> InputRun(input).value == state.runId)
    && option in run.options && option.tool == tool
    && HashArguments(input) == option.argsHash && InputOption(input) == Some(option.optionId)
    && (InputAsset(input).Some? ==>
          && Target(input, run.assets).Some?
          && Target(input, run.assets).value.runId == state.runId
          && !Target(input, run.assets).value.protection.Original?)
    && (TierOf(tool).value.ContentAffecting? ==> InputAuthorization(input).Some?)
  }

  /** What may begin: a mutation under way in this run, as a call of the very option it is begun
      for, on an asset of the run that is no original; a content-affecting one with an
      authorization. */
  lemma MayBeginIff(state: RunStateSnapshot, run: AuthorityRunContext, tool: Tool, input: ToolInput,
                    option: RemediationOption)
    ensures MayBegin(state, run, tool, input, option) <==>
              && state.status.Remediating? && run.runId == state.runId && StaysInRun(input, run)
              && (tool.RenameDeliveryCopy? || tool.WriteChecksumManifest? || tool.ConvertCaptionFormat?
                  || tool.CreateNormalizedAudioDerivative?)
              && (tool.CreateNormalizedAudioDerivative? ==> input.NormalizeInput?)
              && (input.RenameInput? || input.ManifestInput? || input.ConvertInput? || input.NormalizeInput?)
              && option in run.options && option.tool == tool
              && option.optionId == input.optionId && option.argsHash == HashArguments(input)
              && (!input.ManifestInput? ==> !FindTarget(run.assets, input.assetId).value.protection.Original?)
  {
    hide FindTarget, HashArguments;
  }
}
