/** The durable records of a run: tool inputs and options, actions and authorizations,
    decisions, assets, and the run itself. */
module Records {
  import opened Domain
  import opened Sequences
  import opened Constraints
  import opened Terminal

  // ------------------------------------------------------------ tool calls

  /** One typed input per registered tool. */
  datatype ToolInput =
    | ScanInput(runId: Id)
    | ProbeInput(assetId: AssetId)
    | LoudnessInput(assetId: AssetId, stream: string)
    | CaptionsInput(assetId: AssetId)
    | VerifyInput(runId: Id)
    | RenameInput(assetId: AssetId, optionId: OptionId, newFilename: string)
    | ManifestInput(runId: Id, optionId: OptionId, format: string)
    | ConvertInput(assetId: AssetId, optionId: OptionId, targetFormat: string)
    | NormalizeInput(assetId: AssetId, optionId: OptionId, targetLufs: real, tolerance: real, authorizationId: Id)

  function InputRun(input: ToolInput): Option<Id> {
    if input.ScanInput? || input.VerifyInput? || input.ManifestInput? then Some(input.runId) else None
  }

  function InputAsset(input: ToolInput): Option<AssetId> {
    if input.ScanInput? || input.VerifyInput? || input.ManifestInput? then None else Some(input.assetId)
  }

  function InputOption(input: ToolInput): Option<OptionId> {
    if input.RenameInput? || input.ManifestInput? || input.ConvertInput? || input.NormalizeInput?
    then Some(input.optionId) else None
  }

  function InputAuthorization(input: ToolInput): Option<Id> {
    if input.NormalizeInput? then Some(input.authorizationId) else None
  }

  /** `isinstance(payload, specification.input_model)`. */
  predicate InputFits(tool: Tool, input: ToolInput) {
    match tool
    case ScanPackage => input.ScanInput?
    case ProbeMedia => input.ProbeInput?
    case MeasureLoudness => input.LoudnessInput?
    case InspectCaptions => input.CaptionsInput?
    case VerifyManifest => input.VerifyInput?
    case RenameDeliveryCopy => input.RenameInput?
    case WriteChecksumManifest => input.ManifestInput?
    case ConvertCaptionFormat => input.ConvertInput?
    case CreateNormalizedAudioDerivative => input.NormalizeInput?
    case UnknownTool(_) => false
  }

  /** `canonical_arguments`: everything but the authorization. */
  function Canonical(input: ToolInput): ToolInput {
    if input.NormalizeInput? then input.(authorizationId := 0) else input
  }

  /** The SHA-256 of the canonical arguments, as an injective constructor. */
  datatype ArgsHash = ArgsHash(arguments: ToolInput)

  function HashArguments(input: ToolInput): ArgsHash { ArgsHash(Canonical(input)) }

  /** Each input is the input of one tool. */
  function ToolOf(input: ToolInput): Tool {
    match input
    case ScanInput(_) => ScanPackage
    case ProbeInput(_) => ProbeMedia
    case LoudnessInput(_, _) => MeasureLoudness
    case CaptionsInput(_) => InspectCaptions
    case VerifyInput(_) => VerifyManifest
    case RenameInput(_, _, _) => RenameDeliveryCopy
    case ManifestInput(_, _, _) => WriteChecksumManifest
    case ConvertInput(_, _, _) => ConvertCaptionFormat
    case NormalizeInput(_, _, _, _, _) => CreateNormalizedAudioDerivative
  }

  /** An inspection's input names no option, a mutation's does, and a content-affecting one's has
      room for an authorization too. */
  lemma FitsIff(tool: Tool, input: ToolInput)
    ensures InputFits(tool, input) <==> tool == ToolOf(input)
    ensures TierOf(ToolOf(input)) ==
            Some(if InputAuthorization(input).Some? then ContentAffecting
                 else if InputOption(input).Some? then Reversible else Inspect)
  {}

  /** Two calls have one hash exactly when they differ in their authorization at most. */
  lemma HashBinds(a: ToolInput, b: ToolInput)
    ensures HashArguments(a) == HashArguments(b) <==>
              || a == b
              || (a.NormalizeInput? && b.NormalizeInput? && a.assetId == b.assetId && a.optionId == b.optionId
                  && a.targetLufs == b.targetLufs && a.tolerance == b.tolerance)
  {}

  datatype RemediationOption = RemediationOption(
    optionId: OptionId, findingId: FindingId, tool: Tool, arguments: ToolInput, argsHash: ArgsHash, tier: nat)

  /** `RemediationOption.from_call`. */
  function OptionFromCall(optionId: OptionId, findingId: FindingId, tool: Tool, input: ToolInput, tier: nat)
      : RemediationOption {
    RemediationOption(optionId, findingId, tool, Canonical(input), HashArguments(input), tier)
  }

  datatype Action = Action(
    actionId: Id, runId: Id, cycle: nat, tool: Tool, optionId: OptionId, argsHash: ArgsHash,
    authorizationId: Option<Id>, actor: string)

  datatype ActionContext = ActionContext(action: Action, option: RemediationOption)

  // ------------------------------------------------------------ authority

  datatype AuthorizationStatus = Issued | Consumed | Void

  datatype Authorization = Authorization(
    authorizationId: Id, runId: Id, decisionId: Id, optionId: OptionId, argsHash: ArgsHash,
    status: AuthorizationStatus, consumedBy: Option<Id>)

  datatype DecisionRequest = DecisionRequest(
    decisionId: Id, runId: Id, findingId: FindingId, optionId: OptionId, status: DecisionStatus)

  datatype Decision = Decision(decisionId: Id, actor: string, approved: bool)

  // ------------------------------------------------------------ assets

  /** Workspace-relative paths. Asset and action identifiers and file names hold no
      separator, so a path is its root, its owner and its name. */
  datatype WorkspacePath =
    | OriginalPath(assetId: AssetId, filename: string)
    | WorkingPath(assetId: AssetId, filename: string)
    | DerivativePath(assetId: AssetId, filename: string)
    | TemporaryPath(actionId: Id, suffix: string)
    | QuarantinePath(of: WorkspacePath, actionId: Id)

  datatype Asset = Asset(
    assetId: AssetId, runId: Id, role: Role, filename: string, sha256: Digest, protection: Protection,
    predecessor: Option<AssetId>, relation: Option<Relation>, createdByAction: Option<Id>)

  datatype RuntimeAsset = RuntimeAsset(asset: Asset, path: WorkspacePath)

  // ------------------------------------------------------------ the run

  datatype RuntimeRequirement = RuntimeRequirement(
    requirementId: Id, key: Option<Key>, tool: Option<Tool>, stream: Option<string>, role: Role,
    constraint: Option<Constraint>, severity: Severity, normalization: NormalizationStatus,
    applicability: Applicability, disposition: Disposition)

  datatype RuntimeFinding = RuntimeFinding(
    findingId: FindingId, requirementId: Id, assetId: AssetId, cycleOpened: nat, status: FindingStatus,
    options: seq<RemediationOption>, resolvedByAction: Option<Id>)

  datatype RuntimeRun = RuntimeRun(
    runId: Id,
    assets: seq<RuntimeAsset>,
    requirements: seq<RuntimeRequirement>,
    checkOrder: seq<Id>,
    measurements: seq<Measurement>,
    findings: seq<RuntimeFinding>,
    decisionRequests: seq<DecisionRequest>,
    decisions: seq<Decision>,
    originalHashes: seq<(AssetId, Digest)>,
    autonomousRemediations: nat,
    authorizedRemediations: nat)

  /** The assets some later asset replaced. */
  function Superseded(assets: seq<RuntimeAsset>): set<AssetId> {
    set item | item in assets && item.asset.predecessor.Some? :: item.asset.predecessor.value
  }

  predicate IsLeaf(assets: seq<RuntimeAsset>, item: RuntimeAsset) {
    item.asset.assetId !in Superseded(assets) && !item.asset.protection.Original?
  }

  /** A leaf: a working copy or a derivative that is no other asset's predecessor. */
  lemma LeafIff(assets: seq<RuntimeAsset>, item: RuntimeAsset)
    ensures IsLeaf(assets, item) <==>
              && (item.asset.protection.Working? || item.asset.protection.Derivative?)
              && forall i :: 0 <= i < |assets| ==> assets[i].asset.predecessor != Some(item.asset.assetId)
  {
    forall i | 0 <= i < |assets| && assets[i].asset.predecessor == Some(item.asset.assetId)
      ensures item.asset.assetId in Superseded(assets)
    {
      assert assets[i] in assets;
    }
  }

  /** `current_assets`: the leaves of the lineage, originals excepted. */
  function CurrentAssets(run: RuntimeRun): (r: seq<RuntimeAsset>)
    ensures forall item :: item in r <==> item in run.assets && IsLeaf(run.assets, item)
  {
    Select(run.assets, item => IsLeaf(run.assets, item))
  }

  function FindAsset(assets: seq<RuntimeAsset>, assetId: AssetId): (r: Option<RuntimeAsset>)
    ensures r.Some? ==> r.value in assets && r.value.asset.assetId == assetId
    ensures r.None? <==> forall item :: item in assets ==> item.asset.assetId != assetId
  {
    if assets == [] then None
    else if assets[0].asset.assetId == assetId then Some(assets[0])
    else FindAsset(assets[1..], assetId)
  }

  function FindCreated(assets: seq<RuntimeAsset>, actionId: Id): (r: Option<RuntimeAsset>)
    ensures r.Some? ==> r.value in assets && r.value.asset.createdByAction == Some(actionId)
    ensures r.None? <==> forall item :: item in assets ==> item.asset.createdByAction != Some(actionId)
  {
    if assets == [] then None
    else if assets[0].asset.createdByAction == Some(actionId) then Some(assets[0])
    else FindCreated(assets[1..], actionId)
  }

  function AllOptions(findings: seq<RuntimeFinding>): seq<RemediationOption> {
    if findings == [] then [] else findings[0].options + AllOptions(findings[1..])
  }

  function FindOption(options: seq<RemediationOption>, optionId: OptionId): (r: Option<RemediationOption>)
    ensures r.Some? ==> r.value in options && r.value.optionId == optionId
    ensures r.None? <==> forall option :: option in options ==> option.optionId != optionId
  {
    if options == [] then None
    else if options[0].optionId == optionId then Some(options[0])
    else FindOption(options[1..], optionId)
  }

  /** `RuntimeRun.option`; `None` is the `KeyError`. */
  function RunOption(run: RuntimeRun, optionId: OptionId): Option<RemediationOption> {
    FindOption(AllOptions(run.findings), optionId)
  }
}
