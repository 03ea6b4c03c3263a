/** The closed vocabularies of the runtime, and the two result types used everywhere:
    `Option` for a value that may be absent and `Outcome` for an operation that may
    return, raise, or be cut short by the death of the process. */
module Domain {

  datatype Option<+T> = None | Some(value: T)

  /** Opaque identifiers of runs, actions, authorizations, decisions and requirements: they are
      only ever compared. */
  type Id = nat

  /** Asset identifiers are minted in three ways, and an action's output is named after the
      action. */
  datatype AssetId = OriginalAsset(token: Id) | WorkingAsset(token: Id) | ActionAsset(actionId: Id)

  /** Findings and options are named after what they are about, by a hash modelled as an
      injective constructor: a finding after its requirement and cycle, and whether it was
      raised for an outdated manifest rather than by inspection; an option after its finding
      and tool. */
  datatype FindingId = FindingId(requirementId: Id, cycle: nat, invalidation: bool)
  datatype OptionId = OptionId(findingId: FindingId, tool: Tool)

  /** What a file holds, by what the runtime can read in it: the loudness a measurement
      reports, the cues the caption parser returns (as one opaque value), the lines of a
      checksum manifest. SHA-256 is an injective constructor over contents. */
  datatype Content =
    | Media(bytes: nat, loudness: Option<real>)
    | CaptionText(bytes: nat, cues: Option<nat>)
    | ManifestText(lines: seq<ManifestLine>)

  datatype ManifestLine = ManifestLine(sha256: Digest, filename: string)

  datatype Digest = Sha256(content: Content)

  function CuesOf(content: Content): Option<nat> {
    if content.CaptionText? then content.cues else None
  }

  function LoudnessOf(content: Content): Option<real> {
    if content.Media? then content.loudness else None
  }

  datatype RunStatus =
    | Created | Ingesting | Ingested | Interpreting | RequirementsAdmitted | QcPlanned
    | Inspecting | FindingsReady | Remediating | AwaitingHumanDecision
    | DeliveryReady | Blocked | Failed

  datatype Role = ProgramMaster | Captions | Manifest | Other
  datatype Protection = Original | Working | Derivative
  datatype Relation = CopiedFrom | RenamedFrom | ConvertedFrom | DerivedFrom

  /** The tool registry is closed; any other name is `UnknownTool`. */
  datatype Tool =
    | ScanPackage | ProbeMedia | MeasureLoudness | InspectCaptions | VerifyManifest
    | RenameDeliveryCopy | WriteChecksumManifest | ConvertCaptionFormat
    | CreateNormalizedAudioDerivative
    | UnknownTool(name: string)

  datatype Tier = Inspect | Reversible | ContentAffecting

  /** `TOOL_REGISTRY.get(tool)`, reduced to the authority tier. */
  function TierOf(tool: Tool): Option<Tier> {
    match tool
    case ScanPackage | ProbeMedia | MeasureLoudness | InspectCaptions | VerifyManifest => Some(Inspect)
    case RenameDeliveryCopy | WriteChecksumManifest | ConvertCaptionFormat => Some(Reversible)
    case CreateNormalizedAudioDerivative => Some(ContentAffecting)
    case UnknownTool(_) => None
  }

  datatype Error =
    | StoreConsistency | AuthorityRefused | MissingKey | InvalidValue | IoError
    | PermissionDenied | InvalidTransition | RecoveryIntegrity | RuntimeFault | DiagnosisRejected

  /** `Raised` is an exception that reached the caller; `Crashed` means the process died
      and only what is durable survives. */
  datatype Outcome<+T> = Done(value: T) | Raised(error: Error) | Crashed {
    predicate IsFailure() { !Done? }

    function PropagateFailure<U>(): Outcome<U>
      requires IsFailure()
    {
      if Raised? then Outcome<U>.Raised(error) else Outcome<U>.Crashed
    }

    function Extract(): T
      requires Done?
    {
      value
    }
  }

  /** What the environment does to one durable write. An error may be reported before
      the write took effect or after it. */
  datatype Fault = NoFault | ErrorBefore | ErrorAfter | CrashBefore | CrashAfter

  /** The environment: any fault, at any write. */
  method NextFault() returns (fault: Fault) {
    fault := *;
  }
}
