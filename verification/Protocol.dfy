/** The remediation protocol on values: what an action is to produce, how an output is
    checked, and the relation between ledger, run record and workspace that every step of
    execution and recovery keeps. */
module Protocol {
  import opened Domain
  import opened Sequences
  import opened Ledger
  import opened Records
  import Constraints

  type Files = map<WorkspacePath, Content>

  // ------------------------------------------------------------ descriptors

  datatype OutputDescriptor = OutputDescriptor(
    assetId: AssetId, filename: string, path: WorkspacePath, temporary: WorkspacePath,
    predecessor: Option<AssetId>, relation: Option<Relation>, protection: Protection, role: Role)

  /** The index of the last dot that starts a suffix, as `pathlib` reads a name. */
  function SuffixStart(name: string, upTo: nat): (r: nat)
    requires upTo <= |name|
    ensures r <= upTo || r == |name|
  {
    if upTo <= 1 then |name|
    else if name[upTo - 1] == '.' && upTo < |name| then upTo - 1
    else if name[upTo - 1] == '.' then |name|
    else SuffixStart(name, upTo - 1)
  }

  function Stem(name: string): string { name[..SuffixStart(name, |name|)] }

  function Suffix(name: string): string { name[SuffixStart(name, |name|)..] }

  /** Supported caption targets; values arrive case-folded. */
  function CaptionSuffix(target: string): Option<string> {
    if target == "webvtt" then Some(".vtt") else if target == "srt" then Some(".srt") else None
  }

  function Manifests(run: RuntimeRun): seq<RuntimeAsset> {
    Select(CurrentAssets(run), (item: RuntimeAsset) => item.asset.role.Manifest?)
  }

  function MakeDescriptor(actionId: Id, filename: string, predecessor: Option<AssetId>, relation: Option<Relation>,
                          protection: Protection, role: Role): OutputDescriptor
  {
    var assetId := ActionAsset(actionId);
    OutputDescriptor(
      assetId, filename,
      if protection.Derivative? then DerivativePath(assetId, filename) else WorkingPath(assetId, filename),
      TemporaryPath(actionId, Suffix(filename)), predecessor, relation, protection, role)
  }

  /** `_descriptor`; `None` is any of its exceptions. */
  function Describe(actionId: Id, option: RemediationOption, run: RuntimeRun): Option<OutputDescriptor> {
    match (option.tool, option.arguments)
    case (RenameDeliveryCopy, RenameInput(source, _, filename)) =>
      (match FindAsset(run.assets, source)
       case None => None
       case Some(item) =>
         Some(MakeDescriptor(actionId, filename, Some(source), Some(RenamedFrom), Working, item.asset.role)))
    case (ConvertCaptionFormat, ConvertInput(source, _, target)) =>
      (match (FindAsset(run.assets, source), CaptionSuffix(target))
       case (Some(item), Some(suffix)) =>
         Some(MakeDescriptor(actionId, Stem(item.asset.filename) + suffix, Some(source), Some(ConvertedFrom), Working,
                             Role.Captions))
       case _ => None)
    case (WriteChecksumManifest, ManifestInput(_, _, format)) =>
      if format != "sha256sums" then None
      else
        var current := Manifests(run);
        Some(MakeDescriptor(actionId, "SHA256SUMS",
          if current == [] then None else Some(current[0].asset.assetId),
          if current == [] then None else Some(DerivedFrom), Working, Role.Manifest))
    case (CreateNormalizedAudioDerivative, NormalizeInput(source, _, _, _, _)) =>
      (match FindAsset(run.assets, source)
       case None => None
       case Some(item) =>
         Some(MakeDescriptor(actionId, item.asset.filename, Some(source), Some(DerivedFrom), Derivative,
           ProgramMaster)))
    case _ => None
  }

  /** `sorted(assets, key=filename)`, which keeps the order of equal names. */
  function InsertByName(item: RuntimeAsset, sorted: seq<RuntimeAsset>): seq<RuntimeAsset> {
    if sorted != [] && Constraints.StringLess(sorted[0].asset.filename, item.asset.filename)
    then [sorted[0]] + InsertByName(item, sorted[1..])
    else [item] + sorted
  }

  function SortByName(items: seq<RuntimeAsset>): seq<RuntimeAsset> {
    if items == [] then [] else InsertByName(items[0], SortByName(items[1..]))
  }

  function ListedLeaves(assets: seq<RuntimeAsset>): seq<RuntimeAsset> {
    Select(assets, (item: RuntimeAsset) => IsLeaf(assets, item) && !item.asset.role.Manifest?)
  }

  function LineOf(item: RuntimeAsset): ManifestLine { ManifestLine(item.asset.sha256, item.asset.filename) }

  function LinesOf(items: seq<RuntimeAsset>): seq<ManifestLine> {
    if items == [] then [] else [LineOf(items[0])] + LinesOf(items[1..])
  }

  /** `_manifest_text`: the current leaves, manifests excepted, by name. */
  function ManifestLines(assets: seq<RuntimeAsset>): seq<ManifestLine> {
    LinesOf(SortByName(ListedLeaves(assets)))
  }

  /** `_verify_temporary` on the content found at the path. */
  predicate Verified(option: RemediationOption, run: RuntimeRun, files: Files, output: Content) {
    match (option.tool, option.arguments)
    case (RenameDeliveryCopy, RenameInput(source, _, _)) =>
      FindAsset(run.assets, source).Some? && Sha256(output) == FindAsset(run.assets, source).value.asset.sha256
    case (ConvertCaptionFormat, ConvertInput(source, _, _)) =>
      && FindAsset(run.assets, source).Some?
      && FindAsset(run.assets, source).value.path in files
      && CuesOf(files[FindAsset(run.assets, source).value.path]).Some?
      && CuesOf(files[FindAsset(run.assets, source).value.path]) == CuesOf(output)
    case (WriteChecksumManifest, ManifestInput(_, _, _)) =>
      output == ManifestText(ManifestLines(run.assets))
    case (CreateNormalizedAudioDerivative, NormalizeInput(_, _, target, tolerance, _)) =>
      && LoudnessOf(output).Some?
      && -tolerance <= LoudnessOf(output).value - target <= tolerance
    case _ => false
  }

  /** `_successor`. */
  function Successor(actionId: Id, run: RuntimeRun, descriptor: OutputDescriptor, output: Content): RuntimeAsset {
    RuntimeAsset(
      Asset(descriptor.assetId, run.runId, descriptor.role, descriptor.filename, Sha256(output),
            descriptor.protection, descriptor.predecessor, descriptor.relation, Some(actionId)),
      descriptor.path)
  }

  function WithAsset(run: RuntimeRun, item: RuntimeAsset): RuntimeRun {
    run.(assets := run.assets + [item])
  }

  /** The comparison `recover` makes between a persisted asset and a fresh descriptor. */
  predicate MatchesDescriptor(item: RuntimeAsset, descriptor: OutputDescriptor) {
    && item.path == descriptor.path
    && item.asset.assetId == descriptor.assetId
    && item.asset.filename == descriptor.filename
    && item.asset.predecessor == descriptor.predecessor
    && item.asset.relation == descriptor.relation
    && item.asset.protection == descriptor.protection
    && item.asset.role == descriptor.role
  }

  // ------------------------------------------------------------ what an output must be

  /** The recorded asset an option works on. */
  predicate IsSource(run: RuntimeRun, id: AssetId, source: RuntimeAsset) {
    FindAsset(run.assets, id) == Some(source)
  }

  /** What each tool must have made: a copy of the source's bytes, the source's cues, a manifest
      of the leaves, audio within the tolerance of its target. */
  predicate Fulfils(option: RemediationOption, run: RuntimeRun, files: Files, output: Content) {
    match option.arguments
    case RenameInput(id, _, _) =>
      exists source :: source in run.assets && IsSource(run, id, source) && source.asset.sha256 == Sha256(output)
    case ConvertInput(id, _, _) =>
      exists source :: source in run.assets && IsSource(run, id, source) && source.path in files
        && files[source.path].CaptionText? && output.CaptionText?
        && output.cues.Some? && output.cues == files[source.path].cues
    case ManifestInput(_, _, _) => output == ManifestText(ManifestLines(run.assets))
    case NormalizeInput(_, _, target, tolerance, _) =>
      output.Media? && output.loudness.Some? && target - tolerance <= output.loudness.value <= target + tolerance
    case _ => false
  }

  lemma VerifiedFulfils(actionId: Id, option: RemediationOption, run: RuntimeRun, files: Files, output: Content)
    requires Describe(actionId, option, run).Some?
    ensures Verified(option, run, files, output) <==> Fulfils(option, run, files, output)
  {
    hide FindAsset, ManifestLines;
    if InputAsset(option.arguments).Some? && FindAsset(run.assets, InputAsset(option.arguments).value).Some? {
      var source := FindAsset(run.assets, InputAsset(option.arguments).value).value;
      assert source in run.assets && IsSource(run, InputAsset(option.arguments).value, source);
    }
  }

  /** How the new asset is recorded: under which name, in which role, after which asset and how
      related to it, and whether as a working copy or as a derivative. */
  predicate RecordedAs(item: RuntimeAsset, filename: string, role: Role, predecessor: Option<AssetId>,
                       relation: Option<Relation>, protection: Protection)
  {
    && item.asset.filename == filename && item.asset.role == role
    && item.asset.predecessor == predecessor && item.asset.relation == relation && item.asset.protection == protection
    && item.path == if protection.Derivative? then DerivativePath(item.asset.assetId, filename)
                    else WorkingPath(item.asset.assetId, filename)
  }

  /** The new asset bears the name the option asks for, in the role of what it replaces: the new
      name, the source's own name with the suffix of the new format, the name of a checksum
      manifest, the source's name. */
  predicate NamedFor(option: RemediationOption, run: RuntimeRun, item: RuntimeAsset) {
    match option.arguments
    case RenameInput(id, _, name) =>
      exists source :: source in run.assets && IsSource(run, id, source)
        && RecordedAs(item, name, source.asset.role, Some(id), Some(RenamedFrom), Working)
    case ConvertInput(id, _, format) =>
      && (format == "webvtt" || format == "srt")
      && exists source :: source in run.assets && IsSource(run, id, source)
           && RecordedAs(item, Stem(source.asset.filename) + if format == "srt" then ".srt" else ".vtt", Captions,
                         Some(id), Some(ConvertedFrom), Working)
    case ManifestInput(_, _, format) =>
      && format == "sha256sums"
      && if exists former :: former in run.assets && IsLeaf(run.assets, former) && former.asset.role.Manifest?
         then exists k :: 0 <= k < |run.assets| && FirstManifest(run, k)
                && RecordedAs(item, "SHA256SUMS", Manifest, Some(run.assets[k].asset.assetId), Some(DerivedFrom),
                              Working)
         else RecordedAs(item, "SHA256SUMS", Manifest, None, None, Working)
    case NormalizeInput(id, _, _, _, _) =>
      exists source :: source in run.assets && IsSource(run, id, source)
        && RecordedAs(item, source.asset.filename, ProgramMaster, Some(id), Some(DerivedFrom), Derivative)
    case _ => false
  }

  /** The first manifest that nothing replaced. */
  predicate FirstManifest(run: RuntimeRun, k: int) {
    && 0 <= k < |run.assets| && IsLeaf(run.assets, run.assets[k]) && run.assets[k].asset.role.Manifest?
    && forall j :: 0 <= j < k && IsLeaf(run.assets, run.assets[j]) ==> !run.assets[j].asset.role.Manifest?
  }

  lemma ManifestsFirst(run: RuntimeRun) returns (k: nat)
    ensures Manifests(run) == [] <==> forall item :: item in run.assets && IsLeaf(run.assets, item) ==>
      !item.asset.role.Manifest?
    ensures Manifests(run) != [] ==> FirstManifest(run, k) && Manifests(run)[0] == run.assets[k]
  {
    hide IsLeaf;
    var leaf := (item: RuntimeAsset) => IsLeaf(run.assets, item);
    var manifest := (item: RuntimeAsset) => item.asset.role.Manifest?;
    var both := (item: RuntimeAsset) => IsLeaf(run.assets, item) && item.asset.role.Manifest?;
    SelectTwice(run.assets, leaf, manifest, both);
    SelectAgrees(run.assets, leaf, item => IsLeaf(run.assets, item));
    SelectAgrees(CurrentAssets(run), manifest, (item: RuntimeAsset) => item.asset.role.Manifest?);
    k := 0;
    if Manifests(run) != [] {
      k := FirstIndex(run.assets, both);
      assert Manifests(run)[0] in Manifests(run);
    }
  }

  lemma DescribedIsNamed(actionId: Id, option: RemediationOption, run: RuntimeRun, item: RuntimeAsset)
    requires Describe(actionId, option, run).Some?
    ensures Describe(actionId, option, run).value.assetId == ActionAsset(actionId)
    ensures MatchesDescriptor(item, Describe(actionId, option, run).value) ==> NamedFor(option, run, item)
  {
    hide FindAsset, Stem, Suffix, Manifests, IsLeaf;
    if InputAsset(option.arguments).Some? {
      var source := FindAsset(run.assets, InputAsset(option.arguments).value).value;
      assert source in run.assets && IsSource(run, InputAsset(option.arguments).value, source);
    } else {
      var k := ManifestsFirst(run);
    }
  }

  /** What the action made: its own asset, named and recorded as the option asks, over a file
      that hashes as recorded and is what the tool must make. */
  predicate Made(actionId: Id, option: RemediationOption, run: RuntimeRun, files: Files, item: RuntimeAsset) {
    && item.asset.assetId == ActionAsset(actionId) && item.asset.createdByAction == Some(actionId)
    && item.path in files && Sha256(files[item.path]) == item.asset.sha256
    && NamedFor(option, run, item) && Fulfils(option, run, files, files[item.path])
  }

  lemma SuccessorIsMade(actionId: Id, option: RemediationOption, run: RuntimeRun, files: Files, item: RuntimeAsset)
    requires Describe(actionId, option, run).Some?
    requires var descriptor := Describe(actionId, option, run).value;
             && descriptor.path in files && Fulfils(option, run, files, files[descriptor.path])
             && item == Successor(actionId, run, descriptor, files[descriptor.path])
    ensures Made(actionId, option, run, files, item) && item.path == Describe(actionId, option, run).value.path
    ensures item.asset.runId == run.runId
  {
    hide Describe, NamedFor, Fulfils;
    DescribedIsNamed(actionId, option, run, item);
  }

  /** So is an asset on record that matches its description, over a file that verifies. */
  lemma {:induction false} RecordedIsMade(actionId: Id, option: RemediationOption, run: RuntimeRun, files: Files,
                                          item: RuntimeAsset)
    requires Describe(actionId, option, run).Some? && FindCreated(run.assets, actionId) == Some(item)
    requires MatchesDescriptor(item, Describe(actionId, option, run).value) && Intact(item, files)
    requires Verified(option, run, files, files[item.path])
    ensures Made(actionId, option, run, files, item)
  {
    hide Describe, Verified, NamedFor, Fulfils;
    VerifiedFulfils(actionId, option, run, files, files[item.path]);
    DescribedIsNamed(actionId, option, run, item);
  }

  // ------------------------------------------------------- what holds always

  predicate Intact(item: RuntimeAsset, files: Files) {
    item.path in files && Sha256(files[item.path]) == item.asset.sha256
  }

  function PathOwner(path: WorkspacePath): Option<AssetId> {
    match path
    case OriginalPath(assetId, _) => Some(assetId)
    case WorkingPath(assetId, _) => Some(assetId)
    case DerivativePath(assetId, _) => Some(assetId)
    case _ => None
  }

  /** An asset lives under its own identifier, originals under the originals root; an action's
      output is named after the action. */
  predicate AssetOk(item: RuntimeAsset) {
    && PathOwner(item.path) == Some(item.asset.assetId)
    && (item.path.OriginalPath? <==> item.asset.protection.Original?)
    && (item.asset.protection.Original? ==> item.asset.createdByAction.None? && item.asset.predecessor.None?)
    && item.asset.createdByAction ==
      (if item.asset.assetId.ActionAsset? then Some(item.asset.assetId.actionId) else None)
  }

  predicate AssetsOk(assets: seq<RuntimeAsset>) {
    && (forall i :: 0 <= i < |assets| ==> AssetOk(assets[i]))
    && (forall i, j :: 0 <= i < j < |assets| ==> assets[i].asset.assetId != assets[j].asset.assetId)
    && (forall i :: 0 <= i < |assets| && assets[i].asset.predecessor.Some? ==>
          Listed(assets[..i], assets[i].asset.predecessor.value))
    && (forall i, j :: 0 <= i < j < |assets| && assets[i].asset.createdByAction.Some? ==>
      assets[j].asset.createdByAction.Some?)
  }

  predicate Listed(assets: seq<RuntimeAsset>, id: AssetId) {
    exists i :: 0 <= i < |assets| && assets[i].asset.assetId == id
  }

  ghost predicate Once(events: seq<LedgerEvent>) {
    forall a: Id :: StartCount(events, a) <= 1 && CloseCount(events, a) <= 1
  }

  predicate NoneOpen(events: seq<LedgerEvent>) {
    forall i :: 0 <= i < |events| && events[i].payload.ActionStarted? ==> HasClose(events, events[i].payload.actionId)
  }

  predicate CompletedOk(event: LedgerEvent, assets: seq<RuntimeAsset>, files: Files) {
    event.payload.ActionCompleted? ==>
      var item := FindCreated(assets, event.payload.actionId);
      && item.Some?
      && item.value.asset.assetId == event.payload.newAssetId
      && item.value.asset.sha256 == event.payload.sha256
      && Intact(item.value, files)
  }

  predicate FailedOk(event: LedgerEvent, assets: seq<RuntimeAsset>, files: Files) {
    event.payload.ActionFailed? ==>
      var item := FindCreated(assets, event.payload.actionId);
      item.None? || (!Intact(item.value, files) && IsRuntimeManifest(item.value))
  }

  predicate IsRuntimeManifest(item: RuntimeAsset) {
    item.asset.createdByAction.Some? && item.asset.role.Manifest? && item.asset.relation != Some(RenamedFrom)
  }

  predicate ManifestListed(assets: seq<RuntimeAsset>, id: AssetId) {
    exists i :: 0 <= i < |assets| && assets[i].asset.assetId == id && assets[i].asset.role.Manifest?
  }

  /** The `k`-th asset replaces no asset but a manifest. */
  predicate ReplacesManifest(assets: seq<RuntimeAsset>, k: nat)
    requires k < |assets|
  {
    assets[k].asset.predecessor.Some? ==> ManifestListed(assets[..k], assets[k].asset.predecessor.value)
  }

  /** It holds what a manifest of the leaves there were then would say. */
  predicate MadeCurrentAt(assets: seq<RuntimeAsset>, k: nat)
    requires k < |assets|
  {
    ReplacesManifest(assets, k) && assets[k].asset.sha256 == Sha256(ManifestText(ManifestLines(assets[..k])))
  }

  predicate MadeCurrent(assets: seq<RuntimeAsset>, item: RuntimeAsset) {
    exists k :: 0 <= k < |assets| && assets[k] == item && MadeCurrentAt(assets, k)
  }

  /** Every manifest the runtime wrote was current when it was made. */
  predicate ManifestsTrue(assets: seq<RuntimeAsset>) {
    forall k :: 0 <= k < |assets| && IsRuntimeManifest(assets[k]) ==> MadeCurrentAt(assets, k)
  }

  predicate ClosedBefore(events: seq<LedgerEvent>, p: nat, item: RuntimeAsset)
    requires p <= |events|
  {
    item.asset.createdByAction.Some? ==> HasClose(events[..p], item.asset.createdByAction.value)
  }

  predicate Completes(event: LedgerEvent, item: RuntimeAsset) {
    event.payload.ActionCompleted? && item.asset.createdByAction == Some(event.payload.actionId)
  }

  /** Outputs are recorded in the order in which their actions are decided. */
  predicate OrderOk(events: seq<LedgerEvent>, assets: seq<RuntimeAsset>) {
    forall p, i, j :: 0 <= p < |events| && 0 <= i < j < |assets| && Completes(events[p], assets[j]) ==>
      ClosedBefore(events, p, assets[i])
  }

  /** An open action can be taken up again: its option is still in the run, its description
      is defined, and if its output was already recorded that output verifies. The one
      exception is a manifest write: its recorded output is the current manifest, so the
      action now describes a different predecessor. */
  predicate Resumable(start: LedgerEvent, run: RuntimeRun, files: Files)
    requires start.payload.ActionStarted?
  {
    && |start.refs| > 0
    && RunOption(run, start.refs[0]).Some?
    && var a, option := start.payload.actionId, RunOption(run, start.refs[0]).value;
       && option.tool == start.payload.tool
       && Describe(a, option, run).Some?
       && (FindCreated(run.assets, a).Some? && !option.tool.WriteChecksumManifest? ==>
             var item := FindCreated(run.assets, a).value;
             && MatchesDescriptor(item, Describe(a, option, run).value)
             && Intact(item, files)
             && Verified(option, run, files, files[item.path]))
       && (FindCreated(run.assets, a).Some? && option.tool.WriteChecksumManifest? ==>
             && FindCreated(run.assets, a).value.path == Describe(a, option, run).value.path
             && IsRuntimeManifest(FindCreated(run.assets, a).value)
             && !MatchesDescriptor(FindCreated(run.assets, a).value, Describe(a, option, run).value))
  }

  /** Inputs stay intact, and an output belongs to an action that started. */
  predicate RecordedOk(events: seq<LedgerEvent>, item: RuntimeAsset, files: Files) {
    match item.asset.createdByAction
    case None => Intact(item, files)
    case Some(a) => exists i :: 0 <= i < |events| && Starts(events[i], a) && Makes(events[i].payload.tool, item)
  }

  /** Only a manifest write makes a runtime manifest, and it makes nothing else. */
  predicate Makes(tool: Tool, item: RuntimeAsset) {
    match tool
    case WriteChecksumManifest => IsRuntimeManifest(item)
    case RenameDeliveryCopy | ConvertCaptionFormat | CreateNormalizedAudioDerivative => !IsRuntimeManifest(item)
    case _ => false
  }

  predicate IsOpenStart(events: seq<LedgerEvent>, event: LedgerEvent) {
    event.payload.ActionStarted? && !HasClose(events, event.payload.actionId)
  }

  predicate OutcomesOk(events: seq<LedgerEvent>, assets: seq<RuntimeAsset>, files: Files) {
    forall i :: 0 <= i < |events| ==> CompletedOk(events[i], assets, files) && FailedOk(events[i], assets, files)
  }

  predicate OpensOk(events: seq<LedgerEvent>, run: RuntimeRun, files: Files) {
    forall i :: 0 <= i < |events| && IsOpenStart(events, events[i]) ==> Resumable(events[i], run, files)
  }

  predicate SoleOpen(events: seq<LedgerEvent>) {
    forall i, j :: 0 <= i < |events| && 0 <= j < |events| && IsOpenStart(events, events[i]) && IsOpenStart(events,
      events[j]) ==>
      events[i].payload.actionId == events[j].payload.actionId
  }

  /** The relation between the ledger, the run record and the workspace that holds at every
      moment, crashes included. */
  ghost predicate Consistent(events: seq<LedgerEvent>, run: RuntimeRun, files: Files) {
    && Once(events)
    && AssetsOk(run.assets)
    && (forall i :: 0 <= i < |run.assets| ==> RecordedOk(events, run.assets[i], files))
    && OutcomesOk(events, run.assets, files)
    && OpensOk(events, run, files)
    && SoleOpen(events)
    && ManifestsTrue(run.assets)
    && OrderOk(events, run.assets)
  }

  // ------------------------------------------------------------ every step keeps it

  lemma {:induction false} HasAppend(events: seq<LedgerEvent>, event: LedgerEvent)
    ensures forall a: Id :: HasStart(events + [event], a) <==> HasStart(events, a) || Starts(event, a)
    ensures forall a: Id :: HasClose(events + [event], a) <==> HasClose(events, a) || Closes(event, a)
    ensures forall a: Id :: StartCount(events + [event], a) == StartCount(events, a) + if Starts(event, a) then 1 else 0
    ensures forall a: Id :: CloseCount(events + [event], a) == CloseCount(events, a) + if Closes(event, a) then 1 else 0
  {
    forall a: Id
      ensures HasStart(events + [event], a) <==> HasStart(events, a) || Starts(event, a)
      ensures HasClose(events + [event], a) <==> HasClose(events, a) || Closes(event, a)
      ensures StartCount(events + [event], a) == StartCount(events, a) + if Starts(event, a) then 1 else 0
      ensures CloseCount(events + [event], a) == CloseCount(events, a) + if Closes(event, a) then 1 else 0
    {
      CountAppend(events, event, a);
    }
  }

  lemma CloseNeedsStart(events: seq<LedgerEvent>, a: Id)
    requires Chain(events) && HasClose(events, a)
    ensures HasStart(events, a)
  {
    var i :| 0 <= i < |events| && Closes(events[i], a);
    assert Acceptable(events[..i], events[i]);
    var j :| 0 <= j < i && Starts(events[..i][j], a);
    assert Starts(events[j], a);
  }

  /** Every recorded output but the open action's is decided. */
  lemma OthersClosed(events: seq<LedgerEvent>, run: RuntimeRun, files: Files, item: RuntimeAsset, a: Id)
    requires Consistent(events, run, files) && item in run.assets
    requires forall i :: 0 <= i < |events| && IsOpenStart(events, events[i]) ==> events[i].payload.actionId == a
    ensures item.asset.createdByAction.Some? && item.asset.createdByAction != Some(a) ==>
              HasClose(events, item.asset.createdByAction.value)
  {
    var i :| 0 <= i < |run.assets| && run.assets[i] == item;
    assert RecordedOk(events, run.assets[i], files);
  }

  /** A further event keeps the order, when it completes nothing, or completes the one open
      action. */
  lemma OrderKept(events: seq<LedgerEvent>, run: RuntimeRun, files: Files, event: LedgerEvent)
    requires Consistent(events, run, files)
    requires event.payload.ActionCompleted? ==>
               forall i :: 0 <= i < |events| && IsOpenStart(events, events[i]) ==>
                 events[i].payload.actionId == event.payload.actionId
    ensures OrderOk(events + [event], run.assets)
  {
    var after := events + [event];
    forall p, i, j | 0 <= p < |after| && 0 <= i < j < |run.assets| && Completes(after[p], run.assets[j])
      ensures ClosedBefore(after, p, run.assets[i])
    {
      if p < |events| {
        assert after[..p] == events[..p] && after[p] == events[p];
        assert ClosedBefore(events, p, run.assets[i]);
      } else {
        assert after[..p] == events;
        assert AssetOk(run.assets[i]) && AssetOk(run.assets[j]);
        OthersClosed(events, run, files, run.assets[i], event.payload.actionId);
      }
    }
  }

  /** Recording an output of an action that is not decided keeps the order. */
  lemma OrderOfGrown(events: seq<LedgerEvent>, assets: seq<RuntimeAsset>, item: RuntimeAsset, a: Id)
    requires OrderOk(events, assets) && item.asset.createdByAction == Some(a) && !HasClose(events, a)
    ensures OrderOk(events, assets + [item])
  {
    var grown := assets + [item];
    forall p, i, j | 0 <= p < |events| && 0 <= i < j < |grown| && Completes(events[p], grown[j])
      ensures ClosedBefore(events, p, grown[i])
    {
      assert !Closes(events[p], a);
      assert grown[i] == assets[i] && grown[j] == assets[j];
    }
  }

  lemma RecordedAppend(events: seq<LedgerEvent>, event: LedgerEvent, item: RuntimeAsset, files: Files)
    requires RecordedOk(events, item, files)
    ensures RecordedOk(events + [event], item, files)
  {
    if item.asset.createdByAction.Some? {
      var i :| 0 <= i < |events| && Starts(events[i], item.asset.createdByAction.value)
        && Makes(events[i].payload.tool, item);
      assert (events + [event])[i] == events[i];
    }
  }

  /** Outcomes and records look at starts and closes only, so another event that neither
      completes nor fails an action leaves them as they were. */
  lemma RecordsKept(events: seq<LedgerEvent>, run: RuntimeRun, files: Files, event: LedgerEvent)
    requires Consistent(events, run, files)
    ensures forall i :: 0 <= i < |run.assets| ==> RecordedOk(events + [event], run.assets[i], files)
    ensures !IsClosing(event) ==> OutcomesOk(events + [event], run.assets, files)
  {
    var after := events + [event];
    HasAppend(events, event);
    forall i | 0 <= i < |run.assets| ensures RecordedOk(after, run.assets[i], files) {
      assert RecordedOk(events, run.assets[i], files);
      RecordedAppend(events, event, run.assets[i], files);
    }
    if !IsClosing(event) {
      forall i | 0 <= i < |after|
        ensures CompletedOk(after[i], run.assets, files) && FailedOk(after[i], run.assets, files)
      {
        if i < |events| {
          assert after[i] == events[i];
        }
      }
    }
  }

  lemma OnlyNewStartOpen(events: seq<LedgerEvent>, start: LedgerEvent)
    requires Chain(events) && NoneOpen(events)
    requires start.payload.ActionStarted? && !HasStart(events, start.payload.actionId)
    ensures IsOpenStart(events + [start], start)
    ensures forall i :: 0 <= i < |events + [start]| && IsOpenStart(events + [start], (events + [start])[i]) ==>
              (events + [start])[i] == start
  {
    var after := events + [start];
    HasAppend(events, start);
    if HasClose(events, start.payload.actionId) {
      CloseNeedsStart(events, start.payload.actionId);
    }
    forall i | 0 <= i < |events| && after[i].payload.ActionStarted?
      ensures HasClose(after, after[i].payload.actionId)
    {
      assert after[i] == events[i];
    }
  }

  lemma OnceKept(events: seq<LedgerEvent>, event: LedgerEvent)
    requires Once(events)
    requires event.payload.ActionStarted? ==> !HasStart(events, event.payload.actionId)
    requires IsClosing(event) ==> !HasClose(events, event.payload.actionId)
    ensures Once(events + [event])
  {
    forall a: Id ensures StartCount(events + [event], a) <= 1 && CloseCount(events + [event], a) <= 1 {
      CountAppend(events, event, a);
      assert StartCount(events, a) <= 1 && CloseCount(events, a) <= 1;
    }
  }

  /** A fresh action may start when none is open. */
  lemma StartKeeps(events: seq<LedgerEvent>, run: RuntimeRun, files: Files, start: LedgerEvent)
    requires Chain(events) && Consistent(events, run, files) && NoneOpen(events)
    requires start.payload.ActionStarted? && !HasStart(events, start.payload.actionId)
    requires Resumable(start, run, files)
    ensures Consistent(events + [start], run, files)
    ensures IsOpenStart(events + [start], start)
  {
    RecordsKept(events, run, files, start);
    OrderKept(events, run, files, start);
    OnceKept(events, start);
    OnlyNewStartOpen(events, start);
  }

  /** An event that is no start and no result changes nothing here. */
  lemma TransitionKeeps(events: seq<LedgerEvent>, run: RuntimeRun, files: Files, event: LedgerEvent)
    requires Consistent(events, run, files) && event.payload.StateTransition?
    ensures Consistent(events + [event], run, files)
    ensures NoneOpen(events) ==> NoneOpen(events + [event])
  {
    var after := events + [event];
    RecordsKept(events, run, files, event);
    OrderKept(events, run, files, event);
    OnceKept(events, event);
    HasAppend(events, event);
    forall i | 0 <= i < |after| && IsOpenStart(after, after[i])
      ensures i < |events| && after[i] == events[i] && IsOpenStart(events, events[i])
    {}
  }

  /** With no action open, the record may change in anything but its assets. */
  lemma UpdateKeeps(events: seq<LedgerEvent>, run: RuntimeRun, files: Files, updated: RuntimeRun)
    requires Consistent(events, run, files) && NoneOpen(events) && updated.assets == run.assets
    ensures Consistent(events, updated, files)
  {}

  /** Paths an action may write: its temporary file, its output, its quarantine. */
  predicate ScratchOf(path: WorkspacePath, a: Id) {
    match path
    case TemporaryPath(b, _) => b == a
    case QuarantinePath(_, b) => b == a
    case _ => PathOwner(path) == Some(ActionAsset(a))
  }

  /** Nothing outside the action's own paths changed. */
  ghost predicate OnlyScratch(before: Files, after: Files, a: Id) {
    forall path :: !ScratchOf(path, a) ==>
      (path in before <==> path in after) && (path in before ==> before[path] == after[path])
  }

  lemma OtherAssetsKept(assets: seq<RuntimeAsset>, before: Files, after: Files, a: Id, item: RuntimeAsset)
    requires AssetsOk(assets) && item in assets && OnlyScratch(before, after, a)
    requires item.asset.createdByAction != Some(a)
    ensures Intact(item, before) <==> Intact(item, after)
    ensures item.path in before <==> item.path in after
    ensures item.path in before ==> before[item.path] == after[item.path]
  {
    assert AssetOk(item);
    assert !ScratchOf(item.path, a);
  }

  /** Work on an open action's own files changes nothing that is recorded, as long as its
      output is not recorded, or is a manifest. */
  lemma ScratchKeeps(events: seq<LedgerEvent>, run: RuntimeRun, before: Files, after: Files, s: nat)
    requires Consistent(events, run, before)
    requires s < |events| && IsOpenStart(events, events[s])
    requires OnlyScratch(before, after, events[s].payload.actionId)
    requires FindCreated(run.assets, events[s].payload.actionId).None? || events[s].payload.tool.WriteChecksumManifest?
    ensures Consistent(events, run, after)
  {
    var a := events[s].payload.actionId;
    forall i | 0 <= i < |run.assets|
      ensures RecordedOk(events, run.assets[i], after)
    {
      assert RecordedOk(events, run.assets[i], before);
      if run.assets[i].asset.createdByAction.None? {
        OtherAssetsKept(run.assets, before, after, a, run.assets[i]);
      }
    }
    forall i | 0 <= i < |events|
      ensures CompletedOk(events[i], run.assets, after) && FailedOk(events[i], run.assets, after)
    {
      assert CompletedOk(events[i], run.assets, before) && FailedOk(events[i], run.assets, before);
      if IsClosing(events[i]) && FindCreated(run.assets, events[i].payload.actionId).Some? {
        assert Closes(events[i], events[i].payload.actionId);
        var item := FindCreated(run.assets, events[i].payload.actionId).value;
        OtherAssetsKept(run.assets, before, after, a, item);
      }
    }
    forall i | 0 <= i < |events| && IsOpenStart(events, events[i])
      ensures Resumable(events[i], run, after)
    {
      assert events[i].payload.actionId == a;
      assert Resumable(events[i], run, before);
      OneStart(events, i, s);
    }
  }

  lemma OnceOfPrefix(events: seq<LedgerEvent>)
    requires Once(events) && events != []
    ensures Once(events[..|events| - 1])
  {
    var last := |events| - 1;
    assert events == events[..last] + [events[last]];
    forall b: Id ensures StartCount(events[..last], b) <= 1 && CloseCount(events[..last], b) <= 1 {
      CountAppend(events[..last], events[last], b);
      assert StartCount(events, b) <= 1 && CloseCount(events, b) <= 1;
    }
  }

  /** An action has at most one start event. */
  lemma {:induction false} OneStart(events: seq<LedgerEvent>, i: nat, j: nat)
    requires Once(events) && i < |events| && j < |events|
    requires events[i].payload.ActionStarted? && events[j].payload.ActionStarted?
    requires StartCount(events, events[i].payload.actionId) <= 1
    requires events[i].payload.actionId == events[j].payload.actionId
    ensures i == j
    decreases |events|
  {
    var a := events[i].payload.actionId;
    var last := |events| - 1;
    assert events == events[..last] + [events[last]];
    HasAppend(events[..last], events[last]);
    if i < last && j < last {
      OnceOfPrefix(events);
      OneStart(events[..last], i, j);
    } else if i < last || j < last {
      assert Starts(events[..last][if i < last then i else j], a);
      assert false;
    }
  }

  lemma {:induction false} FindCreatedAppend(assets: seq<RuntimeAsset>, item: RuntimeAsset, a: Id)
    ensures FindCreated(assets + [item], a) ==
            if FindCreated(assets, a).Some? then FindCreated(assets, a)
            else if item.asset.createdByAction == Some(a) then Some(item) else None
  {
    if assets == [] {
      assert assets + [item] == [item];
    } else {
      assert (assets + [item])[1..] == assets[1..] + [item];
      FindCreatedAppend(assets[1..], item, a);
    }
  }

  lemma {:induction false} FindAssetAppend(assets: seq<RuntimeAsset>, item: RuntimeAsset, id: AssetId)
    ensures FindAsset(assets, id).Some? ==> FindAsset(assets + [item], id) == FindAsset(assets, id)
  {
    if assets != [] {
      assert (assets + [item])[1..] == assets[1..] + [item];
      FindAssetAppend(assets[1..], item, id);
    }
  }

  /** Recording an output does not change what a content tool describes or verifies: those
      read the source's record and file only. */
  lemma DescriptionStable(a: Id, option: RemediationOption, run: RuntimeRun, files: Files, item: RuntimeAsset,
                          output: Content)
    requires !option.tool.WriteChecksumManifest? && Describe(a, option, run).Some?
    ensures Describe(a, option, WithAsset(run, item)) == Describe(a, option, run)
    ensures Verified(option, run, files, output) ==> Verified(option, WithAsset(run, item), files, output)
  {
    if InputAsset(option.arguments).Some? {
      FindAssetAppend(run.assets, item, InputAsset(option.arguments).value);
    }
  }

  lemma PredecessorListed(assets: seq<RuntimeAsset>, item: RuntimeAsset)
    requires AssetsOk(assets) && item in assets && item.asset.predecessor.Some?
    ensures exists other :: other in assets && other.asset.assetId == item.asset.predecessor.value
  {
    var i :| 0 <= i < |assets| && assets[i] == item;
    var j :| 0 <= j < i && assets[..i][j].asset.assetId == item.asset.predecessor.value;
    assert assets[j] in assets;
  }

  /** Recording a manifest changes what the same write would describe: the predecessor is now
      the manifest just recorded, or another manifest that was already there, never the one
      it replaced. */
  lemma {:induction false} ManifestRedescribed(a: Id, option: RemediationOption, run: RuntimeRun, output: Content)
    requires AssetsOk(run.assets) && option.tool.WriteChecksumManifest? && Describe(a, option, run).Some?
    requires FindCreated(run.assets, a).None?
    ensures var item := Successor(a, run, Describe(a, option, run).value, output);
            && Describe(a, option, WithAsset(run, item)).Some?
            && !MatchesDescriptor(item, Describe(a, option, WithAsset(run, item)).value)
  {
    var item := Successor(a, run, Describe(a, option, run).value, output);
    var grown := WithAsset(run, item);
    assert item in grown.assets;
    assert item.asset.assetId !in Superseded(grown.assets) by {
      forall other | other in grown.assets && other.asset.predecessor.Some?
        ensures other.asset.predecessor.value != item.asset.assetId
      {
        if other in run.assets {
          PredecessorListed(run.assets, other);
        } else {
          assert Manifests(run)[0] in Manifests(run) && Manifests(run)[0] in run.assets;
        }
      }
    }
    assert item in CurrentAssets(grown) && item in Manifests(grown);
    var now := Manifests(grown)[0];
    assert now in Manifests(grown) && now in grown.assets && IsLeaf(grown.assets, now);
    if Manifests(run) != [] {
      assert Superseded(grown.assets) >= {item.asset.predecessor.value};
      assert now.asset.assetId != item.asset.predecessor.value;
    }
  }

  lemma {:induction false} FindAssetListed(assets: seq<RuntimeAsset>, id: AssetId)
    requires FindAsset(assets, id).Some?
    ensures Listed(assets, id)
  {
    var item := FindAsset(assets, id).value;
    var i :| 0 <= i < |assets| && assets[i] == item;
  }

  /** A new name after a predecessor that is already there extends the lineage. */
  lemma LineageExtends(assets: seq<RuntimeAsset>, item: RuntimeAsset)
    requires AssetsOk(assets) && AssetOk(item) && item.asset.createdByAction.Some?
    requires forall i :: 0 <= i < |assets| ==> assets[i].asset.assetId != item.asset.assetId
    requires item.asset.predecessor.Some? ==> Listed(assets, item.asset.predecessor.value)
    ensures AssetsOk(assets + [item])
  {
    var grown := assets + [item];
    forall i | 0 <= i < |grown| && grown[i].asset.predecessor.Some?
      ensures Listed(grown[..i], grown[i].asset.predecessor.value)
    {
      assert i < |assets| ==> grown[..i] == assets[..i];
      assert i == |assets| ==> grown[..i] == assets;
    }
  }

  lemma DescribedPredecessor(a: Id, option: RemediationOption, run: RuntimeRun)
    requires Describe(a, option, run).Some? && Describe(a, option, run).value.predecessor.Some?
    ensures Listed(run.assets, Describe(a, option, run).value.predecessor.value)
  {
    if option.tool.WriteChecksumManifest? {
      var current := Manifests(run)[0];
      assert current in Manifests(run) && current in run.assets;
      var i :| 0 <= i < |run.assets| && run.assets[i] == current;
    } else {
      FindAssetListed(run.assets, Describe(a, option, run).value.predecessor.value);
    }
  }

  /** A described successor extends the lineage: a new name, under its own path, after a
      predecessor that is already there. */
  lemma {:induction false} SuccessorExtends(a: Id, option: RemediationOption, run: RuntimeRun, output: Content)
    requires AssetsOk(run.assets) && Describe(a, option, run).Some? && FindCreated(run.assets, a).None?
    ensures AssetsOk(run.assets + [Successor(a, run, Describe(a, option, run).value, output)])
  {
    var item := Successor(a, run, Describe(a, option, run).value, output);
    assert AssetOk(item);
    if item.asset.predecessor.Some? {
      DescribedPredecessor(a, option, run);
    }
    forall i | 0 <= i < |run.assets| ensures run.assets[i].asset.assetId != item.asset.assetId {
      assert run.assets[i] in run.assets && AssetOk(run.assets[i]);
    }
    hide Describe;
    LineageExtends(run.assets, item);
  }

  /** The last asset of a record is replaced by none. */
  lemma LastIsLeaf(assets: seq<RuntimeAsset>)
    requires AssetsOk(assets) && assets != [] && !assets[|assets| - 1].asset.protection.Original?
    ensures IsLeaf(assets, assets[|assets| - 1])
  {
    var last := |assets| - 1;
    forall other | other in assets && other.asset.predecessor.Some?
      ensures other.asset.predecessor.value != assets[last].asset.assetId
    {
      var j :| 0 <= j < |assets| && assets[j] == other;
      assert Listed(assets[..j], other.asset.predecessor.value);
      var i :| 0 <= i < j && assets[..j][i].asset.assetId == other.asset.predecessor.value;
      assert assets[i].asset.assetId == other.asset.predecessor.value;
    }
  }

  /** The asset `recover` or `execute` records for an open action. */
  ghost predicate WillRecord(events: seq<LedgerEvent>, run: RuntimeRun, files: Files, s: nat, item: RuntimeAsset) {
    && s < |events| && IsOpenStart(events, events[s]) && Resumable(events[s], run, files)
    && var a, option := events[s].payload.actionId, RunOption(run, events[s].refs[0]).value;
       var descriptor := Describe(a, option, run).value;
       && FindCreated(run.assets, a).None?
       && descriptor.path in files
       && Verified(option, run, files, files[descriptor.path])
       && item == Successor(a, run, descriptor, files[descriptor.path])
  }

  /** The open action stays resumable once its verified output is recorded. */
  lemma RecordedIsResumable(events: seq<LedgerEvent>, run: RuntimeRun, files: Files, s: nat, item: RuntimeAsset)
    requires AssetsOk(run.assets) && WillRecord(events, run, files, s, item)
    ensures Resumable(events[s], WithAsset(run, item), files)
    ensures FindCreated(WithAsset(run, item).assets, events[s].payload.actionId) == Some(item)
    ensures Intact(item, files)
  {
    var a, option := events[s].payload.actionId, RunOption(run, events[s].refs[0]).value;
    FindCreatedAppend(run.assets, item, a);
    assert RunOption(WithAsset(run, item), events[s].refs[0]) == Some(option);
    var output := files[Describe(a, option, run).value.path];
    if option.tool.WriteChecksumManifest? {
      ManifestRedescribed(a, option, run, output);
    } else {
      DescriptionStable(a, option, run, files, item, output);
    }
  }

  /** Recording an asset of an action that is not closed changes no closed action's outcome. */
  lemma OutcomesUnaffected(events: seq<LedgerEvent>, assets: seq<RuntimeAsset>, files: Files, item: RuntimeAsset, a: Id)
    requires OutcomesOk(events, assets, files) && !HasClose(events, a) && item.asset.createdByAction == Some(a)
    ensures OutcomesOk(events, assets + [item], files)
  {
    forall i | 0 <= i < |events|
      ensures CompletedOk(events[i], assets + [item], files) && FailedOk(events[i], assets + [item], files)
    {
      assert CompletedOk(events[i], assets, files) && FailedOk(events[i], assets, files);
      if IsClosing(events[i]) {
        assert Closes(events[i], events[i].payload.actionId);
        FindCreatedAppend(assets, item, events[i].payload.actionId);
      }
    }
  }

  lemma SuccessorOf(events: seq<LedgerEvent>, run: RuntimeRun, files: Files, s: nat, item: RuntimeAsset)
    requires AssetsOk(run.assets) && WillRecord(events, run, files, s, item)
    ensures item.asset.createdByAction == Some(events[s].payload.actionId)
    ensures RecordedOk(events, item, files)
    ensures AssetsOk(run.assets + [item])
    ensures ManifestsTrue(run.assets) ==> ManifestsTrue(run.assets + [item])
    ensures !HasClose(events, events[s].payload.actionId)
  {
    hide ManifestsTrue, AssetsOk, ManifestLines, ManifestListed, Verified;
    var a, option := events[s].payload.actionId, RunOption(run, events[s].refs[0]).value;
    assert Starts(events[s], a) && Makes(events[s].payload.tool, item);
    hide Describe;
    VerifiedManifest(a, option, run, files, files[Describe(a, option, run).value.path]);
    if ManifestsTrue(run.assets) {
      ManifestsTrueGrown(run.assets, item);
    }
    SuccessorExtends(a, option, run, files[Describe(a, option, run).value.path]);
  }

  lemma ManifestsTrueGrown(assets: seq<RuntimeAsset>, item: RuntimeAsset)
    requires ManifestsTrue(assets)
    requires IsRuntimeManifest(item) ==>
               && item.asset.sha256 == Sha256(ManifestText(ManifestLines(assets)))
               && (item.asset.predecessor.Some? ==> ManifestListed(assets, item.asset.predecessor.value))
    ensures ManifestsTrue(assets + [item])
  {
    hide ManifestLines, ManifestListed;
    var grown := assets + [item];
    forall k | 0 <= k < |grown| && IsRuntimeManifest(grown[k])
      ensures grown[k].asset.sha256 == Sha256(ManifestText(ManifestLines(grown[..k])))
      ensures grown[k].asset.predecessor.Some? ==> ManifestListed(grown[..k], grown[k].asset.predecessor.value)
    {
      if k < |assets| {
        assert grown[..k] == assets[..k];
      } else {
        assert grown[..k] == assets;
      }
    }
  }

  /** A verified output that is a manifest written by the runtime lists the leaves there are. */
  lemma VerifiedManifest(a: Id, option: RemediationOption, run: RuntimeRun, files: Files, output: Content)
    requires Describe(a, option, run).Some? && Verified(option, run, files, output)
    ensures var item := Successor(a, run, Describe(a, option, run).value, output);
            IsRuntimeManifest(item) ==>
              && item.asset.sha256 == Sha256(ManifestText(ManifestLines(run.assets)))
              && (item.asset.predecessor.Some? ==> ManifestListed(run.assets, item.asset.predecessor.value))
  {
    var item := Successor(a, run, Describe(a, option, run).value, output);
    if item.asset.predecessor.Some? && IsRuntimeManifest(item) {
      var current := Manifests(run)[0];
      assert current in Manifests(run) && current in run.assets;
      var i :| 0 <= i < |run.assets| && run.assets[i] == current;
      assert ManifestListed(run.assets, item.asset.predecessor.value);
    }
  }

  lemma SameOpenStart(events: seq<LedgerEvent>, s: nat)
    requires Once(events) && SoleOpen(events) && s < |events| && IsOpenStart(events, events[s])
    ensures forall i :: 0 <= i < |events| && IsOpenStart(events, events[i]) ==> events[i] == events[s]
  {
    forall i | 0 <= i < |events| && IsOpenStart(events, events[i]) ensures events[i] == events[s] {
      assert StartCount(events, events[i].payload.actionId) <= 1;
      OneStart(events, i, s);
    }
  }

  /** Recording the verified output of an open action. */
  lemma PersistKeeps(events: seq<LedgerEvent>, run: RuntimeRun, files: Files, s: nat, item: RuntimeAsset)
    requires Consistent(events, run, files) && WillRecord(events, run, files, s, item)
    ensures Consistent(events, WithAsset(run, item), files)
  {
    hide Describe, Verified, Resumable, AssetsOk, OutcomesOk, Once, RunOption, Successor, StartCount, ManifestsTrue,
         OrderOk, RecordedOk, Intact;
    var a := events[s].payload.actionId;
    var grown := WithAsset(run, item);
    SuccessorOf(events, run, files, s, item);
    RecordedIsResumable(events, run, files, s, item);
    OutcomesUnaffected(events, run.assets, files, item, a);
    OrderOfGrown(events, run.assets, item, a);
    forall i | 0 <= i < |grown.assets| ensures RecordedOk(events, grown.assets[i], files) {
      assert i < |run.assets| ==> grown.assets[i] == run.assets[i];
    }
    SameOpenStart(events, s);
  }

  /** Closing the open action: completed with its recorded, intact output, or failed with no
      intact output recorded. */
  lemma CloseKeeps(events: seq<LedgerEvent>, run: RuntimeRun, files: Files, s: nat, event: LedgerEvent)
    requires Consistent(events, run, files)
    requires s < |events| && IsOpenStart(events, events[s])
    requires IsClosing(event) && event.payload.actionId == events[s].payload.actionId
    requires CompletedOk(event, run.assets, files) && FailedOk(event, run.assets, files)
    ensures Consistent(events + [event], run, files)
    ensures NoneOpen(events + [event])
  {
    var after := events + [event];
    RecordsKept(events, run, files, event);
    OrderKept(events, run, files, event);
    OnceKept(events, event);
    HasAppend(events, event);
    forall i | 0 <= i < |after|
      ensures CompletedOk(after[i], run.assets, files) && FailedOk(after[i], run.assets, files)
    {
      assert i < |events| ==> after[i] == events[i];
    }
    forall i | 0 <= i < |after| && after[i].payload.ActionStarted?
      ensures HasClose(after, after[i].payload.actionId)
    {
      assert after[i] == events[i];
    }
  }

  // ------------------------------------------------------------ manifests and leaves

  /** An asset that replaces nothing but a manifest, and is one, leaves the listed leaves as
      they were. */
  lemma ManifestMovesNoLine(assets: seq<RuntimeAsset>, item: RuntimeAsset)
    requires AssetsOk(assets + [item]) && item.asset.role.Manifest?
    requires item.asset.predecessor.Some? ==> ManifestListed(assets, item.asset.predecessor.value)
    ensures ManifestLines(assets + [item]) == ManifestLines(assets)
  {
    var grown := assets + [item];
    var after := (other: RuntimeAsset) => IsLeaf(grown, other) && !other.asset.role.Manifest?;
    var before := (other: RuntimeAsset) => IsLeaf(assets, other) && !other.asset.role.Manifest?;
    SelectAppend(assets, item, after);
    forall other | other in assets ensures after(other) == before(other) {
      assert Superseded(grown) == Superseded(assets)
        + (if item.asset.predecessor.Some? then {item.asset.predecessor.value} else {});
      if item.asset.predecessor == Some(other.asset.assetId) {
        var i :| 0 <= i < |assets| && assets[i].asset.assetId == other.asset.assetId && assets[i].asset.role.Manifest?;
        var j :| 0 <= j < |assets| && assets[j] == other;
        assert grown[i] == assets[i] && grown[j] == assets[j];
      }
    }
    SelectAgrees(assets, after, before);
    assert ListedLeaves(grown) == ListedLeaves(assets);
  }

  lemma AssetsOkPrefix(assets: seq<RuntimeAsset>, k: nat)
    requires AssetsOk(assets) && k <= |assets|
    ensures AssetsOk(assets[..k])
  {
    forall i | 0 <= i < k ensures assets[..k][..i] == assets[..i] {}
  }

  lemma {:induction false} OnlyManifestsSince(assets: seq<RuntimeAsset>, k: nat)
    requires AssetsOk(assets) && ManifestsTrue(assets) && k <= |assets|
    requires forall j :: k <= j < |assets| ==> IsRuntimeManifest(assets[j])
    ensures ManifestLines(assets) == ManifestLines(assets[..k])
    decreases |assets| - k
  {
    hide AssetsOk, ManifestsTrue, ManifestLines;
    if k < |assets| {
      var last := |assets| - 1;
      AssetsOkPrefix(assets, last);
      ManifestsTruePrefix(assets, last);
      LastMovesNoLine(assets);
      OnlyManifestsSince(assets[..last], k);
      assert assets[..last][..k] == assets[..k];
    } else {
      assert assets[..k] == assets;
    }
  }

  lemma ManifestsTruePrefix(assets: seq<RuntimeAsset>, k: nat)
    requires ManifestsTrue(assets) && k <= |assets|
    ensures ManifestsTrue(assets[..k])
  {
    hide ManifestLines, ManifestListed;
    forall i | 0 <= i < k ensures assets[..k][..i] == assets[..i] {}
  }

  lemma LastMovesNoLine(assets: seq<RuntimeAsset>)
    requires AssetsOk(assets) && ManifestsTrue(assets) && assets != []
    requires IsRuntimeManifest(assets[|assets| - 1])
    ensures ManifestLines(assets) == ManifestLines(assets[..|assets| - 1])
  {
    hide AssetsOk, ManifestLines, ManifestListed;
    var last := |assets| - 1;
    assert assets == assets[..last] + [assets[last]];
    ManifestMovesNoLine(assets[..last], assets[last]);
  }

  /** No output recorded after the `k`-th was completed by anything but a manifest write. */
  predicate NoChangeSince(events: seq<LedgerEvent>, assets: seq<RuntimeAsset>, k: nat) {
    forall j, p :: k < j < |assets| && 0 <= p < |events| && Completes(events[p], assets[j]) ==>
      IsRuntimeManifest(assets[j])
  }

  /** When an intact manifest that no later change follows need not be rewritten: with no
      action open, it lists exactly the current leaves if and only if it did when it was made. */
  lemma UnchangedManifestIsCurrent(events: seq<LedgerEvent>, run: RuntimeRun, files: Files, k: nat)
    requires Consistent(events, run, files) && NoneOpen(events)
    requires k < |run.assets| && run.assets[k].asset.role.Manifest? && run.assets[k].asset.createdByAction.Some?
    requires Intact(run.assets[k], files) && ReplacesManifest(run.assets, k)
    requires NoChangeSince(events, run.assets, k)
    ensures files[run.assets[k].path] == ManifestText(ManifestLines(run.assets)) <==> MadeCurrentAt(run.assets, k)
  {
    var assets := run.assets;
    forall j | k < j < |assets| ensures IsRuntimeManifest(assets[j]) {
      LaterIsManifest(events, run, files, k, j);
    }
    OnlyManifestsSince(assets, k + 1);
    ItselfMovesNoLine(assets, k);
  }

  lemma ItselfMovesNoLine(assets: seq<RuntimeAsset>, k: nat)
    requires AssetsOk(assets) && k < |assets| && assets[k].asset.role.Manifest? && ReplacesManifest(assets, k)
    ensures ManifestLines(assets[..k + 1]) == ManifestLines(assets[..k])
  {
    hide AssetsOk, ManifestLines, ManifestListed;
    AssetsOkPrefix(assets, k + 1);
    assert assets[..k + 1] == assets[..k] + [assets[k]];
    ManifestMovesNoLine(assets[..k], assets[k]);
  }

  lemma OpenlessClosed(events: seq<LedgerEvent>, a: Id)
    requires NoneOpen(events) && HasStart(events, a)
    ensures HasClose(events, a)
  {
    var i :| 0 <= i < |events| && Starts(events[i], a);
  }

  /** An action records at most one asset. */
  lemma {:induction false} CreatedIs(assets: seq<RuntimeAsset>, j: nat)
    requires AssetsOk(assets) && j < |assets| && assets[j].asset.createdByAction.Some?
    ensures FindCreated(assets, assets[j].asset.createdByAction.value) == Some(assets[j])
  {
    var found := FindCreated(assets, assets[j].asset.createdByAction.value);
    assert found.Some?;
    var i :| 0 <= i < |assets| && assets[i] == found.value;
    assert AssetOk(assets[i]) && AssetOk(assets[j]);
  }

  lemma LaterIsManifest(events: seq<LedgerEvent>, run: RuntimeRun, files: Files, k: nat, j: nat)
    requires Consistent(events, run, files) && NoneOpen(events)
    requires k < j < |run.assets| && run.assets[k].asset.createdByAction.Some?
    requires NoChangeSince(events, run.assets, k)
    ensures IsRuntimeManifest(run.assets[j])
  {
    var item := run.assets[j];
    assert RecordedOk(events, item, files) && AssetOk(item);
    assert item.asset.createdByAction.Some?;
    var a := item.asset.createdByAction.value;
    OpenlessClosed(events, a);
    var p :| 0 <= p < |events| && Closes(events[p], a);
    assert FailedOk(events[p], run.assets, files);
    CreatedIs(run.assets, j);
  }
}
