/** What a remediation that succeeds leaves behind, tool by tool, and that it is what the
    requirement it was offered for demands. */
module Remedies {
  import opened Domain
  import opened Sequences
  import opened Constraints
  import opened Records
  import opened Ledger
  import opened Store
  import opened Protocol
  import opened Remediation
  import opened Executor
  import opened Lifecycle
  import Text

  // ------------------------------------------------------------ file names

  lemma {:induction false} SuffixStartIs(name: string, upTo: nat, i: nat)
    requires i < upTo <= |name| && name[i] == '.' && forall j :: i < j < |name| ==> name[j] != '.'
    ensures SuffixStart(name, upTo) == if 0 < i < |name| - 1 then i else |name|
  {
    if upTo > 1 && i < upTo - 1 {
      SuffixStartIs(name, upTo - 1, i);
    }
  }

  lemma {:induction false} NoSuffix(name: string, upTo: nat)
    requires upTo <= |name| && '.' !in name
    ensures SuffixStart(name, upTo) == |name|
  {
    if upTo > 1 {
      NoSuffix(name, upTo - 1);
    }
  }

  /** The suffix of a file name starts at its last dot, unless that is its first character or
      its last one. */
  lemma SuffixIs(name: string, i: nat)
    ensures i < |name| && name[i] == '.' && (forall j :: i < j < |name| ==> name[j] != '.') ==>
              if 0 < i < |name| - 1 then Stem(name) == name[..i] && Suffix(name) == name[i..]
              else Stem(name) == name && Suffix(name) == ""
    ensures '.' !in name ==> Stem(name) == name && Suffix(name) == ""
  {
    if '.' !in name {
      NoSuffix(name, |name|);
    } else if i < |name| && name[i] == '.' && forall j :: i < j < |name| ==> name[j] != '.' {
      SuffixStartIs(name, |name|, i);
    }
  }

  lemma {:induction false} SuffixStartsLate(name: string, upTo: nat)
    requires upTo <= |name| && name != ""
    ensures SuffixStart(name, upTo) > 0
  {
    if upTo > 1 {
      SuffixStartsLate(name, upTo - 1);
    }
  }

  /** A converted file has the suffix that was asked for. */
  lemma ConvertedSuffix(name: string, suffix: string)
    requires name != "" && (suffix == ".vtt" || suffix == ".srt")
    ensures Suffix(Stem(name) + suffix) == suffix && Stem(Stem(name) + suffix) == Stem(name)
  {
    SuffixStartsLate(name, |name|);
    var converted, i := Stem(name) + suffix, |Stem(name)|;
    assert converted[i..] == suffix && converted[..i] == Stem(name);
    assert forall j :: i < j < |converted| ==> converted[j] == suffix[j - i];
    SuffixIs(converted, i);
  }

  // ------------------------------------------------------------ what an action does

  /** The ledger got one start and one result of the action, with what each of them says. */
  predicate StartedAndEnded(before: seq<LedgerEvent>, after: seq<LedgerEvent>, action: Action, ending: Payload) {
    && |after| == |before| + 2 && before <= after
    && after[|before|].payload == ActionStarted(action.actionId, action.tool, action.authorizationId)
    && after[|before|].refs == [action.optionId] && after[|before|].actor == action.actor
    && after[|before| + 1].payload == ending
  }

  /** A successful execution, tool by tool: the run record grew by exactly one asset, and it is
      what the option asked for. */
  lemma ExecutedMakes(before: Disk, after: Disk, files: Files, action: Action, option: RemediationOption,
                      result: Remedied, startId: Id, closeId: Id) returns (item: RuntimeAsset)
    requires action.runId in before.runs && Describable(before, action, option)
    requires Executed(before, after, files, action, option, result, startId, closeId) && result.newAssetId.Some?
    ensures var run := before.runs[action.runId];
            && action.runId in after.runs && after.runs[action.runId] == result.run
            && result.run == run.(assets := run.assets + [item]) && result.newAssetId == Some(item.asset.assetId)
            && Made(action.actionId, option, run, files, item) && item.asset.runId == run.runId
            && StartedAndEnded(Events(before, action.runId), Events(after, action.runId), action,
                 ActionCompleted(action.actionId, item.asset.assetId, item.asset.sha256))
  {
    hide Describe, Made, Framed, NoneOpen, Events;
    var run := before.runs[action.runId];
    var descriptor := Describe(action.actionId, option, run).value;
    item := Successor(action.actionId, run, descriptor, files[descriptor.path]);
  }

  /** One that failed: the run record is what it was, and the authorization is spent and void. */
  lemma ExecutedFails(before: Disk, after: Disk, files: Files, action: Action, option: RemediationOption,
                      result: Remedied, startId: Id, closeId: Id) returns (reason: string)
    requires action.runId in before.runs && Describable(before, action, option)
    requires Executed(before, after, files, action, option, result, startId, closeId) && result.newAssetId.None?
    ensures action.runId in after.runs && after.runs[action.runId] == result.run == before.runs[action.runId]
    ensures AuthorizationVoid(after, action)
    ensures StartedAndEnded(Events(before, action.runId), Events(after, action.runId), action,
              ActionFailed(action.actionId, reason))
  {
    hide Describe, Framed, NoneOpen, Events, AuthorizationVoid;
    var events := Events(before, action.runId);
    var started := events + [StartedEvent(events, action, startId)];
    var error :| Events(after, action.runId) == started + [FailedEvent(started, action, ErrorName(error), closeId)];
    reason := ErrorName(error);
  }

  /** What recovery makes of an output that was not recorded: it becomes the run's next asset
      exactly when a file is there that is what the tool must make. */
  lemma ReconciledMakes(events: seq<LedgerEvent>, run: RuntimeRun, after: Disk, context: ActionContext,
                        descriptor: OutputDescriptor, result: Remedied, closeId: Id, before: Files, files: Files)
    returns (item: RuntimeAsset)
    requires Describe(context.action.actionId, context.option, run) == Some(descriptor)
    requires Reconciled(events, run, after, context, descriptor, result, closeId, before, files)
    ensures context.action.runId in after.runs && after.runs[context.action.runId] == result.run
    ensures result.newAssetId.Some? <==>
      descriptor.path in before && Fulfils(context.option, run, before, before[descriptor.path])
    ensures result.newAssetId.None? ==> result.run == run && AuthorizationVoid(after, context.action)
    ensures var log := Events(after, context.action.runId);
            && |log| == |events| + 1 && events <= log
            && log[|events|].payload ==
               if result.newAssetId.Some?
               then ActionCompleted(context.action.actionId, item.asset.assetId, item.asset.sha256)
               else ActionFailed(context.action.actionId,
                 if descriptor.path in before then "RECOVERY_VERIFICATION_FAILED" else "INTERRUPTED_BEFORE_PROMOTION")
    ensures result.newAssetId.Some? ==>
              && result.run == run.(assets := run.assets + [item]) && result.newAssetId == Some(item.asset.assetId)
              && Made(context.action.actionId, context.option, run, before, item) && item.asset.runId == run.runId
              && item.path in files && files[item.path] == before[item.path]
  {
    hide Describe, NamedFor, Fulfils, NoneOpen, Events, AuthorizationVoid;
    var a := context.action.actionId;
    item := Successor(a, run, descriptor, ManifestText([]));
    if descriptor.path in before && Fulfils(context.option, run, before, before[descriptor.path]) {
      item := Successor(a, run, descriptor, before[descriptor.path]);
      SuccessorIsMade(a, context.option, run, before, item);
    }
  }

  // ------------------------------------------------------------ what is offered

  /** What can be remedied: a file name, a missing manifest and a caption format by the runtime
      itself, a loudness range with a human's approval. */
  predicate HasRemedy(requirement: RuntimeRequirement) {
    && requirement.key.Some? && requirement.constraint.Some?
    && var automatic, test := requirement.disposition.AutoRemediate?, requirement.constraint.value.test;
       match requirement.key.value
       case PackageFilename => automatic && test.EqualsTest?
       case ManifestPresent => automatic
       case CaptionsFormat => automatic && (test.EqualsTest? || (test.OneOfTest? && test.values != []))
       case IntegratedLoudness => requirement.disposition.HumanApprovalRequired? && test.RangeTest?
       case _ => false
  }

  /** A requirement whose constraint is a well-typed one of its own key. */
  predicate IsTyped(requirement: RuntimeRequirement) {
    requirement.constraint.Some? ==>
      WellTyped(requirement.constraint.value) && requirement.key == Some(requirement.constraint.value.key)
  }

  /** The option, if there is one, works on the finding's target with the tool for its key, and
      a requirement that failed twice is offered none. */
  lemma OfferedIff(runId: Id, requirement: RuntimeRequirement, findingId: FindingId, target: AssetId, failures: nat)
    requires IsTyped(requirement)
    ensures var offers := OptionsFor(runId, requirement, findingId, target, failures);
            && (offers == Done([]) <==> !HasRemedy(requirement) || failures >= 2)
            && (offers.Done? && offers.value != [] ==>
                  var option := offers.value[0];
                  && |offers.value| == 1 && option.findingId == findingId
                  && option.optionId == OptionId(findingId, option.tool)
                  && match requirement.key.value
                     case PackageFilename => option.tool.RenameDeliveryCopy? && option.tier == 1
                     case ManifestPresent => option.tool.WriteChecksumManifest? && option.tier == 1
                     case CaptionsFormat => option.tool.ConvertCaptionFormat? && option.tier == 1
                     case _ => option.tool.CreateNormalizedAudioDerivative? && option.tier == 2)
            && (offers.Done? && offers.value != [] ==>
                  match offers.value[0].arguments
                  case RenameInput(id, _, _) => id == target
                  case ConvertInput(id, _, _) => id == target
                  case NormalizeInput(id, _, _, _, _) => id == target
                  case ManifestInput(id, _, format) => id == runId && format == "sha256sums"
                  case _ => false)
  {
    hide NameOf, Text.PathSyntax, Lookup;
    assert requirement.constraint.Some? && requirement.constraint.value.test.RangeTest? ==>
      Numeric(requirement.constraint.value.test.lower).Some? && Numeric(requirement.constraint.value.test.upper).Some?;
  }

  /** A remedy whose input is refused: a name or a format that is empty or leads out of its
      directory, and a loudness range of one point. */
  predicate Unusable(requirement: RuntimeRequirement) {
    requirement.constraint.Some? &&
    match requirement.constraint.value.test
    case EqualsTest(value) =>
      requirement.key != Some(ManifestPresent) && (NameOf(value) == "" || Text.PathSyntax(NameOf(value)))
    case OneOfTest(values) =>
      values != [] && (NameOf(values[0]) == "" || Text.PathSyntax(NameOf(values[0])))
    case RangeTest(lower, upper, _, _) => Numeric(lower) == Numeric(upper)
    case _ => false
  }

  /** Where a finding is left without an answer: the inspection that makes it raises. */
  lemma OfferRefusedIff(runId: Id, requirement: RuntimeRequirement, findingId: FindingId, target: AssetId,
                        failures: nat)
    requires IsTyped(requirement)
    ensures var offers := OptionsFor(runId, requirement, findingId, target, failures);
            && (offers.Done? || offers == Raised(InvalidValue))
            && (!offers.Done? <==> HasRemedy(requirement) && failures < 2 && Unusable(requirement))
  {
    hide NameOf, Text.PathSyntax, Lookup;
    assert requirement.constraint.Some? && requirement.constraint.value.test.RangeTest? ==>
      && Numeric(requirement.constraint.value.test.lower).Some?
      && Numeric(requirement.constraint.value.test.upper).Some?;
    if requirement.key == Some(ManifestPresent) && requirement.constraint.Some? {
      PresenceTests(requirement.constraint.value);
    }
  }

  lemma PresenceTests(c: Constraint)
    requires WellTyped(c) && c.key.ManifestPresent?
    ensures c.test.PresentTest? || c.test.AbsentTest? || c.test.EqualsTest?
  {}

  /** The value stands in the constraint as it would stand in a file: a string with no
      whitespace around it. */
  predicate Plain(value: Scalar) { value.Str? && Text.Tight(value.s) }

  /** A rename offers the very name that the requirement demands, if that name can be had. */
  lemma RenameOfferMeans(lex: Lexicon, runId: Id, requirement: RuntimeRequirement, findingId: FindingId,
                         target: AssetId, failures: nat, option: RemediationOption, m: Measurement)
    requires OptionsFor(runId, requirement, findingId, target, failures).Done?
    requires option in OptionsFor(runId, requirement, findingId, target, failures).value
    requires requirement.key == Some(PackageFilename) && IsTyped(requirement)
    requires m.status.Ok? && m.key.PackageFilename? && ValidMeasurement(lex, m)
    ensures option.arguments.RenameInput?
    ensures m.value.value == Str(option.arguments.newFilename) ==>
      (Evaluate(lex, m, requirement.constraint.value) == Pass <==> Plain(requirement.constraint.value.test.value))
  {
    hide Text.PathSyntax, Text.Tight, Text.Strip, CanonicalValue;
    var c := requirement.constraint.value;
    EqualityTestsMean(lex, m, c);
    if c.test.value.Str? {
      Text.TightIsStripped(c.test.value.s);
    }
  }

  /** A conversion offers the format that the requirement demands, or the first that it
      accepts. */
  lemma ConvertOfferMeans(lex: Lexicon, runId: Id, requirement: RuntimeRequirement, findingId: FindingId,
                          target: AssetId, failures: nat, option: RemediationOption, m: Measurement)
    requires OptionsFor(runId, requirement, findingId, target, failures).Done?
    requires option in OptionsFor(runId, requirement, findingId, target, failures).value
    requires requirement.key == Some(CaptionsFormat) && IsTyped(requirement)
    requires m.status.Ok? && m.key.CaptionsFormat? && ValidMeasurement(lex, m)
    ensures option.arguments.ConvertInput?
    ensures m.value.value == Str(option.arguments.targetFormat) ==>
              var c := requirement.constraint.value;
              && (c.test.EqualsTest? ==> (Evaluate(lex, m, c) == Pass <==> Plain(c.test.value)))
              && (c.test.OneOfTest? ==>
                    && (Plain(c.test.values[0]) ==> Evaluate(lex, m, c) == Pass)
                    && (Evaluate(lex, m, c) == Pass <==> Str(option.arguments.targetFormat) in c.test.values))
  {
    hide Text.PathSyntax, Text.Tight, Text.Strip, CanonicalValue;
    var c := requirement.constraint.value;
    EqualityTestsMean(lex, m, c);
    if c.test.EqualsTest? && c.test.value.Str? {
      Text.TightIsStripped(c.test.value.s);
    }
    if c.test.OneOfTest? && c.test.values[0].Str? {
      Text.TightIsStripped(c.test.values[0].s);
    }
  }

  /** A derivative aims at the middle of the range, with a tolerance that reaches to its ends: a
      loudness is within the tolerance of the target exactly when it is in the range, and passes
      then, unless it is on an end that the range leaves out. */
  lemma LoudnessOfferMeans(lex: Lexicon, runId: Id, requirement: RuntimeRequirement, findingId: FindingId,
                           target: AssetId, failures: nat, option: RemediationOption, m: Measurement)
    requires OptionsFor(runId, requirement, findingId, target, failures).Done?
    requires option in OptionsFor(runId, requirement, findingId, target, failures).value
    requires requirement.key == Some(IntegratedLoudness) && IsTyped(requirement)
    requires m.status.Ok? && m.key.IntegratedLoudness? && ValidMeasurement(lex, m)
    ensures option.arguments.NormalizeInput? && requirement.constraint.value.test.RangeTest? && m.value.value.Float?
    ensures var x, test, c := m.value.value.r, requirement.constraint.value.test, requirement.constraint.value;
            var low, high := Numeric(test.lower).value, Numeric(test.upper).value;
            var aim, tolerance := option.arguments.targetLufs, option.arguments.tolerance;
            && (aim - tolerance <= x <= aim + tolerance <==> low <= x <= high)
            && (Evaluate(lex, m, c) == Pass <==>
                  && aim - tolerance <= x <= aim + tolerance
                  && (x == low ==> test.inclusiveLower) && (x == high ==> test.inclusiveUpper))
  {
    hide NameOf, Text.PathSyntax;
    OrderingTestsAreIntervals(lex, m, requirement.constraint.value);
  }

  /** A manifest is offered whatever the requirement demands of its presence, and helps only
      where it is to be present. */
  lemma ManifestOfferMeans(lex: Lexicon, runId: Id, requirement: RuntimeRequirement, findingId: FindingId,
                           target: AssetId, failures: nat, option: RemediationOption, m: Measurement)
    requires OptionsFor(runId, requirement, findingId, target, failures).Done?
    requires option in OptionsFor(runId, requirement, findingId, target, failures).value
    requires requirement.key == Some(ManifestPresent) && IsTyped(requirement)
    requires m.status.Ok? && m.key.ManifestPresent? && ValidMeasurement(lex, m)
    ensures option.arguments.ManifestInput?
    ensures var test := requirement.constraint.value.test; test.PresentTest? || test.AbsentTest? || test.EqualsTest?
    ensures m.value.value == Bool(true) ==>
      (Evaluate(lex, m, requirement.constraint.value) == Pass <==> WantsPresence(requirement.constraint.value.test))
  {
    hide NameOf, Text.PathSyntax;
    EqualityTestsMean(lex, m, requirement.constraint.value);
  }

  predicate WantsPresence(test: Test) { test.PresentTest? || (test.EqualsTest? && Same(test.value, Bool(true))) }

  // ------------------------------------------------------------ a remedy remedies

  /** A demand that the remedy for it can meet: a name and a format that can stand in a file, a
      manifest that is to be present, a loudness range with its ends. */
  predicate Attainable(requirement: RuntimeRequirement) {
    requirement.constraint.Some? &&
    match requirement.constraint.value.test
    case EqualsTest(value) => if requirement.key == Some(ManifestPresent) then Same(value, Bool(true)) else Plain(value)
    case OneOfTest(values) => values != [] && Plain(values[0])
    case RangeTest(_, _, inclusiveLower, inclusiveUpper) => inclusiveLower && inclusiveUpper
    case PresentTest => true
    case _ => false
  }

  /** What an inspection reads off a new asset: its name; the format its suffix stands for, which
      its text has too; its loudness; and of the package, whether a manifest is there. */
  predicate ReadsAs(m: Measurement, run: RuntimeRun, files: Files, item: RuntimeAsset)
    requires item.path in files
  {
    match m.key
    case PackageFilename => m.value == Some(Str(item.asset.filename))
    case CaptionsFormat => m.value == Some(Str(if Suffix(item.asset.filename) == ".srt" then "srt" else "webvtt"))
    case IntegratedLoudness =>
      files[item.path].Media? && files[item.path].loudness.Some?
        && m.value == Some(Float(files[item.path].loudness.value))
    case ManifestPresent =>
      m.value == Some(Bool(exists other :: other in run.assets && IsLeaf(run.assets, other)
                                           && other.asset.role.Manifest? && other.path in files))
    case _ => false
  }

  /** What is read off the asset that an option made. */
  lemma MadeReadsAs(actionId: Id, option: RemediationOption, run: RuntimeRun, files: Files, item: RuntimeAsset,
                    m: Measurement)
    requires Made(actionId, option, run, files, item) && AssetsOk(run.assets + [item])
    requires forall source :: source in run.assets ==> source.asset.filename != ""
    requires ReadsAs(m, WithAsset(run, item), files, item)
    ensures option.arguments.RenameInput? && m.key.PackageFilename? ==>
      m.value == Some(Str(option.arguments.newFilename))
    ensures option.arguments.ConvertInput? && m.key.CaptionsFormat? ==>
      m.value == Some(Str(option.arguments.targetFormat))
    ensures option.arguments.ManifestInput? && m.key.ManifestPresent? ==> m.value == Some(Bool(true))
    ensures option.arguments.NormalizeInput? && m.key.IntegratedLoudness? ==>
              && m.value.Some? && m.value.value.Float?
              && var aim, tolerance := option.arguments.targetLufs, option.arguments.tolerance;
                 aim - tolerance <= m.value.value.r <= aim + tolerance
  {
    hide AssetsOk, IsLeaf, Stem, Suffix, FindAsset;
    match option.arguments
    case ConvertInput(id, _, format) =>
      var source :| source in run.assets && IsSource(run, id, source)
        && RecordedAs(item, Stem(source.asset.filename) + if format == "srt" then ".srt" else ".vtt", Captions,
                      Some(id), Some(ConvertedFrom), Working);
      ConvertedSuffix(source.asset.filename, if format == "srt" then ".srt" else ".vtt");
    case ManifestInput(_, _, _) =>
      ManifestIsThere(option, run, files, item);
      var grown := WithAsset(run, item);
      assert item in grown.assets && IsLeaf(grown.assets, item) && item.asset.role.Manifest? && item.path in files;
    case _ =>
  }

  lemma ManifestIsThere(option: RemediationOption, run: RuntimeRun, files: Files, item: RuntimeAsset)
    requires NamedFor(option, run, item) && option.arguments.ManifestInput? && AssetsOk(run.assets + [item])
    ensures item.asset.role.Manifest? && IsLeaf(run.assets + [item], item)
  {
    hide AssetsOk, IsLeaf;
    LastIsLeaf(run.assets + [item]);
  }

  /** A remediation that succeeds satisfies the requirement that it was offered for: what an
      inspection reads off the asset it made passes. */
  lemma RemedySatisfies(lex: Lexicon, requirement: RuntimeRequirement, findingId: FindingId, target: AssetId,
                        failures: nat, option: RemediationOption, actionId: Id, run: RuntimeRun, files: Files,
                        item: RuntimeAsset, m: Measurement)
    requires OptionsFor(run.runId, requirement, findingId, target, failures).Done?
    requires option in OptionsFor(run.runId, requirement, findingId, target, failures).value
    requires IsTyped(requirement) && HasRemedy(requirement) && Attainable(requirement)
    requires Made(actionId, option, run, files, item) && AssetsOk(run.assets + [item])
    requires forall source :: source in run.assets ==> source.asset.filename != ""
    requires m.status.Ok? && Some(m.key) == requirement.key && ValidMeasurement(lex, m)
    requires ReadsAs(m, WithAsset(run, item), files, item)
    ensures Evaluate(lex, m, requirement.constraint.value) == Pass
  {
    hide Made, AssetsOk, OptionsFor, Evaluate, ValidMeasurement, ReadsAs, WellTyped, Plain;
    MadeReadsAs(actionId, option, run, files, item, m);
    match requirement.key.value
    case PackageFilename => RenameOfferMeans(lex, run.runId, requirement, findingId, target, failures, option, m);
    case CaptionsFormat => ConvertOfferMeans(lex, run.runId, requirement, findingId, target, failures, option, m);
    case ManifestPresent => ManifestOfferMeans(lex, run.runId, requirement, findingId, target, failures, option, m);
    case _ => LoudnessOfferMeans(lex, run.runId, requirement, findingId, target, failures, option, m);
  }

  /** Trimming as Python does it, and folding that leaves the ends of a word alone. */
  ghost predicate TrimsPlainly(lex: Lexicon) {
    forall t :: lex.strip(t) == Text.Strip(t) && (Text.Tight(t) ==> Text.Tight(lex.fold(t)))
  }

  /** A draft that asks for a fact to be false. */
  predicate WantsAbsence(lex: Lexicon, draft: Draft) {
    || draft.operator == "ABSENT"
    || (draft.operator == "EQUALS" && |draft.rawValues| == 1
        && lex.fold(lex.strip(draft.rawValues[0])) in ["false", "no", "absent"])
  }

  /** What admission lets through can be attained, with one exception: that there be no
      manifest. */
  lemma AdmittedIsAttainableIff(lex: Lexicon, draft: Draft, definition: Definition, requirement: RuntimeRequirement)
    requires Lookup(definition.key) == Some(definition) && TrimsPlainly(lex)
    requires NormalizeConstraint(lex, Some(draft), definition).status.Executable?
    requires requirement.constraint == NormalizeConstraint(lex, Some(draft), definition).constraint
    requires requirement.key == Some(definition.key) && HasRemedy(requirement)
    ensures IsTyped(requirement)
    ensures Attainable(requirement) <==> !(definition.key.ManifestPresent? && WantsAbsence(lex, draft))
  {
    hide Text.Strip, Text.Tight, Lookup;
    AdmittedIsWellTyped(lex, Some(draft), definition);
    var operator := ParseOperator(draft.operator).value;
    var factor := CanonicalUnit(lex, draft.rawUnit, definition.unit).value.1;
    OperatorNames(draft.operator, operator);
    OperatorsByType(definition, operator);
    var raws := draft.rawValues;
    if raws != [] {
      Text.StripIsTight(raws[0]);
      RemedyTypes(definition);
      assert requirement.constraint.value.test.EqualsTest? ==>
        ParseValue(lex, raws[0], definition, factor) == Some(requirement.constraint.value.test.value);
      assert requirement.constraint.value.test.OneOfTest? ==>
        ParseValue(lex, raws[0], definition, factor) == Some(requirement.constraint.value.test.values[0]);
    }
  }

  lemma RemedyTypes(definition: Definition)
    requires Lookup(definition.key) == Some(definition)
    ensures definition.key.PackageFilename? ==> definition.valueType.StringType?
    ensures definition.key.CaptionsFormat? ==> definition.valueType.EnumType?
    ensures definition.key.ManifestPresent? ==> definition.valueType.BoolType?
  {}

  /** The exception: where no manifest may be present, writing one is what is offered, and then
      the requirement fails again. */
  lemma ManifestIsOfferedForAbsence(lex: Lexicon, runId: Id, requirement: RuntimeRequirement, findingId: FindingId,
                                    target: AssetId, m: Measurement)
    requires requirement.key == Some(ManifestPresent) && requirement.disposition.AutoRemediate?
    requires requirement.constraint == Some(Constraint(ManifestPresent, None, AbsentTest))
    requires m.status.Ok? && m.key.ManifestPresent? && ValidMeasurement(lex, m) && m.value == Some(Bool(true))
    ensures IsTyped(requirement)
    ensures var offers := OptionsFor(runId, requirement, findingId, target, 0);
            offers.Done? && |offers.value| == 1 && offers.value[0].tool.WriteChecksumManifest?
    ensures Evaluate(lex, m, requirement.constraint.value) == Fail
  {
    EqualityTestsMean(lex, m, requirement.constraint.value);
  }

  /** What the next inspection looks at: when the asset an option works on is the only current
      one of a requirement's role, the asset it made takes its place. */
  lemma MadeIsTarget(actionId: Id, option: RemediationOption, run: RuntimeRun, files: Files, item: RuntimeAsset,
                     requirement: RuntimeRequirement, source: RuntimeAsset)
    requires Made(actionId, option, run, files, item) && AssetsOk(run.assets + [item])
    requires InputAsset(option.arguments) == Some(source.asset.assetId) && item.asset.role == requirement.role
    requires forall other :: IsOfRole(run, requirement, other) ==> other.asset.assetId == source.asset.assetId
    ensures TargetOf(WithAsset(run, item), requirement) == Some(item)
  {
    hide AssetsOk, FindAsset, Stem, Fulfils, CurrentAssets;
    var grown := WithAsset(run, item);
    LastIsLeaf(run.assets + [item]);
    assert item in CurrentAssets(grown);
    forall other ensures IsOfRole(grown, requirement, other) ==> other == item {
      WasOfRole(run, item, requirement, other);
    }
    EveryAssetIsTargetIff(grown, requirement);
    assert IsOfRole(grown, requirement, item);
  }

  /** A current asset of the role that is not the new one was current before it, and is not what
      it replaced. */
  lemma WasOfRole(run: RuntimeRun, item: RuntimeAsset, requirement: RuntimeRequirement, other: RuntimeAsset)
    ensures IsOfRole(WithAsset(run, item), requirement, other) && other != item ==>
      IsOfRole(run, requirement, other) && item.asset.predecessor != Some(other.asset.assetId)
  {
    var grown := WithAsset(run, item);
    assert item in grown.assets && forall later :: later in run.assets ==> later in grown.assets;
  }
}
