/** What the orchestrator reads off a run and what it may write into it: the facts of the
    terminal verdict, the checks of an inspection, the options offered for a finding, and the
    fields it updates. */
module Lifecycle {
  import opened Domain
  import opened Sequences
  import opened Constraints
  import opened Terminal
  import opened Records
  import opened Protocol
  import opened Executor
  import Authority
  import Text

  // ------------------------------------------------------------ terminal facts

  /** The predicate results of one measurement: one for each constrained requirement it is
      about. */
  function FactsOf(lex: Lexicon, m: Measurement, requirements: seq<RuntimeRequirement>): seq<PredicateFact> {
    if requirements == [] then []
    else
      (if requirements[0].requirementId == m.requirementId && requirements[0].constraint.Some?
       then [PredicateFact(m.requirementId, Constraints.Evaluate(lex, m, requirements[0].constraint.value))] else [])
      + FactsOf(lex, m, requirements[1..])
  }

  /** All of them, in measurement order. */
  function PredicateFacts(lex: Lexicon, ms: seq<Measurement>, requirements: seq<RuntimeRequirement>)
      : seq<PredicateFact> {
    if ms == [] then []
    else PredicateFacts(lex, ms[..|ms| - 1], requirements) + FactsOf(lex, ms[|ms| - 1], requirements)
  }

  function RequirementFacts(requirements: seq<RuntimeRequirement>): seq<RequirementFact> {
    seq(|requirements|, i requires 0 <= i < |requirements| =>
      RequirementFact(requirements[i].requirementId, requirements[i].severity, requirements[i].normalization,
                      requirements[i].applicability))
  }

  function FindingFacts(findings: seq<RuntimeFinding>): seq<FindingFact> {
    seq(|findings|, i requires 0 <= i < |findings| =>
      FindingFact(findings[i].requirementId, findings[i].status, findings[i].options != []))
  }

  function RequestStatuses(requests: seq<DecisionRequest>): seq<DecisionStatus> {
    seq(|requests|, i requires 0 <= i < |requests| => requests[i].status)
  }

  /** The input `_terminal` gives to `compute`. */
  function TerminalOf(lex: Lexicon, run: RuntimeRun, cycle: nat, intact: bool): TerminalInput {
    TerminalInput(run.runId, cycle, RequirementFacts(run.requirements),
                  PredicateFacts(lex, run.measurements, run.requirements), FindingFacts(run.findings),
                  RequestStatuses(run.decisionRequests), intact)
  }

  // ------------------------------------------------------------ fresh facts

  function LastOf(ms: seq<Measurement>, id: Id): Option<Measurement> {
    if ms == [] then None
    else if ms[|ms| - 1].requirementId == id then Some(ms[|ms| - 1])
    else LastOf(ms[..|ms| - 1], id)
  }

  /** For every requirement ever measured, the last measurement is of this cycle. */
  predicate Fresh(ms: seq<Measurement>, cycle: nat) {
    forall i :: 0 <= i < |ms| ==>
      LastOf(ms, ms[i].requirementId).Some? && LastOf(ms, ms[i].requirementId).value.cycle == cycle
  }

  lemma {:induction false} LastOfIn(ms: seq<Measurement>, id: Id)
    ensures LastOf(ms, id).Some? ==> LastOf(ms, id).value in ms && LastOf(ms, id).value.requirementId == id
    ensures LastOf(ms, id).None? ==> forall i :: 0 <= i < |ms| ==> ms[i].requirementId != id
  {
    if ms != [] {
      var last := |ms| - 1;
      LastOfIn(ms[..last], id);
      assert ms == ms[..last] + [ms[last]];
      forall i | 0 <= i < last ensures ms[..last][i] == ms[i] {}
    }
  }

  lemma {:induction false} LastOfAppend(ms: seq<Measurement>, batch: seq<Measurement>, id: Id)
    ensures LastOf(ms + batch, id) == if LastOf(batch, id).Some? then LastOf(batch, id) else LastOf(ms, id)
  {
    if batch == [] {
      assert ms + batch == ms;
    } else {
      var all, last := ms + batch, |batch| - 1;
      assert all[|all| - 1] == batch[last] && all[..|all| - 1] == ms + batch[..last];
      LastOfAppend(ms, batch[..last], id);
    }
  }

  predicate Measures(batch: seq<Measurement>, id: Id) {
    exists j :: 0 <= j < |batch| && batch[j].requirementId == id
  }

  /** A batch of this cycle that covers everything measured before makes the facts fresh. */
  lemma BatchIsFresh(ms: seq<Measurement>, batch: seq<Measurement>, cycle: nat)
    requires forall i :: 0 <= i < |batch| ==> batch[i].cycle == cycle
    requires forall i :: 0 <= i < |ms| ==> Measures(batch, ms[i].requirementId)
    ensures Fresh(ms + batch, cycle)
  {
    forall i | 0 <= i < |ms + batch|
      ensures LastOf(ms + batch, (ms + batch)[i].requirementId).Some?
      ensures LastOf(ms + batch, (ms + batch)[i].requirementId).value.cycle == cycle
    {
      var id := (ms + batch)[i].requirementId;
      LastOfAppend(ms, batch, id);
      LastOfIn(batch, id);
      if i < |ms| {
        assert Measures(batch, id);
        var j :| 0 <= j < |batch| && batch[j].requirementId == id;
        assert batch[j].requirementId == id;
      } else {
        assert batch[i - |ms|].requirementId == id;
      }
      var m := LastOf(batch, id).value;
      assert m in batch;
    }
  }

  lemma {:induction false} LatestAppend(before: seq<PredicateFact>, after: seq<PredicateFact>, id: Id)
    ensures Latest(before + after, id) == if Latest(after, id).Some? then Latest(after, id) else Latest(before, id)
  {
    if after == [] {
      assert before + after == before;
    } else {
      var all, last := before + after, |after| - 1;
      assert all[|all| - 1] == after[last] && all[..|all| - 1] == before + after[..last];
      LatestAppend(before, after[..last], id);
    }
  }

  predicate Constrained(requirements: seq<RuntimeRequirement>, id: Id) {
    exists i :: 0 <= i < |requirements| && requirements[i].requirementId == id && requirements[i].constraint.Some?
  }

  /** The outcome is that of this measurement under a constraint of its requirement. */
  predicate Justifies(lex: Lexicon, m: Measurement, requirements: seq<RuntimeRequirement>, outcome: PredicateOutcome) {
    exists i :: 0 <= i < |requirements| && requirements[i].requirementId == m.requirementId
      && requirements[i].constraint.Some?
      && Constraints.Evaluate(lex, m, requirements[i].constraint.value) == outcome
  }

  lemma {:induction false} FactsOfMeaning(lex: Lexicon, m: Measurement, requirements: seq<RuntimeRequirement>, id: Id)
    ensures var latest := Latest(FactsOf(lex, m, requirements), id);
            && (latest.Some? <==> m.requirementId == id && Constrained(requirements, id))
            && (latest.Some? ==> Justifies(lex, m, requirements, latest.value))
  {
    hide Constraints.Evaluate;
    if requirements != [] {
      var r, rest := requirements[0], requirements[1..];
      var first := if r.requirementId == m.requirementId && r.constraint.Some?
                   then [PredicateFact(m.requirementId, Constraints.Evaluate(lex, m, r.constraint.value))] else [];
      FactsOfMeaning(lex, m, rest, id);
      LatestAppend(first, FactsOf(lex, m, rest), id);
      if Constrained(rest, id) {
        var i :| 0 <= i < |rest| && rest[i].requirementId == id && rest[i].constraint.Some?;
        assert requirements[i + 1] == rest[i];
      }
      if Constrained(requirements, id) {
        var i :| 0 <= i < |requirements| && requirements[i].requirementId == id && requirements[i].constraint.Some?;
        if i > 0 {
          assert rest[i - 1] == requirements[i];
        }
      }
      var latest := Latest(FactsOf(lex, m, rest), id);
      if latest.Some? {
        var i :| 0 <= i < |rest| && rest[i].requirementId == m.requirementId && rest[i].constraint.Some?
                 && Constraints.Evaluate(lex, m, rest[i].constraint.value) == latest.value;
        assert requirements[i + 1] == rest[i];
      }
      assert first != [] ==> first[..0] == [];
    }
  }

  /** The predicate that decides a requirement is the one of its last measurement. */
  lemma {:induction false} LatestIsOfLast(lex: Lexicon, ms: seq<Measurement>, requirements: seq<RuntimeRequirement>,
                                          id: Id)
    ensures var latest := Latest(PredicateFacts(lex, ms, requirements), id);
            && (latest.Some? <==> LastOf(ms, id).Some? && Constrained(requirements, id))
            && (latest.Some? ==> Justifies(lex, LastOf(ms, id).value, requirements, latest.value))
  {
    if ms != [] {
      var last := |ms| - 1;
      LatestIsOfLast(lex, ms[..last], requirements, id);
      FactsOfMeaning(lex, ms[last], requirements, id);
      LatestAppend(PredicateFacts(lex, ms[..last], requirements), FactsOf(lex, ms[last], requirements), id);
    }
  }

  /** A ready verdict rests on fresh facts: every blocking requirement is executable and
      resolved, and the PASS that decides an applicable one is that of a measurement taken in
      the verdict's own cycle. */
  lemma ReadyRestsOnFreshFacts(lex: Lexicon, run: RuntimeRun, cycle: nat, intact: bool, i: nat)
    requires Fresh(run.measurements, cycle) && Deliverable(TerminalOf(lex, run, cycle, intact))
    requires i < |run.requirements| && run.requirements[i].severity.Blocking?
    ensures run.requirements[i].normalization.Executable?
    ensures !run.requirements[i].applicability.ApplicabilityUnresolved?
    ensures run.requirements[i].applicability.Applicable? ==>
              exists k :: 0 <= k < |run.measurements|
                && run.measurements[k].requirementId == run.requirements[i].requirementId
                && run.measurements[k].cycle == cycle && Justifies(lex, run.measurements[k], run.requirements, Pass)
  {
    var input := TerminalOf(lex, run, cycle, intact);
    var r := input.requirements[i];
    assert r in input.requirements;
    LatestIsOfLast(lex, run.measurements, run.requirements, r.id);
    LastOfIn(run.measurements, r.id);
    if r.applicability.Applicable? {
      var m := LastOf(run.measurements, r.id).value;
      var k :| 0 <= k < |run.measurements| && run.measurements[k] == m;
      assert Fresh(run.measurements, cycle);
      assert run.measurements[k].cycle == cycle;
    }
  }

  // ------------------------------------------------------------ inspection

  /** `run.check_order or` every requirement. */
  function OrderedIds(run: RuntimeRun): seq<Id> {
    if run.checkOrder != [] then run.checkOrder else RequirementIds(run.requirements)
  }

  function RequirementIds(requirements: seq<RuntimeRequirement>): seq<Id> {
    seq(|requirements|, i requires 0 <= i < |requirements| => requirements[i].requirementId)
  }

  /** `by_requirement[id]`: the last requirement of that name; `None` is the `KeyError`. */
  function FindRequirement(requirements: seq<RuntimeRequirement>, id: Id): (r: Option<RuntimeRequirement>)
    ensures r.Some? ==> r.value in requirements && r.value.requirementId == id
    ensures r.None? <==> forall i :: 0 <= i < |requirements| ==> requirements[i].requirementId != id
  {
    if requirements == [] then None
    else if requirements[|requirements| - 1].requirementId == id then Some(requirements[|requirements| - 1])
    else FindRequirement(requirements[..|requirements| - 1], id)
  }

  predicate Measurable(run: RuntimeRun, id: Id) {
    var r := FindRequirement(run.requirements, id);
    r.Some? && r.value.tool.Some? && r.value.key.Some? && r.value.constraint.Some?
  }

  /** What is measured under a name: the last requirement that has it, if it has a tool, a key and
      a constraint. */
  lemma {:induction false} MeasurableIff(run: RuntimeRun, k: nat)
    requires k < |run.requirements|
    requires forall j :: k < j < |run.requirements| ==>
               run.requirements[j].requirementId != run.requirements[k].requirementId
    ensures var requirement := run.requirements[k];
            Measurable(run, requirement.requirementId) <==>
            requirement.tool != None && requirement.key != None && requirement.constraint != None
  {
    FoundLast(run.requirements, k);
  }

  lemma {:induction false} FoundLast(requirements: seq<RuntimeRequirement>, k: nat)
    requires k < |requirements|
    requires forall j :: k < j < |requirements| ==> requirements[j].requirementId != requirements[k].requirementId
    ensures FindRequirement(requirements, requirements[k].requirementId) == Some(requirements[k])
  {
    if k < |requirements| - 1 {
      FoundLast(requirements[..|requirements| - 1], k);
    }
  }

  /** Only what every inspection measures has ever been measured. */
  predicate MeasuresOk(run: RuntimeRun) {
    forall i :: 0 <= i < |run.measurements| ==>
      run.measurements[i].requirementId in OrderedIds(run) && Measurable(run, run.measurements[i].requirementId)
  }

  /** The asset a requirement is checked on: the first current one of its role, or the first. */
  function TargetOf(run: RuntimeRun, requirement: RuntimeRequirement): (r: Option<RuntimeAsset>)
    ensures r.Some? ==> r.value in CurrentAssets(run)
  {
    var current := CurrentAssets(run);
    var scoped := Select(current, (item: RuntimeAsset) => item.asset.role == requirement.role);
    if scoped != [] then assert scoped[0] in scoped; Some(scoped[0])
    else if current != [] then Some(current[0])
    else None
  }

  predicate IsOfRole(run: RuntimeRun, requirement: RuntimeRequirement, item: RuntimeAsset) {
    item in CurrentAssets(run) && item.asset.role == requirement.role
  }

  /** So one asset of each role is checked. Every current asset of a requirement's role is the
      one its check looks at exactly when there is at most one. */
  lemma EveryAssetIsTargetIff(run: RuntimeRun, requirement: RuntimeRequirement)
    ensures (forall item :: IsOfRole(run, requirement, item) ==> TargetOf(run, requirement) == Some(item)) <==>
            forall item, other :: IsOfRole(run, requirement, item) && IsOfRole(run, requirement, other) ==>
              item == other
  {
    hide CurrentAssets;
    var scoped := Select(CurrentAssets(run), (item: RuntimeAsset) => item.asset.role == requirement.role);
    forall item | IsOfRole(run, requirement, item)
      ensures TargetOf(run, requirement).Some? && IsOfRole(run, requirement, TargetOf(run, requirement).value)
    {
      assert item in scoped && scoped[0] in scoped;
    }
  }

  /** Where there are two, the second is never looked at, in any cycle. */
  lemma SecondIsNeverTarget(run: RuntimeRun, requirement: RuntimeRequirement, first: RuntimeAsset, second: RuntimeAsset)
    requires run.assets == [first, second] && first != second
    requires first.asset.protection.Working? && first.asset.predecessor.None? && first.asset.role == requirement.role
    requires second.asset.protection.Working? && second.asset.predecessor.None? && second.asset.role == requirement.role
    ensures IsOfRole(run, requirement, second) && TargetOf(run, requirement) == Some(first)
  {
    assert Superseded(run.assets) == {};
    assert run.assets[1..] == [second];
  }

  /** Every run has a current asset: the last one that is no original is replaced by none. */
  lemma CurrentNonEmpty(run: RuntimeRun, item: RuntimeAsset)
    requires AssetsOk(run.assets) && item in run.assets && !item.asset.protection.Original?
    ensures CurrentAssets(run) != []
  {
    var i :| 0 <= i < |run.assets| && run.assets[i] == item;
    LeafFrom(run.assets, i);
    var k :| i <= k < |run.assets| && IsLeaf(run.assets, run.assets[k]);
    assert run.assets[k] in CurrentAssets(run);
  }

  /** Lineage is well-founded: from every asset that is no original a current leaf can be
      found at or after it. */
  lemma {:induction false} LeafFrom(assets: seq<RuntimeAsset>, i: nat)
    requires AssetsOk(assets) && i < |assets| && !assets[i].asset.protection.Original?
    ensures exists k :: i <= k < |assets| && IsLeaf(assets, assets[k])
    decreases |assets| - i
  {
    if !IsLeaf(assets, assets[i]) {
      var later :| later in assets && later.asset.predecessor == Some(assets[i].asset.assetId);
      var j :| 0 <= j < |assets| && assets[j] == later;
      assert Listed(assets[..j], assets[i].asset.assetId);
      var k :| 0 <= k < j && assets[..j][k].asset.assetId == assets[i].asset.assetId;
      assert assets[k].asset.assetId == assets[i].asset.assetId;
      assert k == i;
      assert AssetOk(assets[j]);
      LeafFrom(assets, j);
    }
  }

  // ------------------------------------------------------------ the runtime's manifest

  /** The first current manifest that an action made. */
  function RuntimeManifest(run: RuntimeRun): (r: Option<RuntimeAsset>)
    ensures r.Some? ==> r.value in CurrentAssets(run)
    ensures r.Some? ==> r.value.asset.role.Manifest? && r.value.asset.createdByAction.Some?
    ensures r.None? <==> forall item :: item in CurrentAssets(run) && item.asset.role.Manifest? ==>
      item.asset.createdByAction.None?
  {
    var made := Select(CurrentAssets(run), (item: RuntimeAsset) => item.asset.role.Manifest?
      && item.asset.createdByAction.Some?);
    if made == [] then
      assert forall item ::
        item in CurrentAssets(run) && item.asset.role.Manifest? && item.asset.createdByAction.Some? ==> item in made;
      None
    else assert made[0] in made; Some(made[0])
  }

  function ChecksumsRequirement(requirements: seq<RuntimeRequirement>): (r: Option<RuntimeRequirement>)
    ensures r.Some? ==> r.value in requirements && r.value.key == Some(ChecksumsMatch)
    ensures r.None? <==> forall requirement :: requirement in requirements ==> requirement.key != Some(ChecksumsMatch)
  {
    if requirements == [] then None
    else if requirements[0].key == Some(ChecksumsMatch) then Some(requirements[0])
    else ChecksumsRequirement(requirements[1..])
  }

  /** A current manifest made by an action, whose file is what a manifest of the current leaves
      would say. */
  predicate ListsLeaves(item: RuntimeAsset, run: RuntimeRun, files: Files) {
    && item in CurrentAssets(run) && item.asset.role.Manifest? && item.asset.createdByAction.Some?
    && item.path in files
    && files[item.path] == ManifestText(ManifestLines(run.assets))
  }

  /** The last rewrite of the manifest failed. */
  predicate RewriteFailed(findings: seq<RuntimeFinding>) {
    exists i :: 0 <= i < |findings| && findings[i].findingId.invalidation && findings[i].status.Unresolved?
      && forall j :: i < j < |findings| ==> !findings[j].findingId.invalidation
  }

  /** The manifest the runtime would look up is one the promise is about: the only current one,
      which listed the leaves when it was made (one that the runtime wrote always did; a renamed
      copy may not have), with its file as recorded, in a package with a checksums requirement,
      and its last rewrite, if any, went through. */
  predicate ManifestDue(run: RuntimeRun, files: Files) {
    && RuntimeManifest(run).Some? && |Manifests(run)| <= 1
    && MadeCurrent(run.assets, RuntimeManifest(run).value) && Intact(RuntimeManifest(run).value, files)
    && ChecksumsRequirement(run.requirements).Some? && !RewriteFailed(run.findings)
  }

  /** The runtime's manifest is up to date. */
  predicate ManifestKept(run: RuntimeRun, files: Files) {
    ManifestDue(run, files) ==> ListsLeaves(RuntimeManifest(run).value, run, files)
  }

  // ------------------------------------------------------------ options

  /** `str(value)`, as a field of a tool input that strips what it is given: an admitted
      constraint of the keys concerned holds strings. */
  function NameOf(value: Scalar): string { Text.Strip(if value.Str? then value.s else "") }

  datatype Remedy = Remedy(tool: Tool, input: ToolInput, tier: nat)

  /** What `_options` chooses for a finding, if anything. */
  function RemedyFor(runId: Id, requirement: RuntimeRequirement, findingId: FindingId, target: AssetId)
      : Option<Remedy> {
    var automatic := requirement.disposition.AutoRemediate?;
    if requirement.key.None? || requirement.constraint.None? then None
    else
      match (requirement.key.value, requirement.constraint.value.test)
      case (PackageFilename, EqualsTest(value)) =>
        if !automatic then None
        else Some(Remedy(RenameDeliveryCopy,
          RenameInput(target, OptionId(findingId, RenameDeliveryCopy), NameOf(value)), 1))
      case (ManifestPresent, _) =>
        if !automatic then None
        else Some(Remedy(WriteChecksumManifest,
          ManifestInput(runId, OptionId(findingId, WriteChecksumManifest), "sha256sums"), 1))
      case (CaptionsFormat, EqualsTest(value)) =>
        if !automatic then None
        else Some(Remedy(ConvertCaptionFormat,
          ConvertInput(target, OptionId(findingId, ConvertCaptionFormat), NameOf(value)), 1))
      case (CaptionsFormat, OneOfTest(values)) =>
        if !automatic || values == [] then None
        else Some(Remedy(ConvertCaptionFormat,
          ConvertInput(target, OptionId(findingId, ConvertCaptionFormat), NameOf(values[0])), 1))
      case (IntegratedLoudness, RangeTest(lower, upper, _, _)) =>
        if !requirement.disposition.HumanApprovalRequired? || Numeric(lower).None? || Numeric(upper).None? then None
        else
          var low, high := Numeric(lower).value, Numeric(upper).value;
          Some(Remedy(CreateNormalizedAudioDerivative,
            NormalizeInput(target, OptionId(findingId, CreateNormalizedAudioDerivative), (low + high) / 2.0,
                           (high - low) / 2.0, 0), 2))
      case _ => None
  }

  /** `reject_path_syntax`. */
  predicate ValidName(value: string) { value != "" && !Text.PathSyntax(value) }

  /** The validators of the tool inputs. */
  predicate ValidInput(input: ToolInput) {
    match input
    case RenameInput(_, _, name) => ValidName(name)
    case ConvertInput(_, _, target) => ValidName(target)
    case NormalizeInput(_, _, _, tolerance, _) => tolerance > 0.0
    case _ => true
  }

  /** `_options`. */
  function OptionsFor(runId: Id, requirement: RuntimeRequirement, findingId: FindingId, target: AssetId, failures: nat)
    : (r: Outcome<seq<RemediationOption>>)
    ensures r.Done? ==> |r.value| <= 1
  {
    match RemedyFor(runId, requirement, findingId, target)
    case None => Done([])
    case Some(remedy) =>
      if failures >= 2 then Done([])
      else if !ValidInput(remedy.input) then Raised(InvalidValue)
      else Done([OptionFromCall(OptionId(findingId, remedy.tool), findingId, remedy.tool, remedy.input, remedy.tier)])
  }

  /** What `_options` makes of a requirement passes the validators of its tool input. */
  predicate RemedyValid(requirement: RuntimeRequirement) {
    var remedy := RemedyFor(0, requirement, FindingId(0, 0, false), WorkingAsset(0));
    remedy.Some? ==> ValidInput(remedy.value.input)
  }

  /** Whatever the finding and its target. */
  lemma RemedyValidAnywhere(runId: Id, requirement: RuntimeRequirement, findingId: FindingId, target: AssetId,
                            failures: nat)
    requires RemedyValid(requirement)
    ensures OptionsFor(runId, requirement, findingId, target, failures).Done?
  {
    hide NameOf, Text.PathSyntax;
  }

  /** Not every admitted requirement is such: a loudness range of one point, which admission
      lets through, leaves a tolerance the derivative's input refuses, so the inspection that
      finds the file outside it raises. */
  lemma PointRangeIsRefused(runId: Id, requirement: RuntimeRequirement, findingId: FindingId, target: AssetId,
                            value: Scalar)
    requires requirement.key == Some(IntegratedLoudness) && requirement.disposition.HumanApprovalRequired?
    requires requirement.constraint ==
      Some(Constraint(IntegratedLoudness, Some("LUFS"), RangeTest(value, value, true, true)))
    requires Numeric(value).Some?
    ensures WellTyped(requirement.constraint.value)
    ensures OptionsFor(runId, requirement, findingId, target, 0) == Raised(InvalidValue) && !RemedyValid(requirement)
  {
    hide NameOf;
  }

  /** What holds of every option of a run: it is named after its finding and tool, its
      arguments fit the tool and are bound by its hash, and the runtime can describe what it
      would produce. */
  predicate OptionOk(option: RemediationOption, run: RuntimeRun) {
    && option.optionId == OptionId(option.findingId, option.tool)
    && InputFits(option.tool, option.arguments) && InputOption(option.arguments) == Some(option.optionId)
    && option.argsHash == HashArguments(option.arguments)
    && (TierOf(option.tool) == Some(Reversible) || TierOf(option.tool) == Some(ContentAffecting))
    && option.tier == Authority.TierNumber(TierOf(option.tool).value)
    && (InputRun(option.arguments).Some? ==> InputRun(option.arguments) == Some(run.runId))
    && (InputAsset(option.arguments).Some? ==> FindAsset(run.assets, InputAsset(option.arguments).value).Some?)
    && (option.arguments.ConvertInput? ==> CaptionSuffix(option.arguments.targetFormat).Some?)
    && (option.arguments.ManifestInput? ==> option.arguments.format == "sha256sums")
  }

  /** Caption targets the conversion knows. */
  predicate CaptionTargetKnown(requirement: RuntimeRequirement) {
    requirement.key == Some(CaptionsFormat) && requirement.disposition.AutoRemediate? ==>
    requirement.constraint.Some? ==>
      match requirement.constraint.value.test
      case EqualsTest(value) => CaptionSuffix(NameOf(value)).Some?
      case OneOfTest(values) => values != [] ==> CaptionSuffix(NameOf(values[0])).Some?
      case _ => true
  }

  lemma OptionsForOk(run: RuntimeRun, requirement: RuntimeRequirement, findingId: FindingId, target: RuntimeAsset,
                     failures: nat, option: RemediationOption)
    requires target in run.assets && CaptionTargetKnown(requirement)
    requires OptionsFor(run.runId, requirement, findingId, target.asset.assetId, failures).Done?
    requires option in OptionsFor(run.runId, requirement, findingId, target.asset.assetId, failures).value
    ensures OptionOk(option, run) && option.findingId == findingId
  {
    hide NameOf, Text.PathSyntax;
    assert FindAsset(run.assets, target.asset.assetId).Some?;
  }

  /** An option the runtime offers can be described exactly when the requirement's caption
      target, if it has one, is a format the conversion knows. */
  lemma OfferedDescribableIff(run: RuntimeRun, requirement: RuntimeRequirement, findingId: FindingId,
                              target: RuntimeAsset, failures: nat, option: RemediationOption, actionId: Id)
    requires target in run.assets
    requires OptionsFor(run.runId, requirement, findingId, target.asset.assetId, failures).Done?
    requires option in OptionsFor(run.runId, requirement, findingId, target.asset.assetId, failures).value
    ensures Describe(actionId, option, run).Some? <==> CaptionTargetKnown(requirement)
  {
    hide NameOf, Text.PathSyntax;
    assert FindAsset(run.assets, target.asset.assetId).Some?;
    DescribableIff(actionId, option, run);
  }

  /** Such a requirement is admitted: captions in TTML are executable, and offered a conversion
      that cannot be described. */
  lemma TtmlIsOffered(lex: Lexicon, run: RuntimeRun, requirement: RuntimeRequirement, findingId: FindingId,
                      target: RuntimeAsset, actionId: Id)
    requires lex.strip("ttml") == "ttml" && lex.fold("ttml") == "ttml" && target in run.assets
    requires requirement.key == Some(CaptionsFormat) && requirement.disposition.AutoRemediate?
    requires requirement.constraint ==
      NormalizeConstraint(lex, Some(Draft("EQUALS", ["ttml"], None)), Lookup(CaptionsFormat).value).constraint
    ensures NormalizeConstraint(lex, Some(Draft("EQUALS", ["ttml"], None)), Lookup(CaptionsFormat).value).status ==
      Executable
    ensures var offers := OptionsFor(run.runId, requirement, findingId, target.asset.assetId, 0);
            && offers.Done? && |offers.value| == 1 && offers.value[0].tool.ConvertCaptionFormat?
              && offers.value[0].tier == 1
            && Describe(actionId, offers.value[0], run).None?
  {
    hide NormalizeConstraint, FindAsset, NameOf, Text.PathSyntax;
    TtmlIsAdmitted(lex);
    TtmlIsUnknown();
  }

  lemma TtmlIsUnknown()
    ensures NameOf(Str("ttml")) == "ttml" && CaptionSuffix("ttml").None? && ValidName("ttml")
  {
    NoSpaceAround();
    hide Text.IsSpace;
    assert Text.LStrip("ttml") == "ttml" && Text.RStrip("ttml") == "ttml";
  }

  lemma NoSpaceAround()
    ensures !Text.IsSpace('t') && !Text.IsSpace('l')
  {}

  lemma TtmlIsAdmitted(lex: Lexicon)
    requires lex.strip("ttml") == "ttml" && lex.fold("ttml") == "ttml"
    ensures NormalizeConstraint(lex, Some(Draft("EQUALS", ["ttml"], None)), Lookup(CaptionsFormat).value)
            == Normalized(Some(Constraint(CaptionsFormat, None, EqualsTest(Str("ttml")))), Executable, "")
  {
    var definition := Lookup(CaptionsFormat).value;
    assert ParseValue(lex, "ttml", definition, 1.0) == Some(Str("ttml"));
    OneParsed(lex, "ttml", definition, 1.0, Str("ttml"));
  }

  lemma {:induction false} OneParsed(lex: Lexicon, raw: string, definition: Definition, factor: real, value: Scalar)
    requires ParseValue(lex, raw, definition, factor) == Some(value)
    ensures ParseAll(lex, [raw], definition, factor) == Some([value])
  {
    var raws := [raw];
    assert raws[0] == raw && raws[1..] == [];
    var rest: seq<Scalar> := [];
    assert ParseAll(lex, raws[1..], definition, factor) == Some(rest);
    assert [value] + rest == [value];
  }

  /** An option that is in order can be described for any action, now and after the run grew. */
  lemma OptionDescribable(option: RemediationOption, run: RuntimeRun, actionId: Id)
    requires OptionOk(option, run)
    ensures Describe(actionId, option, run).Some?
  {
    DescribableIff(actionId, option, run);
  }

  lemma OptionOkGrown(option: RemediationOption, run: RuntimeRun, grown: RuntimeRun)
    requires OptionOk(option, run) && run.assets <= grown.assets && run.runId == grown.runId
    ensures OptionOk(option, grown)
  {
    if InputAsset(option.arguments).Some? {
      var item := FindAsset(run.assets, InputAsset(option.arguments).value).value;
      var i :| 0 <= i < |run.assets| && run.assets[i] == item;
      assert grown.assets[i] == item;
    }
  }
}
