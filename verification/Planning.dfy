/** The checks a package owes its requirements, and plans that cover them whatever the
    semantic model proposes. */
module Planning {
  import opened Domain
  import opened Constraints
  import opened Records
  import opened Sequences
  import opened Admission

  // ------------------------------------------------------------ required checks

  /** Values an argument can have: a scalar, or the identifier of a run or an asset. */
  datatype ArgumentValue = RunValue(runId: Id) | AssetValue(assetId: AssetId) | ScalarValue(scalar: Scalar)
  datatype ToolArgument = ToolArgument(name: string, value: ArgumentValue)

  /** The identifier hashes the requirement, the asset and the tool. */
  datatype CheckId = CheckId(requirementId: RequirementId, assetId: AssetId, tool: Tool)

  datatype RequiredCheck = RequiredCheck(
    checkId: CheckId, requirementId: RequirementId, assetId: AssetId, tool: Tool, toolArgs: seq<ToolArgument>)

  /** The fields of a tool's input model that planning fills in. */
  predicate TakesRun(tool: Tool) { tool.ScanPackage? || tool.VerifyManifest? || tool.WriteChecksumManifest? }
  predicate TakesAsset(tool: Tool) { TierOf(tool).Some? && !TakesRun(tool) }
  predicate TakesStream(tool: Tool) { tool.MeasureLoudness? }

  predicate IsOwed(requirement: Requirement) {
    requirement.status.Executable? && requirement.applicabilityStatus.Applicable?
  }

  function AssetsOf(assets: seq<Asset>, runId: Id): seq<Asset> {
    if assets == [] then []
    else (if assets[0].runId == runId then [assets[0]] else []) + AssetsOf(assets[1..], runId)
  }

  function WithRole(assets: seq<Asset>, role: Role): seq<Asset> {
    if assets == [] then []
    else (if assets[0].role == role then [assets[0]] else []) + WithRole(assets[1..], role)
  }

  function FirstOf(assets: seq<Asset>): seq<Asset> { if assets == [] then [] else [assets[0]] }

  /** The assets a requirement is checked on: every one of its role for a tool that takes an
      asset, else one that stands for the package. */
  function BoundAssets(requirement: Requirement, tool: Tool, assets: seq<Asset>): seq<Asset> {
    var ofRun := AssetsOf(assets, requirement.runId);
    var scoped := WithRole(ofRun, requirement.scope.role);
    if TakesAsset(tool) then scoped else if scoped != [] then FirstOf(scoped) else FirstOf(ofRun)
  }

  function ArgumentsFor(requirement: Requirement, tool: Tool, asset: Asset): seq<ToolArgument> {
    (if TakesRun(tool) then [ToolArgument("run_id", RunValue(requirement.runId))] else [])
    + (if TakesAsset(tool) then [ToolArgument("asset_id", AssetValue(asset.assetId))] else [])
    + (if TakesStream(tool) && requirement.scope.stream.Some?
       then [ToolArgument("stream", ScalarValue(Str(requirement.scope.stream.value)))] else [])
  }

  function CheckFor(requirement: Requirement, tool: Tool, asset: Asset): RequiredCheck {
    RequiredCheck(CheckId(requirement.requirementId, asset.assetId, tool), requirement.requirementId, asset.assetId,
      tool,
                  ArgumentsFor(requirement, tool, asset))
  }

  function ChecksOn(requirement: Requirement, tool: Tool, bound: seq<Asset>): seq<RequiredCheck> {
    if bound == [] then [] else [CheckFor(requirement, tool, bound[0])] + ChecksOn(requirement, tool, bound[1..])
  }

  /** The checks of one requirement, or the refusal to plan for it. */
  function ChecksFor(requirement: Requirement, assets: seq<Asset>): Outcome<seq<RequiredCheck>> {
    if !IsOwed(requirement) then Done([])
    else if requirement.verification.None? || TierOf(requirement.verification.value.tool) != Some(Inspect)
      then Raised(InvalidValue)
    else
      var tool := requirement.verification.value.tool;
      var bound := BoundAssets(requirement, tool, assets);
      if TakesStream(tool) && requirement.scope.stream.None? && bound != [] then Raised(InvalidValue)
      else Done(ChecksOn(requirement, tool, bound))
  }

  function Derived(requirements: seq<Requirement>, assets: seq<Asset>): Outcome<seq<RequiredCheck>> {
    if requirements == [] then Done([])
    else
      match (ChecksFor(requirements[0], assets), Derived(requirements[1..], assets))
      case (Done(first), Done(rest)) => Done(first + rest)
      case _ => Raised(InvalidValue)
  }

  lemma {:induction false} DerivedFails(requirements: seq<Requirement>, assets: seq<Asset>, i: nat)
    requires i < |requirements| && !ChecksFor(requirements[i], assets).Done?
    ensures Derived(requirements, assets) == Raised(InvalidValue)
  {
    hide ChecksFor;
    if i > 0 {
      DerivedFails(requirements[1..], assets, i - 1);
    }
  }

  /** What is derived once the checks so far are followed by those of the rest. */
  function After(checks: seq<RequiredCheck>, rest: Outcome<seq<RequiredCheck>>): Outcome<seq<RequiredCheck>> {
    match rest
    case Done(more) => Done(checks + more)
    case _ => Raised(InvalidValue)
  }

  lemma {:induction false} DerivedNext(requirements: seq<Requirement>, assets: seq<Asset>, i: nat,
                                       checks: seq<RequiredCheck>)
    requires i < |requirements| && ChecksFor(requirements[i], assets).Done?
    ensures After(checks, Derived(requirements[i..], assets)) ==
            After(checks + ChecksFor(requirements[i], assets).value, Derived(requirements[i + 1..], assets))
  {
    hide ChecksFor;
    assert requirements[i..][0] == requirements[i] && requirements[i..][1..] == requirements[i + 1..];
    var first, rest := ChecksFor(requirements[i], assets).value, Derived(requirements[i + 1..], assets);
    if rest.Done? {
      assert checks + (first + rest.value) == checks + first + rest.value;
    }
  }

  lemma {:induction false} NextCheck(requirement: Requirement, tool: Tool, bound: seq<Asset>, j: nat)
    requires j < |bound|
    ensures ChecksOn(requirement, tool, bound[j..]) ==
      [CheckFor(requirement, tool, bound[j])] + ChecksOn(requirement, tool, bound[j + 1..])
  {
    hide CheckFor;
    assert bound[j..][0] == bound[j] && bound[j..][1..] == bound[j + 1..];
  }

  /** `derive_required_checks`. */
  method DeriveRequiredChecks(requirements: seq<Requirement>, assets: seq<Asset>)
    returns (r: Outcome<seq<RequiredCheck>>)
    ensures r == Derived(requirements, assets)
  {
    hide CheckFor, BoundAssets, Derived, ChecksOn, IsOwed;
    var checks: seq<RequiredCheck> := [];
    NothingDerived(requirements, assets);
    for i := 0 to |requirements|
      invariant Derived(requirements, assets) == After(checks, Derived(requirements[i..], assets))
    {
      var requirement := requirements[i];
      if IsOwed(requirement) {
        if requirement.verification.None? || TierOf(requirement.verification.value.tool) != Some(Inspect) {
          DerivedFails(requirements, assets, i);
          return Raised(InvalidValue);
        }
        var tool := requirement.verification.value.tool;
        var bound := BoundAssets(requirement, tool, assets);
        var found: seq<RequiredCheck> := [];
        for j := 0 to |bound|
          invariant j > 0 ==> !(TakesStream(tool) && requirement.scope.stream.None?)
          invariant found + ChecksOn(requirement, tool, bound[j..]) == ChecksOn(requirement, tool, bound)
        {
          if TakesStream(tool) && requirement.scope.stream.None? {
            DerivedFails(requirements, assets, i);
            return Raised(InvalidValue);
          }
          NextCheck(requirement, tool, bound, j);
          found := found + [CheckFor(requirement, tool, bound[j])];
        }
        NoChecks(requirement, tool, bound);
        assert found + [] == found;
        DerivedNext(requirements, assets, i, checks);
        checks := checks + found;
      } else {
        DerivedNext(requirements, assets, i, checks);
        assert checks + [] == checks;
      }
    }
    assert checks + [] == checks;
    return Done(checks);
  }

  lemma {:induction false} NothingDerived(requirements: seq<Requirement>, assets: seq<Asset>)
    ensures Derived(requirements[|requirements|..], assets) == Done([]) && requirements[0..] == requirements
    ensures Derived(requirements, assets) == After([], Derived(requirements, assets))
  {
    hide ChecksFor;
    if Derived(requirements, assets).Done? {
      var all := Derived(requirements, assets).value;
      assert [] + all == all;
    }
  }

  lemma {:induction false} NoChecks(requirement: Requirement, tool: Tool, bound: seq<Asset>)
    ensures ChecksOn(requirement, tool, bound[|bound|..]) == []
  {}

  lemma {:induction false} ChecksOnEach(requirement: Requirement, tool: Tool, bound: seq<Asset>, check: RequiredCheck)
    ensures check in ChecksOn(requirement, tool, bound) <==>
      exists asset :: asset in bound && check == CheckFor(requirement, tool, asset)
  {
    if bound != [] {
      ChecksOnEach(requirement, tool, bound[1..], check);
      assert bound == [bound[0]] + bound[1..];
    }
  }

  lemma {:induction false} AssetsOfMeaning(assets: seq<Asset>, runId: Id, asset: Asset)
    ensures asset in AssetsOf(assets, runId) <==> asset in assets && asset.runId == runId
  {
    if assets != [] {
      AssetsOfMeaning(assets[1..], runId, asset);
      assert assets == [assets[0]] + assets[1..];
    }
  }

  lemma {:induction false} WithRoleMeaning(assets: seq<Asset>, role: Role, asset: Asset)
    ensures asset in WithRole(assets, role) <==> asset in assets && asset.role == role
  {
    if assets != [] {
      WithRoleMeaning(assets[1..], role, asset);
      assert assets == [assets[0]] + assets[1..];
    }
  }

  lemma {:induction false} DerivedOf(requirements: seq<Requirement>, assets: seq<Asset>, check: RequiredCheck)
    requires Derived(requirements, assets).Done?
    ensures check in Derived(requirements, assets).value <==>
            exists i :: 0 <= i < |requirements| && ChecksFor(requirements[i], assets).Done?
              && check in ChecksFor(requirements[i], assets).value
  {
    hide ChecksFor;
    if requirements != [] {
      DerivedOf(requirements[1..], assets, check);
      assert forall i :: 0 < i < |requirements| ==> requirements[i] == requirements[1..][i - 1];
      if check in Derived(requirements[1..], assets).value {
        var rest := requirements[1..];
        var i :| 0 <= i < |rest| && ChecksFor(rest[i], assets).Done? && check in ChecksFor(rest[i], assets).value;
        assert requirements[i + 1] == rest[i];
      }
    }
  }

  // ------------------------------------------------------------ what is checked

  /** An executable requirement that applies. */
  predicate InForce(requirement: Requirement) {
    requirement.status.Executable? && requirement.applicabilityStatus.Applicable?
  }

  /** The tools that look at one asset, and those that look at the package. */
  predicate LooksAtAsset(tool: Tool) { tool.ProbeMedia? || tool.MeasureLoudness? || tool.InspectCaptions? }
  predicate LooksAtPackage(tool: Tool) { tool.ScanPackage? || tool.VerifyManifest? }

  predicate InRunOf(requirement: Requirement, asset: Asset) { asset.runId == requirement.runId }

  predicate InScopeOf(requirement: Requirement, asset: Asset) {
    asset.runId == requirement.runId && asset.role == requirement.scope.role
  }

  /** The check of a requirement on an asset, field by field: a package is named by its run, an
      asset by itself, and loudness is measured on the requirement's own stream. */
  predicate Checks(check: RequiredCheck, requirement: Requirement, asset: Asset) {
    && requirement.verification.Some? && check.tool == requirement.verification.value.tool
    && check.checkId == CheckId(requirement.requirementId, asset.assetId, check.tool)
    && check.requirementId == requirement.requirementId && check.assetId == asset.assetId
    && match check.tool
       case ScanPackage | VerifyManifest => check.toolArgs == [ToolArgument("run_id", RunValue(requirement.runId))]
       case ProbeMedia | InspectCaptions => check.toolArgs == [ToolArgument("asset_id", AssetValue(asset.assetId))]
       case MeasureLoudness =>
         && requirement.scope.stream.Some?
         && check.toolArgs == [ToolArgument("asset_id", AssetValue(asset.assetId)),
                               ToolArgument("stream", ScalarValue(Str(requirement.scope.stream.value)))]
       case _ => false
  }

  lemma CheckForChecks(requirement: Requirement, asset: Asset, check: RequiredCheck)
    requires requirement.verification.Some? && TierOf(requirement.verification.value.tool) == Some(Inspect)
    requires requirement.verification.value.tool.MeasureLoudness? ==> requirement.scope.stream.Some?
    ensures check == CheckFor(requirement, requirement.verification.value.tool, asset) <==>
      Checks(check, requirement, asset)
  {}

  function InItsRun(requirement: Requirement, assets: seq<Asset>): seq<Asset> {
    Select(assets, asset => InRunOf(requirement, asset))
  }

  function InItsScope(requirement: Requirement, assets: seq<Asset>): seq<Asset> {
    Select(assets, asset => InScopeOf(requirement, asset))
  }

  lemma {:induction false} BoundIsInScope(assets: seq<Asset>, requirement: Requirement)
    ensures AssetsOf(assets, requirement.runId) == InItsRun(requirement, assets)
    ensures WithRole(AssetsOf(assets, requirement.runId), requirement.scope.role) == InItsScope(requirement, assets)
  {
    if assets != [] {
      BoundIsInScope(assets[1..], requirement);
      var of := AssetsOf(assets, requirement.runId);
      assert InRunOf(requirement, assets[0]) ==> of[1..] == AssetsOf(assets[1..], requirement.runId);
    }
  }

  /** No earlier asset of its scope, or of its run. */
  predicate FirstInScope(requirement: Requirement, assets: seq<Asset>, k: nat) {
    k < |assets| && InScopeOf(requirement, assets[k]) && forall j :: 0 <= j < k ==> !InScopeOf(requirement, assets[j])
  }

  predicate FirstInRun(requirement: Requirement, assets: seq<Asset>, k: nat) {
    k < |assets| && InRunOf(requirement, assets[k]) && forall j :: 0 <= j < k ==> !InRunOf(requirement, assets[j])
  }

  /** The asset that stands for the package: the first of the requirement's role in its run, or
      the first of its run where none has that role. */
  predicate StandsFor(requirement: Requirement, assets: seq<Asset>, k: nat) {
    if exists j :: 0 <= j < |assets| && InScopeOf(requirement, assets[j])
    then FirstInScope(requirement, assets, k) else FirstInRun(requirement, assets, k)
  }

  lemma ScopedFirst(requirement: Requirement, assets: seq<Asset>) returns (k: nat)
    ensures InItsScope(requirement, assets) == [] <==> forall j :: 0 <= j < |assets| ==>
      !InScopeOf(requirement, assets[j])
    ensures InItsScope(requirement, assets) != [] ==>
      FirstInScope(requirement, assets, k) && InItsScope(requirement, assets)[0] == assets[k]
  {
    hide InScopeOf;
    var scoped := InItsScope(requirement, assets);
    assert forall j :: 0 <= j < |assets| && InScopeOf(requirement, assets[j]) ==> assets[j] in scoped;
    k := 0;
    if scoped != [] {
      k := FirstIndex(assets, asset => InScopeOf(requirement, asset));
      SelectAgrees(assets, asset => InScopeOf(requirement, asset), asset => InScopeOf(requirement, asset));
      assert scoped[0] in scoped;
    }
  }

  lemma RunFirst(requirement: Requirement, assets: seq<Asset>) returns (k: nat)
    requires exists j :: 0 <= j < |assets| && InRunOf(requirement, assets[j])
    ensures FirstInRun(requirement, assets, k)
    ensures InItsRun(requirement, assets) != [] && InItsRun(requirement, assets)[0] == assets[k]
  {
    hide InRunOf;
    var ofRun := InItsRun(requirement, assets);
    assert forall j :: 0 <= j < |assets| && InRunOf(requirement, assets[j]) ==> assets[j] in ofRun;
    k := FirstIndex(assets, asset => InRunOf(requirement, asset));
    SelectAgrees(assets, asset => InRunOf(requirement, asset), asset => InRunOf(requirement, asset));
  }

  /** Such a requirement has one check on the asset that stands for the package, wherever the
      run has an asset at all: absence is measured too. */
  lemma PackageIsBound(requirement: Requirement, assets: seq<Asset>) returns (k: nat)
    requires requirement.verification.Some? && LooksAtPackage(requirement.verification.value.tool)
    requires exists j :: 0 <= j < |assets| && InRunOf(requirement, assets[j])
    ensures StandsFor(requirement, assets, k)
    ensures BoundAssets(requirement, requirement.verification.value.tool, assets) == [assets[k]]
  {
    hide InItsScope, InItsRun, InRunOf, FirstInScope, FirstInRun, AssetsOf, WithRole;
    BoundIsInScope(assets, requirement);
    k := ScopedFirst(requirement, assets);
    if InItsScope(requirement, assets) == [] {
      k := RunFirst(requirement, assets);
    }
  }

  /** The derived checks that carry a requirement's identifier. */
  function ChecksOf(checks: seq<RequiredCheck>, id: RequirementId): seq<RequiredCheck> {
    Select(checks, (check: RequiredCheck) => check.requirementId == id)
  }

  lemma {:induction false} ChecksOfJoin(left: seq<RequiredCheck>, right: seq<RequiredCheck>, id: RequirementId)
    ensures ChecksOf(left + right, id) == ChecksOf(left, id) + ChecksOf(right, id)
  {
    if left == [] {
      assert left + right == right;
    } else {
      assert (left + right)[0] == left[0] && (left + right)[1..] == left[1..] + right;
      ChecksOfJoin(left[1..], right, id);
    }
  }

  lemma {:induction false} ChecksOfOwn(requirement: Requirement, tool: Tool, bound: seq<Asset>, id: RequirementId)
    ensures ChecksOf(ChecksOn(requirement, tool, bound), id) ==
            if requirement.requirementId == id then ChecksOn(requirement, tool, bound) else []
  {
    hide ArgumentsFor;
    if bound != [] {
      ChecksOfOwn(requirement, tool, bound[1..], id);
    }
  }

  lemma ChecksForOwn(requirement: Requirement, assets: seq<Asset>, id: RequirementId)
    requires ChecksFor(requirement, assets).Done?
    ensures var checks := ChecksFor(requirement, assets).value;
            ChecksOf(checks, id) == if requirement.requirementId == id then checks else []
  {
    hide ChecksOf, BoundAssets, ChecksOn;
    if IsOwed(requirement) {
      ChecksOfOwn(requirement, requirement.verification.value.tool,
        BoundAssets(requirement, requirement.verification.value.tool, assets), id);
    } else {
      NoChecksOf(id);
    }
  }

  lemma NoChecksOf(id: RequirementId)
    ensures ChecksOf([], id) == []
  {}

  /** No other requirement has its identifier. */
  predicate OwnsId(requirements: seq<Requirement>, i: nat)
    requires i < |requirements|
  {
    forall j :: 0 <= j < |requirements| && j != i ==> requirements[j].requirementId != requirements[i].requirementId
  }

  lemma {:induction false} NoneDerived(requirements: seq<Requirement>, assets: seq<Asset>, id: RequirementId)
    requires Derived(requirements, assets).Done?
    requires forall j :: 0 <= j < |requirements| ==> requirements[j].requirementId != id
    ensures ChecksOf(Derived(requirements, assets).value, id) == []
  {
    hide ChecksFor, ChecksOf;
    if requirements == [] {
      NoChecksOf(id);
    } else {
      var first, rest := ChecksFor(requirements[0], assets).value, Derived(requirements[1..], assets).value;
      NoneDerived(requirements[1..], assets, id);
      ChecksForOwn(requirements[0], assets, id);
      ChecksOfJoin(first, rest, id);
    }
  }

  /** What is derived under a requirement's own identifier is what it is owed, in order. */
  lemma {:induction false} DerivedOwn(requirements: seq<Requirement>, assets: seq<Asset>, i: nat)
    requires Derived(requirements, assets).Done? && i < |requirements| && OwnsId(requirements, i)
    ensures ChecksFor(requirements[i], assets).Done?
    ensures ChecksOf(Derived(requirements, assets).value, requirements[i].requirementId) ==
      ChecksFor(requirements[i], assets).value
  {
    hide ChecksFor, ChecksOf;
    var id, rest := requirements[i].requirementId, requirements[1..];
    var first, more := ChecksFor(requirements[0], assets).value, Derived(rest, assets).value;
    ChecksForOwn(requirements[0], assets, id);
    ChecksOfJoin(first, more, id);
    if i == 0 {
      forall j | 0 <= j < |rest| ensures rest[j].requirementId != id {
        assert rest[j] == requirements[j + 1];
      }
      NoneDerived(rest, assets, id);
      assert first + [] == first;
    } else {
      forall j | 0 <= j < |rest| && j != i - 1 ensures rest[j].requirementId != rest[i - 1].requirementId {
        assert rest[j] == requirements[j + 1];
      }
      DerivedOwn(rest, assets, i - 1);
      assert [] + ChecksFor(requirements[i], assets).value == ChecksFor(requirements[i], assets).value;
    }
  }

  function ScopePlaces(requirement: Requirement, assets: seq<Asset>): set<int> {
    set j | 0 <= j < |assets| && InScopeOf(requirement, assets[j])
  }

  lemma ScopedCount(requirement: Requirement, assets: seq<Asset>)
    ensures |InItsScope(requirement, assets)| == |ScopePlaces(requirement, assets)|
  {
    SelectCount(assets, asset => InScopeOf(requirement, asset));
    SelectAgrees(assets, asset => InScopeOf(requirement, asset), asset => InScopeOf(requirement, asset));
    assert Places(assets, (asset: Asset) => InScopeOf(requirement, asset)) == ScopePlaces(requirement, assets);
  }

  lemma {:induction false} AsManyChecks(requirement: Requirement, tool: Tool, bound: seq<Asset>)
    ensures |ChecksOn(requirement, tool, bound)| == |bound|
  {
    hide CheckFor;
    if bound != [] {
      AsManyChecks(requirement, tool, bound[1..]);
    }
  }

  /** Every applicable executable requirement whose tool looks at an asset is checked on every
      asset of its role in its run, and, under an identifier of its own, on nothing else and as
      often as there are such assets. */
  lemma {:induction false} EveryAssetIsChecked(requirements: seq<Requirement>, assets: seq<Asset>, i: nat, asset: Asset)
    requires Derived(requirements, assets).Done? && i < |requirements| && InForce(requirements[i]) && asset in assets
    requires InScopeOf(requirements[i], asset)
    ensures requirements[i].verification.Some?
    ensures LooksAtAsset(requirements[i].verification.value.tool) ==>
              && exists check :: check in Derived(requirements, assets).value && Checks(check, requirements[i], asset)
    ensures LooksAtAsset(requirements[i].verification.value.tool) && OwnsId(requirements, i) ==>
              |ChecksOf(Derived(requirements, assets).value, requirements[i].requirementId)| ==
              |ScopePlaces(requirements[i], assets)|
  {
    hide ChecksOf, Derived, ChecksOn, ScopePlaces, InItsScope, Checks, CheckFor, OwnsId;
    var r := requirements[i];
    if !ChecksFor(r, assets).Done? {
      DerivedFails(requirements, assets, i);
    }
    var tool, bound := r.verification.value.tool, BoundAssets(r, r.verification.value.tool, assets);
    var check := CheckFor(r, tool, asset);
    AssetsOfMeaning(assets, r.runId, asset);
    WithRoleMeaning(AssetsOf(assets, r.runId), r.scope.role, asset);
    ChecksOnEach(r, tool, bound, check);
    DerivedOf(requirements, assets, check);
    AsManyChecks(r, tool, bound);
    if LooksAtAsset(tool) {
      CheckForChecks(r, asset, check);
      BoundIsInScope(assets, r);
      ScopedCount(r, assets);
      if OwnsId(requirements, i) {
        DerivedOwn(requirements, assets, i);
      }
    }
  }

  /** One whose tool looks at the package is checked as soon as its run has any asset, on the
      one that stands for the package; under an identifier of its own that is its only check. */
  lemma PackageIsChecked(requirements: seq<Requirement>, assets: seq<Asset>, i: nat)
    returns (check: RequiredCheck, k: nat)
    requires Derived(requirements, assets).Done? && i < |requirements| && InForce(requirements[i])
    requires requirements[i].verification.Some? && LooksAtPackage(requirements[i].verification.value.tool)
    requires exists j :: 0 <= j < |assets| && InRunOf(requirements[i], assets[j])
    ensures StandsFor(requirements[i], assets, k) && k < |assets|
    ensures check in Derived(requirements, assets).value && Checks(check, requirements[i], assets[k])
    ensures OwnsId(requirements, i) ==>
      ChecksOf(Derived(requirements, assets).value, requirements[i].requirementId) == [check]
  {
    hide ChecksOf, Derived, Checks, CheckFor, BoundAssets, StandsFor, OwnsId;
    var r := requirements[i];
    if !ChecksFor(r, assets).Done? {
      DerivedFails(requirements, assets, i);
    }
    var tool := r.verification.value.tool;
    k := PackageIsBound(r, assets);
    StandsInside(r, assets, k);
    check := CheckFor(r, tool, assets[k]);
    assert ChecksOn(r, tool, [assets[k]]) == [check] by {
      assert [assets[k]][1..] == [];
    }
    CheckForChecks(r, assets[k], check);
    DerivedOf(requirements, assets, check);
    assert check in ChecksFor(r, assets).value;
    if OwnsId(requirements, i) {
      DerivedOwn(requirements, assets, i);
    }
  }

  lemma StandsInside(requirement: Requirement, assets: seq<Asset>, k: nat)
    requires StandsFor(requirement, assets, k)
    ensures k < |assets|
  {}

  /** The check a requirement is owed on an asset of its run, of its role where the tool looks at
      an asset. */
  predicate OwedFor(check: RequiredCheck, requirement: Requirement, asset: Asset) {
    && InForce(requirement) && Checks(check, requirement, asset)
    && if LooksAtAsset(check.tool) then InScopeOf(requirement, asset) else InRunOf(requirement, asset)
  }

  /** Nothing else is checked: each check belongs to a requirement that is owed one, on an asset
      of its run, with a Tier-0 tool. */
  lemma {:induction false} OnlyOwedIsChecked(requirements: seq<Requirement>, assets: seq<Asset>, check: RequiredCheck)
    requires Derived(requirements, assets).Done? && check in Derived(requirements, assets).value
    ensures TierOf(check.tool) == Some(Inspect)
    ensures exists i, j :: 0 <= i < |requirements| && 0 <= j < |assets| && OwedFor(check, requirements[i], assets[j])
  {
    hide Derived, ChecksFor, OwedFor;
    DerivedOf(requirements, assets, check);
    var i :| 0 <= i < |requirements| && ChecksFor(requirements[i], assets).Done?
      && check in ChecksFor(requirements[i], assets).value;
    var j := CheckIsOwed(requirements[i], assets, check);
    assert OwedFor(check, requirements[i], assets[j]);
    assert TierOf(check.tool) == Some(Inspect) by { OwedIsInspected(check, requirements[i], assets[j]); }
  }

  lemma OwedIsInspected(check: RequiredCheck, requirement: Requirement, asset: Asset)
    requires OwedFor(check, requirement, asset)
    ensures TierOf(check.tool) == Some(Inspect)
  {}

  lemma CheckIsOwed(requirement: Requirement, assets: seq<Asset>, check: RequiredCheck) returns (j: nat)
    requires ChecksFor(requirement, assets).Done? && check in ChecksFor(requirement, assets).value
    ensures j < |assets| && OwedFor(check, requirement, assets[j])
  {
    hide ChecksOn, CheckFor, Checks, AssetsOf, WithRole;
    var tool, ofRun := requirement.verification.value.tool, AssetsOf(assets, requirement.runId);
    ChecksOnEach(requirement, tool, BoundAssets(requirement, tool, assets), check);
    var asset :| asset in BoundAssets(requirement, tool, assets) && check == CheckFor(requirement, tool, asset);
    WithRoleMeaning(ofRun, requirement.scope.role, asset);
    AssetsOfMeaning(assets, requirement.runId, asset);
    j :| 0 <= j < |assets| && assets[j] == asset;
    CheckForChecks(requirement, asset, check);
    ChecksTool(check, requirement, asset);
  }

  lemma ChecksTool(check: RequiredCheck, requirement: Requirement, asset: Asset)
    requires Checks(check, requirement, asset)
    ensures requirement.verification.Some? && check.tool == requirement.verification.value.tool
    ensures check.checkId == CheckId(requirement.requirementId, asset.assetId, check.tool)
    ensures check.requirementId == requirement.requirementId && check.assetId == asset.assetId
  {}

  /** A requirement no check can be derived for: it has no tool of inspection, or its loudness is
      to be measured on a stream it does not name. */
  predicate Unplannable(requirement: Requirement, assets: seq<Asset>) {
    && InForce(requirement)
    && (requirement.verification.None?
        || (!LooksAtAsset(requirement.verification.value.tool) && !LooksAtPackage(requirement.verification.value.tool))
        || (requirement.verification.value.tool.MeasureLoudness? && requirement.scope.stream.None?
            && exists j :: 0 <= j < |assets| && InScopeOf(requirement, assets[j])))
  }

  /** When planning is refused. */
  lemma {:induction false} RefusedIff(requirements: seq<Requirement>, assets: seq<Asset>)
    ensures Derived(requirements, assets).Done? || Derived(requirements, assets) == Raised(InvalidValue)
    ensures !Derived(requirements, assets).Done? <==>
      exists i :: 0 <= i < |requirements| && Unplannable(requirements[i], assets)
  {
    hide ChecksFor, Unplannable;
    if requirements != [] {
      RefusedIff(requirements[1..], assets);
      ChecksRefusedIff(requirements[0], assets);
      assert forall i :: 0 < i < |requirements| ==> requirements[i] == requirements[1..][i - 1];
      assert forall i :: 0 <= i < |requirements[1..]| ==> requirements[1..][i] == requirements[i + 1];
    }
  }

  lemma ChecksRefusedIff(requirement: Requirement, assets: seq<Asset>)
    ensures ChecksFor(requirement, assets).Done? || ChecksFor(requirement, assets) == Raised(InvalidValue)
    ensures !ChecksFor(requirement, assets).Done? <==> Unplannable(requirement, assets)
  {
    hide ChecksOn, InItsScope, InItsRun, InScopeOf, AssetsOf, WithRole;
    BoundIsInScope(assets, requirement);
    var k := ScopedFirst(requirement, assets);
  }

  /** Planning never refuses what admission let through. */
  lemma {:induction false} SoundIsPlanned(requirements: seq<Requirement>, assets: seq<Asset>)
    requires forall i :: 0 <= i < |requirements| ==> Sound(requirements[i])
    ensures Derived(requirements, assets).Done?
  {
    hide WellTyped;
    if requirements != [] {
      SoundIsPlanned(requirements[1..], assets);
      assert Sound(requirements[0]);
    }
  }
}
