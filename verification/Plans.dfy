/** Plans proposed by the semantic model: their validation, the bounded retry and the
    deterministic fallback. */
module Plans {
  import opened Domain
  import opened Sequences
  import opened Constraints
  import opened Records
  import opened Admission
  import opened Planning

  // ------------------------------------------------------------ proposals and plans

  /** A string in a proposal's order: the identifier of a check, of an extra, or neither. */
  datatype ItemName = CheckName(checkId: CheckId) | ExtraName(name: string) | OtherName(text: string)

  datatype ExtraCheck = ExtraCheck(
    itemId: string, tool: Tool, assetId: AssetId, toolArgs: seq<ToolArgument>, rationale: string,
      motivatedBy: RequirementId)

  datatype PlanProposal = PlanProposal(orderedItems: seq<ItemName>, extras: seq<ExtraCheck>, groups: seq<seq<CheckId>>)

  datatype PlanItemId = ForCheck(runId: Id, cycle: nat, checkId: CheckId) | Given(name: string)

  datatype QCPlanItem = QCPlanItem(
    itemId: PlanItemId, checkId: Option<CheckId>, requirementId: Option<RequirementId>, assetId: AssetId, tool: Tool,
    toolArgs: seq<ToolArgument>, order: nat, rationale: Option<string>)

  datatype PlanSource = Proposal | Fallback
  datatype QCPlan = QCPlan(runId: Id, cycle: nat, items: seq<QCPlanItem>, source: PlanSource)

  function Ids(checks: seq<RequiredCheck>): (r: seq<CheckId>)
    ensures |r| == |checks| && forall i :: 0 <= i < |checks| ==> r[i] == checks[i].checkId
  {
    seq(|checks|, i requires 0 <= i < |checks| => checks[i].checkId)
  }

  function ExtraIds(extras: seq<ExtraCheck>): (r: seq<string>)
    ensures |r| == |extras| && forall i :: 0 <= i < |extras| ==> r[i] == extras[i].itemId
  {
    seq(|extras|, i requires 0 <= i < |extras| => extras[i].itemId)
  }

  function CheckNames(ids: seq<CheckId>): (r: seq<ItemName>)
    ensures |r| == |ids| && forall i :: 0 <= i < |ids| ==> r[i] == CheckName(ids[i])
  {
    seq(|ids|, i requires 0 <= i < |ids| => CheckName(ids[i]))
  }

  function ExtraNames(ids: seq<string>): (r: seq<ItemName>)
    ensures |r| == |ids| && forall i :: 0 <= i < |ids| ==> r[i] == ExtraName(ids[i])
  {
    seq(|ids|, i requires 0 <= i < |ids| => ExtraName(ids[i]))
  }

  function ExpectedNames(required: seq<RequiredCheck>, extras: seq<ExtraCheck>): seq<ItemName> {
    CheckNames(Ids(required)) + ExtraNames(ExtraIds(extras))
  }

  // ------------------------------------------------------------ building

  /** The dictionaries keep the last of an identifier. */
  function CheckOf(required: seq<RequiredCheck>, id: CheckId): (r: Option<RequiredCheck>)
    ensures r.Some? ==> r.value in required && r.value.checkId == id
    ensures r.None? ==> forall check :: check in required ==> check.checkId != id
  {
    if required == [] then None
    else if required[|required| - 1].checkId == id then Some(required[|required| - 1])
    else
      assert required == required[..|required| - 1] + [required[|required| - 1]];
      CheckOf(required[..|required| - 1], id)
  }

  function ExtraOf(extras: seq<ExtraCheck>, name: string): (r: Option<ExtraCheck>)
    ensures r.Some? ==> r.value in extras && r.value.itemId == name
    ensures r.None? ==> forall extra :: extra in extras ==> extra.itemId != name
  {
    if extras == [] then None
    else if extras[|extras| - 1].itemId == name then Some(extras[|extras| - 1])
    else assert extras == extras[..|extras| - 1] + [extras[|extras| - 1]]; ExtraOf(extras[..|extras| - 1], name)
  }

  function ItemOfCheck(runId: Id, cycle: nat, check: RequiredCheck, order: nat): QCPlanItem {
    QCPlanItem(ForCheck(runId, cycle, check.checkId), Some(check.checkId), Some(check.requirementId), check.assetId,
      check.tool,
               check.toolArgs, order, None)
  }

  function ItemOfExtra(extra: ExtraCheck, order: nat): QCPlanItem {
    QCPlanItem(Given(extra.itemId), None, None, extra.assetId, extra.tool, extra.toolArgs, order, Some(extra.rationale))
  }

  /** The item stands for what the name names, at its place in the order. */
  predicate Stands(item: QCPlanItem, name: ItemName, order: nat, runId: Id, cycle: nat, required: seq<RequiredCheck>,
                   extras: seq<ExtraCheck>)
  {
    match name
    case CheckName(id) => CheckOf(required, id).Some?
      && item == ItemOfCheck(runId, cycle, CheckOf(required, id).value, order)
    case ExtraName(given) => ExtraOf(extras, given).Some? && item == ItemOfExtra(ExtraOf(extras, given).value, order)
    case OtherName(_) => false
  }

  predicate Named(name: ItemName, required: seq<RequiredCheck>, extras: seq<ExtraCheck>) {
    match name
    case CheckName(id) => CheckOf(required, id).Some?
    case ExtraName(given) => ExtraOf(extras, given).Some?
    case OtherName(_) => false
  }

  predicate Built(plan: QCPlan, runId: Id, cycle: nat, proposal: PlanProposal, required: seq<RequiredCheck>,
                  source: PlanSource)
  {
    && plan.runId == runId && plan.cycle == cycle && plan.source == source && |plan.items| == |proposal.orderedItems|
    && forall i :: 0 <= i < |plan.items| ==>
      Stands(plan.items[i], proposal.orderedItems[i], i, runId, cycle, required, proposal.extras)
  }

  /** `_build_plan`; an unknown name is the `KeyError`. */
  method BuildPlan(runId: Id, cycle: nat, proposal: PlanProposal, required: seq<RequiredCheck>, source: PlanSource)
    returns (r: Outcome<QCPlan>)
    ensures r.Done? <==> forall i :: 0 <= i < |proposal.orderedItems| ==>
      Named(proposal.orderedItems[i], required, proposal.extras)
    ensures r.Done? ==> Built(r.value, runId, cycle, proposal, required, source)
    ensures !r.Done? ==> r == Raised(MissingKey)
  {
    var items: seq<QCPlanItem> := [];
    for order := 0 to |proposal.orderedItems|
      invariant |items| == order
      invariant forall i :: 0 <= i < order ==>
                  && Named(proposal.orderedItems[i], required, proposal.extras)
                  && Stands(items[i], proposal.orderedItems[i], i, runId, cycle, required, proposal.extras)
    {
      var name := proposal.orderedItems[order];
      if name.CheckName? && CheckOf(required, name.checkId).Some? {
        items := items + [ItemOfCheck(runId, cycle, CheckOf(required, name.checkId).value, order)];
      } else if name.ExtraName? && ExtraOf(proposal.extras, name.name).Some? {
        items := items + [ItemOfExtra(ExtraOf(proposal.extras, name.name).value, order)];
      } else {
        return Raised(MissingKey);
      }
    }
    return Done(QCPlan(runId, cycle, items, source));
  }

  // ------------------------------------------------------------ coverage

  function NamedChecks(names: seq<ItemName>): seq<CheckId> {
    if names == [] then [] else (if names[0].CheckName? then [names[0].checkId] else []) + NamedChecks(names[1..])
  }

  function PlannedChecks(items: seq<QCPlanItem>): seq<CheckId> {
    if items == [] then []
    else (if items[0].checkId.Some? then [items[0].checkId.value] else []) + PlannedChecks(items[1..])
  }

  predicate Serves(item: QCPlanItem, check: RequiredCheck) {
    && item.checkId == Some(check.checkId) && item.requirementId == Some(check.requirementId)
    && item.assetId == check.assetId && item.tool == check.tool && item.toolArgs == check.toolArgs
  }

  /** The plan's check ids are the required ones, in some order, and each of its checks is one
      of those required, with its own tool, asset and arguments; orders count from zero. */
  predicate Covers(plan: QCPlan, required: seq<RequiredCheck>) {
    && multiset(PlannedChecks(plan.items)) == multiset(Ids(required))
    && (forall i :: 0 <= i < |plan.items| ==> plan.items[i].order == i)
    && forall i :: 0 <= i < |plan.items| && plan.items[i].checkId.Some? ==>
         exists check :: check in required && Serves(plan.items[i], check)
  }

  lemma {:induction false} NamedChecksCount(names: seq<ItemName>, id: CheckId)
    ensures multiset(NamedChecks(names))[id] == multiset(names)[CheckName(id)]
  {
    if names != [] {
      NamedChecksCount(names[1..], id);
      assert names == [names[0]] + names[1..];
    }
  }

  lemma CountCons<T>(first: T, rest: seq<T>, x: T)
    ensures multiset([first] + rest)[x] == multiset(rest)[x] + if first == x then 1 else 0
  {}

  lemma CheckNamesCons(first: CheckId, rest: seq<CheckId>)
    ensures CheckNames([first] + rest) == [CheckName(first)] + CheckNames(rest)
  {}

  lemma {:induction false} CheckNamesCount(ids: seq<CheckId>, id: CheckId)
    ensures multiset(CheckNames(ids))[CheckName(id)] == multiset(ids)[id]
  {
    if ids != [] {
      var rest := ids[1..];
      CheckNamesCount(rest, id);
      CheckNamesCons(ids[0], rest);
      CountCons(ids[0], rest, id);
      CountCons(CheckName(ids[0]), CheckNames(rest), CheckName(id));
      assert ids == [ids[0]] + rest;
    }
  }

  lemma NoCheckAmongExtras(ids: seq<string>, id: CheckId)
    ensures multiset(ExtraNames(ids))[CheckName(id)] == 0
  {
    assert CheckName(id) !in ExtraNames(ids);
  }

  /** Whatever the order, the checks named are those expected. */
  lemma {:induction false} NamedAreRequired(names: seq<ItemName>, required: seq<RequiredCheck>, extras: seq<ExtraCheck>)
    requires multiset(names) == multiset(ExpectedNames(required, extras))
    ensures multiset(NamedChecks(names)) == multiset(Ids(required))
  {
    forall id ensures multiset(NamedChecks(names))[id] == multiset(Ids(required))[id] {
      NamedChecksCount(names, id);
      CheckNamesCount(Ids(required), id);
      NoCheckAmongExtras(ExtraIds(extras), id);
    }
  }

  lemma {:induction false} PlannedAreNamed(items: seq<QCPlanItem>, names: seq<ItemName>)
    requires |items| == |names|
    requires forall i :: 0 <= i < |items| ==>
      items[i].checkId == if names[i].CheckName? then Some(names[i].checkId) else None
    ensures PlannedChecks(items) == NamedChecks(names)
  {
    if items != [] {
      PlannedAreNamed(items[1..], names[1..]);
    }
  }

  /** A plan built from a complete order covers the required checks. */
  lemma BuiltCovers(plan: QCPlan, runId: Id, cycle: nat, proposal: PlanProposal, required: seq<RequiredCheck>,
                    source: PlanSource)
    requires Built(plan, runId, cycle, proposal, required, source)
    requires multiset(proposal.orderedItems) == multiset(ExpectedNames(required, proposal.extras))
    ensures Covers(plan, required)
  {
    NamedAreRequired(proposal.orderedItems, required, proposal.extras);
    PlannedAreNamed(plan.items, proposal.orderedItems);
    forall i | 0 <= i < |plan.items| && plan.items[i].checkId.Some?
      ensures exists check :: check in required && Serves(plan.items[i], check)
    {
      var check := CheckOf(required, proposal.orderedItems[i].checkId).value;
      assert check in required && Serves(plan.items[i], check);
    }
  }

  /** Checks that share an identifier are the same check. */
  predicate Coherent(required: seq<RequiredCheck>) {
    forall i, j :: 0 <= i < |required| && 0 <= j < |required| && required[i].checkId == required[j].checkId ==>
      required[i] == required[j]
  }

  predicate ServesAll(plan: QCPlan, required: seq<RequiredCheck>) {
    forall check :: check in required ==> exists i :: 0 <= i < |plan.items| && Serves(plan.items[i], check)
  }

  lemma {:induction false} PlannedIsItem(items: seq<QCPlanItem>, id: CheckId)
    ensures id in PlannedChecks(items) <==> exists i :: 0 <= i < |items| && items[i].checkId == Some(id)
  {
    if items != [] {
      PlannedIsItem(items[1..], id);
      assert forall i :: 0 < i < |items| ==> items[i] == items[1..][i - 1];
      assert forall i :: 0 <= i < |items[1..]| ==> items[1..][i] == items[i + 1];
    }
  }

  /** A built plan performs every required check with its own arguments exactly when no two
      different checks share an identifier. */
  lemma ServesAllIff(plan: QCPlan, runId: Id, cycle: nat, proposal: PlanProposal, required: seq<RequiredCheck>,
                     source: PlanSource)
    requires Built(plan, runId, cycle, proposal, required, source) && Covers(plan, required)
    ensures ServesAll(plan, required) <==> Coherent(required)
  {
    hide Covers;
    if ServesAll(plan, required) {
      forall i, j | 0 <= i < |required| && 0 <= j < |required| && required[i].checkId == required[j].checkId
        ensures required[i] == required[j]
      {
        SameItem(plan, runId, cycle, proposal, required, source, required[i]);
        SameItem(plan, runId, cycle, proposal, required, source, required[j]);
      }
    } else {
      var check :| check in required && forall i :: 0 <= i < |plan.items| ==> !Serves(plan.items[i], check);
      var j :| 0 <= j < |required| && required[j] == check;
      CoversEach(plan, required, j);
      PlannedIsItem(plan.items, check.checkId);
      var k :| 0 <= k < |plan.items| && plan.items[k].checkId == Some(check.checkId);
      assert Stands(plan.items[k], proposal.orderedItems[k], k, runId, cycle, required, proposal.extras);
      var i :| 0 <= i < |required| && required[i] == CheckOf(required, check.checkId).value;
      assert required[i].checkId == required[j].checkId && !Serves(plan.items[k], check);
    }
  }

  lemma CoversEach(plan: QCPlan, required: seq<RequiredCheck>, j: nat)
    requires Covers(plan, required) && j < |required|
    ensures required[j].checkId in PlannedChecks(plan.items)
  {
    assert Ids(required)[j] in multiset(Ids(required));
  }

  /** A check that is served is the last of its identifier, as far as the plan goes. */
  lemma {:induction false} SameItem(plan: QCPlan, runId: Id, cycle: nat, proposal: PlanProposal,
                                    required: seq<RequiredCheck>, source: PlanSource, check: RequiredCheck)
    requires Built(plan, runId, cycle, proposal, required, source) && ServesAll(plan, required) && check in required
    ensures CheckOf(required, check.checkId).Some?
    ensures Serves(ItemOfCheck(runId, cycle, CheckOf(required, check.checkId).value, 0), check)
  {
    var i :| 0 <= i < |plan.items| && Serves(plan.items[i], check);
    assert Stands(plan.items[i], proposal.orderedItems[i], i, runId, cycle, required, proposal.extras);
  }

  // ------------------------------------------------------------ validation

  predicate IsIdentity(argument: ToolArgument) { argument.name == "asset_id" || argument.name == "run_id" }

  function Explicit(arguments: seq<ToolArgument>): seq<ToolArgument> {
    if arguments == [] then []
    else (if IsIdentity(arguments[0]) then [] else [arguments[0]]) + Explicit(arguments[1..])
  }

  /** What is left are the arguments that name neither the asset nor the run. */
  lemma {:induction false} ExplicitIs(arguments: seq<ToolArgument>)
    ensures Explicit(arguments) ==
      Select(arguments, (argument: ToolArgument) => argument.name != "asset_id" && argument.name != "run_id")
  {
    if arguments != [] {
      ExplicitIs(arguments[1..]);
    }
  }

  datatype Fingerprint = Fingerprint(tool: Tool, assetId: AssetId, arguments: seq<ToolArgument>)

  function PrintOfCheck(check: RequiredCheck)
      : Fingerprint { Fingerprint(check.tool, check.assetId, Explicit(check.toolArgs)) }
  function PrintOfExtra(extra: ExtraCheck)
      : Fingerprint { Fingerprint(extra.tool, extra.assetId, Explicit(extra.toolArgs)) }

  function ArgumentNames(arguments: seq<ToolArgument>): (r: seq<string>)
    ensures |r| == |arguments| && forall i :: 0 <= i < |r| ==> r[i] == arguments[i].name
  {
    seq(|arguments|, i requires 0 <= i < |arguments| => arguments[i].name)
  }

  type Payload = map<string, ArgumentValue>

  function PayloadOf(arguments: seq<ToolArgument>): Payload {
    if arguments == [] then map[]
      else PayloadOf(arguments[..|arguments| - 1])[arguments[|arguments| - 1].name := arguments[|arguments| - 1].value]
  }

  /** `_validate_tool_arguments`; `accepts` is the input model's own validation. */
  predicate ArgumentsFit(runId: Id, extra: ExtraCheck, accepts: (Tool, Payload) -> bool) {
    var payload := PayloadOf(extra.toolArgs);
    && Distinct(ArgumentNames(extra.toolArgs))
    && (TakesRun(extra.tool) && "run_id" in payload ==> payload["run_id"] == RunValue(runId))
    && (TakesAsset(extra.tool) && "asset_id" in payload ==> payload["asset_id"] == AssetValue(extra.assetId))
    && accepts(extra.tool, if TakesRun(extra.tool) then payload["run_id" := RunValue(runId)]
                           else payload["asset_id" := AssetValue(extra.assetId)])
  }

  predicate OnRun(runId: Id, assetId: AssetId, assets: seq<Asset>) {
    exists i :: 0 <= i < |assets| && assets[i].runId == runId && assets[i].assetId == assetId
  }

  /** One extra on its own: a Tier-0 tool on an asset of the run, motivated by a requirement
      that is checked anyway, with typed arguments. */
  predicate ExtraFits(runId: Id, extra: ExtraCheck, required: seq<RequiredCheck>, assets: seq<Asset>,
                      accepts: (Tool, Payload) -> bool)
  {
    && TierOf(extra.tool) == Some(Inspect)
    && OnRun(runId, extra.assetId, assets)
    && (exists i :: 0 <= i < |required| && required[i].requirementId == extra.motivatedBy)
    && ArgumentsFit(runId, extra, accepts)
  }

  lemma {:induction false} PayloadIs(arguments: seq<ToolArgument>, k: nat)
    requires k < |arguments| && forall j :: k < j < |arguments| ==> arguments[j].name != arguments[k].name
    ensures arguments[k].name in PayloadOf(arguments) && PayloadOf(arguments)[arguments[k].name] == arguments[k].value
  {
    if k < |arguments| - 1 {
      PayloadIs(arguments[..|arguments| - 1], k);
    }
  }

  lemma {:induction false} PayloadNames(arguments: seq<ToolArgument>, name: string)
    ensures name in PayloadOf(arguments) <==> exists k :: 0 <= k < |arguments| && arguments[k].name == name
  {
    if arguments != [] {
      var last := |arguments| - 1;
      PayloadNames(arguments[..last], name);
      assert forall k :: 0 <= k < last ==> arguments[..last][k] == arguments[k];
    }
  }

  /** An argument that names the run or the asset names the extra's own. */
  predicate OwnIdentity(runId: Id, extra: ExtraCheck, argument: ToolArgument) {
    && (LooksAtPackage(extra.tool) && argument.name == "run_id" ==> argument.value == RunValue(runId))
    && (LooksAtAsset(extra.tool) && argument.name == "asset_id" ==> argument.value == AssetValue(extra.assetId))
  }

  /** Exactly which extras fit: an inspection of an asset of the run, for a requirement that is
      checked, with arguments of different names that name no other run or asset, and that the
      tool accepts once its own are filled in. */
  lemma ExtraFitsIff(runId: Id, extra: ExtraCheck, required: seq<RequiredCheck>, assets: seq<Asset>,
                     accepts: (Tool, Payload) -> bool)
    ensures ExtraFits(runId, extra, required, assets, accepts) <==>
              && (LooksAtAsset(extra.tool) || LooksAtPackage(extra.tool))
              && (exists asset :: asset in assets && asset.runId == runId && asset.assetId == extra.assetId)
              && (exists check :: check in required && check.requirementId == extra.motivatedBy)
              && (forall i, j :: 0 <= i < j < |extra.toolArgs| ==> extra.toolArgs[i].name != extra.toolArgs[j].name)
              && (forall k :: 0 <= k < |extra.toolArgs| ==> OwnIdentity(runId, extra, extra.toolArgs[k]))
              && accepts(extra.tool,
                   if LooksAtPackage(extra.tool) then PayloadOf(extra.toolArgs)["run_id" := RunValue(runId)]
                   else PayloadOf(extra.toolArgs)["asset_id" := AssetValue(extra.assetId)])
  {
    hide PayloadOf;
    var arguments := extra.toolArgs;
    assert Distinct(ArgumentNames(arguments)) <==>
      forall i, j :: 0 <= i < j < |arguments| ==> arguments[i].name != arguments[j].name;
    PayloadNames(arguments, "run_id");
    PayloadNames(arguments, "asset_id");
    if Distinct(ArgumentNames(arguments)) {
      forall k | 0 <= k < |arguments|
        ensures arguments[k].name in PayloadOf(arguments)
          && PayloadOf(arguments)[arguments[k].name] == arguments[k].value
      {
        PayloadIs(arguments, k);
      }
    }
    forall i | 0 <= i < |assets| ensures assets[i] in assets {}
    forall i | 0 <= i < |required| ensures required[i] in required {}
  }

  /** No extra repeats a required operation or another extra. */
  predicate NoneRepeats(extras: seq<ExtraCheck>, required: seq<RequiredCheck>) {
    && (forall i, j :: 0 <= i < |extras| && 0 <= j < |required| ==>
      PrintOfExtra(extras[i]) != PrintOfCheck(required[j]))
    && (forall i, j :: 0 <= i < j < |extras| ==> PrintOfExtra(extras[i]) != PrintOfExtra(extras[j]))
  }

  function Grouped(groups: seq<seq<CheckId>>): seq<CheckId> {
    if groups == [] then [] else groups[0] + Grouped(groups[1..])
  }

  function RunAssetIds(assets: seq<Asset>): (r: seq<AssetId>)
    ensures |r| == |assets| && forall i :: 0 <= i < |r| ==> r[i] == assets[i].assetId
  {
    seq(|assets|, i requires 0 <= i < |assets| => assets[i].assetId)
  }

  /** The proposals that may become plans. */
  predicate Admissible(runId: Id, proposal: PlanProposal, required: seq<RequiredCheck>, assets: seq<Asset>,
                       accepts: (Tool, Payload) -> bool)
  {
    && Distinct(Ids(required)) && Distinct(ExtraIds(proposal.extras))
    && multiset(proposal.orderedItems) == multiset(ExpectedNames(required, proposal.extras))
    && |proposal.extras| <= |required|
    && Distinct(Grouped(proposal.groups)) && Elements(Grouped(proposal.groups)) <= Elements(Ids(required))
    && Distinct(RunAssetIds(AssetsOf(assets, runId)))
    && (forall i :: 0 <= i < |proposal.extras| ==> ExtraFits(runId, proposal.extras[i], required, assets, accepts))
    && NoneRepeats(proposal.extras, required)
  }

  lemma ExpectedAreNamed(proposal: PlanProposal, required: seq<RequiredCheck>)
    requires multiset(proposal.orderedItems) == multiset(ExpectedNames(required, proposal.extras))
    ensures forall i :: 0 <= i < |proposal.orderedItems| ==> Named(proposal.orderedItems[i], required, proposal.extras)
  {
    var expected := ExpectedNames(required, proposal.extras);
    forall i | 0 <= i < |proposal.orderedItems| ensures Named(proposal.orderedItems[i], required, proposal.extras) {
      var name := proposal.orderedItems[i];
      assert name in multiset(proposal.orderedItems) && name in multiset(expected);
      var j :| 0 <= j < |expected| && expected[j] == name;
      if j < |required| {
        assert required[j] in required;
      } else {
        assert proposal.extras[j - |required|] in proposal.extras;
      }
    }
  }

  predicate IsExtra(item: QCPlanItem) { item.checkId.None? }

  function PrintOfItem(item: QCPlanItem): Fingerprint { Fingerprint(item.tool, item.assetId, Explicit(item.toolArgs)) }

  /** What a plan adds to the required checks: Tier-0 inspections on assets of the run, no more
      of them than there are required checks, each a new operation. */
  predicate SafeExtras(plan: QCPlan, runId: Id, required: seq<RequiredCheck>, assets: seq<Asset>) {
    && |plan.items| <= |required| + |required|
    && (forall i :: 0 <= i < |plan.items| && IsExtra(plan.items[i]) ==>
          && TierOf(plan.items[i].tool) == Some(Inspect) && OnRun(runId, plan.items[i].assetId, assets)
          && forall k :: 0 <= k < |required| ==> PrintOfItem(plan.items[i]) != PrintOfCheck(required[k]))
    && (forall i, j :: 0 <= i < j < |plan.items| && IsExtra(plan.items[i]) && IsExtra(plan.items[j]) ==>
          PrintOfItem(plan.items[i]) != PrintOfItem(plan.items[j]))
  }

  lemma SameElements<T>(xs: seq<T>, ys: seq<T>)
    requires multiset(xs) == multiset(ys)
    ensures |xs| == |ys| && (Distinct(xs) <==> Distinct(ys))
  {
    assert |multiset(xs)| == |xs| && |multiset(ys)| == |ys|;
    forall x ensures x in xs <==> x in ys {
      assert x in multiset(xs) <==> x in multiset(ys);
    }
    assert Elements(xs) == Elements(ys);
    DistinctIsCounting(xs);
    DistinctIsCounting(ys);
  }

  lemma OrderIsDistinct(proposal: PlanProposal, required: seq<RequiredCheck>)
    requires Distinct(Ids(required)) && Distinct(ExtraIds(proposal.extras))
    requires multiset(proposal.orderedItems) == multiset(ExpectedNames(required, proposal.extras))
    ensures Distinct(proposal.orderedItems) && |proposal.orderedItems| == |required| + |proposal.extras|
  {
    SameElements(proposal.orderedItems, ExpectedNames(required, proposal.extras));
  }

  /** The extra an item stands for. */
  lemma ItemExtra(plan: QCPlan, runId: Id, cycle: nat, proposal: PlanProposal, required: seq<RequiredCheck>,
                  source: PlanSource, i: nat)
    returns (k: nat)
    requires Built(plan, runId, cycle, proposal, required, source) && i < |plan.items| && IsExtra(plan.items[i])
    ensures k < |proposal.extras| && proposal.orderedItems[i] == ExtraName(proposal.extras[k].itemId)
    ensures plan.items[i] == ItemOfExtra(proposal.extras[k], i)
  {
    assert Stands(plan.items[i], proposal.orderedItems[i], i, runId, cycle, required, proposal.extras);
    var extra := ExtraOf(proposal.extras, proposal.orderedItems[i].name).value;
    k :| 0 <= k < |proposal.extras| && proposal.extras[k] == extra;
  }

  lemma AdmissibleIsSafe(plan: QCPlan, runId: Id, cycle: nat, proposal: PlanProposal, required: seq<RequiredCheck>,
                         assets: seq<Asset>, accepts: (Tool, Payload) -> bool)
    requires Built(plan, runId, cycle, proposal, required, Proposal)
      && Admissible(runId, proposal, required, assets, accepts)
    ensures SafeExtras(plan, runId, required, assets)
  {
    hide ArgumentsFit, OnRun, PrintOfCheck, Explicit;
    OrderIsDistinct(proposal, required);
    forall i | 0 <= i < |plan.items| && IsExtra(plan.items[i])
      ensures TierOf(plan.items[i].tool) == Some(Inspect) && OnRun(runId, plan.items[i].assetId, assets)
      ensures forall k :: 0 <= k < |required| ==> PrintOfItem(plan.items[i]) != PrintOfCheck(required[k])
    {
      var e := ItemExtra(plan, runId, cycle, proposal, required, Proposal, i);
      assert ExtraFits(runId, proposal.extras[e], required, assets, accepts);
      assert PrintOfItem(plan.items[i]) == PrintOfExtra(proposal.extras[e]);
    }
    forall i, j | 0 <= i < j < |plan.items| && IsExtra(plan.items[i]) && IsExtra(plan.items[j])
      ensures PrintOfItem(plan.items[i]) != PrintOfItem(plan.items[j])
    {
      var d := ItemExtra(plan, runId, cycle, proposal, required, Proposal, i);
      var e := ItemExtra(plan, runId, cycle, proposal, required, Proposal, j);
      assert d != e;
      assert PrintOfExtra(proposal.extras[d]) != PrintOfExtra(proposal.extras[e]);
    }
  }

  /** `validate_plan`: a plan exactly for an admissible proposal, and then one that covers the
      required checks. */
  method ValidatePlan(runId: Id, cycle: nat, proposal: PlanProposal, required: seq<RequiredCheck>, assets: seq<Asset>,
                      accepts: (Tool, Payload) -> bool)
    returns (r: Outcome<QCPlan>)
    ensures r.Done? <==> Admissible(runId, proposal, required, assets, accepts)
    ensures r.Done? ==>
              && Built(r.value, runId, cycle, proposal, required, Proposal)
              && Covers(r.value, required) && SafeExtras(r.value, runId, required, assets)
    ensures !r.Done? ==> r == Raised(InvalidValue)
  {
    hide ExtraFits, Covers, Built, Named, SafeExtras;
    var ids, extraIds := Ids(required), ExtraIds(proposal.extras);
    DistinctIsCounting(ids);
    DistinctIsCounting(extraIds);
    if |Elements(ids)| + |Elements(extraIds)| != |required| + |proposal.extras| {
      return Raised(InvalidValue);
    }
    if multiset(proposal.orderedItems) != multiset(ExpectedNames(required,
      proposal.extras)) || |proposal.extras| > |required| {
      return Raised(InvalidValue);
    }
    var grouped := Grouped(proposal.groups);
    DistinctIsCounting(grouped);
    if |grouped| != |Elements(grouped)| || !(Elements(grouped) <= Elements(ids)) {
      return Raised(InvalidValue);
    }
    var runAssets := RunAssetIds(AssetsOf(assets, runId));
    DistinctIsCounting(runAssets);
    if |Elements(runAssets)| != |runAssets| {
      return Raised(InvalidValue);
    }
    var fits := FitExtras(runId, proposal.extras, required, assets, accepts);
    if !fits {
      return Raised(InvalidValue);
    }
    ExpectedAreNamed(proposal, required);
    r := BuildPlan(runId, cycle, proposal, required, Proposal);
    BuiltCovers(r.value, runId, cycle, proposal, required, Proposal);
    AdmissibleIsSafe(r.value, runId, cycle, proposal, required, assets, accepts);
  }

  /** The loop over the extras, with its growing set of fingerprints. */
  method FitExtras(runId: Id, extras: seq<ExtraCheck>, required: seq<RequiredCheck>, assets: seq<Asset>,
                   accepts: (Tool, Payload) -> bool)
    returns (fits: bool)
    ensures fits <==> NoneRepeats(extras, required) && forall i :: 0 <= i < |extras| ==>
      ExtraFits(runId, extras[i], required, assets, accepts)
  {
    hide ExtraFits, PrintOfCheck, PrintOfExtra;
    var fingerprints := set check | check in required :: PrintOfCheck(check);
    for i := 0 to |extras|
      invariant forall k :: 0 <= k < i ==> ExtraFits(runId, extras[k], required, assets, accepts)
      invariant NoneRepeats(extras[..i], required)
      invariant forall p :: p in fingerprints <==>
                  || (exists k :: 0 <= k < |required| && PrintOfCheck(required[k]) == p)
                  || (exists k :: 0 <= k < i && PrintOfExtra(extras[k]) == p)
    {
      if !ExtraFits(runId, extras[i], required, assets, accepts) {
        return false;
      }
      if PrintOfExtra(extras[i]) in fingerprints {
        return false;
      }
      fingerprints := fingerprints + {PrintOfExtra(extras[i])};
    }
    assert extras[..|extras|] == extras;
    return true;
  }

  // ------------------------------------------------------------ fallback

  /** The order of the tool registry. */
  function ToolOrder(tool: Tool): nat {
    match tool
    case ScanPackage => 0
    case ProbeMedia => 1
    case MeasureLoudness => 2
    case InspectCaptions => 3
    case VerifyManifest => 4
    case RenameDeliveryCopy => 5
    case WriteChecksumManifest => 6
    case ConvertCaptionFormat => 7
    case CreateNormalizedAudioDerivative => 8
    case UnknownTool(_) => 9
  }

  /** The tool registry. */
  const REGISTRY := [ScanPackage, ProbeMedia, MeasureLoudness, InspectCaptions, VerifyManifest, RenameDeliveryCopy,
    WriteChecksumManifest, ConvertCaptionFormat, CreateNormalizedAudioDerivative]

  lemma ToolOrderIs(tool: Tool)
    ensures if tool.UnknownTool? then ToolOrder(tool) == |REGISTRY|
      else ToolOrder(tool) < |REGISTRY| && REGISTRY[ToolOrder(tool)] == tool
  {}

  /** How identifiers are spelled, for the tie-breaks of the sort. */
  datatype Spelling = Spelling(asset: AssetId -> string, check: CheckId -> string)

  predicate SortsBefore(spell: Spelling, a: RequiredCheck, b: RequiredCheck) {
    || ToolOrder(a.tool) < ToolOrder(b.tool)
    || (ToolOrder(a.tool) == ToolOrder(b.tool) &&
        (|| StringLess(spell.asset(a.assetId), spell.asset(b.assetId))
         || (spell.asset(a.assetId) == spell.asset(b.assetId)
           && StringLess(spell.check(a.checkId), spell.check(b.checkId)))))
  }

  function InsertCheck(spell: Spelling, check: RequiredCheck, sorted: seq<RequiredCheck>): seq<RequiredCheck> {
    if sorted != [] && SortsBefore(spell, sorted[0], check) then [sorted[0]] + InsertCheck(spell, check, sorted[1..])
      else [check] + sorted
  }

  /** The stable sort of the fallback. */
  function SortChecks(spell: Spelling, checks: seq<RequiredCheck>): seq<RequiredCheck> {
    if checks == [] then [] else InsertCheck(spell, checks[0], SortChecks(spell, checks[1..]))
  }

  lemma {:induction false} InsertSame(spell: Spelling, check: RequiredCheck, sorted: seq<RequiredCheck>)
    ensures multiset(InsertCheck(spell, check, sorted)) == multiset(sorted) + multiset{check}
    ensures multiset(Ids(InsertCheck(spell, check, sorted))) == multiset(Ids(sorted)) + multiset{check.checkId}
  {
    hide SortsBefore, Ids;
    if sorted != [] && SortsBefore(spell, sorted[0], check) {
      var rest := InsertCheck(spell, check, sorted[1..]);
      InsertSame(spell, check, sorted[1..]);
      assert sorted == [sorted[0]] + sorted[1..];
      IdsOfCons(sorted[0], sorted[1..]);
      IdsOfCons(sorted[0], rest);
    } else {
      IdsOfCons(check, sorted);
    }
  }

  lemma IdsOfCons(check: RequiredCheck, rest: seq<RequiredCheck>)
    ensures Ids([check] + rest) == [check.checkId] + Ids(rest)
  {}

  predicate InToolOrder(checks: seq<RequiredCheck>) {
    forall i, j :: 0 <= i < j < |checks| ==> ToolOrder(checks[i].tool) <= ToolOrder(checks[j].tool)
  }

  lemma SortsByTool(spell: Spelling, a: RequiredCheck, b: RequiredCheck)
    ensures if SortsBefore(spell, a, b) then ToolOrder(a.tool) <= ToolOrder(b.tool)
            else ToolOrder(b.tool) <= ToolOrder(a.tool)
  {
    hide StringLess, ToolOrder;
  }

  lemma {:induction false} InsertInOrder(spell: Spelling, check: RequiredCheck, sorted: seq<RequiredCheck>)
    requires InToolOrder(sorted)
    ensures InToolOrder(InsertCheck(spell, check, sorted))
  {
    hide ToolOrder, SortsBefore, InToolOrder;
    if sorted == [] {
      InToolOrderCons(check, sorted);
    } else {
      SortsByTool(spell, sorted[0], check);
      InToolOrderCons(sorted[0], sorted[1..]);
      assert sorted == [sorted[0]] + sorted[1..];
      if SortsBefore(spell, sorted[0], check) {
        var rest := InsertCheck(spell, check, sorted[1..]);
        InsertInOrder(spell, check, sorted[1..]);
        InsertSame(spell, check, sorted[1..]);
        forall i | 0 <= i < |rest| ensures ToolOrder(sorted[0].tool) <= ToolOrder(rest[i].tool) {
          assert rest[i] in multiset(rest);
          assert rest[i] == check || rest[i] in sorted[1..];
        }
        InToolOrderCons(sorted[0], rest);
      } else {
        forall i | 0 <= i < |sorted| ensures ToolOrder(check.tool) <= ToolOrder(sorted[i].tool) {
          assert i > 0 ==> sorted[i] == sorted[1..][i - 1];
        }
        InToolOrderCons(check, sorted);
      }
    }
  }

  predicate FirstByTool(first: RequiredCheck, rest: seq<RequiredCheck>) {
    forall i :: 0 <= i < |rest| ==> ToolOrder(first.tool) <= ToolOrder(rest[i].tool)
  }

  lemma InToolOrderCons(first: RequiredCheck, rest: seq<RequiredCheck>)
    ensures InToolOrder([first] + rest) <==> InToolOrder(rest) && FirstByTool(first, rest)
  {
    hide ToolOrder;
    var all := [first] + rest;
    assert all[0] == first && forall i :: 0 <= i < |rest| ==> rest[i] == all[i + 1];
    if InToolOrder(rest) && FirstByTool(first, rest) {
      forall i, j | 0 <= i < j < |all| ensures ToolOrder(all[i].tool) <= ToolOrder(all[j].tool) {
        assert all[j] == rest[j - 1];
        assert i > 0 ==> all[i] == rest[i - 1];
      }
    }
    if InToolOrder(all) {
      forall i | 0 <= i < |rest| ensures ToolOrder(first.tool) <= ToolOrder(rest[i].tool) {
        assert ToolOrder(all[0].tool) <= ToolOrder(all[i + 1].tool);
      }
    }
  }

  /** The fallback performs the same checks, in the order of the tool registry. */
  lemma {:induction false} SortKeeps(spell: Spelling, checks: seq<RequiredCheck>)
    ensures multiset(SortChecks(spell, checks)) == multiset(checks) && InToolOrder(SortChecks(spell, checks))
    ensures multiset(Ids(SortChecks(spell, checks))) == multiset(Ids(checks))
  {
    hide InsertCheck, InToolOrder;
    if checks == [] {
      NoneInOrder();
    } else {
      var sorted := SortChecks(spell, checks[1..]);
      SortKeeps(spell, checks[1..]);
      InsertSame(spell, checks[0], sorted);
      InsertInOrder(spell, checks[0], sorted);
      assert checks == [checks[0]] + checks[1..];
      IdsOfCons(checks[0], checks[1..]);
    }
  }

  /** Checks of one tool go by asset, and those of one asset by identifier, as they are spelled. */
  lemma {:induction false} SortedByKey(spell: Spelling, checks: seq<RequiredCheck>)
    ensures InKeyOrder(spell, SortChecks(spell, checks))
  {
    hide InKeyOrder, InsertCheck;
    if checks == [] {
      NoneInKeyOrder(spell);
    } else {
      SortedByKey(spell, checks[1..]);
      InsertInKeyOrder(spell, checks[0], SortChecks(spell, checks[1..]));
    }
  }

  /** The second stands before the first. */
  predicate KeyBelow(spell: Spelling, first: RequiredCheck, second: RequiredCheck) {
    var a, b := ToolOrder(first.tool), ToolOrder(second.tool);
    || b < a
    || (b == a && StringLess(spell.asset(second.assetId), spell.asset(first.assetId)))
    || (b == a && spell.asset(second.assetId) == spell.asset(first.assetId)
        && StringLess(spell.check(second.checkId), spell.check(first.checkId)))
  }

  predicate InKeyOrder(spell: Spelling, checks: seq<RequiredCheck>) {
    forall i, j :: 0 <= i < j < |checks| ==> !KeyBelow(spell, checks[i], checks[j])
  }

  lemma NoneInKeyOrder(spell: Spelling)
    ensures InKeyOrder(spell, [])
  {}

  lemma KeyIsOrder(spell: Spelling, a: RequiredCheck, b: RequiredCheck, c: RequiredCheck)
    ensures SortsBefore(spell, a, b) <==> KeyBelow(spell, b, a)
    ensures SortsBefore(spell, a, b) ==> !KeyBelow(spell, a, b)
    ensures !KeyBelow(spell, a, b) && !KeyBelow(spell, b, c) ==> !KeyBelow(spell, a, c)
  {
    hide ToolOrder, StringLess;
    var x, y, z := spell.asset(a.assetId), spell.asset(b.assetId), spell.asset(c.assetId);
    var u, v, w := spell.check(a.checkId), spell.check(b.checkId), spell.check(c.checkId);
    LessIsOrder(x, y, z);
    LessIsOrder(y, x, x);
    LessIsOrder(z, y, x);
    LessIsOrder(u, v, w);
    LessIsOrder(v, u, u);
    LessIsOrder(w, v, u);
    LessIsTotal(x, y);
    LessIsTotal(y, z);
    LessIsTotal(x, z);
  }

  lemma {:induction false} InsertInKeyOrder(spell: Spelling, check: RequiredCheck, sorted: seq<RequiredCheck>)
    requires InKeyOrder(spell, sorted)
    ensures InKeyOrder(spell, InsertCheck(spell, check, sorted))
  {
    hide KeyBelow, SortsBefore;
    if sorted != [] {
      KeyIsOrder(spell, sorted[0], check, check);
      if SortsBefore(spell, sorted[0], check) {
        var rest := InsertCheck(spell, check, sorted[1..]);
        InsertInKeyOrder(spell, check, sorted[1..]);
        InsertSame(spell, check, sorted[1..]);
        forall k | 0 <= k < |rest| ensures !KeyBelow(spell, sorted[0], rest[k]) {
          assert rest[k] in multiset(rest);
          assert rest[k] == check || rest[k] in sorted[1..];
        }
      } else {
        forall k | 0 <= k < |sorted| ensures !KeyBelow(spell, check, sorted[k]) {
          KeyIsOrder(spell, check, sorted[0], sorted[k]);
        }
      }
    }
  }

  lemma NoneInOrder()
    ensures InToolOrder([])
  {}

  predicate InRun(runId: Id, required: seq<RequiredCheck>, assets: seq<Asset>) {
    forall i :: 0 <= i < |required| ==> OnRun(runId, required[i].assetId, assets)
  }

  lemma CountsOfNames(ids: seq<CheckId>, others: seq<CheckId>)
    requires multiset(ids) == multiset(others)
    ensures multiset(CheckNames(ids)) == multiset(CheckNames(others))
  {
    forall name ensures multiset(CheckNames(ids))[name] == multiset(CheckNames(others))[name] {
      if name.CheckName? {
        CheckNamesCount(ids, name.checkId);
        CheckNamesCount(others, name.checkId);
      } else {
        assert name !in CheckNames(ids) && name !in CheckNames(others);
      }
    }
  }

  function FallbackProposal(spell: Spelling, required: seq<RequiredCheck>): PlanProposal {
    PlanProposal(CheckNames(Ids(SortChecks(spell, required))), [], [])
  }

  lemma FallbackIsComplete(spell: Spelling, required: seq<RequiredCheck>)
    ensures multiset(FallbackProposal(spell, required).orderedItems) == multiset(ExpectedNames(required, []))
  {
    SortKeeps(spell, required);
    CountsOfNames(Ids(SortChecks(spell, required)), Ids(required));
    assert ExpectedNames(required, []) == CheckNames(Ids(required)) + [];
  }

  /** `deterministic_fallback_plan`. */
  method FallbackPlan(runId: Id, cycle: nat, required: seq<RequiredCheck>, assets: seq<Asset>, spell: Spelling)
    returns (r: Outcome<QCPlan>)
    ensures r.Done? <==> InRun(runId, required, assets)
    ensures r.Done? ==>
              && Built(r.value, runId, cycle, FallbackProposal(spell, required), required, Fallback)
              && Covers(r.value, required) && SafeExtras(r.value, runId, required, assets)
    ensures !r.Done? ==> r == Raised(InvalidValue)
  {
    hide Covers, Built, SortChecks, Named, SafeExtras;
    if !InRun(runId, required, assets) {
      return Raised(InvalidValue);
    }
    FallbackIsComplete(spell, required);
    var proposal := FallbackProposal(spell, required);
    ExpectedAreNamed(proposal, required);
    r := BuildPlan(runId, cycle, proposal, required, Fallback);
    BuiltCovers(r.value, runId, cycle, proposal, required, Fallback);
    NothingAdded(r.value, runId, cycle, proposal, required, assets);
  }

  lemma NothingAdded(plan: QCPlan, runId: Id, cycle: nat, proposal: PlanProposal, required: seq<RequiredCheck>,
                     assets: seq<Asset>)
    requires Built(plan, runId, cycle, proposal, required, Fallback) && proposal.extras == []
    requires multiset(proposal.orderedItems) == multiset(ExpectedNames(required, []))
    ensures SafeExtras(plan, runId, required, assets)
  {
    SameElements(proposal.orderedItems, ExpectedNames(required, []));
    forall i | 0 <= i < |plan.items| ensures !IsExtra(plan.items[i]) {
      assert Stands(plan.items[i], proposal.orderedItems[i], i, runId, cycle, required, proposal.extras);
    }
  }

  // ------------------------------------------------------------ the bounded retry

  /** What one call of the semantic model brings: an exception, something that is no proposal,
      or a proposal. */
  datatype Reply = ProviderError | SchemaInvalid | Proposed(proposal: PlanProposal)

  method Generate() returns (reply: Reply) {
    reply := *;
  }

  datatype Failure = ProviderFailed | NotAProposal | PlanRejected

  datatype PlanningResult = PlanningResult(plan: QCPlan, attempts: nat, failures: seq<Failure>)

  /** `construct_plan`: whatever the model replies, at most two calls, and a plan that covers
      the required checks; it is the fallback exactly when every call failed. */
  method ConstructPlan(runId: Id, cycle: nat, required: seq<RequiredCheck>, assets: seq<Asset>, maxAttempts: int,
                       accepts: (Tool, Payload) -> bool, spell: Spelling)
    returns (r: Outcome<PlanningResult>, calls: nat)
    ensures calls <= 2 && (1 <= maxAttempts <= 2 ==> calls <= maxAttempts)
    ensures r.Done? ==>
              && 1 <= maxAttempts <= 2 && r.value.attempts == calls
              && Covers(r.value.plan, required) && SafeExtras(r.value.plan, runId, required, assets)
              && r.value.plan.runId == runId && r.value.plan.cycle == cycle
              && (if r.value.plan.source.Proposal? then |r.value.failures| == calls - 1
                else |r.value.failures| == calls == maxAttempts)
    ensures 1 <= maxAttempts <= 2 && InRun(runId, required, assets) ==> r.Done?
    ensures !r.Done? ==> r == Raised(InvalidValue)
  {
    hide Covers, Admissible, InRun, SafeExtras;
    calls := 0;
    if !(1 <= maxAttempts <= 2) {
      return Raised(InvalidValue), calls;
    }
    var failures: seq<Failure> := [];
    for attempt := 1 to maxAttempts + 1
      invariant calls == |failures| == attempt - 1
    {
      var reply := Generate();
      calls := calls + 1;
      match reply
      case ProviderError =>
        failures := failures + [ProviderFailed];
      case SchemaInvalid =>
        failures := failures + [NotAProposal];
      case Proposed(proposal) =>
        var plan := ValidatePlan(runId, cycle, proposal, required, assets, accepts);
        if plan.Done? {
          return Done(PlanningResult(plan.value, attempt, failures)), calls;
        }
        failures := failures + [PlanRejected];
    }
    var plan := FallbackPlan(runId, cycle, required, assets, spell);
    if !plan.Done? {
      return Raised(InvalidValue), calls;
    }
    return Done(PlanningResult(plan.value, maxAttempts, failures)), calls;
  }

  /** For checks derived from sound requirements of the run, planning cannot fail. */
  lemma {:induction false} DerivedAreInRun(runId: Id, requirements: seq<Requirement>, assets: seq<Asset>)
    requires Derived(requirements, assets).Done?
    requires forall i :: 0 <= i < |requirements| ==> requirements[i].runId == runId
    ensures InRun(runId, Derived(requirements, assets).value, assets)
  {
    hide Derived;
    var required := Derived(requirements, assets).value;
    forall i | 0 <= i < |required| ensures OnRun(runId, required[i].assetId, assets) {
      OnlyOwedIsChecked(requirements, assets, required[i]);
      var n, j :| 0 <= n < |requirements| && 0 <= j < |assets| && OwedFor(required[i], requirements[n], assets[j]);
      assert assets[j].runId == runId;
    }
  }

  /** Two requirements that differ in their stream alone share an identifier, so their checks
      do too, and a plan performs only the later one's. */
  lemma SharedIdLosesACheck(requirement: Requirement, asset: Asset)
    requires Sound(requirement) && InForce(requirement) && requirement.verification.value.tool.MeasureLoudness?
    requires InScopeOf(requirement, asset)
    ensures var other := requirement.(scope := requirement.scope.(stream :=
              Some(requirement.scope.stream.value + "x")));
            && other.requirementId == requirement.requirementId && Derived([requirement, other], [asset]).Done?
            && !Coherent(Derived([requirement, other], [asset]).value)
            && !Distinct(Ids(Derived([requirement, other], [asset]).value))
  {
    var other := requirement.(scope := requirement.scope.(stream :=
              Some(requirement.scope.stream.value + "x")));
    var tool := requirement.verification.value.tool;
    var requirements := [requirement, other];
    assert [asset][1..] == [] && AssetsOf([asset], requirement.runId) == [asset]
      && WithRole([asset], requirement.scope.role) == [asset];
    assert BoundAssets(requirement, tool, [asset]) == [asset] && BoundAssets(other, tool, [asset]) == [asset];
    var first, second := CheckFor(requirement, tool, asset), CheckFor(other, tool, asset);
    assert ChecksOn(requirement, tool, [asset]) == [first] && ChecksOn(other, tool, [asset]) == [second];
    assert requirements[1..] == [other] && [other][1..] == [];
    assert Derived([other], [asset]) == Done([second] + []);
    assert Derived(requirements, [asset]) == Done([first] + ([second] + []));
    assert first.toolArgs[1] != second.toolArgs[1];
    var checks := Derived(requirements, [asset]).value;
    assert checks[0] == first && checks[1] == second && Ids(checks)[0] == Ids(checks)[1];
  }

  // ------------------------------------------------------------ the order of checks

  /** The order the orchestrator takes from a plan: the requirements of its checks. */
  function CheckOrder(items: seq<QCPlanItem>): seq<RequirementId> {
    if items == [] then []
    else (if items[0].requirementId.Some? then [items[0].requirementId.value] else []) + CheckOrder(items[1..])
  }

  lemma {:induction false} OrderedIsItem(items: seq<QCPlanItem>, id: RequirementId)
    ensures id in CheckOrder(items) <==> exists i :: 0 <= i < |items| && items[i].requirementId == Some(id)
  {
    if items != [] {
      OrderedIsItem(items[1..], id);
      assert forall i :: 0 < i < |items| ==> items[i] == items[1..][i - 1];
      assert forall i :: 0 <= i < |items[1..]| ==> items[1..][i] == items[i + 1];
    }
  }

  /** Checks name their own requirement. */
  predicate NamesOwn(required: seq<RequiredCheck>) {
    forall check :: check in required ==> check.checkId.requirementId == check.requirementId
  }

  /** Every requirement with a check has a place in the order. */
  lemma OrderCovers(plan: QCPlan, required: seq<RequiredCheck>, j: nat)
    requires Covers(plan, required) && NamesOwn(required) && j < |required|
    ensures required[j].requirementId in CheckOrder(plan.items)
  {
    CoversEach(plan, required, j);
    PlannedIsItem(plan.items, required[j].checkId);
    var i :| 0 <= i < |plan.items| && plan.items[i].checkId == Some(required[j].checkId);
    var check :| check in required && Serves(plan.items[i], check);
    assert plan.items[i].requirementId == Some(required[j].requirementId);
    OrderedIsItem(plan.items, required[j].requirementId);
  }

  /** Whatever the model proposed, a requirement that applies is inspected: one whose tool looks
      at an asset as soon as the run has an asset of its role, any other as soon as the run has
      an asset. */
  lemma {:induction false} OwedIsOrdered(plan: QCPlan, requirements: seq<Requirement>, assets: seq<Asset>, i: nat,
                                         asset: Asset)
    requires Derived(requirements, assets).Done? && Covers(plan, Derived(requirements, assets).value)
    requires i < |requirements| && InForce(requirements[i]) && requirements[i].verification.Some? && asset in assets
    requires if LooksAtAsset(requirements[i].verification.value.tool) then InScopeOf(requirements[i], asset)
      else InRunOf(requirements[i], asset)
    ensures requirements[i].requirementId in CheckOrder(plan.items)
  {
    hide Covers, Derived, LooksAtAsset, LooksAtPackage, Checks, InScopeOf, InRunOf, Unplannable, StandsFor, CheckOrder;
    var required := Derived(requirements, assets).value;
    var check;
    if LooksAtAsset(requirements[i].verification.value.tool) {
      EveryAssetIsChecked(requirements, assets, i, asset);
      check :| check in required && Checks(check, requirements[i], asset);
      ChecksTool(check, requirements[i], asset);
    } else {
      PlannedLooks(requirements, assets, i);
      var j :| 0 <= j < |assets| && assets[j] == asset;
      var found, k := PackageIsChecked(requirements, assets, i);
      check := found;
      ChecksTool(check, requirements[i], assets[k]);
    }
    var j :| 0 <= j < |required| && required[j] == check;
    DerivedNamesOwn(requirements, assets);
    OrderCovers(plan, required, j);
  }

  lemma {:induction false} PlannedLooks(requirements: seq<Requirement>, assets: seq<Asset>, i: nat)
    requires Derived(requirements, assets).Done? && i < |requirements| && InForce(requirements[i])
    ensures requirements[i].verification.Some?
    ensures LooksAtAsset(requirements[i].verification.value.tool)
            || LooksAtPackage(requirements[i].verification.value.tool)
  {
    hide Derived, LooksAtAsset, LooksAtPackage;
    RefusedIff(requirements, assets);
    assert !Unplannable(requirements[i], assets);
  }

  lemma {:induction false} OrderedTwice(items: seq<QCPlanItem>, id: RequirementId, i: nat, j: nat)
    requires i < j < |items| && items[i].requirementId == items[j].requirementId == Some(id)
    ensures multiset(CheckOrder(items))[id] >= 2
  {
    var rest := items[1..];
    if i == 0 {
      assert rest[j - 1] == items[j];
      OrderedIsItem(rest, id);
      assert id in multiset(CheckOrder(rest));
    } else {
      assert rest[i - 1] == items[i] && rest[j - 1] == items[j];
      OrderedTwice(rest, id, i - 1, j - 1);
    }
  }

  /** Where a requirement has two assets of its role, it stands twice in the order. */
  lemma {:induction false} TwoAssetsOrderedTwice(plan: QCPlan, requirements: seq<Requirement>, assets: seq<Asset>,
                                                 i: nat, first: Asset, second: Asset)
    requires Derived(requirements, assets).Done? && Covers(plan, Derived(requirements, assets).value)
    requires i < |requirements| && InForce(requirements[i]) && requirements[i].verification.Some?
    requires LooksAtAsset(requirements[i].verification.value.tool) && first.assetId != second.assetId
    requires first in assets && InScopeOf(requirements[i], first)
    requires second in assets && InScopeOf(requirements[i], second)
    ensures multiset(CheckOrder(plan.items))[requirements[i].requirementId] >= 2
  {
    hide Covers, Derived, InScopeOf, InForce, CheckOrder;
    DerivedNamesOwn(requirements, assets);
    var j := OrderedAt(plan, requirements, assets, i, first);
    var k := OrderedAt(plan, requirements, assets, i, second);
    OrderedTwice(plan.items, requirements[i].requirementId, if j < k then j else k, if j < k then k else j);
  }

  /** Where the check on one asset stands. */
  lemma OrderedAt(plan: QCPlan, requirements: seq<Requirement>, assets: seq<Asset>, i: nat, asset: Asset)
    returns (k: nat)
    requires Derived(requirements, assets).Done? && Covers(plan, Derived(requirements, assets).value)
    requires i < |requirements| && InForce(requirements[i]) && requirements[i].verification.Some?
    requires LooksAtAsset(requirements[i].verification.value.tool)
    requires asset in assets && InScopeOf(requirements[i], asset)
    ensures k < |plan.items| && plan.items[k].requirementId == Some(requirements[i].requirementId)
    ensures plan.items[k].checkId.Some? && plan.items[k].checkId.value.assetId == asset.assetId
  {
    hide Derived, InForce, InScopeOf, Checks;
    var required := Derived(requirements, assets).value;
    EveryAssetIsChecked(requirements, assets, i, asset);
    var check :| check in required && Checks(check, requirements[i], asset);
    ChecksTool(check, requirements[i], asset);
    var j :| 0 <= j < |required| && required[j] == check;
    DerivedNamesOwn(requirements, assets);
    CoversEach(plan, required, j);
    PlannedIsItem(plan.items, check.checkId);
    k :| 0 <= k < |plan.items| && plan.items[k].checkId == Some(check.checkId);
    var served :| served in required && Serves(plan.items[k], served);
  }

  lemma {:induction false} DerivedNamesOwn(requirements: seq<Requirement>, assets: seq<Asset>)
    requires Derived(requirements, assets).Done?
    ensures NamesOwn(Derived(requirements, assets).value)
  {
    hide Derived;
    forall check | check in Derived(requirements, assets).value
      ensures check.checkId.requirementId == check.requirementId
    {
      OnlyOwedIsChecked(requirements, assets, check);
    }
  }
}
