/** Keeping the runtime's own manifest up to date: when a rewrite may be skipped, and the
    updates of a run record that leave it in order. */
module Refresh {
  import opened Domain
  import opened Sequences
  import opened Ledger
  import opened Terminal
  import opened Records
  import opened StateMachine
  import opened Protocol
  import opened Executor
  import opened Lifecycle
  import opened Steadiness
  import opened Inspection

  /** `completions.get(action)`: the number of the event that completed it. */
  function CompletionSeq(events: seq<LedgerEvent>, actionId: Id): (r: Option<nat>)
    ensures r.None? <==> forall i :: 0 <= i < |events| && events[i].payload.ActionCompleted? ==>
      events[i].payload.actionId != actionId
    ensures r.Some? ==> exists i :: 0 <= i < |events| && events[i].payload.ActionCompleted?
                                    && events[i].payload.actionId == actionId && events[i].seqNo == r.value
  {
    if events == [] then None
    else
      var last := |events| - 1;
      assert forall i :: 0 <= i < last ==> events[..last][i] == events[i];
      if events[last].payload.ActionCompleted? && events[last].payload.actionId == actionId
        then Some(events[last].seqNo)
      else CompletionSeq(events[..last], actionId)
  }

  predicate Changing(tool: Tool) {
    tool.RenameDeliveryCopy? || tool.ConvertCaptionFormat? || tool.CreateNormalizedAudioDerivative?
  }

  predicate CompletesChange(events: seq<LedgerEvent>, event: LedgerEvent) {
    && event.payload.ActionCompleted? && FindStart(events, event.payload.actionId).Some?
    && Changing(events[FindStart(events, event.payload.actionId).value].payload.tool)
  }

  /** `changed_seq`: the number of the last completion of a tool that changes the package. */
  function ChangedSeq(prefix: seq<LedgerEvent>, events: seq<LedgerEvent>): (r: int)
    ensures r >= -1
    ensures forall i :: 0 <= i < |prefix| && CompletesChange(events, prefix[i]) ==> prefix[i].seqNo <= r
  {
    if prefix == [] then -1
    else
      var last := |prefix| - 1;
      assert forall i :: 0 <= i < last ==> prefix[..last][i] == prefix[i];
      var rest := ChangedSeq(prefix[..last], events);
      if CompletesChange(events, prefix[last]) && prefix[last].seqNo > rest then prefix[last].seqNo else rest
  }

  lemma ClosedOnce(events: seq<LedgerEvent>, a: Id, p: nat, q: nat)
    requires Once(events) && p <= |events| && q < |events|
    requires HasClose(events[..p], a) && Closes(events[q], a)
    ensures q < p
  {
    if q >= p {
      var i :| 0 <= i < p && Closes(events[..p][i], a);
      assert CloseCount(events, a) <= 1;
      TwoCloses(events, a, i, q);
    }
  }

  lemma {:induction false} TwoCloses(events: seq<LedgerEvent>, a: Id, i: nat, q: nat)
    requires i < q < |events| && Closes(events[i], a) && Closes(events[q], a)
    ensures CloseCount(events, a) >= 2
    decreases |events|
  {
    var last := |events| - 1;
    assert events == events[..last] + [events[last]];
    CountAppend(events[..last], events[last], a);
    if q < last {
      TwoCloses(events[..last], a, i, q);
    } else {
      assert Closes(events[..last][i], a);
    }
  }

  /** A later output of another kind would have a later completion. */
  lemma {:induction false} LaterChangeCounts(events: seq<LedgerEvent>, run: RuntimeRun, files: Files, k: nat, j: nat,
                                             p: nat)
    requires Consistent(events, run, files) && Chain(events)
    requires k < j < |run.assets| && run.assets[k].asset.createdByAction.Some?
    requires CompletionSeq(events, run.assets[k].asset.createdByAction.value).Some?
    requires p < |events| && Completes(events[p], run.assets[j]) && !IsRuntimeManifest(run.assets[j])
    ensures ChangedSeq(events, events) > CompletionSeq(events, run.assets[k].asset.createdByAction.value).value
  {
    var item, a := run.assets[j], run.assets[k].asset.createdByAction.value;
    assert RecordedOk(events, item, files);
    var i :| 0 <= i < |events| && Starts(events[i], events[p].payload.actionId) && Makes(events[i].payload.tool, item);
    var s := FindStart(events, events[p].payload.actionId).value;
    assert StartCount(events, events[i].payload.actionId) <= 1;
    OneStart(events, i, s);
    assert CompletesChange(events, events[p]);
    assert ClosedBefore(events, p, run.assets[k]);
    var q :| 0 <= q < |events| && events[q].payload.ActionCompleted? && events[q].payload.actionId == a
             && events[q].seqNo == CompletionSeq(events, a).value;
    ClosedOnce(events, a, p, q);
    assert Acceptable(events[..p], events[p]) && Acceptable(events[..q], events[q]);
  }

  /** When the shortcut is sound: when no change was completed after an intact manifest, its file
      lists exactly the current leaves if and only if it did when it was made. */
  lemma {:induction false} ShortcutSoundIff(events: seq<LedgerEvent>, run: RuntimeRun, files: Files, k: nat)
    requires Consistent(events, run, files) && Chain(events) && NoneOpen(events)
    requires k < |run.assets| && RuntimeManifest(run) == Some(run.assets[k]) && Intact(run.assets[k], files)
    requires ReplacesManifest(run.assets, k)
    requires var seqNo := CompletionSeq(events, run.assets[k].asset.createdByAction.value);
             seqNo.Some? && ChangedSeq(events, events) <= seqNo.value
    ensures files[run.assets[k].path] == ManifestText(ManifestLines(run.assets)) <==> MadeCurrentAt(run.assets, k)
  {
    hide Consistent, Chain, NoneOpen, ManifestLines, CompletionSeq, ChangedSeq, Completes, IsRuntimeManifest,
         MadeCurrentAt;
    forall j, p | k < j < |run.assets| && 0 <= p < |events| && Completes(events[p], run.assets[j])
      ensures IsRuntimeManifest(run.assets[j])
    {
      if !IsRuntimeManifest(run.assets[j]) {
        LaterChangeCounts(events, run, files, k, j, p);
      }
    }
    UnchangedManifestIsCurrent(events, run, files, k);
  }

  /** A manifest the runtime wrote was current when it was made, so that for one the shortcut is
      always sound. */
  lemma {:induction false} ShortcutSound(events: seq<LedgerEvent>, run: RuntimeRun, files: Files, item: RuntimeAsset)
    requires Consistent(events, run, files) && Chain(events) && NoneOpen(events)
    requires RuntimeManifest(run) == Some(item) && Intact(item, files)
    requires IsRuntimeManifest(item) || MadeCurrent(run.assets, item)
    requires var seqNo := CompletionSeq(events, item.asset.createdByAction.value);
             seqNo.Some? && ChangedSeq(events, events) <= seqNo.value
    ensures MadeCurrent(run.assets, item) && files[item.path] == ManifestText(ManifestLines(run.assets))
  {
    hide Chain, NoneOpen, ManifestLines, CompletionSeq, ChangedSeq, ManifestListed;
    var k :| 0 <= k < |run.assets| && run.assets[k] == item
      && (IsRuntimeManifest(item) || MadeCurrentAt(run.assets, k));
    assert MadeCurrentAt(run.assets, k);
    ShortcutSoundIff(events, run, files, k);
  }

  /** A rename is itself a change. A renamed copy is therefore skipped exactly when its rename was
      the last change, whatever was changed just before it. */
  lemma {:induction false} CopySkippedIff(events: seq<LedgerEvent>, a: Id)
    requires Once(events) && Chain(events) && CompletionSeq(events, a).Some?
    requires FindStart(events, a).Some? && events[FindStart(events, a).value].payload.tool.RenameDeliveryCopy?
    ensures ChangedSeq(events, events) <= CompletionSeq(events, a).value <==>
            forall i :: 0 <= i < |events| && CompletesChange(events, events[i]) ==>
              events[i].seqNo <= CompletionSeq(events, a).value
    ensures ChangedSeq(events, events) >= CompletionSeq(events, a).value
  {
    hide FindStart;
    var q :| 0 <= q < |events| && events[q].payload.ActionCompleted? && events[q].payload.actionId == a
             && events[q].seqNo == CompletionSeq(events, a).value;
    assert CompletesChange(events, events[q]);
    ChangedIsChange(events, events);
  }

  lemma {:induction false} ChangedIsChange(prefix: seq<LedgerEvent>, events: seq<LedgerEvent>)
    ensures ChangedSeq(prefix, events) == -1 || exists i :: 0 <= i < |prefix| && CompletesChange(events, prefix[i])
                                                           && prefix[i].seqNo == ChangedSeq(prefix, events)
  {
    hide CompletesChange;
    if prefix != [] {
      var last := |prefix| - 1;
      ChangedIsChange(prefix[..last], events);
      assert forall i :: 0 <= i < last ==> prefix[..last][i] == prefix[i];
    }
  }

  /** An intact manifest was completed: its number is always found. */
  lemma {:induction false} IntactManifestCompleted(events: seq<LedgerEvent>, run: RuntimeRun, files: Files,
                                                   item: RuntimeAsset)
    requires Consistent(events, run, files) && NoneOpen(events)
    requires RuntimeManifest(run) == Some(item) && Intact(item, files)
    ensures CompletionSeq(events, item.asset.createdByAction.value).Some?
  {
    var k :| 0 <= k < |run.assets| && run.assets[k] == item;
    var a := item.asset.createdByAction.value;
    assert RecordedOk(events, run.assets[k], files);
    OpenlessClosed(events, a);
    var p :| 0 <= p < |events| && Closes(events[p], a);
    CreatedIs(run.assets, k);
    assert FailedOk(events[p], run.assets, files);
  }

  /** A manifest that was written successfully lists the leaves of the run it was added to,
      and is itself current. */
  lemma RewrittenManifestIsCurrent(a: Id, option: RemediationOption, run: RuntimeRun, files: Files, item: RuntimeAsset)
    requires option.tool.WriteChecksumManifest? && Describe(a, option, run).Some?
    requires Describe(a, option, run).value.path in files
    requires item == Successor(a, run, Describe(a, option, run).value, files[Describe(a, option, run).value.path])
    requires Fulfils(option, run, files, files[item.path]) && AssetsOk(WithAsset(run, item).assets)
    ensures IsRuntimeManifest(item) && Intact(item, files) && item in CurrentAssets(WithAsset(run, item))
    ensures files[item.path] == ManifestText(ManifestLines(WithAsset(run, item).assets))
  {
    var grown := WithAsset(run, item);
    if item.asset.predecessor.Some? {
      var current := Manifests(run)[0];
      assert current in Manifests(run) && current in run.assets;
      var i :| 0 <= i < |run.assets| && run.assets[i] == current;
      assert ManifestListed(run.assets, item.asset.predecessor.value);
    }
    ManifestMovesNoLine(run.assets, item);
    LastIsLeaf(grown.assets);
  }

  // ------------------------------------------------------------ updates of the record

  /** Findings keep their names; their options stay or are taken away; none is opened, and
      those of one name are closed together. */
  predicate Trims(before: seq<RuntimeFinding>, after: seq<RuntimeFinding>) {
    && |after| == |before|
    && (forall i :: 0 <= i < |before| ==>
          && after[i].findingId == before[i].findingId && after[i].requirementId == before[i].requirementId
          && after[i].cycleOpened == before[i].cycleOpened
          && (after[i].options == before[i].options || after[i].options == [])
          && (after[i].status.Open? ==> before[i].status.Open?))
    && (forall i, j :: 0 <= i < |before| && 0 <= j < |before| && before[i].findingId == before[j].findingId ==>
          before[j].status.Open? && after[i].status.Open? ==> after[j].status.Open?)
  }

  /** Which options may be taken away: those of this cycle's findings, and during a remediation
      only those of the manifest's own. Outside one, what is unresolved stays so; and once there
      is a verdict nothing changes. */
  predicate Settles(s: RunStateSnapshot, before: seq<RuntimeFinding>, after: seq<RuntimeFinding>) {
    && |after| == |before|
    && (forall i :: 0 <= i < |before| ==>
          || after[i].options == before[i].options
          || (before[i].findingId.cycle ==
            s.cycle && !s.status.Failed? && (s.status.Remediating? ==> before[i].findingId.invalidation)))
    && (!s.status.Remediating? ==> forall i :: 0 <= i < |before| && before[i].status.Unresolved? ==>
      after[i].status.Unresolved?)
    && (s.terminalVerdict.Some? ==> after == before)
  }

  /** The options that were granted are never taken away. */
  lemma SettledGrants(events: seq<LedgerEvent>, authorizations: map<Id, Authorization>, run: RuntimeRun,
                      updated: RuntimeRun, s: RunStateSnapshot)
    requires OptionsOk(run) && GrantsOk(events, authorizations, run, s) && Settles(s, run.findings, updated.findings)
    ensures GrantsOk(events, authorizations, updated, s)
  {
    hide Spends, SpentOn, Settles;
    forall i | 0 <= i < |events| && Spends(events[i], authorizations)
      ensures Granted(SpentOn(events[i], authorizations), updated, s)
    {
      HeldStays(run, updated, SpentOn(events[i], authorizations), s);
    }
  }

  lemma HeldStays(run: RuntimeRun, updated: RuntimeRun, authorization: Authorization, s: RunStateSnapshot)
    requires OptionsOk(run) && Granted(authorization, run, s) && Settles(s, run.findings, updated.findings)
    ensures Granted(authorization, updated, s)
  {
    var i, k :| 0 <= i < |run.findings| && 0 <= k < |run.findings[i].options|
      && run.findings[i].options[k].optionId == authorization.optionId
        && run.findings[i].options[k].argsHash == authorization.argsHash;
    var option := run.findings[i].options[k];
    assert option in run.findings[i].options && OptionOk(option, run);
    assert updated.findings[i].options[k] == option;
  }

  /** What can be taken up still can, as far as it is open. */
  lemma TrimmedSelectable(run: RuntimeRun, updated: RuntimeRun, cycle: nat)
    requires Selectable(run, cycle) && Annotates(run, updated)
    ensures Selectable(updated, cycle)
  {
    hide Aimed;
    forall i, option | 0 <= i < |updated.findings| && updated.findings[i].status.Open?
      && option in updated.findings[i].options
      ensures Aimed(updated, option)
    {
      assert option in run.findings[i].options;
      AimedByAssets(run, updated, option);
    }
  }

  lemma SettledManifest(s: RunStateSnapshot, run: RuntimeRun, updated: RuntimeRun, files: Files)
    requires Annotates(run, updated) && Settles(s, run.findings, updated.findings) && ManifestOk(s.status, run, files)
    ensures ManifestOk(s.status, updated, files)
  {
    if !s.status.Remediating? {
      if RewriteFailed(run.findings) {
        var i :| 0 <= i < |run.findings| && run.findings[i].findingId.invalidation && run.findings[i].status.Unresolved?
          && forall j :: i < j < |run.findings| ==> !run.findings[j].findingId.invalidation;
        assert updated.findings[i].findingId.invalidation && updated.findings[i].status.Unresolved?;
      }
      hide ManifestKept, RewriteFailed;
      ManifestByAssets(run, updated, files);
    }
  }

  /** The record differs in the state of its findings, its decisions and its counts only. */
  predicate Annotates(run: RuntimeRun, updated: RuntimeRun) {
    && updated == run.(findings := updated.findings, decisionRequests := updated.decisionRequests,
                       decisions := updated.decisions, autonomousRemediations := updated.autonomousRemediations,
                       authorizedRemediations := updated.authorizedRemediations)
    && Trims(run.findings, updated.findings)
  }

  lemma AnnotatedRunOk(run: RuntimeRun, updated: RuntimeRun)
    requires RunOk(run) && Annotates(run, updated)
    ensures RunOk(updated)
    ensures forall cycle :: UpTo(run, cycle) ==> UpTo(updated, cycle)
  {
    hide OptionOk, LookupHash, FindRequirement, CaptionTargetKnown;
    forall i, option | 0 <= i < |updated.findings| && option in updated.findings[i].options
      ensures OptionOk(option, updated) && option.findingId == updated.findings[i].findingId
    {
      assert option in run.findings[i].options;
      OptionOkGrown(option, run, updated);
    }
    assert HashesOk(updated) && OrderedIds(updated) == OrderedIds(run);
    assert MeasuresOk(updated);
    var i :| 0 <= i < |run.assets| && !run.assets[i].asset.protection.Original?;
    assert !updated.assets[i].asset.protection.Original?;
  }

  /** The option `_refresh_generated_manifest` makes. */
  function ManifestOption(runId: Id, requirementId: Id, cycle: nat): RemediationOption {
    var findingId := FindingId(requirementId, cycle, true);
    var optionId := OptionId(findingId, WriteChecksumManifest);
    OptionFromCall(optionId, findingId, WriteChecksumManifest, ManifestInput(runId, optionId, "sha256sums"), 1)
  }

  function WithInvalidation(run: RuntimeRun, requirementId: Id, assetId: AssetId, cycle: nat): RuntimeRun {
    run.(findings := run.findings + [
      RuntimeFinding(FindingId(requirementId, cycle, true), requirementId, assetId, cycle, Open,
                     [ManifestOption(run.runId, requirementId, cycle)], None)])
  }

  /** An option of that name is that option, so a retry after a crash adds nothing new. */
  lemma ManifestOptionDetermined(run: RuntimeRun, requirementId: Id, cycle: nat, option: RemediationOption)
    requires OptionOk(option, run) && option.optionId == ManifestOption(run.runId, requirementId, cycle).optionId
    ensures option == ManifestOption(run.runId, requirementId, cycle)
  {}

  lemma ManifestOptionOk(run: RuntimeRun, requirementId: Id, cycle: nat)
    ensures OptionOk(ManifestOption(run.runId, requirementId, cycle), run)
  {}

  lemma InvalidatedOptionsOk(run: RuntimeRun, requirementId: Id, assetId: AssetId, cycle: nat)
    requires OptionsOk(run)
    ensures OptionsOk(WithInvalidation(run, requirementId, assetId, cycle))
    ensures Offers(WithInvalidation(run, requirementId, assetId, cycle).findings,
      ManifestOption(run.runId, requirementId, cycle))
  {
    hide OptionOk, ManifestOption;
    var updated := WithInvalidation(run, requirementId, assetId, cycle);
    var made := ManifestOption(run.runId, requirementId, cycle);
    ManifestOptionOk(updated, requirementId, cycle);
    ManifestOptionNamed(run.runId, requirementId, cycle);
    forall i, option | 0 <= i < |updated.findings| && option in updated.findings[i].options
      ensures OptionOk(option, updated) && option.findingId == updated.findings[i].findingId
      ensures option.optionId == made.optionId ==> option == made
    {
      if i < |run.findings| {
        assert option in run.findings[i].options;
        OptionOkGrown(option, run, updated);
        if option.optionId == made.optionId {
          ManifestOptionDetermined(run, requirementId, cycle, option);
        }
      }
    }
    assert updated.findings[|run.findings|].options == [made];
  }

  lemma ManifestOptionNamed(runId: Id, requirementId: Id, cycle: nat)
    ensures ManifestOption(runId, requirementId, cycle).findingId == FindingId(requirementId, cycle, true)
  {}

  lemma InvalidatedRunOk(run: RuntimeRun, requirementId: Id, assetId: AssetId, cycle: nat)
    requires RunOk(run) && UpTo(run, cycle)
    ensures var updated := WithInvalidation(run, requirementId, assetId, cycle);
            && RunOk(updated) && UpTo(updated, cycle)
            && Offers(updated.findings, ManifestOption(run.runId, requirementId, cycle))
  {
    hide OptionsOk, Offers, LookupHash, FindRequirement, CaptionTargetKnown, ManifestOption;
    var updated := WithInvalidation(run, requirementId, assetId, cycle);
    InvalidatedOptionsOk(run, requirementId, assetId, cycle);
    assert HashesOk(updated) && OrderedIds(updated) == OrderedIds(run);
    assert MeasuresOk(updated);
    var i :| 0 <= i < |run.assets| && !run.assets[i].asset.protection.Original?;
    assert !updated.assets[i].asset.protection.Original?;
  }

  /** Closing one finding by name. */
  function CloseFinding(findings: seq<RuntimeFinding>, findingId: FindingId, status: FindingStatus, closer: Option<Id>)
    : (r: seq<RuntimeFinding>)
    requires !status.Open?
    ensures Trims(findings, r)
  {
    seq(|findings|, i requires 0 <= i < |findings| =>
      if findings[i].findingId == findingId
        then findings[i].(status := status, options := [], resolvedByAction := closer)
      else findings[i])
  }

  /** Closing every open finding. */
  function CloseFindings(findings: seq<RuntimeFinding>): (r: seq<RuntimeFinding>)
    ensures Trims(findings, r) && FindingFacts(r) == CloseOpen(FindingFacts(findings))
  {
    seq(|findings|, i requires 0 <= i < |findings| =>
      if findings[i].status.Open? then findings[i].(status := Unresolved, options := []) else findings[i])
  }

  lemma SameSettles(s: RunStateSnapshot, findings: seq<RuntimeFinding>)
    ensures Settles(s, findings, findings) && Trims(findings, findings)
  {}

  lemma ClosedSettles(s: RunStateSnapshot, run: RuntimeRun)
    requires s.status.FindingsReady? && s.terminalVerdict.None? && FindingsNamed(run.findings)
      && Selectable(run, s.cycle)
    ensures Settles(s, run.findings, CloseFindings(run.findings))
  {
    hide Aimed, Unshadowed;
    forall i | 0 <= i < |run.findings|
      ensures CloseFindings(run.findings)[i].options == run.findings[i].options || run.findings[i].findingId.cycle ==
        s.cycle
    {
      assert run.findings[i].findingId.cycle == run.findings[i].cycleOpened;
    }
  }

  lemma RewriteSettles(s: RunStateSnapshot, findings: seq<RuntimeFinding>, requirementId: Id, status: FindingStatus,
                       closer: Option<Id>)
    requires s.status.Remediating? && s.terminalVerdict.None? && !status.Open?
    ensures Settles(s, findings, CloseFinding(findings, FindingId(requirementId, s.cycle, true), status, closer))
  {}

  predicate HasOpen(findings: seq<RuntimeFinding>, findingId: FindingId) {
    exists i :: 0 <= i < |findings| && findings[i].status.Open? && findings[i].findingId == findingId
  }

  lemma DenialSettles(s: RunStateSnapshot, run: RuntimeRun, findingId: FindingId)
    requires s.status.AwaitingHumanDecision? && s.terminalVerdict.None? && FindingsNamed(run.findings)
      && Selectable(run, s.cycle)
    requires HasOpen(run.findings, findingId)
    ensures Settles(s, run.findings, CloseFinding(run.findings, findingId, Unresolved, None))
  {
    hide Aimed, Unshadowed;
    var i :| 0 <= i < |run.findings| && run.findings[i].status.Open? && run.findings[i].findingId == findingId;
    assert run.findings[i].findingId.cycle == run.findings[i].cycleOpened == s.cycle;
  }

  // ------------------------------------------------------------ which manifest is looked up

  /** After a rewrite the manifest the runtime looks up is the one it has just written exactly
      when no current manifest other than the one replaced was made by an action. */
  lemma FreshIsLookedUpIff(a: Id, option: RemediationOption, run: RuntimeRun, output: Content)
    requires option.tool.WriteChecksumManifest? && Describe(a, option, run).Some?
    requires var item := Successor(a, run, Describe(a, option, run).value,
      output); AssetsOk(WithAsset(run, item).assets)
    ensures var item := Successor(a, run, Describe(a, option, run).value, output);
            RuntimeManifest(WithAsset(run, item)) == Some(item) <==>
            forall other :: other in Manifests(run) && other.asset.createdByAction.Some? ==> other == Manifests(run)[0]
  {
    var item := Successor(a, run, Describe(a, option, run).value, output);
    var grown := WithAsset(run, item);
    LastIsLeaf(grown.assets);
    RestOfLeaves(run, item);
    LookedUpLast(grown, item);
  }

  /** The current manifests that an action made, with a new asset the last of them. */
  lemma LookedUpLast(grown: RuntimeRun, item: RuntimeAsset)
    requires grown.assets != [] && grown.assets[|grown.assets| - 1] == item && AssetsOk(grown.assets)
    requires IsLeaf(grown.assets, item) && item.asset.role.Manifest? && item.asset.createdByAction.Some?
    ensures RuntimeManifest(grown) == Some(item) <==>
            forall other :: other in Manifests(grown) && other.asset.createdByAction.Some? ==> other == item
  {
    hide IsLeaf, AssetsOk, CurrentAssets;
    var made := (other: RuntimeAsset) => other.asset.role.Manifest? && other.asset.createdByAction.Some?;
    var n := |grown.assets| - 1;
    var before := CurrentsWithLast(grown, item);
    SelectAppend(before, item, made);
    var earlier := Select(before, made);
    SelectAgrees(CurrentAssets(grown), made, (other: RuntimeAsset) => other.asset.role.Manifest?
      && other.asset.createdByAction.Some?);
    if earlier == [] {
      forall other | other in Manifests(grown) && other.asset.createdByAction.Some? ensures other == item {
        assert other in before + [item] && made(other) && other !in earlier;
      }
    } else {
      assert earlier[0] in earlier && earlier[0] in grown.assets[..n];
      LastIsApart(grown.assets, earlier[0]);
      assert earlier[0] in Manifests(grown);
    }
  }

  lemma CurrentsWithLast(grown: RuntimeRun, item: RuntimeAsset) returns (before: seq<RuntimeAsset>)
    requires grown.assets != [] && grown.assets[|grown.assets| - 1] == item && IsLeaf(grown.assets, item)
    ensures CurrentAssets(grown) == before + [item]
    ensures forall other :: other in before <==>
      other in grown.assets[..|grown.assets| - 1] && IsLeaf(grown.assets, other)
  {
    hide IsLeaf;
    var leaf := (other: RuntimeAsset) => IsLeaf(grown.assets, other);
    var n := |grown.assets| - 1;
    assert grown.assets == grown.assets[..n] + [item];
    SelectAppend(grown.assets[..n], item, leaf);
    SelectAgrees(grown.assets, leaf, other => IsLeaf(grown.assets, other));
    before := Select(grown.assets[..n], leaf);
  }

  lemma LastIsApart(assets: seq<RuntimeAsset>, other: RuntimeAsset)
    requires AssetsOk(assets) && assets != [] && other in assets[..|assets| - 1]
    ensures other != assets[|assets| - 1]
  {
    var n := |assets| - 1;
    var i :| 0 <= i < n && assets[..n][i] == other;
    assert assets[i].asset.assetId != assets[n].asset.assetId;
  }

  /** Its own predecessor apart, a new manifest leaves the current manifests as they were. */
  lemma RestOfLeaves(run: RuntimeRun, item: RuntimeAsset)
    requires AssetsOk(WithAsset(run, item).assets) && item.asset.role.Manifest? && item.asset.createdByAction.Some?
    requires if Manifests(run) == [] then item.asset.predecessor.None?
      else item.asset.predecessor == Some(Manifests(run)[0].asset.assetId)
    ensures forall other :: other in Manifests(WithAsset(run, item)) && other != item <==>
              other in Manifests(run) && other != Manifests(run)[0]
  {
    hide IsLeaf, Superseded, AssetsOk;
    var grown := WithAsset(run, item);
    forall other
      ensures other in Manifests(grown) && other != item <==> other in Manifests(run) && other != Manifests(run)[0]
    {
      LeavesGrown(run.assets, item, other);
      if other in Manifests(run) {
        var first := Manifests(run)[0];
        assert first in Manifests(run) && first in run.assets;
        NamedApart(run.assets, item, other, first);
      }
    }
  }

  lemma NamedApart(assets: seq<RuntimeAsset>, item: RuntimeAsset, other: RuntimeAsset, first: RuntimeAsset)
    requires AssetsOk(assets + [item]) && other in assets && first in assets
    ensures other != item && (other != first ==> other.asset.assetId != first.asset.assetId)
  {
    var grown := assets + [item];
    var i :| 0 <= i < |assets| && assets[i] == other;
    var j :| 0 <= j < |assets| && assets[j] == first;
    assert grown[i] == other && grown[j] == first && grown[|assets|] == item;
  }

  lemma LeavesGrown(assets: seq<RuntimeAsset>, item: RuntimeAsset, other: RuntimeAsset)
    ensures IsLeaf(assets + [item], other) <==>
      IsLeaf(assets, other) && item.asset.predecessor != Some(other.asset.assetId)
  {
    assert Superseded(assets + [item]) ==
           Superseded(assets) + (if item.asset.predecessor.Some? then {item.asset.predecessor.value} else {});
  }

  predicate IsMade(assets: seq<RuntimeAsset>, item: RuntimeAsset) {
    IsLeaf(assets, item) && item.asset.role.Manifest? && item.asset.createdByAction.Some?
  }

  predicate IsCurrentManifest(assets: seq<RuntimeAsset>,
                              item: RuntimeAsset) { IsLeaf(assets, item) && item.asset.role.Manifest? }

  lemma CurrentThen(run: RuntimeRun, test: RuntimeAsset -> bool, both: RuntimeAsset -> bool)
    requires forall item :: both(item) == (IsLeaf(run.assets, item) && test(item))
    ensures Select(CurrentAssets(run), test) == Select(run.assets, both)
  {
    hide IsLeaf;
    var leaf := (item: RuntimeAsset) => IsLeaf(run.assets, item);
    SelectAgrees(run.assets, leaf, item => IsLeaf(run.assets, item));
    SelectTwice(run.assets, leaf, test, both);
  }

  /** The manifest that is looked up, and the one that is replaced, by where they stand. */
  lemma ManifestsStanding(run: RuntimeRun)
    ensures Manifests(run) == Select(run.assets, (item: RuntimeAsset) => IsCurrentManifest(run.assets, item))
  {
    hide CurrentAssets;
    var manifest := (item: RuntimeAsset) => item.asset.role.Manifest?;
    CurrentThen(run, manifest, (item: RuntimeAsset) => IsCurrentManifest(run.assets, item));
    SelectAgrees(CurrentAssets(run), manifest, (item: RuntimeAsset) => item.asset.role.Manifest?);
  }

  lemma Standing(run: RuntimeRun)
    ensures var made := Select(run.assets, (item: RuntimeAsset) => IsMade(run.assets, item));
            RuntimeManifest(run) == if made == [] then None else Some(made[0])
  {
    hide CurrentAssets;
    var made := (item: RuntimeAsset) => item.asset.role.Manifest? && item.asset.createdByAction.Some?;
    CurrentThen(run, made, (item: RuntimeAsset) => IsMade(run.assets, item));
    SelectAgrees(CurrentAssets(run), made, (item: RuntimeAsset) => item.asset.role.Manifest?
      && item.asset.createdByAction.Some?);
  }

  lemma LookedUpAt(run: RuntimeRun, k: nat)
    requires k < |run.assets| && IsMade(run.assets, run.assets[k]) && forall j :: 0 <= j < k ==>
      !IsMade(run.assets, run.assets[j])
    ensures RuntimeManifest(run) == Some(run.assets[k])
  {
    Standing(run);
    FirstSelected(run.assets, (item: RuntimeAsset) => IsMade(run.assets, item), k);
  }

  lemma ReplacedAt(run: RuntimeRun, k: nat)
    requires k < |run.assets| && IsCurrentManifest(run.assets, run.assets[k])
    requires forall j :: 0 <= j < k ==> !IsCurrentManifest(run.assets, run.assets[j])
    ensures Manifests(run) != [] && Manifests(run)[0] == run.assets[k]
  {
    hide IsCurrentManifest, Manifests;
    ManifestsStanding(run);
    FirstSelected(run.assets, (item: RuntimeAsset) => IsCurrentManifest(run.assets, item), k);
  }

  /** Where the condition fails: when the runtime's own manifest is not the first current one, a
      rewrite replaces the other, and what is looked up afterwards is still the old one. A file
      that did not list the leaves then does not list them now. */
  lemma OtherManifestGoesStale(a: Id, option: RemediationOption, run: RuntimeRun, output: Content, files: Files)
    requires option.tool.WriteChecksumManifest? && Describe(a, option, run).Some?
    requires var item := Successor(a, run, Describe(a, option, run).value,
      output); AssetsOk(WithAsset(run, item).assets)
    requires RuntimeManifest(run).Some? && RuntimeManifest(run).value != Manifests(run)[0]
    requires !ListsLeaves(RuntimeManifest(run).value, run, files) && IsRuntimeManifest(RuntimeManifest(run).value)
    requires RuntimeManifest(run).value.path in files
    ensures var grown := WithAsset(run, Successor(a, run, Describe(a, option, run).value, output));
            RuntimeManifest(grown) == RuntimeManifest(run) && !ListsLeaves(RuntimeManifest(grown).value, grown, files)
  {
    var item := Successor(a, run, Describe(a, option, run).value, output);
    var grown, first := WithAsset(run, item), Manifests(run)[0];
    assert first in Manifests(run) && first in run.assets;
    Standing(run);
    var k := FirstIndex(run.assets, (other: RuntimeAsset) => IsMade(run.assets, other));
    hide IsLeaf, AssetsOk, ManifestLines, Describe;
    forall j | 0 <= j <= k ensures IsMade(grown.assets, grown.assets[j]) == (j == k) {
      assert grown.assets[j] == run.assets[j] && run.assets[j] in run.assets;
      LeavesGrown(run.assets, item, run.assets[j]);
      NamedApart(run.assets, item, run.assets[j], first);
    }
    LookedUpAt(grown, k);
    FirstManifestListed(run);
    ManifestMovesNoLine(run.assets, item);
  }

  lemma FirstManifestListed(run: RuntimeRun)
    requires Manifests(run) != []
    ensures ManifestListed(run.assets, Manifests(run)[0].asset.assetId)
  {
    var first := Manifests(run)[0];
    assert first in Manifests(run) && first in run.assets;
    var i :| 0 <= i < |run.assets| && run.assets[i] == first;
  }

  // A package that came with two manifests: the runtime replaced the first, and then a rename
  // outdated what it had written.

  function Captioned(id: AssetId, filename: string, predecessor: Option<AssetId>, creator: Option<Id>): RuntimeAsset {
    RuntimeAsset(Asset(id, 0, Role.Captions, filename, Sha256(CaptionText(0, None)), Working, predecessor,
                       if predecessor.Some? then Some(RenamedFrom) else None, creator), WorkingPath(id, filename))
  }

  function ManifestAsset(id: AssetId, filename: string, lines: seq<ManifestLine>, predecessor: Option<AssetId>,
                         creator: Option<Id>)
    : RuntimeAsset
  {
    RuntimeAsset(Asset(id, 0, Role.Manifest, filename, Sha256(ManifestText(lines)), Working, predecessor,
                       if predecessor.Some? then Some(DerivedFrom) else None, creator), WorkingPath(id, filename))
  }

  function TwoManifests(): seq<RuntimeAsset> {
    var captions := Captioned(WorkingAsset(0), "a.srt", None, None);
    [captions,
     ManifestAsset(WorkingAsset(1), "A", [], None, None),
     ManifestAsset(WorkingAsset(2), "B", [], None, None),
     ManifestAsset(ActionAsset(1), "SHA256SUMS", [LineOf(captions)], Some(WorkingAsset(1)), Some(1)),
     Captioned(ActionAsset(2), "b.srt", Some(WorkingAsset(0)), Some(2))]
  }

  lemma TwoManifestsLeaves()
    ensures var assets := TwoManifests();
            && !IsLeaf(assets, assets[0]) && !IsLeaf(assets, assets[1]) && IsLeaf(assets, assets[2])
              && IsLeaf(assets, assets[3])
            && IsLeaf(assets, assets[4])
  {
    var assets := TwoManifests();
    assert assets[3] in assets && assets[4] in assets;
    assert WorkingAsset(0) in Superseded(assets) && WorkingAsset(1) in Superseded(assets);
    assert forall item :: item in assets && item.asset.predecessor.Some? ==> item == assets[3] || item == assets[4];
  }

  lemma TwoManifestsEach()
    ensures forall i :: 0 <= i < |TwoManifests()| ==> AssetOk(TwoManifests()[i])
  {}

  lemma TwoManifestsOk()
    ensures AssetsOk(TwoManifests())
  {
    hide AssetOk, LineOf;
    TwoManifestsEach();
    var assets := TwoManifests();
    assert assets[..3][1] == assets[1] && assets[..4][0] == assets[0];
    assert Listed(assets[..3], WorkingAsset(1)) && Listed(assets[..4], WorkingAsset(0));
    assert forall i :: 0 <= i < |assets| && assets[i].asset.predecessor.Some? ==> i == 3 || i == 4;
  }

  lemma TwoManifestsStand(run: RuntimeRun)
    requires run.assets == TwoManifests()
    ensures RuntimeManifest(run) == Some(run.assets[3]) && Manifests(run) != [] && Manifests(run)[0] == run.assets[2]
  {
    hide IsMade, IsCurrentManifest, TwoManifests, RuntimeManifest, Manifests;
    TwoManifestsTell();
    ThirdAndFourth(run);
  }

  /** A made manifest fourth, and before it another current one third. */
  lemma ThirdAndFourth(run: RuntimeRun)
    requires |run.assets| == 5 && IsMade(run.assets, run.assets[3]) && IsCurrentManifest(run.assets, run.assets[2])
    requires !IsMade(run.assets, run.assets[0]) && !IsMade(run.assets, run.assets[1])
    requires !IsMade(run.assets, run.assets[2])
    requires !IsCurrentManifest(run.assets, run.assets[0]) && !IsCurrentManifest(run.assets, run.assets[1])
    ensures RuntimeManifest(run) == Some(run.assets[3]) && Manifests(run) != [] && Manifests(run)[0] == run.assets[2]
  {
    hide IsMade, IsCurrentManifest, RuntimeManifest, Manifests;
    LookedUpAt(run, 3);
    ReplacedAt(run, 2);
  }

  lemma TwoManifestsTell()
    ensures var assets := TwoManifests();
            && |assets| == 5 && IsMade(assets, assets[3]) && IsCurrentManifest(assets, assets[2])
            && !IsMade(assets, assets[0]) && !IsMade(assets, assets[1]) && !IsMade(assets, assets[2])
            && !IsCurrentManifest(assets, assets[0]) && !IsCurrentManifest(assets, assets[1])
  {
    hide IsLeaf, TwoManifests;
    TwoManifestsLeaves();
    TwoManifestsRoles();
  }

  lemma TwoManifestsRoles()
    ensures var assets := TwoManifests();
            && |assets| == 5 && assets[0].asset.role.Captions? && assets[1].asset.role.Manifest?
              && assets[2].asset.role.Manifest?
            && assets[2].asset.createdByAction.None? && assets[3].asset.role.Manifest?
              && assets[3].asset.createdByAction.Some?
  {}

  lemma {:induction false} LinesFrom(items: seq<RuntimeAsset>, line: ManifestLine)
    requires forall item :: item in items ==> LineOf(item) != line
    ensures line !in LinesOf(SortByName(items))
  {
    if items != [] {
      InsertedLines(items[0], SortByName(items[1..]), line);
      assert items[0] in items;
      LinesFrom(items[1..], line);
    }
  }

  lemma {:induction false} InsertedLines(item: RuntimeAsset, sorted: seq<RuntimeAsset>, line: ManifestLine)
    ensures line in LinesOf(InsertByName(item, sorted)) <==> line == LineOf(item) || line in LinesOf(sorted)
  {
    if sorted != [] && Constraints.StringLess(sorted[0].asset.filename, item.asset.filename) {
      InsertedLines(item, sorted[1..], line);
    }
  }

  lemma TwoManifestsOutdated(run: RuntimeRun)
    requires run.assets == TwoManifests()
    ensures ManifestLines(run.assets) != [LineOf(run.assets[0])]
  {
    TwoManifestsLeaves();
    hide IsLeaf;
    var outdated := LineOf(run.assets[0]);
    forall item | item in ListedLeaves(run.assets) ensures LineOf(item) != outdated {
      var i :| 0 <= i < |run.assets| && run.assets[i] == item;
    }
    LinesFrom(ListedLeaves(run.assets), outdated);
  }

  /** The next rewrite replaces the package's other manifest, and what the runtime looks up from
      then on is its first one: intact, current, and listing a file that is no leaf. */
  lemma TwoManifestsDiverge(run: RuntimeRun, requirementId: Id, files: Files)
    requires run.assets == TwoManifests() && run.runId == 0 && Intact(run.assets[3], files)
    ensures var option := ManifestOption(0, requirementId, 0);
            Describe(3, option, run).Some? &&
            var grown := WithAsset(run, Successor(3, run, Describe(3, option, run).value,
              ManifestText(ManifestLines(run.assets))));
            && RuntimeManifest(grown) == Some(run.assets[3]) && Intact(RuntimeManifest(grown).value, files)
            && !ListsLeaves(RuntimeManifest(grown).value, grown, files)
  {
    hide ManifestLines, IsLeaf, Manifests, RuntimeManifest;
    var option := ManifestOption(0, requirementId, 0);
    TwoManifestsStand(run);
    TwoManifestsOk();
    TwoManifestsOutdated(run);
    var output := ManifestText(ManifestLines(run.assets));
    ManifestDescribed(3, option, run);
    TwoManifestsNamed(run);
    hide TwoManifests, Describe, AssetsOk, ManifestOption;
    SuccessorExtends(3, option, run, output);
    OtherManifestGoesStale(3, option, run, output, files);
  }

  lemma TwoManifestsNamed(run: RuntimeRun)
    requires run.assets == TwoManifests()
    ensures run.assets[2] != run.assets[3] && IsRuntimeManifest(run.assets[3])
    ensures run.assets[3].asset.sha256 == Sha256(ManifestText([LineOf(run.assets[0])]))
    ensures FindCreated(run.assets, 3).None?
  {}

  lemma ManifestDescribed(a: Id, option: RemediationOption, run: RuntimeRun)
    requires option.tool.WriteChecksumManifest? && option.arguments.ManifestInput?
      && option.arguments.format == "sha256sums"
    ensures Describe(a, option, run).Some?
  {}

  // ------------------------------------------------------------ a renamed copy

  /** When the last event completes an action, no change was completed after it. */
  lemma {:induction false} LastIsSkipped(events: seq<LedgerEvent>, a: Id)
    requires Chain(events) && events != []
    requires events[|events| - 1].payload.ActionCompleted? && events[|events| - 1].payload.actionId == a
    ensures CompletionSeq(events, a) == Some(|events|) && ChangedSeq(events, events) <= |events|
  {
    hide CompletesChange;
    ChangedIsChange(events, events);
    assert forall i :: 0 <= i < |events| ==> Acceptable(events[..i], events[i]);
  }

  /** Captions, a manifest that lists them, then a renamed copy of each. */
  function RenamedTogether(): seq<RuntimeAsset> {
    var captions := Captioned(WorkingAsset(0), "a.srt", None, None);
    var manifest := ManifestAsset(ActionAsset(1), "SHA256SUMS", [LineOf(captions)], None, Some(1));
    var copy := ManifestAsset(ActionAsset(3), "MANIFEST", [LineOf(captions)], Some(ActionAsset(1)), Some(3));
    [captions, manifest, Captioned(ActionAsset(2), "b.srt", Some(WorkingAsset(0)), Some(2)),
     copy.(asset := copy.asset.(relation := Some(RenamedFrom)))]
  }

  lemma RenamedTogetherLeaves()
    ensures var assets := RenamedTogether();
            && !IsLeaf(assets, assets[0]) && !IsLeaf(assets, assets[1]) && IsLeaf(assets, assets[2])
            && IsLeaf(assets, assets[3])
  {
    var assets := RenamedTogether();
    assert assets[2] in assets && assets[3] in assets;
    assert WorkingAsset(0) in Superseded(assets) && ActionAsset(1) in Superseded(assets);
    assert forall item :: item in assets && item.asset.predecessor.Some? ==> item == assets[2] || item == assets[3];
  }

  lemma RenamedTogetherOk()
    ensures AssetsOk(RenamedTogether())
  {
    hide AssetOk, LineOf;
    RenamedTogetherEach();
    var assets := RenamedTogether();
    assert assets[..2][0] == assets[0] && assets[..3][1] == assets[1];
    assert Listed(assets[..2], WorkingAsset(0)) && Listed(assets[..3], ActionAsset(1));
    assert forall i :: 0 <= i < |assets| && assets[i].asset.predecessor.Some? ==> i == 2 || i == 3;
  }

  lemma RenamedTogetherMade()
    ensures MadeCurrentAt(RenamedTogether(), 1)
  {
    hide ManifestLines, ManifestListed;
    var assets := RenamedTogether();
    FirstListed(assets[0]);
    assert assets[..1] == [assets[0]];
  }

  lemma FirstListed(item: RuntimeAsset)
    requires !item.asset.role.Manifest? && item.asset.predecessor.None? && !item.asset.protection.Original?
    ensures ManifestLines([item]) == [LineOf(item)]
  {
    assert Superseded([item]) == {};
    assert IsLeaf([item], item) && [] + [item] == [item];
    SelectAppend([], item, (other: RuntimeAsset) => IsLeaf([item], other) && !other.asset.role.Manifest?);
    assert ListedLeaves([item]) == [item];
    assert [item][1..] == [] && SortByName([item]) == [item];
    assert LinesOf([item]) == [LineOf(item)] + LinesOf([]);
  }

  lemma RenamedTogetherEach()
    ensures forall i :: 0 <= i < |RenamedTogether()| ==> AssetOk(RenamedTogether()[i])
  {}

  lemma RenamedTogetherOutdated(run: RuntimeRun)
    requires run.assets == RenamedTogether()
    ensures ManifestLines(run.assets) != [LineOf(run.assets[0])]
  {
    RenamedTogetherLeaves();
    hide IsLeaf;
    var outdated := LineOf(run.assets[0]);
    forall item | item in ListedLeaves(run.assets) ensures LineOf(item) != outdated {
      var i :| 0 <= i < |run.assets| && run.assets[i] == item;
    }
    LinesFrom(ListedLeaves(run.assets), outdated);
  }

  /** The run where a renamed copy is out of date and left so. One batch renames the captions and
      then the manifest, which was current; the manifest's rename is the last change, the rewrite
      is skipped, and the copy that is looked up from then on lists a file that is no leaf. */
  lemma {:induction false} RenamedCopyGoesStale(run: RuntimeRun, events: seq<LedgerEvent>, files: Files)
    requires run.assets == RenamedTogether() && Intact(run.assets[3], files)
    requires Chain(events) && events != []
    requires events[|events| - 1].payload.ActionCompleted? && events[|events| - 1].payload.actionId == 3
    ensures AssetsOk(run.assets) && MadeCurrentAt(run.assets, 1)
    ensures RuntimeManifest(run) == Some(run.assets[3])
    ensures CompletionSeq(events, 3).Some? && ChangedSeq(events, events) <= CompletionSeq(events, 3).value
    ensures !ListsLeaves(run.assets[3], run, files)
  {
    hide ManifestLines, IsLeaf, RuntimeManifest, Chain, CompletionSeq, ChangedSeq, AssetsOk, RenamedTogether;
    LastIsSkipped(events, 3);
    RenamedTogetherOk();
    RenamedTogetherMade();
    RenamedTogetherOutdated(run);
    CopyLookedUp(run);
  }

  lemma CopyLookedUp(run: RuntimeRun)
    requires run.assets == RenamedTogether()
    ensures |run.assets| == 4 && RuntimeManifest(run) == Some(run.assets[3])
    ensures run.assets[3].asset.sha256 == Sha256(ManifestText([LineOf(run.assets[0])]))
  {
    RenamedTogetherLeaves();
    hide IsLeaf, RuntimeManifest;
    LookedUpAt(run, 3);
  }
}
