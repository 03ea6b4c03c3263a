/** What holds of a run's durable state between any two steps of the orchestrator, and why
    every durable step keeps it. */
module Steadiness {
  import opened Domain
  import opened Sequences
  import opened Ledger
  import opened Constraints
  import opened Terminal
  import opened Records
  import opened StateMachine
  import opened Store
  import opened Protocol
  import opened Remediation
  import opened Executor
  import opened Lifecycle

  // ------------------------------------------------------------ the run record

  predicate Offers(findings: seq<RuntimeFinding>, option: RemediationOption) {
    exists i :: 0 <= i < |findings| && option in findings[i].options
  }

  lemma {:induction false} AllOptionsMeaning(findings: seq<RuntimeFinding>, option: RemediationOption)
    ensures option in AllOptions(findings) <==> Offers(findings, option)
  {
    if findings != [] {
      AllOptionsMeaning(findings[1..], option);
      if Offers(findings[1..], option) {
        var i :| 0 <= i < |findings[1..]| && option in findings[1..][i].options;
        assert findings[i + 1] == findings[1..][i];
      }
      if Offers(findings, option) && option !in findings[0].options {
        var i :| 0 <= i < |findings| && option in findings[i].options;
        assert findings[1..][i - 1] == findings[i];
      }
    }
  }

  /** Every option is in order, belongs to the finding it is filed under, and is the only one
      of its name. */
  predicate OptionsOk(run: RuntimeRun) {
    && (forall i, option :: 0 <= i < |run.findings| && option in run.findings[i].options ==>
          OptionOk(option, run) && option.findingId == run.findings[i].findingId)
    && (forall i, j, option, other ::
          && 0 <= i < |run.findings| && 0 <= j < |run.findings|
          && option in run.findings[i].options && other in run.findings[j].options
          && option.optionId == other.optionId ==>
            option == other)
  }

  /** A finding is named after its requirement and the cycle it was opened in. */
  predicate FindingsNamed(findings: seq<RuntimeFinding>) {
    forall i :: 0 <= i < |findings| ==>
      findings[i].findingId.requirementId == findings[i].requirementId
        && findings[i].findingId.cycle == findings[i].cycleOpened
  }

  /** Of the findings of one name the closed ones come first. */
  predicate ClosedFirst(findings: seq<RuntimeFinding>) {
    forall i, j :: 0 <= j < i < |findings| && findings[j].findingId == findings[i].findingId ==>
      !findings[i].status.Open? ==> !findings[j].status.Open?
  }

  /** `dict(original_hashes)[id]`. */
  function LookupHash(hashes: seq<(AssetId, Digest)>, id: AssetId): Option<Digest> {
    if hashes == [] then None
    else if hashes[|hashes| - 1].0 == id then Some(hashes[|hashes| - 1].1)
    else LookupHash(hashes[..|hashes| - 1], id)
  }

  /** The ledger of original hashes agrees with the records of the originals. */
  predicate HashesOk(run: RuntimeRun) {
    && (forall i :: 0 <= i < |run.assets| && run.assets[i].asset.protection.Original? ==>
          LookupHash(run.originalHashes, run.assets[i].asset.assetId) == Some(run.assets[i].asset.sha256))
    && (forall i :: 0 <= i < |run.assets| ==> Belongs(run.assets[i].asset, run.runId))
    && DeclaresOriginals(run)
  }

  /** Every entry of the ledger of original hashes is for an original, and none comes twice. */
  predicate DeclaresOriginals(run: RuntimeRun) {
    && (forall k :: 0 <= k < |run.originalHashes| ==> HasOriginal(run.assets, run.originalHashes[k].0))
    && (forall k, n :: 0 <= k < n < |run.originalHashes| ==> run.originalHashes[k].0 != run.originalHashes[n].0)
  }

  predicate HasOriginal(assets: seq<RuntimeAsset>, id: AssetId) {
    exists i :: 0 <= i < |assets| && assets[i].asset.assetId == id && assets[i].asset.protection.Original?
  }

  /** `RuntimeRun.validate_record`, and the lineage check of every asset in it. */
  predicate ValidRecord(run: RuntimeRun) {
    && (forall i, j :: 0 <= i < j < |run.assets| ==> run.assets[i].asset.assetId != run.assets[j].asset.assetId)
    && (forall i :: 0 <= i < |run.assets| ==>
          var asset := run.assets[i].asset;
          && asset.runId == run.runId && (asset.predecessor.None? <==> asset.relation.None?)
          && (asset.protection.Original? ==>
            asset.predecessor.None? && asset.relation.None? && asset.createdByAction.None?)
          && (asset.protection.Original? ==>
            exists k :: 0 <= k < |run.originalHashes| && run.originalHashes[k].0 == asset.assetId))
    && DeclaresOriginals(run)
  }

  lemma {:induction false} LookupIsEntry(hashes: seq<(AssetId, Digest)>, id: AssetId) returns (k: nat)
    requires LookupHash(hashes, id).Some?
    ensures k < |hashes| && hashes[k].0 == id
  {
    if hashes[|hashes| - 1].0 == id {
      k := |hashes| - 1;
    } else {
      k := LookupIsEntry(hashes[..|hashes| - 1], id);
    }
  }

  /** Whatever updates the runtime made to it, the saved record of a steady run passes its own
      validation, so it can be read back. */
  lemma SavedRecordIsValid(lex: Lexicon, d: Disk, files: Files, runId: Id)
    requires Steady(lex, d, files, runId)
    ensures runId in d.runs && ValidRecord(d.runs[runId])
  {
    hide LookupHash, StatusOk, BackedOk, DecisionsOk, OptionsOk, FindingsNamed, MeasuresOk, CaptionTargetKnown,
         DeclaresOriginals;
    var run := d.runs[runId];
    forall i | 0 <= i < |run.assets|
      ensures AssetOk(run.assets[i])
      ensures run.assets[i].asset.protection.Original? ==>
                exists k :: 0 <= k < |run.originalHashes| && run.originalHashes[k].0 == run.assets[i].asset.assetId
    {
      if run.assets[i].asset.protection.Original? {
        var k := LookupIsEntry(run.originalHashes, run.assets[i].asset.assetId);
      }
    }
  }

  /** `_originals_intact`. */
  predicate OriginalsIntact(run: RuntimeRun, files: Files) {
    forall i :: 0 <= i < |run.assets| && run.assets[i].asset.protection.Original? ==>
      && run.assets[i].path in files
      && LookupHash(run.originalHashes, run.assets[i].asset.assetId) == Some(Sha256(files[run.assets[i].path]))
  }

  predicate RunOk(run: RuntimeRun) {
    && OptionsOk(run) && FindingsNamed(run.findings) && ClosedFirst(run.findings) && HashesOk(run) && MeasuresOk(run)
    && (forall i :: 0 <= i < |run.requirements| ==> CaptionTargetKnown(run.requirements[i]))
    && (exists i :: 0 <= i < |run.assets| && !run.assets[i].asset.protection.Original?)
  }

  /** Nothing in the record is of a later cycle. */
  predicate UpTo(run: RuntimeRun, cycle: nat) {
    && (forall i :: 0 <= i < |run.findings| ==> run.findings[i].cycleOpened <= cycle)
    && (forall i :: 0 <= i < |run.measurements| ==> run.measurements[i].cycle <= cycle)
  }

  predicate Inspected(status: RunStatus) {
    status.FindingsReady? || status.AwaitingHumanDecision? || status.Remediating? || status.DeliveryReady?
  }

  /** No closed finding comes before an open one of the same name. */
  predicate Unshadowed(findings: seq<RuntimeFinding>) {
    forall i, j :: 0 <= j < i < |findings| && findings[j].findingId == findings[i].findingId ==>
      findings[i].status.Open? ==> findings[j].status.Open?
  }

  /** An option is aimed at a current asset, or at none. */
  predicate Aimed(run: RuntimeRun, option: RemediationOption) {
    InputAsset(option.arguments).Some? ==>
      exists item :: item in CurrentAssets(run) && item.asset.assetId == InputAsset(option.arguments).value
  }

  /** What lets every open option be taken up: the open findings are those of this cycle's
      inspection, none hides behind a closed one, and their options are aimed at current
      assets. */
  predicate Selectable(run: RuntimeRun, cycle: nat) {
    && Unshadowed(run.findings)
    && (forall i :: 0 <= i < |run.findings| ==>
          && (run.findings[i].status.Open? ==> run.findings[i].cycleOpened == cycle)
          && (run.findings[i].findingId.invalidation ==> run.findings[i].cycleOpened < cycle))
    && (forall i, option ::
      0 <= i < |run.findings| && run.findings[i].status.Open? && option in run.findings[i].options ==>
          Aimed(run, option))
  }

  predicate StatusOk(lex: Lexicon, s: RunStateSnapshot, run: RuntimeRun, events: seq<LedgerEvent>) {
    && Sound(s)
    && (!s.status.Remediating? ==> NoneOpen(events))
    && (s.status.Remediating? || s.status.AwaitingHumanDecision? ==> s.cycle < MAX_CYCLES)
    && UpTo(run, s.cycle)
    && (Inspected(s.status) ==> Fresh(run.measurements, s.cycle))
    && (s.status.FindingsReady? || s.status.AwaitingHumanDecision? ==> Selectable(run, s.cycle))
    && (s.terminalVerdict.Some? ==> s.terminalVerdict == Compute(TerminalOf(lex, run, s.cycle, true)))
  }

  /** The runtime's manifest is up to date whenever no remediation is under way. */
  predicate ManifestOk(status: RunStatus, run: RuntimeRun, files: Files) {
    status.Remediating? || status.Failed? || ManifestKept(run, files)
  }

  // ------------------------------------------------------------ human approval

  predicate HumanActor(actor: string) { "human:" <= actor }

  /** A human approved this decision, and it was about this option. */
  predicate ApprovedIn(run: RuntimeRun, decisionId: Id, optionId: OptionId) {
    && (exists i :: 0 <= i < |run.decisions| && run.decisions[i].decisionId == decisionId && run.decisions[i].approved
          && HumanActor(run.decisions[i].actor))
    && (exists j :: 0 <= j < |run.decisionRequests| && run.decisionRequests[j].decisionId == decisionId
          && run.decisionRequests[j].optionId == optionId && run.decisionRequests[j].status.Approved?)
  }

  predicate Spends(event: LedgerEvent, authorizations: map<Id, Authorization>) {
    event.payload.ActionStarted? && event.payload.authorizationId.Some?
      && event.payload.authorizationId.value in authorizations
  }

  function SpentOn(event: LedgerEvent, authorizations: map<Id, Authorization>): Authorization
    requires Spends(event, authorizations)
  {
    authorizations[event.payload.authorizationId.value]
  }

  predicate SameDecision(event: LedgerEvent, other: LedgerEvent, authorizations: map<Id, Authorization>) {
    && Spends(event, authorizations) && Spends(other, authorizations)
    && SpentOn(event, authorizations).decisionId == SpentOn(other, authorizations).decisionId
  }

  /** Every start that carries an authorization was approved by a human for that option, and
      no decision backs two starts. */
  predicate BackedOk(events: seq<LedgerEvent>, authorizations: map<Id, Authorization>, run: RuntimeRun) {
    && (forall i :: 0 <= i < |events| && Spends(events[i], authorizations) ==>
          ApprovedIn(run, SpentOn(events[i], authorizations).decisionId, SpentOn(events[i], authorizations).optionId))
    && (forall i, j :: 0 <= i < |events| && 0 <= j < |events| && SameDecision(events[i], events[j], authorizations) ==>
      i == j)
  }

  predicate Unspent(events: seq<LedgerEvent>, authorizations: map<Id, Authorization>, decisionId: Id) {
    forall i :: 0 <= i < |events| && Spends(events[i], authorizations) ==>
      SpentOn(events[i], authorizations).decisionId != decisionId
  }

  predicate SameRequest(one: DecisionRequest, other: DecisionRequest) {
    one == other.(status := one.status)
  }

  /** The request a snapshot waits for is in the run's record, and while it is undecided the
      option it is about is still offered and is the one the snapshot names. */
  predicate Awaits(s: RunStateSnapshot, request: DecisionRequest, run: RuntimeRun) {
    && request.runId == s.runId
    && (exists j :: 0 <= j < |run.decisionRequests| && SameRequest(run.decisionRequests[j], request))
    && (request.status.Pending? ==>
          exists i, k :: 0 <= i < |run.findings| && 0 <= k < |run.findings[i].options| && run.findings[i].status.Open?
            && AsksFor(s, request, run.findings[i].options[k]))
  }

  predicate AsksFor(s: RunStateSnapshot, request: DecisionRequest, option: RemediationOption) {
    && option.tier == 2
    && option.optionId == request.optionId && option.findingId == request.findingId
    && s.pendingOption == Some(OptionBinding(s.runId, option.findingId, option.optionId, option.argsHash, option.tier))
  }

  /** The record holds an option of that name with those arguments. */
  predicate HoldsOption(run: RuntimeRun, optionId: OptionId, argsHash: ArgsHash) {
    exists i, k :: 0 <= i < |run.findings| && 0 <= k < |run.findings[i].options|
      && run.findings[i].options[k].optionId == optionId && run.findings[i].options[k].argsHash == argsHash
  }

  /** An inspection of an earlier cycle offered the option, or of this one while its remediation
      is under way. */
  predicate Past(optionId: OptionId, s: RunStateSnapshot) {
    && !optionId.findingId.invalidation
    && (optionId.findingId.cycle < s.cycle || (optionId.findingId.cycle == s.cycle
      && (s.status.Remediating? || s.status.Failed?)))
  }

  /** An authorization is for an option of the record, and for its very arguments. */
  predicate Granted(authorization: Authorization, run: RuntimeRun, s: RunStateSnapshot) {
    HoldsOption(run, authorization.optionId, authorization.argsHash) && Past(authorization.optionId, s)
  }

  predicate GrantsOk(events: seq<LedgerEvent>, authorizations: map<Id, Authorization>, run: RuntimeRun,
                     s: RunStateSnapshot)
  {
    forall i :: 0 <= i < |events| && Spends(events[i], authorizations) ==>
      Granted(SpentOn(events[i], authorizations), run, s)
  }

  /** Requests are filed under their names, authorizations come from stored requests, those
      that were spent are for options of the record, and the one being decided has backed no
      start. */
  predicate DecisionsOk(d: Disk, s: RunStateSnapshot, events: seq<LedgerEvent>) {
    && (forall id :: id in d.decisions ==> d.decisions[id].decisionId == id)
    && (forall id :: id in d.authorizations ==> d.authorizations[id].decisionId in d.decisions)
    && s.runId in d.runs && GrantsOk(events, d.authorizations, d.runs[s.runId], s)
    && (s.pendingDecisionId.Some? ==>
          && s.pendingDecisionId.value in d.decisions
          && Unspent(events, d.authorizations, s.pendingDecisionId.value)
          && Awaits(s, d.decisions[s.pendingDecisionId.value], d.runs[s.runId]))
  }

  // ------------------------------------------------------------ the invariant

  ghost predicate Steady(lex: Lexicon, d: Disk, files: Files, runId: Id) {
    && Settled(d) && Good(d, files, runId)
    && runId in d.snapshots && d.snapshots[runId].runId == runId
    && RunOk(d.runs[runId])
    && StatusOk(lex, d.snapshots[runId], d.runs[runId], Events(d, runId))
    && BackedOk(Events(d, runId), d.authorizations, d.runs[runId])
    && DecisionsOk(d, d.snapshots[runId], Events(d, runId))
    && ManifestOk(d.snapshots[runId].status, d.runs[runId], files)
  }

  /** A record that may take the place of the run's. */
  predicate Savable(lex: Lexicon, d: Disk, files: Files, s: RunStateSnapshot, updated: RuntimeRun) {
    && s.runId in d.runs && updated.runId == s.runId && updated.assets == d.runs[s.runId].assets
    && NoneOpen(Events(d, s.runId))
    && RunOk(updated) && StatusOk(lex, s, updated, Events(d, s.runId))
    && BackedOk(Events(d, s.runId), d.authorizations, updated)
    && DecisionsOk(d.(runs := d.runs[s.runId := updated]), s, Events(d, s.runId))
    && ManifestOk(s.status, updated, files)
  }

  /** The originals hash as recorded, always. */
  lemma OriginalsStayIntact(d: Disk, files: Files, runId: Id)
    requires Good(d, files, runId) && RunOk(d.runs[runId])
    ensures OriginalsIntact(d.runs[runId], files)
  {
    var run := d.runs[runId];
    forall i | 0 <= i < |run.assets| && run.assets[i].asset.protection.Original?
      ensures run.assets[i].path in files
      ensures LookupHash(run.originalHashes, run.assets[i].asset.assetId) == Some(Sha256(files[run.assets[i].path]))
    {
      assert AssetOk(run.assets[i]) && RecordedOk(Events(d, runId), run.assets[i], files);
    }
  }

  // ------------------------------------------------------------ steps keep it

  /** Files of the lifecycle only: the ledgers and the run stay as they are. */
  lemma SettledByLifecycle(d: Disk, after: Disk)
    requires Settled(d)
    requires after == d.(runs := after.runs, decisions := after.decisions, authorizations := after.authorizations)
    ensures Settled(after)
  {
    forall id ensures LedgerOk(after, id) && SnapshotAgrees(after, id) {
      assert LedgerOk(d, id) && SnapshotAgrees(d, id);
      assert Events(after, id) == Events(d, id);
    }
  }

  lemma SavedGood(d: Disk, files: Files, runId: Id, updated: RuntimeRun)
    requires Good(d, files, runId) && NoneOpen(Events(d, runId))
    requires updated.runId == runId && updated.assets == d.runs[runId].assets
    ensures Good(d.(runs := d.runs[runId := updated]), files, runId)
  {
    var after := d.(runs := d.runs[runId := updated]);
    assert Events(after, runId) == Events(d, runId);
    UpdateKeeps(Events(d, runId), d.runs[runId], files, updated);
  }

  /** Saving a run whose assets are the same, while no action is open. */
  lemma SavedSteady(lex: Lexicon, d: Disk, files: Files, runId: Id, updated: RuntimeRun)
    requires Steady(lex, d, files, runId) && Savable(lex, d, files, d.snapshots[runId], updated)
    ensures Steady(lex, d.(runs := d.runs[runId := updated]), files, runId)
  {
    hide Good, Settled, RunOk, StatusOk, BackedOk, DecisionsOk, ManifestOk, NoneOpen;
    SavedGood(d, files, runId, updated);
    SettledByLifecycle(d, d.(runs := d.runs[runId := updated]));
  }

  lemma CommittedGood(d: Disk, files: Files, snapshot: RunStateSnapshot, event: LedgerEvent)
    requires Settled(d) && Good(d, files, event.runId) && CommitOk(d, snapshot, event)
    ensures Good(Committed(d, snapshot, event), files, event.runId)
    ensures Events(Committed(d, snapshot, event), event.runId) == Events(d, event.runId) + [event]
  {
    var after := Committed(d, snapshot, event);
    CommittedIsSettled(d, snapshot, event);
    assert LedgerOk(after, event.runId);
    TransitionKeeps(Events(d, event.runId), d.runs[event.runId], files, event);
    AuthorityAppend(Events(d, event.runId), d.authorizations, event);
  }

  lemma TransitionUnspent(events: seq<LedgerEvent>, authorizations: map<Id, Authorization>, run: RuntimeRun,
                          event: LedgerEvent)
    requires BackedOk(events, authorizations, run) && event.payload.StateTransition?
    ensures BackedOk(events + [event], authorizations, run)
    ensures forall id :: Unspent(events, authorizations, id) ==> Unspent(events + [event], authorizations, id)
    ensures forall s :: GrantsOk(events, authorizations, run, s) ==> GrantsOk(events + [event], authorizations, run, s)
  {
    hide ApprovedIn, Granted;
    var after := events + [event];
    forall i | 0 <= i < |after| && Spends(after[i], authorizations) ensures i < |events| && after[i] == events[i] {}
  }

  /** A committed transition into a status whose conditions hold. */
  lemma CommittedSteady(lex: Lexicon, d: Disk, files: Files, snapshot: RunStateSnapshot, event: LedgerEvent)
    requires Steady(lex, d, files, event.runId) && CommitOk(d, snapshot, event)
    requires StatusOk(lex, snapshot, d.runs[event.runId], Events(d, event.runId) + [event])
    requires DecisionsOk(d, snapshot, Events(d, event.runId) + [event])
    requires ManifestOk(snapshot.status, d.runs[event.runId], files)
    ensures Steady(lex, Committed(d, snapshot, event), files, event.runId)
  {
    hide Good, Settled, RunOk, StatusOk, BackedOk, DecisionsOk, ManifestOk;
    CommittedIsSettled(d, snapshot, event);
    CommittedGood(d, files, snapshot, event);
    TransitionUnspent(Events(d, event.runId), d.authorizations, d.runs[event.runId], event);
    assert DecisionsOk(Committed(d, snapshot, event), snapshot, Events(d, event.runId) + [event]) by {
      DecisionsByFiles(d, Committed(d, snapshot, event), snapshot, Events(d, event.runId) + [event]);
    }
  }

  lemma DecisionsByFiles(d: Disk, after: Disk, s: RunStateSnapshot, events: seq<LedgerEvent>)
    requires DecisionsOk(d, s, events) && after.decisions == d.decisions && after.authorizations == d.authorizations
    requires after.runs == d.runs
    ensures DecisionsOk(after, s, events)
  {}

  /** The starter's authorization is a human's approval of its option and its arguments, and
      unused. */
  predicate StarterBacked(d: Disk, run: RuntimeRun, events: seq<LedgerEvent>, starter: Option<Action>) {
    starter.Some? && starter.value.authorizationId.Some? && starter.value.authorizationId.value in d.authorizations ==>
      var authorization := d.authorizations[starter.value.authorizationId.value];
      && ApprovedIn(run, authorization.decisionId, authorization.optionId)
      && Unspent(events, d.authorizations, authorization.decisionId)
      && run.runId in d.snapshots && Granted(authorization, run, d.snapshots[run.runId])
  }

  /** What an action leaves: its own start at most is new, and that was granted. */
  lemma FollowsGranted(before: seq<LedgerEvent>, after: seq<LedgerEvent>, run: RuntimeRun, grown: RuntimeRun,
                       earlier: map<Id, Authorization>, later: map<Id, Authorization>, starter: Option<Action>,
                       s: RunStateSnapshot)
    requires GrantsOk(before, earlier, run, s) && Follows(before, after, starter) && SameBindings(earlier, later)
      && Grown(run, grown)
    requires starter.Some? && starter.value.authorizationId.Some? && starter.value.authorizationId.value in earlier ==>
               Granted(earlier[starter.value.authorizationId.value], run, s)
    ensures GrantsOk(after, later, grown, s)
  {
    forall i | 0 <= i < |after| && Spends(after[i], later) ensures Granted(SpentOn(after[i], later), grown, s) {
      if i < |before| {
        assert after[i] == before[i];
      }
      assert Granted(SpentOn(after[i], earlier), run, s);
    }
  }

  lemma FollowsBacked(before: seq<LedgerEvent>, after: seq<LedgerEvent>, run: RuntimeRun, grown: RuntimeRun,
                      earlier: map<Id, Authorization>, later: map<Id, Authorization>, starter: Option<Action>)
    requires BackedOk(before, earlier, run) && Follows(before, after, starter) && SameBindings(earlier, later)
      && Once(after)
    requires Grown(run, grown)
    requires starter.Some? && starter.value.authorizationId.Some? && starter.value.authorizationId.value in earlier ==>
               var authorization := earlier[starter.value.authorizationId.value];
               && ApprovedIn(run, authorization.decisionId, authorization.optionId)
               && Unspent(before, earlier, authorization.decisionId)
    ensures BackedOk(after, later, grown)
  {
    forall i | 0 <= i < |after| && Spends(after[i], later)
      ensures Spends(after[i], earlier)
      ensures SpentOn(after[i], later).decisionId == SpentOn(after[i], earlier).decisionId
      ensures SpentOn(after[i], later).optionId == SpentOn(after[i], earlier).optionId
      ensures ApprovedIn(grown, SpentOn(after[i], later).decisionId, SpentOn(after[i], later).optionId)
    {
      if i < |before| {
        assert after[i] == before[i];
      }
      assert ApprovedIn(run, SpentOn(after[i], earlier).decisionId, SpentOn(after[i], earlier).optionId);
    }
    forall i, j | 0 <= i < |after| && 0 <= j < |after| && SameDecision(after[i], after[j], later) ensures i == j {
      assert i < |before| ==> after[i] == before[i];
      assert j < |before| ==> after[j] == before[j];
      if i < |before| && j < |before| {
        assert SameDecision(before[i], before[j], earlier);
      } else {
        assert i >= |before| && j >= |before|;
        assert StartCount(after, after[i].payload.actionId) <= 1;
        OneStart(after, i, j);
      }
    }
  }

  lemma GrownOptionsOk(run: RuntimeRun, grown: RuntimeRun)
    requires OptionsOk(run) && Grown(run, grown)
    ensures OptionsOk(grown)
  {
    hide OptionOk;
    forall i, option | 0 <= i < |grown.findings| && option in grown.findings[i].options
      ensures OptionOk(option, grown) && option.findingId == grown.findings[i].findingId
    {
      OptionOkGrown(option, run, grown);
    }
  }

  lemma GrownHashesOk(run: RuntimeRun, grown: RuntimeRun)
    requires HashesOk(run) && Grown(run, grown) && AssetsOk(grown.assets)
    ensures HashesOk(grown)
  {
    hide LookupHash, Belongs;
    forall i | 0 <= i < |grown.assets| ensures Belongs(grown.assets[i].asset, grown.runId) {
      assert i < |run.assets| ==> run.assets[i] == grown.assets[i];
    }
    forall k | 0 <= k < |grown.originalHashes| ensures HasOriginal(grown.assets, grown.originalHashes[k].0) {
      var i :| 0 <= i < |run.assets| && run.assets[i].asset.assetId == run.originalHashes[k].0
        && run.assets[i].asset.protection.Original?;
      assert grown.assets[i] == run.assets[i];
    }
    forall i | 0 <= i < |grown.assets| && grown.assets[i].asset.protection.Original?
      ensures LookupHash(grown.originalHashes, grown.assets[i].asset.assetId) == Some(grown.assets[i].asset.sha256)
    {
      assert AssetOk(grown.assets[i]);
      assert run.assets[i] == grown.assets[i];
    }
  }

  lemma GrownRunOk(run: RuntimeRun, grown: RuntimeRun)
    requires RunOk(run) && Grown(run, grown) && AssetsOk(grown.assets)
    ensures RunOk(grown)
  {
    hide OptionsOk, HashesOk, AssetsOk, FindRequirement, CaptionTargetKnown;
    GrownOptionsOk(run, grown);
    GrownHashesOk(run, grown);
    var i :| 0 <= i < |run.assets| && !run.assets[i].asset.protection.Original?;
    assert grown.assets[i] == run.assets[i];
  }

  lemma GrownStatusOk(lex: Lexicon, s: RunStateSnapshot, run: RuntimeRun, grown: RuntimeRun, events: seq<LedgerEvent>,
                      later: seq<LedgerEvent>)
    requires StatusOk(lex, s, run, events) && s.status.Remediating? && Grown(run, grown)
    ensures StatusOk(lex, s, grown, later)
  {}

  /** Whatever an execution or a recovery leaves, cut short or not, while remediating. */
  lemma FramedSteady(lex: Lexicon, d: Disk, files: Files, after: Disk, now: Files, runId: Id, starter: Option<Action>)
    requires Steady(lex, d, files, runId) && d.snapshots[runId].status.Remediating?
    requires Framed(d, after, runId, starter) && Good(after, now, runId) && GrownOn(d, after, runId)
    requires StarterBacked(d, d.runs[runId], Events(d, runId), starter)
    ensures Steady(lex, after, now, runId)
  {
    hide Good, Settled, Spends, SpentOn, ApprovedIn, Unspent, RunOk, BackedOk, Follows, StatusOk, Grown, Events,
         AssetsOk, Once, Awaits, GrantsOk, Granted, SameBindings, ManifestKept;
    FramedSettled(d, after, now, runId, starter);
    GoodAssets(after, now, runId);
    GoodOnce(d, files, runId);
    GoodOnce(after, now, runId);
    GrownRunOk(d.runs[runId], after.runs[runId]);
    GrownStatusOk(lex, d.snapshots[runId], d.runs[runId], after.runs[runId], Events(d, runId), Events(after, runId));
    NothingPending(lex, d.snapshots[runId], d.runs[runId], Events(d, runId));
    SameNames(d.authorizations, after.authorizations);
    FollowsBacked(Events(d, runId), Events(after, runId), d.runs[runId], after.runs[runId], d.authorizations,
                  after.authorizations, starter);
    FollowsGranted(Events(d, runId), Events(after, runId), d.runs[runId], after.runs[runId], d.authorizations,
                   after.authorizations, starter, d.snapshots[runId]);
  }

  lemma SameNames(before: map<Id, Authorization>, after: map<Id, Authorization>)
    requires SameBindings(before, after)
    ensures forall id :: id in after <==> id in before
    ensures forall id :: id in after ==> after[id].decisionId == before[id].decisionId
  {
    assert before.Keys == after.Keys;
  }

  lemma NothingPending(lex: Lexicon, s: RunStateSnapshot, run: RuntimeRun, events: seq<LedgerEvent>)
    requires StatusOk(lex, s, run, events)
    ensures s.pendingDecisionId.Some? <==> s.status.AwaitingHumanDecision?
  {}

  lemma GoodOnce(d: Disk, files: Files, runId: Id)
    requires Good(d, files, runId)
    ensures Once(Events(d, runId)) && runId in d.runs && d.runs[runId].runId == runId
  {}

  /** Storing or updating a decision request. */
  lemma DecisionSteady(lex: Lexicon, d: Disk, files: Files, runId: Id, request: DecisionRequest)
    requires Steady(lex, d, files, runId)
    requires d.snapshots[runId].pendingDecisionId == Some(request.decisionId) ==>
      Awaits(d.snapshots[runId], request, d.runs[runId])
    ensures Steady(lex, d.(decisions := d.decisions[request.decisionId := request]), files, runId)
  {
    hide Good, Settled, RunOk, StatusOk, BackedOk, DecisionsOk, Awaits, Events;
    var after := d.(decisions := d.decisions[request.decisionId := request]);
    SettledByLifecycle(d, after);
    GoodByFiles(d, after, files, runId);
    EventsByLedgers(d, after, runId);
    StoredDecision(d, d.snapshots[runId], Events(d, runId), request);
  }

  lemma EventsByLedgers(d: Disk, after: Disk, runId: Id)
    requires after.ledgers == d.ledgers
    ensures Events(after, runId) == Events(d, runId)
  {}

  lemma StoredDecision(d: Disk, s: RunStateSnapshot, events: seq<LedgerEvent>, request: DecisionRequest)
    requires DecisionsOk(d, s, events) && s.runId in d.runs
    requires s.pendingDecisionId == Some(request.decisionId) ==> Awaits(s, request, d.runs[s.runId])
    ensures DecisionsOk(d.(decisions := d.decisions[request.decisionId := request]), s, events)
  {
    hide Awaits, Unspent, GrantsOk;
  }

  /** With nothing to decide, any record will do that holds the options that were granted. */
  lemma NothingAwaited(d: Disk, s: RunStateSnapshot, next: RunStateSnapshot, events: seq<LedgerEvent>,
                       updated: RuntimeRun)
    requires DecisionsOk(d, s, events) && next.pendingDecisionId.None? && next.runId == s.runId
    requires GrantsOk(events, d.authorizations, updated, next)
    ensures DecisionsOk(d.(runs := d.runs[s.runId := updated]), next, events)
  {
    hide GrantsOk, Awaits, Unspent;
  }

  lemma GoodByFiles(d: Disk, after: Disk, files: Files, runId: Id)
    requires Good(d, files, runId)
    requires after == d.(decisions := after.decisions, snapshots := after.snapshots)
    ensures Good(after, files, runId)
  {
    assert Events(after, runId) == Events(d, runId);
  }

  /** Issuing an authorization under a new name, for a stored request. */
  lemma AuthorizationSteady(lex: Lexicon, d: Disk, files: Files, runId: Id, authorization: Authorization)
    requires Steady(lex, d, files, runId)
    requires authorization.authorizationId !in d.authorizations && authorization.decisionId in d.decisions
    ensures Steady(lex, d.(authorizations := d.authorizations[authorization.authorizationId := authorization]), files,
      runId)
  {
    hide Good, Settled, RunOk, StatusOk, BackedOk, Awaits, Events, EventsIn, ManifestOk;
    var after := d.(authorizations := d.authorizations[authorization.authorizationId := authorization]);
    SettledByLifecycle(d, after);
    IssuedGood(d, files, runId, authorization);
    IssuedBacked(Events(d, runId), d.authorizations, d.runs[runId], authorization);
    EventsByLedgers(d, after, runId);
  }

  lemma IssuedGood(d: Disk, files: Files, runId: Id, authorization: Authorization)
    requires Good(d, files, runId) && authorization.authorizationId !in d.authorizations
    ensures Good(d.(authorizations := d.authorizations[authorization.authorizationId := authorization]), files, runId)
    ensures AuthorityOk(Events(d, runId), d.authorizations)
  {
    var later := d.authorizations[authorization.authorizationId := authorization];
    assert Events(d.(authorizations := later), runId) == Events(d, runId);
    forall i | 0 <= i < |Events(d, runId)| ensures StartAuthorized(Events(d, runId)[i], later) {
      assert StartAuthorized(Events(d, runId)[i], d.authorizations);
    }
  }

  lemma IssuedBacked(events: seq<LedgerEvent>, authorizations: map<Id, Authorization>, run: RuntimeRun,
                     authorization: Authorization)
    requires AuthorityOk(events, authorizations) && BackedOk(events, authorizations, run)
    requires authorization.authorizationId !in authorizations
    ensures BackedOk(events, authorizations[authorization.authorizationId := authorization], run)
    ensures forall id :: Unspent(events, authorizations, id) ==>
              Unspent(events, authorizations[authorization.authorizationId := authorization], id)
    ensures forall s :: GrantsOk(events, authorizations, run, s) ==>
              GrantsOk(events, authorizations[authorization.authorizationId := authorization], run, s)
  {
    hide ApprovedIn, Granted;
    var later := authorizations[authorization.authorizationId := authorization];
    forall i | 0 <= i < |events| && Spends(events[i], later)
      ensures Spends(events[i], authorizations) && SpentOn(events[i], later) == SpentOn(events[i], authorizations)
    {
      assert StartAuthorized(events[i], authorizations);
    }
    forall i, j | 0 <= i < |events| && 0 <= j < |events| && SameDecision(events[i], events[j], later) ensures i == j {
      assert SameDecision(events[i], events[j], authorizations);
    }
  }

  lemma SnapshotSettled(d: Disk, snapshot: RunStateSnapshot)
    requires Settled(d) && snapshot.runId in d.snapshots
    requires snapshot.status == d.snapshots[snapshot.runId].status
    ensures Settled(WithSnapshot(d, snapshot)) && Agrees(d, snapshot)
  {
    hide Chain, LastTarget;
    var after := WithSnapshot(d, snapshot);
    assert LedgerOk(d, snapshot.runId) && SnapshotAgrees(d, snapshot.runId);
    forall id ensures LedgerOk(after, id) && SnapshotAgrees(after, id) {
      assert LedgerOk(d, id) && SnapshotAgrees(d, id);
      assert Events(after, id) == Events(d, id);
    }
  }

  lemma OptionsAside(lex: Lexicon, s: RunStateSnapshot, options: seq<OptionBinding>, run: RuntimeRun,
                     events: seq<LedgerEvent>)
    requires StatusOk(lex, s, run, events)
    ensures StatusOk(lex, s.(admissibleOptions := options), run, events)
  {}

  /** Replacing the admissible options of a snapshot. */
  lemma SnapshotSteady(lex: Lexicon, d: Disk, files: Files, runId: Id, snapshot: RunStateSnapshot)
    requires Steady(lex, d, files, runId)
    requires snapshot == d.snapshots[runId].(admissibleOptions := snapshot.admissibleOptions)
    ensures Steady(lex, WithSnapshot(d, snapshot), files, runId) && SnapshotOk(d, snapshot)
  {
    hide Good, Settled, RunOk, BackedOk, StatusOk, Unspent, Agrees;
    SnapshotSettled(d, snapshot);
    GoodByFiles(d, WithSnapshot(d, snapshot), files, runId);
    OptionsAside(lex, d.snapshots[runId], snapshot.admissibleOptions, d.runs[runId], Events(d, runId));
  }

  // ------------------------------------------------------------ between calls

  /** A commit was cut short; both of its outcomes are steady. */
  ghost predicate PendingCommit(lex: Lexicon, before: Disk, d: Disk, files: Files, runId: Id, j: TransitionJournal) {
    && Steady(lex, before, files, runId) && CommitOk(before, j.snapshot, j.event) && j.event.runId == runId
    && Interrupted(before, d, j)
    && Steady(lex, Committed(before, j.snapshot, j.event), files, runId)
  }

  /** A consume-and-start was cut short; both of its outcomes are steady. */
  ghost predicate PendingStart(lex: Lexicon, before: Disk, d: Disk, files: Files, runId: Id, action: Action) {
    && Steady(lex, before, files, runId) && Usable(before, action) && action.runId == runId
    && !HasStart(Events(before, runId), action.actionId)
    && ActionInterrupted(before, d, action)
    && forall eventId :: Steady(lex, Opened(before, action, eventId), files, runId)
  }

  /** What any end of any call leaves: a steady state, or the journal of one step. */
  ghost predicate Restartable(lex: Lexicon, d: Disk, files: Files, runId: Id) {
    || Steady(lex, d, files, runId)
    || (exists before, j :: PendingCommit(lex, before, d, files, runId, j))
    || (exists before, action :: PendingStart(lex, before, d, files, runId, action))
  }

  // ------------------------------------------------------------ fresh names

  /** Random identifiers are modelled as unused ones. */
  function FreshEventId(events: seq<LedgerEvent>): (r: Id)
    ensures forall i :: 0 <= i < |events| ==> events[i].eventId < r
  {
    if events == [] then 0
    else
      var rest := FreshEventId(events[..|events| - 1]);
      var last := events[|events| - 1];
      assert forall i :: 0 <= i < |events| - 1 ==> events[..|events| - 1][i] == events[i];
      if last.eventId < rest then rest else last.eventId + 1
  }

  function FreshActionId(events: seq<LedgerEvent>): (r: Id)
    ensures forall i :: 0 <= i < |events| && events[i].payload.ActionStarted? ==> events[i].payload.actionId < r
  {
    if events == [] then 0
    else
      var rest := FreshActionId(events[..|events| - 1]);
      var last := events[|events| - 1];
      assert forall i :: 0 <= i < |events| - 1 ==> events[..|events| - 1][i] == events[i];
      if !last.payload.ActionStarted? || last.payload.actionId < rest then rest else last.payload.actionId + 1
  }

  lemma {:induction false} FreshEvent(events: seq<LedgerEvent>)
    ensures Matching(events, FreshEventId(events)) == []
  {
    NoneSelected(events, (e: LedgerEvent) => e.eventId == FreshEventId(events));
  }

  /** The event of a transition. */
  function TransitionEvent(events: seq<LedgerEvent>, from: RunStateSnapshot, target: RunStatus): LedgerEvent {
    LedgerEvent(FreshEventId(events), from.runId, |events| + 1, "SYSTEM", StateTransition(from.status, target), [],
      Head(events))
  }

  /** A snapshot the run may move into. */
  predicate Enterable(lex: Lexicon, d: Disk, files: Files, s: RunStateSnapshot) {
    && s.runId in d.runs
    && StatusOk(lex, s, d.runs[s.runId], Events(d, s.runId))
    && DecisionsOk(d, s, Events(d, s.runId))
    && ManifestOk(s.status, d.runs[s.runId], files)
  }

  lemma EnterCommits(d: Disk, from: RunStateSnapshot, s: RunStateSnapshot)
    requires s.runId == from.runId && s.pendingDecisionId.Some? ==> s.pendingDecisionId.value in d.decisions
    requires s.runId == from.runId
    ensures CommitOk(d, s, TransitionEvent(Events(d, from.runId), from, s.status))
  {
    FreshEvent(Events(d, from.runId));
  }

  /** Moving into it: the commit can go through, and its outcome is steady. */
  lemma EnterSteady(lex: Lexicon, d: Disk, files: Files, from: RunStateSnapshot, s: RunStateSnapshot)
    requires Steady(lex, d, files, from.runId) && s.runId == from.runId && Enterable(lex, d, files, s)
    ensures var event := TransitionEvent(Events(d, from.runId), from, s.status);
            && CommitOk(d, s, event)
            && Steady(lex, Committed(d, s, event), files, from.runId)
            && Events(Committed(d, s, event), from.runId) == Events(d, from.runId) + [event]
  {
    hide Good, RunOk, BackedOk, StatusOk, Unspent, FreshEventId, Settled, CommitOk, Events, GrantsOk, ManifestOk,
         Awaits;
    var events := Events(d, from.runId);
    var event := TransitionEvent(events, from, s.status);
    EnterCommits(d, from, s);
    EventKeepsStatus(lex, s, d.runs[from.runId], events, event);
    TransitionUnspent(events, d.authorizations, d.runs[from.runId], event);
    CommittedSteady(lex, d, files, s, event);
    CommittedGood(d, files, s, event);
  }

  lemma EventKeepsStatus(lex: Lexicon, s: RunStateSnapshot, run: RuntimeRun, events: seq<LedgerEvent>,
                         event: LedgerEvent)
    requires StatusOk(lex, s, run, events) && event.payload.StateTransition?
    ensures StatusOk(lex, s, run, events + [event])
  {
    if NoneOpen(events) {
      var after := events + [event];
      HasAppend(events, event);
      forall i | 0 <= i < |after| && after[i].payload.ActionStarted?
        ensures HasClose(after, after[i].payload.actionId)
      {
        assert after[i] == events[i];
      }
    }
  }
}
