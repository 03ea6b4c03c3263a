/** How a run begins: the package copied twice, once to keep and once to work on. */
module Ingestion {
  import opened Domain
  import opened Ledger
  import opened Constraints
  import opened Records
  import opened StateMachine
  import opened Store
  import opened Protocol
  import opened Remediation
  import opened Lifecycle
  import opened Steadiness

  /** One declared file of the package; `None` when it is missing. */
  datatype PackageItem = PackageItem(role: Role, filename: string, content: Option<Content>)

  function OriginalPathOf(items: seq<PackageItem>, i: nat): WorkspacePath
    requires i < |items|
  {
    OriginalPath(OriginalAsset(i), items[i].filename)
  }

  function WorkingPathOf(items: seq<PackageItem>, i: nat): WorkspacePath
    requires i < |items|
  {
    WorkingPath(WorkingAsset(i), items[i].filename)
  }

  predicate AllPresent(items: seq<PackageItem>) {
    forall i :: 0 <= i < |items| ==> items[i].content.Some?
  }

  /** The first `n` items are in place, both copies of them. */
  predicate Copied(items: seq<PackageItem>, files: Files, n: nat)
    requires n <= |items|
  {
    forall i :: 0 <= i < n ==>
      && items[i].content.Some?
      && OriginalPathOf(items, i) in files && files[OriginalPathOf(items, i)] == items[i].content.value
      && WorkingPathOf(items, i) in files && files[WorkingPathOf(items, i)] == items[i].content.value
  }

  function Originals(runId: Id, items: seq<PackageItem>): seq<RuntimeAsset>
    requires AllPresent(items)
  {
    seq(|items|, i requires 0 <= i < |items| =>
      RuntimeAsset(Asset(OriginalAsset(i), runId, items[i].role, items[i].filename, Sha256(items[i].content.value),
                         Original, None, None, None), OriginalPathOf(items, i)))
  }

  function Workings(runId: Id, items: seq<PackageItem>): seq<RuntimeAsset>
    requires AllPresent(items)
  {
    seq(|items|, i requires 0 <= i < |items| =>
      RuntimeAsset(Asset(WorkingAsset(i), runId, items[i].role, items[i].filename, Sha256(items[i].content.value),
                         Working, Some(OriginalAsset(i)), Some(CopiedFrom), None), WorkingPathOf(items, i)))
  }

  function OriginalHashes(items: seq<PackageItem>): seq<(AssetId, Digest)>
    requires AllPresent(items)
  {
    seq(|items|, i requires 0 <= i < |items| => (OriginalAsset(i), Sha256(items[i].content.value)))
  }

  /** The record a run begins with. */
  function FirstRecord(runId: Id, items: seq<PackageItem>): RuntimeRun
    requires AllPresent(items)
  {
    RuntimeRun(runId, Originals(runId, items) + Workings(runId, items), [], [], [], [], [], [], OriginalHashes(items),
      0, 0)
  }

  lemma FirstAssetsOk(runId: Id, items: seq<PackageItem>)
    requires AllPresent(items)
    ensures AssetsOk(FirstRecord(runId, items).assets)
  {
    var assets := FirstRecord(runId, items).assets;
    forall i | 0 <= i < |assets| && assets[i].asset.predecessor.Some?
      ensures Listed(assets[..i], assets[i].asset.predecessor.value)
    {
      assert assets[..i][i - |items|].asset.assetId == assets[i].asset.predecessor.value;
    }
  }

  lemma {:induction false} LookupFirst(items: seq<PackageItem>, hashes: seq<(AssetId, Digest)>, i: nat)
    requires i < |hashes| <= |items| && AllPresent(items) && hashes == OriginalHashes(items)[..|hashes|]
    ensures LookupHash(hashes, OriginalAsset(i)) == Some(Sha256(items[i].content.value))
  {
    var last := |hashes| - 1;
    assert hashes[last] == OriginalHashes(items)[last];
    if i < last {
      assert hashes[..last] == OriginalHashes(items)[..last];
      LookupFirst(items, hashes[..last], i);
    }
  }

  lemma FirstRunOk(runId: Id, items: seq<PackageItem>)
    requires AllPresent(items) && items != []
    ensures RunOk(FirstRecord(runId, items)) && UpTo(FirstRecord(runId, items), 0)
  {
    var run := FirstRecord(runId, items);
    forall i | 0 <= i < |run.assets| && run.assets[i].asset.protection.Original?
      ensures LookupHash(run.originalHashes, run.assets[i].asset.assetId) == Some(run.assets[i].asset.sha256)
    {
      LookupFirst(items, run.originalHashes, i);
    }
    forall k | 0 <= k < |run.originalHashes| ensures HasOriginal(run.assets, run.originalHashes[k].0) {
      assert run.assets[k].asset.assetId == run.originalHashes[k].0 && run.assets[k].asset.protection.Original?;
    }
    assert !run.assets[|items|].asset.protection.Original?;
  }

  /** The ledger and the files agree with that record. */
  lemma FirstConsistent(runId: Id, items: seq<PackageItem>, files: Files, event: LedgerEvent)
    requires AllPresent(items) && Copied(items, files, |items|) && event.payload.StateTransition?
    ensures Consistent([event], FirstRecord(runId, items), files) && NoneOpen([event])
  {
    var run, events := FirstRecord(runId, items), [event];
    FirstAssetsOk(runId, items);
    FirstOnce(event);
    hide AssetsOk, Once;
    HasAppend([], event);
    assert [] + [event] == events;
    forall i | 0 <= i < |run.assets| ensures RecordedOk(events, run.assets[i], files) {
      var k := if i < |items| then i else i - |items|;
      assert items[k].content.Some?;
    }
    forall i | 0 <= i < |events|
      ensures CompletedOk(events[i], run.assets, files) && FailedOk(events[i], run.assets, files) {}
  }

  lemma FirstOnce(event: LedgerEvent)
    ensures event.payload.StateTransition? ==> Once([event])
  {
    assert [] + [event] == [event];
    forall a: Id ensures event.payload.StateTransition? ==> StartCount([event], a) <= 1 && CloseCount([event], a) <= 1 {
      CountAppend([], event, a);
    }
  }

  /** The disk before the record is written: one snapshot, one transition. */
  ghost predicate Opening(d: Disk, runId: Id) {
    && Settled(d) && runId in d.snapshots
    && d.snapshots[runId] == Initial(runId).(status := Ingesting)
    && (exists event: LedgerEvent ::
      event.payload.StateTransition? && event.runId == runId && Events(d, runId) == [event])
    && (forall id :: id in d.decisions ==> d.decisions[id].decisionId == id)
    && (forall id :: id in d.authorizations ==> d.authorizations[id].decisionId in d.decisions)
  }

  lemma FirstGood(d: Disk, files: Files, runId: Id, items: seq<PackageItem>)
    requires Opening(d, runId) && AllPresent(items) && Copied(items, files, |items|)
    ensures Good(d.(runs := d.runs[runId := FirstRecord(runId, items)]), files, runId)
    ensures NoneOpen(Events(d, runId))
  {
    hide Consistent;
    var event: LedgerEvent :| event.payload.StateTransition? && event.runId == runId && Events(d, runId) == [event];
    var after := d.(runs := d.runs[runId := FirstRecord(runId, items)]);
    FirstConsistent(runId, items, files, event);
    assert LedgerOk(d, runId);
    assert Events(after, runId) == [event];
  }

  /** A run that has just been recorded is in a steady state. */
  lemma FirstSteady(lex: Lexicon, d: Disk, files: Files, runId: Id, items: seq<PackageItem>)
    requires Opening(d, runId) && AllPresent(items) && items != [] && Copied(items, files, |items|)
    ensures Steady(lex, d.(runs := d.runs[runId := FirstRecord(runId, items)]), files, runId)
  {
    hide Consistent, RunOk, Settled, Good, NoneOpen, Copied;
    var after := d.(runs := d.runs[runId := FirstRecord(runId, items)]);
    FirstGood(d, files, runId, items);
    FirstRunOk(runId, items);
    SettledByLifecycle(d, after);
    EventsByLedgers(d, after, runId);
  }

  /** The record with its requirements, and then with its order of checks, before anything is
      measured or found. */
  lemma PlannedRunOk(run: RuntimeRun, requirements: seq<RuntimeRequirement>, checkOrder: seq<Id>)
    requires RunOk(run) && run.measurements == [] && run.findings == []
    requires forall i :: 0 <= i < |requirements| ==> CaptionTargetKnown(requirements[i])
    ensures RunOk(run.(requirements := requirements, checkOrder := checkOrder))
  {
    hide CaptionTargetKnown, LookupHash;
    var updated := run.(requirements := requirements, checkOrder := checkOrder);
    assert HashesOk(updated);
    var i :| 0 <= i < |run.assets| && !run.assets[i].asset.protection.Original?;
    assert !updated.assets[i].asset.protection.Original?;
  }

  /** Nothing of this run is there yet. */
  ghost predicate Unknown(d: Disk, runId: Id) {
    && Settled(d) && runId !in d.ledgers && runId !in d.snapshots && runId !in d.runs
    && (forall id :: id in d.decisions ==> d.decisions[id].decisionId == id)
    && (forall id :: id in d.authorizations ==> d.authorizations[id].decisionId in d.decisions)
  }

  lemma FirstSnapshotOk(d: Disk, runId: Id)
    requires Unknown(d, runId)
    ensures SnapshotOk(d, Initial(runId)) && Settled(WithSnapshot(d, Initial(runId)))
    ensures Events(d, runId) == [] && Events(WithSnapshot(d, Initial(runId)), runId) == []
  {
    var after := WithSnapshot(d, Initial(runId));
    forall id ensures LedgerOk(after, id) && SnapshotAgrees(after, id) {
      assert LedgerOk(d, id) && SnapshotAgrees(d, id);
      assert Events(after, id) == Events(d, id);
    }
  }

  lemma OpeningReached(d: Disk, runId: Id)
    requires Unknown(d, runId)
    ensures var first, next := WithSnapshot(d, Initial(runId)), Initial(runId).(status := Ingesting);
            var event := TransitionEvent([], Initial(runId), Ingesting);
            && Transition(Initial(runId), Ingesting, NoGuard) == Some(next)
            && CommitOk(first, next, event) && Opening(Committed(first, next, event), runId)
  {
    var first, next := WithSnapshot(d, Initial(runId)), Initial(runId).(status := Ingesting);
    var event := TransitionEvent([], Initial(runId), Ingesting);
    FirstSnapshotOk(d, runId);
    FreshEvent([]);
    CommittedIsSettled(first, next, event);
    assert Events(Committed(first, next, event), runId) == [event];
  }
}
