/** Execution of one remediation action and its recovery after a crash. Every durable step,
    on the store or in the workspace, may take effect or not, and the process may raise or
    die at it. */
module Remediation {
  import opened Domain
  import opened Ledger
  import opened Records
  import opened Store
  import opened Protocol

  // ------------------------------------------------------------ the workspace

  /** A file write that did not complete may leave any content at its path. */
  ghost predicate WriteLeaves(before: Files, after: Files, path: WorkspacePath) {
    forall other :: other != path ==>
      (other in before <==> other in after) && (other in before ==> before[other] == after[other])
  }

  class Workspace {
    var files: Files

    constructor (found: Files)
      ensures files == found
    {
      files := found;
    }

    method WriteFile(path: WorkspacePath, content: Content) returns (r: Outcome<()>)
      modifies this
      ensures r.Done? ==> files == old(files)[path := content]
      ensures WriteLeaves(old(files), files, path)
      ensures r.Raised? ==> r.error == IoError
    {
      var fault := NextFault();
      match fault {
        case NoFault => files := files[path := content]; r := Done(());
        case ErrorBefore => r := Raised(IoError);
        case ErrorAfter =>
          var partial: Content := *;
          files := files[path := partial];
          r := Raised(IoError);
        case CrashBefore => r := Crashed;
        case CrashAfter =>
          var partial: Content := *;
          files := files[path := partial];
          r := Crashed;
      }
    }

    /** `os.replace`: atomic. */
    method Replace(source: WorkspacePath, target: WorkspacePath) returns (r: Outcome<()>)
      requires source in files
      modifies this
      ensures files == old(files) || files == (old(files) - {source})[target := old(files)[source]]
      ensures r.Done? ==> files == (old(files) - {source})[target := old(files)[source]]
      ensures r.Raised? ==> r.error == IoError
    {
      var moved := (files - {source})[target := files[source]];
      var fault := NextFault();
      if fault.NoFault? || fault.ErrorAfter? || fault.CrashAfter? {
        files := moved;
      }
      r := if fault.NoFault? then Done(()) else if fault.ErrorBefore? || fault.ErrorAfter? then Raised(IoError)
        else Crashed;
    }

    /** `unlink(missing_ok=True)`. */
    method Unlink(path: WorkspacePath) returns (r: Outcome<()>)
      modifies this
      ensures files == old(files) || files == old(files) - {path}
      ensures r.Done? ==> files == old(files) - {path}
      ensures r.Raised? ==> r.error == IoError
    {
      var fault := NextFault();
      if fault.NoFault? || fault.ErrorAfter? || fault.CrashAfter? {
        files := files - {path};
      }
      r := if fault.NoFault? then Done(()) else if fault.ErrorBefore? || fault.ErrorAfter? then Raised(IoError)
        else Crashed;
    }
  }

  // ------------------------------------------------------------ invariants

  /** Every content-affecting start carries its own authorization, spent by that very action
      and bound to its option; no other start carries any. */
  predicate StartAuthorized(event: LedgerEvent, authorizations: map<Id, Authorization>) {
    event.payload.ActionStarted? ==>
      if TierOf(event.payload.tool) == Some(ContentAffecting) then
        && event.payload.authorizationId.Some?
        && event.payload.authorizationId.value in authorizations
        && var authorization := authorizations[event.payload.authorizationId.value];
           && !authorization.status.Issued?
           && authorization.consumedBy == Some(event.payload.actionId)
           && authorization.runId == event.runId
           && event.refs == [authorization.optionId]
      else event.payload.authorizationId.None?
  }

  predicate AuthorityOk(events: seq<LedgerEvent>, authorizations: map<Id, Authorization>) {
    forall i :: 0 <= i < |events| ==> StartAuthorized(events[i], authorizations)
  }

  /** No authorization backs two starts. */
  lemma OneStartPerAuthorization(events: seq<LedgerEvent>, authorizations: map<Id, Authorization>, i: nat, j: nat)
    requires Once(events) && AuthorityOk(events, authorizations)
    requires i < |events| && j < |events|
    requires events[i].payload.ActionStarted? && events[j].payload.ActionStarted?
    requires events[i].payload.authorizationId.Some?
    requires events[i].payload.authorizationId == events[j].payload.authorizationId
    ensures i == j
  {
    assert StartAuthorized(events[i], authorizations) && StartAuthorized(events[j], authorizations);
    assert StartCount(events, events[i].payload.actionId) <= 1;
    OneStart(events, i, j);
  }

  /** What holds of a run's durable state at every moment outside a journaled start. */
  ghost predicate Good(d: Disk, files: Files, runId: Id) {
    && runId in d.runs && d.runs[runId].runId == runId
    && LedgerOk(d, runId)
    && AuthorityOk(Events(d, runId), d.authorizations)
    && Consistent(Events(d, runId), d.runs[runId], files)
  }

  function StartPayload(action: Action): Payload { ActionStarted(action.actionId, action.tool, action.authorizationId) }

  /** An authorization is for good what it was issued for. Once it is spent or void it is never
      issued again and its consumer stays, and once it is void it stays void. */
  predicate KeptAuthorization(before: Authorization, after: Authorization) {
    && after == before.(status := after.status, consumedBy := after.consumedBy)
    && (!before.status.Issued? ==> !after.status.Issued? && after.consumedBy == before.consumedBy)
    && (before.status.Void? ==> after.status.Void?)
  }

  predicate SameBindings(before: map<Id, Authorization>, after: map<Id, Authorization>) {
    before.Keys == after.Keys && forall id :: id in before ==> KeptAuthorization(before[id], after[id])
  }

  /** Within a run an action only appends to the ledger, and starts nothing but itself. */
  predicate Follows(before: seq<LedgerEvent>, after: seq<LedgerEvent>, starter: Option<Action>) {
    && before <= after
    && LastTarget(after) == LastTarget(before)
    && forall i :: |before| <= i < |after| && after[i].payload.ActionStarted? ==>
         starter.Some? && after[i].payload == StartPayload(starter.value)
  }

  /** What an action never touches: the lifecycle of its run, and every other run. */
  ghost predicate Framed(before: Disk, after: Disk, runId: Id, starter: Option<Action>) {
    && after.snapshots == before.snapshots
    && after.decisions == before.decisions
    && after.transitionJournals == before.transitionJournals
    && after.actionJournals == before.actionJournals
    && SameBindings(before.authorizations, after.authorizations)
    && Follows(Events(before, runId), Events(after, runId), starter)
    && forall id :: id != runId ==>
         && Events(after, id) == Events(before, id)
         && (id in after.runs <==> id in before.runs)
         && (id in before.runs ==> after.runs[id] == before.runs[id])
  }

  /** Temporary and quarantine files belong to no asset. */
  ghost predicate OnlyLoose(before: Files, after: Files) {
    forall path :: PathOwner(path).Some? ==>
      (path in before <==> path in after) && (path in before ==> before[path] == after[path])
  }

  lemma LooseKeeps(events: seq<LedgerEvent>, run: RuntimeRun, before: Files, after: Files)
    requires Consistent(events, run, before) && OnlyLoose(before, after)
    ensures Consistent(events, run, after)
  {
    forall item | item in run.assets
      ensures item.path in before <==> item.path in after
      ensures item.path in before ==> before[item.path] == after[item.path]
    {
      assert AssetOk(item);
    }
    forall i | 0 <= i < |run.assets| ensures RecordedOk(events, run.assets[i], after) {
      assert RecordedOk(events, run.assets[i], before);
    }
    forall i | 0 <= i < |events|
      ensures CompletedOk(events[i], run.assets, after) && FailedOk(events[i], run.assets, after)
    {
      assert CompletedOk(events[i], run.assets, before) && FailedOk(events[i], run.assets, before);
    }
    forall i | 0 <= i < |events| && IsOpenStart(events, events[i]) ensures Resumable(events[i], run, after) {
      assert Resumable(events[i], run, before);
    }
  }

  lemma {:induction false} UnfinishedUpToSole(prefix: seq<LedgerEvent>, events: seq<LedgerEvent>)
    requires prefix <= events && Once(events) && SoleOpen(events)
    ensures |UnfinishedUpTo(prefix, events)| <= 1
    ensures forall a :: a in UnfinishedUpTo(prefix, events) ==>
              exists i :: 0 <= i < |prefix| && IsOpenStart(events, events[i]) && events[i].payload.actionId == a
  {
    if prefix != [] {
      var last := |prefix| - 1;
      UnfinishedUpToSole(prefix[..last], events);
      var rest := UnfinishedUpTo(prefix[..last], events);
      if rest != [] && IsOpenStart(events, prefix[last]) {
        assert rest[0] in rest;
        var i :| 0 <= i < last && IsOpenStart(events, events[i]) && events[i].payload.actionId == rest[0];
        assert StartCount(events, rest[0]) <= 1;
        OneStart(events, i, last);
      }
    }
  }

  /** At most one action is ever open, so recovery has at most one to take up. */
  lemma AtMostOneUnfinished(events: seq<LedgerEvent>)
    requires Once(events) && SoleOpen(events)
    ensures |Unfinished(events)| <= 1
    ensures Unfinished(events) == [] <==> NoneOpen(events)
    ensures forall a :: a in Unfinished(events) ==>
              exists i :: 0 <= i < |events| && IsOpenStart(events, events[i]) && events[i].payload.actionId == a
  {
    assert Unfinished(events) == [] || Unfinished(events)[0] in Unfinished(events);
    UnfinishedUpToSole(events, events);
    if !NoneOpen(events) {
      var i :| 0 <= i < |events| && IsOpenStart(events, events[i]);
      assert Starts(events[i], events[i].payload.actionId);
      UnfinishedMeaning(events, events[i].payload.actionId);
    }
  }
}
