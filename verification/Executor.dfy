/** `RemediationExecutor`: execution of one action, recovery of the open one, and the
    guarantee the two give together across any number of crashes. */
module Executor {
  import opened Domain
  import opened Ledger
  import opened Records
  import opened StateMachine
  import opened Authority
  import opened Store
  import opened Protocol
  import opened Remediation

  // ------------------------------------------------------------ events

  /** The errors an execution may end in. */
  predicate Ordinary(error: Error) {
    || error.AuthorityRefused? || error.StoreConsistency? || error.IoError? || error.InvalidValue?
    || error.PermissionDenied?
  }

  function CompletedEvent(events: seq<LedgerEvent>, action: Action, item: RuntimeAsset, eventId: Id): LedgerEvent {
    LedgerEvent(eventId, action.runId, |events| + 1, "SYSTEM",
                ActionCompleted(action.actionId, item.asset.assetId, item.asset.sha256), [action.optionId],
                  Head(events))
  }

  function FailedEvent(events: seq<LedgerEvent>, action: Action, reason: string, eventId: Id): LedgerEvent {
    LedgerEvent(eventId, action.runId, |events| + 1, "SYSTEM", ActionFailed(action.actionId, reason), [], Head(events))
  }

  // ------------------------------------------------------------ the open action

  /** The context's action is open: its start is the event at `s`. */
  predicate OpenAt(d: Disk, context: ActionContext, s: nat) {
    var events := Events(d, context.action.runId);
    && s < |events|
    && IsOpenStart(events, events[s])
    && events[s].payload.actionId == context.action.actionId
    && events[s].payload.tool == context.option.tool
    && events[s].payload.authorizationId == context.action.authorizationId
    && |events[s].refs| > 0 && events[s].refs[0] == context.option.optionId
    && context.action.runId in d.runs
    && RunOption(d.runs[context.action.runId], context.option.optionId) == Some(context.option)
  }

  /** No capability outlives the failure of its action. */
  predicate AuthorizationVoid(d: Disk, action: Action) {
    action.authorizationId.Some? ==>
      action.authorizationId.value in d.authorizations && d.authorizations[action.authorizationId.value].status.Void?
  }

  predicate Unrecorded(d: Disk, context: ActionContext) {
    context.action.runId in d.runs && FindCreated(d.runs[context.action.runId].assets, context.action.actionId).None?
  }

  /** The run record holds the action's output. */
  predicate Recorded(d: Disk, context: ActionContext, run: RuntimeRun, item: RuntimeAsset) {
    && context.action.runId in d.runs
    && d.runs[context.action.runId] == WithAsset(run, item) && Belongs(item.asset, run.runId)
    && FindCreated(d.runs[context.action.runId].assets, context.action.actionId) == Some(item)
  }

  /** Assets made by actions are added to a run's record, and nothing else of it changes. */
  predicate Grown(before: RuntimeRun, after: RuntimeRun) {
    && after == before.(assets := after.assets) && before.assets <= after.assets
    && forall i :: |before.assets| <= i < |after.assets| ==>
         after.assets[i].asset.createdByAction.Some? && Belongs(after.assets[i].asset, before.runId)
  }

  /** An asset of the run, with a relation exactly when it has a predecessor. */
  predicate Belongs(asset: Asset, runId: Id) {
    asset.runId == runId && (asset.predecessor.None? <==> asset.relation.None?)
  }

  predicate GrownOn(before: Disk, after: Disk, runId: Id) {
    runId in before.runs && runId in after.runs && Grown(before.runs[runId], after.runs[runId])
  }

  // ------------------------------------------------------------ steps keep the invariant

  lemma ScratchGood(d: Disk, before: Files, after: Files, context: ActionContext, s: nat)
    requires Good(d, before, context.action.runId) && OpenAt(d, context, s)
    requires Unrecorded(d, context) || context.option.tool.WriteChecksumManifest?
    requires OnlyScratch(before, after, context.action.actionId)
    ensures Good(d, after, context.action.runId)
  {
    ScratchKeeps(Events(d, context.action.runId), d.runs[context.action.runId], before, after, s);
  }

  lemma AppendFramed(d: Disk, event: LedgerEvent, starter: Option<Action>)
    requires LedgerOk(d, event.runId) && Acceptable(Events(d, event.runId), event) && !event.payload.StateTransition?
    requires event.payload.ActionStarted? ==> starter.Some? && event.payload == StartPayload(starter.value)
    ensures Framed(d, Appended(d, event), event.runId, starter)
    ensures LedgerOk(Appended(d, event), event.runId)
    ensures Events(Appended(d, event), event.runId) == Events(d, event.runId) + [event]
  {
    AppendKeepsLedgers(d, event, event.runId);
    LastTargetAppend(Events(d, event.runId), event);
  }

  lemma AuthorityAppend(events: seq<LedgerEvent>, authorizations: map<Id, Authorization>, event: LedgerEvent)
    requires AuthorityOk(events, authorizations) && StartAuthorized(event, authorizations)
    ensures AuthorityOk(events + [event], authorizations)
  {
    forall i | 0 <= i < |events + [event]| ensures StartAuthorized((events + [event])[i], authorizations) {
      assert i < |events| ==> (events + [event])[i] == events[i];
    }
  }

  /** Closing the open action with a result that is true of the record and the file. */
  lemma CloseStep(d: Disk, files: Files, context: ActionContext, s: nat, event: LedgerEvent)
    requires Good(d, files, context.action.runId) && OpenAt(d, context, s)
    requires IsClosing(event) && event.payload.actionId == context.action.actionId
      && event.runId == context.action.runId
    requires event.seqNo == |Events(d, event.runId)| + 1 && event.prevHash == Head(Events(d, event.runId))
    requires var assets := d.runs[event.runId].assets;
             CompletedOk(event, assets, files) && FailedOk(event, assets, files)
    ensures Acceptable(Events(d, event.runId), event)
    ensures Good(Appended(d, event), files, event.runId) && Framed(d, Appended(d, event), event.runId, None)
    ensures NoneOpen(Events(Appended(d, event), event.runId))
  {
    var events := Events(d, event.runId);
    assert Starts(events[s], event.payload.actionId);
    AppendFramed(d, event, None);
    CloseKeeps(events, d.runs[event.runId], files, s, event);
    AuthorityAppend(events, d.authorizations, event);
  }

  lemma FramedTwice(before: Disk, middle: Disk, after: Disk, runId: Id, starter: Option<Action>)
    requires Framed(before, middle, runId, starter)
    requires Framed(middle, after, runId, starter) || Framed(middle, after, runId, None)
    ensures Framed(before, after, runId, starter)
  {
    forall i | |Events(before, runId)| <= i < |Events(after, runId)| && Events(after, runId)[i].payload.ActionStarted?
      ensures starter.Some? && Events(after, runId)[i].payload == StartPayload(starter.value)
    {
      assert i < |Events(middle, runId)| ==> Events(middle, runId)[i] == Events(after, runId)[i];
    }
  }

  lemma FramedSame(d: Disk, runId: Id, starter: Option<Action>)
    ensures Framed(d, d, runId, starter)
  {}

  lemma SavedFramed(d: Disk, updated: RuntimeRun)
    ensures Framed(d, d.(runs := d.runs[updated.runId := updated]), updated.runId, None)
  {
    hide LastTarget;
  }

  /** Recording the verified output. */
  lemma PersistGood(d: Disk, files: Files, context: ActionContext, s: nat, item: RuntimeAsset)
    requires Good(d, files, context.action.runId) && OpenAt(d, context, s)
    requires WillRecord(Events(d, context.action.runId), d.runs[context.action.runId], files, s, item)
    ensures var runId := context.action.runId;
            var updated := WithAsset(d.runs[runId], item);
            var after := d.(runs := d.runs[runId := updated]);
            && updated.runId == runId && Good(after, files, runId) && Framed(d, after, runId, None)
              && OpenAt(after, context, s)
            && FindCreated(updated.assets, context.action.actionId) == Some(item) && Intact(item, files)
  {
    hide Framed, Consistent, WillRecord, Chain, Describe, Verified, StartAuthorized, FindCreated, Resumable, AssetsOk;
    assert AssetsOk(d.runs[context.action.runId].assets) by { GoodAssets(d, files, context.action.runId); }
    SavedFramed(d, WithAsset(d.runs[context.action.runId], item));
    PersistKeeps(Events(d, context.action.runId), d.runs[context.action.runId], files, s, item);
    RecordedIsResumable(Events(d, context.action.runId), d.runs[context.action.runId], files, s, item);
  }

  lemma VoidedAuthority(events: seq<LedgerEvent>, authorizations: map<Id, Authorization>, id: Id)
    requires AuthorityOk(events, authorizations) && id in authorizations
    ensures AuthorityOk(events, authorizations[id := authorizations[id].(status := Void)])
  {
    forall i | 0 <= i < |events|
      ensures StartAuthorized(events[i], authorizations[id := authorizations[id].(status := Void)])
    {
      assert StartAuthorized(events[i], authorizations);
    }
  }

  /** A content-affecting action's authorization can always be voided, and nothing else moves. */
  lemma VoidGood(d: Disk, files: Files, context: ActionContext, s: nat)
    requires Good(d, files, context.action.runId) && OpenAt(d, context, s) && context.action.authorizationId.Some?
    ensures context.action.authorizationId.value in d.authorizations
    ensures var after := Voided(d, context.action.authorizationId.value);
            && after.runs == d.runs && after.ledgers == d.ledgers
            && Good(after, files, context.action.runId) && OpenAt(after, context, s)
              && Framed(d, after, context.action.runId, None)
  {
    hide Consistent, Chain, RunOption, LastTarget;
    assert StartAuthorized(Events(d, context.action.runId)[s], d.authorizations);
    VoidedAuthority(Events(d, context.action.runId), d.authorizations, context.action.authorizationId.value);
  }

  /** Spending an authorization that no earlier start carries. */
  lemma SpentAuthority(events: seq<LedgerEvent>, authorizations: map<Id, Authorization>, action: Action)
    requires AuthorityOk(events, authorizations) && UsableIn(authorizations, action)
    requires !HasStart(events, action.actionId)
    ensures AuthorityOk(events, SpentIn(authorizations, action))
  {
    var spent := SpentIn(authorizations, action);
    forall i | 0 <= i < |events| ensures StartAuthorized(events[i], spent) {
      assert StartAuthorized(events[i], authorizations);
      assert events[i].payload.ActionStarted? ==> !Starts(events[i], action.actionId);
    }
  }

  // ------------------------------------------------------------ starting

  /** What the caller of an action guarantees: no action is open, the identifier is fresh,
      and the option is the run's own. */
  ghost predicate Ready(d: Disk, files: Files, action: Action, option: RemediationOption) {
    && Good(d, files, action.runId)
    && NoneOpen(Events(d, action.runId))
    && !HasStart(Events(d, action.runId), action.actionId)
    && RunOption(d.runs[action.runId], option.optionId) == Some(option)
    && action.tool == option.tool && action.optionId == option.optionId
  }

  /** The runtime can say what the action is to produce. The one option it accepts and cannot
      describe is a caption conversion to a format it does not know. */
  predicate Describable(d: Disk, action: Action, option: RemediationOption) {
    action.runId in d.runs && Describe(action.actionId, option, d.runs[action.runId]).Some?
  }

  /** Which options those are, exactly: for an option that fits its tool and whose source is in
      the run, the description exists unless a caption conversion names a format other than
      SRT and WebVTT, or a manifest write a format other than sha256sums. */
  lemma DescribableIff(actionId: Id, option: RemediationOption, run: RuntimeRun)
    requires InputFits(option.tool, option.arguments)
    requires TierOf(option.tool) == Some(Reversible) || TierOf(option.tool) == Some(ContentAffecting)
    requires InputAsset(option.arguments).Some? ==> FindAsset(run.assets, InputAsset(option.arguments).value).Some?
    ensures Describe(actionId, option, run).Some? <==>
              && (option.arguments.ConvertInput? ==>
                option.arguments.targetFormat == "srt" || option.arguments.targetFormat == "webvtt")
              && (option.arguments.ManifestInput? ==> option.arguments.format == "sha256sums")
  {
    match option.tool
    case ConvertCaptionFormat => assert option.arguments.ConvertInput?;
    case _ =>
  }

  lemma FreshIsUnrecorded(d: Disk, files: Files, action: Action, option: RemediationOption)
    requires Ready(d, files, action, option)
    ensures FindCreated(d.runs[action.runId].assets, action.actionId).None?
  {}

  lemma StartGood(d: Disk, files: Files, action: Action, option: RemediationOption, eventId: Id)
    requires Ready(d, files, action, option) && Describable(d, action, option)
    ensures var events := Events(d, action.runId);
            var start := StartedEvent(events, action, eventId);
            && Consistent(events + [start], d.runs[action.runId], files) && IsOpenStart(events + [start], start)
            && Acceptable(events, start)
  {
    FreshIsUnrecorded(d, files, action, option);
    StartKeeps(Events(d, action.runId), d.runs[action.runId], files,
      StartedEvent(Events(d, action.runId), action, eventId));
  }

  /** A reversible action starts without any authorization. */
  lemma ReversibleStart(d: Disk, files: Files, action: Action, option: RemediationOption, eventId: Id)
    requires Ready(d, files, action, option) && Describable(d, action, option)
    requires action.authorizationId.None? && TierOf(action.tool) != Some(ContentAffecting)
    ensures var after := Appended(d, StartedEvent(Events(d, action.runId), action, eventId));
            && Good(after, files, action.runId) && Framed(d, after, action.runId, Some(action))
            && OpenAt(after, ActionContext(action, option), |Events(d, action.runId)|)
            && Events(after, action.runId) ==
              Events(d, action.runId) + [StartedEvent(Events(d, action.runId), action, eventId)]
            && after.runs == d.runs
  {
    var start := StartedEvent(Events(d, action.runId), action, eventId);
    StartGood(d, files, action, option, eventId);
    AppendFramed(d, start, Some(action));
    AuthorityAppend(Events(d, action.runId), d.authorizations, start);
  }

  /** A content-affecting action starts having spent the authorization it names. */
  lemma AuthorizedStart(d: Disk, files: Files, action: Action, option: RemediationOption, eventId: Id)
    requires Ready(d, files, action, option) && Describable(d, action, option)
    requires Usable(d, action) && TierOf(action.tool) == Some(ContentAffecting)
    ensures var after := Opened(d, action, eventId);
            && Good(after, files, action.runId) && Framed(d, after, action.runId, Some(action))
            && OpenAt(after, ActionContext(action, option), |Events(d, action.runId)|)
            && Events(after, action.runId) ==
              Events(d, action.runId) + [StartedEvent(Events(d, action.runId), action, eventId)]
  {
    hide Consistent, NoneOpen, Describable, RunOption, StartAuthorized, Chain, AuthorityOk, HasStart;
    var start := StartedEvent(Events(d, action.runId), action, eventId);
    StartGood(d, files, action, option, eventId);
    AppendFramed(d, start, Some(action));
    SpentAuthority(Events(d, action.runId), d.authorizations, action);
    AuthorityAppend(Events(d, action.runId), SpentIn(d.authorizations, action), start);
    assert Opened(d, action, eventId).ledgers == Appended(d, start).ledgers;
  }

  /** The action `begin` mints: bound to the call's own arguments, and carrying an
      authorization exactly when its tool is content-affecting. */
  function ActionFor(state: RunStateSnapshot, option: RemediationOption, input: ToolInput, actionId: Id, actor: string)
      : Action {
    Action(actionId, state.runId, state.cycle, option.tool, option.optionId, HashArguments(input),
           if TierOf(option.tool) == Some(ContentAffecting) then InputAuthorization(input) else None, actor)
  }

  /** Nothing but a fault stops the start: a content-affecting action has its authorization. */
  predicate CanStart(d: Disk, action: Action) {
    TierOf(action.tool) == Some(ContentAffecting) ==>
      Usable(d, action) && d.actionJournals == map[] && !HasStart(Events(d, action.runId), action.actionId)
  }

  /** Journals are not part of what actions and recovery rely on. */
  lemma JournalsAside(d: Disk, after: Disk, files: Files, runId: Id)
    requires Good(d, files, runId)
    requires after == d.(actionJournals := after.actionJournals)
    ensures Good(after, files, runId)
  {
    assert Events(after, runId) == Events(d, runId);
  }

  /** Once consume-and-start is through, the action is open. */
  lemma BegunGood(d: Disk, after: Disk, files: Files, action: Action, option: RemediationOption)
    requires Ready(d, files, action, option) && Describable(d, action, option)
    requires Usable(d, action) && TierOf(action.tool) == Some(ContentAffecting)
    requires BegunBy(d, after, action)
    ensures Good(after, files, action.runId) && Framed(d, after, action.runId, Some(action)) && after.runs == d.runs
    ensures OpenAt(after, ActionContext(action, option), |Events(d, action.runId)|)
  {
    hide Good, OpenAt, Framed, UsableIn;
    var eventId :| after == Opened(d, action, eventId);
    AuthorizedStart(d, files, action, option, eventId);
  }

  /** Wherever consume-and-start is cut short, the run is still good. */
  lemma InterruptedGood(d: Disk, after: Disk, files: Files, action: Action, option: RemediationOption)
    requires Ready(d, files, action, option) && Describable(d, action, option)
    requires Usable(d, action) && TierOf(action.tool) == Some(ContentAffecting)
    requires ActionInterrupted(d, after, action)
    ensures Good(after, files, action.runId) && after.runs == d.runs
  {
    hide Good, OpenAt, Framed, UsableIn;
    var started := ActionJournaled(d, action);
    JournalsAside(d, started, files, action.runId);
    assert Usable(started, action) && Events(started, action.runId) == Events(d, action.runId);
    if after == Spent(started, action) {
      SpentStillGood(started, files, action);
    } else if after != started {
      var eventId :| after == Opened(started, action, eventId);
      AuthorizedStart(started, files, action, option, eventId);
    }
  }

  lemma SpentStillGood(d: Disk, files: Files, action: Action)
    requires Good(d, files, action.runId) && Usable(d, action) && !HasStart(Events(d, action.runId), action.actionId)
    ensures Good(Spent(d, action), files, action.runId)
  {
    SpentAuthority(Events(d, action.runId), d.authorizations, action);
    assert Events(Spent(d, action), action.runId) == Events(d, action.runId);
  }

  lemma LooseGood(d: Disk, before: Files, after: Files, runId: Id)
    requires Good(d, before, runId) && OnlyLoose(before, after)
    ensures Good(d, after, runId)
  {
    LooseKeeps(Events(d, runId), d.runs[runId], before, after);
  }

  /** Removing a temporary file. */
  lemma TemporaryIsLoose(before: Files, after: Files, path: WorkspacePath)
    requires path.TemporaryPath? || path.QuarantinePath?
    requires after == before || after == before - {path}
    ensures OnlyLoose(before, after)
  {}

  /** The reason recorded for a failure: the name of the exception. */
  function ErrorName(error: Error): string {
    match error
    case StoreConsistency => "StoreConsistencyError"
    case AuthorityRefused => "AuthorityError"
    case MissingKey => "KeyError"
    case InvalidValue => "ValueError"
    case IoError => "OSError"
    case PermissionDenied => "PermissionError"
    case InvalidTransition => "InvalidStateTransition"
    case RecoveryIntegrity => "RecoveryIntegrityError"
    case RuntimeFault => "RuntimeError"
    case DiagnosisRejected => "DiagnosisRejected"
  }

  // ------------------------------------------------------------ producing

  /** The source an output is made from, where there is one. */
  function SourceOf(context: ActionContext, run: RuntimeRun): Option<RuntimeAsset> {
    if InputAsset(context.option.arguments).None? then None
    else FindAsset(run.assets, InputAsset(context.option.arguments).value)
  }

  /** What a check of an output reads is outside the action's own files. */
  lemma VerifiedStable(context: ActionContext, run: RuntimeRun, before: Files, after: Files, output: Content)
    requires AssetsOk(run.assets) && FindCreated(run.assets, context.action.actionId).None?
    requires OnlyScratch(before, after, context.action.actionId)
    requires Verified(context.option, run, before, output)
    ensures Verified(context.option, run, after, output)
  {
    if context.option.tool.ConvertCaptionFormat? {
      OtherAssetsKept(run.assets, before, after, context.action.actionId, SourceOf(context, run).value);
    }
  }

  lemma GoodAssets(d: Disk, files: Files, runId: Id)
    requires Good(d, files, runId)
    ensures runId in d.runs && AssetsOk(d.runs[runId].assets)
  {}

  /** Promotion: the verified temporary file becomes the output the action will record. */
  lemma PromotionGood(d: Disk, files: Files, context: ActionContext, descriptor: OutputDescriptor, s: nat)
    requires Good(d, files, context.action.runId) && OpenAt(d, context, s) && Unrecorded(d, context)
    requires Describe(context.action.actionId, context.option, d.runs[context.action.runId]) == Some(descriptor)
    requires descriptor.temporary in files
    requires Verified(context.option, d.runs[context.action.runId], files, files[descriptor.temporary])
    ensures var run := d.runs[context.action.runId];
            var after := (files - {descriptor.temporary})[descriptor.path := files[descriptor.temporary]];
            && OnlyScratch(files, after, context.action.actionId)
            && Good(d, after, context.action.runId)
            && Verified(context.option, run, after, after[descriptor.path])
            && WillRecord(Events(d, context.action.runId), run, after, s,
                 Successor(context.action.actionId, run, descriptor, after[descriptor.path]))
  {
    hide Good, OpenAt, Verified, Describe, WillRecord, AssetsOk, RunOption, Events, EventsIn, Successor;
    var run := d.runs[context.action.runId];
    var after := (files - {descriptor.temporary})[descriptor.path := files[descriptor.temporary]];
    GoodAssets(d, files, context.action.runId);
    DescribedPaths(context.action.actionId, context.option, run);
    assert OnlyScratch(files, after, context.action.actionId);
    VerifiedStable(context, run, files, after, files[descriptor.temporary]);
    ScratchGood(d, files, after, context, s);
    OpenWillRecord(d, after, context, descriptor, s);
  }

  /** A recorded output checks out, unless it is a manifest; then it never does. */
  lemma RecordedChecks(d: Disk, files: Files, context: ActionContext, descriptor: OutputDescriptor, item: RuntimeAsset,
                       s: nat)
    requires Good(d, files, context.action.runId) && OpenAt(d, context, s)
    requires var run := d.runs[context.action.runId];
             && Describe(context.action.actionId, context.option, run) == Some(descriptor)
             && FindCreated(run.assets, context.action.actionId) == Some(item)
    ensures item.path == descriptor.path && PathOwner(descriptor.path) == Some(ActionAsset(context.action.actionId))
    ensures descriptor.temporary.TemporaryPath? && descriptor.temporary.actionId == context.action.actionId
    ensures context.option.tool.WriteChecksumManifest? ==>
      IsRuntimeManifest(item) && !MatchesDescriptor(item, descriptor)
    ensures !context.option.tool.WriteChecksumManifest? ==>
              && MatchesDescriptor(item, descriptor) && Intact(item, files)
              && Verified(context.option, d.runs[context.action.runId], files, files[descriptor.path])
  {
    assert Resumable(Events(d, context.action.runId)[s], d.runs[context.action.runId], files);
  }

  /** Every output has its own temporary path and lives under the action's own asset. */
  lemma DescribedPaths(a: Id, option: RemediationOption, run: RuntimeRun)
    requires Describe(a, option, run).Some?
    ensures var descriptor := Describe(a, option, run).value;
            && PathOwner(descriptor.path) == Some(ActionAsset(a)) && !descriptor.path.TemporaryPath?
            && descriptor.temporary.TemporaryPath? && descriptor.temporary.actionId == a
  {}

  lemma SuccessorBelongs(a: Id, option: RemediationOption, run: RuntimeRun, output: Content)
    requires Describe(a, option, run).Some?
    ensures Belongs(Successor(a, run, Describe(a, option, run).value, output).asset, run.runId)
  {}

  lemma OpenWillRecord(d: Disk, files: Files, context: ActionContext, descriptor: OutputDescriptor, s: nat)
    requires Good(d, files, context.action.runId) && OpenAt(d, context, s) && Unrecorded(d, context)
    requires var run := d.runs[context.action.runId];
             && Describe(context.action.actionId, context.option, run) == Some(descriptor)
             && descriptor.path in files && Verified(context.option, run, files, files[descriptor.path])
    ensures WillRecord(Events(d, context.action.runId), d.runs[context.action.runId], files, s,
              Successor(context.action.actionId, d.runs[context.action.runId], descriptor, files[descriptor.path]))
  {
    assert Resumable(Events(d, context.action.runId)[s], d.runs[context.action.runId], files);
  }

  lemma SameScratch(files: Files, a: Id)
    ensures OnlyScratch(files, files, a)
  {}

  // ------------------------------------------------------------ recovery

  /** `by_action[action_id]`: the last start of the action. */
  function FindStart(events: seq<LedgerEvent>, actionId: Id): (r: Option<nat>)
    ensures r.Some? ==> r.value < |events| && Starts(events[r.value], actionId)
    ensures r.None? ==> !HasStart(events, actionId)
  {
    if events == [] then None
    else
      var last := |events| - 1;
      if Starts(events[last], actionId) then Some(last)
      else
        assert HasStart(events, actionId) ==> HasStart(events[..last], actionId) by {
          if HasStart(events, actionId) {
            var i :| 0 <= i < |events| && Starts(events[i], actionId);
            assert events[..last][i] == events[i];
          }
        }
        FindStart(events[..last], actionId)
  }

  /** `_recovery_context`. */
  function RecoveryContext(started: LedgerEvent, option: RemediationOption, state: RunStateSnapshot): ActionContext
    requires started.payload.ActionStarted?
  {
    ActionContext(
      Action(started.payload.actionId, state.runId, state.cycle, started.payload.tool, option.optionId, option.argsHash,
             started.payload.authorizationId, started.actor),
      option)
  }

  /** The exception to recovery: a manifest already in the record when the crash came. */
  predicate Caught(events: seq<LedgerEvent>, run: RuntimeRun, actionId: Id) {
    && FindStart(events, actionId).Some?
    && events[FindStart(events, actionId).value].payload.tool.WriteChecksumManifest?
    && FindCreated(run.assets, actionId).Some?
  }

  predicate CaughtManifest(events: seq<LedgerEvent>, run: RuntimeRun) {
    exists i :: 0 <= i < |Unfinished(events)| && Caught(events, run, Unfinished(events)[i])
  }

  lemma SoleCaught(events: seq<LedgerEvent>, run: RuntimeRun)
    requires |Unfinished(events)| <= 1
    ensures CaughtManifest(events, run) <==> |Unfinished(events)| == 1 && Caught(events, run, Unfinished(events)[0])
  {}

  /** What is caught, read off the ledger and the record: a manifest write that has started and
      has no result, and whose output the record holds. */
  predicate HoldsOpenManifest(events: seq<LedgerEvent>, run: RuntimeRun) {
    exists i, k :: 0 <= i < |events| && 0 <= k < |run.assets| && OpenManifest(events, i, run.assets[k])
  }

  predicate OpenManifest(events: seq<LedgerEvent>, i: nat, item: RuntimeAsset)
    requires i < |events|
  {
    && IsOpenStart(events, events[i]) && events[i].payload.tool.WriteChecksumManifest?
    && item.asset.createdByAction == Some(events[i].payload.actionId)
  }

  lemma CaughtIff(events: seq<LedgerEvent>, run: RuntimeRun)
    requires Once(events)
    ensures CaughtManifest(events, run) <==> HoldsOpenManifest(events, run)
  {
    hide Unfinished;
    if CaughtManifest(events, run) {
      var i :| 0 <= i < |Unfinished(events)| && Caught(events, run, Unfinished(events)[i]);
      var a := Unfinished(events)[i];
      UnfinishedMeaning(events, a);
      var item := FindCreated(run.assets, a).value;
      var k :| 0 <= k < |run.assets| && run.assets[k] == item;
      assert OpenManifest(events, FindStart(events, a).value, run.assets[k]);
    }
    if HoldsOpenManifest(events, run) {
      var i, k :| 0 <= i < |events| && 0 <= k < |run.assets| && OpenManifest(events, i, run.assets[k]);
      var a := events[i].payload.actionId;
      assert Starts(events[i], a);
      UnfinishedMeaning(events, a);
      assert StartCount(events, a) <= 1;
      OneStart(events, i, FindStart(events, a).value);
      assert run.assets[k] in run.assets;
      var n :| 0 <= n < |Unfinished(events)| && Unfinished(events)[n] == a;
      assert Caught(events, run, Unfinished(events)[n]);
    }
  }

  /** Recovery finds all it needs to take up an open action: its start, its option and its
      description. */
  lemma {:induction false} ResumeFound(d: Disk, files: Files, state: RunStateSnapshot, actionId: Id)
    requires Good(d, files, state.runId) && actionId in Unfinished(Events(d, state.runId))
    ensures var events, run := Events(d, state.runId), d.runs[state.runId];
            && FindStart(events, actionId).Some?
            && var start := events[FindStart(events, actionId).value];
               && start.payload.actionId == actionId
               && |start.refs| > 0 && RunOption(run, start.refs[0]).Some?
               && var context := RecoveryContext(start, RunOption(run, start.refs[0]).value, state);
                  && OpenAt(d, context, FindStart(events, actionId).value)
                  && context.option.tool == start.payload.tool
                  && Describe(actionId, context.option, run).Some?
                  && (FindCreated(run.assets, actionId).None? ==> Unrecorded(d, context))
  {
    var events, run := Events(d, state.runId), d.runs[state.runId];
    UnfinishedMeaning(events, actionId);
    assert Resumable(events[FindStart(events, actionId).value], run, files);
  }

  lemma GoodSole(d: Disk, files: Files, runId: Id)
    requires Good(d, files, runId)
    ensures runId in d.runs && |Unfinished(Events(d, runId))| <= 1
    ensures Unfinished(Events(d, runId)) == [] <==> NoneOpen(Events(d, runId))
  {
    AtMostOneUnfinished(Events(d, runId));
  }

  // ------------------------------------------------------------ outcomes

  /** What `execute` returns: the run, and the new asset unless the action failed. */
  datatype Remedied = Remedied(run: RuntimeRun, newAssetId: Option<AssetId>)

  /** The two ways a started action ends that returns. Either way the ledger gained exactly
      one result and no action is open. On success the run gained exactly the described
      successor, and it is what the option asked for, over a file that hashes as recorded. On
      failure the run is what it was and the authorization is void. */
  ghost predicate Concluded(events: seq<LedgerEvent>, run: RuntimeRun, after: Disk, files: Files, action: Action,
                            option: RemediationOption, result: Remedied, closeId: Id)
    requires Describe(action.actionId, option, run).Some?
  {
    var descriptor := Describe(action.actionId, option, run).value;
    && action.runId in after.runs && after.runs[action.runId] == result.run
    && NoneOpen(Events(after, action.runId))
    && match result.newAssetId
       case Some(assetId) =>
         && descriptor.path in files
         && var item := Successor(action.actionId, run, descriptor, files[descriptor.path]);
            && item.asset.assetId == assetId
            && result.run == WithAsset(run, item)
            && Made(action.actionId, option, run, files, item)
            && Events(after, action.runId) == events + [CompletedEvent(events, action, item, closeId)]
       case None =>
         && result.run == run
         && AuthorizationVoid(after, action)
         && exists error ::
              Events(after, action.runId) == events + [FailedEvent(events, action, ErrorName(error), closeId)]
  }

  /** How recovery decides an action whose output the run does not record: by the file that is
      there. A promoted file that is what the tool must make becomes the successor; otherwise the run
      stays as it was and the action failed. */
  ghost predicate Reconciled(events: seq<LedgerEvent>, run: RuntimeRun, after: Disk, context: ActionContext,
                             descriptor: OutputDescriptor, result: Remedied, closeId: Id, before: Files, files: Files)
  {
    && context.action.runId in after.runs && after.runs[context.action.runId] == result.run
    && NoneOpen(Events(after, context.action.runId))
    && if descriptor.path in before && Fulfils(context.option, run, before, before[descriptor.path]) then
         var item := Successor(context.action.actionId, run, descriptor, before[descriptor.path]);
         && result == Remedied(WithAsset(run, item), Some(item.asset.assetId))
         && Intact(item, files)
         && Events(after, context.action.runId) == events + [CompletedEvent(events, context.action, item, closeId)]
       else
         var reason := if descriptor.path in before then "RECOVERY_VERIFICATION_FAILED"
           else "INTERRUPTED_BEFORE_PROMOTION";
         && result == Remedied(run, None)
         && AuthorizationVoid(after, context.action)
         && Events(after, context.action.runId) == events + [FailedEvent(events, context.action, reason, closeId)]
  }

  /** A whole execution that returns: the ledger gained exactly the start and one result. */
  ghost predicate Executed(before: Disk, after: Disk, files: Files, action: Action, option: RemediationOption,
                           result: Remedied, startId: Id, closeId: Id)
    requires Describable(before, action, option)
  {
    var events := Events(before, action.runId);
    && Framed(before, after, action.runId, Some(action))
    && Concluded(events + [StartedEvent(events, action, startId)], before.runs[action.runId], after, files, action,
      option,
                 result, closeId)
  }

  /** What any end of an execution leaves for a restart: the journals empty and every other
      part of the disk as it was, or the journal of a start that was cut short. */
  ghost predicate LeftBy(before: Disk, after: Disk, action: Action) {
    if TierOf(action.tool) == Some(ContentAffecting) && Usable(before, action) then
      Framed(before, after, action.runId, Some(action)) || ActionInterrupted(before, after, action)
    else if TierOf(action.tool) == Some(ContentAffecting) then
      after == before.(actionJournals := after.actionJournals)
    else
      Framed(before, after, action.runId, Some(action))
  }

  /** What `begin` does to the disk, refused or not, and wherever it is cut short. */
  ghost predicate BeginsAs(before: Disk, after: Disk, action: Action, startId: Id, done: bool) {
    if TierOf(action.tool) != Some(ContentAffecting) then
      var next := Appended(before, StartedEvent(Events(before, action.runId), action, startId));
      (after == before || after == next) && (done ==> after == next)
    else if !Usable(before, action) then
      !done && after == before.(actionJournals := after.actionJournals)
    else
      before.actionJournals == map[] && !HasStart(Events(before, action.runId), action.actionId) ==>
        && (done ==> after == Opened(before, action, startId))
        && (after == before || ActionInterrupted(before, after, action) || BegunBy(before, after, action))
  }

  /** The start has been recorded and the action is open. */
  ghost predicate Opens(before: Disk, after: Disk, action: Action, option: RemediationOption, startId: Id) {
    var events := Events(before, action.runId);
    && OpenAt(after, ActionContext(action, option), |events|) && Unrecorded(after, ActionContext(action, option))
    && Framed(before, after, action.runId, Some(action))
    && (TierOf(action.tool) == Some(ContentAffecting) ==> Usable(before, action))
    && Events(after, action.runId) == events + [StartedEvent(events, action, startId)]
  }

  lemma ReversibleBegin(before: Disk, after: Disk, files: Files, action: Action, option: RemediationOption, startId: Id,
                        done: bool)
    requires Ready(before, files, action, option) && Describable(before, action, option)
    requires TierOf(action.tool) != Some(ContentAffecting) && action.authorizationId.None?
    requires BeginsAs(before, after, action, startId, done)
    ensures Good(after, files, action.runId) && LeftBy(before, after, action) && after.runs == before.runs
    ensures done ==> Opens(before, after, action, option, startId)
  {
    hide Good, OpenAt, Framed, StartedEvent, Appended, Events, NoneOpen, HasStart, RunOption, Describe;
    FreshIsUnrecorded(before, files, action, option);
    ReversibleStart(before, files, action, option, startId);
    FramedSame(before, action.runId, Some(action));
  }

  lemma AuthorizedBegin(before: Disk, after: Disk, files: Files, action: Action, option: RemediationOption, startId: Id,
                        done: bool)
    requires Ready(before, files, action, option) && Describable(before, action, option)
      && before.actionJournals == map[]
    requires TierOf(action.tool) == Some(ContentAffecting)
    requires BeginsAs(before, after, action, startId, done)
    ensures Good(after, files, action.runId) && LeftBy(before, after, action) && after.runs == before.runs
  {
    hide Good, OpenAt, Framed, StartedEvent, UsableIn;
    FramedSame(before, action.runId, Some(action));
    if !Usable(before, action) {
      JournalsAside(before, after, files, action.runId);
    } else if done || BegunBy(before, after, action) {
      assert after == Opened(before, action, startId) || BegunBy(before, after, action);
      BegunGood(before, after, files, action, option);
    } else if ActionInterrupted(before, after, action) {
      InterruptedGood(before, after, files, action, option);
    }
  }

  lemma AuthorizedOpens(before: Disk, files: Files, action: Action, option: RemediationOption, startId: Id)
    requires Ready(before, files, action, option) && Describable(before, action, option) && Usable(before, action)
    requires TierOf(action.tool) == Some(ContentAffecting)
    ensures Opens(before, Opened(before, action, startId), action, option, startId)
  {
    hide Good, OpenAt, Framed, StartedEvent, UsableIn, SpentIn, OpenedIn, EventsIn, NoneOpen, HasStart, RunOption;
    FreshIsUnrecorded(before, files, action, option);
    AuthorizedStart(before, files, action, option, startId);
  }

  /** After `begin` the run is good however far it came; and if it returned, the action is
      open. */
  lemma BeginGood(before: Disk, after: Disk, files: Files, action: Action, option: RemediationOption, startId: Id,
                  done: bool)
    requires Ready(before, files, action, option) && Describable(before, action, option)
      && before.actionJournals == map[]
    requires TierOf(action.tool) != Some(ContentAffecting) ==> action.authorizationId.None?
    requires BeginsAs(before, after, action, startId, done)
    ensures Good(after, files, action.runId) && LeftBy(before, after, action) && after.runs == before.runs
    ensures done ==> Opens(before, after, action, option, startId)
  {
    if TierOf(action.tool) != Some(ContentAffecting) {
      ReversibleBegin(before, after, files, action, option, startId, done);
    } else {
      AuthorizedBegin(before, after, files, action, option, startId, done);
      if done {
        assert Usable(before, action) && after == Opened(before, action, startId);
        AuthorizedOpens(before, files, action, option, startId);
      }
    }
  }

  lemma RestartGood(before: Disk, after: Disk, files: Files, action: Action, option: RemediationOption)
    requires Ready(before, files, action, option) && Describable(before, action, option)
    requires Usable(before, action) && TierOf(action.tool) == Some(ContentAffecting)
    requires ActionInterrupted(before, after, action) || BegunBy(before, after, action)
    ensures Good(after, files, action.runId) && GrownOn(before, after, action.runId)
    ensures BegunBy(before, after, action) ==> Framed(before, after, action.runId, Some(action))
  {
    hide Good, UsableIn, Framed, Describe, RunOption, NoneOpen, HasStart;
    if BegunBy(before, after, action) {
      BegunGood(before, after, files, action, option);
    } else {
      InterruptedGood(before, after, files, action, option);
    }
  }

  /** What an execution leaves is told apart by the journal directory. */
  lemma LeftJournals(before: Disk, left: Disk, files: Files, action: Action, option: RemediationOption)
    requires Settled(before) && LeftBy(before, left, action)
    requires TierOf(action.tool) == Some(ContentAffecting) ==> Usable(before, action)
    requires Framed(before, left, action.runId, Some(action))
             || (Ready(before, files, action, option) && Describable(before, action, option))
    ensures left.actionJournals == map[] <==> Framed(before, left, action.runId, Some(action))
    ensures left.actionJournals == map[] ==> left.transitionJournals == map[]
    ensures left.actionJournals != map[] ==>
              TierOf(action.tool) == Some(ContentAffecting) && ActionInterrupted(before, left, action)
              && Ready(before, files, action, option) && Describable(before, action, option)
  {
    hide Good, UsableIn, Ready, Describe, ActionInterrupted, WellFormed;
    if !Framed(before, left, action.runId, Some(action)) {
      JournalsTell(before, left, action);
    }
  }

  lemma GrownByRuns(before: Disk, middle: Disk, after: Disk, runId: Id)
    requires GrownOn(before, middle, runId) && after.runs == middle.runs
    ensures GrownOn(before, after, runId)
  {}

  lemma RecordedRun(d: Disk, context: ActionContext, run: RuntimeRun, item: RuntimeAsset)
    requires Recorded(d, context, run, item)
    ensures context.action.runId in d.runs && d.runs[context.action.runId] == WithAsset(run, item)
    ensures !Unrecorded(d, context)
  {}

  lemma GrownByRecord(before: Disk, after: Disk, context: ActionContext, run: RuntimeRun, item: RuntimeAsset)
    requires context.action.runId in before.runs && before.runs[context.action.runId] == run
    requires Recorded(after, context, run, item)
    ensures GrownOn(before, after, context.action.runId)
  {}

  lemma GrownTwice(before: Disk, middle: Disk, after: Disk, runId: Id)
    requires GrownOn(before, middle, runId) && GrownOn(middle, after, runId)
    ensures GrownOn(before, after, runId)
  {}

  lemma GrownSame(d: Disk, runId: Id)
    requires runId in d.runs
    ensures GrownOn(d, d, runId)
  {}

  lemma FramedIsLeft(before: Disk, after: Disk, action: Action)
    requires Framed(before, after, action.runId, Some(action))
    requires TierOf(action.tool) == Some(ContentAffecting) ==> Usable(before, action)
    ensures LeftBy(before, after, action)
  {}

  /** A settled disk stays settled under whatever actions and recovery do to one run. */
  lemma FramedSettled(before: Disk, after: Disk, files: Files, runId: Id, starter: Option<Action>)
    requires Settled(before) && Framed(before, after, runId, starter) && Good(after, files, runId)
    ensures Settled(after)
  {
    hide Consistent, Chain, LastTarget, AuthorityOk;
    forall id ensures LedgerOk(after, id) && SnapshotAgrees(after, id) {
      assert LedgerOk(before, id) && SnapshotAgrees(before, id);
      if id != runId {
        assert Events(after, id) == Events(before, id);
      }
    }
  }

  /** The reading of a good run with no action open: each started action has exactly one
      start and one result; the result is a completion exactly when the run records the
      action's output and the file at its path hashes as recorded. */
  lemma ExactlyOnce(d: Disk, files: Files, runId: Id, s: nat)
    requires Good(d, files, runId) && NoneOpen(Events(d, runId))
    requires s < |Events(d, runId)| && Events(d, runId)[s].payload.ActionStarted?
    ensures var events, a := Events(d, runId), Events(d, runId)[s].payload.actionId;
            var output := FindCreated(d.runs[runId].assets, a);
            && StartCount(events, a) == 1 && CloseCount(events, a) == 1
            && ((exists i :: 0 <= i < |events| && Closes(events[i], a) && events[i].payload.ActionCompleted?)
                <==> output.Some? && Intact(output.value, files))
  {
    var events, a := Events(d, runId), Events(d, runId)[s].payload.actionId;
    var assets := d.runs[runId].assets;
    assert Starts(events[s], a) && HasClose(events, a);
    assert StartCount(events, a) <= 1 && CloseCount(events, a) <= 1;
    var c :| 0 <= c < |events| && Closes(events[c], a);
    assert CompletedOk(events[c], assets, files) && FailedOk(events[c], assets, files);
    forall i | 0 <= i < |events| && Closes(events[i], a) && events[i].payload.ActionCompleted?
      ensures FindCreated(assets, a).Some? && Intact(FindCreated(assets, a).value, files)
    {
      assert CompletedOk(events[i], assets, files);
    }
  }

  // ------------------------------------------------------------ the executor

  class RemediationExecutor {
    const workspace: Workspace
    const store: LocalDurableStore

    constructor (workspace: Workspace, store: LocalDurableStore)
      ensures this.workspace == workspace && this.store == store
    {
      this.workspace, this.store := workspace, store;
    }

    /** `ActionExecutor.begin`: every binding is checked before anything is written. */
    method Begin(state: RunStateSnapshot, authority: AuthorityRunContext, option: RemediationOption, input: ToolInput,
                 actor: string, actionId: Id, eventId: Id)
      returns (r: Outcome<ActionContext>)
      modifies store
      ensures !MayBegin(state, authority, option.tool, input, option) ==>
        Refuses(old(store.disk), store.disk, AuthorityRefused, r)
      ensures r.Done? ==> r.value == ActionContext(ActionFor(state, option, input, actionId, actor), option)
      ensures r.Raised? ==> Ordinary(r.error)
      ensures r.Raised? && MayBegin(state, authority, option.tool, input, option) ==>
                CanStart(old(store.disk), ActionFor(state, option, input, actionId, actor)) ==> r.error == IoError
      ensures BeginsAs(old(store.disk), store.disk, ActionFor(state, option, input, actionId, actor), eventId, r.Done?)
    {
      if !MayBegin(state, authority, option.tool, input, option) {
        return Raised(AuthorityRefused);
      }
      var action := ActionFor(state, option, input, actionId, actor);
      ghost var before := store.disk;
      var begun;
      if TierOf(option.tool) == Some(ContentAffecting) {
        begun := store.BeginAuthorizedAction(action, eventId);
        if begun.Done? && Usable(before, action) && before.actionJournals == map[]
           && !HasStart(Events(before, action.runId), action.actionId) {
          RedoUnopened(before, ActionJournaled(before, action), action, eventId);
        }
      } else {
        begun := store.AppendActionStarted(action, eventId);
      }
      var _ :- begun;
      return Done(ActionContext(action, option));
    }

    /** `_append_completed`. */
    method AppendCompleted(context: ActionContext, item: RuntimeAsset, eventId: Id, ghost s: nat)
      returns (r: Outcome<()>)
      requires Good(store.disk, workspace.files, context.action.runId) && OpenAt(store.disk, context, s)
      requires FindCreated(store.disk.runs[context.action.runId].assets, context.action.actionId) == Some(item)
      requires Intact(item, workspace.files)
      modifies store
      ensures var events := Events(old(store.disk), context.action.runId);
              Commits(old(store.disk), store.disk,
                Appended(old(store.disk), CompletedEvent(events, context.action, item, eventId)), r)
      ensures Good(store.disk, workspace.files, context.action.runId)
      ensures Framed(old(store.disk), store.disk, context.action.runId, None)
      ensures store.disk == old(store.disk) || NoneOpen(Events(store.disk, context.action.runId))
      ensures r.Done? ==> Events(store.disk, context.action.runId) == Events(old(store.disk), context.action.runId)
                            + [CompletedEvent(Events(old(store.disk), context.action.runId), context.action, item,
                              eventId)]
      ensures store.disk.runs == old(store.disk).runs && (r.Raised? ==> r.error == IoError)
    {
      hide Good, OpenAt, Framed, Acceptable;
      var event := CompletedEvent(Events(store.disk, context.action.runId), context.action, item, eventId);
      CloseStep(store.disk, workspace.files, context, s, event);
      FramedSame(store.disk, context.action.runId, None);
      r := store.AppendEvent(event);
    }

    /** `_append_failed`. */
    method AppendFailed(context: ActionContext, reason: string, eventId: Id, ghost s: nat) returns (r: Outcome<()>)
      requires Good(store.disk, workspace.files, context.action.runId) && OpenAt(store.disk, context, s)
      requires var item := FindCreated(store.disk.runs[context.action.runId].assets, context.action.actionId);
               item.None? || (!Intact(item.value, workspace.files) && IsRuntimeManifest(item.value))
      modifies store
      ensures var events := Events(old(store.disk), context.action.runId);
              Commits(old(store.disk), store.disk,
                Appended(old(store.disk), FailedEvent(events, context.action, reason, eventId)), r)
      ensures Good(store.disk, workspace.files, context.action.runId)
      ensures Framed(old(store.disk), store.disk, context.action.runId, None)
      ensures store.disk == old(store.disk) || NoneOpen(Events(store.disk, context.action.runId))
    {
      hide Good, OpenAt, Framed, Acceptable;
      var event := FailedEvent(Events(store.disk, context.action.runId), context.action, reason, eventId);
      CloseStep(store.disk, workspace.files, context, s, event);
      FramedSame(store.disk, context.action.runId, None);
      r := store.AppendEvent(event);
    }

    /** Recording a verified output: the run record first, then the result. */
    method Record(context: ActionContext, run: RuntimeRun, item: RuntimeAsset, eventId: Id, ghost s: nat)
      returns (r: Outcome<()>, persisted: bool)
      requires Good(store.disk, workspace.files, context.action.runId) && OpenAt(store.disk, context, s)
      requires store.disk.runs[context.action.runId] == run
      requires WillRecord(Events(store.disk, context.action.runId), run, workspace.files, s, item)
        && Belongs(item.asset, run.runId)
      modifies store
      ensures Good(store.disk, workspace.files, context.action.runId)
      ensures Framed(old(store.disk), store.disk, context.action.runId, None)
      ensures store.disk.authorizations == old(store.disk).authorizations
      ensures || (!persisted && store.disk == old(store.disk))
              || Recorded(store.disk, context, run, item)
      ensures r.Done? ==>
                && Recorded(store.disk, context, run, item)
                && NoneOpen(Events(store.disk, context.action.runId))
                && Events(store.disk, context.action.runId) == Events(old(store.disk), context.action.runId)
                     + [CompletedEvent(Events(old(store.disk), context.action.runId), context.action, item, eventId)]
      ensures OpenAt(store.disk, context, s) || NoneOpen(Events(store.disk, context.action.runId))
      ensures r.Raised? ==> r.error == IoError
    {
      hide Good, OpenAt, Framed, NoneOpen, WillRecord, Head, Belongs;
      ghost var before := store.disk;
      ghost var updated := before.(runs := before.runs[context.action.runId := WithAsset(run, item)]);
      persisted := false;
      PersistGood(before, workspace.files, context, s, item);
      FramedSame(before, context.action.runId, None);
      r := store.SaveRun(WithAsset(run, item));
      if r.Done? {
        persisted := true;
        r := AppendCompleted(context, item, eventId, s);
        FramedTwice(before, updated, store.disk, context.action.runId, None);
      }
    }

    /** What `_write_temporary` writes; rendering of audio is any content, or fails. */
    method Render(context: ActionContext, input: ToolInput, run: RuntimeRun) returns (r: Outcome<Content>)
      requires Describe(context.action.actionId, context.option, run).Some?
      ensures !r.Crashed? && (r.Raised? ==> Ordinary(r.error))
      ensures r.Done? && !context.option.tool.CreateNormalizedAudioDerivative?
                && (SourceOf(context, run).Some? ==> Intact(SourceOf(context, run).value, workspace.files)) ==>
                Verified(context.option, run, workspace.files, r.value)
      ensures r.Done? && SourceOf(context, run).Some? ==> !SourceOf(context, run).value.asset.protection.Original?
    {
      if InputOption(input) != Some(context.action.optionId) {
        return Raised(PermissionDenied);
      }
      if context.option.tool.WriteChecksumManifest? {
        return Done(ManifestText(ManifestLines(run.assets)));
      }
      var source := SourceOf(context, run).value;
      if source.asset.protection.Original? {
        return Raised(PermissionDenied);
      }
      if source.path !in workspace.files {
        return Raised(IoError);
      }
      match context.option.tool {
        case RenameDeliveryCopy =>
          return Done(workspace.files[source.path]);
        case ConvertCaptionFormat =>
          if CuesOf(workspace.files[source.path]).None? {
            return Raised(InvalidValue);
          }
          var layout: nat := *;
          return Done(CaptionText(layout, CuesOf(workspace.files[source.path])));
        case _ =>
          var rendered: Content := *;
          var failed: bool := *;
          return if failed then Raised(IoError) else Done(rendered);
      }
    }

    /** Write, verify, promote. */
    method Produce(context: ActionContext, input: ToolInput, run: RuntimeRun, descriptor: OutputDescriptor,
                   ghost s: nat)
      returns (r: Outcome<()>)
      requires Good(store.disk, workspace.files, context.action.runId) && OpenAt(store.disk, context, s)
      requires Unrecorded(store.disk, context) && store.disk.runs[context.action.runId] == run
      requires Describe(context.action.actionId, context.option, run) == Some(descriptor)
      modifies workspace
      ensures Good(store.disk, workspace.files, context.action.runId)
      ensures OnlyScratch(old(workspace.files), workspace.files, context.action.actionId)
      ensures r.Raised? ==> Ordinary(r.error)
      ensures r.Done? ==>
                && descriptor.path in workspace.files
                && Fulfils(context.option, run, workspace.files, workspace.files[descriptor.path])
                && WillRecord(Events(store.disk, context.action.runId), run, workspace.files, s,
                     Successor(context.action.actionId, run, descriptor, workspace.files[descriptor.path]))
    {
      hide Good, OpenAt, Verified, WillRecord, Fulfils;
      ghost var before := workspace.files;
      var content :- Render(context, input, run);
      r := workspace.WriteFile(descriptor.temporary, content);
      ScratchGood(store.disk, before, workspace.files, context, s);
      if r.IsFailure() {
        return;
      }
      if descriptor.temporary !in workspace.files
         || !Verified(context.option, run, workspace.files, workspace.files[descriptor.temporary]) {
        return Raised(InvalidValue);
      }
      if descriptor.path in workspace.files {
        return Raised(IoError);
      }
      PromotionGood(store.disk, workspace.files, context, descriptor, s);
      ghost var output := workspace.files[descriptor.temporary];
      ghost var after := (workspace.files - {descriptor.temporary})[descriptor.path := output];
      VerifiedFulfils(context.action.actionId, context.option, run, after, output);
      r := workspace.Replace(descriptor.temporary, descriptor.path);
    }

    /** The first half of `_fail_action`. */
    method VoidAuthority(context: ActionContext, ghost s: nat) returns (r: Outcome<()>)
      requires Good(store.disk, workspace.files, context.action.runId) && OpenAt(store.disk, context, s)
      modifies store
      ensures Good(store.disk, workspace.files, context.action.runId) && OpenAt(store.disk, context, s)
      ensures Framed(old(store.disk), store.disk, context.action.runId, None)
      ensures store.disk.runs == old(store.disk).runs && store.disk.ledgers == old(store.disk).ledgers
      ensures r.Done? ==> AuthorizationVoid(store.disk, context.action)
      ensures r.Raised? ==> r.error == IoError
    {
      hide Good, OpenAt, Framed;
      FramedSame(store.disk, context.action.runId, None);
      if context.action.authorizationId.None? {
        return Done(());
      }
      VoidGood(store.disk, workspace.files, context, s);
      r := store.VoidAuthorization(context.action.authorizationId.value);
    }

    /** `_fail_action`: the authorization is voided before the failure is recorded. */
    method FailAction(context: ActionContext, reason: string, eventId: Id, ghost s: nat) returns (r: Outcome<()>)
      requires Good(store.disk, workspace.files, context.action.runId) && OpenAt(store.disk, context, s)
      requires var item := FindCreated(store.disk.runs[context.action.runId].assets, context.action.actionId);
               item.None? || (!Intact(item.value, workspace.files) && IsRuntimeManifest(item.value))
      modifies store
      ensures Good(store.disk, workspace.files, context.action.runId)
      ensures Framed(old(store.disk), store.disk, context.action.runId, None)
      ensures store.disk.runs == old(store.disk).runs
      ensures r.Done? ==>
                var events := Events(old(store.disk), context.action.runId);
                && Events(store.disk, context.action.runId) ==
                  events + [FailedEvent(events, context.action, reason, eventId)]
                && NoneOpen(Events(store.disk, context.action.runId))
                && AuthorizationVoid(store.disk, context.action)
      ensures OpenAt(store.disk, context, s) || NoneOpen(Events(store.disk, context.action.runId))
      ensures r.Raised? ==> r.error == IoError
    {
      hide Good, OpenAt, Framed, NoneOpen, Head;
      ghost var before := store.disk;
      r := VoidAuthority(context, s);
      if r.Done? {
        ghost var voided := store.disk;
        r := AppendFailed(context, reason, eventId, s);
        FramedTwice(before, voided, store.disk, context.action.runId, None);
      }
    }

    /** The body of `execute`'s `try`, with the two flags its handler reads. */
    method Attempt(context: ActionContext, input: ToolInput, run: RuntimeRun, descriptor: OutputDescriptor, closeId: Id,
                   ghost s: nat)
      returns (r: Outcome<RuntimeAsset>, promoted: bool, persisted: bool)
      requires Good(store.disk, workspace.files, context.action.runId) && OpenAt(store.disk, context, s)
      requires Unrecorded(store.disk, context) && store.disk.runs[context.action.runId] == run
      requires Describe(context.action.actionId, context.option, run) == Some(descriptor)
      modifies store, workspace
      ensures Good(store.disk, workspace.files, context.action.runId)
      ensures Framed(old(store.disk), store.disk, context.action.runId, None)
      ensures OnlyScratch(old(workspace.files), workspace.files, context.action.actionId)
      ensures || (!persisted && store.disk == old(store.disk))
              || (promoted && exists item :: Recorded(store.disk, context, run, item))
      ensures r.Raised? ==> Ordinary(r.error) && (promoted ==> r.error == IoError)
      ensures r.Done? ==>
                && descriptor.path in workspace.files
                && r.value == Successor(context.action.actionId, run, descriptor, workspace.files[descriptor.path])
                && Made(context.action.actionId, context.option, run, workspace.files, r.value)
                && Recorded(store.disk, context, run, r.value)
                && NoneOpen(Events(store.disk, context.action.runId))
                && Events(store.disk, context.action.runId) == Events(old(store.disk), context.action.runId)
                     + [CompletedEvent(Events(old(store.disk), context.action.runId), context.action, r.value, closeId)]
    {
      hide Good, OpenAt, Framed, NoneOpen, Head, WillRecord, Recorded, Belongs, Fulfils, Made;
      FramedSame(store.disk, context.action.runId, None);
      promoted, persisted := false, false;
      var _ :- Produce(context, input, run, descriptor, s);
      promoted := true;
      var item := Successor(context.action.actionId, run, descriptor, workspace.files[descriptor.path]);
      SuccessorBelongs(context.action.actionId, context.option, run, workspace.files[descriptor.path]);
      SuccessorIsMade(context.action.actionId, context.option, run, workspace.files, item);
      var recorded;
      recorded, persisted := Record(context, run, item, closeId, s);
      var _ :- recorded;
      r := Done(item);
    }

    method RemoveTemporary(context: ActionContext, descriptor: OutputDescriptor) returns (r: Outcome<()>)
      requires Good(store.disk, workspace.files, context.action.runId)
      requires descriptor.temporary.TemporaryPath? && descriptor.temporary.actionId == context.action.actionId
      modifies workspace
      ensures Good(store.disk, workspace.files, context.action.runId)
      ensures workspace.files == old(workspace.files) || workspace.files ==
        old(workspace.files) - {descriptor.temporary}
      ensures OnlyScratch(old(workspace.files), workspace.files, context.action.actionId)
      ensures r.Raised? ==> r.error == IoError
    {
      hide Good, OnlyLoose;
      r := workspace.Unlink(descriptor.temporary);
      TemporaryIsLoose(old(workspace.files), workspace.files, descriptor.temporary);
      LooseGood(store.disk, old(workspace.files), workspace.files, context.action.runId);
    }

    /** `_quarantine`: the output is put aside under a name no asset has. */
    method Quarantine(context: ActionContext, descriptor: OutputDescriptor, ghost s: nat) returns (r: Outcome<()>)
      requires Good(store.disk, workspace.files, context.action.runId) && OpenAt(store.disk, context, s)
      requires Unrecorded(store.disk, context) || context.option.tool.WriteChecksumManifest?
      requires PathOwner(descriptor.path) == Some(ActionAsset(context.action.actionId))
        && descriptor.path in workspace.files
      modifies workspace
      ensures Good(store.disk, workspace.files, context.action.runId)
      ensures OnlyScratch(old(workspace.files), workspace.files, context.action.actionId)
      ensures r.Done? ==> descriptor.path !in workspace.files
      ensures r.Raised? ==> r.error == IoError
    {
      hide Good, OpenAt, Unrecorded;
      r := workspace.Replace(descriptor.path, QuarantinePath(descriptor.path, context.action.actionId));
      ScratchGood(store.disk, old(workspace.files), workspace.files, context, s);
    }

    /** The handler of `execute`: an output that became durable is kept and the error raised
        again; otherwise the output is put aside, the authorization voided and the failure
        recorded. */
    method Compensate(context: ActionContext, run: RuntimeRun, descriptor: OutputDescriptor, error: Error,
                      promoted: bool, persisted: bool, closeId: Id, ghost s: nat)
      returns (r: Outcome<()>)
      requires Good(store.disk, workspace.files, context.action.runId)
      requires Describe(context.action.actionId, context.option, run) == Some(descriptor)
      requires || (!persisted && Unrecorded(store.disk, context) && OpenAt(store.disk, context, s)
                   && store.disk.runs[context.action.runId] == run)
               || (promoted && context.action.runId in store.disk.runs && !Unrecorded(store.disk, context))
      modifies store, workspace
      ensures Good(store.disk, workspace.files, context.action.runId)
      ensures Framed(old(store.disk), store.disk, context.action.runId, None)
      ensures OnlyScratch(old(workspace.files), workspace.files, context.action.actionId)
      ensures store.disk.runs == old(store.disk).runs
      ensures r.Raised? ==> r.error == IoError || (promoted && r.error == error)
      ensures r.Done? ==>
                var events := Events(old(store.disk), context.action.runId);
                && Unrecorded(store.disk, context)
                && Events(store.disk, context.action.runId) ==
                  events + [FailedEvent(events, context.action, ErrorName(error), closeId)]
                && NoneOpen(Events(store.disk, context.action.runId))
                && AuthorizationVoid(store.disk, context.action)
    {
      hide Good, OpenAt, Framed, NoneOpen, Head, AuthorizationVoid;
      FramedSame(store.disk, context.action.runId, None);
      var _ :- RemoveTemporary(context, descriptor);
      var kept := persisted;
      if promoted && !persisted {
        var durable := store.LoadRun(context.action.runId);
        kept := FindCreated(if durable.Done? then durable.value.assets else run.assets, context.action.actionId).Some?;
      }
      if kept {
        return Raised(error);
      }
      if promoted && descriptor.path in workspace.files {
        var _ :- Quarantine(context, descriptor, s);
      }
      r := FailAction(context, ErrorName(error), closeId, s);
    }

    /** `execute`, once the action is started. */
    method Perform(context: ActionContext, input: ToolInput, run: RuntimeRun, descriptor: OutputDescriptor, closeId: Id,
                   ghost s: nat)
      returns (r: Outcome<Remedied>)
      requires Good(store.disk, workspace.files, context.action.runId) && OpenAt(store.disk, context, s)
      requires Unrecorded(store.disk, context) && store.disk.runs[context.action.runId] == run
      requires Describe(context.action.actionId, context.option, run) == Some(descriptor)
      modifies store, workspace
      ensures Good(store.disk, workspace.files, context.action.runId)
      ensures Framed(old(store.disk), store.disk, context.action.runId, None)
      ensures OnlyScratch(old(workspace.files), workspace.files, context.action.actionId)
      ensures r.Done? ==> Concluded(Events(old(store.disk), context.action.runId), run, store.disk, workspace.files,
                                    context.action, context.option, r.value, closeId)
      ensures GrownOn(old(store.disk), store.disk, context.action.runId)
      ensures r.Raised? ==> r.error == IoError
    {
      hide Good, OpenAt, Framed, NoneOpen, Head, Made, AuthorizationVoid, GrownOn, Recorded;
      ghost var before := store.disk;
      GrownSame(before, context.action.runId);
      var attempt, promoted, persisted := Attempt(context, input, run, descriptor, closeId, s);
      if exists item :: Recorded(store.disk, context, run, item) {
        ghost var item :| Recorded(store.disk, context, run, item);
        RecordedRun(store.disk, context, run, item);
        GrownByRecord(before, store.disk, context, run, item);
      }
      if attempt.Done? {
        RecordedRun(store.disk, context, run, attempt.value);
        return Done(Remedied(WithAsset(run, attempt.value), Some(attempt.value.asset.assetId)));
      }
      if attempt.Crashed? {
        return Crashed;
      }
      ghost var attempted := store.disk;
      var settled := Compensate(context, run, descriptor, attempt.error, promoted, persisted, closeId, s);
      GrownByRuns(before, attempted, store.disk, context.action.runId);
      FramedTwice(before, attempted, store.disk, context.action.runId, None);
      var _ :- settled;
      return Done(Remedied(run, None));
    }

    /** `begin`, for an action the runtime can describe. */
    method StartAction(state: RunStateSnapshot, authority: AuthorityRunContext, option: RemediationOption,
                       input: ToolInput, actor: string, actionId: Id, startId: Id)
      returns (r: Outcome<ActionContext>)
      requires var action := ActionFor(state, option, input, actionId, actor);
               Ready(store.disk, workspace.files, action, option) && Describable(store.disk, action, option)
      requires store.disk.actionJournals == map[]
      modifies store
      ensures !MayBegin(state, authority, option.tool, input, option) ==>
                r == Raised(AuthorityRefused) && store.disk == old(store.disk)
      ensures r.Raised? ==> Ordinary(r.error)
      ensures r.Raised? && MayBegin(state, authority, option.tool, input, option) ==>
                CanStart(old(store.disk), ActionFor(state, option, input, actionId, actor)) ==> r.error == IoError
      ensures var action := ActionFor(state, option, input, actionId, actor);
              && Good(store.disk, workspace.files, state.runId)
              && LeftBy(old(store.disk), store.disk, action) && store.disk.runs == old(store.disk).runs
              && (r.Done? ==> r.value == ActionContext(action, option)
                              && Opens(old(store.disk), store.disk, action, option, startId))
    {
      ghost var action := ActionFor(state, option, input, actionId, actor);
      hide Ready, Describable, Opens, MayBegin, LeftBy, BeginsAs, Good, CanStart;
      r := Begin(state, authority, option, input, actor, actionId, startId);
      BeginGood(old(store.disk), store.disk, workspace.files, action, option, startId, r.Done?);
    }

    /** `execute`, for an action the runtime can describe. Whatever happens, the run is left
        good; a return means the action is concluded. Where every binding holds and the
        authorization is there, nothing but a fault of the store or the files is raised. */
    method Execute(run: RuntimeRun, state: RunStateSnapshot, authority: AuthorityRunContext, option: RemediationOption,
                   input: ToolInput, actor: string, actionId: Id, startId: Id, closeId: Id)
      returns (r: Outcome<Remedied>)
      requires var action := ActionFor(state, option, input, actionId, actor);
               Ready(store.disk, workspace.files, action, option) && Describable(store.disk, action, option)
      requires store.disk.actionJournals == map[] && store.disk.runs[state.runId] == run
      modifies store, workspace
      ensures !MayBegin(state, authority, option.tool, input, option) ==>
                r == Raised(AuthorityRefused) && store.disk == old(store.disk)
                  && workspace.files == old(workspace.files)
      ensures OnlyScratch(old(workspace.files), workspace.files, actionId) && (r.Raised? ==> Ordinary(r.error))
      ensures r.Raised? && MayBegin(state, authority, option.tool, input, option) ==>
                CanStart(old(store.disk), ActionFor(state, option, input, actionId, actor)) ==> r.error == IoError
      ensures var action := ActionFor(state, option, input, actionId, actor);
              && Good(store.disk, workspace.files, state.runId)
              && (r.Done? ==> Executed(old(store.disk), store.disk, workspace.files, action, option, r.value, startId,
                closeId))
              && LeftBy(old(store.disk), store.disk, action)
              && GrownOn(old(store.disk), store.disk, state.runId)
              && (workspace.files == old(workspace.files) || Framed(old(store.disk), store.disk, state.runId,
                Some(action)))
    {
      hide Good, OpenAt, Framed, NoneOpen, MayBegin, UsableIn, ActionInterrupted, Concluded, OnlyScratch, Head,
           StartedEvent, CanStart;
      SameScratch(workspace.files, actionId);
      ghost var before := store.disk;
      var context :- StartAction(state, authority, option, input, actor, actionId, startId);
      ghost var started := store.disk;
      r := Perform(context, input, run, Describe(actionId, option, run).value, closeId, |Events(before, state.runId)|);
      FramedTwice(before, started, store.disk, state.runId, Some(ActionFor(state, option, input, actionId, actor)));
    }

    /** An output the run records but that no longer checks out, which can only be a manifest:
        the file is put aside, the action failed, and recovery gives up. */
    method RejectRecorded(context: ActionContext, descriptor: OutputDescriptor, item: RuntimeAsset, closeId: Id,
                          ghost s: nat)
      returns (r: Outcome<()>)
      requires Good(store.disk, workspace.files, context.action.runId) && OpenAt(store.disk, context, s)
      requires context.option.tool.WriteChecksumManifest?
      requires FindCreated(store.disk.runs[context.action.runId].assets, context.action.actionId) == Some(item)
      requires IsRuntimeManifest(item)
      requires item.path == descriptor.path && PathOwner(descriptor.path) == Some(ActionAsset(context.action.actionId))
      requires descriptor.temporary.TemporaryPath? && descriptor.temporary.actionId == context.action.actionId
      modifies store, workspace
      ensures Good(store.disk, workspace.files, context.action.runId)
      ensures Framed(old(store.disk), store.disk, context.action.runId, None)
      ensures OnlyScratch(old(workspace.files), workspace.files, context.action.actionId)
      ensures store.disk.runs == old(store.disk).runs
      ensures !r.Done? && (r == Raised(RecoveryIntegrity) ==> NoneOpen(Events(store.disk, context.action.runId)))
      ensures r.Raised? ==> r.error == RecoveryIntegrity || r.error == IoError
    {
      hide Good, OpenAt, Framed, NoneOpen, Head, AuthorizationVoid, Events;
      FramedSame(store.disk, context.action.runId, None);
      if descriptor.path in workspace.files {
        var _ :- Quarantine(context, descriptor, s);
      }
      var _ :- RemoveTemporary(context, descriptor);
      var _ :- FailAction(context, "RECOVERY_PERSISTED_ASSET_INVALID", closeId, s);
      r := Raised(RecoveryIntegrity);
    }

    /** The branch of `recover` for an output the run already records. */
    method RecoverRecorded(context: ActionContext, run: RuntimeRun, descriptor: OutputDescriptor, item: RuntimeAsset,
                           closeId: Id, ghost s: nat)
      returns (r: Outcome<()>)
      requires Good(store.disk, workspace.files, context.action.runId) && OpenAt(store.disk, context, s)
      requires store.disk.runs[context.action.runId] == run
      requires Describe(context.action.actionId, context.option, run) == Some(descriptor)
      requires FindCreated(run.assets, context.action.actionId) == Some(item)
      modifies store, workspace
      ensures Good(store.disk, workspace.files, context.action.runId)
      ensures Framed(old(store.disk), store.disk, context.action.runId, None)
      ensures OnlyScratch(old(workspace.files), workspace.files, context.action.actionId)
      ensures store.disk.runs == old(store.disk).runs
      ensures context.option.tool.WriteChecksumManifest? ==>
                !r.Done? && (r == Raised(RecoveryIntegrity) ==> NoneOpen(Events(store.disk, context.action.runId)))
      ensures !context.option.tool.WriteChecksumManifest? ==> r != Raised(RecoveryIntegrity)
      ensures r.Raised? ==> r.error == RecoveryIntegrity || r.error == IoError
      ensures r.Done? ==>
                && NoneOpen(Events(store.disk, context.action.runId))
                && Events(store.disk, context.action.runId) == Events(old(store.disk), context.action.runId)
                     + [CompletedEvent(Events(old(store.disk), context.action.runId), context.action, item, closeId)]
      ensures r.Done? ==>
                Made(context.action.actionId, context.option, run, old(workspace.files), item)
    {
      hide Good, OpenAt, Framed, NoneOpen, Head, Verified, MatchesDescriptor, Describe, Appended, Commits, OnlyScratch,
           CompletedEvent, FindCreated, Made;
      RecordedChecks(store.disk, workspace.files, context, descriptor, item, s);
      SameScratch(workspace.files, context.action.actionId);
      if MatchesDescriptor(item, descriptor) && Intact(item, workspace.files)
         && Verified(context.option, run, workspace.files, workspace.files[descriptor.path]) {
        RecordedIsMade(context.action.actionId, context.option, run, workspace.files, item);
        var _ :- AppendCompleted(context, item, closeId, s);
        r := RemoveTemporary(context, descriptor);
      } else {
        r := RejectRecorded(context, descriptor, item, closeId, s);
      }
    }

    /** The branches of `recover` for an output the run does not record: a promoted file that
        passes the tool's check is recorded, anything else is a failure. */
    method RecoverUnrecorded(context: ActionContext, run: RuntimeRun, descriptor: OutputDescriptor, closeId: Id,
                             ghost s: nat)
      returns (r: Outcome<Remedied>)
      requires Good(store.disk, workspace.files, context.action.runId) && OpenAt(store.disk, context, s)
      requires store.disk.runs[context.action.runId] == run && Unrecorded(store.disk, context)
      requires Describe(context.action.actionId, context.option, run) == Some(descriptor)
      modifies store, workspace
      ensures Good(store.disk, workspace.files, context.action.runId)
      ensures Framed(old(store.disk), store.disk, context.action.runId, None)
      ensures OnlyScratch(old(workspace.files), workspace.files, context.action.actionId)
      ensures r.Raised? ==> r.error == IoError
      ensures GrownOn(old(store.disk), store.disk, context.action.runId)
      ensures r.Done? ==>
                && Reconciled(Events(old(store.disk), context.action.runId), run, store.disk, context, descriptor,
                  r.value, closeId,
                              old(workspace.files), workspace.files)
    {
      hide Good, OpenAt, Framed, NoneOpen, Head, Verified, Describe, Appended, Commits, OnlyScratch, Events,
           CompletedEvent, FailedEvent, WillRecord, AuthorizationVoid, Belongs, Fulfils;
      FramedSame(store.disk, context.action.runId, None);
      SameScratch(workspace.files, context.action.actionId);
      DescribedPaths(context.action.actionId, context.option, run);
      if descriptor.path in workspace.files {
        VerifiedFulfils(context.action.actionId, context.option, run, workspace.files,
          workspace.files[descriptor.path]);
        if Verified(context.option, run, workspace.files, workspace.files[descriptor.path]) {
          OpenWillRecord(store.disk, workspace.files, context, descriptor, s);
          var item := Successor(context.action.actionId, run, descriptor, workspace.files[descriptor.path]);
          SuccessorBelongs(context.action.actionId, context.option, run, workspace.files[descriptor.path]);
          var recorded, _ := Record(context, run, item, closeId, s);
          var _ :- recorded;
          var _ :- RemoveTemporary(context, descriptor);
          return Done(Remedied(WithAsset(run, item), Some(item.asset.assetId)));
        }
        r := Withdraw(context, run, descriptor, "RECOVERY_VERIFICATION_FAILED", closeId, s);
      } else {
        r := Withdraw(context, run, descriptor, "INTERRUPTED_BEFORE_PROMOTION", closeId, s);
      }
    }

    /** Put aside whatever was promoted and fail the action. */
    method Withdraw(context: ActionContext, run: RuntimeRun, descriptor: OutputDescriptor, reason: string, closeId: Id,
                    ghost s: nat)
      returns (r: Outcome<Remedied>)
      requires Good(store.disk, workspace.files, context.action.runId) && OpenAt(store.disk, context, s)
      requires store.disk.runs[context.action.runId] == run && Unrecorded(store.disk, context)
      requires PathOwner(descriptor.path) == Some(ActionAsset(context.action.actionId))
      requires descriptor.temporary.TemporaryPath? && descriptor.temporary.actionId == context.action.actionId
      modifies store, workspace
      ensures Good(store.disk, workspace.files, context.action.runId)
      ensures Framed(old(store.disk), store.disk, context.action.runId, None)
      ensures OnlyScratch(old(workspace.files), workspace.files, context.action.actionId)
      ensures r.Raised? ==> r.error == IoError
      ensures store.disk.runs == old(store.disk).runs
      ensures r.Done? ==>
                && r.value == Remedied(run, None)
                && NoneOpen(Events(store.disk, context.action.runId))
                && AuthorizationVoid(store.disk, context.action)
                && Events(store.disk, context.action.runId) == Events(old(store.disk), context.action.runId)
                     + [FailedEvent(Events(old(store.disk), context.action.runId), context.action, reason, closeId)]
    {
      hide Good, OpenAt, Framed, NoneOpen, Head, AuthorizationVoid, Events, FailedEvent;
      FramedSame(store.disk, context.action.runId, None);
      if descriptor.path in workspace.files {
        var _ :- Quarantine(context, descriptor, s);
      }
      var _ :- RemoveTemporary(context, descriptor);
      var _ :- FailAction(context, reason, closeId, s);
      r := Done(Remedied(run, None));
    }

    /** One turn of `recover`'s loop. */
    method RecoverAction(run: RuntimeRun, state: RunStateSnapshot, events: seq<LedgerEvent>, actionId: Id, closeId: Id)
      returns (r: Outcome<RuntimeRun>)
      requires Good(store.disk, workspace.files, state.runId) && store.disk.runs[state.runId] == run
      requires events == Events(store.disk, state.runId) && actionId in Unfinished(events)
      modifies store, workspace
      ensures Good(store.disk, workspace.files, state.runId)
      ensures Framed(old(store.disk), store.disk, state.runId, None)
      ensures OnlyScratch(old(workspace.files), workspace.files, actionId)
      ensures r.Done? ==>
                && state.runId in store.disk.runs && store.disk.runs[state.runId] == r.value
                && NoneOpen(Events(store.disk, state.runId))
      ensures GrownOn(old(store.disk), store.disk, state.runId)
      ensures Caught(events, run, actionId) ==> !r.Done?
      ensures r.Raised? ==> r.error == RecoveryIntegrity || r.error == IoError
      ensures r == Raised(RecoveryIntegrity) ==>
        Caught(events, run, actionId) && NoneOpen(Events(store.disk, state.runId))
    {
      hide Good, OpenAt, Framed, NoneOpen, Head, Describe, OnlyScratch, Events, CompletedEvent, FailedEvent, Verified;
      ResumeFound(store.disk, workspace.files, state, actionId);
      ghost var s := FindStart(events, actionId).value;
      var taken := TakeUp(run, state, events, actionId);
      var context, descriptor := taken.value.0, taken.value.1;
      var existing := FindCreated(run.assets, actionId);
      if existing.Some? {
        var _ :- RecoverRecorded(context, run, descriptor, existing.value, closeId, s);
        return Done(run);
      }
      var remedied :- RecoverUnrecorded(context, run, descriptor, closeId, s);
      return Done(remedied.run);
    }

    /** `recover`: decide every open action, of which there is at most one. A return leaves no
        action open. It gives up exactly on a manifest write caught between recording the
        manifest and completing the action. */
    method Recover(run: RuntimeRun, state: RunStateSnapshot, nonce: Id) returns (r: Outcome<RuntimeRun>)
      requires Good(store.disk, workspace.files, state.runId) && store.disk.runs[state.runId] == run
      modifies store, workspace
      ensures Good(store.disk, workspace.files, state.runId)
      ensures Framed(old(store.disk), store.disk, state.runId, None)
      ensures GrownOn(old(store.disk), store.disk, state.runId)
      ensures !state.status.Remediating? ==>
                r == Raised(InvalidValue) && store.disk == old(store.disk) && workspace.files == old(workspace.files)
      ensures r.Done? ==>
                && state.runId in store.disk.runs && store.disk.runs[state.runId] == r.value
                && NoneOpen(Events(store.disk, state.runId))
      ensures var events := Events(old(store.disk), state.runId);
              && (state.status.Remediating? && NoneOpen(events) ==>
                    r == Done(run) && store.disk == old(store.disk) && workspace.files == old(workspace.files))
              && (state.status.Remediating? && r.Raised? ==> r.error == RecoveryIntegrity || r.error == IoError)
              && (CaughtManifest(events, run) ==> !r.Done?)
              && (r == Raised(RecoveryIntegrity) ==>
                CaughtManifest(events, run) && NoneOpen(Events(store.disk, state.runId)))
    {
      hide Good, Framed, NoneOpen, Caught, CaughtManifest, Events, OnlyScratch, Unfinished, GrownOn;
      ghost var before := store.disk;
      GoodSole(before, workspace.files, state.runId);
      GrownSame(before, state.runId);
      FramedSame(before, state.runId, None);
      if !state.status.Remediating? {
        return Raised(InvalidValue);
      }
      var events := Events(store.disk, state.runId);
      SoleCaught(events, run);
      var pending := Unfinished(events);
      var recovered := run;
      for i := 0 to |pending|
        invariant Good(store.disk, workspace.files, state.runId) && Framed(before, store.disk, state.runId, None)
        invariant state.runId in store.disk.runs && store.disk.runs[state.runId] == recovered
        invariant GrownOn(before, store.disk, state.runId)
        invariant i == 0 ==> store.disk == before && workspace.files == old(workspace.files) && recovered == run
        invariant i == 1 ==> NoneOpen(Events(store.disk, state.runId)) && !CaughtManifest(events, run)
      {
        assert pending[i] in pending && i == 0;
        recovered :- RecoverAction(recovered, state, events, pending[i], nonce + pending[i]);
      }
      return Done(recovered);
    }

    /** Opening the store again after an execution was cut short. */
    method Restart(ghost before: Disk, ghost action: Action, ghost option: RemediationOption, nonce: Id)
      returns (recovered: bool)
      requires Settled(before) && LeftBy(before, store.disk, action)
      requires TierOf(action.tool) == Some(ContentAffecting) ==> Usable(before, action)
      requires Good(store.disk, workspace.files, action.runId) && GrownOn(before, store.disk, action.runId)
      requires Framed(before, store.disk, action.runId, Some(action))
               || (Ready(before, workspace.files, action, option) && Describable(before, action, option))
      modifies store
      ensures LeftBy(before, store.disk, action)
      ensures Good(store.disk, workspace.files, action.runId) && GrownOn(before, store.disk, action.runId)
      ensures recovered ==> Framed(before, store.disk, action.runId, Some(action))
      ensures Framed(before, store.disk, action.runId, Some(action))
              || (Ready(before, workspace.files, action, option) && Describable(before, action, option))
    {
      hide Good, WellFormed, UsableIn, Framed, ActionInterrupted, BegunBy, Consistent, Chain;
      ghost var left := store.disk;
      LeftJournals(before, left, workspace.files, action, option);
      recovered := store.ReopenAfterBegin(before, action, nonce);
      if left.actionJournals != map[] {
        RestartGood(before, store.disk, workspace.files, action, option);
      }
    }

    /** Exactly-once remediation. Execute an action, die or fail at any durable step, restart
        any number of times, each restart opening the store and recovering the run and free
        to die again. The run is good throughout, and once one of them returns, nothing is
        left half done: the disk is settled and every started action has its one result. */
    method ExecuteAcrossCrashes(run: RuntimeRun, state: RunStateSnapshot, authority: AuthorityRunContext,
                                option: RemediationOption, input: ToolInput, actor: string, actionId: Id, startId: Id,
                                closeId: Id, nonce: Id, restarts: nat)
      returns (recovered: bool)
      requires var action := ActionFor(state, option, input, actionId, actor);
               && Ready(store.disk, workspace.files, action, option) && Describable(store.disk, action, option)
               && (TierOf(action.tool) == Some(ContentAffecting) ==> Usable(store.disk, action))
      requires Settled(store.disk) && store.disk.runs[state.runId] == run
      modifies store, workspace
      ensures Good(store.disk, workspace.files, state.runId)
      ensures GrownOn(old(store.disk), store.disk, state.runId)
      ensures recovered ==>
                && Settled(store.disk)
                && Framed(old(store.disk), store.disk, state.runId,
                  Some(ActionFor(state, option, input, actionId, actor)))
                && NoneOpen(Events(store.disk, state.runId))
    {
      ghost var action := ActionFor(state, option, input, actionId, actor);
      ghost var before := store.disk;
      var executed := Execute(run, state, authority, option, input, actor, actionId, startId, closeId);
      recovered := executed.Done?;
      hide Good, Framed, Ready, Describable, NoneOpen, LeftBy, GrownOn, Executed, OnlyScratch;
      for attempt := 0 to restarts
        invariant Good(store.disk, workspace.files, state.runId) && GrownOn(before, store.disk, state.runId)
        invariant LeftBy(before, store.disk, action)
        invariant Framed(before, store.disk, state.runId, Some(action))
                  || (Ready(before, workspace.files, action, option) && Describable(before, action, option))
        invariant recovered ==>
          Framed(before, store.disk, state.runId, Some(action)) && NoneOpen(Events(store.disk, state.runId))
      {
        if !recovered {
          var reopened := Restart(before, action, option, nonce);
          if reopened {
            recovered := RecoverReopened(state, before, action, nonce);
          }
        }
      }
      if recovered {
        FramedSettled(before, store.disk, workspace.files, state.runId, Some(action));
      }
    }

    method RecoverReopened(state: RunStateSnapshot, ghost before: Disk, ghost action: Action, nonce: Id)
      returns (recovered: bool)
      requires Good(store.disk, workspace.files, state.runId) && GrownOn(before, store.disk, state.runId)
      requires Framed(before, store.disk, state.runId, Some(action)) && action.runId == state.runId
      requires TierOf(action.tool) == Some(ContentAffecting) ==> Usable(before, action)
      modifies store, workspace
      ensures Good(store.disk, workspace.files, state.runId) && GrownOn(before, store.disk, state.runId)
      ensures Framed(before, store.disk, state.runId, Some(action)) && LeftBy(before, store.disk, action)
      ensures recovered ==> NoneOpen(Events(store.disk, state.runId))
    {
      ghost var reopened := store.disk;
      assert state.runId in reopened.runs;
      hide Good, Framed, NoneOpen, Events, GrownOn, LeftBy, UsableIn;
      var latest := store.LoadRun(state.runId);
      var r := Recover(latest.value, state, nonce);
      FramedTwice(before, reopened, store.disk, state.runId, Some(action));
      GrownTwice(before, reopened, store.disk, state.runId);
      FramedIsLeft(before, store.disk, action);
      recovered := r.Done?;
    }

    /** The first steps of a turn of `recover`: the start, its option, what it is to produce. */
    method TakeUp(run: RuntimeRun, state: RunStateSnapshot, events: seq<LedgerEvent>, actionId: Id)
      returns (r: Outcome<(ActionContext, OutputDescriptor)>)
      requires FindStart(events, actionId).Some?
      requires var refs := events[FindStart(events, actionId).value].refs; refs != [] && RunOption(run, refs[0]).Some?
      ensures var start := events[FindStart(events, actionId).value];
              var option := RunOption(run, start.refs[0]).value;
              && (r.Done? <==> Describe(actionId, option, run).Some?)
              && (r.Done? ==> r.value == (RecoveryContext(start, option, state), Describe(actionId, option, run).value))
              && (!r.Done? ==> r == Raised(InvalidValue))
    {
      var start := events[FindStart(events, actionId).value];
      var option := RunOption(run, start.refs[0]).value;
      var descriptor := Describe(actionId, option, run);
      if descriptor.None? {
        return Raised(InvalidValue);
      }
      return Done((RecoveryContext(start, option, state), descriptor.value));
    }

    /** Executing an option the runtime cannot describe, and every attempt to recover from it.
        The description fails after the start is written and outside the handler; the action
        stays open, with no result, and however often the store is opened and the run
        recovered, recovery raises the same error and changes nothing. */
    method UndescribableStaysOpen(run: RuntimeRun, state: RunStateSnapshot, authority: AuthorityRunContext,
                                  option: RemediationOption, input: ToolInput, actor: string, actionId: Id, startId: Id,
                                  nonce: Id, restarts: nat)
      returns (r: Outcome<Remedied>, recovered: bool)
      requires Describe(actionId, option, run).None? && TierOf(option.tool) == Some(Reversible)
      requires RunOption(run, option.optionId) == Some(option)
      requires store.disk.actionJournals == map[] && store.disk.transitionJournals == map[]
      requires NoneOpen(Events(store.disk, state.runId)) && Chain(Events(store.disk, state.runId))
      requires !HasStart(Events(store.disk, state.runId), actionId)
      modifies store
      ensures var begun := Appended(old(store.disk), StartedEvent(Events(old(store.disk), state.runId),
                ActionFor(state, option, input, actionId, actor), startId));
              && !r.Done? && (r == Raised(InvalidValue) ==> store.disk == begun)
              && (store.disk == old(store.disk)
                  || (store.disk == begun && Unfinished(Events(store.disk, state.runId)) == [actionId] && !recovered))
    {
      hide MayBegin, Chain, NoneOpen, Describe, RunOption;
      ghost var action := ActionFor(state, option, input, actionId, actor);
      ghost var before := store.disk;
      LeftOpen(before, action, option, run, startId);
      recovered := false;
      var begun := Begin(state, authority, option, input, actor, actionId, startId);
      r := if begun.Done? then Raised(InvalidValue) else begun.PropagateFailure<Remedied>();
      ghost var left := store.disk;
      for attempt := 0 to restarts
        invariant store.disk == left && (left != before ==> !recovered)
      {
        var reopened := store.Reopen(nonce);
        var events := Events(store.disk, state.runId);
        var pending := Unfinished(events);
        recovered := pending == [];
        if !recovered {
          var taken := TakeUp(run, state, events, pending[0]);
          recovered := taken.Done?;
        }
      }
    }
  }

  /** The start of an action that was fresh, when none was open: it is the one to take up, and
      its option is the one it names. */
  lemma LeftOpen(d: Disk, action: Action, option: RemediationOption, run: RuntimeRun, startId: Id)
    requires NoneOpen(Events(d, action.runId)) && Chain(Events(d, action.runId))
      && !HasStart(Events(d, action.runId), action.actionId)
    requires action.optionId == option.optionId && RunOption(run, option.optionId) == Some(option)
    ensures var events := Events(Appended(d, StartedEvent(Events(d, action.runId), action, startId)), action.runId);
            && Unfinished(events) == [action.actionId] && FindStart(events, action.actionId).Some?
            && events[FindStart(events, action.actionId).value].refs == [option.optionId]
    ensures Unfinished(Events(d, action.runId)) == []
  {
    hide RunOption, Events, EventsIn, Appended, NoneOpen, Chain, HasStart, Unfinished, FindStart, Head;
    var events, start := Events(d, action.runId), StartedEvent(Events(d, action.runId), action, startId);
    AppendedEvents(d, start);
    NothingLeft(events);
    OnlyStartLeft(events, start);
  }

  lemma NothingLeft(events: seq<LedgerEvent>)
    requires NoneOpen(events)
    ensures Unfinished(events) == []
  {
    hide HasClose;
    NoneUnfinished(events, events);
  }

  lemma {:induction false} OnlyStartLeft(events: seq<LedgerEvent>, start: LedgerEvent)
    requires NoneOpen(events) && Chain(events)
    requires start.payload.ActionStarted? && !HasStart(events, start.payload.actionId)
    ensures Unfinished(events + [start]) == [start.payload.actionId]
    ensures FindStart(events + [start], start.payload.actionId) == Some(|events|)
  {
    hide NoneOpen, Chain, HasStart, HasClose;
    var after := events + [start];
    assert after[..|events|] == events && after[|events|] == start;
    OnlyNewStartOpen(events, start);
    forall i | 0 <= i < |events| && events[i].payload.ActionStarted?
      ensures HasClose(after, events[i].payload.actionId)
    {
      assert after[i] == events[i];
      StillClosed(events, start, i);
    }
    NoneUnfinished(events, after);
  }

  lemma StillClosed(events: seq<LedgerEvent>, start: LedgerEvent, i: nat)
    requires NoneOpen(events) && i < |events| && events[i].payload.ActionStarted?
    ensures HasClose(events + [start], events[i].payload.actionId)
  {
    var a := events[i].payload.actionId;
    assert HasClose(events, a);
    var j :| 0 <= j < |events| && Closes(events[j], a);
    assert (events + [start])[j] == events[j];
  }

  lemma {:induction false} NoneUnfinished(prefix: seq<LedgerEvent>, events: seq<LedgerEvent>)
    requires forall i :: 0 <= i < |prefix| && prefix[i].payload.ActionStarted? ==>
      HasClose(events, prefix[i].payload.actionId)
    ensures UnfinishedUpTo(prefix, events) == []
  {
    if prefix != [] {
      NoneUnfinished(prefix[..|prefix| - 1], events);
    }
  }
}
