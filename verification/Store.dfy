/** The durable store of snapshots, ledgers, decisions and authority, with its two
    write-ahead journals. One writer at a time. Every durable write may take effect or not,
    and the process may raise or die at it; each method's contract covers all of these. */
module Store {
  import opened Domain
  import opened Sequences
  import opened Ledger
  import opened Records
  import opened StateMachine

  datatype TransitionJournal = TransitionJournal(event: LedgerEvent, snapshot: RunStateSnapshot)

  /** Everything a crash leaves behind. */
  datatype Disk = Disk(
    ledgers: map<Id, seq<LedgerEvent>>,
    snapshots: map<Id, RunStateSnapshot>,
    runs: map<Id, RuntimeRun>,
    decisions: map<Id, DecisionRequest>,
    authorizations: map<Id, Authorization>,
    actionJournals: map<Id, Action>,
    transitionJournals: map<Id, TransitionJournal>)

  // ------------------------------------------------------------ pure readings

  /** `list_events`: no file means no events. */
  function EventsIn(ledgers: map<Id, seq<LedgerEvent>>, runId: Id): seq<LedgerEvent> {
    if runId in ledgers then ledgers[runId] else []
  }

  function Events(d: Disk, runId: Id): seq<LedgerEvent> { EventsIn(d.ledgers, runId) }

  function Appended(d: Disk, event: LedgerEvent): Disk {
    d.(ledgers := d.ledgers[event.runId := Events(d, event.runId) + [event]])
  }

  lemma AppendedEvents(d: Disk, event: LedgerEvent)
    ensures Appended(d, event) == d.(ledgers := Appended(d, event).ledgers)
    ensures Events(Appended(d, event), event.runId) == Events(d, event.runId) + [event]
  {}

  predicate Agrees(d: Disk, snapshot: RunStateSnapshot) {
    var target := LastTarget(Events(d, snapshot.runId));
    target.Some? ==> target.value == snapshot.status
  }

  /** The two checks of `save_snapshot`. */
  predicate SnapshotOk(d: Disk, snapshot: RunStateSnapshot) {
    Agrees(d, snapshot) && (snapshot.pendingDecisionId.Some? ==> snapshot.pendingDecisionId.value in d.decisions)
  }

  function WithSnapshot(d: Disk, snapshot: RunStateSnapshot): Disk {
    d.(snapshots := d.snapshots[snapshot.runId := snapshot])
  }

  /** `load_snapshot` succeeds. */
  predicate Loadable(d: Disk, runId: Id) {
    runId in d.snapshots && Agrees(d, d.snapshots[runId])
  }

  /** A write that happened or not, and what the caller then saw. */
  ghost predicate Commits<T>(before: Disk, after: Disk, next: Disk, r: Outcome<T>) {
    && (after == before || after == next)
    && (r.Done? ==> after == next)
    && (r.Raised? ==> r.error == IoError)
  }

  ghost predicate Refuses<T>(before: Disk, after: Disk, error: Error, r: Outcome<T>) {
    after == before && r == Raised(error)
  }

  // ------------------------------------------------- the transition journal

  function Matching(events: seq<LedgerEvent>, eventId: Id): seq<LedgerEvent> {
    Select(events, (e: LedgerEvent) => e.eventId == eventId)
  }

  predicate BindingOk(snapshot: RunStateSnapshot, event: LedgerEvent) {
    event.payload.StateTransition? && snapshot.runId == event.runId && snapshot.status == event.payload.to
  }

  function Journaled(d: Disk, j: TransitionJournal): Disk {
    d.(transitionJournals := d.transitionJournals[j.event.eventId := j])
  }

  /** The three states finishing a journal passes through. */
  function Logged(d: Disk, j: TransitionJournal): Disk {
    if Matching(Events(d, j.event.runId), j.event.eventId) == [] then Appended(d, j.event) else d
  }

  function Snapped(d: Disk, j: TransitionJournal): Disk { WithSnapshot(Logged(d, j), j.snapshot) }

  function Cleared(d: Disk, j: TransitionJournal): Disk {
    Snapped(d, j).(transitionJournals := d.transitionJournals - {j.event.eventId})
  }

  /** The event can still be, or already is, the ledger's own. */
  predicate LogOk(d: Disk, j: TransitionJournal) {
    var matching := Matching(Events(d, j.event.runId), j.event.eventId);
    matching == [j.event] || (matching == [] && Acceptable(Events(d, j.event.runId), j.event))
  }

  predicate FinishOk(d: Disk, j: TransitionJournal) {
    LogOk(d, j) && SnapshotOk(Logged(d, j), j.snapshot)
  }

  /** What `_finish_transition_transaction` does from `d`, whatever happens to it. */
  ghost predicate FinishesTransition(d: Disk, after: Disk, j: TransitionJournal, r: Outcome<()>) {
    if FinishOk(d, j) then
      && (after == d || after == Logged(d, j) || after == Snapped(d, j) || after == Cleared(d, j))
      && (r.Done? ==> after == Cleared(d, j))
      && (r.Raised? ==> r.error == IoError)
    else
      && !r.Done?
      && (after == d || (LogOk(d, j) && after == Logged(d, j)))
  }

  /** The disk a committed transition leaves: one more event, the new snapshot. */
  function Committed(d: Disk, snapshot: RunStateSnapshot, event: LedgerEvent): Disk {
    WithSnapshot(Appended(d, event), snapshot)
  }

  /** When a commit can go through: the event is new, extends the ledger, matches the
      snapshot, and a pending decision is already stored. */
  predicate CommitOk(d: Disk, snapshot: RunStateSnapshot, event: LedgerEvent) {
    && BindingOk(snapshot, event)
    && Matching(Events(d, event.runId), event.eventId) == []
    && Acceptable(Events(d, event.runId), event)
    && (snapshot.pendingDecisionId.Some? ==> snapshot.pendingDecisionId.value in d.decisions)
  }

  /** A crash left the journal behind, at any stage. */
  ghost predicate Interrupted(d: Disk, after: Disk, j: TransitionJournal) {
    var started := Journaled(d, j);
    after == started || after == Logged(started, j) || after == Snapped(started, j)
  }

  /** Once the event is in the ledger, logging it again does nothing. */
  lemma LoggedIsStable(d: Disk, after: Disk, j: TransitionJournal)
    requires CommitOk(d, j.snapshot, j.event)
    requires after.decisions == d.decisions
    requires Events(after, j.event.runId) == Events(d, j.event.runId) + [j.event]
    ensures FinishOk(after, j) && Logged(after, j) == after
  {
    var events := Events(d, j.event.runId);
    SelectAppend(events, j.event, (e: LedgerEvent) => e.eventId == j.event.eventId);
    assert Matching(events + [j.event], j.event.eventId) == [j.event];
    LastTargetAppend(events, j.event);
  }

  /** The stages, written out. */
  lemma Stages(d: Disk, j: TransitionJournal)
    requires CommitOk(d, j.snapshot, j.event)
    ensures FinishOk(Journaled(d, j), j)
    ensures Logged(Journaled(d, j), j) == Appended(Journaled(d, j), j.event)
    ensures Snapped(Journaled(d, j), j) == Committed(Journaled(d, j), j.snapshot, j.event)
  {
    var started := Journaled(d, j);
    assert Events(started, j.event.runId) == Events(d, j.event.runId);
    assert Logged(started, j) == Appended(started, j.event);
    LastTargetAppend(Events(d, j.event.runId), j.event);
  }

  lemma ClearedStage(d: Disk, j: TransitionJournal)
    requires d.transitionJournals == map[]
    ensures var done := Committed(Journaled(d, j), j.snapshot, j.event);
            done.(transitionJournals := done.transitionJournals - {j.event.eventId}) ==
              Committed(d, j.snapshot, j.event)
  {
    assert Journaled(d, j).transitionJournals - {j.event.eventId} == map[];
  }

  /** Redo is stable: from every stage a crash can leave, finishing the journal is possible
      and gives the same final disk, which is the committed one. */
  lemma RedoIsStable(d: Disk, after: Disk, j: TransitionJournal)
    requires d.transitionJournals == map[] && CommitOk(d, j.snapshot, j.event)
    requires Interrupted(d, after, j)
    ensures after.transitionJournals == map[j.event.eventId := j]
    ensures FinishOk(after, j) && Cleared(after, j) == Committed(d, j.snapshot, j.event)
    ensures Interrupted(d, Logged(after, j), j) && Interrupted(d, Snapped(after, j), j)
  {
    hide Agrees, Acceptable, LastTarget;
    Stages(d, j);
    ClearedStage(d, j);
    if after != Journaled(d, j) {
      LoggedIsStable(d, after, j);
    }
  }

  lemma CommitJournals(d: Disk, after: Disk, j: TransitionJournal)
    requires Interrupted(d, after, j)
    ensures after.actionJournals == d.actionJournals && after.runs == d.runs
    ensures after.transitionJournals == d.transitionJournals[j.event.eventId := j]
  {
    hide Matching, EventsIn, SnapshotOk;
  }

  // ------------------------------------------------- the action journal

  /** The start an action appends to a ledger. */
  function StartedEvent(events: seq<LedgerEvent>, action: Action, eventId: Id): LedgerEvent {
    LedgerEvent(eventId, action.runId, |events| + 1, action.actor,
                ActionStarted(action.actionId, action.tool, action.authorizationId),
                [action.optionId], Head(events))
  }

  predicate Bound(authorization: Authorization, runId: Id, optionId: OptionId, argsHash: ArgsHash) {
    authorization.runId == runId && authorization.optionId == optionId && authorization.argsHash == argsHash
  }

  predicate ConsumeOk(d: Disk, authorizationId: Id, runId: Id, optionId: OptionId, argsHash: ArgsHash) {
    && authorizationId in d.authorizations
    && d.authorizations[authorizationId].status.Issued?
    && Bound(d.authorizations[authorizationId], runId, optionId, argsHash)
  }

  /** An authorization of this run, for this option and these arguments. */
  predicate IssuedFor(authorization: Authorization, runId: Id, option: RemediationOption) {
    && authorization.runId == runId && authorization.optionId == option.optionId
    && authorization.argsHash == option.argsHash
  }

  /** What can be consumed for an option of a run: an authorization issued for it and not used. */
  lemma ConsumeOkIff(d: Disk, authorizationId: Id, runId: Id, option: RemediationOption)
    ensures ConsumeOk(d, authorizationId, runId, option.optionId, option.argsHash) <==>
              && authorizationId in d.authorizations && d.authorizations[authorizationId].status.Issued?
              && IssuedFor(d.authorizations[authorizationId], runId, option)
  {}

  function ConsumedBy(d: Disk, authorizationId: Id, actionId: Option<Id>): Disk
    requires authorizationId in d.authorizations
  {
    d.(authorizations := d.authorizations[authorizationId :=
      d.authorizations[authorizationId].(status := Consumed, consumedBy := actionId)])
  }

  function Voided(d: Disk, authorizationId: Id): Disk
    requires authorizationId in d.authorizations
  {
    if d.authorizations[authorizationId].status.Void? then d
    else d.(authorizations := d.authorizations[authorizationId := d.authorizations[authorizationId].(status := Void)])
  }

  function ActionJournaled(d: Disk, action: Action): Disk {
    d.(actionJournals := d.actionJournals[action.actionId := action])
  }

  function ActionUnjournaled(d: Disk, action: Action): Disk {
    d.(actionJournals := d.actionJournals - {action.actionId})
  }

  /** The capability exists, is bound to this very call, and is unspent or already spent by
      this action. */
  predicate UsableIn(authorizations: map<Id, Authorization>, action: Action) {
    && action.authorizationId.Some?
    && action.authorizationId.value in authorizations
    && var authorization := authorizations[action.authorizationId.value];
       && Bound(authorization, action.runId, action.optionId, action.argsHash)
       && (|| authorization.status.Issued?
           || (authorization.status.Consumed? && authorization.consumedBy == Some(action.actionId)))
  }

  predicate Usable(d: Disk, action: Action) { UsableIn(d.authorizations, action) }

  /** What an action may be begun with: an authorization issued for its own option and arguments,
      unused, or used by this very action. */
  lemma UsableIff(d: Disk, action: Action, option: RemediationOption)
    requires action.optionId == option.optionId && action.argsHash == option.argsHash
    ensures Usable(d, action) <==>
              && action.authorizationId.Some? && action.authorizationId.value in d.authorizations
              && var authorization := d.authorizations[action.authorizationId.value];
                 && IssuedFor(authorization, action.runId, option) && !authorization.status.Void?
                 && (authorization.status.Consumed? ==> authorization.consumedBy == Some(action.actionId))
  {}

  /** The authorizations once this action has spent its own. */
  function SpentIn(authorizations: map<Id, Authorization>, action: Action): (r: map<Id, Authorization>)
    requires UsableIn(authorizations, action)
    ensures r.Keys == authorizations.Keys && UsableIn(r, action)
    ensures r[action.authorizationId.value].status.Consumed?
    ensures r[action.authorizationId.value].consumedBy == Some(action.actionId)
    ensures forall id :: id in authorizations && id != action.authorizationId.value ==> r[id] == authorizations[id]
  {
    var id := action.authorizationId.value;
    if authorizations[id].status.Issued?
    then authorizations[id := authorizations[id].(status := Consumed, consumedBy := Some(action.actionId))]
    else authorizations
  }

  /** The ledgers once this action's start is recorded. */
  function OpenedIn(ledgers: map<Id, seq<LedgerEvent>>, action: Action, eventId: Id): map<Id, seq<LedgerEvent>> {
    var events := EventsIn(ledgers, action.runId);
    if HasStart(events, action.actionId) then ledgers
    else ledgers[action.runId := events + [StartedEvent(events, action, eventId)]]
  }

  function Spent(d: Disk, action: Action): Disk
    requires Usable(d, action)
  {
    d.(authorizations := SpentIn(d.authorizations, action))
  }

  function Opened(d: Disk, action: Action, eventId: Id): Disk
    requires Usable(d, action)
  {
    d.(authorizations := SpentIn(d.authorizations, action), ledgers := OpenedIn(d.ledgers, action, eventId))
  }

  function Begun(d: Disk, action: Action, eventId: Id): Disk
    requires Usable(d, action)
  {
    ActionUnjournaled(Opened(d, action, eventId), action)
  }

  /** What `_finish_action_transaction` does from `d`, whatever happens to it. */
  ghost predicate FinishesAction(d: Disk, after: Disk, action: Action, eventId: Id, r: Outcome<()>) {
    if !Usable(d, action) then Refuses(d, after, AuthorityRefused, r)
    else if StartCount(Events(d, action.runId), action.actionId) > 1 then
      (after == d || after == Spent(d, action)) && !r.Done?
    else
      && (|| after == d || after == Spent(d, action)
          || after == Opened(d, action, eventId) || after == Begun(d, action, eventId))
      && (r.Done? ==> after == Begun(d, action, eventId))
      && (r.Raised? ==> r.error == IoError)
  }

  /** A crash left the action journal behind, at any stage. */
  ghost predicate ActionInterrupted(d: Disk, after: Disk, action: Action)
    requires Usable(d, action)
  {
    var started := ActionJournaled(d, action);
    || after == started
    || after == Spent(started, action)
    || exists eventId :: after == Opened(started, action, eventId)
  }

  /** The journal directory tells the two kinds of disk apart. */
  lemma JournalsTell(d: Disk, after: Disk, action: Action)
    requires Usable(d, action)
    ensures ActionInterrupted(d, after, action) ==> action.actionId in after.actionJournals
    ensures ActionInterrupted(d, after, action) ==> after.transitionJournals == d.transitionJournals
    ensures BegunBy(d, after, action) ==> after.actionJournals == d.actionJournals
  {
    hide UsableIn;
  }

  /** Consume-and-start, once recovered: the authorization spent by this action, one start
      that names it, nothing else touched. */
  ghost predicate BegunBy(d: Disk, after: Disk, action: Action)
    requires Usable(d, action)
  {
    exists eventId :: after == Opened(d, action, eventId)
  }

  /** Spending and opening are idempotent: a second pass over the same files does nothing. */
  lemma OpenedOnce(ledgers: map<Id, seq<LedgerEvent>>, authorizations: map<Id, Authorization>, action: Action,
                   eventId: Id, again: Id)
    requires UsableIn(authorizations, action) && !HasStart(EventsIn(ledgers, action.runId), action.actionId)
    ensures SpentIn(SpentIn(authorizations, action), action) == SpentIn(authorizations, action)
    ensures OpenedIn(OpenedIn(ledgers, action, eventId), action, again) == OpenedIn(ledgers, action, eventId)
    ensures StartCount(EventsIn(OpenedIn(ledgers, action, eventId), action.runId), action.actionId) == 1
  {
    hide UsableIn, SpentIn, OpenedIn, HasStart, StartCount, EventsIn;
    SpentOnce(authorizations, action);
    EventsOnceOpened(ledgers, action, eventId);
    var events := EventsIn(ledgers, action.runId);
    StartedOnce(events, action, eventId);
    OpenedAlready(OpenedIn(ledgers, action, eventId), action, again);
  }

  lemma EventsOnceOpened(ledgers: map<Id, seq<LedgerEvent>>, action: Action, eventId: Id)
    requires !HasStart(EventsIn(ledgers, action.runId), action.actionId)
    ensures var events := EventsIn(ledgers, action.runId);
            EventsIn(OpenedIn(ledgers, action, eventId), action.runId) ==
              events + [StartedEvent(events, action, eventId)]
  {
    hide HasStart, StartedEvent;
  }

  lemma OpenedAlready(ledgers: map<Id, seq<LedgerEvent>>, action: Action, eventId: Id)
    requires HasStart(EventsIn(ledgers, action.runId), action.actionId)
    ensures OpenedIn(ledgers, action, eventId) == ledgers
  {
    hide HasStart, StartedEvent;
  }

  lemma {:induction false} StartedOnce(events: seq<LedgerEvent>, action: Action, eventId: Id)
    requires !HasStart(events, action.actionId)
    ensures HasStart(events + [StartedEvent(events, action, eventId)], action.actionId)
    ensures StartCount(events + [StartedEvent(events, action, eventId)], action.actionId) == 1
  {
    var longer := events + [StartedEvent(events, action, eventId)];
    CountAppend(events, StartedEvent(events, action, eventId), action.actionId);
    assert Starts(longer[|events|], action.actionId);
  }

  lemma SpentOnce(authorizations: map<Id, Authorization>, action: Action)
    requires UsableIn(authorizations, action)
    ensures SpentIn(SpentIn(authorizations, action), action) == SpentIn(authorizations, action)
  {}

  /** Writing a journal and removing it leaves the directory as it was. */
  lemma JournalRoundTrip(d: Disk, action: Action)
    requires d.actionJournals == map[]
    ensures ActionJournaled(d, action).actionJournals == map[action.actionId := action]
    ensures ActionJournaled(d, action).actionJournals - {action.actionId} == map[]
  {}

  lemma RedoUnopened(d: Disk, after: Disk, action: Action, eventId: Id)
    requires d.actionJournals == map[] && Usable(d, action)
    requires !HasStart(Events(d, action.runId), action.actionId)
    requires after == ActionJournaled(d, action) || after == Spent(ActionJournaled(d, action), action)
    ensures Usable(after, action) && after.ledgers == d.ledgers
    ensures Spent(after, action) == Spent(ActionJournaled(d, action), action)
    ensures Opened(after, action, eventId) == Opened(ActionJournaled(d, action), action, eventId)
    ensures Begun(after, action, eventId) == Opened(d, action, eventId)
  {
    JournalRoundTrip(d, action);
    OpenedOnce(d.ledgers, d.authorizations, action, eventId, eventId);
  }

  lemma RedoOpened(d: Disk, after: Disk, action: Action, first: Id, eventId: Id)
    requires d.actionJournals == map[] && Usable(d, action)
    requires !HasStart(Events(d, action.runId), action.actionId)
    requires after == Opened(ActionJournaled(d, action), action, first)
    ensures Usable(after, action) && StartCount(Events(after, action.runId), action.actionId) == 1
    ensures Spent(after, action) == after && Opened(after, action, eventId) == after
    ensures Begun(after, action, eventId) == Opened(d, action, first)
  {
    JournalRoundTrip(d, action);
    OpenedOnce(d.ledgers, d.authorizations, action, first, eventId);
  }

  /** Redo of consume-and-start is stable: from every stage a crash can leave, finishing the
      journal is possible, stays within the stages, and ends in the same kind of disk. */
  lemma ActionRedoIsStable(d: Disk, after: Disk, action: Action, eventId: Id)
    requires d.actionJournals == map[] && Usable(d, action)
    requires !HasStart(Events(d, action.runId), action.actionId)
    requires ActionInterrupted(d, after, action)
    ensures after.actionJournals == map[action.actionId := action]
    ensures Usable(after, action)
    ensures StartCount(Events(after, action.runId), action.actionId) <= 1
    ensures ActionInterrupted(d, Spent(after, action), action)
    ensures ActionInterrupted(d, Opened(after, action, eventId), action)
    ensures BegunBy(d, Begun(after, action, eventId), action)
  {
    var started := ActionJournaled(d, action);
    JournalRoundTrip(d, action);
    if after == started || after == Spent(started, action) {
      RedoUnopened(d, after, action, eventId);
    } else {
      var first :| after == Opened(started, action, first);
      RedoOpened(d, after, action, first, eventId);
    }
  }

  // ------------------------------------------------------------ well-formedness

  predicate LedgerOk(d: Disk, runId: Id) {
    Chain(Events(d, runId)) && forall i :: 0 <= i < |Events(d, runId)| ==> Events(d, runId)[i].runId == runId
  }

  predicate SnapshotAgrees(d: Disk, runId: Id) {
    runId in d.snapshots ==> d.snapshots[runId].runId == runId && Agrees(d, d.snapshots[runId])
  }

  /** Every ledger is a chain of its own run's events, and every snapshot loads. */
  ghost predicate WellFormed(d: Disk) {
    forall runId :: LedgerOk(d, runId) && SnapshotAgrees(d, runId)
  }

  /** Journals are filed under the identifier they carry. */
  predicate ActionsKeyed(d: Disk) {
    forall id :: id in d.actionJournals ==> d.actionJournals[id].actionId == id
  }

  predicate TransitionsKeyed(d: Disk) {
    forall id :: id in d.transitionJournals ==> d.transitionJournals[id].event.eventId == id
  }

  ghost predicate Settled(d: Disk) {
    d.actionJournals == map[] && d.transitionJournals == map[] && WellFormed(d)
  }

  /** One more event in one run's ledger: the other runs see nothing. */
  lemma AppendKeepsLedgers(d: Disk, event: LedgerEvent, runId: Id)
    requires LedgerOk(d, event.runId) && LedgerOk(d, runId) && Acceptable(Events(d, event.runId), event)
    ensures LedgerOk(Appended(d, event), runId)
    ensures runId != event.runId ==> Events(Appended(d, event), runId) == Events(d, runId)
  {
    AppendIffChain(Events(d, event.runId), event);
  }

  /** A committed transition keeps every ledger a chain and every snapshot loadable. */
  lemma CommittedIsSettled(d: Disk, snapshot: RunStateSnapshot, event: LedgerEvent)
    requires Settled(d) && CommitOk(d, snapshot, event)
    ensures Settled(Committed(d, snapshot, event))
    ensures Loadable(Committed(d, snapshot, event), event.runId)
  {
    var after := Committed(d, snapshot, event);
    forall runId ensures LedgerOk(after, runId) && SnapshotAgrees(after, runId) {
      assert LedgerOk(d, runId) && SnapshotAgrees(d, runId) && LedgerOk(d, event.runId);
      AppendKeepsLedgers(d, event, runId);
      assert Events(after, runId) == Events(Appended(d, event), runId);
      LastTargetAppend(Events(d, event.runId), event);
    }
    assert SnapshotAgrees(after, event.runId);
  }

  /** Appending anything but a transition keeps the disk settled. */
  lemma AppendedIsSettled(d: Disk, event: LedgerEvent)
    requires Settled(d) && Acceptable(Events(d, event.runId), event) && !event.payload.StateTransition?
    ensures Settled(Appended(d, event))
  {
    var after := Appended(d, event);
    forall runId ensures LedgerOk(after, runId) && SnapshotAgrees(after, runId) {
      assert LedgerOk(d, runId) && SnapshotAgrees(d, runId) && LedgerOk(d, event.runId);
      AppendKeepsLedgers(d, event, runId);
      LastTargetAppend(Events(d, event.runId), event);
    }
  }

  lemma OpenedIsSettled(d: Disk, action: Action, eventId: Id)
    requires Settled(d) && Usable(d, action) && !HasStart(Events(d, action.runId), action.actionId)
    ensures Settled(Opened(d, action, eventId))
  {
    var event := StartedEvent(Events(d, action.runId), action, eventId);
    AppendedIsSettled(d, event);
    var after := Opened(d, action, eventId);
    assert after.ledgers == Appended(d, event).ledgers;
    SettledByLedgers(Appended(d, event), after);
  }

  /** The outcome of consume-and-start, read off the two files: still settled, exactly one
      start of the action, and only the ledgers and the one authorization changed. */
  lemma BegunMeans(d: Disk, after: Disk, action: Action)
    requires Settled(d) && Usable(d, action) && !HasStart(Events(d, action.runId), action.actionId)
    requires BegunBy(d, after, action)
    ensures Settled(after)
    ensures StartCount(Events(after, action.runId), action.actionId) == 1
    ensures after == d.(ledgers := after.ledgers, authorizations := SpentIn(d.authorizations, action))
  {
    var eventId :| after == Opened(d, action, eventId);
    OpenedOnce(d.ledgers, d.authorizations, action, eventId, eventId);
    OpenedIsSettled(d, action, eventId);
  }

  lemma SettledByLedgers(d: Disk, after: Disk)
    requires Settled(d)
    requires after == d.(authorizations := after.authorizations)
    ensures Settled(after)
  {
    forall runId ensures LedgerOk(after, runId) && SnapshotAgrees(after, runId) {
      assert LedgerOk(d, runId) && SnapshotAgrees(d, runId);
      assert Events(after, runId) == Events(d, runId);
    }
  }

  // ------------------------------------------------------------ several journals

  /** Journals of runs of their own, each with the snapshot of its run. */
  predicate TransitionsApart(journals: map<Id, TransitionJournal>) {
    && (forall id :: id in journals ==> journals[id].snapshot.runId == journals[id].event.runId)
    && (forall id, other :: id in journals && other in journals && id != other ==>
      journals[id].event.runId != journals[other].event.runId)
  }

  /** A journal's run as the journal says: its event logged, its snapshot saved. */
  predicate TransitionDone(before: Disk, after: Disk, j: TransitionJournal) {
    && Events(after, j.event.runId) == Events(Logged(before, j), j.event.runId)
    && j.event.runId in after.snapshots && after.snapshots[j.event.runId] == j.snapshot
  }

  predicate RunSame(before: Disk, after: Disk, runId: Id) {
    && Events(after, runId) == Events(before, runId)
    && (runId in after.snapshots <==> runId in before.snapshots)
    && (runId in before.snapshots ==> after.snapshots[runId] == before.snapshots[runId])
  }

  /** The journals `finished` are through, and no other run was touched. */
  ghost predicate TransitionsThrough(before: Disk, after: Disk, journals: map<Id, TransitionJournal>,
                                     finished: set<Id>)
  {
    && after.runs == before.runs && after.decisions == before.decisions && after.authorizations == before.authorizations
    && (forall id :: id in finished && id in journals ==> TransitionDone(before, after, journals[id]))
    && (forall runId :: (forall id :: id in finished && id in journals ==> journals[id].event.runId != runId) ==>
      RunSame(before, after, runId))
  }

  lemma NoneThrough(d: Disk, journals: map<Id, TransitionJournal>)
    ensures TransitionsThrough(d, d, journals, {})
  {}

  lemma ClearedRun(d: Disk, j: TransitionJournal)
    requires j.snapshot.runId == j.event.runId
    ensures TransitionDone(d, Cleared(d, j), j)
    ensures forall runId :: runId != j.event.runId ==> RunSame(d, Cleared(d, j), runId)
    ensures Cleared(d, j).runs == d.runs && Cleared(d, j).decisions == d.decisions
      && Cleared(d, j).authorizations == d.authorizations
  {
    LoggedRun(d, j);
    hide Logged, EventsIn;
    assert Cleared(d, j).ledgers == Logged(d, j).ledgers;
  }

  lemma LoggedRun(d: Disk, j: TransitionJournal)
    ensures forall runId :: runId != j.event.runId ==> Events(Logged(d, j), runId) == Events(d, runId)
    ensures Logged(d, j) == d.(ledgers := Logged(d, j).ledgers)
  {
    hide Matching;
  }

  lemma SameLogged(before: Disk, d: Disk, j: TransitionJournal)
    requires Events(d, j.event.runId) == Events(before, j.event.runId)
    ensures Events(Logged(d, j), j.event.runId) == Events(Logged(before, j), j.event.runId)
  {
    hide Matching;
  }

  lemma OneMoreThrough(before: Disk, d: Disk, journals: map<Id, TransitionJournal>, finished: set<Id>, id: Id)
    requires TransitionsApart(journals) && TransitionsThrough(before, d, journals, finished) && id in journals
      && id !in finished
    ensures TransitionsThrough(before, Cleared(d, journals[id]), journals, finished + {id})
  {
    hide Cleared, Logged, EventsIn;
    var j, after := journals[id], Cleared(d, journals[id]);
    ClearedRun(d, j);
    assert RunSame(before, d, j.event.runId);
    SameLogged(before, d, j);
    forall other | other in finished && other in journals ensures TransitionDone(before, after, journals[other]) {
      assert RunSame(d, after, journals[other].event.runId);
    }
    forall runId | forall other :: other in finished + {id} && other in journals ==>
      journals[other].event.runId != runId
      ensures RunSame(before, after, runId)
    {
      assert id in finished + {id};
      assert RunSame(d, after, runId) && RunSame(before, d, runId);
    }
  }

  /** Actions of runs of their own, each with an authorization of its own. */
  predicate ActionsApart(journals: map<Id, Action>) {
    && (forall id :: id in journals ==> journals[id].authorizationId.Some?)
    && (forall id, other :: id in journals && other in journals && id != other ==>
          journals[id].runId != journals[other].runId
            && journals[id].authorizationId != journals[other].authorizationId)
  }

  /** An action's run and authorization as its journal says: spent by it, and started. */
  predicate ActionDone(before: Disk, after: Disk, action: Action, eventId: Id) {
    && Usable(before, action)
    && Events(after, action.runId) == EventsIn(OpenedIn(before.ledgers, action, eventId), action.runId)
    && action.authorizationId.value in after.authorizations
    && after.authorizations[action.authorizationId.value] ==
      SpentIn(before.authorizations, action)[action.authorizationId.value]
  }

  predicate AuthorizationSame(before: Disk, after: Disk, id: Id) {
    && (id in after.authorizations <==> id in before.authorizations)
    && (id in before.authorizations ==> after.authorizations[id] == before.authorizations[id])
  }

  /** The journals `finished` are through, and no other run or authorization was touched. */
  ghost predicate ActionsThrough(before: Disk, after: Disk, journals: map<Id, Action>, nonce: Id, finished: set<Id>) {
    && after.runs == before.runs && after.decisions == before.decisions && after.snapshots == before.snapshots
    && (forall id :: id in finished && id in journals ==> ActionDone(before, after, journals[id], nonce + id))
    && (forall runId :: (forall id :: id in finished && id in journals ==> journals[id].runId != runId) ==>
          Events(after, runId) == Events(before, runId))
    && (forall auth: Id :: (forall id :: id in finished && id in journals ==>
      journals[id].authorizationId != Some(auth)) ==>
          AuthorizationSame(before, after, auth))
  }

  lemma NoneStarted(d: Disk, journals: map<Id, Action>, nonce: Id)
    ensures ActionsThrough(d, d, journals, nonce, {})
  {}

  lemma BegunRun(d: Disk, action: Action, eventId: Id)
    requires Usable(d, action)
    ensures var after := Begun(d, action, eventId);
            && ActionDone(d, after, action, eventId)
            && after.runs == d.runs && after.decisions == d.decisions && after.snapshots == d.snapshots
            && (forall runId :: runId != action.runId ==> Events(after, runId) == Events(d, runId))
            && (forall auth: Id :: action.authorizationId != Some(auth) ==> AuthorizationSame(d, after, auth))
  {
    hide HasStart, StartedEvent;
  }

  lemma SameUsable(before: Disk, d: Disk, action: Action, eventId: Id)
    requires Usable(d, action) && AuthorizationSame(before, d, action.authorizationId.value)
    requires Events(d, action.runId) == Events(before, action.runId)
    ensures Usable(before, action)
    ensures SpentIn(before.authorizations, action)[action.authorizationId.value] ==
      SpentIn(d.authorizations, action)[action.authorizationId.value]
    ensures EventsIn(OpenedIn(before.ledgers, action, eventId), action.runId) ==
      EventsIn(OpenedIn(d.ledgers, action, eventId), action.runId)
  {
    hide HasStart, StartedEvent;
  }

  lemma StillDone(before: Disk, d: Disk, after: Disk, action: Action, eventId: Id)
    requires ActionDone(d, after, action, eventId) && AuthorizationSame(before, d, action.authorizationId.value)
    requires Events(d, action.runId) == Events(before, action.runId)
    ensures ActionDone(before, after, action, eventId)
  {
    hide OpenedIn, SpentIn, UsableIn;
    SameUsable(before, d, action, eventId);
  }

  lemma DoneStays(before: Disk, d: Disk, after: Disk, action: Action, eventId: Id)
    requires ActionDone(before, d, action, eventId) && AuthorizationSame(d, after, action.authorizationId.value)
    requires Events(after, action.runId) == Events(d, action.runId)
    ensures ActionDone(before, after, action, eventId)
  {
    hide OpenedIn, SpentIn, UsableIn, EventsIn;
  }

  lemma SameTwice(before: Disk, d: Disk, after: Disk, auth: Id)
    requires AuthorizationSame(before, d, auth) && AuthorizationSame(d, after, auth)
    ensures AuthorizationSame(before, after, auth)
  {}

  lemma OnlyDone(r: Outcome<()>)
    requires r.Done?
    ensures r == Done(())
  {
    match r.value { case () => }
  }

  lemma FinishedBegun(d: Disk, after: Disk, action: Action, eventId: Id)
    requires FinishesAction(d, after, action, eventId, Done(()))
    ensures Usable(d, action) && after == Begun(d, action, eventId)
  {}

  lemma OneMoreStarted(before: Disk, d: Disk, journals: map<Id, Action>, nonce: Id, finished: set<Id>, id: Id)
    requires ActionsApart(journals) && ActionsThrough(before, d, journals, nonce, finished) && id in journals
      && id !in finished
    requires Usable(d, journals[id])
    ensures ActionsThrough(before, Begun(d, journals[id], nonce + id), journals, nonce, finished + {id})
  {
    hide Begun, Events, Usable, ActionDone, AuthorizationSame;
    var action, after := journals[id], Begun(d, journals[id], nonce + id);
    BegunRun(d, action, nonce + id);
    StillDone(before, d, after, action, nonce + id);
    forall other | other in finished && other in journals
      ensures ActionDone(before, after, journals[other], nonce + other)
    {
      DoneStays(before, d, after, journals[other], nonce + other);
    }
    forall runId | forall other :: other in finished + {id} && other in journals ==> journals[other].runId != runId
      ensures Events(after, runId) == Events(before, runId)
    {
      assert id in finished + {id};
    }
    forall auth: Id | forall other :: other in finished + {id} && other in journals ==>
      journals[other].authorizationId != Some(auth)
      ensures AuthorizationSame(before, after, auth)
    {
      assert id in finished + {id};
      SameTwice(before, d, after, auth);
    }
  }

  // ------------------------------------------------------------ the store

  class LocalDurableStore {
    var disk: Disk

    constructor (found: Disk)
      ensures disk == found
    {
      disk := found;
    }

    /** One atomic file replacement or removal. */
    method Write(next: Disk) returns (r: Outcome<()>)
      modifies this
      ensures Commits(old(disk), disk, next, r)
    {
      var fault := NextFault();
      match fault {
        case NoFault => disk := next; r := Done(());
        case ErrorBefore => r := Raised(IoError);
        case ErrorAfter => disk := next; r := Raised(IoError);
        case CrashBefore => r := Crashed;
        case CrashAfter => disk := next; r := Crashed;
      }
    }

    method AppendEvent(event: LedgerEvent) returns (r: Outcome<()>)
      modifies this
      ensures if Acceptable(Events(old(disk), event.runId), event)
              then Commits(old(disk), disk, Appended(old(disk), event), r)
              else Refuses(old(disk), disk, StoreConsistency, r)
    {
      var events := Events(disk, event.runId);
      if event.seqNo != |events| + 1 {
        return Raised(StoreConsistency);
      }
      if event.prevHash != Head(events) {
        return Raised(StoreConsistency);
      }
      if IsClosing(event) && !HasStart(events, event.payload.actionId) {
        return Raised(StoreConsistency);
      }
      r := Write(Appended(disk, event));
    }

    method SaveSnapshot(snapshot: RunStateSnapshot) returns (r: Outcome<()>)
      modifies this
      ensures if SnapshotOk(old(disk), snapshot)
              then Commits(old(disk), disk, WithSnapshot(old(disk), snapshot), r)
              else Refuses(old(disk), disk, StoreConsistency, r)
    {
      if !Agrees(disk, snapshot) {
        return Raised(StoreConsistency);
      }
      if snapshot.pendingDecisionId.Some? && snapshot.pendingDecisionId.value !in disk.decisions {
        return Raised(StoreConsistency);
      }
      r := Write(WithSnapshot(disk, snapshot));
    }

    method LoadSnapshot(runId: Id) returns (r: Outcome<RunStateSnapshot>)
      ensures r == if runId !in disk.snapshots then Raised(MissingKey)
                   else if !Loadable(disk, runId) then Raised(StoreConsistency)
                   else Done(disk.snapshots[runId])
    {
      if runId !in disk.snapshots {
        return Raised(MissingKey);
      }
      var snapshot := disk.snapshots[runId];
      if !Agrees(disk, snapshot) {
        return Raised(StoreConsistency);
      }
      return Done(snapshot);
    }

    method CommitTransition(snapshot: RunStateSnapshot, event: LedgerEvent) returns (r: Outcome<()>)
      modifies this
      ensures !BindingOk(snapshot, event) ==> disk == old(disk) && r.Raised?
      ensures BindingOk(snapshot, event) ==>
                var j := TransitionJournal(event, snapshot);
                || (disk == old(disk) && !r.Done?)
                || FinishesTransition(Journaled(old(disk), j), disk, j, r)
      // The crash-atomicity of the commit, for a call that can go through.
      ensures old(disk).transitionJournals == map[] && CommitOk(old(disk), snapshot, event) ==>
                var j := TransitionJournal(event, snapshot);
                && (r.Done? ==> disk == Committed(old(disk), snapshot, event))
                && (r.Raised? ==> r.error == IoError)
                && (|| disk == old(disk)
                    || disk == Committed(old(disk), snapshot, event)
                    || Interrupted(old(disk), disk, j))
    {
      if !event.payload.StateTransition? {
        return Raised(InvalidValue);
      }
      if snapshot.runId != event.runId || snapshot.status != event.payload.to {
        return Raised(StoreConsistency);
      }
      ghost var j := TransitionJournal(event, snapshot);
      ghost var before := disk;
      if before.transitionJournals == map[] && CommitOk(before, snapshot, event) {
        RedoIsStable(before, Journaled(before, j), j);
      }
      r := Write(Journaled(disk, TransitionJournal(event, snapshot)));
      if r.Done? {
        r := FinishTransition(event.eventId);
      }
    }

    method FinishTransition(eventId: Id) returns (r: Outcome<()>)
      requires eventId in disk.transitionJournals && disk.transitionJournals[eventId].event.eventId == eventId
      modifies this
      ensures FinishesTransition(old(disk), disk, old(disk).transitionJournals[eventId], r)
      ensures r.Done? ==> disk.transitionJournals == old(disk).transitionJournals - {eventId}
      ensures disk.actionJournals == old(disk).actionJournals
    {
      var j := disk.transitionJournals[eventId];
      var matching := Matching(Events(disk, j.event.runId), j.event.eventId);
      if matching != [] && matching != [j.event] {
        return Raised(StoreConsistency);
      }
      if matching == [] {
        var _ :- AppendEvent(j.event);
      }
      var _ :- SaveSnapshot(j.snapshot);
      r := Write(disk.(transitionJournals := disk.transitionJournals - {eventId}));
    }

    /** `_recover_transition_transactions`. Journals are finished in some order. For journals of
        runs of their own the order does not matter: a return means that each run's event is
        logged and its snapshot saved, and no other run was touched. With one writer there is at
        most one, and then the outcome is the one of finishing it, returned or not. */
    method RecoverTransitions() returns (r: Outcome<()>)
      requires TransitionsKeyed(disk)
      modifies this
      ensures r.Done? ==> disk.transitionJournals == map[]
      ensures disk.actionJournals == old(disk).actionJournals
      ensures old(disk).transitionJournals == map[] ==> disk == old(disk) && r.Done?
      ensures forall id :: id in old(disk).transitionJournals && old(disk).transitionJournals.Keys == {id} ==>
                FinishesTransition(old(disk), disk, old(disk).transitionJournals[id], r)
      ensures r.Done? && TransitionsApart(old(disk).transitionJournals) ==>
                TransitionsThrough(old(disk), disk, old(disk).transitionJournals, old(disk).transitionJournals.Keys)
    {
      hide TransitionsThrough, FinishOk, Cleared, TransitionsApart, Logged, LogOk;
      var pending := disk.transitionJournals.Keys;
      ghost var finished: set<Id> := {};
      ghost var first: Id := 0;
      NoneThrough(disk, disk.transitionJournals);
      while pending != {}
        invariant pending == disk.transitionJournals.Keys
        invariant disk.actionJournals == old(disk).actionJournals
        invariant pending !! finished && pending + finished == old(disk).transitionJournals.Keys
        invariant forall id :: id in pending ==> disk.transitionJournals[id] == old(disk).transitionJournals[id]
        invariant finished == {} ==> disk == old(disk)
        invariant finished != {} ==> first in finished
        invariant finished == {first} ==>
          FinishesTransition(old(disk), disk, old(disk).transitionJournals[first], Done(()))
        invariant TransitionsApart(old(disk).transitionJournals) ==>
          TransitionsThrough(old(disk), disk, old(disk).transitionJournals, finished)
        decreases pending
      {
        var eventId :| eventId in pending;
        ghost var reached := disk;
        r := FinishTransition(eventId);
        if r.IsFailure() {
          return;
        }
        if TransitionsApart(old(disk).transitionJournals) {
          OneMoreThrough(old(disk), reached, old(disk).transitionJournals, finished, eventId);
        }
        if finished == {} {
          first := eventId;
        }
        pending := pending - {eventId};
        finished := finished + {eventId};
      }
      assert finished == old(disk).transitionJournals.Keys;
      return Done(());
    }

    method SaveRun(run: RuntimeRun) returns (r: Outcome<()>)
      modifies this
      ensures Commits(old(disk), disk, old(disk).(runs := old(disk).runs[run.runId := run]), r)
    {
      r := Write(disk.(runs := disk.runs[run.runId := run]));
    }

    method LoadRun(runId: Id) returns (r: Outcome<RuntimeRun>)
      ensures r == if runId in disk.runs then Done(disk.runs[runId]) else Raised(MissingKey)
    {
      return if runId in disk.runs then Done(disk.runs[runId]) else Raised(MissingKey);
    }

    /** Requests are write-once. */
    method SaveDecisionRequest(request: DecisionRequest) returns (r: Outcome<()>)
      modifies this
      ensures if request.decisionId in old(disk).decisions
              then Refuses(old(disk), disk, StoreConsistency, r)
              else Commits(old(disk), disk,
                     old(disk).(decisions := old(disk).decisions[request.decisionId := request]), r)
    {
      if request.decisionId in disk.decisions {
        return Raised(StoreConsistency);
      }
      r := Write(disk.(decisions := disk.decisions[request.decisionId := request]));
    }

    /** Only the status of a stored request may change. */
    method UpdateDecisionRequest(request: DecisionRequest) returns (r: Outcome<()>)
      modifies this
      ensures if && request.decisionId in old(disk).decisions
                 && old(disk).decisions[request.decisionId].(status := request.status) == request
              then Commits(old(disk), disk,
                     old(disk).(decisions := old(disk).decisions[request.decisionId := request]), r)
              else Refuses(old(disk), disk, StoreConsistency, r)
    {
      if request.decisionId !in disk.decisions {
        return Raised(StoreConsistency);
      }
      if disk.decisions[request.decisionId].(status := request.status) != request {
        return Raised(StoreConsistency);
      }
      r := Write(disk.(decisions := disk.decisions[request.decisionId := request]));
    }

    /** The request the snapshot waits for, which must still be PENDING. */
    method LoadPendingDecision(runId: Id) returns (r: Outcome<DecisionRequest>)
      ensures r.Done? <==> && Loadable(disk, runId)
                           && disk.snapshots[runId].pendingDecisionId.Some?
                           && disk.snapshots[runId].pendingDecisionId.value in disk.decisions
                           && disk.decisions[disk.snapshots[runId].pendingDecisionId.value].status.Pending?
      ensures r.Done? ==> r.value == disk.decisions[disk.snapshots[runId].pendingDecisionId.value]
      ensures !r.Crashed? && (r.Raised? ==> r.error == MissingKey || r.error == StoreConsistency)
    {
      var snapshot :- LoadSnapshot(runId);
      if snapshot.pendingDecisionId.None? || snapshot.pendingDecisionId.value !in disk.decisions {
        return Raised(MissingKey);
      }
      var request := disk.decisions[snapshot.pendingDecisionId.value];
      if !request.status.Pending? {
        return Raised(StoreConsistency);
      }
      return Done(request);
    }

    method SaveAuthorization(authorization: Authorization) returns (r: Outcome<()>)
      modifies this
      ensures if authorization.authorizationId in old(disk).authorizations
              then Refuses(old(disk), disk, AuthorityRefused, r)
              else Commits(old(disk), disk, old(disk).(authorizations :=
                     old(disk).authorizations[authorization.authorizationId := authorization]), r)
    {
      if authorization.authorizationId in disk.authorizations {
        return Raised(AuthorityRefused);
      }
      r := Write(disk.(authorizations := disk.authorizations[authorization.authorizationId := authorization]));
    }

    /** Single use: only an ISSUED authorization with this exact binding can be consumed. */
    method Consume(authorizationId: Id, runId: Id, optionId: OptionId, argsHash: ArgsHash, actionId: Option<Id>)
      returns (r: Outcome<()>)
      modifies this
      ensures if ConsumeOk(old(disk), authorizationId, runId, optionId, argsHash)
              then Commits(old(disk), disk, ConsumedBy(old(disk), authorizationId, actionId), r)
              else Refuses(old(disk), disk, AuthorityRefused, r)
    {
      if authorizationId !in disk.authorizations {
        return Raised(AuthorityRefused);
      }
      var authorization := disk.authorizations[authorizationId];
      if !authorization.status.Issued? {
        return Raised(AuthorityRefused);
      }
      if !Bound(authorization, runId, optionId, argsHash) {
        return Raised(AuthorityRefused);
      }
      r := Write(ConsumedBy(disk, authorizationId, actionId));
    }

    /** VOID is absorbing: voiding twice is voiding once. */
    method VoidAuthorization(authorizationId: Id) returns (r: Outcome<()>)
      modifies this
      ensures if authorizationId in old(disk).authorizations
              then Commits(old(disk), disk, Voided(old(disk), authorizationId), r)
              else Refuses(old(disk), disk, AuthorityRefused, r)
    {
      if authorizationId !in disk.authorizations {
        return Raised(AuthorityRefused);
      }
      var authorization := disk.authorizations[authorizationId];
      if authorization.status.Void? {
        return Done(());
      }
      r := Write(disk.(authorizations := disk.authorizations[authorizationId := authorization.(status := Void)]));
    }

    method AppendActionStarted(action: Action, eventId: Id) returns (r: Outcome<()>)
      modifies this
      ensures Commits(old(disk), disk,
        Appended(old(disk), StartedEvent(Events(old(disk), action.runId), action, eventId)), r)
    {
      r := AppendEvent(StartedEvent(Events(disk, action.runId), action, eventId));
    }

    /** Consume the exact capability and start its action, through a journal. */
    method BeginAuthorizedAction(action: Action, eventId: Id) returns (r: Outcome<()>)
      modifies this
      ensures action.authorizationId.None? ==> Refuses(old(disk), disk, AuthorityRefused, r)
      ensures action.authorizationId.Some? && !Usable(old(disk), action) ==>
                && !r.Done?
                && (r.Raised? ==> r.error in {AuthorityRefused, IoError})
                && (|| disk == old(disk)
                    || disk == ActionJournaled(old(disk), action)
                    || disk == ActionUnjournaled(ActionJournaled(old(disk), action), action))
                && (r == Raised(AuthorityRefused) ==>
                      disk == ActionUnjournaled(ActionJournaled(old(disk), action), action))
      ensures Usable(old(disk), action) && old(disk).actionJournals == map[]
                && !HasStart(Events(old(disk), action.runId), action.actionId) ==>
                && (r.Done? ==> disk == Begun(ActionJournaled(old(disk), action), action, eventId))
                && (r.Raised? ==> r.error == IoError)
                && (|| disk == old(disk)
                    || ActionInterrupted(old(disk), disk, action)
                    || BegunBy(old(disk), disk, action))
      ensures r.Raised? ==> r.error == AuthorityRefused || r.error == StoreConsistency || r.error == IoError
    {
      if action.authorizationId.None? {
        return Raised(AuthorityRefused);
      }
      ghost var before := disk;
      if Usable(before, action) && before.actionJournals == map[]
        && !HasStart(Events(before, action.runId), action.actionId) {
        ActionRedoIsStable(before, ActionJournaled(before, action), action, eventId);
      }
      var _ :- Write(ActionJournaled(disk, action));
      r := FinishAction(action.actionId, eventId);
      if r == Raised(AuthorityRefused) {
        var _ :- Write(ActionUnjournaled(disk, action));
      }
    }

    method FinishAction(actionId: Id, eventId: Id) returns (r: Outcome<()>)
      requires actionId in disk.actionJournals && disk.actionJournals[actionId].actionId == actionId
      modifies this
      ensures FinishesAction(old(disk), disk, old(disk).actionJournals[actionId], eventId, r)
      ensures r.Done? ==> disk.actionJournals == old(disk).actionJournals - {actionId}
      ensures r.Raised? ==> r.error == AuthorityRefused || r.error == StoreConsistency || r.error == IoError
      ensures disk.transitionJournals == old(disk).transitionJournals
    {
      var action := disk.actionJournals[actionId];
      if action.authorizationId.None? || action.authorizationId.value !in disk.authorizations {
        return Raised(AuthorityRefused);
      }
      var authorization := disk.authorizations[action.authorizationId.value];
      if !Bound(authorization, action.runId, action.optionId, action.argsHash) {
        return Raised(AuthorityRefused);
      }
      if authorization.status.Issued? {
        var _ :- Consume(action.authorizationId.value, action.runId, action.optionId, action.argsHash, Some(actionId));
      } else if !authorization.status.Consumed? || authorization.consumedBy != Some(actionId) {
        return Raised(AuthorityRefused);
      }
      var starts := StartCount(Events(disk, action.runId), actionId);
      if starts > 1 {
        return Raised(StoreConsistency);
      }
      if starts == 0 {
        var _ :- AppendActionStarted(action, eventId);
      }
      r := Write(ActionUnjournaled(disk, action));
    }

    /** `_recover_action_transactions`; `nonce + id` is the event identifier minted for the
        action `id`. For actions of runs of their own a return means, in whatever order they were
        taken up, that each has spent its authorization and has its start, and that no other run
        or authorization was touched. */
    method RecoverActions(nonce: Id) returns (r: Outcome<()>)
      requires ActionsKeyed(disk)
      modifies this
      ensures r.Done? ==> disk.actionJournals == map[]
      ensures disk.transitionJournals == old(disk).transitionJournals
      ensures old(disk).actionJournals == map[] ==> disk == old(disk) && r.Done?
      ensures forall id :: id in old(disk).actionJournals && old(disk).actionJournals.Keys == {id} ==>
                FinishesAction(old(disk), disk, old(disk).actionJournals[id], nonce + id, r)
      ensures r.Done? && ActionsApart(old(disk).actionJournals) ==>
                ActionsThrough(old(disk), disk, old(disk).actionJournals, nonce, old(disk).actionJournals.Keys)
    {
      hide ActionsThrough, ActionsApart, Usable, Begun, Opened, Spent, StartCount, EventsIn, FinishesAction;
      var pending := disk.actionJournals.Keys;
      ghost var finished: set<Id> := {};
      ghost var first: Id := 0;
      NoneStarted(disk, disk.actionJournals, nonce);
      while pending != {}
        invariant pending == disk.actionJournals.Keys
        invariant disk.transitionJournals == old(disk).transitionJournals
        invariant pending !! finished && pending + finished == old(disk).actionJournals.Keys
        invariant forall id :: id in pending ==> disk.actionJournals[id] == old(disk).actionJournals[id]
        invariant finished == {} ==> disk == old(disk)
        invariant finished != {} ==> first in finished
        invariant finished == {first} ==>
          FinishesAction(old(disk), disk, old(disk).actionJournals[first], nonce + first, Done(()))
        invariant ActionsApart(old(disk).actionJournals) ==>
          ActionsThrough(old(disk), disk, old(disk).actionJournals, nonce, finished)
        decreases pending
      {
        var actionId :| actionId in pending;
        ghost var reached := disk;
        r := FinishAction(actionId, nonce + actionId);
        if r.IsFailure() {
          return;
        }
        OnlyDone(r);
        if ActionsApart(old(disk).actionJournals) {
          FinishedBegun(reached, disk, old(disk).actionJournals[actionId], nonce + actionId);
          OneMoreStarted(old(disk), reached, old(disk).actionJournals, nonce, finished, actionId);
        }
        if finished == {} {
          first := actionId;
        }
        pending := pending - {actionId};
        finished := finished + {actionId};
      }
      assert finished == old(disk).actionJournals.Keys;
      return Done(());
    }

    /** Opening the store again after a crash: both recoveries, in the constructor's order. */
    method Reopen(nonce: Id) returns (r: Outcome<()>)
      requires ActionsKeyed(disk) && TransitionsKeyed(disk)
      modifies this
      ensures r.Done? ==> disk.actionJournals == map[] && disk.transitionJournals == map[]
      ensures old(disk).actionJournals == map[] && old(disk).transitionJournals == map[] ==>
        disk == old(disk) && r.Done?
      ensures old(disk).actionJournals == map[] ==>
                forall id :: id in old(disk).transitionJournals && old(disk).transitionJournals.Keys == {id} ==>
                  FinishesTransition(old(disk), disk, old(disk).transitionJournals[id], r)
      ensures old(disk).transitionJournals == map[] ==>
                forall id :: id in old(disk).actionJournals && old(disk).actionJournals.Keys == {id} ==>
                  FinishesAction(old(disk), disk, old(disk).actionJournals[id], nonce + id, r)
    {
      r := RecoverActions(nonce);
      if r.Done? {
        r := RecoverTransitions();
      }
    }

    /** A transition commit is atomic across crashes: crash anywhere in it, crash again any
        number of times while recovering, and once a recovery returns the disk is either the
        old one or the committed one, with every snapshot loadable and every ledger a chain. */
    method CommitAcrossCrashes(snapshot: RunStateSnapshot, event: LedgerEvent, nonce: Id, restarts: nat)
      returns (recovered: bool)
      requires Settled(disk) && CommitOk(disk, snapshot, event)
      modifies this
      ensures recovered ==> Settled(disk) && (disk == old(disk) || disk == Committed(old(disk), snapshot, event))
      ensures !recovered ==> Interrupted(old(disk), disk, TransitionJournal(event, snapshot))
    {
      ghost var j := TransitionJournal(event, snapshot);
      CommittedIsSettled(disk, snapshot, event);
      var r := CommitTransition(snapshot, event);
      recovered := r.Done?;
      for attempt := 0 to restarts
        invariant recovered ==> disk == old(disk) || disk == Committed(old(disk), snapshot, event)
        invariant !recovered ==>
          disk == old(disk) || disk == Committed(old(disk), snapshot, event) || Interrupted(old(disk), disk, j)
      {
        if !recovered {
          if Interrupted(old(disk), disk, j) {
            RedoIsStable(old(disk), disk, j);
            assert event.eventId in disk.transitionJournals && disk.transitionJournals.Keys == {event.eventId};
          }
          r := Reopen(nonce);
          recovered := r.Done?;
        }
      }
      if Interrupted(old(disk), disk, j) {
        RedoIsStable(old(disk), disk, j);
      }
      recovered := recovered || disk.transitionJournals == map[];
    }

    /** Opening the store after consume-and-start may have been cut short: with no journal it
        changes nothing; otherwise it stays within the stages, and a return means the start
        went through. */
    method ReopenAfterBegin(ghost before: Disk, ghost action: Action, nonce: Id) returns (recovered: bool)
      requires before.actionJournals == map[] && before.transitionJournals == map[]
      requires (disk.actionJournals == map[] && disk.transitionJournals == map[])
               || (&& Usable(before, action) && !HasStart(Events(before, action.runId), action.actionId)
                   && ActionInterrupted(before, disk, action))
      modifies this
      ensures old(disk).actionJournals == map[] ==> disk == old(disk) && recovered
      ensures old(disk).actionJournals != map[] ==>
                && Usable(before, action)
                && (BegunBy(before, disk, action) || (!recovered && ActionInterrupted(before, disk, action)))
    {
      hide SpentIn, OpenedIn, UsableIn, HasStart, EventsIn;
      if disk.actionJournals != map[] {
        ActionRedoIsStable(before, disk, action, nonce + action.actionId);
        assert action.actionId in disk.actionJournals && disk.actionJournals.Keys == {action.actionId};
      }
      var r := Reopen(nonce);
      recovered := r.Done?;
    }

    /** Consume-and-start is atomic across crashes: once a recovery returns, either the
        journal never landed and the disk is the old one, the authorization still ISSUED and
        no start recorded; or the authorization is consumed by exactly this action and the
        ledger has gained exactly its start. No journal remains. */
    method BeginAcrossCrashes(action: Action, eventId: Id, nonce: Id, restarts: nat) returns (recovered: bool)
      requires Settled(disk) && Usable(disk, action) && !HasStart(Events(disk, action.runId), action.actionId)
      modifies this
      ensures recovered ==> Settled(disk) && (disk == old(disk) || BegunBy(old(disk), disk, action))
      ensures !recovered ==> ActionInterrupted(old(disk), disk, action)
    {
      ghost var before := disk;
      var r := BeginAuthorizedAction(action, eventId);
      if r.Done? {
        ActionRedoIsStable(before, ActionJournaled(before, action), action, eventId);
      }
      recovered := r.Done?;
      for attempt := 0 to restarts
        invariant disk == before || BegunBy(before, disk, action) || (!recovered
          && ActionInterrupted(before, disk, action))
      {
        if !recovered {
          JournalsTell(before, disk, action);
          recovered := ReopenAfterBegin(before, action, nonce);
        }
      }
      if ActionInterrupted(before, disk, action) {
        ActionRedoIsStable(before, disk, action, eventId);
      }
      recovered := recovered || disk.actionJournals == map[];
      if BegunBy(before, disk, action) {
        BegunMeans(before, disk, action);
      }
    }

    /** The exact limit of that guarantee. If the journal of an unusable action reaches the
        disk and the process dies before removing it, no later opening of the store succeeds
        and the journal stays for good. */
    method UnusableJournalIsFatal(action: Action, nonce: Id, restarts: nat) returns (recovered: bool)
      requires disk.actionJournals == map[action.actionId := action] && disk.transitionJournals == map[]
      requires !Usable(disk, action)
      modifies this
      ensures !recovered && disk == old(disk)
    {
      recovered := false;
      for attempt := 0 to restarts
        invariant !recovered && disk == old(disk)
      {
        assert action.actionId in disk.actionJournals && disk.actionJournals.Keys == {action.actionId};
        var r := Reopen(nonce);
        recovered := r.Done?;
      }
    }
  }
}
