/** What no step of a run takes back: its ledger, the assets and measurements it recorded, the
    decisions that were made, what was spent, and the originals. */
module History {
  import opened Domain
  import opened Ledger
  import opened Constraints
  import opened Records
  import opened StateMachine
  import opened Store
  import opened Protocol
  import opened Remediation
  import opened Executor
  import opened Steadiness

  /** A record only grows: what it was made from and whom it belongs to stay, and so do its
      assets, its measurements, the decisions in it and the ledger of original hashes. */
  predicate KeepsRecord(before: RuntimeRun, after: RuntimeRun) {
    && after.runId == before.runId && after.originalHashes == before.originalHashes
    && after.requirements == before.requirements && after.checkOrder == before.checkOrder
    && before.assets <= after.assets && before.measurements <= after.measurements && before.decisions <= after.decisions
  }

  /** A stored request is only ever decided, and only once. */
  predicate KeptRequest(before: DecisionRequest, after: DecisionRequest) {
    after == before.(status := after.status) && (!before.status.Pending? ==> after == before)
  }

  /** Everything durable about a run at one moment is still there at a later one: the ledger is
      a prefix, the record has only grown, every authorization is bound as it was and never
      issued again once spent or void, and decided requests stay as decided. */
  ghost predicate Extends(before: Disk, after: Disk, runId: Id) {
    && runId in before.runs && runId in after.runs && KeepsRecord(before.runs[runId], after.runs[runId])
    && Events(before, runId) <= Events(after, runId)
    && (forall id :: id in before.authorizations ==>
          id in after.authorizations && KeptAuthorization(before.authorizations[id], after.authorizations[id]))
    && (forall id :: id in before.decisions ==>
      id in after.decisions && KeptRequest(before.decisions[id], after.decisions[id]))
  }

  lemma ExtendsTwice(before: Disk, middle: Disk, after: Disk, runId: Id)
    requires Extends(before, middle, runId) && Extends(middle, after, runId)
    ensures Extends(before, after, runId)
  {}

  /** The steps of a run add up. */
  lemma ExtendsOn(runId: Id)
    ensures forall before, middle, after {:trigger Extends(before, middle, runId), Extends(middle, after, runId)} ::
              Extends(before, middle, runId) && Extends(middle, after, runId) ==> Extends(before, after, runId)
  {
    hide Extends;
    forall before, middle, after | Extends(before, middle, runId) && Extends(middle, after, runId)
      ensures Extends(before, after, runId)
    {
      ExtendsTwice(before, middle, after, runId);
    }
  }

  lemma ExtendsSame(d: Disk, runId: Id)
    requires runId in d.runs
    ensures Extends(d, d, runId)
  {}

  // ------------------------------------------------------------ single steps

  lemma SavedExtends(d: Disk, runId: Id, updated: RuntimeRun)
    requires runId in d.runs && KeepsRecord(d.runs[runId], updated)
    ensures Extends(d, d.(runs := d.runs[runId := updated]), runId)
  {}

  lemma SnapshotExtends(d: Disk, runId: Id, snapshot: RunStateSnapshot)
    requires runId in d.runs
    ensures Extends(d, WithSnapshot(d, snapshot), runId)
  {}

  lemma RequestExtends(d: Disk, runId: Id, request: DecisionRequest)
    requires runId in d.runs
    requires request.decisionId in d.decisions ==> KeptRequest(d.decisions[request.decisionId], request)
    ensures Extends(d, d.(decisions := d.decisions[request.decisionId := request]), runId)
  {}

  lemma AuthorizationExtends(d: Disk, runId: Id, authorization: Authorization)
    requires runId in d.runs && authorization.authorizationId !in d.authorizations
    ensures Extends(d, d.(authorizations := d.authorizations[authorization.authorizationId := authorization]), runId)
  {}

  /** Events are added, and snapshots and journals change. */
  lemma EventsExtend(d: Disk, after: Disk, runId: Id)
    requires runId in d.runs && Events(d, runId) <= Events(after, runId)
    requires after.runs == d.runs && after.authorizations == d.authorizations && after.decisions == d.decisions
    ensures Extends(d, after, runId)
  {
    hide EventsIn;
  }

  lemma LoggedEvents(d: Disk, j: TransitionJournal)
    ensures var after := Logged(d, j);
            && after.runs == d.runs && after.authorizations == d.authorizations && after.decisions == d.decisions
            && Events(d, j.event.runId) <= Events(after, j.event.runId)
  {
    hide Matching, EventsIn;
    AppendedEvents(d, j.event);
  }

  lemma CommitExtends(d: Disk, after: Disk, j: TransitionJournal)
    requires j.event.runId in d.runs
    requires after == d || after == Committed(d, j.snapshot, j.event) || Interrupted(d, after, j)
    ensures Extends(d, after, j.event.runId)
  {
    LoggedEvents(Journaled(d, j), j);
    hide Logged, Extends;
    EventsExtend(d, after, j.event.runId);
  }

  lemma FinishCommitExtends(left: Disk, after: Disk, j: TransitionJournal, r: Outcome<()>)
    requires j.event.runId in left.runs && FinishesTransition(left, after, j, r)
    ensures Extends(left, after, j.event.runId)
  {
    hide Logged, FinishOk, LogOk, Extends, SnapshotOk, EventsIn;
    LoggedEvents(left, j);
    EventsExtend(left, after, j.event.runId);
  }

  lemma SpentKeeps(authorizations: map<Id, Authorization>, action: Action)
    requires UsableIn(authorizations, action)
    ensures SameBindings(authorizations, SpentIn(authorizations, action))
  {}

  lemma OpenedExtends(d: Disk, action: Action, eventId: Id)
    requires Usable(d, action) && action.runId in d.runs
    ensures Extends(d, Spent(d, action), action.runId) && Extends(d, Opened(d, action, eventId), action.runId)
  {
    SpentKeeps(d.authorizations, action);
    hide SpentIn, UsableIn, HasStart, StartedEvent;
  }

  lemma JournalExtends(d: Disk, after: Disk, runId: Id)
    requires runId in d.runs && after == d.(actionJournals := after.actionJournals)
    ensures Extends(d, after, runId)
  {}

  lemma FinishStartExtends(left: Disk, after: Disk, action: Action, eventId: Id, r: Outcome<()>)
    requires action.runId in left.runs && FinishesAction(left, after, action, eventId, r)
    ensures Extends(left, after, action.runId)
  {
    hide Extends, SpentIn, OpenedIn, UsableIn, HasStart, StartCount;
    ExtendsSame(left, action.runId);
    ExtendsOn(action.runId);
    if Usable(left, action) {
      OpenedExtends(left, action, eventId);
      OpenedRuns(left, action, eventId);
      JournalExtends(Opened(left, action, eventId), Begun(left, action, eventId), action.runId);
    }
  }

  lemma OpenedRuns(d: Disk, action: Action, eventId: Id)
    requires Usable(d, action)
    ensures Opened(d, action, eventId).runs == d.runs
  {}

  lemma InterruptedExtends(d: Disk, after: Disk, action: Action)
    requires action.runId in d.runs && Usable(d, action) && ActionInterrupted(d, after, action)
    ensures Extends(d, after, action.runId)
  {
    hide Extends, SpentIn, OpenedIn, UsableIn;
    ExtendsOn(action.runId);
    var started := ActionJournaled(d, action);
    JournalExtends(d, started, action.runId);
    ExtendsSame(started, action.runId);
    if after == Spent(started, action) {
      OpenedExtends(started, action, 0);
    } else if after != started {
      var eventId :| after == Opened(started, action, eventId);
      OpenedExtends(started, action, eventId);
    }
  }

  // ------------------------------------------------------------ actions

  lemma FramedExtends(before: Disk, after: Disk, runId: Id, starter: Option<Action>)
    requires Framed(before, after, runId, starter) && GrownOn(before, after, runId)
    ensures Extends(before, after, runId)
  {
    hide LastTarget, KeptAuthorization;
  }

  lemma LeftExtends(before: Disk, after: Disk, action: Action)
    requires LeftBy(before, after, action) && GrownOn(before, after, action.runId)
    ensures Extends(before, after, action.runId)
  {
    hide Extends, Framed, UsableIn, ActionInterrupted;
    if Framed(before, after, action.runId, Some(action)) {
      FramedExtends(before, after, action.runId, Some(action));
    } else if TierOf(action.tool) == Some(ContentAffecting) && Usable(before, action) {
      InterruptedExtends(before, after, action);
    } else {
      JournalExtends(before, after, action.runId);
    }
  }

  // ------------------------------------------------------------ the originals

  /** The original files of a record are there, and hold what they held. */
  predicate OriginalsKept(run: RuntimeRun, files: Files, now: Files) {
    forall i :: 0 <= i < |run.assets| && run.assets[i].asset.protection.Original? ==>
      && run.assets[i].path in files && run.assets[i].path in now
      && now[run.assets[i].path] == files[run.assets[i].path]
  }

  lemma GoodOriginals(d: Disk, files: Files, runId: Id, i: nat)
    requires Good(d, files, runId) && i < |d.runs[runId].assets| && d.runs[runId].assets[i].asset.protection.Original?
    ensures Intact(d.runs[runId].assets[i], files)
  {
    hide Chain, AuthorityOk;
    assert AssetOk(d.runs[runId].assets[i]) && RecordedOk(Events(d, runId), d.runs[runId].assets[i], files);
  }

  lemma RestartableRecorded(lex: Lexicon, d: Disk, files: Files, runId: Id)
    requires Restartable(lex, d, files, runId)
    ensures runId in d.runs
  {
    hide Restartable, Good;
    var settled: Disk := FromSteady(lex, d, files, runId);
  }

  lemma RestartableOriginals(lex: Lexicon, d: Disk, files: Files, runId: Id)
    requires Restartable(lex, d, files, runId)
    ensures runId in d.runs
    ensures forall i :: 0 <= i < |d.runs[runId].assets| && d.runs[runId].assets[i].asset.protection.Original? ==>
              Intact(d.runs[runId].assets[i], files)
  {
    hide Good, Intact, RunOk, StatusOk, BackedOk, DecisionsOk, ManifestOk, Settled, AssetsOk;
    var settled: Disk := FromSteady(lex, d, files, runId);
    forall i | 0 <= i < |settled.runs[runId].assets| && settled.runs[runId].assets[i].asset.protection.Original?
      ensures Intact(settled.runs[runId].assets[i], files)
    {
      GoodOriginals(settled, files, runId, i);
    }
  }

  /** What a cut-short call leaves has the record of a steady disk. */
  lemma FromSteady(lex: Lexicon, d: Disk, files: Files, runId: Id) returns (settled: Disk)
    requires Restartable(lex, d, files, runId)
    ensures Good(settled, files, runId) && runId in settled.runs && settled.runs == d.runs
  {
    hide Good, Settled, RunOk, StatusOk, BackedOk, DecisionsOk, ManifestOk, CommitOk;
    if Steady(lex, d, files, runId) {
      settled := d;
    } else if exists before, j :: PendingCommit(lex, before, d, files, runId, j) {
      var before, j :| PendingCommit(lex, before, d, files, runId, j);
      settled := before;
      CommitJournals(before, d, j);
    } else {
      var before, action :| PendingStart(lex, before, d, files, runId, action);
      settled := before;
      InterruptedRuns(before, d, action);
    }
    GoodRecorded(settled, files, runId);
  }

  lemma GoodRecorded(d: Disk, files: Files, runId: Id)
    requires Good(d, files, runId)
    ensures runId in d.runs
  {}

  lemma InterruptedRuns(d: Disk, after: Disk, action: Action)
    requires Usable(d, action) && ActionInterrupted(d, after, action)
    ensures after.runs == d.runs
  {
    hide SpentIn, OpenedIn, UsableIn;
  }

  /** Between any two moments of a run the original files are the same, byte for byte. */
  lemma OriginalsUnchanged(lex: Lexicon, d: Disk, files: Files, after: Disk, now: Files, runId: Id)
    requires Restartable(lex, d, files, runId) && Restartable(lex, after, now, runId) && Extends(d, after, runId)
    ensures runId in d.runs && OriginalsKept(d.runs[runId], files, now)
  {
    hide Restartable;
    RestartableOriginals(lex, d, files, runId);
    RestartableOriginals(lex, after, now, runId);
    var run, later := d.runs[runId], after.runs[runId];
    forall i | 0 <= i < |run.assets| && run.assets[i].asset.protection.Original?
      ensures run.assets[i].path in files && run.assets[i].path in now
        && now[run.assets[i].path] == files[run.assets[i].path]
    {
      assert later.assets[i] == run.assets[i];
      assert Intact(run.assets[i], files) && Intact(later.assets[i], now);
    }
  }
}
