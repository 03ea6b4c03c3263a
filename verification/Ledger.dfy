/** The append-only, hash-chained ledger of one run. SHA-256 is modelled as an injective
    constructor: a digest determines the event it was taken of. */
module Ledger {
  import opened Domain

  datatype Payload =
    | StateTransition(from: RunStatus, to: RunStatus)
    | ActionStarted(actionId: Id, tool: Tool, authorizationId: Option<Id>)
    | ActionCompleted(actionId: Id, newAssetId: AssetId, sha256: Digest)
    | ActionFailed(actionId: Id, reason: string)

  datatype EventDigest = EventDigest(event: LedgerEvent)

  datatype LedgerEvent = LedgerEvent(
    eventId: Id,
    runId: Id,
    seqNo: nat,
    actor: string,
    payload: Payload,
    refs: seq<OptionId>,
    prevHash: Option<EventDigest>)

  /** The hash the next event must carry. */
  function Head(events: seq<LedgerEvent>): Option<EventDigest> {
    if events == [] then None else Some(EventDigest(events[|events| - 1]))
  }

  predicate Starts(event: LedgerEvent, actionId: Id) {
    event.payload.ActionStarted? && event.payload.actionId == actionId
  }

  predicate Closes(event: LedgerEvent, actionId: Id) {
    (event.payload.ActionCompleted? || event.payload.ActionFailed?) && event.payload.actionId == actionId
  }

  predicate IsClosing(event: LedgerEvent) {
    event.payload.ActionCompleted? || event.payload.ActionFailed?
  }

  predicate HasStart(events: seq<LedgerEvent>, actionId: Id) {
    exists i :: 0 <= i < |events| && Starts(events[i], actionId)
  }

  predicate HasClose(events: seq<LedgerEvent>, actionId: Id) {
    exists i :: 0 <= i < |events| && Closes(events[i], actionId)
  }

  /** The three checks of `append_event`. */
  predicate Acceptable(events: seq<LedgerEvent>, event: LedgerEvent) {
    && event.seqNo == |events| + 1
    && event.prevHash == Head(events)
    && (IsClosing(event) ==> HasStart(events, event.payload.actionId))
  }

  /** What every stored ledger satisfies, said about the whole sequence: numbered by
      position, each event sealed by the hash of its predecessor, no result without an
      earlier start. */
  predicate Chain(events: seq<LedgerEvent>) {
    forall i :: 0 <= i < |events| ==> Acceptable(events[..i], events[i])
  }

  /** `append_event` accepts exactly the events that keep the chain. */
  lemma AppendIffChain(events: seq<LedgerEvent>, event: LedgerEvent)
    ensures Chain(events + [event]) <==> Chain(events) && Acceptable(events, event)
  {
    var longer := events + [event];
    assert longer[..|events|] == events && longer[|events|] == event;
    forall i | 0 <= i < |events|
      ensures longer[..i] == events[..i] && longer[i] == events[i]
    {}
    if Chain(longer) {
      assert Acceptable(longer[..|events|], longer[|events|]);
      forall i | 0 <= i < |events| ensures Acceptable(events[..i], events[i]) {
        assert Acceptable(longer[..i], longer[i]);
      }
    }
  }

  /** What is recorded of an action, in the events' own fields. */
  lemma ActionEvents(events: seq<LedgerEvent>, actionId: Id)
    ensures HasStart(events, actionId) <==>
      exists i :: 0 <= i < |events| && events[i].payload.ActionStarted? && events[i].payload.actionId == actionId
    ensures HasClose(events, actionId) <==>
      exists i :: 0 <= i < |events| && !events[i].payload.StateTransition? && !events[i].payload.ActionStarted?
                  && events[i].payload.actionId == actionId
  {
    if HasStart(events, actionId) {
      var i :| 0 <= i < |events| && Starts(events[i], actionId);
      assert events[i].payload.actionId == actionId;
    }
    if HasClose(events, actionId) {
      var i :| 0 <= i < |events| && Closes(events[i], actionId);
      assert events[i].payload.actionId == actionId;
    }
    forall i | 0 <= i < |events| && !events[i].payload.StateTransition? && events[i].payload.actionId == actionId
      ensures Starts(events[i], actionId) || Closes(events[i], actionId)
    {}
  }

  /** An event that stands in its place: numbered by it, sealed by the hash of the one before,
      and no result without an earlier start. */
  predicate InPlace(events: seq<LedgerEvent>, i: nat)
    requires i < |events|
  {
    && events[i].seqNo == i + 1 && events[i].prevHash == (if i == 0 then None else Some(EventDigest(events[i - 1])))
    && (events[i].payload.ActionCompleted? || events[i].payload.ActionFailed? ==>
          exists j :: 0 <= j < i && events[j].payload.ActionStarted?
                      && events[j].payload.actionId == events[i].payload.actionId)
  }

  lemma ChainIff(events: seq<LedgerEvent>)
    ensures Chain(events) <==> forall i :: 0 <= i < |events| ==> InPlace(events, i)
  {
    forall i | 0 <= i < |events| ensures Acceptable(events[..i], events[i]) <==> InPlace(events, i) {
      AcceptableInPlace(events, i);
    }
  }

  lemma AcceptableInPlace(events: seq<LedgerEvent>, i: nat)
    requires i < |events|
    ensures Acceptable(events[..i], events[i]) <==> InPlace(events, i)
  {
    if IsClosing(events[i]) {
      ActionEvents(events[..i], events[i].payload.actionId);
      assert forall j :: 0 <= j < i ==> events[..i][j] == events[j];
    }
  }

  /** Tamper evidence: two chains with the same head hash are the same chain, event for
      event, whatever their lengths. */
  lemma {:induction false} HeadFixesLedger(left: seq<LedgerEvent>, right: seq<LedgerEvent>)
    requires Chain(left) && Chain(right) && Head(left) == Head(right)
    ensures left == right
    decreases |left|
  {
    if left != [] {
      var l, r := |left| - 1, |right| - 1;
      assert left == left[..l] + [left[l]] && right == right[..r] + [right[r]];
      AppendIffChain(left[..l], left[l]);
      AppendIffChain(right[..r], right[r]);
      HeadFixesLedger(left[..l], right[..r]);
    }
  }

  // ---------------------------------------------------------------- counting

  function StartCount(events: seq<LedgerEvent>, actionId: Id): (n: nat)
    ensures n == 0 <==> !HasStart(events, actionId)
  {
    if events == [] then 0
    else
      var last := |events| - 1;
      assert forall i :: 0 <= i < last ==> events[..last][i] == events[i];
      var rest := StartCount(events[..last], actionId);
      assert HasStart(events[..last], actionId) ==> HasStart(events, actionId);
      rest + if Starts(events[last], actionId) then 1 else 0
  }

  function CloseCount(events: seq<LedgerEvent>, actionId: Id): (n: nat)
    ensures n == 0 <==> !HasClose(events, actionId)
  {
    if events == [] then 0
    else
      var last := |events| - 1;
      assert forall i :: 0 <= i < last ==> events[..last][i] == events[i];
      var rest := CloseCount(events[..last], actionId);
      assert HasClose(events[..last], actionId) ==> HasClose(events, actionId);
      rest + if Closes(events[last], actionId) then 1 else 0
  }

  /** One more event: how the two counts move. */
  lemma {:induction false} CountAppend(events: seq<LedgerEvent>, event: LedgerEvent, actionId: Id)
    ensures StartCount(events + [event], actionId) ==
            StartCount(events, actionId) + if Starts(event, actionId) then 1 else 0
    ensures CloseCount(events + [event], actionId) ==
            CloseCount(events, actionId) + if Closes(event, actionId) then 1 else 0
  {
    var longer := events + [event];
    assert longer[..|longer| - 1] == events;
  }

  /** `unfinished_actions`: started and not closed, in ledger order. */
  function Unfinished(events: seq<LedgerEvent>): seq<Id> {
    UnfinishedUpTo(events, events)
  }

  function UnfinishedUpTo(prefix: seq<LedgerEvent>, events: seq<LedgerEvent>): seq<Id> {
    if prefix == [] then []
    else
      var last := prefix[|prefix| - 1];
      var rest := UnfinishedUpTo(prefix[..|prefix| - 1], events);
      if last.payload.ActionStarted? && !HasClose(events, last.payload.actionId)
      then rest + [last.payload.actionId] else rest
  }

  lemma {:induction false} UnfinishedUpToMeaning(prefix: seq<LedgerEvent>, events: seq<LedgerEvent>, actionId: Id)
    ensures actionId in UnfinishedUpTo(prefix, events) <==> HasStart(prefix, actionId) && !HasClose(events, actionId)
  {
    if prefix != [] {
      var last := |prefix| - 1;
      UnfinishedUpToMeaning(prefix[..last], events, actionId);
      assert prefix == prefix[..last] + [prefix[last]];
      CountAppend(prefix[..last], prefix[last], actionId);
    }
  }

  /** An action is reported unfinished exactly when it has a start and no result. */
  lemma UnfinishedMeaning(events: seq<LedgerEvent>, actionId: Id)
    ensures actionId in Unfinished(events) <==> HasStart(events, actionId) && !HasClose(events, actionId)
  {
    UnfinishedUpToMeaning(events, events, actionId);
  }

  /** The target of the last transition event, if there is one. */
  function LastTarget(events: seq<LedgerEvent>): Option<RunStatus> {
    if events == [] then None
    else
      var last := events[|events| - 1];
      if last.payload.StateTransition? then Some(last.payload.to)
      else LastTarget(events[..|events| - 1])
  }

  lemma {:induction false} LastTargetIs(events: seq<LedgerEvent>, k: nat)
    requires k < |events| && events[k].payload.StateTransition?
    requires forall j :: k < j < |events| ==> !events[j].payload.StateTransition?
    ensures LastTarget(events) == Some(events[k].payload.to)
  {
    if k < |events| - 1 {
      LastTargetIs(events[..|events| - 1], k);
    }
  }

  lemma {:induction false} LastTargetAppend(events: seq<LedgerEvent>, event: LedgerEvent)
    ensures LastTarget(events + [event]) ==
            if event.payload.StateTransition? then Some(event.payload.to) else LastTarget(events)
  {
    var longer := events + [event];
    assert longer[..|longer| - 1] == events;
  }

  // --------------------------------------------------------------- attempts

  /** The options whose actions were started, in order. */
  function Attempted(events: seq<LedgerEvent>): seq<OptionId> {
    if events == [] then []
    else
      var last := events[|events| - 1];
      Attempted(events[..|events| - 1]) + if last.payload.ActionStarted? then last.refs else []
  }

  lemma {:induction false} AttemptedAppend(events: seq<LedgerEvent>, event: LedgerEvent)
    ensures Attempted(events + [event]) == Attempted(events) + if event.payload.ActionStarted? then event.refs else []
  {
    var longer := events + [event];
    assert longer[..|longer| - 1] == events && longer[|longer| - 1] == event;
  }

  lemma {:induction false} NoneAttempted(before: seq<LedgerEvent>, after: seq<LedgerEvent>)
    requires before <= after && forall i :: |before| <= i < |after| ==> !after[i].payload.ActionStarted?
    ensures Attempted(after) == Attempted(before)
    decreases |after|
  {
    if |after| == |before| {
      assert after == before;
    } else {
      var last := |after| - 1;
      NoneAttempted(before, after[..last]);
      assert Attempted(after) == Attempted(after[..last]) + [];
    }
  }
}
