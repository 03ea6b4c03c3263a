/** One inspection, on values: the batch of measurements and findings it adds, and why the
    run it leaves is in order. */
module Inspection {
  import opened Domain
  import opened Sequences
  import opened Ledger
  import opened Constraints
  import opened Terminal
  import opened Records
  import opened StateMachine
  import opened Protocol
  import opened Executor
  import opened Lifecycle
  import opened Steadiness
  import Authority
  import Text

  /** Open findings count as resolved until they are found again. */
  function ResolveOpen(findings: seq<RuntimeFinding>): seq<RuntimeFinding> {
    seq(|findings|, i requires 0 <= i < |findings| =>
      if findings[i].status.Open? then findings[i].(status := Resolved) else findings[i])
  }

  /** Failed actions whose option belongs to a finding of this requirement. */
  function FailureCount(run: RuntimeRun, prefix: seq<LedgerEvent>, events: seq<LedgerEvent>, requirementId: Id): nat {
    if prefix == [] then 0
    else
      var last := prefix[|prefix| - 1];
      FailureCount(run, prefix[..|prefix| - 1], events, requirementId)
      + if last.payload.ActionFailed? && FailedFor(run, events, last.payload.actionId, requirementId) then 1 else 0
  }

  predicate FailedFor(run: RuntimeRun, events: seq<LedgerEvent>, actionId: Id, requirementId: Id) {
    && FindStart(events, actionId).Some?
    && var start := events[FindStart(events, actionId).value];
       && start.refs != [] && RunOption(run, start.refs[0]).Some?
       && RunOption(run, start.refs[0]).value.findingId.requirementId == requirementId
  }

  /** An action that was started for an option about this requirement. */
  predicate StartedFor(run: RuntimeRun, event: LedgerEvent, actionId: Id, requirementId: Id) {
    && event.payload.ActionStarted? && event.payload.actionId == actionId && event.refs != []
    && exists option :: option in AllOptions(run.findings) && RunOption(run, event.refs[0]) == Some(option)
                        && option.findingId.requirementId == requirementId
  }

  /** The places of the failures that count against a requirement. */
  function FailurePlaces(run: RuntimeRun, events: seq<LedgerEvent>, requirementId: Id): set<int> {
    set p | 0 <= p < |events| && events[p].payload.ActionFailed?
            && exists s :: 0 <= s < |events| && StartedFor(run, events[s], events[p].payload.actionId, requirementId)
  }

  /** As many failures are counted as there are failed actions of the requirement's options. */
  lemma {:induction false} FailuresAre(run: RuntimeRun, events: seq<LedgerEvent>, requirementId: Id)
    requires Once(events)
    ensures FailureCount(run, events, events, requirementId) == |FailurePlaces(run, events, requirementId)|
  {
    hide FailedFor, StartedFor;
    var test := (event: LedgerEvent) => event.payload.ActionFailed? && FailedFor(run, events, event.payload.actionId,
      requirementId);
    FailuresUpTo(run, events, events, requirementId, test);
    forall p | 0 <= p < |events| && events[p].payload.ActionFailed?
      ensures FailedFor(run, events, events[p].payload.actionId, requirementId) <==>
        exists s :: 0 <= s < |events| && StartedFor(run, events[s], events[p].payload.actionId, requirementId)
    {
      FailedForIff(run, events, events[p].payload.actionId, requirementId);
    }
    assert Places(events, test) == FailurePlaces(run, events, requirementId);
  }

  lemma {:induction false} FailuresUpTo(run: RuntimeRun, prefix: seq<LedgerEvent>, events: seq<LedgerEvent>,
                                        requirementId: Id, test: LedgerEvent -> bool)
    requires forall event :: event in prefix ==> (test(event) <==>
      event.payload.ActionFailed? && FailedFor(run, events, event.payload.actionId, requirementId))
    ensures FailureCount(run, prefix, events, requirementId) == |Places(prefix, test)|
  {
    hide FailedFor;
    if prefix == [] {
      assert Places(prefix, test) == {};
    } else {
      var last := |prefix| - 1;
      FailuresUpTo(run, prefix[..last], events, requirementId, test);
      PlacesAppend(prefix[..last], prefix[last], test);
      assert prefix == prefix[..last] + [prefix[last]];
    }
  }

  lemma FailedForIff(run: RuntimeRun, events: seq<LedgerEvent>, actionId: Id, requirementId: Id)
    requires Once(events)
    ensures FailedFor(run, events, actionId, requirementId) <==>
      exists s :: 0 <= s < |events| && StartedFor(run, events[s], actionId, requirementId)
  {
    if FailedFor(run, events, actionId, requirementId) {
      assert StartedFor(run, events[FindStart(events, actionId).value], actionId, requirementId);
    }
    if exists s :: 0 <= s < |events| && StartedFor(run, events[s], actionId, requirementId) {
      var s :| 0 <= s < |events| && StartedFor(run, events[s], actionId, requirementId);
      assert Starts(events[s], actionId);
      assert StartCount(events, actionId) <= 1;
      OneStart(events, s, FindStart(events, actionId).value);
    }
  }

  /** What an inspection may add for one requirement. */
  function OffersFor(run: RuntimeRun, events: seq<LedgerEvent>, cycle: nat, id: Id): Outcome<seq<RemediationOption>> {
    var requirement := FindRequirement(run.requirements, id);
    if requirement.None? || TargetOf(run, requirement.value).None? then Raised(MissingKey)
    else OptionsFor(run.runId, requirement.value, FindingId(id, cycle, false),
      TargetOf(run, requirement.value).value.asset.assetId,
                    FailureCount(run, events, events, id))
  }

  predicate AddedFinding(run: RuntimeRun, events: seq<LedgerEvent>, cycle: nat, finding: RuntimeFinding) {
    && finding.findingId == FindingId(finding.requirementId, cycle, false)
    && finding.cycleOpened == cycle && finding.status.Open?
    && OffersFor(run, events, cycle, finding.requirementId) == Done(finding.options)
  }

  predicate AddedMeasurement(run: RuntimeRun, cycle: nat, m: Measurement) {
    m.cycle == cycle && m.requirementId in OrderedIds(run) && Measurable(run, m.requirementId)
  }

  /** The batch covers the first `n` requirements of the order. */
  predicate Covers(run: RuntimeRun, n: nat, batch: seq<Measurement>)
    requires n <= |OrderedIds(run)|
  {
    forall k :: 0 <= k < n && Measurable(run, OrderedIds(run)[k]) ==> Measures(batch, OrderedIds(run)[k])
  }

  /** Nothing in the record is of this cycle yet. */
  predicate Uninspected(run: RuntimeRun, cycle: nat) {
    && (forall i :: 0 <= i < |run.findings| ==> run.findings[i].cycleOpened < cycle)
    && (forall i :: 0 <= i < |run.measurements| ==> run.measurements[i].cycle < cycle)
  }

  function InspectedRun(run: RuntimeRun, batch: seq<Measurement>, added: seq<RuntimeFinding>): RuntimeRun {
    run.(measurements := run.measurements + batch, findings := ResolveOpen(run.findings) + added)
  }

  ghost predicate IsInspection(run: RuntimeRun, events: seq<LedgerEvent>, cycle: nat, n: nat, batch: seq<Measurement>,
                               added: seq<RuntimeFinding>)
  {
    && n <= |OrderedIds(run)|
    && (forall i :: 0 <= i < |batch| ==> AddedMeasurement(run, cycle, batch[i]))
    && (forall i :: 0 <= i < |added| ==> AddedFinding(run, events, cycle, added[i]))
    && Covers(run, n, batch)
  }

  lemma NothingInspected(run: RuntimeRun, events: seq<LedgerEvent>, cycle: nat)
    ensures IsInspection(run, events, cycle, 0, [], [])
  {}

  lemma InspectionSkips(run: RuntimeRun, events: seq<LedgerEvent>, cycle: nat, n: nat, batch: seq<Measurement>,
                        added: seq<RuntimeFinding>)
    requires IsInspection(run, events, cycle, n, batch, added)
    requires n < |OrderedIds(run)| && !Measurable(run, OrderedIds(run)[n])
    ensures IsInspection(run, events, cycle, n + 1, batch, added)
  {}

  lemma InspectionTakes(run: RuntimeRun, events: seq<LedgerEvent>, cycle: nat, n: nat, batch: seq<Measurement>,
                        added: seq<RuntimeFinding>, m: Measurement, more: seq<RuntimeFinding>)
    requires IsInspection(run, events, cycle, n, batch, added)
    requires n < |OrderedIds(run)| && m.requirementId == OrderedIds(run)[n] && AddedMeasurement(run, cycle, m)
    requires forall i :: 0 <= i < |more| ==> AddedFinding(run, events, cycle, more[i])
    ensures IsInspection(run, events, cycle, n + 1, batch + [m], added + more)
  {
    hide AddedMeasurement, AddedFinding, Measurable, OrderedIds;
    var longer := batch + [m];
    forall k | 0 <= k < n + 1 && Measurable(run, OrderedIds(run)[k]) ensures Measures(longer, OrderedIds(run)[k]) {
      if k < n {
        assert Measures(batch, OrderedIds(run)[k]);
        var j :| 0 <= j < |batch| && batch[j].requirementId == OrderedIds(run)[k];
        assert longer[j] == batch[j];
      } else {
        assert longer[|batch|] == m;
      }
    }
  }

  // ------------------------------------------------------------ exactly what is recorded

  /** The finding a measurement gives rise to: one exactly when its constraint does not pass. */
  function FindingFor(lex: Lexicon, run: RuntimeRun, events: seq<LedgerEvent>, cycle: nat, m: Measurement)
      : seq<RuntimeFinding> {
    var requirement, offers := FindRequirement(run.requirements, m.requirementId),
      OffersFor(run, events, cycle, m.requirementId);
    if requirement.None? || requirement.value.constraint.None? || !offers.Done? || TargetOf(run,
      requirement.value).None? then []
    else if Constraints.Evaluate(lex, m, requirement.value.constraint.value) == Pass then []
    else [RuntimeFinding(FindingId(m.requirementId, cycle, false), m.requirementId,
      TargetOf(run, requirement.value).value.asset.assetId,
                         cycle, Open, offers.value, None)]
  }

  function FindingsFor(lex: Lexicon, run: RuntimeRun, events: seq<LedgerEvent>, cycle: nat, batch: seq<Measurement>)
      : seq<RuntimeFinding> {
    if batch == [] then []
    else FindingsFor(lex, run, events, cycle, batch[..|batch| - 1]) + FindingFor(lex, run, events, cycle,
      batch[|batch| - 1])
  }

  /** The measurement is of a constrained requirement that has something to look at, and whose
      option, if it has one, is valid; `_inspect` raises otherwise. */
  predicate Judged(run: RuntimeRun, events: seq<LedgerEvent>, cycle: nat, m: Measurement) {
    var requirement := FindRequirement(run.requirements, m.requirementId);
    && requirement.Some? && requirement.value.constraint.Some? && TargetOf(run, requirement.value).Some?
    && OffersFor(run, events, cycle, m.requirementId).Done?
  }

  /** What is found: a measurement leaves a finding exactly when it does not pass under its
      requirement's constraint. The finding is open, named after the requirement and the cycle,
      about the asset that was looked at, with what is offered for it. */
  lemma {:induction false} FoundIff(lex: Lexicon, run: RuntimeRun, events: seq<LedgerEvent>, cycle: nat,
                                    batch: seq<Measurement>, finding: RuntimeFinding)
    requires forall i :: 0 <= i < |batch| ==> Judged(run, events, cycle, batch[i])
    ensures finding in FindingsFor(lex, run, events, cycle, batch) <==>
      exists i :: 0 <= i < |batch| && IsFoundBy(lex, run, events, cycle, batch[i], finding)
  {
    hide IsFoundBy, Judged, FindingFor;
    if batch != [] {
      var last := |batch| - 1;
      FoundIff(lex, run, events, cycle, batch[..last], finding);
      FoundByOne(lex, run, events, cycle, batch[last], finding);
      assert forall i :: 0 <= i < last ==> batch[..last][i] == batch[i];
    }
  }

  predicate IsFoundBy(lex: Lexicon, run: RuntimeRun, events: seq<LedgerEvent>, cycle: nat, m: Measurement,
                      finding: RuntimeFinding)
  {
    && Judged(run, events, cycle, m)
    && var requirement := FindRequirement(run.requirements, m.requirementId).value;
       && Constraints.Evaluate(lex, m, requirement.constraint.value) != Pass
       && finding.findingId == FindingId(m.requirementId, cycle, false) && finding.requirementId == m.requirementId
       && finding.assetId == TargetOf(run, requirement).value.asset.assetId && finding.cycleOpened == cycle
       && finding.status.Open? && finding.resolvedByAction.None?
       && Done(finding.options) == OffersFor(run, events, cycle, m.requirementId)
  }

  lemma FoundByOne(lex: Lexicon, run: RuntimeRun, events: seq<LedgerEvent>, cycle: nat, m: Measurement,
                   finding: RuntimeFinding)
    requires Judged(run, events, cycle, m)
    ensures finding in FindingFor(lex, run, events, cycle, m) <==> IsFoundBy(lex, run, events, cycle, m, finding)
  {
    hide OffersFor, TargetOf, FindRequirement, Constraints.Evaluate;
  }

  function MeasuredIds(batch: seq<Measurement>): (r: seq<Id>)
    ensures |r| == |batch| && forall i :: 0 <= i < |r| ==> r[i] == batch[i].requirementId
  {
    seq(|batch|, i requires 0 <= i < |batch| => batch[i].requirementId)
  }

  /** The measurable requirements among the first `n` of the order. */
  function MeasurableIds(run: RuntimeRun, n: nat): seq<Id>
    requires n <= |OrderedIds(run)|
  {
    if n == 0 then []
    else MeasurableIds(run, n - 1) + (if Measurable(run, OrderedIds(run)[n - 1]) then [OrderedIds(run)[n - 1]] else [])
  }

  /** One valid measurement of this cycle for each measurable requirement, in the order of the
      plan, and a finding for each that does not pass. */
  ghost predicate Examines(lex: Lexicon, run: RuntimeRun, events: seq<LedgerEvent>, cycle: nat, n: nat,
                           batch: seq<Measurement>, added: seq<RuntimeFinding>)
  {
    && n <= |OrderedIds(run)| && MeasuredIds(batch) == MeasurableIds(run, n)
    && (forall i :: 0 <= i < |batch| ==> batch[i].cycle == cycle && ValidMeasurement(lex, batch[i]))
    && added == FindingsFor(lex, run, events, cycle, batch)
  }

  /** The record after an inspection of the whole order. */
  ghost predicate InspectedFrom(lex: Lexicon, run: RuntimeRun, events: seq<LedgerEvent>, cycle: nat,
                                updated: RuntimeRun)
  {
    exists batch :: Examines(lex, run, events, cycle, |OrderedIds(run)|, batch,
      FindingsFor(lex, run, events, cycle, batch))
                    && updated == InspectedRun(run, batch, FindingsFor(lex, run, events, cycle, batch))
  }

  lemma WhollyExamined(lex: Lexicon, run: RuntimeRun, events: seq<LedgerEvent>, cycle: nat, batch: seq<Measurement>,
                       added: seq<RuntimeFinding>)
    requires Examines(lex, run, events, cycle, |OrderedIds(run)|, batch, added)
    ensures InspectedFrom(lex, run, events, cycle, InspectedRun(run, batch, added))
  {
    hide ValidMeasurement, FindingsFor, InspectedRun, MeasurableIds;
  }

  // ------------------------------------------------------------ how often a finding is made

  predicate OnceEach(findings: seq<RuntimeFinding>) {
    forall j, k :: 0 <= j < k < |findings| ==> findings[j].findingId != findings[k].findingId
  }

  predicate Failing(lex: Lexicon, run: RuntimeRun, events: seq<LedgerEvent>, cycle: nat, m: Measurement) {
    FindingFor(lex, run, events, cycle, m) != []
  }

  /** Of two measurements of one requirement at most one fails. */
  predicate FailsOnce(lex: Lexicon, run: RuntimeRun, events: seq<LedgerEvent>, cycle: nat, batch: seq<Measurement>) {
    forall i, j :: 0 <= i < j < |batch| && batch[i].requirementId == batch[j].requirementId ==>
      !Failing(lex, run, events, cycle, batch[i]) || !Failing(lex, run, events, cycle, batch[j])
  }

  predicate Found(findings: seq<RuntimeFinding>, findingId: FindingId) {
    exists k :: 0 <= k < |findings| && findings[k].findingId == findingId
  }

  predicate Fails(lex: Lexicon, run: RuntimeRun, events: seq<LedgerEvent>, cycle: nat, batch: seq<Measurement>, id: Id)
  {
    exists i :: 0 <= i < |batch| && batch[i].requirementId == id && Failing(lex, run, events, cycle, batch[i])
  }

  lemma FoundMore(findings: seq<RuntimeFinding>, found: seq<RuntimeFinding>, findingId: FindingId)
    requires |found| <= 1
    ensures Found(findings + found, findingId) <==>
            Found(findings, findingId) || (found != [] && found[0].findingId == findingId)
    ensures OnceEach(findings + found) <==>
            OnceEach(findings) && (found != [] ==> !Found(findings, found[0].findingId))
  {
    var all := findings + found;
    assert forall j :: 0 <= j < |findings| ==> all[j] == findings[j];
    if found != [] {
      assert all[|findings|] == found[0];
    }
  }

  lemma FailsMore(lex: Lexicon, run: RuntimeRun, events: seq<LedgerEvent>, cycle: nat, batch: seq<Measurement>,
                  m: Measurement, id: Id)
    ensures Fails(lex, run, events, cycle, batch + [m], id) <==>
            Fails(lex, run, events, cycle, batch, id) || (m.requirementId == id && Failing(lex, run, events, cycle, m))
    ensures FailsOnce(lex, run, events, cycle, batch + [m]) <==>
            && FailsOnce(lex, run, events, cycle, batch)
            && (Failing(lex, run, events, cycle, m) ==> !Fails(lex, run, events, cycle, batch, m.requirementId))
  {
    hide Failing;
    var all := batch + [m];
    assert all[|batch|] == m && forall j :: 0 <= j < |batch| ==> all[j] == batch[j];
  }

  lemma FindingNamed(lex: Lexicon, run: RuntimeRun, events: seq<LedgerEvent>, cycle: nat, m: Measurement)
    ensures var found := FindingFor(lex, run, events, cycle, m);
            && |found| <= 1 && (Failing(lex, run, events, cycle, m) <==> found != [])
            && (found != [] ==> found[0].findingId == FindingId(m.requirementId, cycle, false))
  {
    hide OffersFor, TargetOf, Constraints.Evaluate;
  }

  /** The findings are those of the failing measurements. */
  lemma {:induction false} FoundFrom(lex: Lexicon, run: RuntimeRun, events: seq<LedgerEvent>, cycle: nat,
                                     batch: seq<Measurement>, id: Id)
    ensures Found(FindingsFor(lex, run, events, cycle, batch), FindingId(id, cycle, false)) <==>
            Fails(lex, run, events, cycle, batch, id)
  {
    hide FindingFor, Failing, Found, Fails;
    if batch == [] {
      NoneFound(lex, run, events, cycle, id);
    } else {
      var before, m := batch[..|batch| - 1], batch[|batch| - 1];
      FoundFrom(lex, run, events, cycle, before, id);
      FindingNamed(lex, run, events, cycle, m);
      FoundMore(FindingsFor(lex, run, events, cycle, before), FindingFor(lex, run, events, cycle, m),
        FindingId(id, cycle, false));
      FailsMore(lex, run, events, cycle, before, m, id);
      assert batch == before + [m];
    }
  }

  lemma NoneFound(lex: Lexicon, run: RuntimeRun, events: seq<LedgerEvent>, cycle: nat, id: Id)
    ensures !Found([], FindingId(id, cycle, false)) && !Fails(lex, run, events, cycle, [], id)
  {}

  /** An inspection makes each finding once exactly when no requirement fails twice in it. */
  lemma {:induction false} FoundOnceIff(lex: Lexicon, run: RuntimeRun, events: seq<LedgerEvent>, cycle: nat,
                                        batch: seq<Measurement>)
    ensures OnceEach(FindingsFor(lex, run, events, cycle, batch)) <==> FailsOnce(lex, run, events, cycle, batch)
  {
    hide FindingFor, Failing, Found, Fails;
    if batch != [] {
      var before, m := batch[..|batch| - 1], batch[|batch| - 1];
      FoundOnceIff(lex, run, events, cycle, before);
      hide OnceEach, FailsOnce;
      FoundFrom(lex, run, events, cycle, before, m.requirementId);
      FindingNamed(lex, run, events, cycle, m);
      FoundMore(FindingsFor(lex, run, events, cycle, before), FindingFor(lex, run, events, cycle, m),
        FindingId(m.requirementId, cycle, false));
      FailsMore(lex, run, events, cycle, before, m, m.requirementId);
      assert batch == before + [m];
    }
  }

  predicate NoRepeat(ids: seq<Id>) { forall p, q :: 0 <= p < q < |ids| ==> ids[p] != ids[q] }

  lemma {:induction false} MeasurableNoRepeat(run: RuntimeRun, n: nat)
    requires n <= |OrderedIds(run)| && NoRepeat(OrderedIds(run)[..n])
    ensures NoRepeat(MeasurableIds(run, n))
    ensures forall id :: id in MeasurableIds(run, n) ==> id in OrderedIds(run)[..n]
  {
    hide Measurable, OrderedIds;
    if n > 0 {
      var ids, before := OrderedIds(run), MeasurableIds(run, n - 1);
      assert forall k :: 0 <= k < n - 1 ==> ids[..n - 1][k] == ids[..n][k];
      MeasurableNoRepeat(run, n - 1);
      assert ids[..n] == ids[..n - 1] + [ids[n - 1]];
      forall k | 0 <= k < |before| ensures before[k] != ids[n - 1] {
        assert before[k] in before;
        var p :| 0 <= p < n - 1 && ids[..n - 1][p] == before[k];
        assert ids[..n][p] != ids[..n][n - 1];
      }
    }
  }

  /** So when nothing stands twice in the order of checks, each requirement is measured at most
      once in a cycle and each finding made at most once. */
  lemma InspectedOnce(lex: Lexicon, run: RuntimeRun, events: seq<LedgerEvent>, cycle: nat, batch: seq<Measurement>,
                      added: seq<RuntimeFinding>)
    requires Examines(lex, run, events, cycle, |OrderedIds(run)|, batch, added) && NoRepeat(OrderedIds(run))
    ensures NoRepeat(MeasuredIds(batch)) && OnceEach(added)
  {
    hide OrderedIds, MeasurableIds, OnceEach, FindingsFor, ValidMeasurement;
    assert OrderedIds(run)[..|OrderedIds(run)|] == OrderedIds(run);
    MeasurableNoRepeat(run, |OrderedIds(run)|);
    FoundOnceIff(lex, run, events, cycle, batch);
    forall i, j | 0 <= i < j < |batch| ensures batch[i].requirementId != batch[j].requirementId {
      assert MeasuredIds(batch)[i] != MeasuredIds(batch)[j];
    }
  }

  /** The order that a requirement on two assets of its role leads to. It is measured twice, both
      times on the first of them, and if it fails both times, there are two findings of one name. */
  lemma RepeatIsFoundTwice(lex: Lexicon, run: RuntimeRun, events: seq<LedgerEvent>, cycle: nat, id: Id,
                           batch: seq<Measurement>, added: seq<RuntimeFinding>)
    requires run.checkOrder == [id, id] && Measurable(run, id)
    requires Examines(lex, run, events, cycle, 2, batch, added)
    ensures MeasuredIds(batch) == [id, id]
    ensures Failing(lex, run, events, cycle, batch[0]) && Failing(lex, run, events, cycle, batch[1]) ==>
              |added| == 2 && added[0].findingId == added[1].findingId == FindingId(id, cycle, false)
  {
    hide ValidMeasurement, FindingFor, Measurable;
    assert MeasurableIds(run, 1) == [] + [id];
    FindingNamed(lex, run, events, cycle, batch[0]);
    FindingNamed(lex, run, events, cycle, batch[1]);
    assert batch[..1][..0] == [] && batch[..1] == [batch[0]];
    assert FindingsFor(lex, run, events, cycle, batch[..1]) == [] + FindingFor(lex, run, events, cycle, batch[0]);
  }

  lemma ExaminesNone(lex: Lexicon, run: RuntimeRun, events: seq<LedgerEvent>, cycle: nat)
    ensures Examines(lex, run, events, cycle, 0, [], [])
  {}

  lemma ExaminesSkips(lex: Lexicon, run: RuntimeRun, events: seq<LedgerEvent>, cycle: nat, n: nat,
                      batch: seq<Measurement>, added: seq<RuntimeFinding>)
    requires Examines(lex, run, events, cycle, n, batch, added)
    requires n < |OrderedIds(run)| && !Measurable(run, OrderedIds(run)[n])
    ensures Examines(lex, run, events, cycle, n + 1, batch, added)
  {
    hide ValidMeasurement, FindingFor, Measurable, OrderedIds;
  }

  lemma ExaminesTakes(lex: Lexicon, run: RuntimeRun, events: seq<LedgerEvent>, cycle: nat, n: nat,
                      batch: seq<Measurement>, added: seq<RuntimeFinding>, m: Measurement, more: seq<RuntimeFinding>)
    requires Examines(lex, run, events, cycle, n, batch, added)
    requires n < |OrderedIds(run)| && Measurable(run, OrderedIds(run)[n]) && m.requirementId == OrderedIds(run)[n]
    requires m.cycle == cycle && ValidMeasurement(lex, m) && more == FindingFor(lex, run, events, cycle, m)
    ensures Examines(lex, run, events, cycle, n + 1, batch + [m], added + more)
  {
    hide ValidMeasurement, FindingFor, Measurable, OrderedIds;
    var longer := batch + [m];
    assert longer[..|longer| - 1] == batch && longer[|longer| - 1] == m;
    assert MeasuredIds(longer) == MeasuredIds(batch) + [m.requirementId];
  }

  /** The facts are fresh once every requirement of the order was looked at. */
  lemma InspectionIsFresh(run: RuntimeRun, events: seq<LedgerEvent>, cycle: nat, batch: seq<Measurement>,
                          added: seq<RuntimeFinding>)
    requires MeasuresOk(run) && IsInspection(run, events, cycle, |OrderedIds(run)|, batch, added)
    ensures Fresh(run.measurements + batch, cycle)
    ensures MeasuresOk(InspectedRun(run, batch, added))
  {
    var updated := InspectedRun(run, batch, added);
    assert OrderedIds(updated) == OrderedIds(run);
    forall i | 0 <= i < |run.measurements|
      ensures Measures(batch, run.measurements[i].requirementId)
    {
      var id := run.measurements[i].requirementId;
      var k :| 0 <= k < |OrderedIds(run)| && OrderedIds(run)[k] == id;
    }
    forall i | 0 <= i < |batch| ensures batch[i].cycle == cycle {
      assert AddedMeasurement(run, cycle, batch[i]);
    }
    BatchIsFresh(run.measurements, batch, cycle);
    forall i | 0 <= i < |updated.measurements|
      ensures updated.measurements[i].requirementId in OrderedIds(updated)
      ensures Measurable(updated, updated.measurements[i].requirementId)
    {
      if i >= |run.measurements| {
        assert AddedMeasurement(run, cycle, batch[i - |run.measurements|]);
      } else {
        assert updated.measurements[i] == run.measurements[i];
      }
    }
  }

  /** Where an option of the inspected run comes from. */
  lemma OptionOrigin(run: RuntimeRun, events: seq<LedgerEvent>, cycle: nat, batch: seq<Measurement>,
                     added: seq<RuntimeFinding>, i: nat, option: RemediationOption)
    requires RunOk(run) && Uninspected(run, cycle)
    requires forall k :: 0 <= k < |added| ==> AddedFinding(run, events, cycle, added[k])
    requires i < |run.findings| + |added|
    requires option in InspectedRun(run, batch, added).findings[i].options
    ensures OptionOk(option, run) && option.findingId == InspectedRun(run, batch, added).findings[i].findingId
    ensures i < |run.findings| ==> option in run.findings[i].options && option.optionId.findingId.cycle < cycle
    ensures i >= |run.findings| ==>
              && option.optionId.findingId.cycle == cycle
              && OffersFor(run, events, cycle, option.findingId.requirementId).Done?
              && OffersFor(run, events, cycle, option.findingId.requirementId).value == [option]
  {
    hide OptionOk, FailureCount, OptionsFor, HashesOk, MeasuresOk, CaptionTargetKnown, TargetOf, FindRequirement;
    if i < |run.findings| {
      assert OptionOk(option, run) && run.findings[i].findingId.cycle == run.findings[i].cycleOpened;
      OptionNamed(option, run);
    } else {
      var finding := added[i - |run.findings|];
      assert AddedFinding(run, events, cycle, finding);
      var requirement := FindRequirement(run.requirements, finding.requirementId).value;
      var target := TargetOf(run, requirement).value;
      assert target in run.assets;
      var k :| 0 <= k < |run.requirements| && run.requirements[k] == requirement;
      OptionsForOk(run, requirement, finding.findingId, target,
        FailureCount(run, events, events, finding.requirementId), option);
      OptionNamed(option, run);
    }
  }

  lemma OptionNamed(option: RemediationOption, run: RuntimeRun)
    requires OptionOk(option, run)
    ensures option.optionId.findingId == option.findingId
  {}

  lemma InspectedOptionsOk(run: RuntimeRun, events: seq<LedgerEvent>, cycle: nat, batch: seq<Measurement>,
                           added: seq<RuntimeFinding>)
    requires RunOk(run) && Uninspected(run, cycle)
    requires forall k :: 0 <= k < |added| ==> AddedFinding(run, events, cycle, added[k])
    ensures OptionsOk(InspectedRun(run, batch, added))
  {
    hide OptionOk, OffersFor, RunOk, Uninspected, AddedFinding;
    var updated := InspectedRun(run, batch, added);
    forall i, option | 0 <= i < |updated.findings| && option in updated.findings[i].options
      ensures OptionOk(option, updated) && option.findingId == updated.findings[i].findingId
    {
      OptionOrigin(run, events, cycle, batch, added, i, option);
      OptionOkGrown(option, run, updated);
    }
    forall i, j, option, other |
      0 <= i < |updated.findings| && 0 <= j < |updated.findings|
      && option in updated.findings[i].options && other in updated.findings[j].options
        && option.optionId == other.optionId
      ensures option == other
    {
      OptionOrigin(run, events, cycle, batch, added, i, option);
      OptionOrigin(run, events, cycle, batch, added, j, other);
      OptionNamed(option, run);
      OptionNamed(other, run);
      if i < |run.findings| && j < |run.findings| {
        OptionsUnique(run, i, j, option, other);
      } else {
        assert [option] == [other];
      }
    }
  }

  lemma OptionsUnique(run: RuntimeRun, i: nat, j: nat, option: RemediationOption, other: RemediationOption)
    requires RunOk(run) && i < |run.findings| && j < |run.findings|
    requires option in run.findings[i].options && other in run.findings[j].options && option.optionId == other.optionId
    ensures option == other
  {}

  /** The run an inspection leaves is in order, and its facts are those of this cycle. */
  lemma InspectedRunOk(run: RuntimeRun, events: seq<LedgerEvent>, cycle: nat, batch: seq<Measurement>,
                       added: seq<RuntimeFinding>)
    requires RunOk(run) && Uninspected(run, cycle)
    requires IsInspection(run, events, cycle, |OrderedIds(run)|, batch, added)
    ensures RunOk(InspectedRun(run, batch, added)) && UpTo(InspectedRun(run, batch, added), cycle)
    ensures Fresh(InspectedRun(run, batch, added).measurements, cycle)
  {
    hide OptionsOk, LookupHash, CaptionTargetKnown;
    var updated := InspectedRun(run, batch, added);
    InspectedOptionsOk(run, events, cycle, batch, added);
    InspectionIsFresh(run, events, cycle, batch, added);
    forall i | 0 <= i < |updated.findings|
      ensures updated.findings[i].findingId.requirementId == updated.findings[i].requirementId
      ensures updated.findings[i].findingId.cycle == updated.findings[i].cycleOpened <= cycle
    {
      if i >= |run.findings| {
        assert AddedFinding(run, events, cycle, added[i - |run.findings|]);
      } else {
        assert run.findings[i].findingId == updated.findings[i].findingId;
      }
    }
    forall i | 0 <= i < |updated.measurements| ensures updated.measurements[i].cycle <= cycle {
      if i >= |run.measurements| {
        assert AddedMeasurement(run, cycle, batch[i - |run.measurements|]);
      }
    }
    assert HashesOk(updated);
    var i :| 0 <= i < |run.assets| && !run.assets[i].asset.protection.Original?;
    assert !updated.assets[i].asset.protection.Original?;
  }

  lemma OfferedIsAimed(run: RuntimeRun, requirement: RuntimeRequirement, findingId: FindingId, target: RuntimeAsset,
                       failures: nat, option: RemediationOption)
    requires target in CurrentAssets(run)
    requires OptionsFor(run.runId, requirement, findingId, target.asset.assetId, failures).Done?
    requires option in OptionsFor(run.runId, requirement, findingId, target.asset.assetId, failures).value
    ensures Aimed(run, option)
  {
    hide NameOf, CurrentAssets, Text.PathSyntax;
  }

  /** After an inspection every open option can be taken up: earlier findings are closed, and
      those of this cycle are all open and aimed at what was inspected. */
  lemma InspectedSelectable(run: RuntimeRun, events: seq<LedgerEvent>, cycle: nat, batch: seq<Measurement>,
                            added: seq<RuntimeFinding>)
    requires FindingsNamed(run.findings) && Uninspected(run, cycle)
    requires forall k :: 0 <= k < |added| ==> AddedFinding(run, events, cycle, added[k])
    ensures Selectable(InspectedRun(run, batch, added), cycle)
  {
    hide OptionsFor, FailureCount, FindRequirement, TargetOf, CurrentAssets, Aimed;
    var updated := InspectedRun(run, batch, added);
    forall i | 0 <= i < |updated.findings|
      ensures i < |run.findings| ==> !updated.findings[i].status.Open? && updated.findings[i].findingId.cycle < cycle
      ensures i >= |run.findings| ==> updated.findings[i].status.Open? && updated.findings[i].cycleOpened == cycle
      ensures i >= |run.findings| ==>
        updated.findings[i].findingId.cycle == cycle && !updated.findings[i].findingId.invalidation
    {
      if i >= |run.findings| {
        assert AddedFinding(run, events, cycle, added[i - |run.findings|]);
      } else {
        assert run.findings[i].findingId.cycle == run.findings[i].cycleOpened;
      }
    }
    forall i, option | 0 <= i < |updated.findings| && updated.findings[i].status.Open?
      && option in updated.findings[i].options
      ensures Aimed(updated, option)
    {
      var finding := added[i - |run.findings|];
      assert AddedFinding(run, events, cycle, finding);
      var requirement := FindRequirement(run.requirements, finding.requirementId).value;
      OfferedIsAimed(run, requirement, finding.findingId, TargetOf(run, requirement).value,
        FailureCount(run, events, events, finding.requirementId), option);
      AimedByAssets(run, updated, option);
    }
  }

  lemma AimedByAssets(run: RuntimeRun, updated: RuntimeRun, option: RemediationOption)
    requires updated.assets == run.assets && Aimed(run, option)
    ensures Aimed(updated, option)
  {
    assert CurrentAssets(updated) == CurrentAssets(run);
  }

  /** An inspection takes no option away, and no mark of a failed rewrite. */
  lemma InspectedKeeps(run: RuntimeRun, batch: seq<Measurement>, added: seq<RuntimeFinding>, files: Files)
    requires forall k :: 0 <= k < |added| ==> !added[k].findingId.invalidation
    ensures forall optionId, argsHash :: HoldsOption(run, optionId, argsHash) ==>
      HoldsOption(InspectedRun(run, batch, added), optionId, argsHash)
    ensures ManifestKept(run, files) ==> ManifestKept(InspectedRun(run, batch, added), files)
  {
    var updated := InspectedRun(run, batch, added);
    forall optionId, argsHash | HoldsOption(run, optionId, argsHash) ensures HoldsOption(updated, optionId, argsHash) {
      var i, k :| 0 <= i < |run.findings| && 0 <= k < |run.findings[i].options|
        && run.findings[i].options[k].optionId == optionId && run.findings[i].options[k].argsHash == argsHash;
      assert updated.findings[i].options[k].optionId == optionId;
    }
    if RewriteFailed(run.findings) {
      var i :| 0 <= i < |run.findings| && run.findings[i].findingId.invalidation && run.findings[i].status.Unresolved?
        && forall j :: i < j < |run.findings| ==> !run.findings[j].findingId.invalidation;
      assert updated.findings[i].findingId.invalidation && updated.findings[i].status.Unresolved?;
      forall j | i < j < |updated.findings| ensures !updated.findings[j].findingId.invalidation {}
    }
    ManifestByAssets(run, updated, files);
  }

  /** What a manifest must say depends on the assets, the requirements, and whether the last
      rewrite failed. */
  lemma ManifestByAssets(run: RuntimeRun, updated: RuntimeRun, files: Files)
    requires updated.assets == run.assets && updated.requirements == run.requirements
    requires RewriteFailed(run.findings) ==> RewriteFailed(updated.findings)
    ensures ManifestKept(run, files) ==> ManifestKept(updated, files)
  {
    hide RewriteFailed, ManifestLines;
    assert CurrentAssets(updated) == CurrentAssets(run);
  }

  // ------------------------------------------------------------ admissible options

  function Binding(runId: Id, option: RemediationOption): OptionBinding {
    OptionBinding(runId, option.findingId, option.optionId, option.argsHash, option.tier)
  }

  function BindingsOf(runId: Id, options: seq<RemediationOption>): seq<OptionBinding> {
    if options == [] then [] else [Binding(runId, options[0])] + BindingsOf(runId, options[1..])
  }

  function OpenBindings(runId: Id, findings: seq<RuntimeFinding>): seq<OptionBinding> {
    if findings == [] then []
    else (if findings[0].status.Open? then BindingsOf(runId, findings[0].options)
      else []) + OpenBindings(runId, findings[1..])
  }

  /** The snapshot admits every option of an open finding. */
  predicate Admits(s: RunStateSnapshot, run: RuntimeRun) {
    forall i, option :: 0 <= i < |run.findings| && run.findings[i].status.Open? && option in run.findings[i].options ==>
      Binding(s.runId, option) in s.admissibleOptions
  }

  lemma {:induction false} BindingListed(runId: Id, options: seq<RemediationOption>, option: RemediationOption)
    requires option in options
    ensures Binding(runId, option) in BindingsOf(runId, options)
  {
    if options[0] != option {
      BindingListed(runId, options[1..], option);
    }
  }

  lemma {:induction false} OpenBindingListed(runId: Id, findings: seq<RuntimeFinding>, i: nat,
                                             option: RemediationOption)
    requires i < |findings| && findings[i].status.Open? && option in findings[i].options
    ensures Binding(runId, option) in OpenBindings(runId, findings)
  {
    if i == 0 {
      BindingListed(runId, findings[0].options, option);
    } else {
      OpenBindingListed(runId, findings[1..], i - 1, option);
    }
  }

  lemma OpenBindingsAdmit(s: RunStateSnapshot, run: RuntimeRun)
    ensures Admits(s.(admissibleOptions := OpenBindings(s.runId, run.findings)), run)
  {
    forall i, option | 0 <= i < |run.findings| && run.findings[i].status.Open? && option in run.findings[i].options
      ensures Binding(s.runId, option) in OpenBindings(s.runId, run.findings)
    {
      OpenBindingListed(s.runId, run.findings, i, option);
    }
  }

  // ------------------------------------------------------------ calls

  function AssetsOf(items: seq<RuntimeAsset>): seq<Asset> {
    seq(|items|, i requires 0 <= i < |items| => items[i].asset)
  }

  function PendingFindings(findings: seq<RuntimeFinding>): seq<Authority.PendingFinding> {
    seq(|findings|, i requires 0 <= i < |findings| => Authority.PendingFinding(findings[i].findingId,
      findings[i].status))
  }

  function FirstPending(requests: seq<DecisionRequest>): (r: Option<DecisionRequest>)
    ensures r.None? <==> forall i :: 0 <= i < |requests| ==> !requests[i].status.Pending?
  {
    if requests == [] then None
    else if requests[0].status.Pending? then Some(requests[0])
    else FirstPending(requests[1..])
  }

  /** `_authority_context`. */
  function ContextOf(run: RuntimeRun, status: RunStatus): Authority.AuthorityRunContext {
    Authority.AuthorityRunContext(run.runId, status, AssetsOf(CurrentAssets(run)), PendingFindings(run.findings),
                                  AllOptions(run.findings), FirstPending(run.decisionRequests))
  }

  /** The input of an inspection tool; `None` is a validation error. */
  function InspectionInput(runId: Id, tool: Tool, target: AssetId, stream: Option<string>): Option<ToolInput> {
    match tool
    case ScanPackage => Some(ScanInput(runId))
    case VerifyManifest => Some(VerifyInput(runId))
    case ProbeMedia => Some(ProbeInput(target))
    case InspectCaptions => Some(CaptionsInput(target))
    case MeasureLoudness =>
      if stream.None? || !ValidName(Text.Strip(stream.value)) then None
        else Some(LoudnessInput(target, Text.Strip(stream.value)))
    case _ => None
  }

  /** What an inspection needs of a check: its requirement is known, and if it is measured, then
      by an inspecting tool that takes the requirement's stream, under a known key, and what it
      would offer for it is a valid call. */
  predicate CheckOk(run: RuntimeRun, id: Id) {
    var r := FindRequirement(run.requirements, id);
    && r.Some?
    && (r.value.tool.Some? && r.value.constraint.Some? ==>
          && r.value.key.Some? && InspectionInput(run.runId, r.value.tool.value, WorkingAsset(0), r.value.stream).Some?
          && RemedyValid(r.value))
  }

  predicate Examinable(run: RuntimeRun) {
    forall i :: 0 <= i < |OrderedIds(run)| ==> CheckOk(run, OrderedIds(run)[i])
  }

  /** An inspection of a current asset is always allowed. */
  lemma InspectionAllowed(run: RuntimeRun, tool: Tool, target: RuntimeAsset, stream: Option<string>)
    requires HashesOk(run) && target in CurrentAssets(run)
    requires InspectionInput(run.runId, tool, target.asset.assetId, stream).Some?
    ensures InspectionInput(run.runId, tool, WorkingAsset(0), stream).Some?
    ensures Authority.Evaluate(tool, InspectionInput(run.runId, tool, target.asset.assetId, stream).value,
      ContextOf(run, Inspecting)) == Authority.Allow
  {
    hide HashesOk, CurrentAssets, AllOptions, ValidName, InspectionInput, Authority.FindTarget, Authority.FindFinding,
         PendingFindings, AssetsOf, FirstPending, FindOption;
    TargetFound(run, target);
    InspectionInputIs(run.runId, tool, target.asset.assetId, stream);
  }

  lemma InspectionInputIs(runId: Id, tool: Tool, target: AssetId, stream: Option<string>)
    requires InspectionInput(runId, tool, target, stream).Some?
    ensures var input := InspectionInput(runId, tool, target, stream).value;
            && TierOf(tool) == Some(Inspect) && InputFits(tool, input)
            && (InputRun(input).Some? ==> InputRun(input).value == runId)
            && (InputAsset(input).Some? ==> InputAsset(input).value == target)
    ensures InspectionInput(runId, tool, WorkingAsset(0), stream).Some?
  {
    hide ValidName, Text.Strip;
  }

  /** A current asset is found by its name, and is no original. */
  lemma TargetFound(run: RuntimeRun, target: RuntimeAsset)
    requires HashesOk(run) && target in CurrentAssets(run)
    ensures var found := Authority.FindTarget(AssetsOf(CurrentAssets(run)), target.asset.assetId);
            found.Some? && found.value.runId == run.runId && !found.value.protection.Original?
  {
    hide LookupHash, DeclaresOriginals, CurrentAssets;
    var assets := AssetsOf(CurrentAssets(run));
    var i :| 0 <= i < |CurrentAssets(run)| && CurrentAssets(run)[i] == target;
    TargetListed(assets, i);
    var found := Authority.FindTarget(assets, target.asset.assetId).value;
    var k :| 0 <= k < |assets| && assets[k] == found;
    assert CurrentAssets(run)[k] in run.assets && IsLeaf(run.assets, CurrentAssets(run)[k]);
    var n :| 0 <= n < |run.assets| && run.assets[n] == CurrentAssets(run)[k];
  }

  lemma {:induction false} TargetListed(assets: seq<Asset>, i: nat)
    requires i < |assets|
    ensures Authority.FindTarget(assets, assets[i].assetId).Some?
  {
    if i > 0 {
      TargetListed(assets[1..], i - 1);
    }
  }
}
