/** What the runtime accepts of an untrusted diagnosis, and what it makes of it. */
module Diagnosis {
  import opened Domain
  import opened Sequences
  import opened Records
  import opened Lifecycle
  import opened Steadiness

  datatype Advice = Applied | Escalate | NoAction
  datatype Item = Item(findingId: FindingId, advice: Advice, optionId: Option<OptionId>)

  /** `by_id`: the last open finding of that name. */
  function OpenFinding(findings: seq<RuntimeFinding>, findingId: FindingId): (r: Option<RuntimeFinding>)
    ensures r.Some? ==> r.value in findings && r.value.status.Open? && r.value.findingId == findingId
    ensures r.None? <==> forall i :: 0 <= i < |findings| && findings[i].status.Open? ==>
      findings[i].findingId != findingId
  {
    if findings == [] then None
    else
      var last := findings[|findings| - 1];
      if last.status.Open? && last.findingId == findingId then Some(last)
      else OpenFinding(findings[..|findings| - 1], findingId)
  }

  predicate HasTier(finding: RuntimeFinding, tier: nat) {
    finding.status.Open? && exists k :: 0 <= k < |finding.options| && finding.options[k].tier == tier
  }

  predicate TierOneOpen(run: RuntimeRun) {
    exists i :: 0 <= i < |run.findings| && HasTier(run.findings[i], 1)
  }

  /** Content-affecting options are shown only when no reversible one is open. */
  function Exposed(run: RuntimeRun, finding: RuntimeFinding): seq<RemediationOption> {
    Select(finding.options, (option: RemediationOption) => option.tier == (if TierOneOpen(run) then 1 else 2))
  }

  predicate ItemOk(run: RuntimeRun, item: Item) {
    var finding := OpenFinding(run.findings, item.findingId);
    && finding.Some?
    && match item.advice
       case NoAction => item.optionId.None?
       case Applied =>
         && item.optionId.Some? && FindOption(Exposed(run, finding.value), item.optionId.value).Some?
         && FindOption(Exposed(run, finding.value), item.optionId.value).value.tier == 1
       case Escalate =>
         && item.optionId.Some? && FindOption(Exposed(run, finding.value), item.optionId.value).Some?
         && FindOption(Exposed(run, finding.value), item.optionId.value).value.tier == 2
  }

  /** `diagnose_findings` accepts: every open finding exactly once, each with an exposed option
      of the right tier or with none. */
  predicate Accepts(run: RuntimeRun, items: seq<Item>) {
    && items != []
    && (forall i, j :: 0 <= i < j < |items| ==> items[i].findingId != items[j].findingId)
    && (forall k :: 0 <= k < |run.findings| && run.findings[k].status.Open? ==>
          exists i :: 0 <= i < |items| && items[i].findingId == run.findings[k].findingId)
    && (forall i :: 0 <= i < |items| ==> ItemOk(run, items[i]))
  }

  /** An option of an open finding. */
  predicate OffersOpen(findings: seq<RuntimeFinding>, option: RemediationOption) {
    exists i :: 0 <= i < |findings| && findings[i].status.Open? && option in findings[i].options
  }

  lemma SameOption(run: RuntimeRun, i: nat, j: nat, option: RemediationOption, other: RemediationOption)
    requires OptionsOk(run) && i < |run.findings| && j < |run.findings|
    requires option in run.findings[i].options && other in run.findings[j].options && option.optionId == other.optionId
    ensures option == other
  {
    hide OptionOk;
  }

  /** An accepted item names an option that an open finding offers, of its own tier. */
  lemma NamedIsOffered(run: RuntimeRun, item: Item)
    requires OptionsOk(run) && ItemOk(run, item) && !item.advice.NoAction?
    ensures RunOption(run, item.optionId.value).Some?
    ensures var option := RunOption(run, item.optionId.value).value;
            OffersOpen(run.findings, option) && option.tier == (if item.advice.Applied? then 1 else 2)
  {
    hide OptionsOk, TierOneOpen, OptionOk;
    var finding := OpenFinding(run.findings, item.findingId).value;
    var option := FindOption(Exposed(run, finding), item.optionId.value).value;
    assert option in Exposed(run, finding) && option in finding.options;
    var i :| 0 <= i < |run.findings| && run.findings[i] == finding;
    AllOptionsMeaning(run.findings, option);
    var found := FindOption(AllOptions(run.findings), item.optionId.value).value;
    AllOptionsMeaning(run.findings, found);
    var j :| 0 <= j < |run.findings| && found in run.findings[j].options;
    SameOption(run, j, i, found, option);
  }

  /** No human is asked while a reversible remedy is open. */
  lemma EscalationIsLast(run: RuntimeRun, item: Item, k: nat)
    requires ItemOk(run, item) && item.advice.Escalate?
    requires k < |run.findings| && run.findings[k].status.Open?
    ensures !HasTier(run.findings[k], 1)
  {
    var finding := OpenFinding(run.findings, item.findingId).value;
    var option := FindOption(Exposed(run, finding), item.optionId.value).value;
    assert option in Exposed(run, finding);
  }

  /** No two open findings have one name. */
  predicate OpenApart(run: RuntimeRun) {
    forall i, j :: 0 <= i < j < |run.findings| && run.findings[i].status.Open? && run.findings[j].status.Open? ==>
      run.findings[i].findingId != run.findings[j].findingId
  }

  /** An item for this open finding, that leaves it alone or takes up an option of its own: a
      reversible one to apply it, a content-affecting one to escalate it. */
  predicate ActsOn(finding: RuntimeFinding, item: Item) {
    && finding.status.Open? && finding.findingId == item.findingId
    && if item.advice.NoAction? then item.optionId.None?
       else exists k :: 0 <= k < |finding.options| && Some(finding.options[k].optionId) == item.optionId
                        && finding.options[k].tier == if item.advice.Applied? then 1 else 2
  }

  predicate HasFinding(run: RuntimeRun, item: Item) {
    exists k :: 0 <= k < |run.findings| && ActsOn(run.findings[k], item)
  }

  predicate OpenReversible(run: RuntimeRun) {
    exists i, k :: 0 <= i < |run.findings| && run.findings[i].status.Open? && 0 <= k < |run.findings[i].options|
                   && run.findings[i].options[k].tier == 1
  }

  lemma TierOneIff(run: RuntimeRun)
    ensures TierOneOpen(run) <==> OpenReversible(run)
  {
    if OpenReversible(run) {
      var i, k :| 0 <= i < |run.findings| && run.findings[i].status.Open? && 0 <= k < |run.findings[i].options|
                  && run.findings[i].options[k].tier == 1;
      assert HasTier(run.findings[i], 1);
    }
  }

  lemma ItemOkIff(run: RuntimeRun, item: Item)
    requires OpenApart(run)
    ensures ItemOk(run, item) <==> HasFinding(run, item) && (item.advice.Escalate? ==> !OpenReversible(run))
  {
    hide TierOneOpen, OpenReversible, ItemOk, HasFinding;
    TierOneIff(run);
    if ItemOk(run, item) {
      ItemActs(run, item);
    } else if HasFinding(run, item) && (item.advice.Escalate? ==> !OpenReversible(run)) {
      ActedIsOk(run, item);
    }
  }

  lemma ActedIsOk(run: RuntimeRun, item: Item)
    requires OpenApart(run) && HasFinding(run, item) && (item.advice.Escalate? ==> !TierOneOpen(run))
    ensures ItemOk(run, item)
  {
    hide Exposed, FindOption;
    var k :| 0 <= k < |run.findings| && ActsOn(run.findings[k], item);
    var finding := OpenFinding(run.findings, item.findingId).value;
    var j :| 0 <= j < |run.findings| && run.findings[j] == finding;
    assert finding == run.findings[k];
    if !item.advice.NoAction? {
      var n :| 0 <= n < |finding.options| && Some(finding.options[n].optionId) == item.optionId
               && finding.options[n].tier == if item.advice.Applied? then 1 else 2;
      if item.advice.Applied? {
        assert HasTier(finding, 1) && TierOneOpen(run);
      }
      ExposedNamed(run, item, finding, n);
    }
  }

  lemma ExposedNamed(run: RuntimeRun, item: Item, finding: RuntimeFinding, n: nat)
    requires finding in run.findings && finding.status.Open? && n < |finding.options|
    requires Some(finding.options[n].optionId) == item.optionId
    requires finding.options[n].tier == if TierOneOpen(run) then 1 else 2
    ensures FindOption(Exposed(run, finding), finding.options[n].optionId).Some?
    ensures FindOption(Exposed(run, finding), finding.options[n].optionId).value.tier == finding.options[n].tier
  {
    hide TierOneOpen;
    assert finding.options[n] in Exposed(run, finding);
    assert FindOption(Exposed(run, finding), finding.options[n].optionId).value in Exposed(run, finding);
  }

  lemma ItemActs(run: RuntimeRun, item: Item)
    requires ItemOk(run, item)
    ensures HasFinding(run, item) && (item.advice.Escalate? ==> !TierOneOpen(run))
  {
    hide TierOneOpen;
    var finding := OpenFinding(run.findings, item.findingId).value;
    if !item.advice.NoAction? {
      var option := FindOption(Exposed(run, finding), item.optionId.value).value;
      assert option in Exposed(run, finding);
      var n :| 0 <= n < |finding.options| && finding.options[n] == option;
      assert ActsOn(finding, item);
    }
    var k :| 0 <= k < |run.findings| && run.findings[k] == finding;
    assert ActsOn(run.findings[k], item);
  }

  /** Exactly which diagnoses are accepted: not the empty one; at most one item for a name; an
      item for every open finding and for no other; each leaves its finding alone or takes up an
      option of its own; and none is escalated while a reversible one is open. */
  lemma AcceptsIff(run: RuntimeRun, items: seq<Item>)
    requires OpenApart(run)
    ensures Accepts(run, items) <==>
              && items != [] && Distinct(FindingsOf(items))
              && (forall k :: 0 <= k < |run.findings| && run.findings[k].status.Open? ==>
                    run.findings[k].findingId in FindingsOf(items))
              && (forall i :: 0 <= i < |items| ==> HasFinding(run, items[i]))
              && (OpenReversible(run) ==> forall i :: 0 <= i < |items| ==> !items[i].advice.Escalate?)
  {
    hide OpenApart, HasFinding, OpenReversible, ItemOk;
    forall i | 0 <= i < |items|
      ensures ItemOk(run, items[i]) <==>
        HasFinding(run, items[i]) && (items[i].advice.Escalate? ==> !OpenReversible(run))
    {
      ItemOkIff(run, items[i]);
    }
    assert forall i :: 0 <= i < |items| ==> FindingsOf(items)[i] == items[i].findingId;
  }

  function FindingsOf(items: seq<Item>): seq<FindingId> {
    seq(|items|, i requires 0 <= i < |items| => items[i].findingId)
  }

  /** The options applied, in the diagnosis's order. */
  function Applieds(run: RuntimeRun, items: seq<Item>): seq<RemediationOption> {
    if items == [] then []
    else
      (if items[0].advice.Applied? && items[0].optionId.Some? && RunOption(run, items[0].optionId.value).Some?
       then [RunOption(run, items[0].optionId.value).value] else [])
      + Applieds(run, items[1..])
  }

  /** The first option escalated. */
  function Escalated(run: RuntimeRun, items: seq<Item>): Option<RemediationOption> {
    if items == [] then None
    else if items[0].advice.Escalate? && items[0].optionId.Some? then RunOption(run, items[0].optionId.value)
    else Escalated(run, items[1..])
  }

  function AppliedItems(items: seq<Item>): seq<Item> { Select(items, (item: Item) => item.advice.Applied?) }

  /** Every option that is applied is in the batch, once for each item that applies it; and the
      one escalated is that of the first item that escalates. */
  lemma {:induction false} AppliedsAre(run: RuntimeRun, items: seq<Item>)
    requires OptionsOk(run) && forall i :: 0 <= i < |items| ==> ItemOk(run, items[i])
    ensures |Applieds(run, items)| == |AppliedItems(items)|
    ensures forall i :: 0 <= i < |items| && items[i].advice.Applied? && items[i].optionId.Some? ==>
      RunOption(run, items[i].optionId.value).Some? && RunOption(run, items[i].optionId.value).value
        in Applieds(run, items)
    ensures forall i :: 0 <= i < |items| && FirstEscalates(items, i) && items[i].optionId.Some? ==>
      Escalated(run, items) == RunOption(run, items[i].optionId.value)
    ensures (forall i :: 0 <= i < |items| ==> !items[i].advice.Escalate?) ==> Escalated(run, items).None?
  {
    hide ItemOk, OptionsOk, RunOption;
    if items != [] {
      var rest := items[1..];
      assert forall i :: 0 <= i < |rest| ==> rest[i] == items[i + 1];
      AppliedsAre(run, rest);
      NamesAnOption(run, items[0]);
      forall i | 0 < i < |items| && FirstEscalates(items, i) ensures FirstEscalates(rest, i - 1) {}
    }
  }

  predicate FirstEscalates(items: seq<Item>, i: nat)
    requires i < |items|
  {
    items[i].advice.Escalate? && forall j :: 0 <= j < i ==> !items[j].advice.Escalate?
  }

  lemma NamesAnOption(run: RuntimeRun, item: Item)
    requires OptionsOk(run) && ItemOk(run, item)
    ensures !item.advice.NoAction? ==> item.optionId.Some? && RunOption(run, item.optionId.value).Some?
  {
    hide OptionsOk, TierOneOpen;
    if !item.advice.NoAction? {
      NamedIsOffered(run, item);
    }
  }

  predicate AllOffered(run: RuntimeRun, options: seq<RemediationOption>) {
    forall i :: 0 <= i < |options| ==> OffersOpen(run.findings, options[i]) && options[i].tier == 1
  }

  lemma {:induction false} AppliedsOffered(run: RuntimeRun, items: seq<Item>)
    requires OptionsOk(run) && forall i :: 0 <= i < |items| ==> ItemOk(run, items[i])
    ensures AllOffered(run, Applieds(run, items))
    ensures Escalated(run, items).Some? ==>
              OffersOpen(run.findings, Escalated(run, items).value) && Escalated(run, items).value.tier == 2
  {
    hide ItemOk, OptionsOk, OffersOpen;
    if items != [] {
      assert forall i :: 0 <= i < |items[1..]| ==> items[1..][i] == items[i + 1];
      AppliedsOffered(run, items[1..]);
      if !items[0].advice.NoAction? {
        NamedIsOffered(run, items[0]);
      }
    }
  }

  // ------------------------------------------------------------ order of work

  function Priority(tool: Tool): nat {
    match tool
    case RenameDeliveryCopy => 0
    case ConvertCaptionFormat => 1
    case WriteChecksumManifest => 2
    case _ => 99
  }

  /** The sort key of a batch: the tool's priority, then the identifier. */
  predicate Before(rank: OptionId -> int, a: RemediationOption, b: RemediationOption) {
    Priority(a.tool) < Priority(b.tool) || (Priority(a.tool) == Priority(b.tool) && rank(a.optionId) < rank(b.optionId))
  }

  function InsertByPriority(rank: OptionId -> int, option: RemediationOption, sorted: seq<RemediationOption>)
      : seq<RemediationOption> {
    if sorted != [] && Before(rank, sorted[0], option)
    then [sorted[0]] + InsertByPriority(rank, option, sorted[1..])
    else [option] + sorted
  }

  /** Renames first, then conversions, manifests last; among equals by identifier. */
  function ByPriority(rank: OptionId -> int, options: seq<RemediationOption>): seq<RemediationOption> {
    if options == [] then [] else InsertByPriority(rank, options[0], ByPriority(rank, options[1..]))
  }

  predicate InOrder(rank: OptionId -> int, options: seq<RemediationOption>) {
    forall i, j :: 0 <= i < j < |options| ==> !Before(rank, options[j], options[i])
  }

  lemma {:induction false} InsertInOrder(rank: OptionId -> int, option: RemediationOption,
                                         sorted: seq<RemediationOption>)
    requires InOrder(rank, sorted)
    ensures InOrder(rank, InsertByPriority(rank, option, sorted))
  {
    if sorted != [] && Before(rank, sorted[0], option) {
      var rest := InsertByPriority(rank, option, sorted[1..]);
      InsertInOrder(rank, option, sorted[1..]);
      InsertSame(rank, option, sorted[1..]);
      forall k | 0 <= k < |rest| ensures !Before(rank, rest[k], sorted[0]) {
        assert rest[k] in multiset(rest);
        assert rest[k] == option || rest[k] in sorted[1..];
      }
    }
  }

  lemma {:induction false} InsertSame(rank: OptionId -> int, option: RemediationOption, sorted: seq<RemediationOption>)
    ensures multiset(InsertByPriority(rank, option, sorted)) == multiset(sorted) + multiset{option}
  {
    hide Before;
    if sorted != [] && Before(rank, sorted[0], option) {
      InsertSame(rank, option, sorted[1..]);
      assert sorted == [sorted[0]] + sorted[1..];
    }
  }

  lemma {:induction false} ByPriorityMeaning(rank: OptionId -> int, options: seq<RemediationOption>)
    ensures InOrder(rank, ByPriority(rank, options)) && multiset(ByPriority(rank, options)) == multiset(options)
  {
    hide InOrder;
    if options == [] {
      NothingInOrder(rank);
    } else {
      ByPriorityMeaning(rank, options[1..]);
      InsertInOrder(rank, options[0], ByPriority(rank, options[1..]));
      InsertSame(rank, options[0], ByPriority(rank, options[1..]));
      assert options == [options[0]] + options[1..];
    }
  }

  /** A batch renames first, converts next, and writes manifests last; what uses one tool goes by
      identifier. */
  lemma {:induction false} BatchOrder(rank: OptionId -> int, options: seq<RemediationOption>, i: nat, j: nat)
    requires i < j < |ByPriority(rank, options)|
    ensures var first, second := ByPriority(rank, options)[i], ByPriority(rank, options)[j];
            && (second.tool.RenameDeliveryCopy? ==> first.tool.RenameDeliveryCopy?)
            && (second.tool.ConvertCaptionFormat? ==>
                  first.tool.RenameDeliveryCopy? || first.tool.ConvertCaptionFormat?)
            && (first.tool == second.tool ==> rank(first.optionId) <= rank(second.optionId))
            && (first.tool.CreateNormalizedAudioDerivative? ==> !second.tool.WriteChecksumManifest?)
  {
    ByPriorityMeaning(rank, options);
    assert !Before(rank, ByPriority(rank, options)[j], ByPriority(rank, options)[i]);
  }

  lemma NothingInOrder(rank: OptionId -> int)
    ensures InOrder(rank, [])
  {}

  /** Different options have identifiers of different rank. */
  predicate Apart(rank: OptionId -> int, options: seq<RemediationOption>) {
    forall x, y :: x in options && y in options && x != y ==> rank(x.optionId) != rank(y.optionId)
  }

  lemma {:induction false} OrderIsUnique(rank: OptionId -> int, a: seq<RemediationOption>, b: seq<RemediationOption>)
    requires InOrder(rank, a) && InOrder(rank, b) && multiset(a) == multiset(b) && Apart(rank, a)
    ensures a == b
  {
    hide InOrder, Apart, Before;
    assert |multiset(a)| == |a| && |multiset(b)| == |b|;
    if a != [] {
      FirstIsFirst(rank, a, b);
      TailsSame(a, b);
      TailInOrder(rank, a);
      TailInOrder(rank, b);
      OrderIsUnique(rank, a[1..], b[1..]);
      assert a == [a[0]] + a[1..] && b == [b[0]] + b[1..];
    }
  }

  lemma FirstIsFirst(rank: OptionId -> int, a: seq<RemediationOption>, b: seq<RemediationOption>)
    requires InOrder(rank, a) && InOrder(rank, b) && multiset(a) == multiset(b) && Apart(rank, a)
    requires a != [] && b != []
    ensures a[0] == b[0]
  {
    hide InOrder, Before;
    assert a[0] in multiset(b) && b[0] in multiset(a);
    FirstIsLeast(rank, a, b[0]);
    FirstIsLeast(rank, b, a[0]);
    NeitherBefore(rank, a[0], b[0]);
  }

  lemma TailsSame<T>(a: seq<T>, b: seq<T>)
    requires a != [] && b != [] && a[0] == b[0] && multiset(a) == multiset(b)
    ensures multiset(a[1..]) == multiset(b[1..])
  {
    assert a == [a[0]] + a[1..] && b == [b[0]] + b[1..];
    assert multiset(a[1..]) == multiset(a) - multiset{a[0]} && multiset(b[1..]) == multiset(b) - multiset{b[0]};
  }

  lemma TailInOrder(rank: OptionId -> int, options: seq<RemediationOption>)
    requires options != []
    ensures InOrder(rank, options) ==> InOrder(rank, options[1..])
    ensures Apart(rank, options) ==> Apart(rank, options[1..])
  {
    hide Before;
  }

  lemma FirstIsLeast(rank: OptionId -> int, options: seq<RemediationOption>, x: RemediationOption)
    requires InOrder(rank, options) && x in options
    ensures !Before(rank, x, options[0])
  {
    hide Before;
    var k :| 0 <= k < |options| && options[k] == x;
    if k == 0 {
      NotBeforeItself(rank, x);
    }
  }

  lemma NotBeforeItself(rank: OptionId -> int, x: RemediationOption)
    ensures !Before(rank, x, x)
  {}

  lemma NeitherBefore(rank: OptionId -> int, x: RemediationOption, y: RemediationOption)
    requires !Before(rank, x, y) && !Before(rank, y, x)
    ensures rank(x.optionId) == rank(y.optionId)
  {}

  /** The batch does not depend on the order in which the model listed its picks. */
  lemma {:induction false} BatchIsDetermined(rank: OptionId -> int, a: seq<RemediationOption>,
                                             b: seq<RemediationOption>)
    requires multiset(a) == multiset(b) && Apart(rank, a)
    ensures ByPriority(rank, a) == ByPriority(rank, b)
  {
    hide InOrder, Before;
    ByPriorityMeaning(rank, a);
    ByPriorityMeaning(rank, b);
    forall x | x in ByPriority(rank, a) ensures x in a {
      assert x in multiset(ByPriority(rank, a));
    }
    OrderIsUnique(rank, ByPriority(rank, a), ByPriority(rank, b));
  }

  lemma {:induction false} SortedOffered(rank: OptionId -> int, run: RuntimeRun, options: seq<RemediationOption>)
    requires AllOffered(run, options)
    ensures AllOffered(run, ByPriority(rank, options)) && |ByPriority(rank, options)| == |options|
  {
    hide OffersOpen, InOrder;
    ByPriorityMeaning(rank, options);
    var sorted := ByPriority(rank, options);
    assert |multiset(sorted)| == |multiset(options)|;
    forall i | 0 <= i < |sorted| ensures OffersOpen(run.findings, sorted[i]) && sorted[i].tier == 1 {
      assert sorted[i] in multiset(sorted);
      assert sorted[i] in multiset(options);
    }
  }

  // ------------------------------------------------------------ calls

  /** `_payload`. */
  function CallOf(option: RemediationOption, authorizationId: Id): ToolInput {
    if option.arguments.NormalizeInput? then option.arguments.(authorizationId := authorizationId) else option.arguments
  }

  /** The payload is the option's own call, whatever authorization it carries. */
  lemma CallBound(option: RemediationOption, authorizationId: Id)
    ensures HashArguments(CallOf(option, authorizationId)) == HashArguments(option.arguments)
    ensures InputAuthorization(CallOf(option, authorizationId)) ==
            if option.arguments.NormalizeInput? then Some(authorizationId) else None
  {}
}
