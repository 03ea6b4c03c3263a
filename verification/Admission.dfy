/** Admission of untrusted requirement candidates: what may become executable, and which
    admitted requirements contradict one another. */
module Admission {
  import opened Domain
  import opened Constraints
  import opened Terminal
  import opened Segmentation
  import opened Provenance

  // ------------------------------------------------------------ what is proposed

  datatype Document = Document(docId: Id, runId: Id, title: string, text: string)

  datatype ScopeDraft = ScopeDraft(role: string, stream: Option<string>)
  datatype Scope = Scope(role: Role, stream: Option<string>)

  /** A proposed measurement key: a catalog key, or `package.file_present[ROLE]` and
      `package.filename[ROLE]`, which name a role. */
  datatype KeyDraft = Named(key: Key) | ForRole(base: Key, role: string)

  datatype ConditionDraft = ConditionDraft(field: string, op: string, values: seq<string>, anchor: SegmentId)
  datatype ConditionField = AssetRoleField | ContentTypeField | DestinationField
  datatype ConditionOperator = EqualTo | NotEqualTo | In
  datatype Condition = Condition(field: ConditionField, op: ConditionOperator, values: seq<string>, anchor: SegmentId)

  datatype Candidate = Candidate(
    candidateId: Id, segmentIds: seq<SegmentId>, quote: string, key: Option<KeyDraft>, constraintDraft: Option<Draft>,
    scope: ScopeDraft, applicability: seq<ConditionDraft>, proposedStatus: NormalizationStatus,
    proposedDisposition: Option<string>, referencedDocument: Option<string>)

  /** The regular expressions and phrase searches over the cited text. */
  datatype Reading = Reading(
    mentions: (string, string) -> bool,
    conditionalHint: string -> bool,
    oneOf: string -> bool,
    supported: (string, ConditionDraft) -> bool,
    quicktimeMov: string -> bool)

  // ------------------------------------------------------------ what is admitted

  datatype Verification = Verification(key: Key, tool: Tool)

  /** The identifier hashes the document, the cited segments, and the constraint or else the
      status; the scope is not part of it. */
  datatype Core = OfConstraint(constraint: Constraint) | OfStatus(status: NormalizationStatus)
  datatype RequirementId = RequirementId(document: TextDigest, segmentIds: seq<SegmentId>, core: Core)

  datatype Requirement = Requirement(
    requirementId: RequirementId, runId: Id, span: SourceSpan, status: NormalizationStatus, reasons: seq<string>,
    severity: Severity, severitySource: string, scope: Scope, applicability: seq<Condition>,
    applicabilityStatus: Applicability, constraint: Option<Constraint>, verification: Option<Verification>,
    disposition: Disposition, contradicts: seq<RequirementId>)

  function ParseRole(name: string): Option<Role> {
    if name == "PROGRAM_MASTER" then Some(ProgramMaster)
    else if name == "CAPTIONS" then Some(Captions)
    else if name == "MANIFEST" then Some(Manifest)
    else if name == "OTHER" then Some(Other)
    else None
  }

  function ParseField(name: string): Option<ConditionField> {
    if name == "asset.role" then Some(AssetRoleField)
    else if name == "run.content_type" then Some(ContentTypeField)
    else if name == "run.destination_profile" then Some(DestinationField)
    else None
  }

  function ParseConditionOperator(name: string): Option<ConditionOperator> {
    if name == "EQ" then Some(EqualTo) else if name == "NEQ" then Some(NotEqualTo) else if name == "IN" then Some(In)
      else None
  }

  function ParseDisposition(name: string): Option<Disposition> {
    if name == "AUTO_REMEDIATE" then Some(AutoRemediate)
    else if name == "REPORT_ONLY" then Some(ReportOnly)
    else if name == "HUMAN_APPROVAL_REQUIRED" then Some(HumanApprovalRequired)
    else if name == "FORBIDDEN" then Some(Forbidden)
    else None
  }

  // ------------------------------------------------------------ severity

  const BLOCKING_WORDS := ["must not", "shall not", "must", "shall", "required"]
  const WARNING_WORDS := ["should", "recommended"]
  const INFO_WORDS := ["may", "optional"]

  function FirstMention(read: Reading, text: string, words: seq<string>): (r: Option<string>)
    ensures r.Some? <==> exists i :: 0 <= i < |words| && read.mentions(words[i], text)
  {
    if words == [] then None
    else if read.mentions(words[0], text) then assert words[0] in words; Some(words[0])
    else
      assert forall i :: 0 < i < |words| ==> words[i] == words[1..][i - 1];
      FirstMention(read, text, words[1..])
  }

  /** `modal_severity`: the one group of modal words the text uses, else blocking. */
  function ModalSeverity(read: Reading, text: string): (Severity, string) {
    match (FirstMention(read, text, BLOCKING_WORDS), FirstMention(read, text, WARNING_WORDS),
      FirstMention(read, text, INFO_WORDS))
    case (None, None, None) => (Blocking, "UNKNOWN")
    case (Some(word), None, None) => (Blocking, word)
    case (None, Some(word), None) => (Warning, word)
    case (None, None, Some(word)) => (Info, word)
    case _ => (Blocking, "MIXED")
  }

  // ------------------------------------------------------------ applicability

  datatype Applies = Applies(conditions: seq<Condition>, status: Applicability, reasons: seq<string>)

  function Unproven(reason: string): Applies { Applies([], ApplicabilityUnresolved, [reason]) }

  /** Why a condition cannot be trusted, or `None`. */
  function Distrust(read: Reading, span: SourceSpan, segments: seq<Segment>, draft: ConditionDraft): Option<string> {
    if draft.anchor !in span.segmentIds || ById(segments, draft.anchor).None? then Some("APPLICABILITY_ANCHOR_INVALID")
    else if ParseField(draft.field).None? then Some("UNSUPPORTED_APPLICABILITY_FIELD")
    else if ParseConditionOperator(draft.op).None? then Some("UNSUPPORTED_APPLICABILITY_OPERATOR")
    else if !read.supported(ById(segments, draft.anchor).value.text, draft) then Some("APPLICABILITY_POLARITY_UNPROVEN")
    else None
  }

  predicate Trusts(read: Reading, span: SourceSpan, segments: seq<Segment>, draft: ConditionDraft,
                   condition: Condition)
  {
    && Distrust(read, span, segments, draft).None?
    && ParseField(draft.field) == Some(condition.field) && ParseConditionOperator(draft.op) == Some(condition.op)
    && condition.values == draft.values && condition.anchor == draft.anchor
  }

  function TrustAll(read: Reading, span: SourceSpan, segments: seq<Segment>, drafts: seq<ConditionDraft>,
                    trusted: seq<Condition>): (r: Applies)
    ensures r.status.Applicable? <==> forall i :: 0 <= i < |drafts| ==> Distrust(read, span, segments, drafts[i]).None?
    ensures r.status.Applicable? || (r.status.ApplicabilityUnresolved? && r.conditions == [])
    ensures r.status.Applicable? ==>
              |r.conditions| == |trusted| + |drafts| && r.conditions[..|trusted|] == trusted
              && forall i :: 0 <= i < |drafts| ==> Trusts(read, span, segments, drafts[i], r.conditions[|trusted| + i])
    decreases |drafts|
  {
    if drafts == [] then Applies(trusted, Applicable, [])
    else
      match Distrust(read, span, segments, drafts[0])
      case Some(reason) => Unproven(reason)
      case None =>
        var first := Condition(ParseField(drafts[0].field).value, ParseConditionOperator(drafts[0].op).value,
          drafts[0].values, drafts[0].anchor);
        var r := TrustAll(read, span, segments, drafts[1..], trusted + [first]);
        assert forall i :: 0 < i < |drafts| ==> drafts[i] == drafts[1..][i - 1];
        assert r.status.Applicable? ==> r.conditions[..|trusted|] == (trusted + [first])[..|trusted|];
        assert r.status.Applicable? ==> r.conditions[|trusted|] == (trusted + [first])[|trusted|];
        r
  }

  function HasHint(read: Reading, candidate: Candidate, span: SourceSpan): bool {
    read.conditionalHint(span.text) || (candidate.applicability != [] && read.oneOf(span.text))
  }

  function ApplicabilityOf(read: Reading, candidate: Candidate, span: SourceSpan, segments: seq<Segment>): Applies {
    if candidate.applicability == [] then
      if HasHint(read, candidate, span) then Unproven("APPLICABILITY_UNRESOLVED") else Applies([], Applicable, [])
    else if !HasHint(read, candidate, span) then Applies([], Applicable, ["SPURIOUS_APPLICABILITY_IGNORED"])
    else TrustAll(read, span, segments, candidate.applicability, [])
  }

  /** `_admit_applicability`. */
  method AdmitApplicability(read: Reading, candidate: Candidate, span: SourceSpan, segments: seq<Segment>)
    returns (r: Applies)
    ensures r == ApplicabilityOf(read, candidate, span, segments)
  {
    var hint := HasHint(read, candidate, span);
    if candidate.applicability == [] {
      return if hint then Unproven("APPLICABILITY_UNRESOLVED") else Applies([], Applicable, []);
    }
    if !hint {
      return Applies([], Applicable, ["SPURIOUS_APPLICABILITY_IGNORED"]);
    }
    var trusted: seq<Condition> := [];
    for i := 0 to |candidate.applicability|
      invariant TrustAll(read, span, segments, candidate.applicability, []) ==
                TrustAll(read, span, segments, candidate.applicability[i..], trusted)
    {
      var draft := candidate.applicability[i];
      assert candidate.applicability[i..][0] == draft
        && candidate.applicability[i..][1..] == candidate.applicability[i + 1..];
      var doubt := Distrust(read, span, segments, draft);
      if doubt.Some? {
        return Unproven(doubt.value);
      }
      trusted := trusted + [Condition(ParseField(draft.field).value, ParseConditionOperator(draft.op).value,
        draft.values, draft.anchor)];
    }
    return Applies(trusted, Applicable, []);
  }

  // ------------------------------------------------------------ disposition

  function Strictness(disposition: Disposition): nat {
    match disposition
    case AutoRemediate => 0
    case ReportOnly => 1
    case HumanApprovalRequired => 2
    case Forbidden => 3
  }

  function FloorOf(definition: Option<Definition>): Disposition {
    if definition.Some? then definition.value.floor else Forbidden
  }

  /** `_disposition`. */
  function DispositionOf(definition: Option<Definition>, proposed: Option<string>): (Disposition, seq<string>) {
    var floor := FloorOf(definition);
    match proposed
    case None => (floor, [])
    case Some(name) =>
      match ParseDisposition(name)
      case None => (floor, ["UNKNOWN_DISPOSITION_IGNORED"])
      case Some(requested) =>
        if Strictness(requested) < Strictness(floor) then (floor, ["DISPOSITION_LOOSENING_IGNORED"])
          else (requested, [])
  }

  // ------------------------------------------------------------ admission

  /** What is known about the constraint so far. */
  datatype Stage = Stage(definition: Option<Definition>, constraint: Option<Constraint>, status: NormalizationStatus,
    reasons: seq<string>)

  function RoleName(role: Role): string {
    match role
    case ProgramMaster => "PROGRAM_MASTER"
    case Captions => "CAPTIONS"
    case Manifest => "MANIFEST"
    case Other => "OTHER"
  }

  /** `_measurement_key`: `None` when the key names another role. */
  function KeyOf(draft: KeyDraft, scope: Scope): (Option<Key>, seq<string>) {
    match draft
    case Named(key) => (Some(key), [])
    case ForRole(base, role) =>
      if role != RoleName(scope.role) then (None, ["PARAMETERIZED_MEASUREMENT_ROLE_MISMATCH"])
      else (Some(base), ["PARAMETERIZED_MEASUREMENT_KEY_NORMALIZED"])
  }

  /** `_source_owned_value_normalization`. */
  function SourceOwned(read: Reading, constraint: Option<Constraint>, text: string): (Option<Constraint>, seq<string>) {
    if constraint.Some? && constraint.value.test == EqualsTest(Str("quicktime"))
      && constraint.value.key == ContainerFormat
       && read.quicktimeMov(text)
    then (Some(constraint.value.(test := EqualsTest(Str("quicktime mov")))), ["SOURCE_ENUM_VALUE_NORMALIZED"])
    else (constraint, [])
  }

  function Noted(reason: string): seq<string> { if reason == "" then [] else [reason] }

  function Interpret(lex: Lexicon, read: Reading, candidate: Candidate, scope: Scope, text: string): Stage {
    match candidate.key
    case None => Stage(None, None, Ambiguous, ["MISSING_MEASUREMENT_KEY"])
    case Some(draft) =>
      var (key, noted) := KeyOf(draft, scope);
      match key
      case None => Stage(None, None, Unsupported, noted)
      case Some(k) =>
        match Lookup(k)
        case None => Stage(None, None, Unsupported, noted + ["UNKNOWN_MEASUREMENT_KEY"])
        case Some(definition) =>
          var normalized := NormalizeConstraint(lex, candidate.constraintDraft, definition);
          var (constraint, more) := SourceOwned(read, normalized.constraint, text);
          Stage(Some(definition), constraint, normalized.status, noted + Noted(normalized.reason) + more)
  }

  function NeedStream(stage: Stage, scope: Scope): Stage {
    if stage.definition.Some? && stage.definition.value.producedBy.MeasureLoudness? && scope.stream.None?
      && stage.status.Executable?
    then Stage(stage.definition, None, Ambiguous, stage.reasons + ["MISSING_REQUIRED_STREAM"])
    else stage
  }

  predicate ReferenceAbsent(fold: string -> string, candidate: Candidate, titles: seq<string>) {
    && candidate.referencedDocument.Some? && candidate.referencedDocument.value != ""
    && forall i :: 0 <= i < |titles| ==> fold(titles[i]) != fold(candidate.referencedDocument.value)
  }

  /** A missing document, and then the model's own doubt, are ceilings on the status. */
  function Ceiling(fold: string -> string, candidate: Candidate, titles: seq<string>, stage: Stage): Stage {
    if ReferenceAbsent(fold, candidate, titles)
    then Stage(stage.definition, None, ExternalDependency, stage.reasons + ["REFERENCED_DOCUMENT_ABSENT"])
    else if stage.status.Executable? && !candidate.proposedStatus.Executable?
    then Stage(stage.definition, None, candidate.proposedStatus, stage.reasons + ["MODEL_STATUS_CEILING"])
    else stage
  }

  function ScopeOf(draft: ScopeDraft): Scope {
    match ParseRole(draft.role)
    case Some(role) => Scope(role, draft.stream)
    case None => Scope(Other, draft.stream)
  }

  function Staged(lex: Lexicon, read: Reading, candidate: Candidate, titles: seq<string>, text: string,
                  applies: Applies): Stage {
    var scope := ScopeOf(candidate.scope);
    var known := ParseRole(candidate.scope.role).Some?;
    var first := Interpret(lex, read, candidate, scope, text);
    var named := first.(reasons := (if known then [] else ["UNKNOWN_ASSET_ROLE"]) + first.reasons);
    var streamed := NeedStream(named, scope);
    var capped := Ceiling(lex.fold, candidate, titles, streamed.(reasons := streamed.reasons + applies.reasons));
    if known then capped else capped.(constraint := None, status := Unsupported)
  }

  /** `admit`. */
  function Admit(lex: Lexicon, read: Reading, candidate: Candidate, document: Document, segments: seq<Segment>,
                 titles: seq<string>)
    : Outcome<Requirement>
  {
    match BuildSpan(document.docId, document.text, segments, candidate.segmentIds, candidate.quote)
    case Raised(error) => Raised(error)
    case Crashed => Crashed
    case Done(span) =>
      var applies := ApplicabilityOf(read, candidate, span, segments);
      var stage := Staged(lex, read, candidate, titles, span.text, applies);
      var unresolved := !stage.status.Executable? && applies.status.Applicable?;
      var (disposition, noted) := DispositionOf(stage.definition, candidate.proposedDisposition);
      var reasons := stage.reasons
                     + (if unresolved && "APPLICABILITY_UNRESOLVED" !in stage.reasons then ["APPLICABILITY_UNRESOLVED"]
                       else []) + noted;
      var (severity, source) := ModalSeverity(read, span.text);
      Done(Requirement(
        RequirementId(TextSha256(document.text), span.segmentIds,
                      if stage.constraint.Some? then OfConstraint(stage.constraint.value) else OfStatus(stage.status)),
        document.runId, span, stage.status, reasons, severity, source, ScopeOf(candidate.scope), applies.conditions,
        if unresolved then ApplicabilityUnresolved else applies.status, stage.constraint,
        if stage.definition.Some?
          then Some(Verification(stage.definition.value.key, stage.definition.value.producedBy)) else None,
        disposition, []))
  }

  /** What every admitted requirement keeps: a constraint exactly when it is executable, and
      then a well-typed one over a fact that an inspection tool produces; it applies only when
      it is executable. */
  predicate Sound(requirement: Requirement) {
    && (requirement.constraint.Some? <==> requirement.status.Executable?)
    && (requirement.status.Executable? ==>
          && WellTyped(requirement.constraint.value)
          && requirement.verification.Some?
          && requirement.verification.value.key == requirement.constraint.value.key
          && Lookup(requirement.verification.value.key).Some?
          && Lookup(requirement.verification.value.key).value.producedBy == requirement.verification.value.tool
          && TierOf(requirement.verification.value.tool) == Some(Inspect)
          && (requirement.verification.value.tool.MeasureLoudness? ==> requirement.scope.stream.Some?))
  }

  lemma CatalogIsInspected(key: Key)
    ensures Lookup(key).Some? ==> Lookup(key).value.key == key && TierOf(Lookup(key).value.producedBy) == Some(Inspect)
  {}

  lemma InterpretSound(lex: Lexicon, read: Reading, candidate: Candidate, scope: Scope, text: string)
    ensures var stage := Interpret(lex, read, candidate, scope, text);
            && (stage.constraint.Some? <==> stage.status.Executable?)
            && (stage.status.Executable? ==> stage.definition.Some?)
            && (stage.definition.Some? ==> Lookup(stage.definition.value.key) == stage.definition)
            && (stage.constraint.Some? ==>
                  stage.constraint.value.key == stage.definition.value.key && WellTyped(stage.constraint.value))
  {
    hide NormalizeConstraint;
    if candidate.key.Some? {
      var key := KeyOf(candidate.key.value, scope).0;
      if key.Some? && Lookup(key.value).Some? {
        CatalogIsInspected(key.value);
        AdmittedIsWellTyped(lex, candidate.constraintDraft, Lookup(key.value).value);
      }
    }
  }

  lemma StagedSound(lex: Lexicon, read: Reading, candidate: Candidate, titles: seq<string>, text: string,
                    applies: Applies)
    ensures var stage := Staged(lex, read, candidate, titles, text, applies);
            && (stage.constraint.Some? <==> stage.status.Executable?)
            && (stage.status.Executable? ==> stage.definition.Some?)
            && (stage.definition.Some? ==> Lookup(stage.definition.value.key) == stage.definition)
            && (stage.constraint.Some? ==>
                  && stage.constraint.value.key == stage.definition.value.key && WellTyped(stage.constraint.value)
                  && (stage.definition.value.producedBy.MeasureLoudness? ==> candidate.scope.stream.Some?))
  {
    hide Interpret, WellTyped, Lookup, ReferenceAbsent;
    InterpretSound(lex, read, candidate, ScopeOf(candidate.scope), text);
  }

  /** The model's proposal can only tighten the catalog's floor. */
  lemma DispositionTightens(definition: Option<Definition>, proposed: Option<string>)
    ensures var disposition := DispositionOf(definition, proposed).0;
            && Strictness(disposition) >= Strictness(FloorOf(definition))
            && (disposition == FloorOf(definition) || (proposed.Some?
              && ParseDisposition(proposed.value) == Some(disposition)))
  {}

  /** Fail-closed admission. */
  lemma AdmittedIsSound(lex: Lexicon, read: Reading, candidate: Candidate, document: Document, segments: seq<Segment>,
                        titles: seq<string>)
    requires Admit(lex, read, candidate, document, segments, titles).Done?
    ensures var r := Admit(lex, read, candidate, document, segments, titles).value;
            && Sound(r) && (r.applicabilityStatus.Applicable? ==> r.status.Executable?)
            && Strictness(r.disposition) >= Strictness(FloorOf(if r.verification.Some?
              then Lookup(r.verification.value.key) else None))
            && (r.verification.None? ==> r.disposition.Forbidden?)
  {
    hide BuildSpan, Staged, ApplicabilityOf, WellTyped, Lookup, DispositionOf, ModalSeverity;
    var r := Admit(lex, read, candidate, document, segments, titles).value;
    var applies := ApplicabilityOf(read, candidate, r.span, segments);
    var stage := Staged(lex, read, candidate, titles, r.span.text, applies);
    StagedSound(lex, read, candidate, titles, r.span.text, applies);
    DispositionTightens(stage.definition, candidate.proposedDisposition);
    if r.verification.Some? {
      CatalogIsInspected(r.verification.value.key);
    }
  }

  predicate KnownRole(name: string) { name in ["PROGRAM_MASTER", "CAPTIONS", "MANIFEST", "OTHER"] }

  lemma RoleNames(name: string, role: Role)
    ensures ParseRole(name) == Some(role) <==> name == RoleName(role)
    ensures KnownRole(name) <==> ParseRole(name).Some?
  {}

  /** The key a candidate measures: a key that names a role must name the candidate's own. */
  function MeasuredKey(candidate: Candidate): Option<Key> {
    match candidate.key
    case None => None
    case Some(Named(key)) => Some(key)
    case Some(ForRole(base, role)) => if role == candidate.scope.role then Some(base) else None
  }

  lemma KeyIsMeasured(candidate: Candidate)
    requires KnownRole(candidate.scope.role) && candidate.key.Some?
    ensures KeyOf(candidate.key.value, ScopeOf(candidate.scope)).0 == MeasuredKey(candidate)
    ensures RoleName(ScopeOf(candidate.scope).role) == candidate.scope.role
    ensures ScopeOf(candidate.scope).stream == candidate.scope.stream
  {}

  /** A catalog key of the candidate's own role, and a draft that normalizes for it; a stream
      where loudness is measured. */
  predicate Interpretable(lex: Lexicon, candidate: Candidate) {
    var key := MeasuredKey(candidate);
    && key.Some? && Lookup(key.value).Some?
    && NormalizeConstraint(lex, candidate.constraintDraft, Lookup(key.value).value).status.Executable?
    && (Lookup(key.value).value.producedBy.MeasureLoudness? ==> candidate.scope.stream.Some?)
  }

  /** The candidate refers to no document, or to one that is there under that title, case aside. */
  predicate ReferenceAtHand(fold: string -> string, candidate: Candidate, titles: seq<string>) {
    candidate.referencedDocument.Some? && |candidate.referencedDocument.value| > 0 ==>
      exists i :: 0 <= i < |titles| && fold(titles[i]) == fold(candidate.referencedDocument.value)
  }

  lemma AbsentIff(fold: string -> string, candidate: Candidate, titles: seq<string>)
    ensures ReferenceAbsent(fold, candidate, titles) <==> !ReferenceAtHand(fold, candidate, titles)
  {}

  /** The status of an admitted requirement, by what is wrong with the candidate: its role, a
      document it refers to, its key or its draft, a missing stream, and last the model's own
      doubt. */
  lemma StatusIs(lex: Lexicon, read: Reading, candidate: Candidate, document: Document, segments: seq<Segment>,
                 titles: seq<string>)
    requires Admit(lex, read, candidate, document, segments, titles).Done?
    ensures Admit(lex, read, candidate, document, segments, titles).value.status ==
            if !KnownRole(candidate.scope.role) then Unsupported
            else if !ReferenceAtHand(lex.fold, candidate, titles) then ExternalDependency
            else if Interpretable(lex, candidate) then candidate.proposedStatus
            else if candidate.key.None? then Ambiguous
            else if MeasuredKey(candidate).None? || Lookup(MeasuredKey(candidate).value).None? then Unsupported
            else if !NormalizeConstraint(lex, candidate.constraintDraft,
              Lookup(MeasuredKey(candidate).value).value).status.Executable?
            then NormalizeConstraint(lex, candidate.constraintDraft, Lookup(MeasuredKey(candidate).value).value).status
            else Ambiguous
  {
    AbsentIff(lex.fold, candidate, titles);
    hide BuildSpan, ApplicabilityOf, NormalizeConstraint, Lookup, KeyOf, ScopeOf, ParseRole, ReferenceAbsent,
         ReferenceAtHand, DispositionOf, ModalSeverity, RoleName, SourceOwned;
    RoleNames(candidate.scope.role, Other);
    if KnownRole(candidate.scope.role) && candidate.key.Some? {
      KeyIsMeasured(candidate);
    }
  }

  /** Exactly which candidates become executable: a known role, every referenced document at
      hand, a key, a draft and a stream that make a check, and a model that has no doubt
      itself. */
  lemma ExecutableIff(lex: Lexicon, read: Reading, candidate: Candidate, document: Document, segments: seq<Segment>,
                      titles: seq<string>)
    requires Admit(lex, read, candidate, document, segments, titles).Done?
    ensures Admit(lex, read, candidate, document, segments, titles).value.status.Executable? <==>
              && KnownRole(candidate.scope.role) && ReferenceAtHand(lex.fold, candidate, titles)
              && Interpretable(lex, candidate) && candidate.proposedStatus.Executable?
  {
    hide Admit, NormalizeConstraint, Lookup, MeasuredKey, ReferenceAtHand;
    StatusIs(lex, read, candidate, document, segments, titles);
  }

  lemma DraftReasons(lex: Lexicon, draft: Option<Draft>, definition: Definition)
    ensures var n := NormalizeConstraint(lex, draft, definition); n.status.Executable? || n.reason != ""
  {
    hide CanonicalUnit, ParseAll, BuildTest, ParseOperator, AllowedOperators;
  }

  lemma InterpretReasons(lex: Lexicon, read: Reading, candidate: Candidate, scope: Scope, text: string)
    ensures var stage := Interpret(lex, read, candidate, scope, text); stage.status.Executable? || stage.reasons != []
  {
    hide NormalizeConstraint, Lookup, RoleName;
    if candidate.key.Some? && KeyOf(candidate.key.value, scope).0.Some? {
      var definition := Lookup(KeyOf(candidate.key.value, scope).0.value);
      if definition.Some? {
        DraftReasons(lex, candidate.constraintDraft, definition.value);
      }
    }
  }

  lemma {:induction false} TrustReasons(read: Reading, span: SourceSpan, segments: seq<Segment>,
                                        drafts: seq<ConditionDraft>, trusted: seq<Condition>)
    ensures var applies := TrustAll(read, span, segments, drafts, trusted);
            applies.status.Applicable? || applies.reasons != []
  {
    hide ParseField, ParseConditionOperator;
    if drafts != [] && Distrust(read, span, segments, drafts[0]).None? {
      TrustReasons(read, span, segments, drafts[1..], trusted + [Condition(ParseField(drafts[0].field).value,
        ParseConditionOperator(drafts[0].op).value, drafts[0].values, drafts[0].anchor)]);
    }
  }

  /** What is not executable, or does not surely apply, says why: a missing key, an unknown role
      and a document that is not at hand by name. */
  lemma ReasonsMean(lex: Lexicon, read: Reading, candidate: Candidate, document: Document, segments: seq<Segment>,
                    titles: seq<string>)
    requires Admit(lex, read, candidate, document, segments, titles).Done?
    ensures var r := Admit(lex, read, candidate, document, segments, titles).value;
            && (!KnownRole(candidate.scope.role) ==> "UNKNOWN_ASSET_ROLE" in r.reasons)
            && (!ReferenceAtHand(lex.fold, candidate, titles) ==> "REFERENCED_DOCUMENT_ABSENT" in r.reasons)
            && (candidate.key.None? ==> "MISSING_MEASUREMENT_KEY" in r.reasons)
            && (!r.status.Executable? || !r.applicabilityStatus.Applicable? ==> r.reasons != [])
  {
    hide BuildSpan, TrustAll, HasHint, DispositionOf, ModalSeverity, ParseRole, ReferenceAbsent, ScopeOf,
         ReferenceAtHand, KnownRole, NormalizeConstraint, Lookup, KeyOf, SourceOwned;
    var span := BuildSpan(document.docId, document.text, segments, candidate.segmentIds, candidate.quote).value;
    RoleNames(candidate.scope.role, Other);
    AbsentIff(lex.fold, candidate, titles);
    InterpretReasons(lex, read, candidate, ScopeOf(candidate.scope), span.text);
    TrustReasons(read, span, segments, candidate.applicability, []);
  }

  /** What an executable requirement demands is what its draft demands of its key in its scope;
      the one exception is a QuickTime container whose text says that it is a MOV. */
  lemma DemandsItsDraft(lex: Lexicon, read: Reading, candidate: Candidate, document: Document, segments: seq<Segment>,
                        titles: seq<string>)
    requires Admit(lex, read, candidate, document, segments, titles).Done?
    requires Admit(lex, read, candidate, document, segments, titles).value.status.Executable?
    ensures Interpretable(lex, candidate)
    ensures var r := Admit(lex, read, candidate, document, segments, titles).value;
            var drafted := NormalizeConstraint(lex, candidate.constraintDraft,
              Lookup(MeasuredKey(candidate).value).value).constraint;
            && RoleName(r.scope.role) == candidate.scope.role && r.scope.stream == candidate.scope.stream
            && r.runId == document.runId && r.constraint.Some? && drafted.Some?
            && r.constraint.value.key == MeasuredKey(candidate).value
            && (if drafted.value.test == EqualsTest(Str("quicktime")) && drafted.value.key.ContainerFormat?
                   && read.quicktimeMov(r.span.text)
                then r.constraint.value == drafted.value.(test := EqualsTest(Str("quicktime mov")))
                else r.constraint == drafted)
  {
    ExecutableIff(lex, read, candidate, document, segments, titles);
    RoleNames(candidate.scope.role, Other);
    KeyIsMeasured(candidate);
    CatalogIsInspected(MeasuredKey(candidate).value);
    AdmittedIsWellTyped(lex, candidate.constraintDraft, Lookup(MeasuredKey(candidate).value).value);
    hide BuildSpan, ApplicabilityOf, NormalizeConstraint, Lookup, KeyOf, ScopeOf, ParseRole, ReferenceAbsent,
         DispositionOf, ModalSeverity, RoleName, MeasuredKey, WellTyped;
  }

  /** The words of an obligation, of a recommendation and of a permission. */
  predicate Mentions(read: Reading, text: string, words: seq<string>) {
    exists i :: 0 <= i < |words| && read.mentions(words[i], text)
  }

  /** A requirement is less than blocking only when the text says so and says nothing else. */
  lemma SeverityIff(read: Reading, text: string)
    ensures var (severity, _) := ModalSeverity(read, text);
            var blocking := Mentions(read, text, ["must not", "shall not", "must", "shall", "required"]);
            var warning := Mentions(read, text, ["should", "recommended"]);
            var info := Mentions(read, text, ["may", "optional"]);
            && (severity.Warning? <==> warning && !blocking && !info)
            && (severity.Info? <==> info && !blocking && !warning)
  {
    hide FirstMention;
  }

  function DispositionName(disposition: Disposition): string {
    match disposition
    case AutoRemediate => "AUTO_REMEDIATE"
    case ReportOnly => "REPORT_ONLY"
    case HumanApprovalRequired => "HUMAN_APPROVAL_REQUIRED"
    case Forbidden => "FORBIDDEN"
  }

  lemma DispositionNames(name: string, disposition: Disposition)
    ensures ParseDisposition(name) == Some(disposition) <==> name == DispositionName(disposition)
  {}

  function Stricter(a: Disposition, b: Disposition): Disposition {
    if a.Forbidden? || b.Forbidden? then Forbidden
    else if a.HumanApprovalRequired? || b.HumanApprovalRequired? then HumanApprovalRequired
    else if a.ReportOnly? || b.ReportOnly? then ReportOnly
    else AutoRemediate
  }

  /** The disposition is the stricter of the catalog's floor and what the model names, or the
      floor when the model names none; outside the catalog everything is forbidden. */
  lemma DispositionIs(definition: Option<Definition>, proposed: Option<string>, named: Disposition)
    ensures var floor := if definition.Some? then definition.value.floor else Forbidden;
            var disposition := DispositionOf(definition, proposed).0;
            && (proposed == Some(DispositionName(named)) ==> disposition == Stricter(floor, named))
            && ((forall other :: proposed != Some(DispositionName(other))) ==> disposition == floor)
  {
    hide ParseDisposition, DispositionName;
    if proposed.Some? {
      DispositionNames(proposed.value, named);
      var parsed := ParseDisposition(proposed.value);
      if parsed.Some? {
        DispositionNames(proposed.value, parsed.value);
      }
    }
  }

  // ------------------------------------------------------------ when it applies

  function FieldName(field: ConditionField): string {
    match field
    case AssetRoleField => "asset.role"
    case ContentTypeField => "run.content_type"
    case DestinationField => "run.destination_profile"
  }

  function ConditionOperatorName(op: ConditionOperator): string {
    match op
    case EqualTo => "EQ"
    case NotEqualTo => "NEQ"
    case In => "IN"
  }

  lemma ConditionNames(name: string, field: ConditionField, op: ConditionOperator)
    ensures ParseField(name) == Some(field) <==> name == FieldName(field)
    ensures ParseConditionOperator(name) == Some(op) <==> name == ConditionOperatorName(op)
  {}

  /** A proposed condition that may be trusted: anchored in a cited segment whose text supports
      it, about a known field, with a known operator. */
  predicate Supported(read: Reading, span: SourceSpan, segments: seq<Segment>, draft: ConditionDraft) {
    && draft.anchor in span.segmentIds
    && draft.field in ["asset.role", "run.content_type", "run.destination_profile"]
    && draft.op in ["EQ", "NEQ", "IN"]
    && exists k :: 0 <= k < |segments| && NamedAt(segments, draft.anchor, k) && read.supported(segments[k].text, draft)
  }

  lemma DistrustIff(read: Reading, span: SourceSpan, segments: seq<Segment>, draft: ConditionDraft)
    ensures Distrust(read, span, segments, draft).None? <==> Supported(read, span, segments, draft)
  {
    ByIdFound(segments, draft.anchor);
    forall k | 0 <= k < |segments| && NamedAt(segments, draft.anchor, k)
      ensures ById(segments, draft.anchor) == Some(segments[k])
    {
      ByIdIs(segments, draft.anchor, k);
    }
    hide NamedAt, ById;
  }

  /** The text reads as conditional; a weaker hint counts when conditions are proposed. */
  predicate ReadsConditional(read: Reading, candidate: Candidate, text: string) {
    read.conditionalHint(text) || (candidate.applicability != [] && read.oneOf(text))
  }

  predicate AllSupported(read: Reading, candidate: Candidate, span: SourceSpan, segments: seq<Segment>) {
    forall i :: 0 <= i < |candidate.applicability| ==> Supported(read, span, segments, candidate.applicability[i])
  }

  /** The condition that is kept says what was proposed. */
  predicate Keeps(condition: Condition, draft: ConditionDraft) {
    && FieldName(condition.field) == draft.field && ConditionOperatorName(condition.op) == draft.op
    && condition.values == draft.values && condition.anchor == draft.anchor
  }

  /** When a requirement applies: exactly when it is executable, and its text does not read as
      conditional, or conditions are proposed for it and each of them can be trusted. Then these
      are kept, one for one; otherwise none is. It is never admitted as not applicable. */
  lemma AppliesIff(lex: Lexicon, read: Reading, candidate: Candidate, document: Document, segments: seq<Segment>,
                   titles: seq<string>)
    requires Admit(lex, read, candidate, document, segments, titles).Done?
    ensures var r := Admit(lex, read, candidate, document, segments, titles).value;
            var conditional := ReadsConditional(read, candidate, r.span.text);
            var trusted := candidate.applicability != [] && AllSupported(read, candidate, r.span, segments);
            && (r.applicabilityStatus.Applicable? <==> r.status.Executable? && (conditional ==> trusted))
            && !r.applicabilityStatus.NotApplicable?
            && (if conditional && trusted
                then |r.applicability| == |candidate.applicability| && forall i :: 0 <= i < |r.applicability| ==>
                       Keeps(r.applicability[i], candidate.applicability[i])
                else r.applicability == [])
  {
    hide BuildSpan, Staged, DispositionOf, ModalSeverity, Distrust, Supported, TrustAll, ParseField,
         ParseConditionOperator, FieldName, ConditionOperatorName;
    var r := Admit(lex, read, candidate, document, segments, titles).value;
    forall i | 0 <= i < |candidate.applicability|
      ensures Distrust(read, r.span, segments, candidate.applicability[i]).None? <==>
        Supported(read, r.span, segments, candidate.applicability[i])
    {
      DistrustIff(read, r.span, segments, candidate.applicability[i]);
    }
    var applies := TrustAll(read, r.span, segments, candidate.applicability, []);
    forall i | 0 <= i < |candidate.applicability| && applies.status.Applicable?
      ensures Keeps(applies.conditions[i], candidate.applicability[i])
    {
      assert Trusts(read, r.span, segments, candidate.applicability[i], applies.conditions[0 + i]);
      ConditionNames(candidate.applicability[i].field, applies.conditions[i].field, applies.conditions[i].op);
      ConditionNames(candidate.applicability[i].op, applies.conditions[i].field, applies.conditions[i].op);
    }
  }

  // ------------------------------------------------------------ contradictions

  /** Two executable requirements that demand different values of the same fact. */
  predicate Contradicts(left: Requirement, right: Requirement) {
    && left.status.Executable? && right.status.Executable?
    && left.constraint.Some? && right.constraint.Some?
    && left.constraint.value.test.EqualsTest? && right.constraint.value.test.EqualsTest?
    && left.constraint.value.key == right.constraint.value.key
    && left.scope == right.scope && left.applicability == right.applicability
    && !PyEq(left.constraint.value.test.value, right.constraint.value.test.value)
  }

  /** Two executable requirements that each demand one value of the same fact, in the same scope
      and under the same conditions. */
  predicate Comparable(left: Requirement, right: Requirement) {
    && left.status.Executable? && right.status.Executable?
    && left.constraint.Some? && right.constraint.Some?
    && left.constraint.value.test.EqualsTest? && right.constraint.value.test.EqualsTest?
    && left.constraint.value.key == right.constraint.value.key
    && left.scope == right.scope && left.applicability == right.applicability
  }

  /** Which of them contradict one another, seen from what they accept: if they do, no
      measurement satisfies both, and if they do not, they agree on every measurement. */
  lemma ContradictionMeans(lex: Lexicon, left: Requirement, right: Requirement, m: Measurement)
    requires Sound(left) && Sound(right) && ValidMeasurement(lex, m)
    ensures Contradicts(left, right) ==> Comparable(left, right)
    ensures Comparable(left, right) ==>
              var first, second := Evaluate(lex, m, left.constraint.value), Evaluate(lex, m, right.constraint.value);
              && (Contradicts(left, right) <==>
                    !Same(left.constraint.value.test.value, right.constraint.value.test.value))
              && if Contradicts(left, right) then first != Pass || second != Pass else first == second
  {
    hide Lookup, ValidMeasurement;
    if Comparable(left, right) {
      SameIsPyEq(left.constraint.value.test.value, right.constraint.value.test.value);
      EqualsAgrees(lex, m, left.constraint.value, right.constraint.value);
    }
  }

  lemma EqualsAgrees(lex: Lexicon, m: Measurement, c: Constraint, d: Constraint)
    requires WellTyped(c) && WellTyped(d) && c.key == d.key && c.test.EqualsTest? && d.test.EqualsTest?
    requires ValidMeasurement(lex, m)
    ensures if Same(c.test.value, d.test.value) then Evaluate(lex, m, c) == Evaluate(lex, m, d)
      else Evaluate(lex, m, c) != Pass || Evaluate(lex, m, d) != Pass
  {
    hide Lookup, CanonicalValue;
    OthersAreNotEvaluated(lex, m, c);
    OthersAreNotEvaluated(lex, m, d);
    if m.status.Ok? && m.key == c.key {
      EqualityTestsMean(lex, m, c);
      EqualityTestsMean(lex, m, d);
    }
  }

  type Conflict = (RequirementId, RequirementId)

  function ConflictsWith(left: Requirement, rest: seq<Requirement>): seq<Conflict> {
    if rest == [] then []
    else (if Contradicts(left, rest[0]) then [(left.requirementId, rest[0].requirementId)]
      else []) + ConflictsWith(left, rest[1..])
  }

  /** `find_contradictions`. */
  function Conflicts(requirements: seq<Requirement>): seq<Conflict> {
    if requirements == [] then [] else ConflictsWith(requirements[0], requirements[1..]) + Conflicts(requirements[1..])
  }

  lemma {:induction false} NextConflict(left: Requirement, requirements: seq<Requirement>, j: nat)
    requires j < |requirements|
    ensures ConflictsWith(left, requirements[j..]) ==
            (if Contradicts(left, requirements[j]) then [(left.requirementId, requirements[j].requirementId)] else [])
            + ConflictsWith(left, requirements[j + 1..])
  {
    assert requirements[j..][0] == requirements[j] && requirements[j..][1..] == requirements[j + 1..];
  }

  lemma NextConflicts(requirements: seq<Requirement>, i: nat)
    requires i < |requirements|
    ensures Conflicts(requirements[i..]) ==
      ConflictsWith(requirements[i], requirements[i + 1..]) + Conflicts(requirements[i + 1..])
  {
    assert requirements[i..][0] == requirements[i] && requirements[i..][1..] == requirements[i + 1..];
  }

  method FindContradictions(requirements: seq<Requirement>) returns (r: seq<Conflict>)
    ensures r == Conflicts(requirements)
  {
    hide Contradicts, Conflicts, ConflictsWith;
    var n := |requirements|;
    assert requirements[n..] == [] && requirements[0..] == requirements;
    assert Conflicts(requirements[n..]) == [] by {
      NoConflicts(requirements[n..]);
    }
    r := [];
    for i := 0 to n
      invariant r + Conflicts(requirements[i..]) == Conflicts(requirements)
    {
      var left := requirements[i];
      NextConflicts(requirements, i);
      assert ConflictsWith(left, requirements[n..]) == [] by {
        NoneWith(left, requirements[n..]);
      }
      ghost var before := r;
      for j := i + 1 to n
        invariant r + ConflictsWith(left, requirements[j..]) == before + ConflictsWith(left, requirements[i + 1..])
      {
        NextConflict(left, requirements, j);
        if Contradicts(left, requirements[j]) {
          r := r + [(left.requirementId, requirements[j].requirementId)];
        }
      }
      assert r == before + ConflictsWith(left, requirements[i + 1..]);
    }
  }

  /** The peers a requirement is in conflict with, in the order they are found. */
  function Peers(conflicts: seq<Conflict>, id: RequirementId): seq<RequirementId> {
    if conflicts == [] then []
    else
      (if conflicts[0].0 == id then [conflicts[0].1] else []) + (if conflicts[0].1 == id then [conflicts[0].0] else [])
      + Peers(conflicts[1..], id)
  }

  function Mark(requirement: Requirement, peers: seq<RequirementId>): Requirement {
    if peers == [] then requirement
    else requirement.(status := Contradictory, reasons := requirement.reasons + ["CONTRADICTS_REQUIREMENT"],
                      contradicts := requirement.contradicts + peers, constraint := None)
  }

  /** `mark_contradictions`. */
  function Marked(requirements: seq<Requirement>): (r: seq<Requirement>)
    ensures |r| == |requirements|
    ensures forall i :: 0 <= i < |r| ==>
      r[i] == Mark(requirements[i], Peers(Conflicts(requirements), requirements[i].requirementId))
  {
    seq(|requirements|, i requires 0 <= i < |requirements| =>
      Mark(requirements[i], Peers(Conflicts(requirements), requirements[i].requirementId)))
  }

  type PeerTable = map<RequirementId, seq<RequirementId>>

  function PeersIn(table: PeerTable, id: RequirementId): seq<RequirementId> { if id in table then table[id] else [] }

  /** `peers.setdefault(id, []).append(peer)`. */
  function Added(table: PeerTable, id: RequirementId, peer: RequirementId): (r: PeerTable)
    ensures id in r && r[id] == PeersIn(table, id) + [peer]
    ensures forall other :: other != id ==>
      PeersIn(r, other) == PeersIn(table, other) && (other in r <==> other in table)
  {
    table[id := PeersIn(table, id) + [peer]]
  }

  predicate NoneEmpty(table: PeerTable) { forall id :: id in table ==> table[id] != [] }

  /** The dictionary holds the peers found so far. */
  ghost predicate Collected(table: PeerTable, conflicts: seq<Conflict>) {
    NoneEmpty(table) && forall id :: PeersIn(table, id) == Peers(conflicts, id)
  }

  lemma {:induction false} PeersAppend(conflicts: seq<Conflict>, conflict: Conflict, id: RequirementId)
    ensures Peers(conflicts + [conflict], id) ==
            Peers(conflicts, id) + (if conflict.0 == id then [conflict.1]
              else []) + (if conflict.1 == id then [conflict.0] else [])
  {
    var all := conflicts + [conflict];
    if conflicts == [] {
      assert all == [conflict] && all[1..] == [];
    } else {
      assert all[0] == conflicts[0] && all[1..] == conflicts[1..] + [conflict];
      PeersAppend(conflicts[1..], conflict, id);
    }
  }

  lemma CollectNext(table: PeerTable, conflicts: seq<Conflict>, conflict: Conflict)
    requires Collected(table, conflicts)
    ensures Collected(Added(Added(table, conflict.0, conflict.1), conflict.1, conflict.0), conflicts + [conflict])
  {
    hide Peers, Added, PeersIn;
    var once := Added(table, conflict.0, conflict.1);
    var twice := Added(once, conflict.1, conflict.0);
    forall id ensures PeersIn(twice, id) == Peers(conflicts + [conflict], id) {
      PeersAppend(conflicts, conflict, id);
      assert PeersIn(table, id) == Peers(conflicts, id);
      AddedTwice(table, conflict, id);
    }
    KeepsNoneEmpty(table, conflict.0, conflict.1);
    KeepsNoneEmpty(once, conflict.1, conflict.0);
  }

  lemma AddedTwice(table: PeerTable, conflict: Conflict, id: RequirementId)
    ensures PeersIn(Added(Added(table, conflict.0, conflict.1), conflict.1, conflict.0), id) ==
            PeersIn(table, id) + (if conflict.0 == id then [conflict.1]
              else []) + (if conflict.1 == id then [conflict.0] else [])
  {}

  lemma KeepsNoneEmpty(table: PeerTable, id: RequirementId, peer: RequirementId)
    requires NoneEmpty(table)
    ensures NoneEmpty(Added(table, id, peer))
  {
    forall other | other in Added(table, id, peer) ensures Added(table, id, peer)[other] != [] {
      if other != id {
        assert PeersIn(Added(table, id, peer), other) == PeersIn(table, other);
      }
    }
  }

  method MarkContradictions(requirements: seq<Requirement>) returns (r: seq<Requirement>)
    ensures r == Marked(requirements)
  {
    hide Collected, Mark, Conflicts, Added, Peers, PeersIn;
    var conflicts := FindContradictions(requirements);
    var table: PeerTable := map[];
    CollectedNone();
    for i := 0 to |conflicts|
      invariant Collected(table, conflicts[..i])
    {
      CollectNext(table, conflicts[..i], conflicts[i]);
      assert conflicts[..i] + [conflicts[i]] == conflicts[..i + 1];
      table := Added(Added(table, conflicts[i].0, conflicts[i].1), conflicts[i].1, conflicts[i].0);
    }
    assert conflicts[..|conflicts|] == conflicts;
    r := [];
    for i := 0 to |requirements|
      invariant r == Marked(requirements)[..i]
    {
      CollectedAt(table, conflicts, requirements[i]);
      if requirements[i].requirementId !in table {
        r := r + [requirements[i]];
      } else {
        r := r + [Mark(requirements[i], table[requirements[i].requirementId])];
      }
    }
  }

  lemma CollectedNone()
    ensures Collected(map[], [])
  {}

  lemma {:induction false} CollectedAt(table: PeerTable, conflicts: seq<Conflict>, requirement: Requirement)
    requires Collected(table, conflicts)
    ensures var id := requirement.requirementId;
            Mark(requirement, Peers(conflicts, id)) == if id in table then Mark(requirement, table[id]) else requirement
  {
    assert PeersIn(table, requirement.requirementId) == Peers(conflicts, requirement.requirementId);
  }

  predicate Conflicting(requirements: seq<Requirement>, id: RequirementId) {
    exists i, j :: 0 <= i < j < |requirements| && Contradicts(requirements[i], requirements[j])
                   && (requirements[i].requirementId == id || requirements[j].requirementId == id)
  }

  lemma FirstConflictsNext(left: Requirement, rest: seq<Requirement>, id: RequirementId)
    requires rest != []
    ensures FirstConflicts(left, rest, id) <==>
            || (Contradicts(left, rest[0]) && (left.requirementId == id || rest[0].requirementId == id))
            || FirstConflicts(left, rest[1..], id)
  {
    hide Contradicts;
    assert forall j :: 0 < j < |rest| ==> rest[j] == rest[1..][j - 1];
    assert forall j :: 0 <= j < |rest[1..]| ==> rest[1..][j] == rest[j + 1];
  }

  lemma {:induction false} PeersOfFirst(left: Requirement, rest: seq<Requirement>, more: seq<Conflict>,
                                        id: RequirementId)
    ensures Peers(ConflictsWith(left, rest) + more, id) != [] <==>
            Peers(more, id) != [] || FirstConflicts(left, rest, id)
  {
    hide Contradicts;
    if rest == [] {
      assert ConflictsWith(left, rest) + more == more;
    } else {
      hide FirstConflicts;
      var tail := ConflictsWith(left, rest[1..]) + more;
      PeersOfFirst(left, rest[1..], more, id);
      FirstConflictsNext(left, rest, id);
      if Contradicts(left, rest[0]) {
        var first := (left.requirementId, rest[0].requirementId);
        assert ConflictsWith(left, rest) + more == [first] + tail;
        assert ([first] + tail)[1..] == tail;
      } else {
        assert ConflictsWith(left, rest) + more == tail;
      }
    }
  }

  /** A contradiction of the first requirement with a later one, about this id. */
  predicate FirstConflicts(first: Requirement, rest: seq<Requirement>, id: RequirementId) {
    exists j :: 0 <= j < |rest| && Contradicts(first, rest[j])
      && (first.requirementId == id || rest[j].requirementId == id)
  }

  lemma ConflictingFirst(requirements: seq<Requirement>, id: RequirementId)
    requires requirements != []
    ensures Conflicting(requirements, id) <==>
            Conflicting(requirements[1..], id) || FirstConflicts(requirements[0], requirements[1..], id)
  {
    hide Contradicts;
    var first, rest := requirements[0], requirements[1..];
    if Conflicting(requirements, id) {
      var i, j :| 0 <= i < j < |requirements| && Contradicts(requirements[i], requirements[j])
                  && (requirements[i].requirementId == id || requirements[j].requirementId == id);
      assert requirements[j] == rest[j - 1];
      if i > 0 {
        assert requirements[i] == rest[i - 1];
      }
    }
    ConflictingLater(requirements, id);
  }

  lemma ConflictingLater(requirements: seq<Requirement>, id: RequirementId)
    requires requirements != []
    ensures Conflicting(requirements[1..], id) || FirstConflicts(requirements[0], requirements[1..], id) ==>
      Conflicting(requirements, id)
  {
    hide Contradicts;
    var first, rest := requirements[0], requirements[1..];
    assert forall i :: 0 <= i < |rest| ==> rest[i] == requirements[i + 1];
    if Conflicting(rest, id) {
      var i, j :| 0 <= i < j < |rest| && Contradicts(rest[i], rest[j])
        && (rest[i].requirementId == id || rest[j].requirementId == id);
      assert Contradicts(requirements[i + 1], requirements[j + 1]);
    }
    if FirstConflicts(first, rest, id) {
      var j :| 0 <= j < |rest| && Contradicts(first, rest[j])
        && (first.requirementId == id || rest[j].requirementId == id);
      assert Contradicts(requirements[0], requirements[j + 1]);
    }
  }

  /** A requirement has peers exactly when its id is in a contradiction. */
  lemma {:induction false} PeersIff(requirements: seq<Requirement>, id: RequirementId)
    ensures Peers(Conflicts(requirements), id) != [] <==> Conflicting(requirements, id)
  {
    hide Contradicts, Conflicting, Peers;
    if requirements == [] {
      NonePeers(id);
    } else {
      PeersOfFirst(requirements[0], requirements[1..], Conflicts(requirements[1..]), id);
      PeersIff(requirements[1..], id);
      ConflictingFirst(requirements, id);
    }
  }

  lemma {:induction false} NonePeers(id: RequirementId)
    ensures Peers([], id) == [] && !Conflicting([], id)
  {}

  /** Marking downgrades exactly the requirements whose id is in a contradiction and leaves the
      others alone; afterwards no two executable requirements contradict each other. */
  lemma MarkedMeaning(requirements: seq<Requirement>)
    ensures var marked := Marked(requirements);
            && (forall i :: 0 <= i < |requirements| ==>
                  if Conflicting(requirements, requirements[i].requirementId)
                  then marked[i].status.Contradictory? && marked[i].constraint.None?
                  else marked[i] == requirements[i])
            && (forall i, j :: 0 <= i < j < |marked| ==> !Contradicts(marked[i], marked[j]))
            && (forall i :: 0 <= i < |requirements| && Sound(requirements[i]) ==> Sound(marked[i]))
  {
    hide Contradicts, Conflicts, Sound;
    var marked := Marked(requirements);
    forall i | 0 <= i < |requirements|
      ensures if Conflicting(requirements, requirements[i].requirementId)
              then marked[i].status.Contradictory? && marked[i].constraint.None?
              else marked[i] == requirements[i]
      ensures Sound(requirements[i]) ==> Sound(marked[i])
    {
      PeersIff(requirements, requirements[i].requirementId);
      MarkSound(requirements[i], Peers(Conflicts(requirements), requirements[i].requirementId));
    }
    forall i, j | 0 <= i < j < |marked| ensures !Contradicts(marked[i], marked[j]) {
      assert Contradicts(requirements[i], requirements[j]) ==> Conflicting(requirements, requirements[i].requirementId);
      ContradictsExecutable(marked[i], marked[j]);
    }
  }

  lemma MarkSound(requirement: Requirement, peers: seq<RequirementId>)
    ensures Sound(requirement) ==> Sound(Mark(requirement, peers))
  {}

  lemma ContradictsExecutable(left: Requirement, right: Requirement)
    ensures Contradicts(left, right) ==> left.status.Executable? && right.status.Executable?
  {}

  lemma {:induction false} NoConflicts(requirements: seq<Requirement>)
    requires forall i, j :: 0 <= i < j < |requirements| ==> !Contradicts(requirements[i], requirements[j])
    ensures Conflicts(requirements) == []
  {
    hide Contradicts;
    if requirements != [] {
      var first, rest := requirements[0], requirements[1..];
      assert forall j :: 0 <= j < |rest| ==> rest[j] == requirements[j + 1];
      NoConflicts(rest);
      forall j | 0 <= j < |rest| ensures !Contradicts(first, rest[j]) {
        assert rest[j] == requirements[j + 1];
      }
      NoneWith(first, rest);
    }
  }

  lemma {:induction false} NoneWith(left: Requirement, rest: seq<Requirement>)
    requires forall j :: 0 <= j < |rest| ==> !Contradicts(left, rest[j])
    ensures ConflictsWith(left, rest) == []
  {
    hide Contradicts;
    if rest != [] {
      NoneWith(left, rest[1..]);
    }
  }

  /** Marking twice is marking once. */
  lemma MarkingIsStable(requirements: seq<Requirement>)
    ensures Marked(Marked(requirements)) == Marked(requirements)
  {
    hide Contradicts, Conflicts, Sound, Conflicting;
    MarkedMeaning(requirements);
    NoConflicts(Marked(requirements));
  }

  // ------------------------------------------------------------ the verdict

  /** A requirement as the verdict sees it; `name` gives the identifiers. */
  function FactOf(requirement: Requirement, name: RequirementId -> Id): RequirementFact {
    RequirementFact(name(requirement.requirementId), requirement.severity, requirement.status,
      requirement.applicabilityStatus)
  }

  predicate Disputed(requirements: seq<Requirement>, i: nat)
    requires i < |requirements|
  {
    exists j :: 0 <= j < |requirements| && j != i && Contradicts(requirements[i], requirements[j])
  }

  /** Fail-closed end to end: a blocking requirement that could not be made executable, or that
      contradicts another, makes every verdict of its run BLOCKED. */
  lemma DoubtBlocks(requirements: seq<Requirement>, i: nat, name: RequirementId -> Id, input: TerminalInput)
    requires i < |requirements| && requirements[i].severity.Blocking?
    requires !requirements[i].status.Executable? || Disputed(requirements, i)
    requires FactOf(Marked(requirements)[i], name) in input.requirements
    ensures Compute(input).Some? ==> Compute(input).value.outcome == BlockedOutcome
  {
    hide Contradicts, Conflicts, Sound, Compute;
    MarkedMeaning(requirements);
    if requirements[i].status.Executable? {
      var j :| 0 <= j < |requirements| && j != i && Contradicts(requirements[i], requirements[j]);
      ContradictsBothWays(requirements[i], requirements[j]);
      assert Conflicting(requirements, requirements[i].requirementId);
    }
    UnexecutableBlocks(input, FactOf(Marked(requirements)[i], name));
  }

  /** Nor does a condition go unread: a blocking requirement whose text reads as conditional, and
      for which not every condition could be trusted, makes every verdict of its run BLOCKED. */
  lemma UntrustedConditionBlocks(lex: Lexicon, read: Reading, candidate: Candidate, document: Document,
                                 segments: seq<Segment>, titles: seq<string>, requirements: seq<Requirement>, i: nat,
                                 name: RequirementId -> Id, input: TerminalInput)
    requires i < |requirements| && requirements[i].severity.Blocking?
    requires Admit(lex, read, candidate, document, segments, titles) == Done(requirements[i])
    requires ReadsConditional(read, candidate, requirements[i].span.text)
    requires candidate.applicability == [] || !AllSupported(read, candidate, requirements[i].span, segments)
    requires FactOf(Marked(requirements)[i], name) in input.requirements
    ensures Compute(input).Some? ==> Compute(input).value.outcome == BlockedOutcome
  {
    hide Contradicts, Conflicts, Sound, Compute, Admit, AllSupported;
    AppliesIff(lex, read, candidate, document, segments, titles);
    UnresolvedBlocks(input, FactOf(Marked(requirements)[i], name));
  }

  lemma ContradictsBothWays(left: Requirement, right: Requirement)
    ensures Contradicts(left, right) <==> Contradicts(right, left)
  {}
}
