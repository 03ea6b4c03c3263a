/** The measurement catalog, the typed constraint language over it, the normalization of
    an untrusted draft into a constraint, and the evaluation of a constraint over one
    measured fact. Floating-point values are reals. */
module Constraints {
  import opened Domain

  /** A canonical scalar. Python compares numbers and booleans across types. */
  datatype Scalar = Str(s: string) | Int(i: int) | Float(r: real) | Bool(b: bool)

  datatype ValueType = BoolType | StringType | EnumType | IntType | FloatType | RationalType

  datatype Operator = Equals | Min | Max | Range | OneOf | MatchesPattern | Present | Absent

  datatype Disposition = AutoRemediate | ReportOnly | HumanApprovalRequired | Forbidden

  datatype NormalizationStatus = Executable | Ambiguous | Contradictory | Unsupported | ExternalDependency

  /** The catalog is closed: every other name is `UnknownKey`. */
  datatype Key =
    | PackageFilePresent | PackageFilename | ManifestPresent | ChecksumsMatch
    | ContainerFormat | VideoCodec | VideoWidth | VideoHeight | FrameRate | ScanType
    | ChannelCount | ChannelLayout | SampleRate
    | IntegratedLoudness | TruePeak | LoudnessRange
    | CaptionsPresent | CaptionsFormat | CueCount | FirstCueStart | OverlappingCues | CueEndVsDuration
    | UnknownKey(name: string)

  datatype Definition = Definition(
    key: Key, valueType: ValueType, unit: Option<string>, producedBy: Tool, floor: Disposition)

  /** `get_measurement`; `None` is the `KeyError`. */
  function Lookup(key: Key): Option<Definition> {
    match key
    case PackageFilePresent => Some(Definition(key, BoolType, None, ScanPackage, ReportOnly))
    case PackageFilename => Some(Definition(key, StringType, None, ScanPackage, AutoRemediate))
    case ManifestPresent => Some(Definition(key, BoolType, None, ScanPackage, AutoRemediate))
    case ChecksumsMatch => Some(Definition(key, BoolType, None, VerifyManifest, ReportOnly))
    case ContainerFormat => Some(Definition(key, EnumType, None, ProbeMedia, ReportOnly))
    case VideoCodec => Some(Definition(key, EnumType, None, ProbeMedia, ReportOnly))
    case VideoWidth => Some(Definition(key, IntType, Some("px"), ProbeMedia, ReportOnly))
    case VideoHeight => Some(Definition(key, IntType, Some("px"), ProbeMedia, ReportOnly))
    case FrameRate => Some(Definition(key, RationalType, Some("fps"), ProbeMedia, ReportOnly))
    case ScanType => Some(Definition(key, EnumType, None, ProbeMedia, ReportOnly))
    case ChannelCount => Some(Definition(key, IntType, None, ProbeMedia, ReportOnly))
    case ChannelLayout => Some(Definition(key, EnumType, None, ProbeMedia, ReportOnly))
    case SampleRate => Some(Definition(key, IntType, Some("Hz"), ProbeMedia, ReportOnly))
    case IntegratedLoudness => Some(Definition(key, FloatType, Some("LUFS"), MeasureLoudness, HumanApprovalRequired))
    case TruePeak => Some(Definition(key, FloatType, Some("dBTP"), MeasureLoudness, HumanApprovalRequired))
    case LoudnessRange => Some(Definition(key, FloatType, Some("LU"), MeasureLoudness, ReportOnly))
    case CaptionsPresent => Some(Definition(key, BoolType, None, ScanPackage, ReportOnly))
    case CaptionsFormat => Some(Definition(key, EnumType, None, InspectCaptions, AutoRemediate))
    case CueCount => Some(Definition(key, IntType, None, InspectCaptions, ReportOnly))
    case FirstCueStart => Some(Definition(key, FloatType, Some("s"), InspectCaptions, ReportOnly))
    case OverlappingCues => Some(Definition(key, IntType, None, InspectCaptions, ReportOnly))
    case CueEndVsDuration => Some(Definition(key, FloatType, Some("s"), InspectCaptions, ReportOnly))
    case UnknownKey(_) => None
  }

  /** The catalog by attribute: what produces a fact, of which type it is and in which unit, and
      what may be done about it at most. */
  lemma CatalogIs(key: Key)
    ensures Lookup(key).None? <==> key.UnknownKey?
    ensures !key.UnknownKey? ==>
              var d := Lookup(key).value;
              && d.key == key
              && (d.producedBy == if key.ChecksumsMatch? then VerifyManifest
                  else if key in {PackageFilePresent, PackageFilename, ManifestPresent, CaptionsPresent}
                  then ScanPackage
                  else if key in {IntegratedLoudness, TruePeak, LoudnessRange} then MeasureLoudness
                  else if key in {CaptionsFormat, CueCount, FirstCueStart, OverlappingCues, CueEndVsDuration}
                  then InspectCaptions else ProbeMedia)
              && (d.floor == if key in {PackageFilename, ManifestPresent, CaptionsFormat} then AutoRemediate
                  else if key in {IntegratedLoudness, TruePeak} then HumanApprovalRequired else ReportOnly)
              && (d.valueType == if key.PackageFilename? then StringType else if key.FrameRate? then RationalType
                  else if key in {PackageFilePresent, ManifestPresent, ChecksumsMatch, CaptionsPresent} then BoolType
                  else if key in {IntegratedLoudness, TruePeak, LoudnessRange, FirstCueStart, CueEndVsDuration}
                  then FloatType
                  else if key in {ContainerFormat, VideoCodec, ScanType, ChannelLayout, CaptionsFormat} then EnumType
                  else IntType)
              && (d.unit == if key in {VideoWidth, VideoHeight} then Some("px") else if key.FrameRate? then Some("fps")
                  else if key.SampleRate? then Some("Hz") else if key.IntegratedLoudness? then Some("LUFS")
                  else if key.TruePeak? then Some("dBTP") else if key.LoudnessRange? then Some("LU")
                  else if key in {FirstCueStart, CueEndVsDuration} then Some("s") else None)
  {}

  function OperatorsOfType(valueType: ValueType): set<Operator> {
    match valueType
    case BoolType => {Equals, Present, Absent}
    case StringType => {Equals, OneOf, MatchesPattern}
    case EnumType => {Equals, OneOf}
    case IntType => {Equals, Min, Max, Range, OneOf}
    case FloatType => {Equals, Min, Max, Range, OneOf}
    case RationalType => {Equals, OneOf}
  }

  /** `allowed_constraint_operators`. */
  function AllowedOperators(key: Key): set<Operator> {
    match Lookup(key)
    case Some(definition) => OperatorsOfType(definition.valueType)
    case None => {}
  }

  datatype Test =
    | EqualsTest(value: Scalar)
    | MinTest(value: Scalar, inclusive: bool)
    | MaxTest(value: Scalar, inclusive: bool)
    | RangeTest(lower: Scalar, upper: Scalar, inclusiveLower: bool, inclusiveUpper: bool)
    | OneOfTest(values: seq<Scalar>)
    | PatternTest(pattern: string, description: string)
    | PresentTest
    | AbsentTest

  datatype Constraint = Constraint(key: Key, unit: Option<string>, test: Test)

  function OperatorOf(test: Test): Operator {
    match test
    case EqualsTest(_) => Equals
    case MinTest(_, _) => Min
    case MaxTest(_, _) => Max
    case RangeTest(_, _, _, _) => Range
    case OneOfTest(_) => OneOf
    case PatternTest(_, _) => MatchesPattern
    case PresentTest => Present
    case AbsentTest => Absent
  }

  // ------------------------------------------------------- Python comparison

  /** The numeric reading of a scalar: booleans are 0 and 1; strings have none. */
  function Numeric(v: Scalar): Option<real> {
    match v
    case Str(_) => None
    case Int(i) => Some(i as real)
    case Float(r) => Some(r)
    case Bool(b) => Some(if b then 1.0 else 0.0)
  }

  predicate PyEq(a: Scalar, b: Scalar) {
    if a.Str? || b.Str? then a == b else Numeric(a) == Numeric(b)
  }

  /** Lexicographic order on strings by code point. */
  predicate StringLess(a: string, b: string) {
    if b == "" then false
    else if a == "" then true
    else if a[0] != b[0] then a[0] < b[0]
    else StringLess(a[1..], b[1..])
  }

  /** The strings part at this place, the first being smaller there, or ending. */
  predicate PartsBelow(a: string, b: string, k: int) {
    && 0 <= k <= |a| && k < |b| && a[..k] == b[..k] && (k == |a| || a[k] < b[k])
  }

  /** The order is that of dictionaries. */
  lemma {:induction false} StringLessIff(a: string, b: string)
    ensures StringLess(a, b) <==> exists k :: PartsBelow(a, b, k)
    decreases |a|
  {
    if a == "" && b != "" {
      assert PartsBelow(a, b, 0);
    } else if a != "" && b != "" {
      StringLessIff(a[1..], b[1..]);
      forall k ensures k >= 1 ==> (PartsBelow(a, b, k) <==> a[0] == b[0] && PartsBelow(a[1..], b[1..], k - 1)) {
        PartsBelowNext(a, b, k);
      }
      assert PartsBelow(a, b, 0) <==> a[0] < b[0];
      if a[0] == b[0] && StringLess(a[1..], b[1..]) {
        var k :| PartsBelow(a[1..], b[1..], k);
        assert PartsBelow(a, b, k + 1);
      }
    }
  }

  lemma PartsBelowNext(a: string, b: string, k: int)
    requires a != "" && b != ""
    ensures k >= 1 ==> (PartsBelow(a, b, k) <==> a[0] == b[0] && PartsBelow(a[1..], b[1..], k - 1))
  {
    if 1 <= k <= |a| && k < |b| {
      assert a[..k] == [a[0]] + a[1..][..k - 1] && b[..k] == [b[0]] + b[1..][..k - 1];
    }
  }

  /** It is a total order. */
  lemma {:induction false} LessIsOrder(a: string, b: string, c: string)
    ensures StringLess(a, b) ==> !StringLess(b, a)
    ensures !StringLess(b, a) && !StringLess(c, b) ==> !StringLess(c, a)
    decreases |a|
  {
    if a != "" && b != "" && c != "" {
      LessIsOrder(a[1..], b[1..], c[1..]);
    } else if a != "" && b != "" {
      LessIsOrder(a[1..], b[1..], c);
    }
  }

  lemma {:induction false} LessIsTotal(a: string, b: string)
    ensures a == b || StringLess(a, b) || StringLess(b, a)
  {
    if a != "" && b != "" {
      LessIsTotal(a[1..], b[1..]);
      assert a == [a[0]] + a[1..] && b == [b[0]] + b[1..];
    }
  }

  /** `a < b`, or `None` where Python raises `TypeError`. */
  function PyLess(a: Scalar, b: Scalar): Option<bool> {
    if a.Str? && b.Str? then Some(StringLess(a.s, b.s))
    else if a.Str? || b.Str? then None
    else Some(Numeric(a).value < Numeric(b).value)
  }

  function AtLeast(v: Scalar, bound: Scalar, inclusive: bool): Option<bool> {
    match PyLess(bound, v)
    case None => None
    case Some(less) => Some(less || (inclusive && PyEq(v, bound)))
  }

  function AtMost(v: Scalar, bound: Scalar, inclusive: bool): Option<bool> {
    match PyLess(v, bound)
    case None => None
    case Some(less) => Some(less || (inclusive && PyEq(v, bound)))
  }

  // ---------------------------------------------------------- evaluation

  datatype MeasurementStatus = Ok | Failure
  datatype PredicateOutcome = Pass | Fail | NotEvaluated

  datatype Measurement = Measurement(
    requirementId: Id, cycle: nat, key: Key, value: Option<Scalar>, unit: Option<string>, status: MeasurementStatus)

  /** Text handling outside the model: numeral parsing, case folding, trimming, the unit
      spelling with case and spaces removed, regular expressions, and where an option's
      identifier stands among the others, as the hash string it is. */
  datatype Lexicon = Lexicon(
    parseFloat: string -> Option<real>,
    fold: string -> string,
    strip: string -> string,
    compact: string -> string,
    compiles: string -> bool,
    fullMatch: (string, string) -> bool,
    canonicalRational: string -> bool,
    rank: OptionId -> int)

  /** `validate_measurement_value`: the canonical representation of a fact. */
  predicate CanonicalValue(lex: Lexicon, key: Key, value: Scalar, unit: Option<string>) {
    match Lookup(key)
    case None => false
    case Some(definition) =>
      && unit == definition.unit
      && match definition.valueType
         case BoolType => value.Bool?
         case IntType => value.Int?
         case FloatType => value.Float?
         case StringType => value.Str? && value.s != ""
         case EnumType => value.Str? && value.s != "" && lex.fold(value.s) == value.s
         case RationalType => value.Str? && lex.canonicalRational(value.s)
  }

  /** The shape every constructed `Measurement` has. */
  predicate ValidMeasurement(lex: Lexicon, m: Measurement) {
    if m.status.Ok? then m.value.Some? && CanonicalValue(lex, m.key, m.value.value, m.unit)
    else m.value.None?
  }

  /** `None` is the caught `TypeError`. */
  function Matched(lex: Lexicon, value: Scalar, test: Test): Option<bool> {
    match test
    case EqualsTest(expected) => Some(PyEq(value, expected))
    case MinTest(bound, inclusive) => AtLeast(value, bound, inclusive)
    case MaxTest(bound, inclusive) => AtMost(value, bound, inclusive)
    case RangeTest(lower, upper, inclusiveLower, inclusiveUpper) =>
      (match (AtLeast(value, lower, inclusiveLower), AtMost(value, upper, inclusiveUpper))
       case (Some(low), Some(high)) => Some(low && high)
       case _ => None)
    case OneOfTest(values) => Some(exists i :: 0 <= i < |values| && PyEq(value, values[i]))
    case PatternTest(pattern, _) => Some(value.Str? && lex.fullMatch(pattern, value.s))
    case PresentTest => Some(value == Bool(true))
    case AbsentTest => Some(value == Bool(false))
  }

  function Evaluate(lex: Lexicon, m: Measurement, c: Constraint): PredicateOutcome {
    if m.status.Ok? && m.key == c.key && m.unit == c.unit && m.value.Some?
       && OperatorOf(c.test) in AllowedOperators(m.key)
    then
      match Matched(lex, m.value.value, c.test)
      case None => NotEvaluated
      case Some(true) => Pass
      case Some(false) => Fail
    else NotEvaluated
  }

  // ---------------------------------------------------------- normalization

  datatype Draft = Draft(operator: string, rawValues: seq<string>, rawUnit: Option<string>)

  datatype Normalized = Normalized(constraint: Option<Constraint>, status: NormalizationStatus, reason: string)

  function ParseOperator(name: string): Option<Operator> {
    if name == "EQUALS" then Some(Equals)
    else if name == "MIN" then Some(Min)
    else if name == "MAX" then Some(Max)
    else if name == "RANGE" then Some(Range)
    else if name == "ONE_OF" then Some(OneOf)
    else if name == "MATCHES_PATTERN" then Some(MatchesPattern)
    else if name == "PRESENT" then Some(Present)
    else if name == "ABSENT" then Some(Absent)
    else None
  }

  function UnitFactor(expected: string, compact: string): Option<real> {
    if expected == "LUFS" then (if compact == "lufs" || compact == "lkfs" then Some(1.0) else None)
    else if expected == "dBTP" then (if compact == "dbtp" || compact == "dbfs(tp)" then Some(1.0) else None)
    else if expected == "Hz" then (if compact == "hz" then Some(1.0) else if compact == "khz" then Some(1000.0)
      else None)
    else if expected == "fps" then (if compact == "fps" then Some(1.0) else None)
    else if expected == "px" then (if compact == "px" || compact == "pixel" || compact == "pixels" then Some(1.0)
      else None)
    else if expected == "LU" then (if compact == "lu" || compact == "db" then Some(1.0) else None)
    else if expected == "s" then (if compact == "s" || compact == "sec" || compact == "seconds" then Some(1.0)
      else None)
    else None
  }

  /** `_canonical_unit`: the catalog unit and the factor into it, or refusal. */
  function CanonicalUnit(lex: Lexicon, raw: Option<string>, expected: Option<string>): Option<(Option<string>, real)> {
    match expected
    case None => if raw.None? || lex.strip(raw.value) == "" then Some((None, 1.0)) else None
    case Some(unit) =>
      if raw.None? then None
      else match UnitFactor(unit, lex.compact(raw.value))
           case None => None
           case Some(factor) => Some((Some(unit), factor))
  }

  function ParseBool(folded: string): Option<Scalar> {
    if folded == "true" || folded == "yes" || folded == "present" then Some(Bool(true))
    else if folded == "false" || folded == "no" || folded == "absent" then Some(Bool(false))
    else None
  }

  function Rational(stripped: string): string {
    if stripped == "23.976" then "24000/1001"
    else if stripped == "29.97" then "30000/1001"
    else if stripped == "59.94" then "60000/1001"
    else stripped
  }

  /** `_parse_value`; `None` is the caught `KeyError` or `ValueError`. */
  function ParseValue(lex: Lexicon, raw: string, definition: Definition, factor: real): Option<Scalar> {
    var stripped := lex.strip(raw);
    match definition.valueType
    case BoolType => ParseBool(lex.fold(stripped))
    case IntType =>
      (match lex.parseFloat(stripped)
       case None => None
       case Some(x) => if (x * factor).Floor as real == x * factor then Some(Int((x * factor).Floor)) else None)
    case FloatType =>
      (match lex.parseFloat(stripped)
       case None => None
       case Some(x) => Some(Float(x * factor)))
    case RationalType => Some(Str(Rational(stripped)))
    case EnumType =>
      var folded := lex.fold(stripped);
      Some(Str(if definition.key == VideoCodec && folded == "h.264" then "h264" else folded))
    case StringType => Some(Str(stripped))
  }

  function ParseAll(lex: Lexicon, raws: seq<string>, definition: Definition, factor: real): (r: Option<seq<Scalar>>)
    ensures r.Some? ==> |r.value| == |raws|
    ensures r.Some? ==> forall i :: 0 <= i < |raws| ==> ParseValue(lex, raws[i], definition, factor) == Some(r.value[i])
  {
    if raws == [] then Some([])
    else
      match (ParseValue(lex, raws[0], definition, factor), ParseAll(lex, raws[1..], definition, factor))
      case (Some(first), Some(rest)) => Some([first] + rest)
      case _ => None
  }

  predicate CountFits(operator: Operator, count: nat) {
    match operator
    case Equals | Min | Max => count == 1
    case Range | MatchesPattern => count == 2
    case OneOf => count >= 1
    case Present | Absent => count == 0
  }

  /** `str(value)` of a parsed value: patterns exist for string measurements only. */
  function Text(v: Scalar): string {
    if v.Str? then v.s else ""
  }

  function Invalid(reason: string): Normalized { Normalized(None, Ambiguous, reason) }

  function BuildTest(lex: Lexicon, operator: Operator, values: seq<Scalar>): Option<Test>
    requires CountFits(operator, |values|)
  {
    match operator
    case Equals => Some(EqualsTest(values[0]))
    case Min => Some(MinTest(values[0], true))
    case Max => Some(MaxTest(values[0], true))
    case Range =>
      // RangeConstraint refuses non-numeric bounds and a lower bound above the upper.
      if Numeric(values[0]).Some? && Numeric(values[1]).Some? && Numeric(values[0]).value <= Numeric(values[1]).value
      then Some(RangeTest(values[0], values[1], true, true)) else None
    case OneOf => Some(OneOfTest(values))
    case MatchesPattern =>
      // An empty pattern or description is refused when the constraint is built.
      if lex.compiles(Text(values[0])) && lex.strip(Text(values[0])) != "" && lex.strip(Text(values[1])) != ""
      then Some(PatternTest(Text(values[0]), Text(values[1]))) else None
    case Present => Some(PresentTest)
    case Absent => Some(AbsentTest)
  }

  function NormalizeConstraint(lex: Lexicon, draft: Option<Draft>, definition: Definition): Normalized {
    if draft.None? then Invalid("MISSING_CONSTRAINT")
    else
      match ParseOperator(draft.value.operator)
      case None => Normalized(None, Unsupported, "UNKNOWN_CONSTRAINT_OPERATOR")
      case Some(operator) =>
        if operator !in AllowedOperators(definition.key) then
          Normalized(None, Unsupported, "OPERATOR_NOT_SUPPORTED_FOR_MEASUREMENT")
        else
          match CanonicalUnit(lex, draft.value.rawUnit, definition.unit)
          case None => Invalid("UNKNOWN_UNIT")
          case Some((unit, factor)) =>
            if !CountFits(operator, |draft.value.rawValues|) then
              Invalid(if operator == Range then "MISSING_RANGE_VALUES" else "INCOMPLETE_CONSTRAINT")
            else
              match ParseAll(lex, draft.value.rawValues, definition, factor)
              case None => Invalid("INVALID_CONSTRAINT_VALUE")
              case Some(values) =>
                match BuildTest(lex, operator, values)
                case None =>
                  Invalid(if operator == MatchesPattern && !lex.compiles(Text(values[0])) then "INVALID_PATTERN"
                          else "INVALID_CONSTRAINT_VALUE")
                case Some(test) => Normalized(Some(Constraint(definition.key, unit, test)), Executable, "")
  }

  // ---------------------------------------------------------- soundness

  /** What normalization establishes about an admitted constraint: catalog key and unit,
      an allowed operator, and operands of the measurement's own type. */
  predicate WellTyped(c: Constraint) {
    match Lookup(c.key)
    case None => false
    case Some(definition) =>
      && c.unit == definition.unit
      && OperatorOf(c.test) in OperatorsOfType(definition.valueType)
      && match c.test
         case MinTest(v, _) => Numeric(v).Some?
         case MaxTest(v, _) => Numeric(v).Some?
         case RangeTest(lower, upper, _, _) =>
           Numeric(lower).Some? && Numeric(upper).Some? && Numeric(lower).value <= Numeric(upper).value
         case _ => true
  }

  lemma AdmittedIsWellTyped(lex: Lexicon, draft: Option<Draft>, definition: Definition)
    requires Lookup(definition.key) == Some(definition)
    ensures var n := NormalizeConstraint(lex, draft, definition);
            && (n.constraint.Some? <==> n.status == Executable)
            && (n.constraint.Some? ==> n.constraint.value.key == definition.key && WellTyped(n.constraint.value))
  {
    var n := NormalizeConstraint(lex, draft, definition);
    if n.constraint.Some? {
      var operator := ParseOperator(draft.value.operator).value;
      var (unit, factor) := CanonicalUnit(lex, draft.value.rawUnit, definition.unit).value;
      var values := ParseAll(lex, draft.value.rawValues, definition, factor).value;
      forall i | 0 <= i < |values| && (operator == Min || operator == Max)
        ensures Numeric(values[i]).Some?
      {
        assert ParseValue(lex, draft.value.rawValues[i], definition, factor) == Some(values[i]);
      }
    }
  }

  /** Type soundness: a draft marked EXECUTABLE, evaluated on any well-formed successful
      measurement of its key, gives PASS or FAIL and never NOT_EVALUATED; and an admitted
      range has its bounds in order. */
  lemma AdmittedNeverUnevaluated(lex: Lexicon, draft: Option<Draft>, definition: Definition, m: Measurement)
    requires Lookup(definition.key) == Some(definition)
    requires NormalizeConstraint(lex, draft, definition).status == Executable
    requires m.status.Ok? && m.key == definition.key && ValidMeasurement(lex, m)
    ensures var n := NormalizeConstraint(lex, draft, definition);
            && n.constraint.Some?
            && Evaluate(lex, m, n.constraint.value) != NotEvaluated
            && (n.constraint.value.test.RangeTest? ==>
                  Numeric(n.constraint.value.test.lower).value <= Numeric(n.constraint.value.test.upper).value)
  {
    AdmittedIsWellTyped(lex, draft, definition);
  }

  /** The set of numbers a numeric test admits, written as an interval. */
  predicate InInterval(x: real, test: Test)
    requires test.MinTest? ==> Numeric(test.value).Some?
    requires test.MaxTest? ==> Numeric(test.value).Some?
    requires test.RangeTest? ==> Numeric(test.lower).Some? && Numeric(test.upper).Some?
  {
    match test
    case MinTest(v, inclusive) => if inclusive then Numeric(v).value <= x else Numeric(v).value < x
    case MaxTest(v, inclusive) => if inclusive then x <= Numeric(v).value else x < Numeric(v).value
    case RangeTest(lower, upper, il, iu) =>
      && (if il then Numeric(lower).value <= x else Numeric(lower).value < x)
      && (if iu then x <= Numeric(upper).value else x < Numeric(upper).value)
    case _ => true
  }

  /** For ordering tests the verdict is membership of the measured number in the interval:
      PASS inside, FAIL outside, nothing else. */
  lemma OrderingTestsAreIntervals(lex: Lexicon, m: Measurement, c: Constraint)
    requires WellTyped(c) && m.status.Ok? && m.key == c.key && ValidMeasurement(lex, m)
    requires c.test.MinTest? || c.test.MaxTest? || c.test.RangeTest?
    ensures Numeric(m.value.value).Some?
    ensures Evaluate(lex, m, c) == (if InInterval(Numeric(m.value.value).value, c.test) then Pass else Fail)
  {
    assert Lookup(c.key).value.valueType in {IntType, FloatType};
  }

  // ------------------------------------------------------------ what the other tests mean

  /** The same string, truth value or number; a truth value is also the number 0 or 1. */
  predicate Same(a: Scalar, b: Scalar) {
    match (a, b)
    case (Str(s), Str(t)) => s == t
    case (Bool(x), Bool(y)) => x == y
    case (Int(i), Int(j)) => i == j
    case (Float(x), Float(y)) => x == y
    case (Int(i), Float(x)) => x == i as real
    case (Float(x), Int(i)) => x == i as real
    case (Bool(x), Int(i)) => i == if x then 1 else 0
    case (Int(i), Bool(x)) => i == if x then 1 else 0
    case (Bool(x), Float(y)) => y == if x then 1.0 else 0.0
    case (Float(y), Bool(x)) => y == if x then 1.0 else 0.0
    case _ => false
  }

  /** For the other tests the verdict is PASS on exactly these values, and FAIL on every other:
      the value asked for, one of those listed, a string the pattern matches from end to end,
      and for presence and absence the truth value. */
  lemma EqualityTestsMean(lex: Lexicon, m: Measurement, c: Constraint)
    requires WellTyped(c) && m.status.Ok? && m.key == c.key && ValidMeasurement(lex, m)
    requires !c.test.MinTest? && !c.test.MaxTest? && !c.test.RangeTest?
    ensures var v := m.value.value;
            Evaluate(lex, m, c) ==
            match c.test
            case EqualsTest(expected) => if Same(v, expected) then Pass else Fail
            case OneOfTest(values) => if exists i :: 0 <= i < |values| && Same(v, values[i]) then Pass else Fail
            case PatternTest(pattern, _) => if v.Str? && lex.fullMatch(pattern, v.s) then Pass else Fail
            case PresentTest => if v == Bool(true) then Pass else Fail
            case AbsentTest => if v == Bool(false) then Pass else Fail
            case _ => NotEvaluated
  {
    hide Lookup;
    var v := m.value.value;
    match c.test
    case EqualsTest(expected) => SameIsPyEq(v, expected);
    case OneOfTest(values) =>
      forall i | 0 <= i < |values| ensures PyEq(v, values[i]) <==> Same(v, values[i]) {
        SameIsPyEq(v, values[i]);
      }
    case _ =>
  }

  lemma SameIsPyEq(a: Scalar, b: Scalar)
    ensures PyEq(a, b) <==> Same(a, b)
  {}

  /** Anything else is not evaluated: a measurement of another key or in another unit, one that
      failed, or an operator that its key does not have. */
  lemma OthersAreNotEvaluated(lex: Lexicon, m: Measurement, c: Constraint)
    requires ValidMeasurement(lex, m) && WellTyped(c)
    ensures Evaluate(lex, m, c) == NotEvaluated <==> m.status.Failure? || m.key != c.key
  {
    hide Lookup;
    if m.status.Ok? && m.key == c.key {
      if c.test.MinTest? || c.test.MaxTest? || c.test.RangeTest? {
        OrderingTestsAreIntervals(lex, m, c);
      } else {
        EqualityTestsMean(lex, m, c);
      }
    }
  }

  // ------------------------------------------------------------ what a draft demands

  /** Orders exist for numbers, patterns for free strings, presence for truth values; a list of
      values for everything but truth values, equality for everything. */
  lemma OperatorsByType(definition: Definition, operator: Operator)
    requires Lookup(definition.key) == Some(definition)
    ensures operator in AllowedOperators(definition.key) <==>
            match operator
            case Equals => true
            case Min | Max | Range => definition.valueType.IntType? || definition.valueType.FloatType?
            case OneOf => !definition.valueType.BoolType?
            case MatchesPattern => definition.valueType.StringType?
            case Present | Absent => definition.valueType.BoolType?
  {}

  /** How an operator is spelled in a draft. */
  function OperatorName(operator: Operator): string {
    match operator
    case Equals => "EQUALS"
    case Min => "MIN"
    case Max => "MAX"
    case Range => "RANGE"
    case OneOf => "ONE_OF"
    case MatchesPattern => "MATCHES_PATTERN"
    case Present => "PRESENT"
    case Absent => "ABSENT"
  }

  lemma OperatorNames(name: string, operator: Operator)
    ensures ParseOperator(name) == Some(operator) <==> name == OperatorName(operator)
  {}

  /** A catalog unit is spelled in these ways, with case and spaces removed, and only kilohertz
      are converted. */
  predicate Spells(compact: string, unit: string) {
    || (unit == "LUFS" && compact in ["lufs", "lkfs"]) || (unit == "dBTP" && compact in ["dbtp", "dbfs(tp)"])
    || (unit == "Hz" && compact in ["hz", "khz"]) || (unit == "fps" && compact == "fps")
    || (unit == "px" && compact in ["px", "pixel", "pixels"]) || (unit == "LU" && compact in ["lu", "db"])
    || (unit == "s" && compact in ["s", "sec", "seconds"])
  }

  lemma UnitsMean(unit: string, compact: string)
    ensures UnitFactor(unit, compact) ==
            if Spells(compact, unit) then Some(if compact == "khz" then 1000.0 else 1.0) else None
  {}

  /** The factor of a draft's unit. */
  function FactorOf(lex: Lexicon, raw: Option<string>, definition: Definition): real {
    if definition.unit.Some? && raw.Some? && lex.compact(raw.value) == "khz" then 1000.0 else 1.0
  }

  predicate DenotesNumber(lex: Lexicon, raw: string, factor: real, x: real) {
    var parsed := lex.parseFloat(lex.strip(raw));
    parsed.Some? && parsed.value * factor == x
  }

  /** A raw value of a draft denotes a value of the fact's own type. */
  predicate Denotes(lex: Lexicon, raw: string, definition: Definition, factor: real, v: Scalar) {
    var spelled, folded := lex.strip(raw), lex.fold(lex.strip(raw));
    match v
    case Bool(b) =>
      definition.valueType.BoolType? && folded in if b then ["true", "yes", "present"] else ["false", "no", "absent"]
    case Int(i) => definition.valueType.IntType? && DenotesNumber(lex, raw, factor, i as real)
    case Float(x) => definition.valueType.FloatType? && DenotesNumber(lex, raw, factor, x)
    case Str(t) =>
      match definition.valueType
      case StringType => t == spelled
      case EnumType => if definition.key == VideoCodec && folded == "h.264" then t == "h264" else t == folded
      case RationalType =>
        (match spelled
         case "23.976" => t == "24000/1001"
         case "29.97" => t == "30000/1001"
         case "59.94" => t == "60000/1001"
         case _ => t == spelled)
      case _ => false
  }

  predicate HasType(v: Scalar, valueType: ValueType) {
    match valueType
    case BoolType => v.Bool?
    case IntType => v.Int?
    case FloatType => v.Float?
    case StringType | EnumType | RationalType => v.Str?
  }

  /** A parsed value has the type of the fact, and is the value that its text denotes. */
  lemma ParsedDenotes(lex: Lexicon, raw: string, definition: Definition, factor: real, value: Scalar, v: Scalar)
    requires ParseValue(lex, raw, definition, factor) == Some(value) && HasType(v, definition.valueType)
    ensures HasType(value, definition.valueType)
    ensures v == value <==> Denotes(lex, raw, definition, factor, v)
    ensures v == value <==> Same(v, value)
    ensures definition.valueType.IntType? || definition.valueType.FloatType? ==>
      Numeric(value).Some? && DenotesNumber(lex, raw, factor, Numeric(value).value)
  {}

  /** What an executable draft demands, in its own words: a measured fact passes exactly when it
      is the value the draft denotes, or one of them; when it is not below or not above the
      number denoted, or between the two; when the pattern matches it; when it is present or
      absent. */
  lemma AdmittedDraftMeans(lex: Lexicon, draft: Option<Draft>, definition: Definition, m: Measurement)
    requires Lookup(definition.key) == Some(definition)
    requires NormalizeConstraint(lex, draft, definition).status == Executable
    requires m.status.Ok? && m.key == definition.key && ValidMeasurement(lex, m)
    ensures draft.Some? && NormalizeConstraint(lex, draft, definition).constraint.Some?
    ensures var raws, v := draft.value.rawValues, m.value.value;
            var factor := FactorOf(lex, draft.value.rawUnit, definition);
            var passes := Evaluate(lex, m, NormalizeConstraint(lex, draft, definition).constraint.value) == Pass;
            match draft.value.operator
            case "EQUALS" => |raws| == 1 && (passes <==> Denotes(lex, raws[0], definition, factor, v))
            case "ONE_OF" => passes <==> exists i :: 0 <= i < |raws| && Denotes(lex, raws[i], definition, factor, v)
            case "MIN" =>
              |raws| == 1 && Numeric(v).Some?
                && (passes <==> exists x :: DenotesNumber(lex, raws[0], factor, x) && x <= Numeric(v).value)
            case "MAX" =>
              |raws| == 1 && Numeric(v).Some?
                && (passes <==> exists x :: DenotesNumber(lex, raws[0], factor, x) && Numeric(v).value <= x)
            case "RANGE" =>
              |raws| == 2 && Numeric(v).Some?
                && (passes <==> exists x, y :: DenotesNumber(lex, raws[0], factor, x)
                                              && DenotesNumber(lex, raws[1], factor, y) && x <= Numeric(v).value <= y)
            case "MATCHES_PATTERN" => |raws| == 2 && v.Str? && (passes <==> lex.fullMatch(lex.strip(raws[0]), v.s))
            case "PRESENT" => passes <==> v == Bool(true)
            case "ABSENT" => passes <==> v == Bool(false)
            case _ => false
  {
    hide Lookup;
    AdmittedIsWellTyped(lex, draft, definition);
    var operator := ParseOperator(draft.value.operator).value;
    var (unit, factor) := CanonicalUnit(lex, draft.value.rawUnit, definition.unit).value;
    var raws, values := draft.value.rawValues, ParseAll(lex, draft.value.rawValues, definition, factor).value;
    var c, v := NormalizeConstraint(lex, draft, definition).constraint.value, m.value.value;
    OperatorNames(draft.value.operator, operator);
    FactorIs(lex, draft.value.rawUnit, definition);
    forall i | 0 <= i < |raws| ensures Same(v, values[i]) <==> Denotes(lex, raws[i], definition, factor, v) {
      ParsedDenotes(lex, raws[i], definition, factor, values[i], v);
    }
    OperatorsByType(definition, operator);
    if c.test.MinTest? || c.test.MaxTest? || c.test.RangeTest? {
      OrderingTestsAreIntervals(lex, m, c);
      forall i | 0 <= i < |raws| ensures DenotesNumber(lex, raws[i], factor, Numeric(values[i]).value) {
        ParsedDenotes(lex, raws[i], definition, factor, values[i], v);
      }
    } else {
      EqualityTestsMean(lex, m, c);
    }
  }

  lemma FactorIs(lex: Lexicon, raw: Option<string>, definition: Definition)
    requires CanonicalUnit(lex, raw, definition.unit).Some?
    ensures CanonicalUnit(lex, raw, definition.unit).value == (definition.unit, FactorOf(lex, raw, definition))
  {
    if definition.unit.Some? {
      UnitsMean(definition.unit.value, lex.compact(raw.value));
    }
  }

  /** When a draft is executable, and how it is refused: an operator that does not exist, or not
      for this fact, is unsupported; everything else that is wrong with it is ambiguous. */
  lemma DraftStatusMeans(lex: Lexicon, draft: Option<Draft>, definition: Definition)
    requires Lookup(definition.key) == Some(definition)
    ensures var status := NormalizeConstraint(lex, draft, definition).status;
            && (status.Unsupported? <==> draft.Some? && forall operator ::
                  operator in AllowedOperators(definition.key) ==> OperatorName(operator) != draft.value.operator)
            && (status.Executable? || status.Unsupported? || status.Ambiguous?)
  {
    hide Lookup, AllowedOperators, CanonicalUnit, ParseAll, BuildTest, ParseOperator, OperatorName;
    if draft.Some? {
      forall operator ensures ParseOperator(draft.value.operator) == Some(operator) <==>
        draft.value.operator == OperatorName(operator)
      {
        OperatorNames(draft.value.operator, operator);
      }
    }
  }

  // ------------------------------------------------------------ which drafts are admitted

  /** The unit is spelled as one of the fact's own, or left out where the fact has none. */
  predicate UnitFits(lex: Lexicon, raw: Option<string>, definition: Definition) {
    match definition.unit
    case None => raw.None? || |lex.strip(raw.value)| == 0
    case Some(unit) => raw.Some? && Spells(lex.compact(raw.value), unit)
  }

  lemma UnitFitsIff(lex: Lexicon, raw: Option<string>, definition: Definition)
    ensures CanonicalUnit(lex, raw, definition.unit).Some? <==> UnitFits(lex, raw, definition)
  {
    if definition.unit.Some? && raw.Some? {
      UnitsMean(definition.unit.value, lex.compact(raw.value));
    }
  }

  /** How many values an operator takes. */
  predicate TakesValues(operator: string, count: nat) {
    match operator
    case "EQUALS" | "MIN" | "MAX" => count == 1
    case "RANGE" | "MATCHES_PATTERN" => count == 2
    case "ONE_OF" => count > 0
    case _ => count == 0
  }

  /** The raw value denotes some value of the fact's type. */
  predicate Readable(lex: Lexicon, raw: string, definition: Definition, factor: real) {
    var spelled := lex.strip(raw);
    match definition.valueType
    case BoolType => lex.fold(spelled) in ["true", "yes", "present", "false", "no", "absent"]
    case IntType =>
      lex.parseFloat(spelled).Some? &&
      (lex.parseFloat(spelled).value * factor).Floor as real == lex.parseFloat(spelled).value * factor
    case FloatType => lex.parseFloat(spelled).Some?
    case _ => true
  }

  lemma ReadableIff(lex: Lexicon, raw: string, definition: Definition, factor: real)
    ensures ParseValue(lex, raw, definition, factor).Some? <==> Readable(lex, raw, definition, factor)
  {}

  lemma {:induction false} AllReadableIff(lex: Lexicon, raws: seq<string>, definition: Definition, factor: real)
    ensures ParseAll(lex, raws, definition, factor).Some? <==>
      forall i :: 0 <= i < |raws| ==> Readable(lex, raws[i], definition, factor)
  {
    hide ParseValue, Readable;
    if raws != [] {
      AllReadableIff(lex, raws[1..], definition, factor);
      ReadableIff(lex, raws[0], definition, factor);
      assert forall i :: 0 < i < |raws| ==> raws[i] == raws[1..][i - 1];
      assert forall i :: 0 <= i < |raws[1..]| ==> raws[1..][i] == raws[i + 1];
    }
  }

  /** The values make a constraint: the bounds of a range are in order, and a pattern is one, and
      is described. */
  ghost predicate ValuesFit(lex: Lexicon, operator: string, raws: seq<string>, factor: real) {
    match operator
    case "RANGE" =>
      |raws| == 2 && exists x, y :: DenotesNumber(lex, raws[0], factor, x) && DenotesNumber(lex, raws[1], factor, y)
                                   && x <= y
    case "MATCHES_PATTERN" =>
      && |raws| == 2 && lex.compiles(lex.strip(raws[0]))
      && |lex.strip(lex.strip(raws[0]))| > 0 && |lex.strip(lex.strip(raws[1]))| > 0
    case _ => true
  }

  lemma CountFitsIff(operator: Operator, count: nat)
    ensures CountFits(operator, count) <==> TakesValues(OperatorName(operator), count)
  {}

  lemma {:induction false} BuiltIff(lex: Lexicon, operator: Operator, raws: seq<string>, values: seq<Scalar>,
                                    definition: Definition, factor: real)
    requires Lookup(definition.key) == Some(definition) && operator in AllowedOperators(definition.key)
    requires CountFits(operator, |raws|) && ParseAll(lex, raws, definition, factor) == Some(values)
    ensures BuildTest(lex, operator, values).Some? <==> ValuesFit(lex, OperatorName(operator), raws, factor)
  {
    OperatorsByType(definition, operator);
    hide Lookup, AllowedOperators, ParseAll;
    forall i | 0 <= i < |raws| && (definition.valueType.IntType? || definition.valueType.FloatType?)
      ensures Numeric(values[i]).Some? && DenotesNumber(lex, raws[i], factor, Numeric(values[i]).value)
    {
      ParsedDenotes(lex, raws[i], definition, factor, values[i], values[i]);
    }
    match operator
    case Range =>
      forall x, y | DenotesNumber(lex, raws[0], factor, x) && DenotesNumber(lex, raws[1], factor, y)
        ensures x == Numeric(values[0]).value && y == Numeric(values[1]).value
      {}
    case MatchesPattern =>
      assert ParseValue(lex, raws[0], definition, factor) == Some(values[0]);
      assert ParseValue(lex, raws[1], definition, factor) == Some(values[1]);
    case _ =>
  }

  /** Exactly which drafts become executable: one with an operator for its fact, a unit of it, as
      many values as the operator takes, each of them readable, and together a constraint. */
  lemma ExecutableDraftIff(lex: Lexicon, draft: Option<Draft>, definition: Definition)
    requires Lookup(definition.key) == Some(definition)
    ensures NormalizeConstraint(lex, draft, definition).status.Executable? <==>
              && draft.Some?
              && (exists operator :: operator in AllowedOperators(definition.key)
                                     && OperatorName(operator) == draft.value.operator)
              && UnitFits(lex, draft.value.rawUnit, definition)
              && TakesValues(draft.value.operator, |draft.value.rawValues|)
              && var factor := FactorOf(lex, draft.value.rawUnit, definition);
                 && (forall i :: 0 <= i < |draft.value.rawValues| ==>
                       Readable(lex, draft.value.rawValues[i], definition, factor))
                 && ValuesFit(lex, draft.value.operator, draft.value.rawValues, factor)
  {
    hide Lookup, AllowedOperators, CanonicalUnit, ParseAll, BuildTest, ParseOperator, OperatorName, TakesValues,
         CountFits, ValuesFit, UnitFits, Readable, FactorOf;
    if draft.Some? {
      var raws, factor := draft.value.rawValues, FactorOf(lex, draft.value.rawUnit, definition);
      forall operator ensures ParseOperator(draft.value.operator) == Some(operator) <==>
        draft.value.operator == OperatorName(operator)
      {
        OperatorNames(draft.value.operator, operator);
      }
      UnitFitsIff(lex, draft.value.rawUnit, definition);
      AllReadableIff(lex, raws, definition, factor);
      if ParseOperator(draft.value.operator).Some? {
        var operator := ParseOperator(draft.value.operator).value;
        CountFitsIff(operator, |raws|);
        if CanonicalUnit(lex, draft.value.rawUnit, definition.unit).Some? {
          FactorIs(lex, draft.value.rawUnit, definition);
          var parsed := ParseAll(lex, raws, definition, factor);
          if operator in AllowedOperators(definition.key) && CountFits(operator, |raws|) && parsed.Some? {
            BuiltIff(lex, operator, raws, parsed.value, definition, factor);
          }
        }
      }
    }
  }

  // ------------------------------------------------------------ what can be evaluated

  /** A test for facts of this type. */
  predicate Suits(test: Test, valueType: ValueType) {
    match test
    case EqualsTest(_) => true
    case MinTest(_, _) | MaxTest(_, _) | RangeTest(_, _, _, _) => valueType.IntType? || valueType.FloatType?
    case OneOfTest(_) => !valueType.BoolType?
    case PatternTest(_, _) => valueType.StringType?
    case PresentTest | AbsentTest => valueType.BoolType?
  }

  /** Strings are not ordered among numbers. */
  predicate Compares(v: Scalar, test: Test) {
    match test
    case MinTest(bound, _) => v.Str? == bound.Str?
    case MaxTest(bound, _) => v.Str? == bound.Str?
    case RangeTest(lower, upper, _, _) => v.Str? == lower.Str? && v.Str? == upper.Str?
    case _ => true
  }

  /** Of any measurement and any constraint: what is evaluated is a successful measurement of the
      constraint's fact in its unit, by a test for such facts whose operands compare. */
  lemma EvaluatedIff(lex: Lexicon, m: Measurement, c: Constraint)
    ensures Evaluate(lex, m, c) != NotEvaluated <==>
              && m.status.Ok? && m.value.Some? && m.key == c.key && m.unit == c.unit && !m.key.UnknownKey?
              && Suits(c.test, Lookup(m.key).value.valueType) && Compares(m.value.value, c.test)
  {
    CatalogIs(m.key);
    hide Lookup;
  }

  /** What a fact looks like, by its type. */
  lemma CanonicalIff(lex: Lexicon, key: Key, value: Scalar, unit: Option<string>)
    ensures CanonicalValue(lex, key, value, unit) <==>
              && !key.UnknownKey? && unit == Lookup(key).value.unit && HasType(value, Lookup(key).value.valueType)
              && (value.Str? && !key.FrameRate? ==> |value.s| > 0)
              && (Lookup(key).value.valueType.EnumType? ==> value.s == lex.fold(value.s))
              && (key.FrameRate? ==> lex.canonicalRational(value.s))
  {
    CatalogIs(key);
    hide Lookup;
  }
}
