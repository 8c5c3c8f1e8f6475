/** `HealthEvaluator`: rates a client's measurement or answer against a
    three-tier guideline. Numeric metrics take the most benign tier whose
    range matches, blood pressure the most severe, and free-text answers the
    most benign tier whose keyword they mention. */
module HealthEvaluation {
  import opened Wrappers
  import opened Text
  import opened Numbers
  import opened Models
  import opened RangeParser
  import opened KeywordMatcher

  datatype Tier = Optimal | NeedsAttention | SeriousIssue

  /** How severe a tier is: Optimal < Needs Attention < Serious Issue. */
  function Severity(t: Tier): nat {
    match t
    case Optimal => 0
    case NeedsAttention => 1
    case SeriousIssue => 2
  }

  /** What an evaluation returns: a tier, or the reason there is none. */
  datatype Status =
    | Rated(tier: Tier)
    | GuidelineMissing
    | ValueOutOfDefinedRanges
    | BpOutOfDefinedRanges
    | ClientValueMissing
    | QualitativeValueUncategorized

  /** The text the evaluator returns for a status. */
  function Label(s: Status): string {
    match s
    case Rated(Optimal) => "Optimal"
    case Rated(NeedsAttention) => "Needs Attention"
    case Rated(SeriousIssue) => "Serious Issue"
    case GuidelineMissing => "N/A - Guideline Missing"
    case ValueOutOfDefinedRanges => "N/A - Value Out of Defined Ranges"
    case BpOutOfDefinedRanges => "N/A - BP Out of Defined Ranges"
    case ClientValueMissing => "N/A - Client Value Missing"
    case QualitativeValueUncategorized => "N/A - Qualitative Value Uncategorized"
  }

  /** No two statuses share a label, so a report's text determines the status. */
  lemma LabelInjective(s: Status, t: Status)
    ensures Label(s) == Label(t) ==> s == t
  {
  }

  /** The evaluator holds the guidelines it was built with. */
  datatype HealthEvaluator = HealthEvaluator(guidelines: MedicalGuidelines)

  /** `new HealthEvaluator(guidelines)`: `None` stands for the
      `ArgumentNullException` thrown on null guidelines. */
  function NewHealthEvaluator(guidelines: Option<MedicalGuidelines>): (r: Option<HealthEvaluator>)
    ensures r.Some? <==> guidelines.Some?
    ensures r.Some? ==> r.value.guidelines == guidelines.value
  {
    match guidelines
    case None => None
    case Some(g) => Some(HealthEvaluator(g))
  }

  // ---------------------------------------------------------------------------
  // Numeric metrics

  function MetricTier(g: MetricGuideline, t: Tier): Option<string> {
    match t
    case Optimal => g.optimal
    case NeedsAttention => g.needsAttention
    case SeriousIssue => g.seriousIssue
  }

  predicate MetricMatches(value: real, g: MetricGuideline, t: Tier) {
    ParseAndCheckRange(value, MetricTier(g, t))
  }

  /** `EvaluateMetric`: the most benign tier whose range holds the value. */
  function EvaluateMetric(value: real, guideline: Option<MetricGuideline>): (s: Status)
    ensures s == GuidelineMissing <==> guideline.None?
    ensures s == Rated(Optimal) <==>
      guideline.Some? && MetricMatches(value, guideline.value, Optimal)
    ensures s == Rated(NeedsAttention) <==>
      && guideline.Some?
      && !MetricMatches(value, guideline.value, Optimal)
      && MetricMatches(value, guideline.value, NeedsAttention)
    ensures s == Rated(SeriousIssue) <==>
      && guideline.Some?
      && !MetricMatches(value, guideline.value, Optimal)
      && !MetricMatches(value, guideline.value, NeedsAttention)
      && MetricMatches(value, guideline.value, SeriousIssue)
    ensures s == ValueOutOfDefinedRanges <==>
      && guideline.Some?
      && !MetricMatches(value, guideline.value, Optimal)
      && !MetricMatches(value, guideline.value, NeedsAttention)
      && !MetricMatches(value, guideline.value, SeriousIssue)
  {
    match guideline
    case None => GuidelineMissing
    case Some(g) =>
      if MetricMatches(value, g, Optimal) then Rated(Optimal)
      else if MetricMatches(value, g, NeedsAttention) then Rated(NeedsAttention)
      else if MetricMatches(value, g, SeriousIssue) then Rated(SeriousIssue)
      else ValueOutOfDefinedRanges
  }

  // ---------------------------------------------------------------------------
  // Blood pressure

  function BpTier(g: BloodPressureGuideline, t: Tier): BloodPressureRange {
    match t
    case Optimal => g.optimal
    case NeedsAttention => g.needsAttention
    case SeriousIssue => g.seriousIssue
  }

  /** `ParseAndCheckBpRange` on the range of the evaluator's own tier `tier`:
      both readings must match, except for Serious Issue where either one
      suffices; a blank systolic or diastolic specification never matches. */
  function ParseAndCheckBpRange(systolic: int, diastolic: int, range: BloodPressureRange, tier: Tier): (r: bool)
    ensures r ==> !IsNullOrWhiteSpace(range.systolic) && !IsNullOrWhiteSpace(range.diastolic)
    ensures tier == SeriousIssue && r <==>
      && tier == SeriousIssue
      && !IsNullOrWhiteSpace(range.systolic) && !IsNullOrWhiteSpace(range.diastolic)
      && (ParseAndCheckRange(systolic as real, range.systolic) || ParseAndCheckRange(diastolic as real, range.diastolic))
    ensures tier != SeriousIssue && r <==>
      && tier != SeriousIssue
      && ParseAndCheckRange(systolic as real, range.systolic) && ParseAndCheckRange(diastolic as real, range.diastolic)
  {
    if IsNullOrWhiteSpace(range.systolic) || IsNullOrWhiteSpace(range.diastolic) then false
    else
      var systolicMatch := ParseAndCheckRange(systolic as real, range.systolic);
      var diastolicMatch := ParseAndCheckRange(diastolic as real, range.diastolic);
      match tier
      case Optimal => systolicMatch && diastolicMatch
      case NeedsAttention => systolicMatch && diastolicMatch
      case SeriousIssue => systolicMatch || diastolicMatch
  }

  predicate BpMatches(systolic: int, diastolic: int, g: BloodPressureGuideline, t: Tier) {
    ParseAndCheckBpRange(systolic, diastolic, BpTier(g, t), t)
  }

  /** `EvaluateBloodPressure`: the most severe tier whose ranges match. The
      evaluator tells its tiers apart by identity, so the guideline must be
      the evaluator's own, as it is in every call the program makes. */
  function EvaluateBloodPressure(ev: HealthEvaluator, systolic: int, diastolic: int, guideline: Option<BloodPressureGuideline>): (s: Status)
    requires guideline == ev.guidelines.bloodPressure
    ensures s == GuidelineMissing <==> guideline.None?
    ensures s == Rated(SeriousIssue) <==>
      guideline.Some? && BpMatches(systolic, diastolic, guideline.value, SeriousIssue)
    ensures s == Rated(NeedsAttention) <==>
      && guideline.Some?
      && !BpMatches(systolic, diastolic, guideline.value, SeriousIssue)
      && BpMatches(systolic, diastolic, guideline.value, NeedsAttention)
    ensures s == Rated(Optimal) <==>
      && guideline.Some?
      && !BpMatches(systolic, diastolic, guideline.value, SeriousIssue)
      && !BpMatches(systolic, diastolic, guideline.value, NeedsAttention)
      && BpMatches(systolic, diastolic, guideline.value, Optimal)
    ensures s == BpOutOfDefinedRanges <==>
      && guideline.Some?
      && !BpMatches(systolic, diastolic, guideline.value, SeriousIssue)
      && !BpMatches(systolic, diastolic, guideline.value, NeedsAttention)
      && !BpMatches(systolic, diastolic, guideline.value, Optimal)
  {
    match guideline
    case None => GuidelineMissing
    case Some(g) =>
      if BpMatches(systolic, diastolic, g, SeriousIssue) then Rated(SeriousIssue)
      else if BpMatches(systolic, diastolic, g, NeedsAttention) then Rated(NeedsAttention)
      else if BpMatches(systolic, diastolic, g, Optimal) then Rated(Optimal)
      else BpOutOfDefinedRanges
  }

  // ---------------------------------------------------------------------------
  // Qualitative answers

  function QualitativeTier(g: QualitativeGuideline, t: Tier): Option<string> {
    match t
    case Optimal => g.optimal
    case NeedsAttention => g.needsAttention
    case SeriousIssue => g.seriousIssue
  }

  /** A present tier whose keyword the answer mentions, ignoring case. */
  predicate KeywordMatches(answer: string, g: QualitativeGuideline, t: Tier) {
    QualitativeTier(g, t).Some? && ContainsIgnoreCase(answer, GetKeyword(QualitativeTier(g, t).value))
  }

  /** `EvaluateQualitative`: the most benign tier whose keyword the answer
      mentions; a missing guideline is reported before a missing answer. */
  function EvaluateQualitative(clientValue: Option<string>, guideline: Option<QualitativeGuideline>): (s: Status)
    ensures s == GuidelineMissing <==> guideline.None?
    ensures s == ClientValueMissing <==> guideline.Some? && IsNullOrWhiteSpace(clientValue)
    ensures s == Rated(Optimal) <==>
      && guideline.Some? && !IsNullOrWhiteSpace(clientValue)
      && KeywordMatches(clientValue.value, guideline.value, Optimal)
    ensures s == Rated(NeedsAttention) <==>
      && guideline.Some? && !IsNullOrWhiteSpace(clientValue)
      && !KeywordMatches(clientValue.value, guideline.value, Optimal)
      && KeywordMatches(clientValue.value, guideline.value, NeedsAttention)
    ensures s == Rated(SeriousIssue) <==>
      && guideline.Some? && !IsNullOrWhiteSpace(clientValue)
      && !KeywordMatches(clientValue.value, guideline.value, Optimal)
      && !KeywordMatches(clientValue.value, guideline.value, NeedsAttention)
      && KeywordMatches(clientValue.value, guideline.value, SeriousIssue)
    ensures s == QualitativeValueUncategorized <==>
      && guideline.Some? && !IsNullOrWhiteSpace(clientValue)
      && !KeywordMatches(clientValue.value, guideline.value, Optimal)
      && !KeywordMatches(clientValue.value, guideline.value, NeedsAttention)
      && !KeywordMatches(clientValue.value, guideline.value, SeriousIssue)
  {
    match guideline
    case None => GuidelineMissing
    case Some(g) =>
      if IsNullOrWhiteSpace(clientValue) then ClientValueMissing
      else
        var answer := clientValue.value;
        if KeywordMatches(answer, g, Optimal) then Rated(Optimal)
        else if KeywordMatches(answer, g, NeedsAttention) then Rated(NeedsAttention)
        else if KeywordMatches(answer, g, SeriousIssue) then Rated(SeriousIssue)
        else QualitativeValueUncategorized
  }

  // ---------------------------------------------------------------------------
  // Properties

  /** Overlapping tiers resolve to the more benign one: whenever some tier's
      range holds the value, the metric is rated at that tier or a more benign
      one. */
  lemma MetricMostBenign(value: real, g: MetricGuideline, t: Tier)
    requires MetricMatches(value, g, t)
    ensures EvaluateMetric(value, Some(g)).Rated?
    ensures Severity(EvaluateMetric(value, Some(g)).tier) <= Severity(t)
  {
  }

  /** Blood pressure resolves the other way: whenever some tier matches, the
      reading is rated at that tier or a more severe one. */
  lemma BloodPressureMostSevere(ev: HealthEvaluator, systolic: int, diastolic: int, t: Tier)
    requires ev.guidelines.bloodPressure.Some?
    requires BpMatches(systolic, diastolic, ev.guidelines.bloodPressure.value, t)
    ensures EvaluateBloodPressure(ev, systolic, diastolic, ev.guidelines.bloodPressure).Rated?
    ensures Severity(EvaluateBloodPressure(ev, systolic, diastolic, ev.guidelines.bloodPressure).tier) >= Severity(t)
  {
  }

  /** An operator followed by a rendered integer is never blank. */
  lemma BoundNotBlank(op: Comparison, n: int)
    ensures !IsNullOrWhiteSpace(Some(Operator(op) + IntToString(n)))
  {
    var s := Operator(op) + IntToString(n);
    assert !IsWhiteSpace(s[0]);
  }

  /** With a Serious Issue tier of the form `S: >=a, D: >=b`, a reading is a
      serious issue exactly when either its systolic value reaches `a` or its
      diastolic value reaches `b`; one high reading is enough. */
  lemma SeriousWhenEitherReadingHigh(ev: HealthEvaluator, systolic: int, diastolic: int, a: int, b: int)
    requires ev.guidelines.bloodPressure.Some?
    requires ev.guidelines.bloodPressure.value.seriousIssue ==
      BloodPressureRange(Some(">=" + IntToString(a)), Some(">=" + IntToString(b)))
    ensures EvaluateBloodPressure(ev, systolic, diastolic, ev.guidelines.bloodPressure) == Rated(SeriousIssue)
      <==> systolic >= a || diastolic >= b
  {
    var g := ev.guidelines.bloodPressure.value;
    SeriousRangeEitherHigh(systolic, diastolic, a, b);
    assert BpMatches(systolic, diastolic, g, SeriousIssue) <==> systolic >= a || diastolic >= b;
  }

  /** The range `S: >=a, D: >=b` read as the Serious Issue tier. */
  lemma SeriousRangeEitherHigh(systolic: int, diastolic: int, a: int, b: int)
    ensures ParseAndCheckBpRange(systolic, diastolic,
      BloodPressureRange(Some(">=" + IntToString(a)), Some(">=" + IntToString(b))), SeriousIssue)
      <==> systolic >= a || diastolic >= b
  {
    var range := BloodPressureRange(Some(">=" + IntToString(a)), Some(">=" + IntToString(b)));
    BoundNotBlank(AtLeast, a);
    BoundNotBlank(AtLeast, b);
    assert ParseAndCheckRange(systolic as real, range.systolic) <==> systolic >= a by {
      BoundForm(systolic as real, AtLeast, a);
    }
    assert ParseAndCheckRange(diastolic as real, range.diastolic) <==> diastolic >= b by {
      BoundForm(diastolic as real, AtLeast, b);
    }
  }

  /** With an Optimal tier of the form `S: <a, D: <b`, a reading rated
      optimal has both values below their bounds; and a reading that matches
      neither of the more severe tiers is optimal exactly when both are. */
  lemma OptimalNeedsBothReadingsLow(ev: HealthEvaluator, systolic: int, diastolic: int, a: int, b: int)
    requires ev.guidelines.bloodPressure.Some?
    requires ev.guidelines.bloodPressure.value.optimal ==
      BloodPressureRange(Some("<" + IntToString(a)), Some("<" + IntToString(b)))
    ensures EvaluateBloodPressure(ev, systolic, diastolic, ev.guidelines.bloodPressure) == Rated(Optimal)
      ==> systolic < a && diastolic < b
    ensures
      && !BpMatches(systolic, diastolic, ev.guidelines.bloodPressure.value, SeriousIssue)
      && !BpMatches(systolic, diastolic, ev.guidelines.bloodPressure.value, NeedsAttention)
      ==> (EvaluateBloodPressure(ev, systolic, diastolic, ev.guidelines.bloodPressure) == Rated(Optimal)
           <==> systolic < a && diastolic < b)
  {
    var g := ev.guidelines.bloodPressure.value;
    OptimalRangeBothLow(systolic, diastolic, a, b);
    assert BpMatches(systolic, diastolic, g, Optimal) <==> systolic < a && diastolic < b;
  }

  /** The range `S: <a, D: <b` read as the Optimal tier. */
  lemma OptimalRangeBothLow(systolic: int, diastolic: int, a: int, b: int)
    ensures ParseAndCheckBpRange(systolic, diastolic,
      BloodPressureRange(Some("<" + IntToString(a)), Some("<" + IntToString(b))), Optimal)
      <==> systolic < a && diastolic < b
  {
    var range := BloodPressureRange(Some("<" + IntToString(a)), Some("<" + IntToString(b)));
    BoundNotBlank(Below, a);
    BoundNotBlank(Below, b);
    assert ParseAndCheckRange(systolic as real, range.systolic) <==> systolic < a by {
      BoundForm(systolic as real, Below, a);
    }
    assert ParseAndCheckRange(diastolic as real, range.diastolic) <==> diastolic < b by {
      BoundForm(diastolic as real, Below, b);
    }
  }

  /** A guideline of the usual three-band shape `<lo`, `lo-hi`, `>=hi+1` rates
      every value below `lo` optimal, every value from `lo` to `hi` as needing
      attention and every value from `hi + 1` up as a serious issue; a value
      strictly between `hi` and `hi + 1` falls between the bands. */
  lemma ThreeBandMetric(value: real, lo: nat, hi: nat)
    ensures var g := ThreeBands(lo, hi);
      EvaluateMetric(value, Some(g)) ==
        if value < lo as real then Rated(Optimal)
        else if value <= hi as real then Rated(NeedsAttention)
        else if value >= (hi + 1) as real then Rated(SeriousIssue)
        else ValueOutOfDefinedRanges
  {
    ThreeBandMatches(value, lo, hi);
  }

  /** The guideline `<lo`, `lo-hi`, `>=hi+1`. */
  function ThreeBands(lo: nat, hi: nat): MetricGuideline {
    MetricGuideline(
      Some("<" + IntToString(lo)),
      Some(NatToString(lo) + "-" + NatToString(hi)),
      Some(">=" + IntToString(hi + 1)))
  }

  /** Each band of `ThreeBands` read as the arithmetic it denotes. */
  lemma ThreeBandMatches(value: real, lo: nat, hi: nat)
    ensures MetricMatches(value, ThreeBands(lo, hi), Optimal) <==> value < lo as real
    ensures MetricMatches(value, ThreeBands(lo, hi), NeedsAttention) <==> lo as real <= value <= hi as real
    ensures MetricMatches(value, ThreeBands(lo, hi), SeriousIssue) <==> value >= (hi + 1) as real
  {
    BoundForm(value, Below, lo);
    NaturalInterval(value, lo, hi);
    BoundForm(value, AtLeast, hi + 1);
  }

  /** A non-blank answer that mentions some present tier's keyword is rated at
      that tier or a more benign one. */
  lemma QualitativeMostBenign(answer: string, g: QualitativeGuideline, t: Tier)
    requires !IsBlank(answer)
    requires KeywordMatches(answer, g, t)
    ensures EvaluateQualitative(Some(answer), Some(g)).Rated?
    ensures Severity(EvaluateQualitative(Some(answer), Some(g)).tier) <= Severity(t)
  {
  }

  /** A tier whose description is blank has the empty keyword, so it matches
      every non-blank answer: no answer is rated worse than that tier. */
  lemma BlankDescriptionMatchesEveryAnswer(answer: string, g: QualitativeGuideline, t: Tier)
    requires !IsBlank(answer)
    requires QualitativeTier(g, t).Some? && IsBlank(QualitativeTier(g, t).value)
    ensures EvaluateQualitative(Some(answer), Some(g)).Rated?
    ensures Severity(EvaluateQualitative(Some(answer), Some(g)).tier) <= Severity(t)
  {
    BlankKeyword(QualitativeTier(g, t).value, answer);
    QualitativeMostBenign(answer, g, t);
  }

  /** An answer that repeats a tier's non-blank description word for word is
      rated at that tier or a more benign one. */
  lemma EchoedDescription(g: QualitativeGuideline, t: Tier)
    requires QualitativeTier(g, t).Some? && !IsBlank(QualitativeTier(g, t).value)
    ensures var answer := QualitativeTier(g, t).value;
      && EvaluateQualitative(Some(answer), Some(g)).Rated?
      && Severity(EvaluateQualitative(Some(answer), Some(g)).tier) <= Severity(t)
  {
    var answer := QualitativeTier(g, t).value;
    KeywordOccursInDescription(answer);
    QualitativeMostBenign(answer, g, t);
  }
}
