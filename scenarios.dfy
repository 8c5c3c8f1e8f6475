/** Worked cases of the evaluator on concrete guidelines and readings. */
module Scenarios {
  import opened Wrappers
  import opened Text
  import opened Numbers
  import opened Models
  import opened RangeParser
  import opened KeywordMatcher
  import opened HealthEvaluation

  /** The cholesterol guideline `<200`, `200-239`, `>=240`. */
  function CholesterolTotalGuideline(): MetricGuideline {
    MetricGuideline(Some("<200"), Some("200-239"), Some(">=240"))
  }

  /** That guideline is an instance of the three-band shape. */
  lemma CholesterolGuidelineShape()
    ensures ThreeBands(200, 239) == CholesterolTotalGuideline()
  {
    assert IntToString(200) == NatToString(200);
    assert NatToString(200) == "200" by { ThreeDigits(200); DigitChars(); }
    assert NatToString(239) == "239" by { ThreeDigits(239); DigitChars(); }
    assert IntToString(239 + 1) == NatToString(240);
    assert NatToString(240) == "240" by { ThreeDigits(240); DigitChars(); }
    assert "<" + "200" == "<200";
    assert "200" + "-" + "239" == "200-239";
    assert ">=" + "240" == ">=240";
  }

  /** Total cholesterol 250 is a serious issue. */
  lemma CholesterolTotalScenario()
    ensures EvaluateMetric(250.0, Some(CholesterolTotalGuideline())) == Rated(SeriousIssue)
  {
    ThreeBandMetric(250.0, 200, 239);
    CholesterolGuidelineShape();
  }

  /** A value of 239.5 falls in the gap between `200-239` and `>=240`. */
  lemma CholesterolGapScenario()
    ensures EvaluateMetric(239.5, Some(CholesterolTotalGuideline())) == ValueOutOfDefinedRanges
  {
    ThreeBandMetric(239.5, 200, 239);
    CholesterolGuidelineShape();
  }

  lemma IntervalTenToTwenty()
    ensures NatToString(10) + "-" + NatToString(20) == "10-20"
  {
    assert NatToString(10) == "10" by { TwoDigits(10); DigitChars(); }
    assert NatToString(20) == "20" by { TwoDigits(20); DigitChars(); }
  }

  /** No guideline at all is reported differently from a guideline none of
      whose tiers holds the value: 5 against a lone Optimal tier `10-20`. */
  lemma MissingGuidelineScenario()
    ensures EvaluateMetric(5.0, None) == GuidelineMissing
    ensures EvaluateMetric(5.0, Some(MetricGuideline(Some("10-20"), None, None))) == ValueOutOfDefinedRanges
  {
    FiveOutsideTenToTwenty();
  }

  lemma FiveOutsideTenToTwenty()
    ensures !ParseAndCheckRange(5.0, Some("10-20"))
  {
    NaturalInterval(5.0, 10, 20);
    IntervalTenToTwenty();
  }

  lemma SeriousBloodPressureBounds()
    ensures BloodPressureRange(Some(">=" + IntToString(130)), Some(">=" + IntToString(80)))
      == BloodPressureRange(Some(">=130"), Some(">=80"))
  {
    assert IntToString(130) == NatToString(130);
    assert NatToString(130) == "130" by { ThreeDigits(130); DigitChars(); }
    assert IntToString(80) == NatToString(80);
    assert NatToString(80) == "80" by { TwoDigits(80); DigitChars(); }
    assert ">=" + "130" == ">=130";
    assert ">=" + "80" == ">=80";
  }

  /** Systolic 130 with diastolic 70 is a serious issue when the Serious Issue
      tier reads `S: >=130, D: >=80`: the systolic reading alone decides. */
  lemma SystolicAloneScenario(ev: HealthEvaluator)
    requires ev.guidelines.bloodPressure.Some?
    requires ev.guidelines.bloodPressure.value.seriousIssue == BloodPressureRange(Some(">=130"), Some(">=80"))
    ensures EvaluateBloodPressure(ev, 130, 70, ev.guidelines.bloodPressure) == Rated(SeriousIssue)
  {
    SeriousBloodPressureBounds();
    SeriousWhenEitherReadingHigh(ev, 130, 70, 130, 80);
  }

  lemma OptimalBloodPressureBounds()
    ensures BloodPressureRange(Some("<" + IntToString(120)), Some("<" + IntToString(80)))
      == BloodPressureRange(Some("<120"), Some("<80"))
  {
    assert IntToString(120) == NatToString(120);
    assert NatToString(120) == "120" by { ThreeDigits(120); DigitChars(); }
    assert IntToString(80) == NatToString(80);
    assert NatToString(80) == "80" by { TwoDigits(80); DigitChars(); }
    assert "<" + "120" == "<120";
    assert "<" + "80" == "<80";
  }

  /** Systolic 118 with diastolic 85 is not optimal when the Optimal tier
      reads `S: <120, D: <80`: both readings must qualify. */
  lemma DiastolicBlocksOptimalScenario(ev: HealthEvaluator)
    requires ev.guidelines.bloodPressure.Some?
    requires ev.guidelines.bloodPressure.value.optimal == BloodPressureRange(Some("<120"), Some("<80"))
    ensures EvaluateBloodPressure(ev, 118, 85, ev.guidelines.bloodPressure) != Rated(Optimal)
  {
    OptimalBloodPressureBounds();
    OptimalNeedsBothReadingsLow(ev, 118, 85, 120, 80);
  }

  /** A description that starts with "restful sleep" has that phrase as keyword. */
  lemma RestfulSleepKeyword(rest: string)
    ensures GetKeyword("restful sleep" + rest) == "restful sleep"
  {
    var phrase := "restful sleep";
    var d := phrase + rest;
    assert !IsBlank(d) by { assert d[0] == 'r'; }
    assert d == [] + phrase + rest;
    ContainsIgnoreCaseInfix([], phrase, rest, phrase);
    assert KnownPhrases[0] == phrase;
    KeywordIsFirstKnownPhrase(d, 0);
  }

  /** "RESTFUL SLEEP" and "restful sleep" fold to the same lower case. */
  lemma RestfulSleepFolds()
    ensures ToLower("RESTFUL SLEEP") == ToLower("restful sleep")
  {
    var upper, lower := "RESTFUL SLEEP", "restful sleep";
    assert ToLower(upper) == lower by {
      forall i | 0 <= i < |upper| ensures ToLower(upper)[i] == lower[i] {}
    }
    assert ToLower(lower) == lower by {
      forall i | 0 <= i < |lower| ensures ToLower(lower)[i] == lower[i] {}
    }
  }

  /** Matching ignores case: any answer that says "RESTFUL SLEEP" is optimal
      when the Optimal tier reads "restful sleep nightly", whatever the other
      tiers say. */
  lemma RestfulSleepScenario(before: string, after: string, needsAttention: Option<string>, seriousIssue: Option<string>)
    ensures EvaluateQualitative(
      Some(before + "RESTFUL SLEEP" + after),
      Some(QualitativeGuideline(Some("restful sleep nightly"), needsAttention, seriousIssue)))
      == Rated(Optimal)
  {
    var answer := before + "RESTFUL SLEEP" + after;
    assert !IsBlank(answer) by { assert answer[|before|] == 'R'; }
    assert "restful sleep nightly" == "restful sleep" + " nightly";
    RestfulSleepKeyword(" nightly");
    RestfulSleepFolds();
    ContainsIgnoreCaseInfix(before, "RESTFUL SLEEP", after, "restful sleep");
  }
}
