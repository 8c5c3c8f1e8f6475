/** The report assembly of `ReportController.GenerateClientReport`: once the
    client and the guidelines are at hand, a report object is created and its
    two dictionaries are filled one measurement at a time, each measurement
    only when the client's record holds the data for it. */
module ReportAssembly {
  import opened Wrappers
  import opened Text
  import opened Numbers
  import opened Models
  import opened HealthEvaluation

  /** The keys of the numeric dictionary. */
  const HealthMetricNames: set<string> :=
    {"CholesterolTotal", "CholesterolHdl", "CholesterolLdl", "BloodSugar", "BloodPressure"}

  /** The keys of the questionnaire dictionary. */
  const QualitativeMetricNames: set<string> :=
    {"ExerciseWeeklyMinutes", "SleepQuality", "StressLevels", "DietQuality"}

  /** `ClientHealthReport`: the client's identity, the two result dictionaries
      and an overall assessment that nothing fills in. */
  class ClientHealthReport {
    var clientId: Option<string>
    var clientName: Option<string>
    var healthMetrics: map<string, MetricResult>
    var qualitativeMetrics: map<string, QualitativeResult>
    var overallAssessment: Option<string>

    /** The object initializer: the identity is copied, both dictionaries
        start empty, and the assessment is left null. */
    constructor(id: Option<string>, name: Option<string>)
      ensures clientId == id && clientName == name
      ensures healthMetrics == map[] && qualitativeMetrics == map[]
      ensures overallAssessment == None
    {
      clientId := id;
      clientName := name;
      healthMetrics := map[];
      qualitativeMetrics := map[];
      overallAssessment := None;
    }

    /** `HealthMetrics[key] = result`: adds or replaces one numeric entry. */
    method SetHealthMetric(key: string, result: MetricResult)
      modifies this
      ensures healthMetrics == old(healthMetrics)[key := result]
      ensures qualitativeMetrics == old(qualitativeMetrics)
      ensures clientId == old(clientId) && clientName == old(clientName)
      ensures overallAssessment == old(overallAssessment)
    {
      healthMetrics := healthMetrics[key := result];
    }

    /** `QualitativeMetrics[key] = result`: adds or replaces one questionnaire
        entry. */
    method SetQualitativeMetric(key: string, result: QualitativeResult)
      modifies this
      ensures qualitativeMetrics == old(qualitativeMetrics)[key := result]
      ensures healthMetrics == old(healthMetrics)
      ensures clientId == old(clientId) && clientName == old(clientName)
      ensures overallAssessment == old(overallAssessment)
    {
      qualitativeMetrics := qualitativeMetrics[key := result];
    }
  }

  // ---------------------------------------------------------------------------
  // The parts of a client record, reached with `?.`

  function BloodworkOf(client: Client): Option<Bloodwork> {
    match client.medicalData
    case Some(m) => m.bloodwork
    case None => None
  }

  function CholesterolOf(client: Client): Option<Cholesterol> {
    match BloodworkOf(client)
    case Some(b) => b.cholesterol
    case None => None
  }

  function BloodPressureOf(client: Client): Option<BloodPressure> {
    match BloodworkOf(client)
    case Some(b) => b.bloodPressure
    case None => None
  }

  function QuestionnaireOf(client: Client): Option<Questionnaire> {
    match client.medicalData
    case Some(m) => m.questionnaire
    case None => None
  }

  /** The guideline sections the report dereferences for this client are all
      present; a missing one would throw a null-reference exception. */
  predicate GuidelinesCover(client: Client, guidelines: MedicalGuidelines) {
    && (CholesterolOf(client).Some? ==>
          && guidelines.cholesterol.Some?
          && guidelines.cholesterol.value.total.Some?
          && guidelines.cholesterol.value.hdl.Some?
          && guidelines.cholesterol.value.ldl.Some?)
    && (BloodworkOf(client).Some? ==> guidelines.bloodSugar.Some?)
    && (BloodPressureOf(client).Some? ==> guidelines.bloodPressure.Some?)
    && (QuestionnaireOf(client).Some? ==>
          && guidelines.exerciseWeeklyMinutes.Some?
          && guidelines.sleepQuality.Some?
          && guidelines.stressLevels.Some?
          && guidelines.dietQuality.Some?)
  }

  // ---------------------------------------------------------------------------
  // Rendering the guideline ranges

  /** The three tiers joined by `/`, a null tier rendering as nothing. */
  function TierSummary(optimal: Option<string>, needsAttention: Option<string>, seriousIssue: Option<string>): string {
    OrEmpty(optimal) + "/" + OrEmpty(needsAttention) + "/" + OrEmpty(seriousIssue)
  }

  function MetricRange(g: MetricGuideline): string {
    TierSummary(g.optimal, g.needsAttention, g.seriousIssue)
  }

  function QualitativeRange(g: QualitativeGuideline): string {
    TierSummary(g.optimal, g.needsAttention, g.seriousIssue)
  }

  /** One tier of the blood-pressure range: `Name (S:…, D:…)`. */
  function TierText(name: string, range: BloodPressureRange): string {
    name + " (S:" + OrEmpty(range.systolic) + ", D:" + OrEmpty(range.diastolic) + ")"
  }

  /** The blood-pressure range: both readings of each tier, most benign first. */
  function BloodPressureRangeText(g: BloodPressureGuideline): string {
    TierText("Optimal", g.optimal) + " / "
    + TierText("Needs Attention", g.needsAttention) + " / "
    + TierText("Serious Issue", g.seriousIssue)
  }

  /** When no tier holds a `/`, the summary splits back into the three tiers. */
  lemma TierSummaryRoundTrip(optimal: Option<string>, needsAttention: Option<string>, seriousIssue: Option<string>)
    requires '/' !in OrEmpty(optimal) && '/' !in OrEmpty(needsAttention) && '/' !in OrEmpty(seriousIssue)
    ensures Split(TierSummary(optimal, needsAttention, seriousIssue), '/')
      == [OrEmpty(optimal), OrEmpty(needsAttention), OrEmpty(seriousIssue)]
  {
    var o, n, s := OrEmpty(optimal), OrEmpty(needsAttention), OrEmpty(seriousIssue);
    JoinThree(o, n, s);
    assert '/' !in [o, n, s][0] && '/' !in [o, n, s][1] && '/' !in [o, n, s][2];
    SplitJoin([o, n, s], '/');
  }

  /** Joining three parts with `/` puts the separator between each pair. */
  lemma JoinThree(o: string, n: string, s: string)
    ensures Join([o, n, s], "/") == o + "/" + n + "/" + s
  {
    assert Join([n, s], "/") == n + "/" + s by {
      JoinCons(n, [s], "/");
      assert [n] + [s] == [n, s];
    }
    JoinCons(o, [n, s], "/");
    assert [o] + [n, s] == [o, n, s];
  }

  /** A tier's rendering shows both of its specifications. */
  lemma TierTextShowsSpecs(name: string, range: BloodPressureRange)
    ensures Contains(TierText(name, range), OrEmpty(range.systolic))
    ensures Contains(TierText(name, range), OrEmpty(range.diastolic))
  {
    var sys, dia := OrEmpty(range.systolic), OrEmpty(range.diastolic);
    assert TierText(name, range) == (name + " (S:") + sys + (", D:" + dia + ")");
    ContainsInfix(name + " (S:", sys, ", D:" + dia + ")");
    assert TierText(name, range) == (name + " (S:" + sys + ", D:") + dia + ")";
    ContainsInfix(name + " (S:" + sys + ", D:", dia, ")");
  }

  /** Every systolic and diastolic specification appears in the rendered
      blood-pressure range. */
  lemma BloodPressureRangeShowsEverySpec(g: BloodPressureGuideline, t: Tier)
    ensures Contains(BloodPressureRangeText(g), OrEmpty(BpTier(g, t).systolic))
    ensures Contains(BloodPressureRangeText(g), OrEmpty(BpTier(g, t).diastolic))
  {
    var o := TierText("Optimal", g.optimal);
    var n := TierText("Needs Attention", g.needsAttention);
    var s := TierText("Serious Issue", g.seriousIssue);
    var range := BpTier(g, t);
    var sys, dia := OrEmpty(range.systolic), OrEmpty(range.diastolic);
    match t
    case Optimal =>
      TierTextShowsSpecs("Optimal", range);
      ShownInFirst(o, n, s, sys);
      ShownInFirst(o, n, s, dia);
    case NeedsAttention =>
      TierTextShowsSpecs("Needs Attention", range);
      ShownInMiddle(o, n, s, sys);
      ShownInMiddle(o, n, s, dia);
    case SeriousIssue =>
      TierTextShowsSpecs("Serious Issue", range);
      ShownInLast(o, n, s, sys);
      ShownInLast(o, n, s, dia);
  }

  lemma ShownInFirst(o: string, n: string, s: string, x: string)
    requires Contains(o, x)
    ensures Contains(o + " / " + n + " / " + s, x)
  {
    assert [] + o + (" / " + n + " / " + s) == o + " / " + n + " / " + s;
    ContainsWithin([], o, " / " + n + " / " + s, x);
  }

  lemma ShownInMiddle(o: string, n: string, s: string, x: string)
    requires Contains(n, x)
    ensures Contains(o + " / " + n + " / " + s, x)
  {
    assert (o + " / ") + n + (" / " + s) == o + " / " + n + " / " + s;
    ContainsWithin(o + " / ", n, " / " + s, x);
  }

  lemma ShownInLast(o: string, n: string, s: string, x: string)
    requires Contains(s, x)
    ensures Contains(o + " / " + n + " / " + s, x)
  {
    assert (o + " / " + n + " / ") + s + [] == o + " / " + n + " / " + s;
    ContainsWithin(o + " / " + n + " / ", s, [], x);
  }

  // ---------------------------------------------------------------------------
  // Report entries

  /** A numeric entry: the value, its rating and the rendered range. */
  function MetricEntry(value: real, guideline: Option<MetricGuideline>): (r: MetricResult)
    requires guideline.Some?
    ensures r.clientValue == value
    ensures r.status == Label(EvaluateMetric(value, guideline))
    ensures r.status != Label(GuidelineMissing)
    ensures r.guidelineRange == MetricRange(guideline.value)
  {
    var status := EvaluateMetric(value, guideline);
    LabelInjective(status, GuidelineMissing);
    MetricResult(value, Label(status), MetricRange(guideline.value))
  }

  /** The blood-pressure entry: the systolic reading stands for the pair. */
  function BloodPressureEntry(ev: HealthEvaluator, reading: BloodPressure): (r: MetricResult)
    requires ev.guidelines.bloodPressure.Some?
    ensures r.clientValue == reading.systolic as real
    ensures r.status == Label(EvaluateBloodPressure(ev, reading.systolic, reading.diastolic, ev.guidelines.bloodPressure))
    ensures r.status != Label(GuidelineMissing)
    ensures r.guidelineRange == BloodPressureRangeText(ev.guidelines.bloodPressure.value)
  {
    var guideline := ev.guidelines.bloodPressure;
    var status := EvaluateBloodPressure(ev, reading.systolic, reading.diastolic, guideline);
    LabelInjective(status, GuidelineMissing);
    MetricResult(reading.systolic as real, Label(status), BloodPressureRangeText(guideline.value))
  }

  /** The exercise entry: the minutes are rated as a number and stored as
      their decimal rendering, which reads back as the same number. */
  function ExerciseEntry(minutes: int, guideline: Option<MetricGuideline>): (r: QualitativeResult)
    requires guideline.Some?
    ensures r.clientValue.Some? && ParseNumber(r.clientValue.value) == Some(minutes as real)
    ensures r.status == Label(EvaluateMetric(minutes as real, guideline))
    ensures r.status != Label(GuidelineMissing)
    ensures r.guidelineRange == MetricRange(guideline.value)
  {
    var status := EvaluateMetric(minutes as real, guideline);
    LabelInjective(status, GuidelineMissing);
    ParseIntToString(minutes);
    QualitativeResult(Some(IntToString(minutes)), Label(status), MetricRange(guideline.value))
  }

  /** A free-text entry: the answer as given, its rating and the rendered
      tiers. */
  function AnswerEntry(answer: Option<string>, guideline: Option<QualitativeGuideline>): (r: QualitativeResult)
    requires guideline.Some?
    ensures r.clientValue == answer
    ensures r.status == Label(EvaluateQualitative(answer, guideline))
    ensures r.status != Label(GuidelineMissing)
    ensures IsNullOrWhiteSpace(answer) <==> r.status == Label(ClientValueMissing)
    ensures r.guidelineRange == QualitativeRange(guideline.value)
  {
    var status := EvaluateQualitative(answer, guideline);
    LabelInjective(status, GuidelineMissing);
    LabelInjective(status, ClientValueMissing);
    QualitativeResult(answer, Label(status), QualitativeRange(guideline.value))
  }

  // ---------------------------------------------------------------------------
  // Assembly

  /** The numeric dictionary the report ends with: the three guarded blocks
      of the controller, in order. */
  function HealthMetricsFor(client: Client, guidelines: MedicalGuidelines): map<string, MetricResult>
    requires GuidelinesCover(client, guidelines)
  {
    WithBloodPressure(client, guidelines, WithBloodSugar(client, guidelines, WithCholesterol(client, guidelines, map[])))
  }

  /** The cholesterol block: three entries when the client has cholesterol. */
  function WithCholesterol(client: Client, guidelines: MedicalGuidelines, m: map<string, MetricResult>): map<string, MetricResult>
    requires GuidelinesCover(client, guidelines)
  {
    if CholesterolOf(client).Some? then
      var c, g := CholesterolOf(client).value, guidelines.cholesterol.value;
      m["CholesterolTotal" := MetricEntry(c.total, g.total)]
       ["CholesterolHdl" := MetricEntry(c.hdl, g.hdl)]
       ["CholesterolLdl" := MetricEntry(c.ldl, g.ldl)]
    else m
  }

  /** The blood-sugar block: one entry when the client has bloodwork. */
  function WithBloodSugar(client: Client, guidelines: MedicalGuidelines, m: map<string, MetricResult>): map<string, MetricResult>
    requires GuidelinesCover(client, guidelines)
  {
    if BloodworkOf(client).Some? then
      m["BloodSugar" := MetricEntry(BloodworkOf(client).value.bloodSugar as real, guidelines.bloodSugar)]
    else m
  }

  /** The blood-pressure block: one entry when the client has a reading. */
  function WithBloodPressure(client: Client, guidelines: MedicalGuidelines, m: map<string, MetricResult>): map<string, MetricResult>
    requires GuidelinesCover(client, guidelines)
  {
    if BloodPressureOf(client).Some? then
      m["BloodPressure" := BloodPressureEntry(HealthEvaluator(guidelines), BloodPressureOf(client).value)]
    else m
  }

  /** The questionnaire dictionary the report ends with. */
  function QualitativeMetricsFor(client: Client, guidelines: MedicalGuidelines): map<string, QualitativeResult>
    requires GuidelinesCover(client, guidelines)
  {
    if QuestionnaireOf(client).Some? then
      var q := QuestionnaireOf(client).value;
      map["ExerciseWeeklyMinutes" := ExerciseEntry(q.exerciseWeeklyMinutes, guidelines.exerciseWeeklyMinutes)]
         ["SleepQuality" := AnswerEntry(q.sleepQuality, guidelines.sleepQuality)]
         ["StressLevels" := AnswerEntry(q.stressLevels, guidelines.stressLevels)]
         ["DietQuality" := AnswerEntry(q.dietQuality, guidelines.dietQuality)]
    else map[]
  }

  /** The numeric keys are the five known names, each present exactly when
      the client has the data it rates: the three cholesterol entries with
      cholesterol, blood sugar with any bloodwork, blood pressure with a
      reading. */
  lemma HealthMetricKeys(client: Client, guidelines: MedicalGuidelines)
    requires GuidelinesCover(client, guidelines)
    ensures var m := HealthMetricsFor(client, guidelines);
      && m.Keys <= HealthMetricNames
      && ("CholesterolTotal" in m <==> CholesterolOf(client).Some?)
      && ("CholesterolHdl" in m <==> CholesterolOf(client).Some?)
      && ("CholesterolLdl" in m <==> CholesterolOf(client).Some?)
      && ("BloodSugar" in m <==> BloodworkOf(client).Some?)
      && ("BloodPressure" in m <==> BloodPressureOf(client).Some?)
  {
  }

  /** Each cholesterol entry holds the client's own reading, the evaluator's
      rating of it against the matching guideline, and that guideline's
      rendered range. */
  lemma CholesterolValues(client: Client, guidelines: MedicalGuidelines)
    requires GuidelinesCover(client, guidelines)
    requires CholesterolOf(client).Some?
    ensures var m, c, g := HealthMetricsFor(client, guidelines), CholesterolOf(client).value, guidelines.cholesterol.value;
      && m["CholesterolTotal"] == MetricResult(c.total, Label(EvaluateMetric(c.total, g.total)), MetricRange(g.total.value))
      && m["CholesterolHdl"] == MetricResult(c.hdl, Label(EvaluateMetric(c.hdl, g.hdl)), MetricRange(g.hdl.value))
      && m["CholesterolLdl"] == MetricResult(c.ldl, Label(EvaluateMetric(c.ldl, g.ldl)), MetricRange(g.ldl.value))
  {
    var c, g := CholesterolOf(client).value, guidelines.cholesterol.value;
    CholesterolEntries(client, guidelines);
    var total, hdl, ldl := MetricEntry(c.total, g.total), MetricEntry(c.hdl, g.hdl), MetricEntry(c.ldl, g.ldl);
  }

  /** The cholesterol keys hold the cholesterol entries; the later insertions
      use other keys. */
  lemma CholesterolEntries(client: Client, guidelines: MedicalGuidelines)
    requires GuidelinesCover(client, guidelines)
    requires CholesterolOf(client).Some?
    ensures var m, c, g := HealthMetricsFor(client, guidelines), CholesterolOf(client).value, guidelines.cholesterol.value;
      && m["CholesterolTotal"] == MetricEntry(c.total, g.total)
      && m["CholesterolHdl"] == MetricEntry(c.hdl, g.hdl)
      && m["CholesterolLdl"] == MetricEntry(c.ldl, g.ldl)
  {
    HealthKeysDistinct();
    var c, g := CholesterolOf(client).value, guidelines.cholesterol.value;
    var cholesterol := WithCholesterol(client, guidelines, map[]);
    LaterLayersKeep(client, guidelines, cholesterol, "CholesterolTotal");
    LaterLayersKeep(client, guidelines, cholesterol, "CholesterolHdl");
    LaterLayersKeep(client, guidelines, cholesterol, "CholesterolLdl");
  }

  /** The blood-sugar and blood-pressure blocks leave every other key as it
      was. */
  lemma LaterLayersKeep(client: Client, guidelines: MedicalGuidelines, m: map<string, MetricResult>, key: string)
    requires GuidelinesCover(client, guidelines)
    requires key in m && key != "BloodSugar" && key != "BloodPressure"
    ensures var all := WithBloodPressure(client, guidelines, WithBloodSugar(client, guidelines, m));
      key in all && all[key] == m[key]
  {
  }

  /** The blood-sugar entry holds the reading, its rating against the
      blood-sugar guideline and that guideline's rendered range. */
  lemma BloodSugarValue(client: Client, guidelines: MedicalGuidelines)
    requires GuidelinesCover(client, guidelines)
    requires BloodworkOf(client).Some?
    ensures var sugar := BloodworkOf(client).value.bloodSugar as real;
      HealthMetricsFor(client, guidelines)["BloodSugar"] ==
        MetricResult(sugar, Label(EvaluateMetric(sugar, guidelines.bloodSugar)), MetricRange(guidelines.bloodSugar.value))
  {
    HealthKeysDistinct();
    var entry := MetricEntry(BloodworkOf(client).value.bloodSugar as real, guidelines.bloodSugar);
    assert HealthMetricsFor(client, guidelines)["BloodSugar"] == entry;
  }

  /** The blood-pressure entry shows the systolic reading only, but is rated
      on both readings against the blood-pressure guideline, whose three tiers
      it renders. */
  lemma BloodPressureValue(client: Client, guidelines: MedicalGuidelines)
    requires GuidelinesCover(client, guidelines)
    requires BloodPressureOf(client).Some?
    ensures var reading, ev := BloodPressureOf(client).value, HealthEvaluator(guidelines);
      HealthMetricsFor(client, guidelines)["BloodPressure"] == MetricResult(
        reading.systolic as real,
        Label(EvaluateBloodPressure(ev, reading.systolic, reading.diastolic, guidelines.bloodPressure)),
        BloodPressureRangeText(guidelines.bloodPressure.value))
  {
    var entry := BloodPressureEntry(HealthEvaluator(guidelines), BloodPressureOf(client).value);
    assert HealthMetricsFor(client, guidelines)["BloodPressure"] == entry;
  }

  /** The five numeric keys are pairwise distinct. */
  lemma HealthKeysDistinct()
    ensures "CholesterolTotal" != "CholesterolHdl" && "CholesterolTotal" != "CholesterolLdl"
    ensures "CholesterolHdl" != "CholesterolLdl"
    ensures "CholesterolTotal" != "BloodSugar" && "CholesterolHdl" != "BloodSugar" && "CholesterolLdl" != "BloodSugar"
    ensures "CholesterolTotal" != "BloodPressure" && "CholesterolHdl" != "BloodPressure"
    ensures "CholesterolLdl" != "BloodPressure" && "BloodSugar" != "BloodPressure"
  {
    assert "CholesterolHdl"[11] != "CholesterolLdl"[11];
    assert "BloodSugar"[5] != "BloodPressure"[5];
  }

  /** The four questionnaire keys are pairwise distinct. */
  lemma QualitativeKeysDistinct()
    ensures "ExerciseWeeklyMinutes" != "SleepQuality" && "ExerciseWeeklyMinutes" != "StressLevels"
    ensures "ExerciseWeeklyMinutes" != "DietQuality" && "SleepQuality" != "StressLevels"
    ensures "SleepQuality" != "DietQuality" && "StressLevels" != "DietQuality"
  {
    assert "SleepQuality"[1] != "StressLevels"[1];
  }

  /** The questionnaire keys are all four names when the client answered the
      questionnaire and none otherwise. */
  lemma QualitativeMetricKeys(client: Client, guidelines: MedicalGuidelines)
    requires GuidelinesCover(client, guidelines)
    ensures QualitativeMetricsFor(client, guidelines).Keys ==
      if QuestionnaireOf(client).Some? then QualitativeMetricNames else {}
  {
  }

  /** The exercise entry holds the minutes as a decimal string that reads
      back as the minutes, rated numerically against the exercise guideline,
      whose tiers it renders. */
  lemma ExerciseValue(client: Client, guidelines: MedicalGuidelines)
    requires GuidelinesCover(client, guidelines)
    requires QuestionnaireOf(client).Some?
    ensures var m, q := QualitativeMetricsFor(client, guidelines), QuestionnaireOf(client).value;
      && m["ExerciseWeeklyMinutes"].clientValue.Some?
      && ParseNumber(m["ExerciseWeeklyMinutes"].clientValue.value) == Some(q.exerciseWeeklyMinutes as real)
      && m["ExerciseWeeklyMinutes"].status == Label(EvaluateMetric(q.exerciseWeeklyMinutes as real, guidelines.exerciseWeeklyMinutes))
      && m["ExerciseWeeklyMinutes"].guidelineRange == MetricRange(guidelines.exerciseWeeklyMinutes.value)
  {
    var q := QuestionnaireOf(client).value;
    QuestionnaireEntries(ExerciseEntry(q.exerciseWeeklyMinutes, guidelines.exerciseWeeklyMinutes),
      AnswerEntry(q.sleepQuality, guidelines.sleepQuality), AnswerEntry(q.stressLevels, guidelines.stressLevels),
      AnswerEntry(q.dietQuality, guidelines.dietQuality));
  }

  /** Each free-text entry holds the answer as given, its keyword rating
      against the matching guideline, and that guideline's rendered tiers. */
  lemma AnswerValues(client: Client, guidelines: MedicalGuidelines)
    requires GuidelinesCover(client, guidelines)
    requires QuestionnaireOf(client).Some?
    ensures var m, q := QualitativeMetricsFor(client, guidelines), QuestionnaireOf(client).value;
      && m["SleepQuality"] == QualitativeResult(q.sleepQuality, Label(EvaluateQualitative(q.sleepQuality, guidelines.sleepQuality)), QualitativeRange(guidelines.sleepQuality.value))
      && m["StressLevels"] == QualitativeResult(q.stressLevels, Label(EvaluateQualitative(q.stressLevels, guidelines.stressLevels)), QualitativeRange(guidelines.stressLevels.value))
      && m["DietQuality"] == QualitativeResult(q.dietQuality, Label(EvaluateQualitative(q.dietQuality, guidelines.dietQuality)), QualitativeRange(guidelines.dietQuality.value))
  {
    var q := QuestionnaireOf(client).value;
    QuestionnaireEntries(ExerciseEntry(q.exerciseWeeklyMinutes, guidelines.exerciseWeeklyMinutes),
      AnswerEntry(q.sleepQuality, guidelines.sleepQuality), AnswerEntry(q.stressLevels, guidelines.stressLevels),
      AnswerEntry(q.dietQuality, guidelines.dietQuality));
  }

  /** Lookups in the questionnaire dictionary built from four entries: each
      key gives back its own entry, whatever the entries are. */
  lemma QuestionnaireEntries(exercise: QualitativeResult, sleep: QualitativeResult, stress: QualitativeResult, diet: QualitativeResult)
    ensures var m := map["ExerciseWeeklyMinutes" := exercise]["SleepQuality" := sleep]["StressLevels" := stress]["DietQuality" := diet];
      && m["ExerciseWeeklyMinutes"] == exercise && m["SleepQuality"] == sleep
      && m["StressLevels"] == stress && m["DietQuality"] == diet
  {
    QualitativeKeysDistinct();
  }

  /** No entry of a numeric map has the "guideline missing" status. */
  predicate NoMissingHealthStatus(m: map<string, MetricResult>) {
    forall k :: k in m ==> m[k].status != Label(GuidelineMissing)
  }

  /** No entry of a questionnaire map has the "guideline missing" status. */
  predicate NoMissingQualitativeStatus(m: map<string, QualitativeResult>) {
    forall k :: k in m ==> m[k].status != Label(GuidelineMissing)
  }

  /** With every guideline section it reads present, no numeric entry of the
      report says a guideline is missing. */
  lemma NoMissingHealthGuideline(client: Client, guidelines: MedicalGuidelines)
    requires GuidelinesCover(client, guidelines)
    ensures NoMissingHealthStatus(HealthMetricsFor(client, guidelines))
  {
    var cholesterol: map<string, MetricResult> := map[];
    if CholesterolOf(client).Some? {
      var c, g := CholesterolOf(client).value, guidelines.cholesterol.value;
      cholesterol := map["CholesterolTotal" := MetricEntry(c.total, g.total)];
      cholesterol := HealthStatusUpdate(cholesterol, "CholesterolHdl", MetricEntry(c.hdl, g.hdl));
      cholesterol := HealthStatusUpdate(cholesterol, "CholesterolLdl", MetricEntry(c.ldl, g.ldl));
    }
    var withSugar := cholesterol;
    if BloodworkOf(client).Some? {
      withSugar := HealthStatusUpdate(cholesterol, "BloodSugar",
        MetricEntry(BloodworkOf(client).value.bloodSugar as real, guidelines.bloodSugar));
    }
    var all := withSugar;
    if BloodPressureOf(client).Some? {
      all := HealthStatusUpdate(withSugar, "BloodPressure",
        BloodPressureEntry(HealthEvaluator(guidelines), BloodPressureOf(client).value));
    }
    assert all == HealthMetricsFor(client, guidelines);
  }

  /** With every guideline section it reads present, no questionnaire entry
      of the report says a guideline is missing. */
  lemma NoMissingQualitativeGuideline(client: Client, guidelines: MedicalGuidelines)
    requires GuidelinesCover(client, guidelines)
    ensures NoMissingQualitativeStatus(QualitativeMetricsFor(client, guidelines))
  {
    if QuestionnaireOf(client).Some? {
      var q := QuestionnaireOf(client).value;
      var m := map["ExerciseWeeklyMinutes" := ExerciseEntry(q.exerciseWeeklyMinutes, guidelines.exerciseWeeklyMinutes)];
      m := QualitativeStatusUpdate(m, "SleepQuality", AnswerEntry(q.sleepQuality, guidelines.sleepQuality));
      m := QualitativeStatusUpdate(m, "StressLevels", AnswerEntry(q.stressLevels, guidelines.stressLevels));
      m := QualitativeStatusUpdate(m, "DietQuality", AnswerEntry(q.dietQuality, guidelines.dietQuality));
      assert m == QualitativeMetricsFor(client, guidelines);
    }
  }

  /** Adding an entry that is not "guideline missing" keeps a numeric map free of them. */
  lemma HealthStatusUpdate(m: map<string, MetricResult>, k: string, r: MetricResult)
    returns (m': map<string, MetricResult>)
    requires NoMissingHealthStatus(m) && r.status != Label(GuidelineMissing)
    ensures m' == m[k := r] && NoMissingHealthStatus(m')
  {
    m' := m[k := r];
  }

  /** Adding an entry that is not "guideline missing" keeps a questionnaire map free of them. */
  lemma QualitativeStatusUpdate(m: map<string, QualitativeResult>, k: string, r: QualitativeResult)
    returns (m': map<string, QualitativeResult>)
    requires NoMissingQualitativeStatus(m) && r.status != Label(GuidelineMissing)
    ensures m' == m[k := r] && NoMissingQualitativeStatus(m')
  {
    m' := m[k := r];
  }

  /** A client without medical data gets an empty report. */
  lemma EmptyWithoutMedicalData(client: Client, guidelines: MedicalGuidelines)
    requires client.medicalData.None?
    ensures GuidelinesCover(client, guidelines)
    ensures HealthMetricsFor(client, guidelines) == map[]
    ensures QualitativeMetricsFor(client, guidelines) == map[]
  {
  }

  /** Lines 65-150 of `GenerateClientReport`: builds the evaluator and the
      report, then adds each measurement whose data the client has. */
  method GenerateClientReport(client: Client, guidelines: MedicalGuidelines) returns (report: ClientHealthReport)
    requires GuidelinesCover(client, guidelines)
    ensures fresh(report)
    ensures report.clientId == client.id && report.clientName == client.name
    ensures report.overallAssessment == None
    ensures report.healthMetrics == HealthMetricsFor(client, guidelines)
    ensures report.qualitativeMetrics == QualitativeMetricsFor(client, guidelines)
  {
    var evaluator := NewHealthEvaluator(Some(guidelines)).value;
    report := new ClientHealthReport(client.id, client.name);
    AddCholesterol(report, client, guidelines);
    AddBloodSugar(report, client, guidelines);
    AddBloodPressure(report, evaluator, client, guidelines);
    AddQuestionnaire(report, client, guidelines);
  }

  /** Lines 75-95: the three cholesterol entries, when there is cholesterol. */
  method AddCholesterol(report: ClientHealthReport, client: Client, guidelines: MedicalGuidelines)
    requires GuidelinesCover(client, guidelines)
    modifies report
    ensures report.healthMetrics == WithCholesterol(client, guidelines, old(report.healthMetrics))
    ensures report.qualitativeMetrics == old(report.qualitativeMetrics)
    ensures report.clientId == old(report.clientId) && report.clientName == old(report.clientName)
    ensures report.overallAssessment == old(report.overallAssessment)
  {
    if CholesterolOf(client).Some? {
      var c, g := CholesterolOf(client).value, guidelines.cholesterol.value;
      report.SetHealthMetric("CholesterolTotal", MetricEntry(c.total, g.total));
      report.SetHealthMetric("CholesterolHdl", MetricEntry(c.hdl, g.hdl));
      report.SetHealthMetric("CholesterolLdl", MetricEntry(c.ldl, g.ldl));
    }
  }

  /** Lines 97-105: the blood-sugar entry, when there is bloodwork. */
  method AddBloodSugar(report: ClientHealthReport, client: Client, guidelines: MedicalGuidelines)
    requires GuidelinesCover(client, guidelines)
    modifies report
    ensures report.healthMetrics == WithBloodSugar(client, guidelines, old(report.healthMetrics))
    ensures report.qualitativeMetrics == old(report.qualitativeMetrics)
    ensures report.clientId == old(report.clientId) && report.clientName == old(report.clientName)
    ensures report.overallAssessment == old(report.overallAssessment)
  {
    if BloodworkOf(client).Some? {
      var bloodwork := BloodworkOf(client).value;
      report.SetHealthMetric("BloodSugar", MetricEntry(bloodwork.bloodSugar as real, guidelines.bloodSugar));
    }
  }

  /** Lines 107-122: the blood-pressure entry, when there is a reading,
      rated by the evaluator built from these guidelines at line 65. */
  method AddBloodPressure(report: ClientHealthReport, evaluator: HealthEvaluator, client: Client, guidelines: MedicalGuidelines)
    requires GuidelinesCover(client, guidelines)
    requires evaluator.guidelines == guidelines
    modifies report
    ensures report.healthMetrics == WithBloodPressure(client, guidelines, old(report.healthMetrics))
    ensures report.qualitativeMetrics == old(report.qualitativeMetrics)
    ensures report.clientId == old(report.clientId) && report.clientName == old(report.clientName)
    ensures report.overallAssessment == old(report.overallAssessment)
  {
    if BloodPressureOf(client).Some? {
      report.SetHealthMetric("BloodPressure", BloodPressureEntry(evaluator, BloodPressureOf(client).value));
    }
  }

  /** Lines 124-150: the four questionnaire entries, when there is a
      questionnaire. */
  method AddQuestionnaire(report: ClientHealthReport, client: Client, guidelines: MedicalGuidelines)
    requires GuidelinesCover(client, guidelines)
    requires report.qualitativeMetrics == map[]
    modifies report
    ensures report.qualitativeMetrics == QualitativeMetricsFor(client, guidelines)
    ensures report.healthMetrics == old(report.healthMetrics)
    ensures report.clientId == old(report.clientId) && report.clientName == old(report.clientName)
    ensures report.overallAssessment == old(report.overallAssessment)
  {
    if QuestionnaireOf(client).Some? {
      var q := QuestionnaireOf(client).value;
      report.SetQualitativeMetric("ExerciseWeeklyMinutes", ExerciseEntry(q.exerciseWeeklyMinutes, guidelines.exerciseWeeklyMinutes));
      report.SetQualitativeMetric("SleepQuality", AnswerEntry(q.sleepQuality, guidelines.sleepQuality));
      report.SetQualitativeMetric("StressLevels", AnswerEntry(q.stressLevels, guidelines.stressLevels));
      report.SetQualitativeMetric("DietQuality", AnswerEntry(q.dietQuality, guidelines.dietQuality));
    }
  }
}
