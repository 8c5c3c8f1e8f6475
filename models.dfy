/** The records the evaluator and the report work on. Every C# reference that
    may be null is an `Option`; values the source declares `int` are `int`,
    `double` values are `real`. */
module Models {
  import opened Wrappers

  /** A three-tier guideline for a numeric measurement; each tier is a range
      specification such as "<200", "200-239" or ">=240". */
  datatype MetricGuideline = MetricGuideline(
    optimal: Option<string>,
    needsAttention: Option<string>,
    seriousIssue: Option<string>)

  /** A three-tier guideline for a free-text answer; each tier is a description. */
  datatype QualitativeGuideline = QualitativeGuideline(
    optimal: Option<string>,
    needsAttention: Option<string>,
    seriousIssue: Option<string>)

  /** The systolic and diastolic range specifications of one blood-pressure tier. */
  datatype BloodPressureRange = BloodPressureRange(systolic: Option<string>, diastolic: Option<string>)

  datatype BloodPressureGuideline = BloodPressureGuideline(
    optimal: BloodPressureRange,
    needsAttention: BloodPressureRange,
    seriousIssue: BloodPressureRange)

  /** The cholesterol section of the guidelines. */
  datatype GuidelineSet = GuidelineSet(
    total: Option<MetricGuideline>,
    hdl: Option<MetricGuideline>,
    ldl: Option<MetricGuideline>)

  datatype MedicalGuidelines = MedicalGuidelines(
    cholesterol: Option<GuidelineSet>,
    bloodSugar: Option<MetricGuideline>,
    bloodPressure: Option<BloodPressureGuideline>,
    exerciseWeeklyMinutes: Option<MetricGuideline>,
    sleepQuality: Option<QualitativeGuideline>,
    stressLevels: Option<QualitativeGuideline>,
    dietQuality: Option<QualitativeGuideline>)

  datatype Cholesterol = Cholesterol(total: real, hdl: real, ldl: real)

  datatype BloodPressure = BloodPressure(systolic: int, diastolic: int)

  datatype Bloodwork = Bloodwork(
    cholesterol: Option<Cholesterol>,
    bloodSugar: int,
    bloodPressure: Option<BloodPressure>)

  datatype Questionnaire = Questionnaire(
    exerciseWeeklyMinutes: int,
    sleepQuality: Option<string>,
    stressLevels: Option<string>,
    dietQuality: Option<string>)

  datatype MedicalData = MedicalData(bloodwork: Option<Bloodwork>, questionnaire: Option<Questionnaire>)

  datatype Client = Client(
    id: Option<string>,
    name: Option<string>,
    gender: Option<string>,
    medicalData: Option<MedicalData>)

  /** One numeric entry of a health report. */
  datatype MetricResult = MetricResult(clientValue: real, status: string, guidelineRange: string)

  /** One questionnaire entry of a health report. */
  datatype QualitativeResult = QualitativeResult(clientValue: Option<string>, status: string, guidelineRange: string)
}
