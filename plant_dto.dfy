/** The records that cross the service boundaries (the `dto` package). */
module PlantDto {
  import opened Wrappers

  /** One channel's averages over the similar, better and worse cohorts; `None` where the cohort was empty. */
  datatype SensorComparison = SensorComparison(
    sensorName: string,
    similarAvg: Option<real>,
    betterAvg: Option<real>,
    worseAvg: Option<real>)

  /** One channel's 0-100 score and its status label. */
  datatype MetricScore = MetricScore(sensorName: string, score: int, status: string)

  /** One care-guide entry of the narrative advice. */
  datatype CareGuide = CareGuide(issue: string, content: string)

  /** The final report; `logId` is the identifier of the analysis log it is stored under. */
  datatype PlantReport = PlantReport(
    logId: int,
    plantName: string,
    overallScore: int,
    metricScores: seq<MetricScore>,
    caption: string,
    analysis: string,
    keywords: seq<string>,
    careGuide: seq<CareGuide>,
    similarImages: seq<string>)
}
